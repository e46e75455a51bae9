/**
 * The currency-priority configuration of the bank-account conversion
 * (`HyperwalletBankAccountCurrencyResolutionConfiguration`): one string such
 * as `GB,CAD;US:USD;CA:CAD,USD` gives a global list of currencies in priority
 * order and, per country, a list that takes its place for that country.
 */
module CurrencyPriority {
  import opened Seqs
  import opened Strings

  const SegmentSeparator: char := ';'
  const CountrySeparator: char := ':'
  const CurrencySeparator: char := ','

  /** What the configuration yields: `getGlobalCurrencyPriority` and `getPerCountryCurrencyPriority`. */
  datatype CurrencyPriority = CurrencyPriority(global: seq<string>, perCountry: map<string, seq<string>>)

  /** One `;`-separated segment: a global list, or a country code with its own list. */
  datatype Segment =
    | GlobalSegment(currencies: seq<string>)
    | CountrySegment(country: string, currencies: seq<string>)

  function TrimAll(raw: seq<string>): (r: seq<string>)
    ensures |r| == |raw| && forall i :: 0 <= i < |raw| ==> r[i] == Trim(raw[i])
  {
    seq(|raw|, i requires 0 <= i < |raw| => Trim(raw[i]))
  }

  predicate NonEmpty(s: string)
  {
    s != []
  }

  /** A comma-separated currency list: each entry trimmed, blank entries dropped, order kept. */
  function ParseCurrencies(list: string): seq<string>
  {
    Filter(TrimAll(Split(list, CurrencySeparator)), NonEmpty)
  }

  function UpperChar(c: char): char
  {
    if 'a' <= c <= 'z' then (c as int - 32) as char else c
  }

  /** Upper-casing of the ASCII letters; every other character is kept. */
  function UpperAscii(s: string): (r: string)
    ensures |r| == |s| && forall i :: 0 <= i < |s| ==> r[i] == UpperChar(s[i])
  {
    seq(|s|, i requires 0 <= i < |s| => UpperChar(s[i]))
  }

  /**
   * A segment with a `:` gives the upper-cased, trimmed text before its
   * first `:` as the country and the list after it; any other segment is a
   * global list.
   */
  function ParseSegment(segment: string): Segment
  {
    if CountrySeparator in segment then
      var i := IndexOf(segment, CountrySeparator);
      CountrySegment(UpperAscii(Trim(segment[..i])), ParseCurrencies(segment[i + 1..]))
    else
      GlobalSegment(ParseCurrencies(segment))
  }

  function ParseSegments(segments: seq<string>): (r: seq<Segment>)
    ensures |r| == |segments| && forall i :: 0 <= i < |segments| ==> r[i] == ParseSegment(segments[i])
  {
    seq(|segments|, i requires 0 <= i < |segments| => ParseSegment(segments[i]))
  }

  /** Global lists are appended in order; a country segment sets (or replaces) that country's list. */
  function Apply(acc: CurrencyPriority, segment: Segment): CurrencyPriority
  {
    match segment
    case GlobalSegment(currencies) => acc.(global := acc.global + currencies)
    case CountrySegment(country, currencies) => acc.(perCountry := acc.perCountry[country := currencies])
  }

  function Collect(acc: CurrencyPriority, segments: seq<Segment>): CurrencyPriority
    decreases |segments|
  {
    if segments == [] then acc else Collect(Apply(acc, segments[0]), segments[1..])
  }

  lemma CollectOne(acc: CurrencyPriority, segment: Segment)
    ensures Collect(acc, [segment]) == Apply(acc, segment)
  {
    assert [segment][1..] == [];
  }

  lemma CollectTwo(acc: CurrencyPriority, first: Segment, second: Segment)
    ensures Collect(acc, [first, second]) == Apply(Apply(acc, first), second)
  {
    assert [first, second][1..] == [second];
    assert Collect(acc, [first, second]) == Collect(Apply(acc, first), [second]);
    assert [second][1..] == [];
    assert Collect(Apply(acc, first), [second]) == Collect(Apply(Apply(acc, first), second), []);
  }

  const NoPriority: CurrencyPriority := CurrencyPriority([], map[])

  /** The configuration object built from its string. */
  function Parse(config: string): CurrencyPriority
  {
    Collect(NoPriority, ParseSegments(Split(config, SegmentSeparator)))
  }

  /** The currencies of the global segments, concatenated in order. */
  function GlobalCurrencies(segments: seq<Segment>): seq<string>
  {
    if segments == [] then []
    else (if segments[0].GlobalSegment? then segments[0].currencies else []) + GlobalCurrencies(segments[1..])
  }

  /** Segment `i` is the last one for its country. */
  ghost predicate LastForCountry(segments: seq<Segment>, i: int)
  {
    0 <= i < |segments| && segments[i].CountrySegment?
    && forall j :: i < j < |segments| && segments[j].CountrySegment? ==> segments[j].country != segments[i].country
  }

  /** Some segment gives `country` a list. */
  ghost predicate Names(segments: seq<Segment>, country: string)
  {
    exists i :: 0 <= i < |segments| && segments[i].CountrySegment? && segments[i].country == country
  }

  /** Collecting appends the global lists, in order, to the ones already gathered. */
  lemma {:induction false} CollectGlobal(acc: CurrencyPriority, segments: seq<Segment>)
    ensures Collect(acc, segments).global == acc.global + GlobalCurrencies(segments)
    decreases |segments|
  {
    if segments != [] {
      var next := Apply(acc, segments[0]);
      CollectGlobal(next, segments[1..]);
      assert acc.global + GlobalCurrencies(segments) == next.global + GlobalCurrencies(segments[1..]);
    }
  }

  /** A country has a list after collecting exactly when it had one before or some segment names it. */
  lemma {:induction false} CollectCountries(acc: CurrencyPriority, segments: seq<Segment>)
    ensures forall c :: c in Collect(acc, segments).perCountry <==> c in acc.perCountry || Names(segments, c)
    decreases |segments|
  {
    if segments != [] {
      var next := Apply(acc, segments[0]);
      var tail := segments[1..];
      CollectCountries(next, tail);
      forall c | Names(tail, c) ensures Names(segments, c) {
        var i :| 0 <= i < |tail| && tail[i].CountrySegment? && tail[i].country == c;
        assert segments[i + 1] == tail[i];
      }
      forall c | Names(segments, c) ensures c in next.perCountry || Names(tail, c) {
        var i :| 0 <= i < |segments| && segments[i].CountrySegment? && segments[i].country == c;
        if i > 0 {
          assert tail[i - 1] == segments[i];
        }
      }
    }
  }

  /** The last segment that names a country decides its list. */
  lemma {:induction false} CollectLastWins(acc: CurrencyPriority, segments: seq<Segment>)
    ensures forall i :: LastForCountry(segments, i) ==>
              && segments[i].country in Collect(acc, segments).perCountry
              && Collect(acc, segments).perCountry[segments[i].country] == segments[i].currencies
    decreases |segments|
  {
    if segments != [] {
      var next := Apply(acc, segments[0]);
      var tail := segments[1..];
      CollectLastWins(next, tail);
      forall i | LastForCountry(segments, i)
        ensures && segments[i].country in Collect(acc, segments).perCountry
                && Collect(acc, segments).perCountry[segments[i].country] == segments[i].currencies
      {
        if i > 0 {
          assert LastForCountry(tail, i - 1);
        } else {
          var c := segments[0].country;
          forall j | 0 <= j < |tail| && tail[j].CountrySegment? ensures tail[j].country != c {
            assert tail[j] == segments[j + 1];
          }
          CollectUntouched(next, tail, c);
        }
      }
    }
  }

  /** A country no segment names keeps the list it had. */
  lemma {:induction false} CollectUntouched(acc: CurrencyPriority, segments: seq<Segment>, c: string)
    requires c in acc.perCountry
    requires forall i :: 0 <= i < |segments| && segments[i].CountrySegment? ==> segments[i].country != c
    ensures c in Collect(acc, segments).perCountry && Collect(acc, segments).perCountry[c] == acc.perCountry[c]
    decreases |segments|
  {
    if segments != [] {
      var tail := segments[1..];
      forall j | 0 <= j < |tail| && tail[j].CountrySegment? ensures tail[j].country != c {
        assert tail[j] == segments[j + 1];
      }
      CollectUntouched(Apply(acc, segments[0]), tail, c);
    }
  }

  /** A currency or country as the configuration writes it: non-blank ends, no separator. */
  predicate IsToken(t: string)
  {
    && t != [] && !IsTrimmable(t[0]) && !IsTrimmable(t[|t| - 1])
    && CurrencySeparator !in t && SegmentSeparator !in t && CountrySeparator !in t
  }

  predicate IsCountryCode(c: string)
  {
    IsToken(c) && UpperAscii(c) == c
  }

  predicate WellFormedSegment(segment: Segment)
  {
    && (forall i :: 0 <= i < |segment.currencies| ==> IsToken(segment.currencies[i]))
    && (segment.CountrySegment? ==> IsCountryCode(segment.country))
  }

  function RenderCurrencies(currencies: seq<string>): string
  {
    if currencies == [] then "" else Join(currencies, CurrencySeparator)
  }

  function RenderSegment(segment: Segment): string
  {
    match segment
    case GlobalSegment(currencies) => RenderCurrencies(currencies)
    case CountrySegment(country, currencies) => country + [CountrySeparator] + RenderCurrencies(currencies)
  }

  function RenderSegments(segments: seq<Segment>): (r: seq<string>)
    ensures |r| == |segments| && forall i :: 0 <= i < |segments| ==> r[i] == RenderSegment(segments[i])
  {
    seq(|segments|, i requires 0 <= i < |segments| => RenderSegment(segments[i]))
  }

  /** The configuration string that lists the segments in order. */
  function Render(segments: seq<Segment>): string
    requires |segments| >= 1
  {
    Join(RenderSegments(segments), SegmentSeparator)
  }

  /** A joined list holds a character that neither the parts nor the separator hold. */
  lemma {:induction false} JoinAvoids(parts: seq<string>, sep: char, c: char)
    requires |parts| >= 1 && c != sep && forall i :: 0 <= i < |parts| ==> c !in parts[i]
    ensures c !in Join(parts, sep)
  {
    if |parts| > 1 {
      JoinAvoids(parts[1..], sep, c);
    }
  }

  /** Trimming leaves well-formed tokens as they are. */
  lemma TrimAllTokens(tokens: seq<string>)
    requires forall i :: 0 <= i < |tokens| ==> IsToken(tokens[i])
    ensures TrimAll(tokens) == tokens
  {
    var trimmed := TrimAll(tokens);
    forall i | 0 <= i < |tokens| ensures trimmed[i] == tokens[i] {
      TrimUntrimmed(tokens[i]);
    }
  }

  /** The empty list reads as no currency. */
  lemma ParseNoCurrencies()
    ensures ParseCurrencies([]) == []
  {
    var empty: string := [];
    assert Split(empty, CurrencySeparator) == [empty];
    assert TrimAll([empty]) == [empty];
  }

  /** A currency list of well-formed entries reads back as itself. */
  lemma ParseRenderCurrencies(currencies: seq<string>)
    requires forall i :: 0 <= i < |currencies| ==> IsToken(currencies[i])
    ensures ParseCurrencies(RenderCurrencies(currencies)) == currencies
    ensures CountrySeparator !in RenderCurrencies(currencies) && SegmentSeparator !in RenderCurrencies(currencies)
  {
    if currencies == [] {
      ParseNoCurrencies();
    } else {
      SplitJoin(currencies, CurrencySeparator);
      TrimAllTokens(currencies);
      assert forall x :: x in currencies ==> NonEmpty(x);
      FilterAll(currencies, NonEmpty);
      JoinAvoids(currencies, CurrencySeparator, CountrySeparator);
      JoinAvoids(currencies, CurrencySeparator, SegmentSeparator);
    }
  }

  /** A well-formed segment reads back as itself. */
  lemma ParseRenderSegment(segment: Segment)
    requires WellFormedSegment(segment)
    ensures ParseSegment(RenderSegment(segment)) == segment
    ensures SegmentSeparator !in RenderSegment(segment)
  {
    ParseRenderCurrencies(segment.currencies);
    if segment.CountrySegment? {
      ParseCountrySegment(segment.country, RenderCurrencies(segment.currencies));
    }
  }

  /** A country code, a `:` and a list without `:` read as that country's segment. */
  lemma ParseCountrySegment(country: string, list: string)
    requires IsCountryCode(country) && CountrySeparator !in list
    ensures ParseSegment(country + [CountrySeparator] + list) == CountrySegment(country, ParseCurrencies(list))
  {
    var s := country + [CountrySeparator] + list;
    IndexOfFirst(s, CountrySeparator, |country|);
    assert s[..|country|] == country;
    assert s[|country| + 1..] == list;
    TrimUntrimmed(country);
  }

  /**
   * Round trip: the string that lists well-formed segments parses to what
   * collecting those segments gives.
   */
  lemma ParseRender(segments: seq<Segment>)
    requires |segments| >= 1 && forall i :: 0 <= i < |segments| ==> WellFormedSegment(segments[i])
    ensures Parse(Render(segments)) == Collect(NoPriority, segments)
  {
    var rendered := RenderSegments(segments);
    forall i | 0 <= i < |segments| ensures SegmentSeparator !in rendered[i] && ParseSegment(rendered[i]) == segments[i] {
      ParseRenderSegment(segments[i]);
    }
    SplitJoin(rendered, SegmentSeparator);
    assert ParseSegments(rendered) == segments;
  }

  /** A configuration without `;` and `:` is one global list and no per-country entry. */
  lemma ParseGlobalOnly(config: string)
    requires SegmentSeparator !in config && CountrySeparator !in config
    ensures Parse(config) == CurrencyPriority(ParseCurrencies(config), map[])
  {
    assert Split(config, SegmentSeparator) == [config];
    var segment := GlobalSegment(ParseCurrencies(config));
    assert ParseSegments([config]) == [segment];
    CollectOne(NoPriority, segment);
  }

  /** Two entries around a comma read as the two trimmed entries, when neither is blank. */
  lemma ParseTwoCurrencies(first: string, second: string)
    requires CurrencySeparator !in first && CurrencySeparator !in second
    requires Trim(first) != [] && Trim(second) != []
    ensures ParseCurrencies(first + [CurrencySeparator] + second) == [Trim(first), Trim(second)]
  {
    SplitTwo(first, second, CurrencySeparator);
    var trimmed := TrimAll([first, second]);
    assert trimmed == [Trim(first), Trim(second)];
    KeepTwoNonEmpty(Trim(first), Trim(second));
  }

  lemma KeepTwoNonEmpty(a: string, b: string)
    requires a != [] && b != []
    ensures Filter([a, b], NonEmpty) == [a, b]
  {
    FilterAll([a, b], NonEmpty);
  }

  /** Two tokens separated by a comma and a blank make the whole global list. */
  lemma TwoGlobalCurrencies(first: string, blank: char, second: string)
    requires IsToken(first) && IsToken(second) && IsTrimmable(blank) && blank != CurrencySeparator
    ensures Parse(first + [CurrencySeparator, blank] + second) == CurrencyPriority([first, second], map[])
  {
    var config := first + [CurrencySeparator, blank] + second;
    assert config == first + [CurrencySeparator] + ([blank] + second);
    ParseGlobalOnly(config);
    TrimUntrimmed(first);
    TrimLeadingBlank(blank, second);
    ParseTwoCurrencies(first, [blank] + second);
  }

  /** `"USD, EUR"`: the global list is USD then EUR, the blank after the comma trimmed away, and no country has a list. */
  lemma GlobalPriorityOnly()
    ensures Parse("USD, EUR") == CurrencyPriority(["USD", "EUR"], map[])
  {
    GlobalPriorityOnlyText();
    TwoGlobalCurrencies("USD", ' ', "EUR");
  }

  lemma GlobalPriorityOnlyText()
    ensures "USD, EUR" == "USD" + [CurrencySeparator, ' '] + "EUR"
  {
  }

  /** A single token is the whole global list. */
  lemma OneGlobalCurrency(currency: string)
    requires IsToken(currency)
    ensures Parse(currency) == CurrencyPriority([currency], map[])
  {
    ParseGlobalOnly(currency);
    ParseRenderCurrencies([currency]);
  }

  /** `"USD"`: the global list is USD alone. */
  lemma SingleGlobalCurrency()
    ensures Parse("USD").global == ["USD"]
  {
    OneGlobalCurrency("USD");
  }

  /** The list of one country with one currency, then one with two: the text and what collecting it gives. */
  lemma RenderTwoCountries(c1: string, x: string, c2: string, y: string, z: string)
    ensures var segments := [CountrySegment(c1, [x]), CountrySegment(c2, [y, z])];
            && Render(segments) == c1 + [CountrySeparator] + x + [SegmentSeparator] + c2 + [CountrySeparator] + y + [CurrencySeparator] + z
            && Collect(NoPriority, segments) == CurrencyPriority([], map[c1 := [x], c2 := [y, z]])
  {
    var segments := [CountrySegment(c1, [x]), CountrySegment(c2, [y, z])];
    var first := c1 + [CountrySeparator] + x;
    var second := c2 + [CountrySeparator] + (y + [CurrencySeparator] + z);
    JoinCons(y, [z], CurrencySeparator);
    assert [y, z] == [y] + [z];
    assert RenderSegments(segments) == [first] + [second];
    JoinCons(first, [second], SegmentSeparator);
    CollectTwo(NoPriority, segments[0], segments[1]);
  }

  /** Two country segments give those countries their lists and leave the global list empty. */
  lemma TwoCountryPriorities(c1: string, x: string, c2: string, y: string, z: string)
    requires IsCountryCode(c1) && IsCountryCode(c2) && IsToken(x) && IsToken(y) && IsToken(z)
    ensures Parse(c1 + [CountrySeparator] + x + [SegmentSeparator] + c2 + [CountrySeparator] + y + [CurrencySeparator] + z)
            == CurrencyPriority([], map[c1 := [x], c2 := [y, z]])
  {
    var segments := [CountrySegment(c1, [x]), CountrySegment(c2, [y, z])];
    RenderTwoCountries(c1, x, c2, y, z);
    ParseRender(segments);
  }

  /** `"US:USD;CA:CAD,USD"`: US has USD, CA has CAD then USD, and the global list is empty. */
  lemma PerCountryPriorities()
    ensures Parse("US:USD;CA:CAD,USD") == CurrencyPriority([], map["US" := ["USD"], "CA" := ["CAD", "USD"]])
  {
    PerCountryPrioritiesText();
    TwoCountryPriorities("US", "USD", "CA", "CAD", "USD");
  }

  lemma PerCountryPrioritiesText()
    ensures "US:USD;CA:CAD,USD"
            == "US" + [CountrySeparator] + "USD" + [SegmentSeparator] + "CA" + [CountrySeparator] + "CAD" + [CurrencySeparator] + "USD"
  {
  }

  /** A global list of two, then two country segments: the text and what collecting it gives. */
  lemma RenderGlobalThenTwoCountries(g1: string, g2: string, c1: string, x: string, c2: string, y: string, z: string)
    ensures var segments := [GlobalSegment([g1, g2]), CountrySegment(c1, [x]), CountrySegment(c2, [y, z])];
            && Render(segments) == (g1 + [CurrencySeparator] + g2) + [SegmentSeparator]
                                   + (c1 + [CountrySeparator] + x + [SegmentSeparator] + c2 + [CountrySeparator] + y + [CurrencySeparator] + z)
            && Collect(NoPriority, segments) == CurrencyPriority([g1, g2], map[c1 := [x], c2 := [y, z]])
  {
    var countries := [CountrySegment(c1, [x]), CountrySegment(c2, [y, z])];
    var segments := [GlobalSegment([g1, g2])] + countries;
    RenderTwoCountries(c1, x, c2, y, z);
    var global := g1 + [CurrencySeparator] + g2;
    JoinCons(g1, [g2], CurrencySeparator);
    assert [g1, g2] == [g1] + [g2];
    assert RenderSegments(segments) == [global] + RenderSegments(countries);
    JoinCons(global, RenderSegments(countries), SegmentSeparator);
    assert Render(segments) == global + [SegmentSeparator] + Render(countries);
    assert segments == [GlobalSegment([g1, g2]), CountrySegment(c1, [x]), CountrySegment(c2, [y, z])];
    var start := Apply(NoPriority, segments[0]);
    assert start == CurrencyPriority([g1, g2], map[]) by {
      assert [] + [g1, g2] == [g1, g2];
    }
    assert segments[1..] == countries;
    assert Collect(NoPriority, segments) == Collect(start, countries);
    CollectTwo(start, countries[0], countries[1]);
  }

  /** A global list of two, then two country segments. */
  lemma GlobalThenTwoCountries(g1: string, g2: string, c1: string, x: string, c2: string, y: string, z: string)
    requires IsToken(g1) && IsToken(g2) && IsCountryCode(c1) && IsCountryCode(c2) && IsToken(x) && IsToken(y) && IsToken(z)
    ensures Parse(g1 + [CurrencySeparator] + g2 + [SegmentSeparator]
                  + c1 + [CountrySeparator] + x + [SegmentSeparator] + c2 + [CountrySeparator] + y + [CurrencySeparator] + z)
            == CurrencyPriority([g1, g2], map[c1 := [x], c2 := [y, z]])
  {
    RenderGlobalThenTwoCountries(g1, g2, c1, x, c2, y, z);
    ParseRender([GlobalSegment([g1, g2]), CountrySegment(c1, [x]), CountrySegment(c2, [y, z])]);
    GlobalThenTwoCountriesText(g1, g2, c1, x, c2, y, z);
  }

  lemma GlobalThenTwoCountriesText(g1: string, g2: string, c1: string, x: string, c2: string, y: string, z: string)
    ensures g1 + [CurrencySeparator] + g2 + [SegmentSeparator]
            + c1 + [CountrySeparator] + x + [SegmentSeparator] + c2 + [CountrySeparator] + y + [CurrencySeparator] + z
            == (g1 + [CurrencySeparator] + g2) + [SegmentSeparator]
               + (c1 + [CountrySeparator] + x + [SegmentSeparator] + c2 + [CountrySeparator] + y + [CurrencySeparator] + z)
  {
  }

  /** `"GB,CAD;US:USD;CA:CAD,USD"`: the global list is GB then CAD, and the country lists are as before. */
  lemma GlobalAndPerCountryPriorities()
    ensures Parse("GB,CAD;US:USD;CA:CAD,USD") == CurrencyPriority(["GB", "CAD"], map["US" := ["USD"], "CA" := ["CAD", "USD"]])
  {
    GlobalAndPerCountryPrioritiesText();
    GlobalThenTwoCountries("GB", "CAD", "US", "USD", "CA", "CAD", "USD");
  }

  lemma GlobalAndPerCountryPrioritiesText()
    ensures "GB,CAD;US:USD;CA:CAD,USD"
            == "GB" + [CurrencySeparator] + "CAD" + [SegmentSeparator]
               + "US" + [CountrySeparator] + "USD" + [SegmentSeparator] + "CA" + [CountrySeparator] + "CAD" + [CurrencySeparator] + "USD"
  {
  }
}
