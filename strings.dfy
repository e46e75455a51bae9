/**
 * The `java.lang.String` operations the modelled code uses: `contains`,
 * `replace(CharSequence, CharSequence)`, `split` on one character and `trim`.
 */
module Strings {

  /** `s.contains(sub)`: some position of `s` starts a copy of `sub`. */
  ghost predicate OccursAt(s: string, sub: string, i: nat)
  {
    i + |sub| <= |s| && s[i..i + |sub|] == sub
  }

  function ContainsSubstring(s: string, sub: string): (r: bool)
    ensures r <==> exists i: nat :: OccursAt(s, sub, i)
    decreases |s|
  {
    if |s| < |sub| then false
    else if s[..|sub|] == sub then
      assert OccursAt(s, sub, 0);
      true
    else if s == [] then false
    else
      var rest := ContainsSubstring(s[1..], sub);
      assert forall i: nat :: OccursAt(s[1..], sub, i) ==> OccursAt(s, sub, i + 1) by {
        forall i: nat | OccursAt(s[1..], sub, i) ensures OccursAt(s, sub, i + 1) {
          assert s[1..][i..i + |sub|] == s[i + 1..i + 1 + |sub|];
        }
      }
      assert forall i: nat :: i > 0 && OccursAt(s, sub, i) ==> OccursAt(s[1..], sub, i - 1) by {
        forall i: nat | i > 0 && OccursAt(s, sub, i) ensures OccursAt(s[1..], sub, i - 1) {
          assert s[1..][i - 1..i - 1 + |sub|] == s[i..i + |sub|];
        }
      }
      assert !OccursAt(s, sub, 0);
      rest
  }

  /**
   * `s.replace(target, replacement)`: scans left to right and replaces every
   * non-overlapping occurrence of `target`; text produced by a replacement is
   * not scanned again. The modelled callers only pass non-empty targets.
   */
  function ReplaceAll(s: string, target: string, replacement: string): (r: string)
    requires target != []
    decreases |s|
  {
    if |s| < |target| then s
    else if s[..|target|] == target then replacement + ReplaceAll(s[|target|..], target, replacement)
    else [s[0]] + ReplaceAll(s[1..], target, replacement)
  }

  /** A prefix that cannot start an occurrence passes through unchanged. */
  lemma {:induction false} ReplaceAllSkipsPrefix(a: string, s: string, target: string, replacement: string)
    requires target != [] && target[0] !in a
    ensures ReplaceAll(a + s, target, replacement) == a + ReplaceAll(s, target, replacement)
    decreases |a|
  {
    if a != [] {
      if |a + s| < |target| {
        assert |s| < |target|;
      } else {
        assert (a + s)[0] == a[0];
        assert (a + s)[..|target|] != target;
        assert (a + s)[1..] == a[1..] + s;
        ReplaceAllSkipsPrefix(a[1..], s, target, replacement);
        assert a == [a[0]] + a[1..];
      }
    } else {
      assert a + s == s;
    }
  }

  /** A string that cannot start an occurrence is left as it is. */
  lemma ReplaceAllAbsent(s: string, target: string, replacement: string)
    requires target != [] && target[0] !in s
    ensures ReplaceAll(s, target, replacement) == s
  {
    ReplaceAllSkipsPrefix(s, [], target, replacement);
    assert s + [] == s;
  }

  /** An occurrence at the front is replaced and the scan resumes after it. */
  lemma ReplaceAllAtFront(s: string, target: string, replacement: string)
    requires target != []
    ensures ReplaceAll(target + s, target, replacement) == replacement + ReplaceAll(s, target, replacement)
  {
    assert (target + s)[..|target|] == target;
    assert (target + s)[|target|..] == s;
  }

  /** A single occurrence between two parts that cannot start one is replaced. */
  lemma ReplaceAllOnce(pre: string, target: string, post: string, replacement: string)
    requires target != [] && target[0] !in pre && target[0] !in post
    ensures ReplaceAll(pre + target + post, target, replacement) == pre + replacement + post
  {
    assert pre + target + post == pre + (target + post);
    ReplaceAllSkipsPrefix(pre, target + post, target, replacement);
    ReplaceAllAtFront(post, target, replacement);
    ReplaceAllAbsent(post, target, replacement);
    assert pre + (replacement + post) == pre + replacement + post;
  }

  /** Two occurrences separated by parts that cannot start one are both replaced. */
  lemma ReplaceAllTwice(pre: string, target: string, mid: string, post: string, replacement: string)
    requires target != [] && target[0] !in pre && target[0] !in mid && target[0] !in post
    ensures ReplaceAll(pre + target + mid + target + post, target, replacement)
            == pre + replacement + mid + replacement + post
  {
    assert pre + target + mid + target + post == pre + (target + (mid + target + post));
    ReplaceAllSkipsPrefix(pre, target + (mid + target + post), target, replacement);
    ReplaceAllAtFront(mid + target + post, target, replacement);
    ReplaceAllOnce(mid, target, post, replacement);
    assert pre + (replacement + (mid + replacement + post)) == pre + replacement + mid + replacement + post;
  }

  /**
   * A string that starts like `target` but differs at the second character,
   * and holds no other start of it, is left as it is.
   */
  lemma ReplaceAllMismatch(s: string, target: string, replacement: string)
    requires |s| >= 2 && |target| >= 2 && s[0] == target[0] && s[1] != target[1] && target[0] !in s[1..]
    ensures ReplaceAll(s, target, replacement) == s
  {
    if |s| >= |target| {
      assert s[..|target|][1] != target[1];
    }
    ReplaceAllAbsent(s[1..], target, replacement);
    assert s == [s[0]] + s[1..];
  }

  /** Java's `trim`: drops leading and trailing characters up to U+0020. */
  predicate IsTrimmable(c: char)
  {
    c <= ' '
  }

  function TrimStart(s: string): (r: string)
    ensures r == [] || !IsTrimmable(r[0])
    ensures |r| <= |s| && r == s[|s| - |r|..]
  {
    if s != [] && IsTrimmable(s[0]) then TrimStart(s[1..]) else s
  }

  function TrimEnd(s: string): (r: string)
    ensures r == [] || !IsTrimmable(r[|r| - 1])
    ensures |r| <= |s| && r == s[..|r|]
  {
    if s != [] && IsTrimmable(s[|s| - 1]) then TrimEnd(s[..|s| - 1]) else s
  }

  function Trim(s: string): (r: string)
  {
    TrimEnd(TrimStart(s))
  }

  /** Trimming leaves a string whose ends are not blank untouched. */
  lemma TrimUntrimmed(s: string)
    requires s != [] && !IsTrimmable(s[0]) && !IsTrimmable(s[|s| - 1])
    ensures Trim(s) == s
  {
  }

  /** Blanks in front of a string whose ends are not blank are trimmed away. */
  lemma TrimLeadingBlank(blank: char, s: string)
    requires IsTrimmable(blank) && s != [] && !IsTrimmable(s[0]) && !IsTrimmable(s[|s| - 1])
    ensures Trim([blank] + s) == s
  {
    assert ([blank] + s)[1..] == s;
    assert TrimStart([blank] + s) == TrimStart(s);
  }

  /** Position of the first `c` in `s`. */
  function IndexOf(s: string, c: char): (i: nat)
    requires c in s
    ensures i < |s| && s[i] == c
    ensures forall j :: 0 <= j < i ==> s[j] != c
  {
    if s[0] == c then 0 else 1 + IndexOf(s[1..], c)
  }

  /**
   * Splits on every `sep`; there is always at least one part. Empty parts
   * are kept, trailing ones included, where `String.split` drops the
   * trailing ones: the parser drops blank entries afterwards, so the two
   * agree there.
   */
  function Split(s: string, sep: char): (parts: seq<string>)
    ensures |parts| >= 1
    decreases |s|
  {
    if sep !in s then [s]
    else
      var i := IndexOf(s, sep);
      [s[..i]] + Split(s[i + 1..], sep)
  }

  /** The parts glued back with `sep` between consecutive ones. */
  function Join(parts: seq<string>, sep: char): string
    requires |parts| >= 1
  {
    if |parts| == 1 then parts[0] else parts[0] + [sep] + Join(parts[1..], sep)
  }

  lemma JoinCons(head: string, rest: seq<string>, sep: char)
    requires |rest| >= 1
    ensures Join([head] + rest, sep) == head + [sep] + Join(rest, sep)
  {
    assert ([head] + rest)[1..] == rest;
  }

  /** Splitting a join of separator-free parts gives back the parts. */
  lemma {:induction false} SplitJoin(parts: seq<string>, sep: char)
    requires |parts| >= 1 && forall i :: 0 <= i < |parts| ==> sep !in parts[i]
    ensures Split(Join(parts, sep), sep) == parts
  {
    if |parts| == 1 {
      assert parts == [parts[0]];
    } else {
      SplitJoin(parts[1..], sep);
      SplitCons(parts[0], Join(parts[1..], sep), sep);
      assert parts == [parts[0]] + parts[1..];
    }
  }

  /** A separator-free head followed by the separator splits off as the first part. */
  lemma SplitCons(head: string, tail: string, sep: char)
    requires sep !in head
    ensures Split(head + [sep] + tail, sep) == [head] + Split(tail, sep)
  {
    var s := head + [sep] + tail;
    IndexOfFirst(s, sep, |head|);
    assert s[..|head|] == head;
    assert s[|head| + 1..] == tail;
  }

  /** Two separator-free parts around one separator split into those two parts. */
  lemma SplitTwo(first: string, second: string, sep: char)
    requires sep !in first && sep !in second
    ensures Split(first + [sep] + second, sep) == [first, second]
  {
    SplitCons(first, second, sep);
    assert Split(second, sep) == [second];
  }

  lemma IndexOfFirst(s: string, c: char, k: nat)
    requires k < |s| && s[k] == c
    requires forall j :: 0 <= j < k ==> s[j] != c
    ensures IndexOf(s, c) == k
  {
  }
}
