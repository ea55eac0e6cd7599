/** String helpers with the semantics of the Python `str` methods the program
    uses: `split` on a one-character separator, `find`, `startswith`. */
module Text {

  /** `s` starts with `prefix` (Python `s.startswith(prefix)`). */
  predicate StartsWith(s: string, prefix: string) {
    |prefix| <= |s| && s[..|prefix|] == prefix
  }

  lemma ConcatAssoc(a: string, b: string, c: string)
    ensures a + (b + c) == a + b + c
  {
  }

  /** Position of the first `d` in `s`, or `|s|` when `d` does not occur. */
  function IndexOf(s: string, d: char): (i: nat)
    ensures i <= |s|
    ensures i < |s| ==> s[i] == d
    ensures forall j :: 0 <= j < i ==> s[j] != d
  {
    if |s| == 0 then 0
    else if s[0] == d then 0
    else 1 + IndexOf(s[1..], d)
  }

  /** The pieces joined back together with `d` between consecutive pieces
      (Python `d.join(parts)`). */
  function Join(parts: seq<string>, d: char): string
  {
    if |parts| == 0 then ""
    else if |parts| == 1 then parts[0]
    else parts[0] + [d] + Join(parts[1..], d)
  }

  lemma JoinCons(head: string, tail: seq<string>, d: char)
    requires |tail| >= 1
    ensures Join([head] + tail, d) == head + [d] + Join(tail, d)
  {
    assert ([head] + tail)[1..] == tail;
  }

  /** Python `s.split(d)` for a one-character separator: the maximal runs of
      `s` free of `d`, including empty runs at either end or between two
      adjacent separators. */
  function Split(s: string, d: char): (parts: seq<string>)
    ensures |parts| >= 1
    ensures parts[0] == s[..IndexOf(s, d)]
    ensures forall k :: 0 <= k < |parts| ==> d !in parts[k]
    ensures Join(parts, d) == s
    decreases |s|
  {
    var i := IndexOf(s, d);
    if i == |s| then
      assert s[..i] == s;
      [s]
    else
      var rest := Split(s[i + 1..], d);
      assert s == s[..i] + [d] + s[i + 1..];
      [s[..i]] + rest
  }

  /** The first separator of `a + [d] + b` is the one after `a`, when `a` is
      free of `d`. */
  lemma IndexOfAfterFreePrefix(a: string, d: char, b: string)
    requires d !in a
    ensures IndexOf(a + [d] + b, d) == |a|
  {
    var s := a + [d] + b;
    assert s[|a|] == d;
    assert forall j :: 0 <= j < |a| ==> s[j] == a[j] && a[j] != d;
  }

  /** Splitting at a first separator preceded by a separator-free prefix. */
  lemma SplitAfterFirst(a: string, d: char, b: string)
    requires d !in a
    ensures Split(a + [d] + b, d) == [a] + Split(b, d)
  {
    var s := a + [d] + b;
    IndexOfAfterFreePrefix(a, d, b);
    assert s[..|a|] == a;
    assert s[|a| + 1..] == b;
  }

  /** Splitting undoes joining, for pieces that are free of the separator. */
  lemma {:induction false} SplitJoin(parts: seq<string>, d: char)
    requires |parts| >= 1
    requires forall k :: 0 <= k < |parts| ==> d !in parts[k]
    ensures Split(Join(parts, d), d) == parts
    decreases |parts|
  {
    if |parts| == 1 {
      var s := parts[0];
      assert forall j :: 0 <= j < |s| ==> s[j] != d;
    } else {
      var head, tail := parts[0], parts[1..];
      var rest := Join(tail, d);
      var s := head + [d] + rest;
      assert Join(parts, d) == s;
      IndexOfAfterFreePrefix(head, d, rest);
      assert s[..|head|] == head;
      assert s[|head| + 1..] == rest;
      assert forall k :: 0 <= k < |tail| ==> d !in tail[k] by {
        forall k | 0 <= k < |tail| ensures d !in tail[k] {
          assert tail[k] == parts[k + 1];
        }
      }
      SplitJoin(tail, d);
      assert Split(s, d) == [head] + Split(rest, d);
      assert parts == [head] + tail;
    }
  }

  /** `pat` occurs in `s` starting at position `i`. */
  predicate OccursAt(s: string, pat: string, i: nat) {
    i + |pat| <= |s| && s[i..i + |pat|] == pat
  }

  /** `pat` occurs somewhere in `s` (Python `pat in s`). */
  predicate Contains(s: string, pat: string) {
    exists i: nat :: i <= |s| && OccursAt(s, pat, i)
  }

  /** Search for `pat` in `s` from position `from` onwards. */
  function FindFrom(s: string, pat: string, from: nat): (r: int)
    requires from <= |s|
    ensures r == -1 || from <= r <= |s|
    ensures r == -1 ==> forall j: nat :: from <= j ==> !OccursAt(s, pat, j)
    ensures r != -1 ==> OccursAt(s, pat, r) && forall j: nat :: from <= j < r ==> !OccursAt(s, pat, j)
    decreases |s| - from
  {
    if OccursAt(s, pat, from) then from
    else if from + |pat| >= |s| then -1
    else FindFrom(s, pat, from + 1)
  }

  /** Python `s.find(pat)`: the lowest index at which `pat` occurs, or -1. */
  function Find(s: string, pat: string): (r: int)
    ensures r == -1 <==> !Contains(s, pat)
    ensures r != -1 ==> 0 <= r && OccursAt(s, pat, r)
    ensures r != -1 ==> forall j: nat :: j < r ==> !OccursAt(s, pat, j)
  {
    FindFrom(s, pat, 0)
  }
}
