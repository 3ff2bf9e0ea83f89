/** The few Python `str` operations the clients and the usage report rely on:
    `split` on one character, `join`, `partition`, `replace(c, "")` and the
    lexicographic order of `<` on strings. */
module Text {

  import opened Seqs

  /** Number of occurrences of `c` in `s`. */
  function Occurrences(s: string, c: char): nat
  {
    Count(s, (x: char) => x == c)
  }

  /** `sep.join(parts)`. */
  function Join(parts: seq<string>, sep: string): string
  {
    if |parts| == 0 then ""
    else if |parts| == 1 then parts[0]
    else parts[0] + sep + Join(parts[1..], sep)
  }

  /** Index of the first `c` in `s`. */
  function IndexOf(s: string, c: char): (i: nat)
    requires c in s
    ensures i < |s| && s[i] == c && c !in s[..i]
  {
    if s[0] == c then 0
    else
      assert c in s[1..] by {
        var k :| 0 <= k < |s| && s[k] == c;
        assert s[1..][k - 1] == c;
      }
      var i := IndexOf(s[1..], c) + 1;
      PrefixOfTail(s, i);
      i
  }

  /** A prefix of `s` is its head followed by a prefix of its tail. */
  lemma PrefixOfTail(s: string, k: nat)
    ensures 0 < k <= |s| ==> s[..k] == [s[0]] + s[1..][..k - 1]
  {
  }

  /** `s.split(c)`: the pieces between occurrences of `c`. */
  function Split(s: string, c: char): (parts: seq<string>)
    ensures |parts| == Occurrences(s, c) + 1
    ensures forall k :: 0 <= k < |parts| ==> c !in parts[k]
    decreases |s|
  {
    if c !in s then
      CountAbsent(s, c);
      [s]
    else
      var i := IndexOf(s, c);
      OccurrencesSplit(s, c, i);
      [s[..i]] + Split(s[i + 1..], c)
  }

  lemma {:induction false} CountAbsent(s: string, c: char)
    requires c !in s
    ensures Occurrences(s, c) == 0
  {
    if |s| > 0 {
      assert c !in s[1..];
      CountAbsent(s[1..], c);
    }
  }

  /** Occurrences around the first one: none before it, and one for itself. */
  lemma {:induction false} OccurrencesSplit(s: string, c: char, i: nat)
    requires i < |s| && s[i] == c && c !in s[..i]
    ensures Occurrences(s, c) == 1 + Occurrences(s[i + 1..], c)
  {
    if i > 0 {
      assert s[1..][..i - 1] == s[..i][1..];
      assert s[1..][i..] == s[i + 1..];
      OccurrencesSplit(s[1..], c, i - 1);
    }
  }

  /** Joining the pieces of a split with the separator gives back the string. */
  lemma {:induction false} JoinSplit(s: string, c: char)
    ensures Join(Split(s, c), [c]) == s
    decreases |s|
  {
    if c in s {
      var i := IndexOf(s, c);
      var rest := s[i + 1..];
      JoinSplit(rest, c);
      var parts := Split(s, c);
      assert parts[1..] == Split(rest, c);
      assert s == s[..i] + [c] + rest;
    }
  }

  /** `s.partition(c)`: the text before the first `c`, the separator found, and the rest. */
  function Partition(s: string, c: char): (r: (string, string, string))
    ensures r.0 + r.1 + r.2 == s
    ensures c !in r.0
    ensures r.1 == [] <==> c !in s
    ensures r.1 == [] ==> r.2 == []
    ensures r.1 != [] ==> r.1 == [c]
    ensures c in s ==> |r.0| == IndexOf(s, c)
  {
    if c in s then
      var i := IndexOf(s, c);
      assert s == s[..i] + [c] + s[i + 1..];
      (s[..i], [c], s[i + 1..])
    else (s, [], [])
  }

  /** `s.replace(c, "")`. */
  function Remove(s: string, c: char): (r: string)
    ensures c !in r
    ensures forall x :: x in r <==> x in s && x != c
    ensures |r| == |s| - Occurrences(s, c)
  {
    CountSplit(s, (x: char) => x == c, (x: char) => x != c);
    CountIsFilterLength(s, (x: char) => x != c);
    Filter(s, (x: char) => x != c)
  }

  /** Python's `<=` on strings: code-point order, a proper prefix first. */
  predicate StrLeq(a: string, b: string)
  {
    if |a| == 0 then true
    else if |b| == 0 then false
    else if a[0] != b[0] then a[0] < b[0]
    else StrLeq(a[1..], b[1..])
  }

  lemma {:induction false} StrLeqTotal(a: string, b: string)
    ensures StrLeq(a, b) || StrLeq(b, a)
  {
    if |a| > 0 && |b| > 0 && a[0] == b[0] {
      StrLeqTotal(a[1..], b[1..]);
    }
  }

  lemma {:induction false} StrLeqTransitive(a: string, b: string, c: string)
    requires StrLeq(a, b) && StrLeq(b, c)
    ensures StrLeq(a, c)
  {
    if |a| > 0 && |b| > 0 && |c| > 0 && a[0] == b[0] && b[0] == c[0] {
      StrLeqTransitive(a[1..], b[1..], c[1..]);
    }
  }

  lemma {:induction false} StrLeqAntisymmetric(a: string, b: string)
    requires StrLeq(a, b) && StrLeq(b, a)
    ensures a == b
  {
    if |a| > 0 && |b| > 0 {
      StrLeqAntisymmetric(a[1..], b[1..]);
    }
  }
}
