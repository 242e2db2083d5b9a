/** String helpers the orchestrator relies on: str.join, '-' * n, ASCII casefold, duplicates. */
module Text {

  /** Python's `sep.join(parts)`. */
  function Join(parts: seq<string>, sep: string): string
  {
    if |parts| == 0 then ""
    else if |parts| == 1 then parts[0]
    else parts[0] + sep + Join(parts[1..], sep)
  }

  /** Where the k-th part starts inside `Join(parts, sep)`. */
  function JoinOffset(parts: seq<string>, sep: string, k: nat): nat
    requires k < |parts|
  {
    if k == 0 then 0 else |parts[0]| + |sep| + JoinOffset(parts[1..], sep, k - 1)
  }

  /** Every part occurs, verbatim, at its offset in the joined string. */
  lemma {:induction false} JoinContainsPart(parts: seq<string>, sep: string, k: nat)
    requires k < |parts|
    ensures JoinOffset(parts, sep, k) + |parts[k]| <= |Join(parts, sep)|
    ensures Join(parts, sep)[JoinOffset(parts, sep, k)..JoinOffset(parts, sep, k) + |parts[k]|] == parts[k]
  {
    if k == 0 {
      if |parts| > 1 {
        var j := parts[0] + sep + Join(parts[1..], sep);
        assert j[..|parts[0]|] == parts[0];
      }
    } else {
      JoinContainsPart(parts[1..], sep, k - 1);
      var head := parts[0] + sep;
      assert Join(parts, sep) == head + Join(parts[1..], sep);
      SliceAfter(head, Join(parts[1..], sep), JoinOffset(parts[1..], sep, k - 1), |parts[k]|);
    }
  }

  /** A slice of `rest` is found, shifted by the length of `head`, in `head + rest`. */
  lemma SliceAfter(head: string, rest: string, off: nat, len: nat)
    requires off + len <= |rest|
    ensures (head + rest)[|head| + off..|head| + off + len] == rest[off..off + len]
  {
  }

  /** Every part occurs, verbatim, at its offset after a prefix. */
  lemma PrefixedJoinContainsPart(prefix: string, parts: seq<string>, sep: string, k: nat)
    requires k < |parts|
    ensures var off := |prefix| + JoinOffset(parts, sep, k);
      off + |parts[k]| <= |prefix + Join(parts, sep)| &&
      (prefix + Join(parts, sep))[off..off + |parts[k]|] == parts[k]
  {
    JoinContainsPart(parts, sep, k);
    SliceAfter(prefix, Join(parts, sep), JoinOffset(parts, sep, k), |parts[k]|);
  }

  /** Python's `c * n` for a one-character string `c`. */
  function Repeat(c: char, n: nat): (s: string)
    ensures |s| == n
    ensures forall i :: 0 <= i < n ==> s[i] == c
  {
    if n == 0 then "" else [c] + Repeat(c, n - 1)
  }

  /** ASCII lower-casing of one character; every other character is left alone. */
  function LowerChar(c: char): char
  {
    if 'A' <= c <= 'Z' then (c as int - 'A' as int + 'a' as int) as char else c
  }

  /** `str.casefold` restricted to ASCII letters. */
  function Casefold(s: string): string
  {
    seq(|s|, i requires 0 <= i < |s| => LowerChar(s[i]))
  }

  predicate NoDuplicates<T(==)>(s: seq<T>)
  {
    forall i, j :: 0 <= i < j < |s| ==> s[i] != s[j]
  }

  function Elements<T>(s: seq<T>): set<T>
  {
    set x | x in s
  }
}
