/** Python's `str.startswith` / `str.endswith` on Dafny strings, and how they combine. */
module Strings {

  predicate StartsWith(s: string, prefix: string) {
    |prefix| <= |s| && s[..|prefix|] == prefix
  }

  predicate EndsWith(s: string, suffix: string) {
    |suffix| <= |s| && s[|s| - |suffix|..] == suffix
  }

  /** Of two suffixes of one string, the shorter is a suffix of the longer. */
  lemma SuffixOfSuffix(s: string, a: string, b: string)
    requires EndsWith(s, a) && EndsWith(s, b) && |a| <= |b|
    ensures EndsWith(b, a)
  {
    assert b[|b| - |a|..] == s[|s| - |a|..];
  }

  /** `sep + b` does not end with `sep + a` when `a` is shorter and `b` has no `sep` where `a` would start. */
  lemma MisalignedNotSuffix(sep: string, a: string, b: string)
    requires |sep| == 1 && |a| < |b| && b[|b| - |a| - 1] != sep[0]
    ensures !EndsWith(sep + b, sep + a)
  {
    var s, t := sep + b, sep + a;
    assert s[|s| - |t|] == b[|b| - |a| - 1];
    assert t[0] == sep[0];
  }

  /** `sep + b` does not end with `sep + a` when they have one length and differ `d` characters from the end. */
  lemma DifferentNotSuffix(sep: string, a: string, b: string, d: nat)
    requires |a| == |b| && 0 < d <= |a| && a[|a| - d] != b[|b| - d]
    ensures !EndsWith(sep + b, sep + a)
  {
    var s, t := sep + b, sep + a;
    assert s[|s| - d] == b[|b| - d] && t[|t| - d] == a[|a| - d];
  }

  /** `p + rest` starts with `p`, and dropping `p` gives back `rest`. */
  lemma PrefixJoin(p: string, rest: string)
    ensures StartsWith(p + rest, p) && (p + rest)[|p|..] == rest
  {
    assert (p + rest)[..|p|] == p;
  }

  /** `init + tail` ends with `tail`, and dropping `tail` gives back `init`. */
  lemma SuffixJoin(init: string, tail: string)
    ensures EndsWith(init + tail, tail) && (init + tail)[..|init|] == init
  {
    assert (init + tail)[|init|..] == tail;
  }

  /** A string that starts with `p` is `p` followed by the rest. */
  lemma PrefixSplit(s: string, p: string)
    requires StartsWith(s, p)
    ensures s == p + s[|p|..]
  {
  }

  /** A string that ends with `t` is the rest followed by `t`. */
  lemma SuffixSplit(s: string, t: string)
    requires EndsWith(s, t)
    ensures s == s[..|s| - |t|] + t
  {
  }

  /** Membership in a non-empty sequence splits into membership in its initial part or the last element. */
  lemma InInitOrLast<T>(s: seq<T>, x: T)
    requires s != []
    ensures x in s <==> x in s[..|s| - 1] || x == s[|s| - 1]
  {
    assert s == s[..|s| - 1] + [s[|s| - 1]];
  }

  lemma TakeTake<T>(s: seq<T>, i: nat, j: nat)
    requires i <= j <= |s|
    ensures s[..j][..i] == s[..i]
  {
  }

  lemma TakeSnoc<T>(s: seq<T>, x: T)
    ensures (s + [x])[..|s|] == s && (s + [x])[|s|] == x
  {
  }

  lemma TakeAll<T>(s: seq<T>)
    ensures s[..|s|] == s
  {
  }

  lemma InitLast<T>(s: seq<T>)
    requires s != []
    ensures s == s[..|s| - 1] + [s[|s| - 1]]
  {
  }
}
