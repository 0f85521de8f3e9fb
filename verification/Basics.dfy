/** Small shared vocabulary: optional values, and one text standing inside another. */
module Basics {
  datatype Option<+T> = None | Some(value: T)

  function Min(a: int, b: int): int {
    if a <= b then a else b
  }

  function Max(a: int, b: int): (m: int)
    ensures m >= a && m >= b
  {
    if a >= b then a else b
  }

  lemma TimesNext(n: nat, w: nat)
    ensures (n + 1) * w == n * w + w
  {
  }

  lemma TimesMonotone(a: nat, b: nat, w: nat)
    requires a <= b
    ensures a * w <= b * w
  {
    assert (b - a) * w >= 0;
  }

  /** `t` stands in `s` at index `i`. */
  predicate At(s: string, i: nat, t: string) {
    i + |t| <= |s| && s[i..i + |t|] == t
  }

  lemma AtSplit(s: string, i: nat, a: string, b: string)
    ensures At(s, i, a + b) <==> At(s, i, a) && At(s, i + |a|, b)
  {
    if i + |a + b| <= |s| {
      var w := s[i..i + |a + b|];
      assert w[..|a|] == s[i..i + |a|];
      assert w[|a|..] == s[i + |a|..i + |a| + |b|];
      assert (a + b)[..|a|] == a && (a + b)[|a|..] == b;
      assert w == w[..|a|] + w[|a|..];
    }
  }

  lemma AtIndex(s: string, i: nat, t: string, k: nat)
    requires At(s, i, t) && k < |t|
    ensures s[i + k] == t[k]
  {
    assert s[i..i + |t|][k] == t[k];
  }

  lemma AtHead(s: string, i: nat, t: string)
    requires At(s, i, t) && t != ""
    ensures s[i] == t[0] && At(s, i + 1, t[1..])
  {
    AtIndex(s, i, t, 0);
    assert t == t[..1] + t[1..];
    AtSplit(s, i, t[..1], t[1..]);
  }

  /** The characters before the first NUL: what C code sees of a buffer. */
  function CString(a: seq<char>): (s: string)
    ensures |s| <= |a| && s == a[..|s|] && '\0' !in s
    ensures |s| < |a| ==> a[|s|] == '\0'
  {
    if a == [] || a[0] == '\0' then "" else [a[0]] + CString(a[1..])
  }

  /** A terminated buffer reads back as the text before its terminator. */
  lemma {:induction false} CStringOfTerminated(s: string, rest: seq<char>)
    requires '\0' !in s
    ensures CString(s + ['\0'] + rest) == s
  {
    if s != "" {
      CStringOfTerminated(s[1..], rest);
      assert (s + ['\0'] + rest)[1..] == s[1..] + ['\0'] + rest;
    }
  }

  lemma {:induction false} CStringOf(s: string)
    requires '\0' !in s
    ensures CString(s) == s
  {
    if s != "" {
      CStringOf(s[1..]);
    }
  }

  /** `copy_string` into a buffer that holds `n` characters. */
  function Clip(s: string, n: nat): (t: string)
    ensures |t| <= n && t <= s && (|s| <= n ==> t == s)
  {
    if |s| <= n then s else s[..n]
  }
}
