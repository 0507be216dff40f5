/**
 * The pieces of the JavaScript platform that the core relies on:
 * String.prototype.trim, the UTF-16 length of a string, and bytes.
 */
module Js {
  /** An element of a Uint8Array. */
  newtype Byte = x: int | 0 <= x < 256

  type Bytes = seq<Byte>

  /**
   * The characters String.prototype.trim strips: ECMA-262 WhiteSpace
   * (TAB, VT, FF, ZWNBSP and the Zs category) and LineTerminator (LF, CR, LS, PS),
   * by code point: U+0009 to U+000D, U+0020, U+00A0, U+1680, U+2000 to U+200A,
   * U+2028, U+2029, U+202F, U+205F, U+3000 and U+FEFF.
   */
  predicate IsWhitespace(c: char) {
    var n := c as int;
    (0x9 <= n <= 0xD) || n == 0x20 || n == 0xA0 || n == 0x1680 || (0x2000 <= n <= 0x200A) ||
    n == 0x2028 || n == 0x2029 || n == 0x202F || n == 0x205F || n == 0x3000 || n == 0xFEFF
  }

  /** Every character trim strips lies in the Basic Multilingual Plane. */
  lemma WhitespaceInBmp(c: char)
    requires IsWhitespace(c)
    ensures c as int <= 0xFFFF
  {
  }

  predicate AllWhitespace(s: string) {
    forall k :: 0 <= k < |s| ==> IsWhitespace(s[k])
  }

  /** Drops leading whitespace: the result is the suffix after the longest whitespace prefix. */
  function TrimStart(s: string): (r: string)
    ensures |r| <= |s| && r == s[|s| - |r|..]
    ensures AllWhitespace(s[..|s| - |r|])
    ensures r == [] || !IsWhitespace(r[0])
  {
    if s != [] && IsWhitespace(s[0]) then
      var r := TrimStart(s[1..]);
      TrimStartStep(s, r);
      r
    else s
  }

  /** A suffix left by trimming `s[1..]` is left by trimming `s` too, when `s[0]` is whitespace. */
  lemma TrimStartStep(s: string, r: string)
    requires s != [] && IsWhitespace(s[0])
    requires |r| <= |s| - 1 && r == s[1..][|s| - 1 - |r|..]
    requires AllWhitespace(s[1..][..|s| - 1 - |r|])
    ensures r == s[|s| - |r|..]
    ensures AllWhitespace(s[..|s| - |r|])
  {
    var k := |s| - |r|;
    forall i | 0 <= i < k
      ensures IsWhitespace(s[..k][i])
    {
      if i > 0 {
        assert s[..k][i] == s[1..][..k - 1][i - 1];
      }
    }
  }

  /** Drops trailing whitespace: the result is the prefix before the longest whitespace suffix. */
  function TrimEnd(s: string): (r: string)
    ensures |r| <= |s| && r == s[..|r|]
    ensures AllWhitespace(s[|r|..])
    ensures r == [] || !IsWhitespace(r[|r| - 1])
  {
    if s != [] && IsWhitespace(s[|s| - 1]) then
      var r := TrimEnd(s[..|s| - 1]);
      TrimEndStep(s, r);
      r
    else s
  }

  /** A prefix left by trimming all but the last character is left by trimming `s`, when that character is whitespace. */
  lemma TrimEndStep(s: string, r: string)
    requires s != [] && IsWhitespace(s[|s| - 1])
    requires |r| <= |s| - 1 && r == s[..|s| - 1][..|r|]
    requires AllWhitespace(s[..|s| - 1][|r|..])
    ensures r == s[..|r|]
    ensures AllWhitespace(s[|r|..])
  {
    var k := |r|;
    forall i | 0 <= i < |s| - k
      ensures IsWhitespace(s[k..][i])
    {
      if i < |s| - 1 - k {
        assert s[k..][i] == s[..|s| - 1][k..][i];
      }
    }
  }

  /** String.prototype.trim. */
  function Trim(s: string): string {
    TrimEnd(TrimStart(s))
  }

  /** Trim returns the empty string exactly for whitespace-only input. */
  lemma TrimEmptyIffWhitespace(s: string)
    ensures Trim(s) == [] <==> AllWhitespace(s)
  {
    var t := TrimStart(s);
    var d := |s| - |t|;
    if AllWhitespace(s) {
      TrimStartOfWhitespace(s);
    }
    if TrimEnd(t) == [] {
      assert t[0..] == t;
      assert t == [];
      assert s[..d] == s;
    }
  }

  /** The number of UTF-16 code units a character takes: two above the Basic Multilingual Plane. */
  function CodeUnits(c: char): nat {
    if c as int > 0xFFFF then 2 else 1
  }

  /** The `length` of a JavaScript string, which counts UTF-16 code units. */
  function Utf16Length(s: string): (n: nat)
    ensures |s| <= n <= 2 * |s|
    ensures (forall k :: 0 <= k < |s| ==> s[k] as int <= 0xFFFF) ==> n == |s|
  {
    if s == [] then 0 else CodeUnits(s[0]) + Utf16Length(s[1..])
  }

  /** A string made only of characters above the Basic Multilingual Plane has twice their number of code units. */
  lemma {:induction false} AstralLength(s: string)
    requires forall k :: 0 <= k < |s| ==> s[k] as int > 0xFFFF
    ensures Utf16Length(s) == 2 * |s|
  {
    if s != [] {
      AstralLength(s[1..]);
    }
  }

  /** Trim's result neither starts nor ends with whitespace. */
  lemma TrimEnds(s: string)
    ensures Trim(s) == [] || (!IsWhitespace(Trim(s)[0]) && !IsWhitespace(Trim(s)[|Trim(s)| - 1]))
  {
    var t := TrimStart(s);
    var r := TrimEnd(t);
    if r != [] {
      assert r == t[..|r|];
      assert r[0] == t[0];
    }
  }

  /** Trim's result is a slice of its input with only whitespace cut away on either side. */
  lemma TrimSlice(s: string) returns (i: nat, j: nat)
    ensures i <= j <= |s| && Trim(s) == s[i..j]
    ensures AllWhitespace(s[..i]) && AllWhitespace(s[j..])
    ensures Trim(s) == [] || (!IsWhitespace(Trim(s)[0]) && !IsWhitespace(Trim(s)[|Trim(s)| - 1]))
  {
    TrimEnds(s);
    var t := TrimStart(s);
    i := |s| - |t|;
    var r := TrimEnd(t);
    j := i + |r|;
    assert r == s[i..j] by {
      assert t == s[i..] && r == t[..|r|];
    }
    assert s[j..] == t[|r|..];
  }

  /** Trimming a string of the Basic Multilingual Plane leaves one whose length in code units is its length in characters. */
  lemma TrimKeepsBmp(s: string)
    requires forall k :: 0 <= k < |s| ==> s[k] as int <= 0xFFFF
    ensures Utf16Length(Trim(s)) == |Trim(s)|
  {
    var t := TrimStart(s);
    var d := |s| - |t|;
    assert t == s[d..];
    forall k | 0 <= k < |t| ensures t[k] as int <= 0xFFFF {
      assert t[k] == s[d + k];
    }
    var r := TrimEnd(t);
    assert r == t[..|r|];
    forall k | 0 <= k < |r| ensures r[k] as int <= 0xFFFF {
      assert r[k] == t[k];
    }
    assert Trim(s) == r;
  }

  lemma {:induction false} TrimStartSkips(p: string, x: string)
    requires AllWhitespace(p)
    ensures TrimStart(p + x) == TrimStart(x)
  {
    if p != [] {
      assert (p + x)[1..] == p[1..] + x;
      TrimStartSkips(p[1..], x);
    } else {
      assert p + x == x;
    }
  }

  lemma {:induction false} TrimEndSkips(x: string, q: string)
    requires AllWhitespace(q)
    ensures TrimEnd(x + q) == TrimEnd(x)
  {
    if q != [] {
      assert (x + q)[..|x + q| - 1] == x + q[..|q| - 1];
      TrimEndSkips(x, q[..|q| - 1]);
    } else {
      assert x + q == x;
    }
  }

  lemma {:induction false} TrimStartAppend(s: string, q: string)
    requires TrimStart(s) != []
    ensures TrimStart(s + q) == TrimStart(s) + q
  {
    assert (s + q)[0] == s[0];
    if IsWhitespace(s[0]) {
      assert (s + q)[1..] == s[1..] + q;
      TrimStartAppend(s[1..], q);
    }
  }

  lemma {:induction false} TrimStartOfWhitespace(q: string)
    requires AllWhitespace(q)
    ensures TrimStart(q) == []
  {
    if q != [] {
      TrimStartOfWhitespace(q[1..]);
    }
  }

  /** Whitespace around a string never changes what trim returns. */
  lemma TrimIgnoresPadding(p: string, s: string, q: string)
    requires AllWhitespace(p) && AllWhitespace(q)
    ensures Trim(p + s + q) == Trim(s)
  {
    assert p + s + q == p + (s + q);
    TrimStartSkips(p, s + q);
    var t := TrimStart(s);
    if t != [] {
      TrimStartAppend(s, q);
      TrimEndSkips(t, q);
      assert TrimStart(p + s + q) == t + q;
    } else {
      assert s[..|s|] == s;
      TrimStartSkips(s, q);
      TrimStartOfWhitespace(q);
      assert TrimStart(p + s + q) == [];
    }
  }

  /** Trimming twice is trimming once. */
  lemma TrimIdempotent(s: string)
    ensures Trim(Trim(s)) == Trim(s)
  {
    var i, j := TrimSlice(s);
  }

  /** U+FEFF, the byte order mark. */
  const ByteOrderMark: char := '\U{FEFF}'

  /**
   * What one `decode` call of a `new TextDecoder()` returns for the UTF-8
   * encoding of `s`: with `ignoreBOM` false and no `stream` option, every call
   * strips one leading byte order mark.
   */
  function DropByteOrderMark(s: string): (r: string)
    ensures |s| - 1 <= |r| <= |s| && r == s[|s| - |r|..]
    ensures r == s <==> s == [] || s[0] != ByteOrderMark
  {
    if s != [] && s[0] == ByteOrderMark then s[1..] else s
  }

  /**
   * `decode` is a fresh TextDecoder's decode and `encode` a TextEncoder's
   * encode: decoding an encoded string gives it back less a leading byte order mark.
   */
  ghost predicate Utf8Pair(encode: string -> Bytes, decode: Bytes -> string) {
    forall s :: decode(encode(s)) == DropByteOrderMark(s)
  }
}
