/**
 * The part of Go's `strings`, `unicode` and `unicode/utf8` packages that the
 * command parsers and the request handler use: white space, `TrimSpace`,
 * `TrimPrefix`, `Fields`, and the byte length of a string. A Go string is
 * modelled as the sequence of its Unicode code points; its length in bytes
 * is the length of their UTF-8 encoding.
 */
module Strings {

  /** unicode.IsSpace: the Unicode White_Space property. */
  predicate IsSpace(c: char) {
    var n := c as int;
    (0x09 <= n <= 0x0D) || n == 0x20 || n == 0x85 || n == 0xA0 || n == 0x1680
    || (0x2000 <= n <= 0x200A) || n == 0x2028 || n == 0x2029 || n == 0x202F
    || n == 0x205F || n == 0x3000
  }

  predicate AllSpace(s: string) {
    forall i | 0 <= i < |s| :: IsSpace(s[i])
  }

  /** What strings.Fields yields: a non-empty run of non-space characters. */
  predicate IsField(w: string) {
    |w| > 0 && forall i | 0 <= i < |w| :: !IsSpace(w[i])
  }

  /** Drops the leading white space. */
  function TrimLeft(s: string): (r: string)
    ensures |r| <= |s| && r == s[|s| - |r|..]
    ensures AllSpace(s[..|s| - |r|])
    ensures r == [] || !IsSpace(r[0])
  {
    if s != [] && IsSpace(s[0]) then
      var r := TrimLeft(s[1..]);
      assert s[1..][..|s| - 1 - |r|] == s[1..|s| - |r|];
      r
    else s
  }

  /** Drops the trailing white space. */
  function TrimRight(s: string): (r: string)
    ensures |r| <= |s| && r == s[..|r|]
    ensures AllSpace(s[|r|..])
    ensures r == [] || !IsSpace(r[|r| - 1])
  {
    if s != [] && IsSpace(s[|s| - 1]) then
      var r := TrimRight(s[..|s| - 1]);
      assert s[..|s| - 1][|r|..] + [s[|s| - 1]] == s[|r|..];
      r
    else s
  }

  /** strings.TrimSpace. */
  function TrimSpace(s: string): string {
    TrimRight(TrimLeft(s))
  }

  /** strings.TrimPrefix. */
  function TrimPrefix(s: string, prefix: string): (r: string)
    ensures prefix <= s ==> s == prefix + r
    ensures !(prefix <= s) ==> r == s
  {
    if prefix <= s then s[|prefix|..] else s
  }

  /** The length of the leading run of non-space characters. */
  function WordLength(s: string): (n: nat)
    ensures n <= |s|
    ensures forall i | 0 <= i < n :: !IsSpace(s[i])
    ensures n < |s| ==> IsSpace(s[n])
  {
    if s == [] || IsSpace(s[0]) then 0 else 1 + WordLength(s[1..])
  }

  /** strings.Fields: the maximal runs of non-space characters, in order. */
  function Fields(s: string): (r: seq<string>)
    ensures forall i | 0 <= i < |r| :: IsField(r[i])
    decreases |s|
  {
    if s == [] then []
    else if IsSpace(s[0]) then Fields(s[1..])
    else
      var n := WordLength(s);
      [s[..n]] + Fields(s[n..])
  }

  /** strings.Join(ws, " "). */
  function Join(ws: seq<string>): string
  {
    if |ws| == 0 then ""
    else if |ws| == 1 then ws[0]
    else ws[0] + " " + Join(ws[1..])
  }

  /** The number of bytes the UTF-8 encoding of one code point takes. */
  function RuneLen(c: char): nat {
    var n := c as int;
    if n < 0x80 then 1 else if n < 0x800 then 2 else if n < 0x10000 then 3 else 4
  }

  /** len(s) in Go: the number of bytes of the UTF-8 encoding. */
  function Utf8Len(s: string): (n: nat)
    ensures |s| <= n <= 4 * |s|
    ensures n == 0 <==> s == []
  {
    if s == [] then 0 else RuneLen(s[0]) + Utf8Len(s[1..])
  }

  predicate IsAscii(s: string) {
    forall i | 0 <= i < |s| :: s[i] as int < 0x80
  }

  // ---------------------------------------------------------------------
  // Lemmas

  /** A string made of ASCII characters has one byte per character. */
  lemma {:induction false} AsciiUtf8Len(s: string)
    requires IsAscii(s)
    ensures Utf8Len(s) == |s|
  {
    if s != [] {
      assert IsAscii(s[1..]) by {
        forall i | 0 <= i < |s| - 1 ensures s[1..][i] as int < 0x80 {
          assert s[1..][i] == s[i + 1];
        }
      }
      AsciiUtf8Len(s[1..]);
    }
  }

  /** TrimSpace leaves nothing exactly when the string is all white space. */
  lemma TrimSpaceEmpty(s: string)
    ensures TrimSpace(s) == "" <==> AllSpace(s)
  {
    var u := TrimLeft(s);
    if TrimSpace(s) == "" {
      assert AllSpace(u[0..]);
      assert u == [] by {
        assert u[0..] == u;
      }
      assert s[..|s| - |u|] == s;
    }
  }

  /** Fields finds nothing exactly when the string is all white space. */
  lemma {:induction false} FieldsEmpty(s: string)
    ensures Fields(s) == [] <==> AllSpace(s)
    decreases |s|
  {
    if s != [] {
      FieldsEmpty(s[1..]);
      if IsSpace(s[0]) {
        if AllSpace(s[1..]) {
          forall i | 0 <= i < |s| ensures IsSpace(s[i]) {
            if i > 0 { assert s[i] == s[1..][i - 1]; }
          }
        }
      }
    }
  }

  /** A word followed by nothing or by white space has exactly its own length as WordLength. */
  lemma {:induction false} WordLengthOfField(w: string, t: string)
    requires IsField(w)
    requires t == [] || IsSpace(t[0])
    ensures WordLength(w + t) == |w|
  {
    assert (w + t)[0] == w[0];
    assert (w + t)[1..] == w[1..] + t;
    if |w| > 1 {
      WordLengthOfField(w[1..], t);
    }
  }

  /** A field at the front of a string is its first field. */
  lemma FieldsOfFieldPrefix(w: string, t: string)
    requires IsField(w)
    requires t == [] || IsSpace(t[0])
    ensures Fields(w + t) == [w] + Fields(t)
  {
    WordLengthOfField(w, t);
    assert (w + t)[..|w|] == w;
    assert (w + t)[|w|..] == t;
  }

  /** Fields is the inverse of joining fields with single spaces. */
  lemma {:induction false} FieldsJoin(ws: seq<string>)
    requires forall i | 0 <= i < |ws| :: IsField(ws[i])
    ensures Fields(Join(ws)) == ws
  {
    if |ws| == 1 {
      FieldsOfFieldPrefix(ws[0], "");
      assert ws[0] + "" == ws[0];
    } else if |ws| > 1 {
      var rest := Join(ws[1..]);
      FieldsJoin(ws[1..]);
      assert ws[0] + " " + rest == ws[0] + (" " + rest);
      FieldsOfFieldPrefix(ws[0], " " + rest);
      assert (" " + rest)[1..] == rest;
      assert [ws[0]] + ws[1..] == ws;
    }
  }

  /** Appending white space does not change where WordLength stops. */
  lemma {:induction false} WordLengthAppend(s: string, t: string)
    requires WordLength(s) < |s| || t == [] || IsSpace(t[0])
    ensures WordLength(s + t) == WordLength(s)
  {
    if s == [] {
    } else if IsSpace(s[0]) {
      assert (s + t)[0] == s[0];
    } else {
      assert (s + t)[0] == s[0];
      assert (s + t)[1..] == s[1..] + t;
      WordLengthAppend(s[1..], t);
    }
  }

  /** Trailing white space adds no field. */
  lemma {:induction false} FieldsAppendSpace(s: string, t: string)
    requires AllSpace(t)
    ensures Fields(s + t) == Fields(s)
    decreases |s|
  {
    if s == [] {
      assert s + t == t;
      FieldsEmpty(t);
    } else if IsSpace(s[0]) {
      assert (s + t)[0] == s[0];
      assert (s + t)[1..] == s[1..] + t;
      FieldsAppendSpace(s[1..], t);
    } else {
      var n := WordLength(s);
      assert t == [] || IsSpace(t[0]);
      WordLengthAppend(s, t);
      assert (s + t)[0] == s[0];
      assert (s + t)[..n] == s[..n];
      assert (s + t)[n..] == s[n..] + t;
      FieldsAppendSpace(s[n..], t);
    }
  }

  /** Leading white space adds no field. */
  lemma {:induction false} FieldsTrimLeft(s: string)
    ensures Fields(TrimLeft(s)) == Fields(s)
    decreases |s|
  {
    if s != [] && IsSpace(s[0]) {
      FieldsTrimLeft(s[1..]);
    }
  }

  /** Dropping trailing white space from u leaves its fields as they were. */
  lemma FieldsOfTrimmed(u: string, r: string)
    requires |r| <= |u| && r == u[..|r|] && AllSpace(u[|r|..])
    ensures Fields(r) == Fields(u)
  {
    var t := u[|r|..];
    assert u == r + t;
    FieldsAppendSpace(r, t);
  }

  /** Trimming white space before splitting into fields changes nothing. */
  lemma FieldsTrimSpace(s: string)
    ensures Fields(TrimSpace(s)) == Fields(s)
  {
    FieldsOfTrimmed(TrimLeft(s), TrimSpace(s));
    FieldsTrimLeft(s);
  }
}
