/** The string builtins the handlers use: `trim`, `toLowerCase`, `includes`
    and `encodeURIComponent`. */
module Text {

  /** The characters `String.prototype.trim` strips: ECMAScript WhiteSpace
      (tab, vertical tab, form feed, space, no-break space, the byte order
      mark and the Zs category) and LineTerminator (LF, CR, U+2028, U+2029). */
  predicate IsWhitespace(c: char) {
    var n := c as int;
    n == 0x09 || n == 0x0A || n == 0x0B || n == 0x0C || n == 0x0D || n == 0x20
    || n == 0xA0 || n == 0x1680 || (0x2000 <= n <= 0x200A) || n == 0x2028
    || n == 0x2029 || n == 0x202F || n == 0x205F || n == 0x3000 || n == 0xFEFF
  }

  /** `sub` occurs in `s` starting at position `i`. */
  predicate OccursAt(s: string, sub: string, i: int) {
    0 <= i && i + |sub| <= |s| && s[i..i + |sub|] == sub
  }

  /** `s` without its leading whitespace (its properties: `TrimStartSpec`). */
  function TrimStart(s: string): (r: string)
    ensures |r| <= |s|
  {
    if s != [] && IsWhitespace(s[0]) then TrimStart(s[1..]) else s
  }

  /** `TrimStart(s)` is the suffix of `s` left after its leading whitespace. */
  lemma {:induction false} TrimStartSpec(s: string)
    ensures var r := TrimStart(s);
      && r == s[|s| - |r|..]
      && (r != [] ==> !IsWhitespace(r[0]))
      && forall i :: 0 <= i < |s| - |r| ==> IsWhitespace(s[i])
  {
    if s != [] && IsWhitespace(s[0]) {
      TrimStartSpec(s[1..]);
      var r := TrimStart(s);
      assert s[1..][|s| - 1 - |r|..] == s[|s| - |r|..];
      forall i | 1 <= i < |s| - |r| ensures IsWhitespace(s[i]) {
        assert s[1..][i - 1] == s[i];
      }
    }
  }

  /** `s` without its trailing whitespace (its properties: `TrimEndSpec`). */
  function TrimEnd(s: string): (r: string)
    ensures |r| <= |s|
  {
    if s != [] && IsWhitespace(s[|s| - 1]) then TrimEnd(s[..|s| - 1]) else s
  }

  /** `TrimEnd(s)` is the prefix of `s` left before its trailing whitespace. */
  lemma {:induction false} TrimEndSpec(s: string)
    ensures var r := TrimEnd(s);
      && r == s[..|r|]
      && (r != [] ==> !IsWhitespace(r[|r| - 1]))
      && forall i :: |r| <= i < |s| ==> IsWhitespace(s[i])
  {
    if s != [] && IsWhitespace(s[|s| - 1]) {
      var t := s[..|s| - 1];
      TrimEndSpec(t);
      var r := TrimEnd(s);
      assert t[..|r|] == s[..|r|];
      forall i | |r| <= i < |s| - 1 ensures IsWhitespace(s[i]) {
        assert t[i] == s[i];
      }
    }
  }

  /** `s.trim()` (its properties: `TrimSpec`). */
  function Trim(s: string): (r: string)
    ensures |r| <= |s|
  {
    TrimEnd(TrimStart(s))
  }

  /** `s.trim()` is the part of `s` between its leading and its trailing
      whitespace: everything before it and everything after it is whitespace, it
      neither starts nor ends with whitespace, and it is empty exactly when `s`
      is all whitespace (so `!s.trim()` holds exactly for blank input). */
  lemma TrimSpec(s: string)
    ensures var r := Trim(s); var a := |s| - |TrimStart(s)|;
      && OccursAt(s, r, a)
      && (forall i :: 0 <= i < a ==> IsWhitespace(s[i]))
      && (forall i :: a + |r| <= i < |s| ==> IsWhitespace(s[i]))
      && (r != [] ==> !IsWhitespace(r[0]) && !IsWhitespace(r[|r| - 1]))
      && (r == [] <==> forall i :: 0 <= i < |s| ==> IsWhitespace(s[i]))
  {
    var t := TrimStart(s);
    var r := TrimEnd(t);
    TrimStartSpec(s);
    TrimEndSpec(t);
    var a := |s| - |t|;
    assert r == s[a..a + |r|];
    forall i | a + |r| <= i < |s| ensures IsWhitespace(s[i]) {
      assert t[i - a] == s[i];
    }
    if r != [] {
      assert r[0] == t[0];
    }
    if r == [] && t != [] {
      assert false;
    }
  }

  /** `c.toLowerCase()` for the ASCII letters. */
  function LowerChar(c: char): char {
    if 'A' <= c <= 'Z' then (c as int + 32) as char else c
  }

  /** `s.toLowerCase()`, position by position: each ASCII capital becomes its
      small letter, every other character is kept, so no capital survives. */
  function ToLower(s: string): (r: string)
    ensures |r| == |s|
    ensures forall i :: 0 <= i < |r| ==> !('A' <= r[i] <= 'Z')
    ensures forall i :: 0 <= i < |s| && !('A' <= s[i] <= 'Z') ==> r[i] == s[i]
    ensures forall i :: 0 <= i < |s| && 'A' <= s[i] <= 'Z' ==> r[i] == (s[i] as int + 32) as char
  {
    seq(|s|, i requires 0 <= i < |s| => LowerChar(s[i]))
  }

  lemma OccursShift(s: string, sub: string)
    requires s != []
    ensures forall i :: 0 <= i ==> (OccursAt(s[1..], sub, i) <==> OccursAt(s, sub, i + 1))
  {
    forall i | 0 <= i ensures OccursAt(s[1..], sub, i) <==> OccursAt(s, sub, i + 1) {
      if i + |sub| <= |s| - 1 {
        assert s[1..][i..i + |sub|] == s[i + 1..i + 1 + |sub|];
      }
    }
  }

  /** `s.includes(sub)`: `sub` occurs somewhere in `s`. */
  function Contains(s: string, sub: string): (r: bool)
    ensures r <==> exists i :: OccursAt(s, sub, i)
    decreases |s|
  {
    if |sub| > |s| then false
    else if s[..|sub|] == sub then assert OccursAt(s, sub, 0); true
    else
      OccursShift(s, sub);
      assert !OccursAt(s, sub, 0);
      assert (exists i :: OccursAt(s, sub, i)) ==> exists i :: OccursAt(s[1..], sub, i) by {
        if exists i :: OccursAt(s, sub, i) {
          var i :| OccursAt(s, sub, i);
          assert OccursAt(s[1..], sub, i - 1);
        }
      }
      Contains(s[1..], sub)
  }

  /** Characters `encodeURIComponent` leaves as they are. */
  predicate IsUnreserved(c: char) {
    ('A' <= c <= 'Z') || ('a' <= c <= 'z') || ('0' <= c <= '9')
    || c == '-' || c == '_' || c == '.' || c == '!' || c == '~' || c == '*'
    || c == '\'' || c == '(' || c == ')'
  }

  /** The upper-case hexadecimal digit for `d`. */
  function HexDigit(d: int): char
    requires 0 <= d < 16
  {
    if d < 10 then ('0' as int + d) as char else ('A' as int + d - 10) as char
  }

  /** An upper-case hexadecimal digit. */
  predicate IsHexDigit(c: char) {
    ('0' <= c <= '9') || ('A' <= c <= 'F')
  }

  /** The number an upper-case hexadecimal digit stands for. */
  function HexValue(c: char): int
    requires IsHexDigit(c)
  {
    if c <= '9' then c as int - '0' as int else c as int - 'A' as int + 10
  }

  predicate IsContinuationByte(b: int) {
    0x80 <= b < 0xC0
  }

  /** The code point a UTF-8 sequence of one to four bytes stands for: the
      payload bits of the lead byte followed by six bits per continuation byte. */
  function Utf8Value(bs: seq<int>): int
    requires 1 <= |bs| <= 4
  {
    if |bs| == 1 then bs[0]
    else if |bs| == 2 then (bs[0] - 0xC0) * 64 + (bs[1] - 0x80)
    else if |bs| == 3 then (bs[0] - 0xE0) * 4096 + (bs[1] - 0x80) * 64 + (bs[2] - 0x80)
    else (bs[0] - 0xF0) * 262144 + (bs[1] - 0x80) * 4096 + (bs[2] - 0x80) * 64 + (bs[3] - 0x80)
  }

  /** The UTF-8 encoding of one code point (its properties: `Utf8Spec`). */
  function Utf8(c: char): (bs: seq<int>)
    ensures 1 <= |bs| <= 4
    ensures forall i :: 0 <= i < |bs| ==> 0 <= bs[i] < 256
  {
    var n := c as int;
    if n < 0x80 then [n]
    else if n < 0x800 then [0xC0 + n / 64, 0x80 + n % 64]
    else if n < 0x10000 then [0xE0 + n / 4096, 0x80 + (n / 64) % 64, 0x80 + n % 64]
    else [0xF0 + n / 262144, 0x80 + (n / 4096) % 64, 0x80 + (n / 64) % 64, 0x80 + n % 64]
  }

  /** `Utf8(c)` is the shortest UTF-8 form of `c`: its length is fixed by the
      range of the code point, the lead byte announces that length, the other
      bytes are continuation bytes, and decoding gives the code point back. */
  lemma Utf8Spec(c: char)
    ensures var bs := Utf8(c); var n := c as int;
      && Utf8Value(bs) == n
      && (|bs| == 1 <==> n < 0x80)
      && (|bs| == 2 <==> 0x80 <= n < 0x800)
      && (|bs| == 3 <==> 0x800 <= n < 0x10000)
      && (|bs| == 4 <==> 0x10000 <= n)
      && (|bs| == 1 ==> bs[0] < 0x80)
      && (|bs| == 2 ==> 0xC2 <= bs[0] < 0xE0)
      && (|bs| == 3 ==> 0xE0 <= bs[0] < 0xF0)
      && (|bs| == 4 ==> 0xF0 <= bs[0] < 0xF5)
      && forall i :: 1 <= i < |bs| ==> IsContinuationByte(bs[i])
  {
    var n := c as int;
    if 0x800 <= n < 0x10000 {
      assert n / 64 == (n / 4096) * 64 + (n / 64) % 64;
    } else if 0x10000 <= n {
      assert n / 4096 == (n / 262144) * 64 + (n / 4096) % 64;
      assert n / 64 == (n / 4096) * 64 + (n / 64) % 64;
    }
  }

  /** `%XY` for each byte, with upper-case hexadecimal digits (its properties:
      `PercentEncodeSpec`). */
  function PercentEncode(bs: seq<int>): (r: string)
    requires forall i :: 0 <= i < |bs| ==> 0 <= bs[i] < 256
    ensures |r| == 3 * |bs|
    ensures forall i :: 0 <= i < |r| ==> r[i] == '%' || IsHexDigit(r[i])
  {
    if bs == [] then []
    else ['%', HexDigit(bs[0] / 16), HexDigit(bs[0] % 16)] + PercentEncode(bs[1..])
  }

  /** Byte `i` becomes the three characters from `3 * i` on: a `%` and two
      hexadecimal digits that read back as the byte. */
  lemma {:induction false} PercentEncodeSpec(bs: seq<int>)
    requires forall i :: 0 <= i < |bs| ==> 0 <= bs[i] < 256
    ensures var r := PercentEncode(bs);
      forall i :: 0 <= i < |bs| ==>
        && r[3 * i] == '%' && IsHexDigit(r[3 * i + 1]) && IsHexDigit(r[3 * i + 2])
        && 16 * HexValue(r[3 * i + 1]) + HexValue(r[3 * i + 2]) == bs[i]
  {
    if bs != [] {
      PercentEncodeSpec(bs[1..]);
      var r := PercentEncode(bs);
      var rest := PercentEncode(bs[1..]);
      assert r[3..] == rest;
      forall i | 1 <= i < |bs|
        ensures && r[3 * i] == '%' && IsHexDigit(r[3 * i + 1]) && IsHexDigit(r[3 * i + 2])
                && 16 * HexValue(r[3 * i + 1]) + HexValue(r[3 * i + 2]) == bs[i]
      {
        assert bs[1..][i - 1] == bs[i];
        assert r[3 * i] == rest[3 * (i - 1)];
        assert r[3 * i + 1] == rest[3 * (i - 1) + 1];
        assert r[3 * i + 2] == rest[3 * (i - 1) + 2];
      }
    }
  }

  /** What `encodeURIComponent` writes for one character. */
  function EncodeChar(c: char): string {
    if IsUnreserved(c) then [c] else PercentEncode(Utf8(c))
  }

  /** `encodeURIComponent(s)`: unreserved characters are copied, every other
      character becomes the percent-escapes of its UTF-8 bytes (character by
      character: `EncodeUriComponentSpec`). */
  function EncodeUriComponent(s: string): (r: string)
    ensures |r| >= |s|
    ensures forall i :: 0 <= i < |r| ==> IsUnreserved(r[i]) || r[i] == '%' || IsHexDigit(r[i])
    ensures (forall i :: 0 <= i < |s| ==> IsUnreserved(s[i])) ==> r == s
  {
    if s == [] then []
    else EncodeChar(s[0]) + EncodeUriComponent(s[1..])
  }

  /** Encoding distributes over concatenation. */
  lemma {:induction false} EncodeUriComponentAppend(a: string, b: string)
    ensures EncodeUriComponent(a + b) == EncodeUriComponent(a) + EncodeUriComponent(b)
  {
    if a != [] {
      var x, y, z := EncodeChar(a[0]), EncodeUriComponent(a[1..]), EncodeUriComponent(b);
      assert (a + b)[0] == a[0];
      assert (a + b)[1..] == a[1..] + b;
      EncodeUriComponentAppend(a[1..], b);
      calc {
        EncodeUriComponent(a + b);
        x + EncodeUriComponent(a[1..] + b);
        x + (y + z);
        { SeqAssoc(x, y, z); }
        (x + y) + z;
      }
    } else {
      assert a + b == b;
    }
  }

  lemma SeqAssoc<T>(x: seq<T>, y: seq<T>, z: seq<T>)
    ensures x + (y + z) == (x + y) + z
  {
  }

  /** Each character of the input contributes exactly its own encoding, in
      place: the one character itself when unreserved, otherwise the
      percent-escapes of its UTF-8 bytes. */
  lemma EncodeUriComponentSpec(a: string, c: char, b: string)
    ensures IsUnreserved(c) ==>
      EncodeUriComponent(a + [c] + b) == EncodeUriComponent(a) + [c] + EncodeUriComponent(b)
    ensures !IsUnreserved(c) ==>
      EncodeUriComponent(a + [c] + b) == EncodeUriComponent(a) + PercentEncode(Utf8(c)) + EncodeUriComponent(b)
  {
    EncodeUriComponentAppend(a + [c], b);
    EncodeUriComponentAppend(a, [c]);
    EncodeSingle(c);
  }

  lemma EncodeSingle(c: char)
    ensures EncodeUriComponent([c]) == EncodeChar(c)
  {
    assert [c][0] == c && [c][1..] == [];
  }
}
