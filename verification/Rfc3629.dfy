/** Bytes, and the syntax of UTF-8 as section 4 of RFC 3629 gives it. */
module Rfc3629 {
  type byte = b: int | 0 <= b < 0x100
  type bytes = seq<byte>

  predicate Tail(b: byte) {
    0x80 <= b <= 0xBF
  }

  predicate Utf8Char1(s: bytes) {
    |s| == 1 && s[0] <= 0x7F
  }

  predicate Utf8Char2(s: bytes) {
    |s| == 2 && 0xC2 <= s[0] <= 0xDF && Tail(s[1])
  }

  predicate Utf8Char3(s: bytes) {
    |s| == 3 && Tail(s[2]) &&
    (|| (s[0] == 0xE0 && 0xA0 <= s[1] <= 0xBF)
     || (0xE1 <= s[0] <= 0xEC && Tail(s[1]))
     || (s[0] == 0xED && 0x80 <= s[1] <= 0x9F)
     || (0xEE <= s[0] <= 0xEF && Tail(s[1])))
  }

  predicate Utf8Char4(s: bytes) {
    |s| == 4 && Tail(s[2]) && Tail(s[3]) &&
    (|| (s[0] == 0xF0 && 0x90 <= s[1] <= 0xBF)
     || (0xF1 <= s[0] <= 0xF3 && Tail(s[1]))
     || (s[0] == 0xF4 && 0x80 <= s[1] <= 0x8F))
  }

  predicate Utf8Char(s: bytes) {
    Utf8Char1(s) || Utf8Char2(s) || Utf8Char3(s) || Utf8Char4(s)
  }

  /** UTF8-octets: any number of UTF-8 characters in a row. */
  ghost predicate WellFormed(s: bytes)
    decreases |s|
  {
    s == [] || exists n :: 1 <= n <= |s| && Utf8Char(s[..n]) && WellFormed(s[n..])
  }

  /** The length of the UTF-8 character that `s` starts with, or 0 when it starts with none. */
  function LeadingChar(s: bytes): (n: nat)
    ensures n <= |s| && n <= 4
    ensures n != 0 ==> Utf8Char(s[..n])
    ensures n == 0 ==> forall m :: 1 <= m <= |s| ==> !Utf8Char(s[..m])
  {
    if |s| >= 1 && Utf8Char(s[..1]) then 1
    else if |s| >= 2 && Utf8Char(s[..2]) then 2
    else if |s| >= 3 && Utf8Char(s[..3]) then 3
    else if |s| >= 4 && Utf8Char(s[..4]) then 4
    else 0
  }

  /** The legal second bytes after a lead byte of a three- or four-byte character. */
  predicate SecondByte(lead: byte, b: byte) {
    && Tail(b)
    && (lead == 0xE0 ==> 0xA0 <= b) && (lead == 0xED ==> b <= 0x9F)
    && (lead == 0xF0 ==> 0x90 <= b) && (lead == 0xF4 ==> b <= 0x8F)
  }

  /** The grammar, read off the first four bytes. */
  lemma LeadingCharByBytes(s: bytes)
    requires s != []
    ensures
      LeadingChar(s) ==
      if s[0] <= 0x7F then 1
      else if 0xC2 <= s[0] <= 0xDF && |s| >= 2 && SecondByte(s[0], s[1]) then 2
      else if 0xE0 <= s[0] <= 0xEF && |s| >= 3 && SecondByte(s[0], s[1]) && Tail(s[2]) then 3
      else if 0xF0 <= s[0] <= 0xF4 && |s| >= 4 && SecondByte(s[0], s[1]) && Tail(s[2]) && Tail(s[3]) then 4
      else 0
  {
  }

  /** No UTF-8 character is the beginning of another, so there is one way to cut a text up. */
  lemma LeadingCharIsUnique(s: bytes, n: nat)
    requires 1 <= n <= |s| && Utf8Char(s[..n])
    ensures LeadingChar(s) == n
  {
    LeadingCharByBytes(s);
  }

  /** What follows a whole first character does not change it. */
  lemma LeadingCharOfConcat(a: bytes, b: bytes)
    requires LeadingChar(a) != 0
    ensures LeadingChar(a + b) == LeadingChar(a)
  {
    assert (a + b)[..LeadingChar(a)] == a[..LeadingChar(a)];
    LeadingCharIsUnique(a + b, LeadingChar(a));
  }

  lemma WellFormedUnfolds(s: bytes)
    ensures WellFormed(s) <==> s == [] || (LeadingChar(s) != 0 && WellFormed(s[LeadingChar(s)..]))
  {
    if WellFormed(s) && s != [] {
      var n :| 1 <= n <= |s| && Utf8Char(s[..n]) && WellFormed(s[n..]);
      LeadingCharIsUnique(s, n);
    }
  }

  lemma WellFormedCons(c: bytes, s: bytes)
    requires Utf8Char(c) && WellFormed(s)
    ensures WellFormed(c + s)
  {
    assert (c + s)[..|c|] == c && (c + s)[|c|..] == s;
  }

  // ---------- The grammar is exactly what encoding code points produces ----------

  /** A Unicode scalar value: any code point but the surrogates. */
  predicate Scalar(cp: int) {
    0 <= cp <= 0xD7FF || 0xE000 <= cp <= 0x10FFFF
  }

  /** The encoding table of section 3 of RFC 3629, six bits at a time. */
  function Encode(cp: int): (s: bytes)
    requires Scalar(cp)
  {
    if cp <= 0x7F then [cp]
    else if cp <= 0x7FF then [0xC0 + cp / 64, 0x80 + cp % 64]
    else if cp <= 0xFFFF then [0xE0 + cp / 64 / 64, 0x80 + cp / 64 % 64, 0x80 + cp % 64]
    else [0xF0 + cp / 64 / 64 / 64, 0x80 + cp / 64 / 64 % 64, 0x80 + cp / 64 % 64, 0x80 + cp % 64]
  }

  /** The payload bits of a byte. */
  function Bits(b: byte, marker: byte): int {
    b as int - marker as int
  }

  /** The code point a UTF-8 character stands for. */
  function Decode(s: bytes): (cp: int)
    requires Utf8Char(s)
  {
    if |s| == 1 then s[0]
    else if |s| == 2 then Bits(s[0], 0xC0) * 64 + Bits(s[1], 0x80)
    else if |s| == 3 then (Bits(s[0], 0xE0) * 64 + Bits(s[1], 0x80)) * 64 + Bits(s[2], 0x80)
    else ((Bits(s[0], 0xF0) * 64 + Bits(s[1], 0x80)) * 64 + Bits(s[2], 0x80)) * 64 + Bits(s[3], 0x80)
  }

  lemma SixBits(high: int, low: int)
    requires 0 <= low < 64
    ensures (high * 64 + low) / 64 == high && (high * 64 + low) % 64 == low
  {
  }

  lemma EncodeThenDecode(cp: int)
    requires Scalar(cp)
    ensures Utf8Char(Encode(cp)) && Decode(Encode(cp)) == cp
  {
    if cp <= 0x7FF {
    } else if cp <= 0xFFFF {
      var s := Encode(cp);
      assert Bits(s[0], 0xE0) * 64 + Bits(s[1], 0x80) == cp / 64;
      assert Utf8Char3(s);
    } else {
      var s := Encode(cp);
      assert Bits(s[0], 0xF0) * 64 + Bits(s[1], 0x80) == cp / 64 / 64;
      assert Utf8Char4(s);
    }
  }

  lemma DecodeThenEncode(s: bytes)
    requires Utf8Char(s)
    ensures Scalar(Decode(s)) && Encode(Decode(s)) == s
  {
    if |s| == 2 {
      SixBits(Bits(s[0], 0xC0), Bits(s[1], 0x80));
    } else if |s| == 3 {
      DecodeThenEncode3(s);
    } else if |s| == 4 {
      DecodeThenEncode4(s);
    }
  }

  lemma DecodeThenEncode3(s: bytes)
    requires Utf8Char3(s)
    ensures Scalar(Decode(s)) && Encode(Decode(s)) == s
  {
    var high := Bits(s[0], 0xE0) * 64 + Bits(s[1], 0x80);
    SixBits(Bits(s[0], 0xE0), Bits(s[1], 0x80));
    SixBits(high, Bits(s[2], 0x80));
    assert Decode(s) == high * 64 + Bits(s[2], 0x80);
  }

  lemma DecodeThenEncode4(s: bytes)
    requires Utf8Char4(s)
    ensures Scalar(Decode(s)) && Encode(Decode(s)) == s
  {
    var higher := Bits(s[0], 0xF0) * 64 + Bits(s[1], 0x80);
    var high := higher * 64 + Bits(s[2], 0x80);
    SixBits(Bits(s[0], 0xF0), Bits(s[1], 0x80));
    SixBits(higher, Bits(s[2], 0x80));
    SixBits(high, Bits(s[3], 0x80));
    assert Decode(s) == high * 64 + Bits(s[3], 0x80);
  }
}
