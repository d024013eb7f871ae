/** src/utils/encoding.cpp: replacing whatever is not UTF-8. */
module Utf8Repair {
  import opened Rfc3629

  /** U+FFFD, encoded. */
  const REPLACEMENT: bytes := [0xEF, 0xBF, 0xBD]

  /** What repair means: keep every UTF-8 character, replace every byte that starts none. */
  function Repair(s: bytes): (r: bytes)
    decreases |s|
  {
    if s == [] then []
    else
      var n := LeadingChar(s);
      if n != 0 then s[..n] + Repair(s[n..]) else REPLACEMENT + Repair(s[1..])
  }

  lemma RepairUnfolds(s: bytes)
    requires s != []
    ensures
      Repair(s) ==
      if LeadingChar(s) != 0 then s[..LeadingChar(s)] + Repair(s[LeadingChar(s)..])
      else REPLACEMENT + Repair(s[1..])
  {
    hide LeadingChar;
  }

  method FixStringUTF8(str: bytes) returns (result: bytes)
    ensures result == Repair(str)
  {
    result := [];
    var len := |str|;
    var i := 0;
    while i < len
      invariant 0 <= i <= len
      invariant result + Repair(str[i..]) == Repair(str)
    {
      hide LeadingChar, Repair;
      LeadingCharByBytes(str[i..]);
      var c := str[i];
      if c <= 0x7F {
        result, i := AppendChar(str, result, i, 1);
        continue;
      }

      var expectedLength := 0;
      var minSecond := 0x80;
      var maxSecond := 0xBF;
      if 0xC2 <= c <= 0xDF {
        expectedLength := 2;
      } else if 0xE0 <= c <= 0xEF {
        expectedLength := 3;
        if c == 0xE0 {
          minSecond := 0xA0;
        } else if c == 0xED {
          maxSecond := 0x9F;
        }
      } else if 0xF0 <= c <= 0xF4 {
        expectedLength := 4;
        if c == 0xF0 {
          minSecond := 0x90;
        } else if c == 0xF4 {
          maxSecond := 0x8F;
        }
      } else {
        result, i := EmitReplacement(str, result, i);
        continue;
      }

      if i + expectedLength > len {
        result, i := EmitReplacement(str, result, i);
        continue;
      }

      var b2 := str[i + 1];
      if b2 < minSecond || b2 > maxSecond {
        result, i := EmitReplacement(str, result, i);
        continue;
      }
      var valid := true;
      var j := 2;
      while j < expectedLength
        invariant 2 <= j <= expectedLength
        invariant 2 < j ==> Tail(str[i + 2])
        invariant 3 < j ==> Tail(str[i + 3])
        invariant valid
      {
        if !Tail(str[i + j]) {
          valid := false;
          break;
        }
        j := j + 1;
      }
      if !valid {
        result, i := EmitReplacement(str, result, i);
        continue;
      }
      result, i := AppendChar(str, result, i, expectedLength);
    }
    assert str[i..] == [];
  }

  /** One whole UTF-8 character is copied. */
  method AppendChar(str: bytes, out: bytes, i: nat, count: nat) returns (out': bytes, i': nat)
    requires i < |str| && count == LeadingChar(str[i..]) != 0
    requires out + Repair(str[i..]) == Repair(str)
    ensures i' == i + count && i' <= |str| && out' == out + str[i..i']
    ensures out' + Repair(str[i'..]) == Repair(str)
  {
    hide *;
    RepairUnfolds(str[i..]);
    out' := out + str[i..i + count];
    i' := i + count;
    assert str[i..][..count] == str[i..i'] && str[i..][count..] == str[i'..];
  }

  /** One byte that starts no UTF-8 character gives one replacement character. */
  method EmitReplacement(str: bytes, out: bytes, i: nat) returns (out': bytes, i': nat)
    requires i < |str| && LeadingChar(str[i..]) == 0
    requires out + Repair(str[i..]) == Repair(str)
    ensures out' == out + REPLACEMENT && i' == i + 1
    ensures out' + Repair(str[i'..]) == Repair(str)
  {
    hide *;
    RepairUnfolds(str[i..]);
    out' := out + REPLACEMENT;
    i' := i + 1;
    assert str[i..][1..] == str[i'..];
  }

  lemma ReplacementIsUtf8()
    ensures Utf8Char(REPLACEMENT) && Decode(REPLACEMENT) == 0xFFFD
  {
  }

  /** Whatever comes in, what goes out is UTF-8. */
  lemma {:induction false} RepairIsWellFormed(s: bytes)
    ensures WellFormed(Repair(s))
    decreases |s|
  {
    hide LeadingChar, Utf8Char;
    if s != [] {
      var n := LeadingChar(s);
      if n != 0 {
        RepairIsWellFormed(s[n..]);
        WellFormedCons(s[..n], Repair(s[n..]));
      } else {
        RepairIsWellFormed(s[1..]);
        assert Utf8Char(REPLACEMENT) by {
          ReplacementIsUtf8();
        }
        WellFormedCons(REPLACEMENT, Repair(s[1..]));
      }
    }
  }

  /** UTF-8 followed by anything: the UTF-8 part is untouched, the rest is repaired on its own. */
  lemma {:induction false} RepairDistributes(a: bytes, b: bytes)
    requires WellFormed(a)
    ensures Repair(a + b) == a + Repair(b)
    decreases |a|
  {
    hide *;
    WellFormedUnfolds(a);
    if a == [] {
      assert a + b == b && a + Repair(b) == Repair(b);
    } else {
      var n := LeadingChar(a);
      LeadingCharOfConcat(a, b);
      RepairUnfolds(a + b);
      RepairDistributes(a[n..], b);
      assert (a + b)[..n] == a[..n] && (a + b)[n..] == a[n..] + b;
      assert a[..n] + (a[n..] + Repair(b)) == a + Repair(b);
    }
  }

  /** Exactly the UTF-8 texts are left alone. */
  lemma RepairKeepsExactlyWellFormed(s: bytes)
    ensures Repair(s) == s <==> WellFormed(s)
  {
    hide WellFormed, LeadingChar;
    RepairIsWellFormed(s);
    if WellFormed(s) {
      RepairDistributes(s, []);
      assert s + [] == s;
    }
  }

  lemma RepairIsIdempotent(s: bytes)
    ensures Repair(Repair(s)) == Repair(s)
  {
    RepairIsWellFormed(s);
    RepairKeepsExactlyWellFormed(Repair(s));
  }

  lemma {:induction false} RepairAtMostTriples(s: bytes)
    ensures |s| <= |Repair(s)| <= 3 * |s|
    decreases |s|
  {
    if s != [] {
      var n := LeadingChar(s);
      RepairAtMostTriples(s[if n != 0 then n else 1..]);
    }
  }
}
