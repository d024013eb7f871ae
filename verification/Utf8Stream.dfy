/** examples/jiuwenClaw/utils/encoding.cpp: repairing UTF-8 that arrives in pieces. */
module Utf8Stream {
  import opened Rfc3629
  import opened Utf8Repair

  /** How many bytes a lead byte announces, by its high bits alone; 0 for a byte that cannot lead. */
  function ExpectedLength(c: byte): (n: nat)
    ensures n <= 4
  {
    if c < 0x80 then 1
    else if 0xC0 <= c < 0xE0 then 2
    else if 0xE0 <= c < 0xF0 then 3
    else if 0xF0 <= c < 0xF8 then 4
    else 0
  }

  predicate AllTails(s: bytes) {
    forall k :: 0 <= k < |s| ==> Tail(s[k])
  }

  /** One announced character: kept when all its followers are tails, replaced as a whole otherwise. */
  function Unit(s: bytes, n: nat): bytes
    requires 1 <= n <= |s|
  {
    if AllTails(s[1..n]) then s[..n] else REPLACEMENT
  }

  datatype Drained = Drained(out: bytes, carry: bytes)

  /** What can be decided of the bytes seen so far, and the unfinished character left over. */
  function Drain(s: bytes): (d: Drained)
    ensures |d.carry| <= |s|
    decreases |s|
  {
    if s == [] then Drained([], [])
    else
      var n := ExpectedLength(s[0]);
      if n == 0 then Then(REPLACEMENT, Drain(s[1..]))
      else if n > |s| then Drained([], s)
      else Then(Unit(s, n), Drain(s[n..]))
  }

  function Then(out: bytes, d: Drained): Drained {
    Drained(out + d.out, d.carry)
  }

  lemma ThenNothing(d: Drained)
    ensures Then([], d) == d
  {
    assert [] + d.out == d.out;
  }

  lemma ThenThen(out: bytes, d: Drained, e: Drained)
    ensures Then(Then(out, d).out, e) == Then(out, Then(d.out, e))
    ensures Then(out, d).carry == d.carry
  {
    assert out + d.out + e.out == out + (d.out + e.out);
  }

  lemma ThenLeaves(out: bytes, carry: bytes)
    ensures Then(out, Drained([], carry)) == Drained(out, carry)
  {
    assert out + [] == out;
  }

  lemma ThenAppends(out: bytes, more: bytes, d: Drained)
    ensures Then(out, Then(more, d)) == Then(out + more, d)
  {
    assert out + (more + d.out) == out + more + d.out;
  }

  lemma DrainUnfolds(s: bytes)
    requires s != []
    ensures var n := ExpectedLength(s[0]);
      Drain(s) ==
      if n == 0 then Then(REPLACEMENT, Drain(s[1..]))
      else if n > |s| then Drained([], s)
      else Then(Unit(s, n), Drain(s[n..]))
  {
  }

  lemma NoTails(s: bytes, at: nat)
    requires at <= |s|
    ensures AllTails(s[at..at])
  {
  }

  lemma MoreTails(s: bytes, from: nat, to: nat, end: nat)
    requires from <= to < end <= |s|
    ensures Tail(s[to]) ==> (AllTails(s[from..to]) <==> AllTails(s[from..to + 1]))
    ensures !Tail(s[to]) ==> !AllTails(s[from..end])
  {
    assert s[from..end][to - from] == s[to];
    assert s[from..to + 1] == s[from..to] + [s[to]];
    if AllTails(s[from..to + 1]) {
      assert forall k :: 0 <= k < to - from ==> s[from..to][k] == s[from..to + 1][k];
    }
  }

  lemma UnitInside(s: bytes, at: nat, n: nat)
    requires n >= 1 && at + n <= |s|
    ensures Unit(s[at..], n) == if AllTails(s[at + 1..at + n]) then s[at..at + n] else REPLACEMENT
  {
    assert s[at..][1..n] == s[at + 1..at + n] && s[at..][..n] == s[at..at + n];
  }

  /** Bytes beyond a unit do not change it. */
  lemma UnitOfConcat(a: bytes, b: bytes, n: nat)
    requires 1 <= n <= |a|
    ensures Unit(a + b, n) == Unit(a, n)
  {
    assert (a + b)[1..n] == a[1..n] && (a + b)[..n] == a[..n];
  }

  /** The carry buffer, and the function that takes it by reference. */
  class Streamer {
    var carryBuffer: bytes

    constructor ()
      ensures carryBuffer == []
    {
      carryBuffer := [];
    }

    method FixUTF8Streaming(str: bytes) returns (result: bytes)
      modifies this
      ensures Drained(result, carryBuffer) == Drain(old(carryBuffer) + str)
    {
      hide Drain, AllTails, Unit, Then;
      var fullInput := carryBuffer + str;
      assert fullInput[0..] == fullInput;
      ThenNothing(Drain(fullInput));
      carryBuffer := [];
      result := [];
      var i := 0;
      while i < |fullInput|
        invariant 0 <= i <= |fullInput|
        invariant carryBuffer == []
        invariant Then(result, Drain(fullInput[i..])) == Drain(fullInput)
      {
        ghost var rest := fullInput[i..];
        ghost var done := result;
        DrainUnfolds(rest);
        var c := fullInput[i];
        var expectedLength := 0;
        if c / 0x80 == 0 {
          expectedLength := 1;
        } else if c / 0x20 == 6 {
          expectedLength := 2;
        } else if c / 0x10 == 14 {
          expectedLength := 3;
        } else if c / 8 == 30 {
          expectedLength := 4;
        } else {
          result := result + REPLACEMENT;
          i := i + 1;
          assert rest[1..] == fullInput[i..];
          ThenAppends(done, REPLACEMENT, Drain(fullInput[i..]));
          continue;
        }
        assert expectedLength == ExpectedLength(c);

        if i + expectedLength > |fullInput| {
          carryBuffer := fullInput[i..];
          ThenLeaves(result, rest);
          return;
        }

        var valid := true;
        var j := 1;
        NoTails(fullInput, i + 1);
        while j < expectedLength
          invariant 1 <= j <= expectedLength && carryBuffer == []
          invariant valid ==> AllTails(fullInput[i + 1..i + j])
          invariant !valid ==> !AllTails(fullInput[i + 1..i + expectedLength])
        {
          MoreTails(fullInput, i + 1, i + j, i + expectedLength);
          if !Tail(fullInput[i + j]) {
            valid := false;
            break;
          }
          j := j + 1;
        }
        UnitInside(fullInput, i, expectedLength);
        if valid {
          result := result + fullInput[i..i + expectedLength];
        } else {
          result := result + REPLACEMENT;
        }
        i := i + expectedLength;
        assert rest[expectedLength..] == fullInput[i..];
        ThenAppends(done, Unit(rest, expectedLength), Drain(fullInput[i..]));
      }
      assert fullInput[i..] == [];
      DrainOfNothing();
      ThenLeaves(result, []);
    }
  }

  /** An unfinished character: a lead byte with fewer bytes than it announced. */
  predicate Unfinished(s: bytes) {
    s == [] || |s| < ExpectedLength(s[0])
  }

  /** The carry is always under four bytes and starts with a lead byte still missing bytes. */
  lemma {:induction false} CarryIsUnfinished(s: bytes)
    ensures Unfinished(Drain(s).carry) && |Drain(s).carry| < 4
    decreases |s|
  {
    if s != [] {
      var n := ExpectedLength(s[0]);
      if n == 0 {
        CarryIsUnfinished(s[1..]);
      } else if n <= |s| {
        CarryIsUnfinished(s[n..]);
      }
    }
  }

  lemma DrainOfNothing()
    ensures Drain([]) == Drained([], [])
  {
  }

  /** Only what is unfinished waits for more input. */
  lemma {:induction false} DrainSplits(a: bytes, b: bytes)
    ensures Drain(a + b) == Then(Drain(a).out, Drain(Drain(a).carry + b))
    decreases |a|
  {
    hide *;
    if a == [] {
      DrainOfNothing();
      assert a + b == b && [] + b == b;
      ThenNothing(Drain(b));
    } else {
      DrainUnfolds(a);
      DrainUnfolds(a + b);
      var n := ExpectedLength(a[0]);
      if n == 0 {
        DrainSplits(a[1..], b);
        assert (a + b)[1..] == a[1..] + b;
        ThenThen(REPLACEMENT, Drain(a[1..]), Drain(Drain(a[1..]).carry + b));
      } else if n <= |a| {
        DrainSplits(a[n..], b);
        assert (a + b)[n..] == a[n..] + b;
        UnitOfConcat(a, b, n);
        ThenThen(Unit(a, n), Drain(a[n..]), Drain(Drain(a[n..]).carry + b));
      } else {
        ThenNothing(Drain(a + b));
      }
    }
  }

  /** The streamer called on one chunk after another. */
  function Feed(carry: bytes, chunks: seq<bytes>): Drained
    decreases chunks
  {
    if chunks == [] then Drained([], carry)
    else
      var first := Drain(carry + chunks[0]);
      Then(first.out, Feed(first.carry, chunks[1..]))
  }

  function Concat(chunks: seq<bytes>): bytes {
    if chunks == [] then [] else chunks[0] + Concat(chunks[1..])
  }

  lemma {:induction false} FeedIsDrain(carry: bytes, chunks: seq<bytes>)
    requires Unfinished(carry)
    ensures Feed(carry, chunks) == Drain(carry + Concat(chunks))
    decreases chunks
  {
    hide Drain, Then;
    if chunks == [] {
      assert carry + Concat(chunks) == carry;
      DrainOfUnfinished(carry);
    } else {
      var first := Drain(carry + chunks[0]);
      CarryIsUnfinished(carry + chunks[0]);
      FeedIsDrain(first.carry, chunks[1..]);
      DrainSplits(carry + chunks[0], Concat(chunks[1..]));
      assert carry + chunks[0] + Concat(chunks[1..]) == carry + Concat(chunks);
    }
  }

  lemma DrainOfUnfinished(s: bytes)
    ensures Unfinished(s) <==> Drain(s) == Drained([], s)
  {
    if s != [] && !Unfinished(s) {
      assert |Drain(s).carry| < |s|;
    }
  }

  /** However a text is cut into chunks, outputs and final carry are those of one call on the whole. */
  lemma ChunkingDoesNotMatter(chunks: seq<bytes>)
    ensures Feed([], chunks) == Drain(Concat(chunks))
  {
    FeedIsDrain([], chunks);
    assert [] + Concat(chunks) == Concat(chunks);
  }

  lemma {:induction false} DrainKeepsWellFormed(s: bytes)
    requires WellFormed(s)
    ensures Drain(s) == Drained(s, [])
    decreases |s|
  {
    hide Drain, WellFormed, LeadingChar;
    WellFormedUnfolds(s);
    if s == [] {
      assert Drain(s) == Drained(s, []) by {
        DrainOfNothing();
      }
    } else {
      var n := LeadingChar(s);
      LeadingCharByBytes(s);
      DrainUnfolds(s);
      DrainKeepsWellFormed(s[n..]);
      assert s[..n] + s[n..] == s;
    }
  }

  /** UTF-8 text cut anywhere, even inside characters, comes out whole, with nothing left over. */
  lemma CutUtf8ComesOutWhole(chunks: seq<bytes>)
    requires WellFormed(Concat(chunks))
    ensures Feed([], chunks) == Drained(Concat(chunks), [])
  {
    ChunkingDoesNotMatter(chunks);
    DrainKeepsWellFormed(Concat(chunks));
  }

  // ---------- What the streamer lets through ----------

  /** The announced characters that are copied out, in order: those whose followers are all tails. */
  function Kept(s: bytes): (units: seq<bytes>)
    ensures forall u <- units :: 1 <= |u| <= 4 && |u| == ExpectedLength(u[0]) && AllTails(u[1..])
    decreases |s|
  {
    if s == [] then []
    else
      var n := ExpectedLength(s[0]);
      if n == 0 then Kept(s[1..])
      else if n > |s| then []
      else if AllTails(s[1..n]) then
        assert s[..n][1..] == s[1..n];
        [s[..n]] + Kept(s[n..])
      else Kept(s[n..])
  }

  /** The two checks the streamer does not make: that its first byte leads a character at all, and
      that the second is neither overlong, nor a surrogate's, nor past the last code point. */
  predicate LegalHead(u: bytes)
    requires u != []
  {
    && u[0] !in {0xC0, 0xC1, 0xF5, 0xF6, 0xF7}
    && (|u| >= 3 ==> SecondByte(u[0], u[1]))
  }

  /** For what the streamer copies out, those two checks are all that is missing. */
  lemma KeptIsCharIff(u: bytes)
    requires u != [] && |u| == ExpectedLength(u[0]) && AllTails(u[1..])
    ensures Utf8Char(u) <==> LegalHead(u)
  {
    assert forall k :: 1 <= k < |u| ==> u[k] == u[1..][k - 1];
    if |u| >= 2 {
      assert Tail(u[1]);
    }
    if |u| >= 3 {
      assert Tail(u[2]);
    }
    if |u| >= 4 {
      assert Tail(u[3]);
    }
  }

  /** What is written begins with the unit just written, whole; so its text is UTF-8 only if that unit is. */
  lemma HeadDecides(u: bytes, rest: bytes)
    requires u != [] && |u| == ExpectedLength(u[0])
    ensures WellFormed(u + rest) <==> Utf8Char(u) && WellFormed(rest)
  {
    hide WellFormed, LeadingChar;
    var s := u + rest;
    assert s[..|u|] == u && s[|u|..] == rest;
    WellFormedUnfolds(s);
    LeadingCharByBytes(s);
    if Utf8Char(u) {
      LeadingCharIsUnique(s, |u|);
    }
  }

  /** The output is UTF-8 exactly if every character copied out has a legal head. */
  lemma {:induction false} OutputIsUtf8Iff(s: bytes)
    ensures WellFormed(Drain(s).out) <==> forall u <- Kept(s) :: LegalHead(u)
    decreases |s|
  {
    hide WellFormed, LegalHead, Utf8Char, AllTails;
    if s == [] {
      WellFormedUnfolds([]);
    } else {
      var n := ExpectedLength(s[0]);
      if n == 0 {
        OutputIsUtf8Iff(s[1..]);
        ReplacementDecides(Drain(s[1..]).out);
      } else if n > |s| {
        WellFormedUnfolds([]);
      } else {
        OutputIsUtf8Iff(s[n..]);
        if AllTails(s[1..n]) {
          assert s[..n][1..] == s[1..n];
          KeptIsCharIff(s[..n]);
          HeadDecides(s[..n], Drain(s[n..]).out);
        } else {
          ReplacementDecides(Drain(s[n..]).out);
        }
      }
    }
  }

  lemma ReplacementDecides(rest: bytes)
    ensures WellFormed(REPLACEMENT + rest) <==> WellFormed(rest)
  {
    hide WellFormed;
    ReplacementIsUtf8();
    HeadDecides(REPLACEMENT, rest);
  }

  /** The same of a text that arrives in pieces. */
  lemma StreamedOutputIsUtf8Iff(chunks: seq<bytes>)
    ensures WellFormed(Feed([], chunks).out) <==> forall u <- Kept(Concat(chunks)) :: LegalHead(u)
  {
    ChunkingDoesNotMatter(chunks);
    OutputIsUtf8Iff(Concat(chunks));
  }

  /** Overlong forms, surrogates and what lies past U+10FFFF are each passed on unchanged, whatever
      follows, where FixStringUTF8 replaces every byte of them. */
  lemma IllegalHeadPasses(u: bytes, rest: bytes)
    requires u != [] && |u| == ExpectedLength(u[0]) && AllTails(u[1..]) && !LegalHead(u)
    ensures Drain(u + rest) == Then(u, Drain(rest)) && !WellFormed(Drain(u + rest).out)
    ensures Repair(u + rest) == Replacements(|u|) + Repair(rest)
  {
    hide WellFormed, LeadingChar, AllTails, LegalHead, Utf8Char, Repair, Drain, Replacements;
    var s := u + rest;
    assert s[..|u|] == u && s[|u|..] == rest && s[1..|u|] == u[1..];
    DrainUnfolds(s);
    KeptIsCharIff(u);
    HeadDecides(u, Drain(rest).out);
    IllegalHeadIsReplaced(u, rest);
  }

  lemma IllegalHeadIsReplaced(u: bytes, rest: bytes)
    requires u != [] && |u| == ExpectedLength(u[0]) && AllTails(u[1..]) && !Utf8Char(u)
    ensures Repair(u + rest) == Replacements(|u|) + Repair(rest)
  {
    hide LeadingChar, AllTails, Utf8Char, Repair;
    var s, more := u + rest, Replacements(|u| - 1);
    RepairUnfolds(s);
    LeadingCharDecides(u, rest);
    assert s[1..] == u[1..] + rest;
    TailsAreReplaced(u[1..], rest);
    assert REPLACEMENT + (more + Repair(rest)) == REPLACEMENT + more + Repair(rest);
  }

  function Replacements(n: nat): bytes {
    if n == 0 then [] else REPLACEMENT + Replacements(n - 1)
  }

  lemma {:induction false} TailsAreReplaced(tails: bytes, rest: bytes)
    requires AllTails(tails)
    ensures Repair(tails + rest) == Replacements(|tails|) + Repair(rest)
    decreases |tails|
  {
    hide LeadingChar, Repair;
    var s := tails + rest;
    if tails == [] {
      assert s == rest && [] + Repair(rest) == Repair(rest);
    } else {
      assert s[1..] == tails[1..] + rest;
      TailsAreReplaced(tails[1..], rest);
      LeadingCharByBytes(s);
      RepairUnfolds(s);
      var more := Replacements(|tails| - 1);
      assert REPLACEMENT + (more + Repair(rest)) == REPLACEMENT + more + Repair(rest);
    }
  }

  lemma LeadingCharDecides(u: bytes, rest: bytes)
    requires u != [] && |u| == ExpectedLength(u[0]) && !Utf8Char(u)
    ensures LeadingChar(u + rest) == 0
  {
    var s := u + rest;
    assert s[..|u|] == u;
    LeadingCharByBytes(s);
  }

  /** Whatever comes before UTF-8 text, FixStringUTF8 repairs it on its own and keeps the text. */
  lemma {:induction false} RepairKeepsTextAfter(a: bytes, text: bytes)
    requires WellFormed(text)
    ensures Repair(a + text) == Repair(a) + text
    decreases |a|
  {
    hide WellFormed, LeadingChar, Repair;
    RepairKeepsExactlyWellFormed(text);
    if a == [] {
      assert a + text == text && Repair([]) + text == text by {
        RepairOfNothing();
      }
    } else {
      var n := LeadingChar(a);
      NoCharAcross(a, text);
      RepairUnfolds(a);
      RepairUnfolds(a + text);
      if n != 0 {
        RepairKeepsTextAfter(a[n..], text);
        assert (a + text)[..n] == a[..n] && (a + text)[n..] == a[n..] + text;
        assert a[..n] + (Repair(a[n..]) + text) == a[..n] + Repair(a[n..]) + text;
      } else {
        RepairKeepsTextAfter(a[1..], text);
        assert (a + text)[1..] == a[1..] + text;
        assert REPLACEMENT + (Repair(a[1..]) + text) == REPLACEMENT + Repair(a[1..]) + text;
      }
    }
  }

  lemma RepairOfNothing()
    ensures Repair([]) == []
  {
  }

  /** No character reaches into UTF-8 text from outside, because the text does not begin with a tail. */
  lemma NoCharAcross(a: bytes, text: bytes)
    requires a != [] && WellFormed(text)
    ensures LeadingChar(a + text) == LeadingChar(a)
  {
    hide WellFormed, LeadingChar;
    LeadingCharByBytes(a);
    LeadingCharByBytes(a + text);
    WellFormedUnfolds(text);
    if text != [] {
      LeadingCharByBytes(text);
    }
  }

  /** How many more bytes an unfinished character was announced to have. */
  function Missing(carry: bytes): nat
    requires Unfinished(carry)
  {
    if carry == [] then 0 else ExpectedLength(carry[0]) - |carry|
  }

  /** An unfinished character takes the bytes after it along: in front of any UTF-8 text it is replaced together with
      as many bytes of the text as it lacks, or keeps all of a shorter text waiting. */
  lemma CarrySwallows(carry: bytes, text: bytes)
    requires carry != [] && Unfinished(carry) && WellFormed(text) && text != []
    ensures Drain(carry + text) ==
      if Missing(carry) <= |text| then Then(REPLACEMENT, Drain(text[Missing(carry)..])) else Drained([], carry + text)
    ensures Repair(carry + text) == Repair(carry) + text
  {
    hide WellFormed, LeadingChar, Repair;
    var s, n := carry + text, ExpectedLength(carry[0]);
    RepairKeepsTextAfter(carry, text);
    DrainUnfolds(s);
    if n <= |s| {
      assert s[n..] == text[Missing(carry)..];
      WellFormedUnfolds(text);
      LeadingCharByBytes(text);
      assert s[1..n][|carry| - 1] == text[0] && !Tail(text[0]);
    }
  }

  /** What a tail that stands alone, and then UTF-8 text, comes out as. */
  lemma LoneTailsGrow(s: bytes, k: nat)
    requires |s| >= 3 && s[..3] == REPLACEMENT && WellFormed(s[3..]) && 1 <= k <= 2
    ensures |Drain(s[k..]).out| > |s[3..]|
  {
    hide WellFormed;
    DrainKeepsWellFormed(s[3..]);
    assert s[2] == 0xBD && s[1] == 0xBF by {
      assert s[..3][1] == 0xBF && s[..3][2] == 0xBD;
    }
    assert s[2..][1..] == s[3..];
    DrainUnfolds(s[2..]);
    if k == 1 {
      assert s[1..][1..] == s[2..];
      DrainUnfolds(s[1..]);
    }
  }

  /** UTF-8 text after a carry comes out as itself, if and only if the carry buffer is empty; but for a coincidence: a
      lead byte that lacks three bytes swallows a U+FFFD, which is what it is replaced by. */
  lemma TextSurvivesCarryIff(carry: bytes, text: bytes)
    requires Unfinished(carry) && WellFormed(text) && text != []
    ensures Drain(carry + text) == Drained(text, []) <==>
      carry == [] || (Missing(carry) == 3 && REPLACEMENT <= text)
  {
    hide WellFormed, Drain;
    if carry == [] {
      assert carry + text == text;
      DrainKeepsWellFormed(text);
    } else {
      CarrySwallows(carry, text);
      if REPLACEMENT <= text {
        assert text == REPLACEMENT + text[3..];
        ReplacementDecides(text[3..]);
        DrainKeepsWellFormed(text[3..]);
        if Missing(carry) < 3 {
          LoneTailsGrow(text, Missing(carry));
        }
      }
    }
  }
}
