/** What the context window promises, whatever the history. */
module ContextGuarantees {
  import opened ContextTokens
  import opened ToolPairing
  import opened ContextWindow

  // ---------- The halving loop ----------

  /** Halving ends within the budget and, one character being free, never with nothing: the
      "[compressed]" marker is never needed. */
  lemma {:induction false} HalvedFitsAndIsNotEmpty(s: string, budget: int)
    requires s != "" && budget >= 1
    ensures var h := Halved(s, budget);
      h != "" && Tokens(h) <= budget && h <= s && OrMarker(h) == h
    decreases |s|
  {
    hide Tokens;
    if |s| == 1 {
      TokensOfOneChar(s);
    }
    if Tokens(s) > budget {
      HalvedFitsAndIsNotEmpty(s[..|s| / 2], budget);
    }
  }

  // ---------- Size ----------

  lemma {:induction false} KeepPairedIsNoLonger(ms: seq<Message>, ids: set<string>)
    ensures |KeepPaired(ms, ids)| <= |ms|
  {
    if ms != [] {
      KeepPairedIsNoLonger(ms[..|ms| - 1], ids);
    }
  }

  /** Never more messages than the limit (and one when the limit is zero). */
  lemma WindowSize(limits: Limits, ms: seq<Message>)
    requires limits.maxMessages >= 0
    ensures |Window(limits, ms)| <= Max(limits.maxMessages, 1)
  {
    var capped := Capped(limits, Select(limits, Merged(ms), 0));
    KeepPairedIsNoLonger(capped, PairedIds(capped));
  }

  // ---------- Tokens ----------

  lemma {:induction false} CallTokensOfConcat(a: seq<ToolCall>, b: seq<ToolCall>)
    ensures CallTokens(a + b) == CallTokens(a) + CallTokens(b)
  {
    hide Tokens;
    if a == [] {
      assert a + b == b;
    } else {
      assert (a + b)[1..] == a[1..] + b;
      CallTokensOfConcat(a[1..], b);
    }
  }

  lemma {:induction false} KeptCallsCostNoMore(calls: seq<ToolCall>, ids: set<string>)
    ensures CallTokens(KeptCalls(calls, ids)) <= CallTokens(calls)
  {
    hide Tokens;
    if calls != [] {
      var before, c := calls[..|calls| - 1], calls[|calls| - 1];
      assert calls == before + [c];
      KeptCallsCostNoMore(before, ids);
      CallTokensOfConcat(before, [c]);
      CallTokensOfConcat(KeptCalls(before, ids), [c]);
      assert KeptCalls(before, ids) + [] == KeptCalls(before, ids);
    }
  }

  lemma KeptMessageCostsNoMore(m: Message, ids: set<string>)
    ensures MessagesTokens(KeptMessage(m, ids)) <= MessageTokens(m)
  {
    hide Tokens, KeptCalls, CallTokens;
    KeptCallsCostNoMore(m.toolCalls, ids);
    MessagesTokensOfOne(m);
    MessagesTokensOfOne(m.(toolCalls := KeptCalls(m.toolCalls, ids)));
  }

  lemma {:induction false} RepairCostsNoMore(ms: seq<Message>, ids: set<string>)
    ensures MessagesTokens(KeepPaired(ms, ids)) <= MessagesTokens(ms)
  {
    hide MessageTokens, KeptMessage, MessagesTokens;
    if ms == [] {
      assert KeepPaired(ms, ids) == ms;
    } else {
      var before, m := ms[..|ms| - 1], ms[|ms| - 1];
      assert ms == before + [m];
      RepairCostsNoMore(before, ids);
      KeptMessageCostsNoMore(m, ids);
      MessagesTokensOfOne(m);
      MessagesTokensOfConcat(before, [m]);
      MessagesTokensOfConcat(KeepPaired(before, ids), KeptMessage(m, ids));
      assert KeepPaired(before, ids) + [] == KeepPaired(before, ids);
    }
  }

  lemma CapCostsNoMore(limits: Limits, ms: seq<Message>)
    requires limits.maxMessages >= 0
    ensures MessagesTokens(Capped(limits, ms)) <= MessagesTokens(ms)
  {
    hide MessagesTokens;
    var cut := |ms| - |Capped(limits, ms)|;
    assert ms == ms[..cut] + Capped(limits, ms);
    MessagesTokensOfConcat(ms[..cut], Capped(limits, ms));
  }

  lemma SummaryMessageTokens(text: string)
    ensures MessageTokens(SummaryMessage(text)) == 2 + Tokens(text)
  {
    TokensOfAscii("assistant");
    TokensOfOneChar("");
  }

  /** A compressed segment overshoots its budget by two at most, unless its opening user message alone
      all but fills it: then by that message and three. */
  lemma CompressedCost(limits: Limits, ms: seq<Message>, budget: int)
    requires budget >= 1
    ensures MessagesTokens(Compressed(limits, ms, budget))
         <= Max(budget + 2, MessagesTokens(Opening(ms)) + 3)
  {
    hide MessageTokens, MessagesTokens, Tokens, Halved, SummaryText, HasSummary, OrMarker;
    var opening, text := Opening(ms), SummaryText(ms);
    var room := Max(1, budget - MessagesTokens(opening));
    SummaryTextIsNotEmpty(ms);
    HalvedFitsAndIsNotEmpty(text, room);
    var summary := SummaryMessage(OrMarker(Halved(text, room)));
    SummaryMessageTokens(summary.content);
    MessagesTokensOfOne(summary);
    MessagesTokensOfConcat(opening, [summary]);
  }

  lemma SummaryTextIsNotEmpty(ms: seq<Message>)
    ensures SummaryText(ms) != ""
  {
    assert |Heading()| > 0;
  }

  /** The cost of the user message that opens the compressed boundary segment; 0 if there is none. */
  function BoundaryOpening(limits: Limits, ms: seq<Message>, total: int): nat
    decreases |ms|
  {
    if ms == [] then 0
    else
      var start := LastSegment(ms);
      if Fits(limits, ms[start..], total) then
        BoundaryOpening(limits, ms[..start], total + MessagesTokens(ms[start..]))
      else MessagesTokens(Opening(ms[start..]))
  }

  lemma {:induction false} SelectCost(limits: Limits, ms: seq<Message>, total: nat)
    requires total <= Max(limits.maxContextTokens, 0)
    ensures total + MessagesTokens(Select(limits, ms, total))
         <= Max(limits.maxContextTokens, 0) + BoundaryOpening(limits, ms, total) + 3
    decreases |ms|
  {
    hide MessagesTokens, Compressed, LastSegment, Select, Opening;
    if ms == [] {
      SelectNothing(limits, total);
      MessagesTokensOfNone();
    } else {
      var start := LastSegment(ms);
      SelectUnfolds(limits, ms, total, start);
      if Fits(limits, ms[start..], total) {
        SelectCost(limits, ms[..start], total + MessagesTokens(ms[start..]));
        MessagesTokensOfConcat(
          Select(limits, ms[..start], total + MessagesTokens(ms[start..])), ms[start..]);
      } else {
        CompressedCost(limits, ms[start..], Budget(limits, total));
      }
    }
  }

  lemma MessagesTokensOfNone()
    ensures MessagesTokens([]) == 0
  {
  }

  /** The token bound, for every history and every limit. */
  lemma WindowCost(limits: Limits, ms: seq<Message>)
    requires limits.maxMessages >= 0
    ensures MessagesTokens(Window(limits, ms))
         <= Max(limits.maxContextTokens, 0) + BoundaryOpening(limits, Merged(ms), 0) + 3
  {
    hide MessagesTokens, Merged, Select, BoundaryOpening, Capped, KeepPaired;
    var selected := Select(limits, Merged(ms), 0);
    SelectCost(limits, Merged(ms), 0);
    CapCostsNoMore(limits, selected);
    var capped := Capped(limits, selected);
    RepairCostsNoMore(capped, PairedIds(capped));
  }

  // ---------- Shape ----------

  /** Where the segments that were taken whole begin. */
  function TakenFrom(limits: Limits, ms: seq<Message>, total: int): (from: nat)
    ensures from <= |ms|
    decreases |ms|
  {
    if ms == [] then 0
    else
      var start := LastSegment(ms);
      if Fits(limits, ms[start..], total) then
        TakenFrom(limits, ms[..start], total + MessagesTokens(ms[start..]))
      else |ms|
  }

  /** At most one compressed segment, which ends at `from`, then the messages from there on. */
  function Shape(limits: Limits, ms: seq<Message>, total: int, from: nat): seq<Message>
    requires from <= |ms|
  {
    if from == 0 then ms
    else
      Compressed(limits, ms[LastSegment(ms[..from])..from], Budget(limits, total + MessagesTokens(ms[from..]))) + ms[from..]
  }

  /** Nothing, everything, or all from some user message on. */
  predicate Boundary(ms: seq<Message>, from: nat) {
    from == 0 || from == |ms| || (from < |ms| && IsUser(ms[from]))
  }

  /** Before the cap, the window is at most one compressed segment, then a contiguous suffix that begins at a segment. */
  lemma {:induction false} SelectShape(limits: Limits, ms: seq<Message>, total: int)
    ensures Select(limits, ms, total) == Shape(limits, ms, total, TakenFrom(limits, ms, total))
    ensures Boundary(ms, TakenFrom(limits, ms, total))
    decreases |ms|
  {
    hide MessagesTokens, Compressed, LastSegment, Select, Fits, Budget, Shape;
    if ms == [] {
      SelectNothing(limits, total);
      ShapeOfAll(limits, ms, total);
    } else {
      var start := LastSegment(ms);
      SelectUnfolds(limits, ms, total, start);
      var own := ms[start..];
      if Fits(limits, own, total) {
        SelectShape(limits, ms[..start], total + MessagesTokens(own));
        ShapeGrows(limits, ms, total, start, TakenFrom(limits, ms[..start], total + MessagesTokens(own)));
      } else {
        ShapeOfAll(limits, ms, total);
      }
    }
  }

  /** Nothing taken whole: the newest segment compressed, if there is one. */
  lemma ShapeOfAll(limits: Limits, ms: seq<Message>, total: int)
    ensures Shape(limits, ms, total, |ms|)
      == if ms == [] then [] else Compressed(limits, ms[LastSegment(ms)..], Budget(limits, total))
  {
    hide MessagesTokens, Compressed, LastSegment;
    MessagesTokensOfNone();
    assert ms[..|ms|] == ms && ms[|ms|..] == [];
    if ms != [] {
      var boundary := Compressed(limits, ms[LastSegment(ms)..], Budget(limits, total));
      assert ms[LastSegment(ms)..|ms|] == ms[LastSegment(ms)..];
      assert boundary + [] == boundary;
    }
  }

  /** A segment taken whole makes the suffix longer. */
  lemma ShapeGrows(limits: Limits, ms: seq<Message>, total: int, start: nat, from: nat)
    requires from <= start <= |ms|
    ensures Shape(limits, ms[..start], total + MessagesTokens(ms[start..]), from) + ms[start..] == Shape(limits, ms, total, from)
  {
    hide MessagesTokens, Compressed, LastSegment, Budget;
    SuffixGrows(limits, ms, start, from);
    if from != 0 {
      var boundary := Compressed(limits, ms[LastSegment(ms[..from])..from], Budget(limits, total + MessagesTokens(ms[from..])));
      assert (boundary + ms[..start][from..]) + ms[start..] == boundary + (ms[..start][from..] + ms[start..]);
    }
  }

  lemma SuffixGrows(limits: Limits, ms: seq<Message>, start: nat, from: nat)
    requires from <= start <= |ms|
    ensures var older := ms[..start];
      && older + ms[start..] == ms
      && older[from..] + ms[start..] == ms[from..]
      && older[..from] == ms[..from]
      && MessagesTokens(older[from..]) + MessagesTokens(ms[start..]) == MessagesTokens(ms[from..])
      && (from != 0 ==> older[LastSegment(older[..from])..from] == ms[LastSegment(ms[..from])..from])
  {
    hide MessagesTokens, LastSegment;
    var older := ms[..start];
    assert older[..from] == ms[..from];
    MessagesTokensOfConcat(older[from..], ms[start..]);
  }

  /** The compressed segment is the segment itself, or at most its opening message and one summary. */
  lemma CompressedShape(limits: Limits, ms: seq<Message>, budget: int)
    ensures var c := Compressed(limits, ms, budget);
      || (c == ms && |ms| <= limits.maxMessages)
      || c == Opening(ms)
      || (HasSummary(ms) && exists text :: c == Opening(ms) + [SummaryMessage(text)])
  {
    hide MessagesTokens, SummaryText, HasSummary, Opening, Halved;
  }

  // ---------- The newest user query ----------

  /** The content of the newest user message; "" when there is none. */
  function NewestQuery(ms: seq<Message>): string {
    if ms == [] then ""
    else if IsUser(ms[|ms| - 1]) then ms[|ms| - 1].content
    else NewestQuery(ms[..|ms| - 1])
  }

  predicate HasUser(ms: seq<Message>) {
    exists m <- ms :: IsUser(m)
  }

  predicate EndsWith(s: string, t: string) {
    |t| <= |s| && s[|s| - |t|..] == t
  }

  /** Message `u` is the newest user message, and its content ends with the query. */
  predicate Holds(ms: seq<Message>, u: nat, query: string) {
    && u < |ms| && IsUser(ms[u]) && EndsWith(ms[u].content, query)
    && forall k :: u < k < |ms| ==> !IsUser(ms[k])
  }

  lemma JoinKeepsQuery(ms: seq<Message>, m: Message, u: nat, query: string)
    requires Holds(ms, u, query) && !IsUser(m)
    ensures Holds(Join(ms, m), u, query)
  {
  }

  lemma JoinBringsQuery(ms: seq<Message>, m: Message)
    requires IsUser(m)
    ensures Holds(Join(ms, m), |Join(ms, m)| - 1, m.content)
  {
  }

  /** Merging keeps the newest user query at the end of the newest user message. */
  lemma {:induction false} MergedHoldsQuery(ms: seq<Message>) returns (u: nat)
    requires HasUser(ms)
    ensures Holds(Merged(ms), u, NewestQuery(ms))
  {
    hide Join;
    var before, m := ms[..|ms| - 1], ms[|ms| - 1];
    if IsUser(m) {
      u := |Merged(ms)| - 1;
      JoinBringsQuery(Merged(before), m);
    } else {
      u := MergedHoldsQuery(before);
      JoinKeepsQuery(Merged(before), m, u, NewestQuery(before));
    }
  }

  lemma {:induction false} RepairKeepsUsers(ms: seq<Message>, ids: set<string>, m: Message)
    requires IsUser(m)
    ensures m in KeepPaired(ms, ids) <==> m in ms
  {
    hide KeptCalls;
    if ms != [] {
      RepairKeepsUsers(ms[..|ms| - 1], ids, m);
      assert ms == ms[..|ms| - 1] + [ms[|ms| - 1]];
    }
  }

  /** The newest segment of the merged history starts with the user message that ends with the query. */
  lemma NewestSegment(ms: seq<Message>) returns (u: nat)
    requires HasUser(ms)
    ensures var merged := Merged(ms);
      u < |merged| && LastSegment(merged) == u && IsUser(merged[u]) && EndsWith(merged[u].content, NewestQuery(ms))
  {
    hide Merged, LastSegment, NewestQuery, EndsWith;
    u := MergedHoldsQuery(ms);
    LastSegmentIsUnique(Merged(ms), u);
  }

  /** With room for two messages, a user message that ends with the newest user query always survives. */
  lemma NewestQuerySurvives(limits: Limits, ms: seq<Message>)
    requires limits.maxMessages >= 2 && HasUser(ms)
    ensures exists m :: m in Window(limits, ms) && IsUser(m) && EndsWith(m.content, NewestQuery(ms))
  {
    hide MessagesTokens, Merged, LastSegment, Select, KeepPaired, Compressed, Fits, NewestQuery, EndsWith, HasUser, Capped, PairedIds;
    var u := NewestSegment(ms);
    var merged := Merged(ms);
    var m := merged[u];
    OpeningIsSelected(limits, merged, u);
    var capped := Capped(limits, Select(limits, merged, 0));
    RepairKeepsUsers(capped, PairedIds(capped), m);
  }

  lemma OpeningIsSelected(limits: Limits, merged: seq<Message>, u: nat)
    requires limits.maxMessages >= 2
    requires u < |merged| && LastSegment(merged) == u && IsUser(merged[u])
    ensures merged[u] in Capped(limits, Select(limits, merged, 0))
  {
    hide MessagesTokens, LastSegment, Select, Compressed, Fits;
    SelectUnfolds(limits, merged, 0, u);
    var own, selected := merged[u..], Select(limits, merged, 0);
    assert own[0] == merged[u];
    if Fits(limits, own, 0) {
      FitsSize(limits, own, 0);
      var older := Select(limits, merged[..u], MessagesTokens(own));
      assert selected == older + own && selected[|older|] == merged[u];
      var capped := Capped(limits, selected);
      assert capped[|capped| - |own|] == merged[u];
    } else {
      CompressedShape(limits, own, Budget(limits, 0));
      assert selected[0] == merged[u] && |selected| <= limits.maxMessages;
    }
  }

  lemma FitsSize(limits: Limits, own: seq<Message>, total: int)
    requires Fits(limits, own, total)
    ensures |own| <= limits.maxMessages
  {
  }

  lemma LoneMessageHasNoSummary(m: Message)
    requires IsUser(m)
    ensures !HasSummary([m])
  {
    var ms := [m];
    assert ms[..|ms| - 1] == [];
    assert ToolSummaries(ms) == ToolSummaries([]) + [];
    assert LastAssistantText(ms) == LastAssistantText([]);
  }

  /** With room for one message only, a user message that ends with the newest query survives exactly when the newest
      segment holds nothing to summarise, no tool result and no assistant text; and no other user message ever does. */
  lemma LoneSlotKeepsQueryIff(limits: Limits, ms: seq<Message>)
    requires limits.maxMessages == 1 && HasUser(ms)
    ensures var merged := Merged(ms);
      (exists m <- Window(limits, ms) :: IsUser(m) && EndsWith(m.content, NewestQuery(ms)))
        <==> !HasSummary(merged[LastSegment(merged)..])
    ensures forall m <- Window(limits, ms) :: IsUser(m) ==> EndsWith(m.content, NewestQuery(ms))
  {
    hide MessagesTokens, Merged, LastSegment, Select, KeepPaired, HasSummary, Capped, PairedIds, EndsWith, NewestQuery, HasUser;
    var u := NewestSegment(ms);
    var merged := Merged(ms);
    LoneSlotSelected(limits, merged, u);
    var capped := Capped(limits, Select(limits, merged, 0));
    assert capped == [capped[0]];
    forall m | IsUser(m)
      ensures m in Window(limits, ms) <==> m == capped[0]
    {
      RepairKeepsUsers(capped, PairedIds(capped), m);
    }
  }

  lemma LoneSlotSelected(limits: Limits, merged: seq<Message>, u: nat)
    requires limits.maxMessages == 1
    requires u < |merged| && LastSegment(merged) == u && IsUser(merged[u])
    ensures var capped := Capped(limits, Select(limits, merged, 0));
      |capped| == 1 && (IsUser(capped[0]) <==> !HasSummary(merged[u..])) && (IsUser(capped[0]) ==> capped[0] == merged[u])
  {
    hide MessagesTokens, LastSegment, Select, Compressed, HasSummary;
    SelectUnfolds(limits, merged, 0, u);
    LoneMessageHasNoSummary(merged[u]);
    var own := merged[u..];
    if Fits(limits, own, 0) {
      assert own == [merged[u]];
      assert Select(limits, merged, 0) == Select(limits, merged[..u], MessagesTokens(own)) + own;
    } else {
      LoneSlotCompressed(limits, own, Budget(limits, 0));
    }
  }

  lemma LoneSlotCompressed(limits: Limits, own: seq<Message>, budget: int)
    requires limits.maxMessages == 1 && own != [] && IsUser(own[0])
    ensures var capped := Capped(limits, Compressed(limits, own, budget));
      |capped| == 1 && (IsUser(capped[0]) <==> !HasSummary(own)) && (IsUser(capped[0]) ==> capped[0] == own[0])
  {
    hide MessagesTokens, HasSummary, SummaryText, Halved;
    LoneMessageHasNoSummary(own[0]);
    assert |own| == 1 ==> own == [own[0]];
  }

  // ---------- The token bound is attained ----------

  lemma {:induction false} HalvedAsciiToOneToken(s: string)
    requires AllAscii(s) && |s| >= 4
    ensures Tokens(Halved(s, 1)) == (if |s| < 8 then |s| / 4 else 1)
    decreases |s|
  {
    TokensOfAscii(s);
    if |s| >= 8 {
      HalvedAsciiToOneToken(s[..|s| / 2]);
    }
  }

  lemma AsciiOfConcat(a: string, b: string)
    requires AllAscii(a) && AllAscii(b)
    ensures AllAscii(a + b)
  {
  }

  lemma HeadingsAreAscii()
    ensures AllAscii(Heading()) && |Heading()| >= 8 && AllAscii(StateHeading())
  {
    AsciiOfConcat("Context segment compressed", " due to context window limits.");
  }

  lemma SpokenSummary(text: string)
    requires AllAscii(text) && text != ""
    ensures HasSummary([SummaryMessage(text)])
    ensures AllAscii(SummaryText([SummaryMessage(text)])) && |SummaryText([SummaryMessage(text)])| >= 8
  {
    hide Heading, StateHeading, ToolHeading;
    var ms := [SummaryMessage(text)];
    assert ms[..|ms| - 1] == [];
    assert ToolSummaries(ms) == ToolSummaries([]) + [];
    assert LastAssistantText(ms) == text;
    HeadingsAreAscii();
    AsciiOfConcat(Preview(text, 800), "");
    AsciiOfConcat(StateHeading(), Preview(text, 800));
    AsciiOfConcat(Heading() + "", StatePart(text));
  }

  lemma RepairedLone(m: Message)
    requires m.toolCalls == [] && !IsTool(m)
    ensures Repaired([m]) == [m]
  {
    var ms := [m];
    var ids := PairedIds(ms);
    assert ms[..|ms| - 1] == [];
    assert KeepPaired(ms, ids) == KeepPaired([], ids) + [m];
  }

  /** The bound is met with equality: with no token to spend, any one ASCII assistant message leaves a
      window of exactly three. */
  lemma TokenBoundIsAttained(limits: Limits, text: string)
    requires limits.maxContextTokens == 0 && limits.maxMessages >= 1
    requires AllAscii(text) && text != ""
    ensures var ms := [SummaryMessage(text)];
      && BoundaryOpening(limits, Merged(ms), 0) == 0
      && MessagesTokens(Window(limits, ms)) == 3
  {
    hide SummaryText, HasSummary, Halved, MessagesTokens, MessageTokens, Tokens, LastSegment, Select;
    var m := SummaryMessage(text);
    var ms := [m];
    assert ms[..|ms| - 1] == [] && Merged(ms) == ms;
    LastSegmentIsUnique(ms, 0);
    SelectUnfolds(limits, ms, 0, 0);
    assert ms[0..] == ms;
    SpokenSummary(text);
    SummaryMessageTokens(text);
    MessagesTokensOfOne(m);
    var whole := SummaryText(ms);
    assert Opening(ms) == [];
    MessagesTokensOfNone();
    SummaryMessageTokens(whole);
    MessagesTokensOfOne(SummaryMessage(whole));
    HalvedAsciiToOneToken(whole);
    HalvedFitsAndIsNotEmpty(whole, 1);
    var short := SummaryMessage(Halved(whole, 1));
    SummaryMessageTokens(Halved(whole, 1));
    MessagesTokensOfOne(short);
    assert [] + [SummaryMessage(whole)] == [SummaryMessage(whole)] && [] + [short] == [short];
    assert Compressed(limits, ms, 1) == [short];
    RepairedLone(short);
  }

  function UserMessage(text: string): Message {
    Message("user", text, [], "", "", "", "")
  }

  lemma UserMessageTokens(text: string)
    requires AllAscii(text)
    ensures MessageTokens(UserMessage(text)) == 1 + |text| / 4
  {
    TokensOfAscii("user");
    TokensOfAscii(text);
    TokensOfOneChar("");
  }

  function Letters(n: nat): (s: string)
    ensures |s| == n && AllAscii(s)
  {
    seq(n, _ => 'a')
  }

  /** A question, its answer, and a newer question that fills the limit to the token, if there is any to fill. */
  function Questions(question: string, text: string, limit: int): seq<Message> {
    [UserMessage(question), SummaryMessage(text)] + if limit >= 1 then [UserMessage(Letters(4 * (limit - 1)))] else []
  }

  lemma MergedStep(ms: seq<Message>, m: Message)
    requires Merged(ms) == ms && (ms == [] || ms[|ms| - 1].role != m.role)
    ensures Merged(ms + [m]) == ms + [m]
  {
    assert (ms + [m])[..|ms + [m]| - 1] == ms;
  }

  lemma MergedQuestions(question: string, text: string, limit: int)
    ensures Merged(Questions(question, text, limit)) == Questions(question, text, limit)
  {
    hide Join, Letters;
    var w, a := UserMessage(question), SummaryMessage(text);
    assert [] + [w] == [w] && [w] + [a] == [w, a];
    MergedStep([], w);
    MergedStep([w], a);
    if limit >= 1 {
      MergedStep([w, a], UserMessage(Letters(4 * (limit - 1))));
    } else {
      assert [w, a] + [] == [w, a];
    }
  }

  /** With a token to spend on it, an answered question is cut to the question and a summary of one token. */
  lemma AnsweredQuestionCompressed(limits: Limits, question: string, text: string) returns (short: Message)
    requires AllAscii(question) && AllAscii(text) && text != ""
    ensures var w := UserMessage(question);
      && Compressed(limits, [w, SummaryMessage(text)], 1) == [w, short]
      && MessagesTokens([w, short]) == MessagesTokens([w]) + 3
      && short.toolCalls == [] && !IsTool(short)
  {
    hide SummaryText, HasSummary, Halved, MessagesTokens, MessageTokens, Tokens;
    var w, a := UserMessage(question), SummaryMessage(text);
    var ms, whole := [w, a], SummaryText([a]);
    SpokenSummary(text);
    SameSummary(w, a);
    UserMessageTokens(question);
    SummaryMessageTokens(text);
    SummaryMessageTokens(whole);
    TwoMessages(w, a);
    TwoMessages(w, SummaryMessage(whole));
    assert [w] + [SummaryMessage(whole)] == [w, SummaryMessage(whole)];
    HalvedAsciiToOneToken(whole);
    HalvedFitsAndIsNotEmpty(whole, 1);
    short := SummaryMessage(Halved(whole, 1));
    SummaryMessageTokens(Halved(whole, 1));
    TwoMessages(w, short);
    assert [w] + [short] == [w, short];
  }

  lemma TwoMessages(a: Message, b: Message)
    ensures MessagesTokens([a, b]) == MessageTokens(a) + MessageTokens(b) && MessagesTokens([a]) == MessageTokens(a)
  {
    MessagesTokensOfOne(a);
    MessagesTokensOfOne(b);
    assert [a, b] == [a] + [b];
    MessagesTokensOfConcat([a], [b]);
  }

  /** A question adds nothing to a summary. */
  lemma SameSummary(w: Message, a: Message)
    requires w.role == "user" && a.role == "assistant"
    ensures SummaryText([w, a]) == SummaryText([a]) && (HasSummary([w, a]) <==> HasSummary([a]))
  {
    hide Heading, ToolPart, StatePart;
    assert [w, a][..1] == [w] && [w][..0] == [] && [a][..0] == [];
    assert ToolSummaries([w]) == [] && LastAssistantText([w]) == "";
    assert ToolSummaries([w, a]) == [] && ToolSummaries([a]) == [];
    assert LastAssistantText([w, a]) == LastAssistantText([a]);
  }

  /** The bound is met with equality for every token limit and every opening question, where there is room for three
      messages. */
  lemma TokenBoundIsAttainedForEvery(limits: Limits, question: string, text: string)
    requires limits.maxMessages >= 3 && AllAscii(question) && AllAscii(text) && text != ""
    ensures var ms := Questions(question, text, limits.maxContextTokens);
      && BoundaryOpening(limits, Merged(ms), 0) == MessagesTokens([UserMessage(question)]) >= 1
      && MessagesTokens(Window(limits, ms))
         == Max(limits.maxContextTokens, 0) + BoundaryOpening(limits, Merged(ms), 0) + 3
  {
    hide MessagesTokens, MessageTokens, Tokens, Merged, LastSegment, Select, Compressed, KeepPaired, PairedIds, Letters;
    var limit, w, a := limits.maxContextTokens, UserMessage(question), SummaryMessage(text);
    var ms, older := Questions(question, text, limit), [w, a];
    MergedQuestions(question, text, limit);
    var short := AnsweredQuestionCompressed(limits, question, text);
    UserMessageTokens(question);
    SummaryMessageTokens(text);
    TwoMessages(w, a);
    LastSegmentIsUnique(older, 0);
    assert older[0..] == older && older[..0] == [];
    SelectUnfolds(limits, older, Max(limit, 0), 0);
    if limit >= 1 {
      var u := ms[2];
      assert ms[2..] == [u] && ms[..2] == older;
      UserMessageTokens(Letters(4 * (limit - 1)));
      MessagesTokensOfOne(u);
      LastSegmentIsUnique(ms, 2);
      SelectUnfolds(limits, ms, 0, 2);
      assert Select(limits, ms, 0) == [w, short, u];
      MessagesTokensOfConcat([w, short], [u]);
      assert [w, short] + [u] == [w, short, u];
      RepairedTalk([w, short, u]);
    } else {
      assert ms == older;
      SelectUnfolds(limits, older, 0, 0);
      RepairedTalk([w, short]);
    }
  }

  lemma {:induction false} RepairedTalk(ms: seq<Message>)
    requires forall m <- ms :: m.toolCalls == [] && !IsTool(m)
    ensures Repaired(ms) == ms
  {
    KeepsTalk(ms, PairedIds(ms));
  }

  lemma {:induction false} KeepsTalk(ms: seq<Message>, ids: set<string>)
    requires forall m <- ms :: m.toolCalls == [] && !IsTool(m)
    ensures KeepPaired(ms, ids) == ms
  {
    if ms != [] {
      KeepsTalk(ms[..|ms| - 1], ids);
      assert ms == ms[..|ms| - 1] + [ms[|ms| - 1]];
      assert ms[|ms| - 1] in ms;
    }
  }
}
