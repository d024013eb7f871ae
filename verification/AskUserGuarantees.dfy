/** What holds over every run of the ask-user protocol. */
module AskUserGuarantees {
  import opened Ids
  import opened Options
  import opened AskUser

  ghost predicate Runs(s: State, steps: seq<Step>, end: State)
    decreases |steps|
  {
    if steps == [] then end == s
    else Enabled(s, steps[0]) && Runs(Next(s, steps[0]), steps[1..], end)
  }

  lemma {:induction false} RunsKeepInv(s: State, steps: seq<Step>, end: State)
    requires Inv(s) && Runs(s, steps, end)
    ensures Inv(end)
    decreases |steps|
  {
    hide Inv, Next, Enabled;
    if steps != [] {
      NextKeepsInv(s, steps[0]);
      RunsKeepInv(Next(s, steps[0]), steps[1..], end);
    }
  }

  /** In every reachable state, a slot is in its table and a request in the index only between emit and end. */
  lemma SlotsAndIndexFollowAsks(steps: seq<Step>, s: State)
    requires Runs(Initial, steps, s)
    ensures forall e, q :: Key(e, q) in s.slots <==> q in s.asks && s.asks[q].entry == e && HoldsSlot(s.asks[q].stage)
    ensures forall q :: q in s.index <==> q in s.asks && Indexed(s.asks[q].stage)
    ensures (forall q <- s.asks :: s.asks[q].stage == Finished) ==> s.slots == map[] && s.index == map[]
  {
    hide Runs, Next, Enabled, SessionsOwn, Numbered, OneSlotEach, SlotsPoint, SlotsHoldAnswers, ResponsesAimRight,
      AnswersWereSupplied, DeliveredToAsks, LateOnesFail;
    InitialInv();
    RunsKeepInv(Initial, steps, s);
  }

  // ---------- The answer ----------

  /** The waiter takes the answer written last before its final look; it takes none just when none was written. */
  lemma CheckTakesNewest(s: State, q: RequestId)
    requires Inv(s) && Enabled(s, Check(q))
    ensures q in Next(s, Check(q)).asks && Next(s, Check(q)).asks[q].stage == Checked
    ensures Next(s, Check(q)).asks[q].result == NewestAnswer(s.delivered, s.responses, q)
    ensures NewestAnswer(s.delivered, s.responses, q).None? <==> WritersFor(s.delivered, q) == []
  {
    hide SessionsOwn, Numbered, IndexMatchesAsks, ResponsesAimRight, OneSlotEach, LateOnesFail;
    assert Key(s.asks[q].entry, q) in s.slots;
    var writers := WritersFor(s.delivered, q);
    assert writers != [] ==> writers[|writers| - 1] in s.delivered[q];
  }

  predicate HasResult(stage: Stage) {
    stage.Checked? || stage.Erased? || stage.Finished?
  }

  lemma ResultStays(s: State, step: Step, q: RequestId)
    requires Enabled(s, step) && q in s.asks && HasResult(s.asks[q].stage)
    ensures var next := Next(s, step);
      q in next.asks && HasResult(next.asks[q].stage) && next.asks[q].result == s.asks[q].result
  {
  }

  lemma {:induction false} ResultStands(s: State, steps: seq<Step>, end: State, q: RequestId)
    requires Runs(s, steps, end) && q in s.asks && HasResult(s.asks[q].stage)
    ensures q in end.asks && HasResult(end.asks[q].stage) && end.asks[q].result == s.asks[q].result
    decreases |steps|
  {
    hide Next, Enabled;
    if steps != [] {
      ResultStays(s, steps[0], q);
      ResultStands(Next(s, steps[0]), steps[1..], end, q);
    }
  }

  /** Whatever happens after the final look, the ask returns what it saw there: the newest answer, which was
      supplied for that very request by a call that was told it succeeded. */
  lemma AnswerIsForItsRequest(s: State, q: RequestId, steps: seq<Step>, end: State)
    requires Inv(s) && Enabled(s, Check(q)) && Runs(Next(s, Check(q)), steps, end)
    ensures q in end.asks && HasResult(end.asks[q].stage)
    ensures end.asks[q].result.None? <==> WritersFor(s.delivered, q) == []
    ensures end.asks[q].result.Some? ==>
      var writers := WritersFor(s.delivered, q);
      var r := writers[|writers| - 1];
      && r in s.responses && s.responses[r].request == q && s.responses[r].progress == Returned(true)
      && end.asks[q].result == Some(s.responses[r].answer)
  {
    hide Inv, Runs, NewestAnswer, Next, Enabled, WritersFor;
    CheckTakesNewest(s, q);
    ResultStands(Next(s, Check(q)), steps, end, q);
    if WritersFor(s.delivered, q) != [] {
      LastWriterSupplied(s, q);
    }
  }

  lemma LastWriterSupplied(s: State, q: RequestId)
    requires Inv(s) && WritersFor(s.delivered, q) != []
    ensures var writers := WritersFor(s.delivered, q);
      var r := writers[|writers| - 1];
      r in s.responses && s.responses[r].request == q && s.responses[r].progress == Returned(true)
      && NewestAnswer(s.delivered, s.responses, q) == Some(s.responses[r].answer)
  {
    hide SessionsOwn, AsksHaveOwners, Numbered, SlotsMatchAsks, IndexMatchesAsks, OneSlotEach, SlotsPoint,
      SlotsHoldAnswers, ResponsesAimRight, DeliveredToAsks, LateOnesFail;
    var writers := WritersFor(s.delivered, q);
    assert writers[|writers| - 1] in s.delivered[q];
  }

  // ---------- Late responses ----------

  lemma LateStays(s: State, step: Step, r: Responder)
    requires Enabled(s, step) && r in s.responses && s.responses[r].late
    ensures r in Next(s, step).responses && Next(s, step).responses[r].late
    ensures Next(s, step).responses[r].request == s.responses[r].request
  {
  }

  lemma {:induction false} LateNeverSucceeds(s: State, steps: seq<Step>, end: State, r: Responder)
    requires Inv(s) && Runs(s, steps, end) && r in s.responses && s.responses[r].late
    ensures r in end.responses && end.responses[r].progress != Returned(true)
    ensures end.responses[r].request == s.responses[r].request
    decreases |steps|
  {
    hide Next, Enabled, SessionsOwn, AsksHaveOwners, Numbered, SlotsMatchAsks, IndexMatchesAsks, OneSlotEach, SlotsPoint,
      SlotsHoldAnswers, ResponsesAimRight, AnswersWereSupplied, DeliveredToAsks;
    if steps != [] {
      NextKeepsInv(s, steps[0]);
      LateStays(s, steps[0], r);
      LateNeverSucceeds(Next(s, steps[0]), steps[1..], end, r);
    }
  }

  /** A response begun once the slot is erased is never told it succeeded, though the session be removed and
      opened again meanwhile. */
  lemma BegunTooLate(s: State, r: Responder, q: RequestId, answer: string, steps: seq<Step>, end: State)
    requires Inv(s) && IsLate(s.asks, q) && Enabled(s, Begin(r, q, answer))
    requires Runs(Next(s, Begin(r, q, answer)), steps, end)
    ensures r in end.responses && end.responses[r].request == q && end.responses[r].progress != Returned(true)
  {
    hide Inv, Runs;
    NextKeepsInv(s, Begin(r, q, answer));
    LateNeverSucceeds(Next(s, Begin(r, q, answer)), steps, end, r);
  }

  // ---------- Which requests can be answered ----------

  /** ProvideResponse with nobody in between. */
  function FromEntry(s: State, r: Responder): State
    requires r in s.responses && s.responses[r].progress.GotEntry?
  {
    var found := AfterFindSlot(s, r);
    if found.responses[r].progress.GotSlot? && found.responses[r].progress.slot in found.heap then AfterSetAnswer(found, r)
    else found
  }

  function FromSession(s: State, r: Responder): State
    requires r in s.responses && s.responses[r].progress.GotSession?
  {
    var there := AfterFindEntry(s, r);
    if there.responses[r].progress.GotEntry? then FromEntry(there, r) else there
  }

  /** A response from beginning to end with nobody in between. */
  function Alone(s: State, r: Responder, q: RequestId, answer: string): State
    requires r !in s.responses
  {
    var begun := AfterBegin(s, r, q, answer);
    var routed := AfterFindSession(begun, r);
    if routed.responses[r].progress.GotSession? then FromSession(routed, r) else routed
  }

  /** The request is out, and the session it is filed under is still the entry that asks. */
  predicate Answerable(s: State, q: RequestId) {
    && q in s.asks && HoldsSlot(s.asks[q].stage) && Indexed(s.asks[q].stage)
    && OwnerOf(s.owner, s.asks[q].entry) in s.sessions
    && s.sessions[OwnerOf(s.owner, s.asks[q].entry)] == s.asks[q].entry
  }

  /** Where the index and the tables lead for a request. */
  lemma Routing(s: State, q: RequestId)
    requires Inv(s)
    ensures q in s.index <==> q in s.asks && Indexed(s.asks[q].stage)
    ensures q in s.index ==> s.index[q] == OwnerOf(s.owner, s.asks[q].entry)
    ensures forall e :: Key(e, q) in s.slots <==> q in s.asks && s.asks[q].entry == e && HoldsSlot(s.asks[q].stage)
    ensures forall e :: Key(e, q) in s.slots ==> s.slots[Key(e, q)] in s.heap
    ensures q in s.asks ==> s.asks[q].entry in s.owner
    ensures EntryId(s.nextId) !in s.owner
  {
    hide SessionsOwn, OneSlotEach, SlotsHoldAnswers, ResponsesAimRight, AnswersWereSupplied, DeliveredToAsks, LateOnesFail;
  }

  /** The response is over: either it wrote its answer and was told so, or it changed nothing. */
  predicate Concluded(s: State, end: State, r: Responder, ok: bool) {
    && r in s.responses && end.asks == s.asks
    && end.responses == s.responses[r := s.responses[r].(progress := Returned(ok))]
    && (if ok then var q := s.responses[r].request; end.delivered == s.delivered[q := WritersFor(s.delivered, q) + [r]]
        else end.delivered == s.delivered && end.heap == s.heap)
  }

  lemma FromEntryOutcome(s: State, r: Responder)
    requires r in s.responses && s.responses[r].progress.GotEntry?
    requires forall k <- s.slots :: s.slots[k] in s.heap
    ensures Concluded(s, FromEntry(s, r), r, Key(s.responses[r].progress.entry, s.responses[r].request) in s.slots)
  {
    hide WritersFor;
    var found := AfterFindSlot(s, r);
    assert found.responses[r].(progress := Returned(true)) == s.responses[r].(progress := Returned(true));
  }

  lemma FromSessionOutcome(s: State, r: Responder)
    requires r in s.responses && s.responses[r].progress.GotSession?
    requires forall k <- s.slots :: s.slots[k] in s.heap
    ensures var id := s.responses[r].progress.sessionId;
      Concluded(s, FromSession(s, r), r, id in s.sessions && Key(s.sessions[id], s.responses[r].request) in s.slots)
  {
    hide WritersFor, FromEntry;
    var there := AfterFindEntry(s, r);
    if there.responses[r].progress.GotEntry? {
      FromEntryOutcome(there, r);
    }
  }

  lemma AloneOutcome(s: State, r: Responder, q: RequestId, answer: string)
    requires Inv(s) && r !in s.responses
    ensures Concluded(AfterBegin(s, r, q, answer), Alone(s, r, q, answer), r, Answerable(s, q))
  {
    hide SessionsOwn, AsksHaveOwners, Numbered, SlotsMatchAsks, IndexMatchesAsks, OneSlotEach, SlotsPoint, SlotsHoldAnswers,
      ResponsesAimRight, AnswersWereSupplied, DeliveredToAsks, LateOnesFail, WritersFor, FromSession;
    Routing(s, q);
    SlotsLead(s);
    var routed := AfterFindSession(AfterBegin(s, r, q, answer), r);
    if routed.responses[r].progress.GotSession? {
      FromSessionOutcome(routed, r);
    }
  }

  lemma SlotsLead(s: State)
    requires Inv(s)
    ensures forall k <- s.slots :: s.slots[k] in s.heap
  {
    hide SessionsOwn, AsksHaveOwners, Numbered, SlotsMatchAsks, IndexMatchesAsks, OneSlotEach, SlotsHoldAnswers,
      ResponsesAimRight, AnswersWereSupplied, DeliveredToAsks, LateOnesFail;
  }

  /** An undisturbed response succeeds exactly when the request is answerable; then its answer is the newest. */
  lemma AloneSucceedsIff(s: State, r: Responder, q: RequestId, answer: string)
    requires Inv(s) && r !in s.responses
    ensures var end := Alone(s, r, q, answer);
      && r in end.responses && end.responses[r].progress == Returned(Answerable(s, q))
      && (Answerable(s, q) ==> NewestAnswer(end.delivered, end.responses, q) == Some(answer))
      && (!Answerable(s, q) ==> end.delivered == s.delivered && end.heap == s.heap)
  {
    hide Inv, Answerable, Alone;
    AloneOutcome(s, r, q, answer);
  }

  /** Being told true is no promise of being heard: between the waiter's final look and the erasure of the
      slot, a response succeeds and the ask returns without it. */
  lemma SuccessMayGoUnheard(s: State, r: Responder, q: RequestId, answer: string)
    requires Inv(s) && r !in s.responses && At(s, q, Checked) && Answerable(s, q)
    ensures var end := Alone(s, r, q, answer);
      r in end.responses && end.responses[r].progress == Returned(true) && end.asks == s.asks
  {
    hide Inv, Answerable, Alone;
    AloneOutcome(s, r, q, answer);
  }

  // ---------- Removal in mid-ask ----------

  /** The asking entry has left the registry, and no response has got hold of it or of its slot. */
  ghost predicate Deaf(s: State, q: RequestId) {
    && q in s.asks
    && (forall id <- s.sessions :: s.sessions[id] != s.asks[q].entry)
    && (forall r <- s.responses :: s.responses[r].request == q ==>
          s.responses[r].progress != GotEntry(s.asks[q].entry) && !s.responses[r].progress.GotSlot?)
  }

  predicate Responds(step: Step) {
    step.Begin? || step.FindSession? || step.FindEntry? || step.FindSlot? || step.SetAnswer?
  }

  /** A response that gets no hold of the asking entry leaves it deaf. */
  lemma StillDeaf(s: State, r: Responder, response: Response, q: RequestId)
    requires Deaf(s, q)
    requires response.request == q ==> response.progress != GotEntry(s.asks[q].entry) && !response.progress.GotSlot?
    ensures Deaf(s.(responses := s.responses[r := response]), q)
  {
  }

  lemma LookupsStayAway(s: State, step: Step, q: RequestId)
    requires Inv(s) && Enabled(s, step) && Deaf(s, q) && Responds(step) && !step.SetAnswer?
    ensures Deaf(Next(s, step), q) && Next(s, step).delivered == s.delivered
  {
    hide SessionsOwn, AsksHaveOwners, Numbered, SlotsMatchAsks, IndexMatchesAsks, OneSlotEach, SlotsPoint, SlotsHoldAnswers,
      ResponsesAimRight, AnswersWereSupplied, DeliveredToAsks, LateOnesFail;
    Routing(s, q);
    StillDeaf(s, step.responder, Next(s, step).responses[step.responder], q);
  }

  lemma WritersStayAway(s: State, r: Responder, q: RequestId)
    requires Enabled(s, SetAnswer(r)) && Deaf(s, q)
    ensures Deaf(AfterSetAnswer(s, r), q) && WritersFor(AfterSetAnswer(s, r).delivered, q) == WritersFor(s.delivered, q)
  {
    assert s.responses[r].request != q;
  }

  lemma RespondersStayAway(s: State, step: Step, q: RequestId)
    requires Inv(s) && Enabled(s, step) && Deaf(s, q) && Responds(step)
    ensures Deaf(Next(s, step), q) && WritersFor(Next(s, step).delivered, q) == WritersFor(s.delivered, q)
  {
    hide Inv, Deaf, WritersFor;
    if step.SetAnswer? {
      WritersStayAway(s, step.responder, q);
    } else {
      LookupsStayAway(s, step, q);
    }
  }

  lemma OthersLeave(s: State, step: Step, q: RequestId)
    requires Enabled(s, step) && !Responds(step) && q in s.asks
    ensures var next := Next(s, step);
      && next.responses == s.responses && next.delivered == s.delivered
      && q in next.asks && next.asks[q].entry == s.asks[q].entry
  {
    hide WithSlot;
    if step.Emit? {
      OnlySlots(s, Key(step.entry, step.request));
    } else if step.Wait? {
      OnlySlots(s, Key(s.asks[step.request].entry, step.request));
    }
  }

  lemma OnlySlots(s: State, k: Key)
    ensures var got := WithSlot(s, k);
      got.responses == s.responses && got.delivered == s.delivered && got.asks == s.asks && got.sessions == s.sessions
  {
  }

  lemma NewSessionsAreNew(s: State, step: Step)
    requires Enabled(s, step)
    ensures forall id <- Next(s, step).sessions ::
      Next(s, step).sessions[id] == EntryId(s.nextId) || (id in s.sessions && s.sessions[id] == Next(s, step).sessions[id])
  {
  }

  lemma OthersDoNotAnswer(s: State, step: Step, q: RequestId)
    requires Inv(s) && Enabled(s, step) && Deaf(s, q) && !Responds(step)
    ensures Deaf(Next(s, step), q) && WritersFor(Next(s, step).delivered, q) == WritersFor(s.delivered, q)
  {
    hide Inv, Next, Enabled, WritersFor;
    Routing(s, q);
    OthersLeave(s, step, q);
    NewSessionsAreNew(s, step);
  }

  lemma DeafStays(s: State, step: Step, q: RequestId)
    requires Inv(s) && Enabled(s, step) && Deaf(s, q)
    ensures Deaf(Next(s, step), q) && WritersFor(Next(s, step).delivered, q) == WritersFor(s.delivered, q)
  {
    hide Inv, Enabled, Next, Deaf, WritersFor;
    if Responds(step) {
      RespondersStayAway(s, step, q);
    } else {
      OthersDoNotAnswer(s, step, q);
    }
  }

  /** Once its session is removed, a pending request can no longer be answered, not even after the session
      is opened anew: nothing is ever written for it again. */
  lemma {:induction false} RemovalDeafens(s: State, steps: seq<Step>, end: State, q: RequestId)
    requires Inv(s) && Runs(s, steps, end) && Deaf(s, q)
    ensures Deaf(end, q) && WritersFor(end.delivered, q) == WritersFor(s.delivered, q)
    decreases |steps|
  {
    hide Next, Enabled, Inv, Deaf;
    if steps != [] {
      NextKeepsInv(s, steps[0]);
      DeafStays(s, steps[0], q);
      RemovalDeafens(Next(s, steps[0]), steps[1..], end, q);
    }
  }

  // ---------- A stream callback that throws ----------

  lemma RegisteredStays(s: State, step: Step, q: RequestId)
    requires Enabled(s, step) && step != Wait(q) && At(s, q, Registered)
    ensures At(Next(s, step), q, Registered) && Next(s, step).asks[q].entry == s.asks[q].entry
  {
  }

  /** If the callback that shows the question throws, the asking thread never comes to its wait, and so never to the
      clean-up either: over every run the request keeps its slot and its place in the index, and the ask returns
      nothing, whatever is answered. */
  lemma {:induction false} ThrowingCallbackLeaks(s: State, steps: seq<Step>, end: State, q: RequestId)
    requires Inv(s) && At(s, q, Registered) && Runs(s, steps, end) && Wait(q) !in steps
    ensures At(end, q, Registered) && Key(s.asks[q].entry, q) in end.slots && q in end.index
    decreases |steps|
  {
    hide Next, Enabled, SessionsOwn, AsksHaveOwners, Numbered, OneSlotEach, SlotsPoint, SlotsHoldAnswers,
      ResponsesAimRight, AnswersWereSupplied, DeliveredToAsks, LateOnesFail;
    if steps != [] {
      assert steps[0] in steps && forall step <- steps[1..] :: step in steps;
      NextKeepsInv(s, steps[0]);
      RegisteredStays(s, steps[0], q);
      ThrowingCallbackLeaks(Next(s, steps[0]), steps[1..], end, q);
    }
  }
}
