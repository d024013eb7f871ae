/** Asking the user in mid-turn (src/core/ask_user_dispatcher.cpp) and routing the answer back
    (src/session/session_manager.cpp). Each critical section is one atomic step. */
module AskUser {
  import opened Ids
  import opened Options

  datatype RequestId = RequestId(text: string)
  datatype SlotId = SlotId(n: nat)
  datatype Responder = Responder(n: nat)

  /** A dispatcher's slots_, all dispatchers together: which session entry, which request. */
  datatype Key = Key(entry: EntryId, request: RequestId)

  /** A slot, with the request it was made for. */
  datatype Slot = Slot(request: RequestId, answer: Option<string>, done: bool)

  /** How far the asking thread has come. */
  datatype Stage =
    | Emitted     // the slot is made
    | Registered  // the request is in the index; the tag is on its way to the user
    | Waiting     // holds the slot and sleeps on it
    | Checked     // has looked into the slot for the last time
    | Erased      // the slot is out of the dispatcher's table
    | Finished    // the request is out of the index

  datatype Ask = Ask(entry: EntryId, stage: Stage, slot: Option<SlotId>, result: Option<string>)

  /** How far a call of ProvideUserResponse has come. */
  datatype Progress =
    | Begun
    | GotSession(sessionId: SessionId)
    | GotEntry(entry: EntryId)
    | GotSlot(slot: SlotId)
    | Returned(ok: bool)

  /** `late` tells whether, when it began, the request's slot was already erased. */
  datatype Response = Response(request: RequestId, answer: string, late: bool, progress: Progress)

  datatype State = State(
    sessions: map<SessionId, EntryId>,
    owner: map<EntryId, SessionId>,        // every entry ever made, with its dispatcher's sessionId_
    slots: map<Key, SlotId>,
    heap: map<SlotId, Slot>,
    index: map<RequestId, SessionId>,      // askRequestToSession_
    asks: map<RequestId, Ask>,
    responses: map<Responder, Response>,
    delivered: map<RequestId, seq<Responder>>,  // who wrote an answer for it, oldest first
    nextId: nat)

  const Initial := State(map[], map[], map[], map[], map[], map[], map[], map[], 0)

  function WritersFor(delivered: map<RequestId, seq<Responder>>, q: RequestId): seq<Responder> {
    if q in delivered then delivered[q] else []
  }

  /** The answer written last for a request. */
  function NewestAnswer(
    delivered: map<RequestId, seq<Responder>>, responses: map<Responder, Response>, q: RequestId): Option<string>
  {
    var writers := WritersFor(delivered, q);
    if writers != [] && writers[|writers| - 1] in responses then Some(responses[writers[|writers| - 1]].answer) else None
  }

  // ---------- Steps ----------

  datatype Step =
    | Open(sessionId: SessionId)
    | Remove(sessionId: SessionId)
    | Emit(request: RequestId, entry: EntryId)
    | Register(request: RequestId)
    | Wait(request: RequestId)
    | Check(request: RequestId)
    | Erase(request: RequestId)
    | Unregister(request: RequestId)
    | Begin(responder: Responder, request: RequestId, answer: string)
    | FindSession(responder: Responder)
    | FindEntry(responder: Responder)
    | FindSlot(responder: Responder)
    | SetAnswer(responder: Responder)

  predicate At(s: State, request: RequestId, stage: Stage) {
    request in s.asks && s.asks[request].stage == stage
  }

  /** Request ids are drawn fresh; a turn may ask on an entry that has left the registry. */
  predicate Enabled(s: State, step: Step) {
    match step
    case Open(id) => id !in s.sessions
    case Remove(id) => id in s.sessions
    case Emit(q, e) => q !in s.asks && e in s.owner
    case Register(q) => At(s, q, Emitted)
    case Wait(q) => At(s, q, Registered)
    case Check(q) => At(s, q, Waiting) && s.asks[q].slot.Some? && s.asks[q].slot.value in s.heap
    case Erase(q) => At(s, q, Checked)
    case Unregister(q) => At(s, q, Erased)
    case Begin(r, _, _) => r !in s.responses
    case FindSession(r) => r in s.responses && s.responses[r].progress.Begun?
    case FindEntry(r) => r in s.responses && s.responses[r].progress.GotSession?
    case FindSlot(r) => r in s.responses && s.responses[r].progress.GotEntry?
    case SetAnswer(r) => r in s.responses && s.responses[r].progress.GotSlot? && s.responses[r].progress.slot in s.heap
  }

  function WithSlot(s: State, k: Key): State {
    if k in s.slots then s
    else
      var slot := SlotId(s.nextId);
      s.(slots := s.slots[k := slot], heap := s.heap[slot := Slot(k.request, None, false)], nextId := s.nextId + 1)
  }

  function Staged(s: State, q: RequestId, stage: Stage): State
    requires q in s.asks
  {
    s.(asks := s.asks[q := s.asks[q].(stage := stage)])
  }

  function AfterOpen(s: State, id: SessionId): State {
    var e := EntryId(s.nextId);
    s.(sessions := s.sessions[id := e], owner := s.owner[e := id], nextId := s.nextId + 1)
  }

  function AfterRemove(s: State, id: SessionId): State {
    s.(sessions := s.sessions - {id})
  }

  function AfterEmit(s: State, q: RequestId, e: EntryId): State {
    WithSlot(s, Key(e, q)).(asks := s.asks[q := Ask(e, Emitted, None, None)])
  }

  function OwnerOf(owner: map<EntryId, SessionId>, e: EntryId): SessionId {
    if e in owner then owner[e] else SessionId("")
  }

  function AfterRegister(s: State, q: RequestId): State
    requires Enabled(s, Register(q))
  {
    Staged(s, q, Registered).(index := s.index[q := OwnerOf(s.owner, s.asks[q].entry)])
  }

  function AfterWait(s: State, q: RequestId): State
    requires Enabled(s, Wait(q))
  {
    var k := Key(s.asks[q].entry, q);
    var got := WithSlot(s, k);
    got.(asks := s.asks[q := s.asks[q].(stage := Waiting, slot := Some(got.slots[k]))])
  }

  /** The predicate's last evaluation decides, whether the wait ended by notice or by timeout. */
  function AfterCheck(s: State, q: RequestId): State
    requires Enabled(s, Check(q))
  {
    var slot := s.heap[s.asks[q].slot.value];
    var result := if slot.done && slot.answer.Some? then slot.answer else None;
    s.(asks := s.asks[q := s.asks[q].(stage := Checked, result := result)])
  }

  function AfterErase(s: State, q: RequestId): State
    requires Enabled(s, Erase(q))
  {
    Staged(s, q, Erased).(slots := s.slots - {Key(s.asks[q].entry, q)})
  }

  function AfterUnregister(s: State, q: RequestId): State
    requires Enabled(s, Unregister(q))
  {
    Staged(s, q, Finished).(index := s.index - {q})
  }

  predicate IsLate(asks: map<RequestId, Ask>, q: RequestId) {
    q in asks && (asks[q].stage == Erased || asks[q].stage == Finished)
  }

  function AfterBegin(s: State, r: Responder, q: RequestId, answer: string): State {
    s.(responses := s.responses[r := Response(q, answer, IsLate(s.asks, q), Begun)])
  }

  function Progressed(s: State, r: Responder, progress: Progress): State
    requires r in s.responses
  {
    s.(responses := s.responses[r := s.responses[r].(progress := progress)])
  }

  function AfterFindSession(s: State, r: Responder): State
    requires Enabled(s, FindSession(r))
  {
    var q := s.responses[r].request;
    Progressed(s, r, if q in s.index then GotSession(s.index[q]) else Returned(false))
  }

  function AfterFindEntry(s: State, r: Responder): State
    requires Enabled(s, FindEntry(r))
  {
    var id := s.responses[r].progress.sessionId;
    Progressed(s, r, if id in s.sessions then GotEntry(s.sessions[id]) else Returned(false))
  }

  function AfterFindSlot(s: State, r: Responder): State
    requires Enabled(s, FindSlot(r))
  {
    var k := Key(s.responses[r].progress.entry, s.responses[r].request);
    Progressed(s, r, if k in s.slots then GotSlot(s.slots[k]) else Returned(false))
  }

  function AfterSetAnswer(s: State, r: Responder): State
    requires Enabled(s, SetAnswer(r))
  {
    var q, answer, slot := s.responses[r].request, s.responses[r].answer, s.responses[r].progress.slot;
    Progressed(s, r, Returned(true)).(
      heap := s.heap[slot := s.heap[slot].(answer := Some(answer), done := true)],
      delivered := s.delivered[q := WritersFor(s.delivered, q) + [r]])
  }

  function Next(s: State, step: Step): State
    requires Enabled(s, step)
  {
    match step
    case Open(id) => AfterOpen(s, id)
    case Remove(id) => AfterRemove(s, id)
    case Emit(q, e) => AfterEmit(s, q, e)
    case Register(q) => AfterRegister(s, q)
    case Wait(q) => AfterWait(s, q)
    case Check(q) => AfterCheck(s, q)
    case Erase(q) => AfterErase(s, q)
    case Unregister(q) => AfterUnregister(s, q)
    case Begin(r, q, answer) => AfterBegin(s, r, q, answer)
    case FindSession(r) => AfterFindSession(s, r)
    case FindEntry(r) => AfterFindEntry(s, r)
    case FindSlot(r) => AfterFindSlot(s, r)
    case SetAnswer(r) => AfterSetAnswer(s, r)
  }

  // ---------- The invariant ----------

  predicate HoldsSlot(stage: Stage) {
    stage.Emitted? || stage.Registered? || stage.Waiting? || stage.Checked?
  }

  predicate Indexed(stage: Stage) {
    stage.Registered? || stage.Waiting? || stage.Checked? || stage.Erased?
  }

  ghost predicate SessionsOwn(sessions: map<SessionId, EntryId>, owner: map<EntryId, SessionId>) {
    forall id <- sessions :: sessions[id] in owner && owner[sessions[id]] == id
  }

  ghost predicate AsksHaveOwners(asks: map<RequestId, Ask>, owner: map<EntryId, SessionId>) {
    forall q <- asks :: asks[q].entry in owner
  }

  ghost predicate Numbered(owner: map<EntryId, SessionId>, heap: map<SlotId, Slot>, nextId: nat) {
    (forall e <- owner :: e.n < nextId) && (forall slot <- heap :: slot.n < nextId)
  }

  /** A slot is in its dispatcher's table from the emit to the end of the wait, and at no other time. */
  ghost predicate SlotsMatchAsks(slots: map<Key, SlotId>, asks: map<RequestId, Ask>) {
    && (forall k <- slots :: k.request in asks && asks[k.request].entry == k.entry && HoldsSlot(asks[k.request].stage))
    && (forall q <- asks :: HoldsSlot(asks[q].stage) ==> Key(asks[q].entry, q) in slots)
    && (forall q <- asks :: asks[q].stage == Waiting ==> asks[q].slot == Some(slots[Key(asks[q].entry, q)]))
  }

  /** A request is in the index from its registration to the end of the wait, under its dispatcher's session. */
  ghost predicate IndexMatchesAsks(
    index: map<RequestId, SessionId>, asks: map<RequestId, Ask>, owner: map<EntryId, SessionId>)
  {
    && (forall q <- index :: q in asks && Indexed(asks[q].stage) && index[q] == OwnerOf(owner, asks[q].entry))
    && (forall q <- asks :: Indexed(asks[q].stage) ==> q in index)
  }

  /** A request gets one slot, ever. */
  ghost predicate OneSlotEach(heap: map<SlotId, Slot>, asks: map<RequestId, Ask>) {
    && (forall slot <- heap :: heap[slot].request in asks)
    && (forall a, b :: a in heap && b in heap && heap[a].request == heap[b].request ==> a == b)
  }

  ghost predicate SlotsPoint(slots: map<Key, SlotId>, heap: map<SlotId, Slot>) {
    forall k <- slots :: slots[k] in heap && heap[slots[k]].request == k.request
  }

  /** A slot holds the newest answer written for its request. */
  ghost predicate SlotsHoldAnswers(
    heap: map<SlotId, Slot>, delivered: map<RequestId, seq<Responder>>, responses: map<Responder, Response>)
  {
    && (forall slot <- heap :: heap[slot].answer == NewestAnswer(delivered, responses, heap[slot].request))
    && (forall slot <- heap :: heap[slot].done <==> heap[slot].answer.Some?)
  }

  ghost predicate ResponsesAimRight(responses: map<Responder, Response>, heap: map<SlotId, Slot>) {
    forall r <- responses :: responses[r].progress.GotSlot? ==>
      responses[r].progress.slot in heap && heap[responses[r].progress.slot].request == responses[r].request
  }

  /** Whoever wrote an answer for a request was sent with that request, and was told so. */
  ghost predicate AnswersWereSupplied(delivered: map<RequestId, seq<Responder>>, responses: map<Responder, Response>) {
    forall q <- delivered :: forall r <- delivered[q] ::
      r in responses && responses[r].request == q && responses[r].progress == Returned(true)
  }

  ghost predicate DeliveredToAsks(delivered: map<RequestId, seq<Responder>>, asks: map<RequestId, Ask>) {
    forall q <- delivered :: q in asks
  }

  ghost predicate LateOnesFail(responses: map<Responder, Response>, asks: map<RequestId, Ask>) {
    forall r <- responses :: responses[r].late ==>
      && IsLate(asks, responses[r].request)
      && !responses[r].progress.GotSlot? && responses[r].progress != Returned(true)
  }

  ghost predicate Inv(s: State) {
    && SessionsOwn(s.sessions, s.owner) && AsksHaveOwners(s.asks, s.owner) && Numbered(s.owner, s.heap, s.nextId)
    && SlotsMatchAsks(s.slots, s.asks) && IndexMatchesAsks(s.index, s.asks, s.owner)
    && OneSlotEach(s.heap, s.asks) && SlotsPoint(s.slots, s.heap) && SlotsHoldAnswers(s.heap, s.delivered, s.responses)
    && ResponsesAimRight(s.responses, s.heap) && AnswersWereSupplied(s.delivered, s.responses)
    && DeliveredToAsks(s.delivered, s.asks) && LateOnesFail(s.responses, s.asks)
  }

  // ---------- Every step keeps the invariant ----------

  lemma InitialInv()
    ensures Inv(Initial)
  {
  }

  lemma OpenKeepsInv(s: State, id: SessionId)
    requires Inv(s) && Enabled(s, Open(id))
    ensures Inv(AfterOpen(s, id))
  {
    hide SlotsMatchAsks, OneSlotEach, SlotsPoint, SlotsHoldAnswers, ResponsesAimRight,
      AnswersWereSupplied, DeliveredToAsks, LateOnesFail;
  }

  lemma RemoveKeepsInv(s: State, id: SessionId)
    requires Inv(s) && Enabled(s, Remove(id))
    ensures Inv(AfterRemove(s, id))
  {
    hide SlotsMatchAsks, OneSlotEach, SlotsPoint, SlotsHoldAnswers, ResponsesAimRight,
      AnswersWereSupplied, DeliveredToAsks, LateOnesFail, IndexMatchesAsks, AsksHaveOwners, Numbered;
  }

  /** An ask moves to a stage with the same claim on its slot. */
  lemma SlotStays(slots: map<Key, SlotId>, asks: map<RequestId, Ask>, q: RequestId, ask: Ask)
    requires SlotsMatchAsks(slots, asks) && q in asks && ask.entry == asks[q].entry
    requires HoldsSlot(ask.stage) <==> HoldsSlot(asks[q].stage)
    requires ask.stage == Waiting ==> Key(ask.entry, q) in slots && ask.slot == Some(slots[Key(ask.entry, q)])
    ensures SlotsMatchAsks(slots, asks[q := ask])
  {
  }

  lemma SlotMade(slots: map<Key, SlotId>, asks: map<RequestId, Ask>, q: RequestId, e: EntryId, slot: SlotId)
    requires SlotsMatchAsks(slots, asks) && q !in asks
    ensures Key(e, q) !in slots
    ensures SlotsMatchAsks(slots[Key(e, q) := slot], asks[q := Ask(e, Emitted, None, None)])
  {
  }

  lemma SlotErased(slots: map<Key, SlotId>, asks: map<RequestId, Ask>, q: RequestId, ask: Ask)
    requires SlotsMatchAsks(slots, asks) && q in asks && ask.entry == asks[q].entry && !HoldsSlot(ask.stage)
    ensures SlotsMatchAsks(slots - {Key(ask.entry, q)}, asks[q := ask])
  {
  }

  /** The index follows the stage. */
  lemma IndexFollows(
    index: map<RequestId, SessionId>, asks: map<RequestId, Ask>, owner: map<EntryId, SessionId>, q: RequestId, ask: Ask)
    requires IndexMatchesAsks(index, asks, owner) && (q in asks ==> ask.entry == asks[q].entry)
    ensures Indexed(ask.stage) ==> IndexMatchesAsks(index[q := OwnerOf(owner, ask.entry)], asks[q := ask], owner)
    ensures q in index && Indexed(ask.stage) ==> IndexMatchesAsks(index, asks[q := ask], owner)
    ensures !Indexed(ask.stage) ==> IndexMatchesAsks(index - {q}, asks[q := ask], owner)
    ensures q !in index && !Indexed(ask.stage) ==> IndexMatchesAsks(index, asks[q := ask], owner)
  {
  }

  /** An ask that moves on stays with its entry, and once late stays late. */
  lemma MovingOn(s: State, q: RequestId, ask: Ask)
    requires Inv(s) && ask.entry in s.owner && (IsLate(s.asks, q) ==> ask.stage == Erased || ask.stage == Finished)
    ensures AsksHaveOwners(s.asks[q := ask], s.owner) && OneSlotEach(s.heap, s.asks[q := ask])
    ensures DeliveredToAsks(s.delivered, s.asks[q := ask]) && LateOnesFail(s.responses, s.asks[q := ask])
  {
    hide SessionsOwn, Numbered, SlotsMatchAsks, IndexMatchesAsks, SlotsPoint, SlotsHoldAnswers, ResponsesAimRight,
      AnswersWereSupplied;
  }

  lemma EmitRow(s: State, q: RequestId, e: EntryId)
    requires Inv(s) && q !in s.asks && e in s.owner
    ensures q !in s.index
    ensures var asks := s.asks[q := Ask(e, Emitted, None, None)];
      && AsksHaveOwners(asks, s.owner) && OneSlotEach(s.heap[SlotId(s.nextId) := Slot(q, None, false)], asks)
      && DeliveredToAsks(s.delivered, asks) && LateOnesFail(s.responses, asks)
  {
    hide SessionsOwn, SlotsMatchAsks, SlotsPoint, SlotsHoldAnswers, ResponsesAimRight, AnswersWereSupplied;
  }

  /** What a fresh slot for a fresh request leaves in place. */
  lemma FreshSlot(s: State, q: RequestId, k: Key)
    requires Inv(s) && q !in s.asks && k.request == q
    ensures var slot := SlotId(s.nextId); var heap := s.heap[slot := Slot(q, None, false)];
      && slot !in s.heap && Numbered(s.owner, heap, s.nextId + 1)
      && SlotsPoint(s.slots[k := slot], heap) && ResponsesAimRight(s.responses, heap)
      && SlotsHoldAnswers(heap, s.delivered, s.responses)
  {
    hide SessionsOwn, AsksHaveOwners, SlotsMatchAsks, IndexMatchesAsks, AnswersWereSupplied, LateOnesFail;
  }

  /** Where an ask in flight can be found. */
  lemma AskInFlight(s: State, q: RequestId)
    requires Inv(s) && q in s.asks
    ensures s.asks[q].entry in s.owner
    ensures HoldsSlot(s.asks[q].stage) <==> Key(s.asks[q].entry, q) in s.slots
    ensures Indexed(s.asks[q].stage) <==> q in s.index
  {
    hide SessionsOwn, Numbered, OneSlotEach, SlotsPoint, SlotsHoldAnswers, ResponsesAimRight,
      AnswersWereSupplied, DeliveredToAsks, LateOnesFail;
  }

  lemma EmitKeepsInv(s: State, q: RequestId, e: EntryId)
    requires Inv(s) && Enabled(s, Emit(q, e))
    ensures Inv(AfterEmit(s, q, e))
  {
    hide SessionsOwn, AsksHaveOwners, Numbered, SlotsMatchAsks, IndexMatchesAsks, OneSlotEach, SlotsPoint, SlotsHoldAnswers,
      ResponsesAimRight, AnswersWereSupplied, DeliveredToAsks, LateOnesFail;
    SlotMade(s.slots, s.asks, q, e, SlotId(s.nextId));
    FreshSlot(s, q, Key(e, q));
    IndexFollows(s.index, s.asks, s.owner, q, Ask(e, Emitted, None, None));
    EmitRow(s, q, e);
  }

  lemma RegisterKeepsInv(s: State, q: RequestId)
    requires Inv(s) && Enabled(s, Register(q))
    ensures Inv(AfterRegister(s, q))
  {
    hide SessionsOwn, AsksHaveOwners, Numbered, SlotsMatchAsks, IndexMatchesAsks, OneSlotEach, SlotsPoint, SlotsHoldAnswers,
      ResponsesAimRight, AnswersWereSupplied, DeliveredToAsks, LateOnesFail;
    var ask := s.asks[q].(stage := Registered);
    AskInFlight(s, q);
    MovingOn(s, q, ask);
    SlotStays(s.slots, s.asks, q, ask);
    IndexFollows(s.index, s.asks, s.owner, q, ask);
  }

  /** The slot the wait looks up is the one the emit made. */
  lemma WaitKeepsInv(s: State, q: RequestId)
    requires Inv(s) && Enabled(s, Wait(q))
    ensures Inv(AfterWait(s, q))
  {
    hide SessionsOwn, AsksHaveOwners, Numbered, SlotsMatchAsks, IndexMatchesAsks, OneSlotEach, SlotsPoint, SlotsHoldAnswers,
      ResponsesAimRight, AnswersWereSupplied, DeliveredToAsks, LateOnesFail;
    var ask := AfterWait(s, q).asks[q];
    AskInFlight(s, q);
    MovingOn(s, q, ask);
    SlotStays(s.slots, s.asks, q, ask);
    IndexFollows(s.index, s.asks, s.owner, q, ask);
  }

  lemma CheckKeepsInv(s: State, q: RequestId)
    requires Inv(s) && Enabled(s, Check(q))
    ensures Inv(AfterCheck(s, q))
  {
    hide SessionsOwn, AsksHaveOwners, Numbered, SlotsMatchAsks, IndexMatchesAsks, OneSlotEach, SlotsPoint, SlotsHoldAnswers,
      ResponsesAimRight, AnswersWereSupplied, DeliveredToAsks, LateOnesFail;
    var ask := AfterCheck(s, q).asks[q];
    AskInFlight(s, q);
    MovingOn(s, q, ask);
    SlotStays(s.slots, s.asks, q, ask);
    IndexFollows(s.index, s.asks, s.owner, q, ask);
  }

  lemma EraseKeepsInv(s: State, q: RequestId)
    requires Inv(s) && Enabled(s, Erase(q))
    ensures Inv(AfterErase(s, q))
  {
    hide SessionsOwn, AsksHaveOwners, Numbered, SlotsMatchAsks, IndexMatchesAsks, OneSlotEach, SlotsPoint, SlotsHoldAnswers,
      ResponsesAimRight, AnswersWereSupplied, DeliveredToAsks, LateOnesFail;
    var ask := s.asks[q].(stage := Erased);
    AskInFlight(s, q);
    MovingOn(s, q, ask);
    SlotErased(s.slots, s.asks, q, ask);
    StillPoint(s.slots, s.heap, Key(ask.entry, q));
    IndexFollows(s.index, s.asks, s.owner, q, ask);
  }

  lemma StillPoint(slots: map<Key, SlotId>, heap: map<SlotId, Slot>, k: Key)
    requires SlotsPoint(slots, heap)
    ensures SlotsPoint(slots - {k}, heap)
  {
  }

  lemma UnregisterKeepsInv(s: State, q: RequestId)
    requires Inv(s) && Enabled(s, Unregister(q))
    ensures Inv(AfterUnregister(s, q))
  {
    hide SessionsOwn, AsksHaveOwners, Numbered, SlotsMatchAsks, IndexMatchesAsks, OneSlotEach, SlotsPoint, SlotsHoldAnswers,
      ResponsesAimRight, AnswersWereSupplied, DeliveredToAsks, LateOnesFail;
    var ask := s.asks[q].(stage := Finished);
    AskInFlight(s, q);
    MovingOn(s, q, ask);
    SlotStays(s.slots, s.asks, q, ask);
    IndexFollows(s.index, s.asks, s.owner, q, ask);
  }

  /** A response that begins has not written anything. */
  lemma NewResponse(
    heap: map<SlotId, Slot>, delivered: map<RequestId, seq<Responder>>, responses: map<Responder, Response>, r: Responder,
    response: Response)
    requires SlotsHoldAnswers(heap, delivered, responses) && AnswersWereSupplied(delivered, responses) && r !in responses
    ensures SlotsHoldAnswers(heap, delivered, responses[r := response])
    ensures AnswersWereSupplied(delivered, responses[r := response])
  {
    forall slot | slot in heap
      ensures NewestAnswer(delivered, responses[r := response], heap[slot].request)
        == NewestAnswer(delivered, responses, heap[slot].request)
    {
      var writers := WritersFor(delivered, heap[slot].request);
      assert writers != [] ==> writers[|writers| - 1] in writers;
    }
  }

  lemma BeginKeepsInv(s: State, r: Responder, q: RequestId, answer: string)
    requires Inv(s) && Enabled(s, Begin(r, q, answer))
    ensures Inv(AfterBegin(s, r, q, answer))
  {
    hide SessionsOwn, AsksHaveOwners, Numbered, SlotsMatchAsks, IndexMatchesAsks, OneSlotEach, SlotsPoint, SlotsHoldAnswers,
      AnswersWereSupplied, DeliveredToAsks;
    NewResponse(s.heap, s.delivered, s.responses, r, AfterBegin(s, r, q, answer).responses[r]);
  }

  /** A responder's own progress, as long as it does not succeed, concerns nobody else. */
  lemma ProgressKeepsInv(s: State, r: Responder, progress: Progress)
    requires Inv(s) && r in s.responses && s.responses[r].progress != Returned(true) && progress != Returned(true)
    requires progress.GotSlot? ==> progress.slot in s.heap && s.heap[progress.slot].request == s.responses[r].request
    requires progress.GotSlot? ==> !s.responses[r].late
    ensures Inv(Progressed(s, r, progress))
  {
    hide SessionsOwn, AsksHaveOwners, Numbered, SlotsMatchAsks, IndexMatchesAsks, OneSlotEach, SlotsPoint, DeliveredToAsks;
  }

  /** What one more answer in its slot leaves in place. */
  lemma AnswerWritten(s: State, r: Responder, slot: SlotId)
    requires Inv(s) && r in s.responses && s.responses[r].progress == GotSlot(slot) && slot in s.heap
    ensures var q := s.responses[r].request;
      var heap := s.heap[slot := s.heap[slot].(answer := Some(s.responses[r].answer), done := true)];
      && OneSlotEach(heap, s.asks) && SlotsPoint(s.slots, heap)
      && ResponsesAimRight(s.responses[r := s.responses[r].(progress := Returned(true))], heap)
      && Numbered(s.owner, heap, s.nextId) && q in s.asks && s.heap[slot].request == q
  {
    hide SessionsOwn, AsksHaveOwners, SlotsMatchAsks, IndexMatchesAsks, SlotsHoldAnswers, AnswersWereSupplied,
      DeliveredToAsks, LateOnesFail;
  }

  /** One more writer for `q`: its answer is the newest there, and elsewhere nothing changes. */
  lemma NewestAfterWrite(
    delivered: map<RequestId, seq<Responder>>, responses: map<Responder, Response>, r: Responder, q: RequestId)
    requires r in responses
    ensures var written, told :=
      delivered[q := WritersFor(delivered, q) + [r]], responses[r := responses[r].(progress := Returned(true))];
      && NewestAnswer(written, told, q) == Some(responses[r].answer)
      && forall other :: other != q ==> NewestAnswer(written, told, other) == NewestAnswer(delivered, responses, other)
  {
  }

  lemma NewestIsLast(
    heap: map<SlotId, Slot>, delivered: map<RequestId, seq<Responder>>, responses: map<Responder, Response>,
    asks: map<RequestId, Ask>, r: Responder, slot: SlotId)
    requires SlotsHoldAnswers(heap, delivered, responses) && OneSlotEach(heap, asks)
    requires slot in heap && r in responses && heap[slot].request == responses[r].request
    ensures var q, response := responses[r].request, responses[r];
      SlotsHoldAnswers(heap[slot := heap[slot].(answer := Some(response.answer), done := true)],
        delivered[q := WritersFor(delivered, q) + [r]], responses[r := response.(progress := Returned(true))])
  {
    hide NewestAnswer, WritersFor;
    NewestAfterWrite(delivered, responses, r, responses[r].request);
  }

  lemma HistoryGrows(s: State, r: Responder)
    requires Inv(s) && r in s.responses && s.responses[r].progress.GotSlot?
    ensures var q := s.responses[r].request;
      var delivered, responses :=
        s.delivered[q := WritersFor(s.delivered, q) + [r]], s.responses[r := s.responses[r].(progress := Returned(true))];
      AnswersWereSupplied(delivered, responses) && LateOnesFail(responses, s.asks)
      && (q in s.asks ==> DeliveredToAsks(delivered, s.asks))
  {
    hide SessionsOwn, AsksHaveOwners, Numbered, SlotsMatchAsks, IndexMatchesAsks, OneSlotEach, SlotsPoint, SlotsHoldAnswers;
  }

  lemma SetAnswerKeepsInv(s: State, r: Responder)
    requires Inv(s) && Enabled(s, SetAnswer(r))
    ensures Inv(AfterSetAnswer(s, r))
  {
    hide SessionsOwn, AsksHaveOwners, Numbered, SlotsMatchAsks, IndexMatchesAsks, OneSlotEach, SlotsPoint, SlotsHoldAnswers,
      ResponsesAimRight, AnswersWereSupplied, DeliveredToAsks, LateOnesFail;
    var slot := s.responses[r].progress.slot;
    AnswerWritten(s, r, slot);
    HistoryGrows(s, r);
    NewestIsLast(s.heap, s.delivered, s.responses, s.asks, r, slot);
  }

  /** The invariant is inductive. */
  lemma NextKeepsInv(s: State, step: Step)
    requires Inv(s) && Enabled(s, step)
    ensures Inv(Next(s, step))
  {
    hide Inv;
    if step.FindSlot? {
      FoundSlotIsRight(s, step.responder);
    }
    match step
    case Open(id) => OpenKeepsInv(s, id);
    case Remove(id) => RemoveKeepsInv(s, id);
    case Emit(q, e) => EmitKeepsInv(s, q, e);
    case Register(q) => RegisterKeepsInv(s, q);
    case Wait(q) => WaitKeepsInv(s, q);
    case Check(q) => CheckKeepsInv(s, q);
    case Erase(q) => EraseKeepsInv(s, q);
    case Unregister(q) => UnregisterKeepsInv(s, q);
    case Begin(r, q, answer) => BeginKeepsInv(s, r, q, answer);
    case FindSession(r) => ProgressKeepsInv(s, r, AfterFindSession(s, r).responses[r].progress);
    case FindEntry(r) => ProgressKeepsInv(s, r, AfterFindEntry(s, r).responses[r].progress);
    case FindSlot(r) => ProgressKeepsInv(s, r, AfterFindSlot(s, r).responses[r].progress);
    case SetAnswer(r) => SetAnswerKeepsInv(s, r);
  }

  /** A late responder finds nothing: the one slot its request had is erased. */
  lemma FoundSlotIsRight(s: State, r: Responder)
    requires Inv(s) && Enabled(s, FindSlot(r))
    ensures var k := Key(s.responses[r].progress.entry, s.responses[r].request);
      k in s.slots ==> s.slots[k] in s.heap && s.heap[s.slots[k]].request == s.responses[r].request && !s.responses[r].late
  {
  }
}
