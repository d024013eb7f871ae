/** src/session/session_manager.cpp: many threads invoke sessions while others reload the agent, open
    and remove sessions. Each critical section is one atomic step on the shared state. */
module SessionProtocol {
  import opened Ids
  import opened Options
  import opened RefCounts

  datatype AgentId = AgentId(n: nat)
  datatype Caller = Caller(n: nat)

  /** How far a turn has come once its session entry and its agent are known. */
  datatype Stage =
    | Queued    // waiting for the entry's invokeMutex
    | Locked    // holds it
    | Running   // isBusy is set; the agent is at work
    | Ended     // isBusy is cleared again
    | Released  // has left the gate; the locals are about to be destroyed
    | Unlocked  // the lock is destroyed first; the two pointers follow

  /** Where a thread stands inside Invoke, ReloadAgent or RemoveSession. */
  datatype Phase =
    | Waiting(sessionId: SessionId, signaled: bool)  // asleep on concurrencyCv_, or woken and not yet run
    | Admitted(sessionId: SessionId)                 // counted by the gate
    | Turn(stage: Stage, entry: EntryId, agent: AgentId)
    | Parting(agent: AgentId)                        // about to return; holds nothing but an agent
    | Removing(removed: EntryId)                     // has taken the entry out of the registry
    | Cleaning(removed: EntryId, agent: AgentId)     // and holds its agent, to clean up there
    | Leaving(removed: EntryId)                      // has let the agent go again

  datatype Entry = Entry(agent: AgentId, lockedBy: Option<Caller>, isBusy: bool)

  datatype State = State(
    active: AgentId,
    draining: set<AgentId>,
    agentRefs: map<AgentId, nat>,
    sessions: map<SessionId, EntryId>,
    entries: map<EntryId, Entry>,
    entryRefs: map<EntryId, nat>,
    calls: map<Caller, Phase>,
    count: int,
    cap: int,
    nextId: nat)

  /** After Initialize: one agent, no session, nobody calling. */
  function Initial(cap: int): State {
    State(AgentId(0), {}, map[AgentId(0) := 1], map[], map[], map[], map[], 0, cap, 1)
  }

  // ---------- Who owns what ----------

  function AgentOfEntry(e: Entry): Option<AgentId> {
    Some(e.agent)
  }

  function AgentOfCall(p: Phase): Option<AgentId> {
    match p
    case Turn(_, _, agent) => Some(agent)
    case Parting(agent) => Some(agent)
    case Cleaning(_, agent) => Some(agent)
    case _ => None
  }

  function EntryOfCall(p: Phase): Option<EntryId> {
    match p
    case Turn(_, entry, _) => Some(entry)
    case Removing(removed) => Some(removed)
    case Cleaning(removed, _) => Some(removed)
    case Leaving(removed) => Some(removed)
    case _ => None
  }

  function Itself(e: EntryId): Option<EntryId> {
    Some(e)
  }

  /** The owning pointers to an agent: agent_, the entries' bindings, and the locals of the calls. */
  ghost function AgentOwners(s: State, a: AgentId): nat {
    (if s.active == a then 1 else 0) + Tally(s.entries, AgentOfEntry, a) + Tally(s.calls, AgentOfCall, a)
  }

  /** The owning pointers to a session entry: the registry and the locals of the calls. */
  ghost function EntryOwners(s: State, e: EntryId): nat {
    Tally(s.sessions, Itself, e) + Tally(s.calls, EntryOfCall, e)
  }

  // ---------- The invariant ----------

  /** Every count is the number of owners; objects are destroyed exactly when the last owner lets go. */
  ghost predicate Owned(s: State) {
    && Positive(s.agentRefs) && Positive(s.entryRefs)
    && (forall a :: CountOf(s.agentRefs, a) == AgentOwners(s, a))
    && (forall e :: CountOf(s.entryRefs, e) == EntryOwners(s, e))
    && s.entries.Keys == s.entryRefs.Keys
  }

  /** Of the living agents, the active one and only it is not draining. */
  ghost predicate OneActive(s: State) {
    && s.active in s.agentRefs
    && forall a :: a in s.agentRefs ==> (a in s.draining <==> a != s.active)
  }

  predicate Inside(p: Phase) {
    p.Admitted? || (p.Turn? && p.stage != Released && p.stage != Unlocked)
  }

  /** An admitted call that has not left the gate counts once. */
  function Presence(p: Phase): Option<()> {
    if Inside(p) then Some(()) else None
  }

  /** The gate counts exactly the admitted, unreleased invocations. */
  ghost predicate Gated(s: State) {
    s.count == Tally(s.calls, Presence, ())
  }

  /** Thread `t` is past the lock of entry `e` and has not unlocked it. */
  predicate PastLock(s: State, t: Caller, e: EntryId) {
    t in s.calls && s.calls[t].Turn? && s.calls[t].entry == e
    && s.calls[t].stage != Queued && s.calls[t].stage != Unlocked
  }

  /** A mutex is held by the one call past it; isBusy tells whether that call is running its turn. */
  ghost predicate Exclusive(s: State) {
    && (forall t, e :: e in s.entries && PastLock(s, t, e) ==> s.entries[e].lockedBy == Some(t))
    && (forall e :: e in s.entries && s.entries[e].lockedBy.Some? ==> PastLock(s, s.entries[e].lockedBy.value, e))
    && (forall e :: e in s.entries ==>
      (s.entries[e].isBusy <==> s.entries[e].lockedBy.Some? && s.calls[s.entries[e].lockedBy.value].stage == Running))
  }

  ghost predicate Numbered(s: State) {
    && (forall a :: a in s.agentRefs || a in s.draining ==> a.n < s.nextId)
    && (forall e :: e in s.entryRefs ==> e.n < s.nextId)
  }

  ghost predicate Inv(s: State) {
    Owned(s) && OneActive(s) && Gated(s) && Exclusive(s) && Numbered(s)
  }

  // ---------- Steps ----------

  datatype Step =
    | Enter(caller: Caller, sessionId: SessionId)
    | Wake(caller: Caller)
    | Bind(caller: Caller)
    | Lock(caller: Caller)
    | Begin(caller: Caller)
    | End(caller: Caller)
    | Release(caller: Caller)
    | Unlock(caller: Caller)
    | Return(caller: Caller)
    | Open(sessionId: SessionId)
    | Remove(caller: Caller, sessionId: SessionId)
    | Borrow(caller: Caller)
    | BorrowActive(caller: Caller)
    | GiveBack(caller: Caller)
    | FinishRemove(caller: Caller)
    | Swap(caller: Caller, newCap: int)
    | Part(caller: Caller)

  predicate AtStage(s: State, t: Caller, stage: Stage) {
    t in s.calls && s.calls[t].Turn? && s.calls[t].stage == stage
  }

  /** When a step can happen. A sleeper may wake at any time; see Prompted for the wakes that must come. */
  predicate Enabled(s: State, step: Step) {
    match step
    case Enter(t, _) => t !in s.calls
    case Wake(t) => t in s.calls && s.calls[t].Waiting?
    case Bind(t) => t in s.calls && s.calls[t].Admitted?
    case Lock(t) => AtStage(s, t, Queued) && s.calls[t].entry in s.entries && s.entries[s.calls[t].entry].lockedBy.None?
    case Begin(t) => AtStage(s, t, Locked)
    case End(t) => AtStage(s, t, Running)
    case Release(t) => AtStage(s, t, Ended)
    case Unlock(t) => AtStage(s, t, Released)
    case Return(t) => AtStage(s, t, Unlocked)
    case Open(_) => true
    case Remove(t, id) => t !in s.calls && id in s.sessions
    case Borrow(t) => t in s.calls && s.calls[t].Removing?
    case BorrowActive(t) => t !in s.calls
    case GiveBack(t) => t in s.calls && s.calls[t].Cleaning?
    case FinishRemove(t) => t in s.calls && s.calls[t].Leaving?
    case Swap(t, _) => t !in s.calls
    case Part(t) => t in s.calls && s.calls[t].Parting?
  }

  /** Lines 574-582: the gate. */
  function AfterEnter(s: State, t: Caller, id: SessionId): State {
    if s.cap > 0 && s.count >= s.cap then s.(calls := s.calls[t := Waiting(id, false)])
    else s.(calls := s.calls[t := Admitted(id)], count := s.count + 1)
  }

  /** The wait's predicate, evaluated again. It compares with the cap even when the cap is off. */
  function AfterWake(s: State, t: Caller): State
    requires Enabled(s, Wake(t))
  {
    var id := s.calls[t].sessionId;
    if s.count < s.cap then s.(calls := s.calls[t := Admitted(id)], count := s.count + 1)
    else s.(calls := s.calls[t := Waiting(id, false)])
  }

  /** FindOrCreateEntry: a new entry binds the active agent and is owned by the registry. */
  function FindOrCreate(s: State, id: SessionId): State
    requires Inv(s)
  {
    if id in s.sessions then s
    else
      var e := EntryId(s.nextId);
      s.(sessions := s.sessions[id := e],
         entries := s.entries[e := Entry(s.active, None, false)],
         entryRefs := Made(s.entryRefs, e),
         agentRefs := Shared(s.agentRefs, s.active),
         nextId := s.nextId + 1)
  }

  /** Lines 606-608: an entry bound to a draining agent turns to the active one. */
  function Rebound(s: State, id: SessionId): State
    requires Inv(s) && id in s.sessions
  {
    RegisteredIsLive(s, id);
    var e := s.sessions[id];
    var was := s.entries[e].agent;
    if was in s.draining then
      s.(entries := s.entries[e := s.entries[e].(agent := s.active)],
         agentRefs := Dropped(Shared(s.agentRefs, s.active), was))
    else s
  }

  /** Lines 605 and 609: the call's own copies of the two pointers. */
  function Snapshot(s: State, t: Caller, id: SessionId): State
    requires Inv(s) && id in s.sessions
  {
    RegisteredIsLive(s, id);
    var e := s.sessions[id];
    var a := s.entries[e].agent;
    s.(calls := s.calls[t := Turn(Queued, e, a)],
       entryRefs := Shared(s.entryRefs, e),
       agentRefs := Shared(s.agentRefs, a))
  }

  lemma RegisteredIsLive(s: State, id: SessionId)
    requires Owned(s) && id in s.sessions
    ensures var e := s.sessions[id]; e in s.entryRefs && e in s.entries && s.entries[e].agent in s.agentRefs
    ensures Positive(s.agentRefs) && Positive(s.entryRefs)
  {
    hide Tally;
    var e := s.sessions[id];
    TallyHas(s.sessions, Itself, id, e);
    assert CountOf(s.entryRefs, e) == EntryOwners(s, e);
    EntryAgentIsLive(s, e);
  }

  lemma EntryAgentIsLive(s: State, e: EntryId)
    requires Owned(s) && e in s.entries
    ensures s.entries[e].agent in s.agentRefs
  {
    hide Tally;
    var a := s.entries[e].agent;
    TallyHas(s.entries, AgentOfEntry, e, a);
    assert CountOf(s.agentRefs, a) == AgentOwners(s, a);
  }

  lemma CallIsLive(s: State, t: Caller)
    requires Owned(s) && t in s.calls
    ensures s.calls[t].Turn? ==>
      && s.calls[t].entry in s.entryRefs && s.calls[t].entry in s.entries
      && s.calls[t].agent in s.agentRefs && s.entries[s.calls[t].entry].agent in s.agentRefs
    ensures s.calls[t].Parting? || s.calls[t].Cleaning? ==> s.calls[t].agent in s.agentRefs
    ensures s.calls[t].Removing? ==>
      s.calls[t].removed in s.entries && s.entries[s.calls[t].removed].agent in s.agentRefs
    ensures Positive(s.agentRefs) && Positive(s.entryRefs)
  {
    hide Tally;
    var p := s.calls[t];
    if p.Turn? {
      TallyHas(s.calls, AgentOfCall, t, p.agent);
      TallyHas(s.calls, EntryOfCall, t, p.entry);
      assert CountOf(s.agentRefs, p.agent) == AgentOwners(s, p.agent);
      assert CountOf(s.entryRefs, p.entry) == EntryOwners(s, p.entry);
      EntryAgentIsLive(s, p.entry);
    } else if p.Parting? || p.Cleaning? {
      TallyHas(s.calls, AgentOfCall, t, p.agent);
      assert CountOf(s.agentRefs, p.agent) == AgentOwners(s, p.agent);
    } else if p.Removing? {
      TallyHas(s.calls, EntryOfCall, t, p.removed);
      assert CountOf(s.entryRefs, p.removed) == EntryOwners(s, p.removed);
      EntryAgentIsLive(s, p.removed);
    }
  }

  /** The turn moves on to its next stage. */
  function Staged(s: State, t: Caller, stage: Stage): State
    requires t in s.calls && s.calls[t].Turn?
  {
    s.(calls := s.calls[t := s.calls[t].(stage := stage)])
  }

  /** Line 625: invokeMutex is free, and is taken. */
  function AfterLock(s: State, t: Caller): State
    requires Enabled(s, Lock(t))
  {
    var e := s.calls[t].entry;
    Staged(s, t, Locked).(entries := s.entries[e := s.entries[e].(lockedBy := Some(t))])
  }

  /** Line 626. */
  function AfterBegin(s: State, t: Caller): State
    requires Inv(s) && Enabled(s, Begin(t))
  {
    CallIsLive(s, t);
    var e := s.calls[t].entry;
    Staged(s, t, Running).(entries := s.entries[e := s.entries[e].(isBusy := true)])
  }

  /** Lines 632 and 642. */
  function AfterEnd(s: State, t: Caller): State
    requires Inv(s) && Enabled(s, End(t))
  {
    CallIsLive(s, t);
    var e := s.calls[t].entry;
    Staged(s, t, Ended).(entries := s.entries[e := s.entries[e].(isBusy := false)])
  }

  /** Lines 584-588: leaving the gate wakes every sleeper. */
  function AfterRelease(s: State, t: Caller): State
    requires Enabled(s, Release(t))
  {
    s.(calls := (map u | u in s.calls ::
         if s.calls[u].Waiting? then Waiting(s.calls[u].sessionId, true)
         else if u == t then s.calls[t].(stage := Released)
         else s.calls[u]),
       count := if s.count > 0 then s.count - 1 else s.count)
  }

  /** The counts are right but for one pointer to `e` that no variable holds any more. */
  ghost predicate OwnedBut(s: State, e: EntryId) {
    && Positive(s.agentRefs) && Positive(s.entryRefs)
    && (forall a :: CountOf(s.agentRefs, a) == AgentOwners(s, a))
    && (forall k :: CountOf(s.entryRefs, k) == EntryOwners(s, k) + if k == e then 1 else 0)
    && s.entries.Keys == s.entryRefs.Keys
  }

  lemma StillThere(s: State, e: EntryId)
    requires OwnedBut(s, e)
    ensures e in s.entryRefs && e in s.entries && s.entries[e].agent in s.agentRefs
  {
    hide Tally;
    assert CountOf(s.entryRefs, e) > 0;
    var a := s.entries[e].agent;
    TallyHas(s.entries, AgentOfEntry, e, a);
    assert CountOf(s.agentRefs, a) == AgentOwners(s, a);
  }

  /** An owning pointer to an entry goes; with the last one goes the entry, and its pointer to an agent. */
  function WithoutEntryOwner(s: State, e: EntryId): State
    requires OwnedBut(s, e)
  {
    StillThere(s, e);
    if s.entryRefs[e] == 1 then
      s.(entryRefs := Dropped(s.entryRefs, e),
         entries := s.entries - {e},
         agentRefs := Dropped(s.agentRefs, s.entries[e].agent))
    else s.(entryRefs := Dropped(s.entryRefs, e))
  }

  /** The unique_lock of line 625 is destroyed. */
  function AfterUnlock(s: State, t: Caller): State
    requires Inv(s) && Enabled(s, Unlock(t))
  {
    CallIsLive(s, t);
    var e := s.calls[t].entry;
    Staged(s, t, Unlocked).(entries := s.entries[e := s.entries[e].(lockedBy := None)])
  }

  /** Invoke's entry pointer is destroyed; the agent pointer, declared before it, is still there. */
  function AfterReturn(s: State, t: Caller): State
    requires Inv(s) && Enabled(s, Return(t))
  {
    var left := s.(calls := s.calls[t := Parting(s.calls[t].agent)]);
    LeavesEntry(s, t, left);
    WithoutEntryOwner(left, s.calls[t].entry)
  }

  /** The end of Invoke and of ReloadAgent: the local agent pointer is destroyed. */
  function AfterPart(s: State, t: Caller): State
    requires Inv(s) && Enabled(s, Part(t))
  {
    CallIsLive(s, t);
    s.(calls := s.calls - {t}, agentRefs := Dropped(s.agentRefs, s.calls[t].agent))
  }

  /** RemoveSession, lines 810-823: the registry's pointer moves into a local. */
  function AfterRemove(s: State, t: Caller, id: SessionId): State
    requires Enabled(s, Remove(t, id))
  {
    s.(sessions := s.sessions - {id}, calls := s.calls[t := Removing(s.sessions[id])])
  }

  /** RemoveSession, line 864: a pointer to the agent of the removed entry. */
  function AfterBorrow(s: State, t: Caller): State
    requires Inv(s) && Enabled(s, Borrow(t))
  {
    CallIsLive(s, t);
    var e := s.calls[t].removed;
    var a := s.entries[e].agent;
    s.(calls := s.calls[t := Cleaning(e, a)], agentRefs := Shared(s.agentRefs, a))
  }

  /** RemoveSession, lines 867-870: a removal that found no entry takes a pointer to the active agent. */
  function AfterBorrowActive(s: State, t: Caller): State
    requires Inv(s) && Enabled(s, BorrowActive(t))
  {
    s.(calls := s.calls[t := Parting(s.active)], agentRefs := Shared(s.agentRefs, s.active))
  }

  /** The end of RemoveSession: the agent pointer is destroyed before the entry pointer. */
  function AfterGiveBack(s: State, t: Caller): State
    requires Inv(s) && Enabled(s, GiveBack(t))
  {
    CallIsLive(s, t);
    s.(calls := s.calls[t := Leaving(s.calls[t].removed)], agentRefs := Dropped(s.agentRefs, s.calls[t].agent))
  }

  function AfterFinishRemove(s: State, t: Caller): State
    requires Inv(s) && Enabled(s, FinishRemove(t))
  {
    var left := s.(calls := s.calls - {t});
    LeavesEntry(s, t, left);
    WithoutEntryOwner(left, s.calls[t].removed)
  }

  /** ReloadAgent, lines 1062-1075: the swap. The old agent's pointer moves into a local. */
  function AfterSwap(s: State, t: Caller, newCap: int): State
    requires Inv(s) && Enabled(s, Swap(t, newCap))
  {
    var a := AgentId(s.nextId);
    s.(active := a,
       draining := s.draining + {s.active},
       agentRefs := Made(s.agentRefs, a),
       calls := s.calls[t := Parting(s.active)],
       cap := if newCap > 0 then newCap else 0,
       nextId := s.nextId + 1)
  }

  /** Lines 600-610, one critical section. */
  function AfterBind(s: State, t: Caller): State
    requires Inv(s) && Enabled(s, Bind(t))
  {
    var id := s.calls[t].sessionId;
    FindOrCreateKeepsInv(s, id);
    var found := FindOrCreate(s, id);
    ReboundKeepsInv(found, id);
    Snapshot(Rebound(found, id), t, id)
  }

  function Next(s: State, step: Step): State
    requires Inv(s) && Enabled(s, step)
  {
    match step
    case Enter(t, id) => AfterEnter(s, t, id)
    case Wake(t) => AfterWake(s, t)
    case Bind(t) => AfterBind(s, t)
    case Lock(t) => AfterLock(s, t)
    case Begin(t) => AfterBegin(s, t)
    case End(t) => AfterEnd(s, t)
    case Release(t) => AfterRelease(s, t)
    case Unlock(t) => AfterUnlock(s, t)
    case Return(t) => AfterReturn(s, t)
    case Open(id) => FindOrCreate(s, id)
    case Remove(t, id) => AfterRemove(s, t, id)
    case Borrow(t) => AfterBorrow(s, t)
    case BorrowActive(t) => AfterBorrowActive(s, t)
    case GiveBack(t) => AfterGiveBack(s, t)
    case FinishRemove(t) => AfterFinishRemove(s, t)
    case Swap(t, newCap) => AfterSwap(s, t, newCap)
    case Part(t) => AfterPart(s, t)
  }

  // ---------- What a changed table means for every count ----------

  lemma CallsChange(s: State, t: Caller, p: Phase)
    ensures forall a ::
      Tally(s.calls[t := p], AgentOfCall, a)
        == Tally(s.calls, AgentOfCall, a) - Points(s.calls, AgentOfCall, t, a) + if AgentOfCall(p) == Some(a) then 1 else 0
    ensures forall e ::
      Tally(s.calls[t := p], EntryOfCall, e)
        == Tally(s.calls, EntryOfCall, e) - Points(s.calls, EntryOfCall, t, e) + if EntryOfCall(p) == Some(e) then 1 else 0
    ensures Tally(s.calls[t := p], Presence, ())
      == Tally(s.calls, Presence, ()) - Points(s.calls, Presence, t, ()) + if Inside(p) then 1 else 0
  {
    hide Tally;
    forall a {
      TallySet(s.calls, AgentOfCall, t, p, a);
    }
    forall e {
      TallySet(s.calls, EntryOfCall, t, p, e);
    }
    TallySet(s.calls, Presence, t, p, ());
  }

  lemma CallsShrink(s: State, t: Caller)
    ensures forall a ::
      Tally(s.calls - {t}, AgentOfCall, a)
        == Tally(s.calls, AgentOfCall, a) - Points(s.calls, AgentOfCall, t, a)
    ensures forall e ::
      Tally(s.calls - {t}, EntryOfCall, e)
        == Tally(s.calls, EntryOfCall, e) - Points(s.calls, EntryOfCall, t, e)
    ensures Tally(s.calls - {t}, Presence, ()) == Tally(s.calls, Presence, ()) - Points(s.calls, Presence, t, ())
  {
    hide Tally;
    forall a {
      TallyWithout(s.calls, AgentOfCall, t, a);
    }
    forall e {
      TallyWithout(s.calls, EntryOfCall, t, e);
    }
    TallyWithout(s.calls, Presence, t, ());
  }

  lemma EntriesChange(s: State, e: EntryId, entry: Entry)
    ensures forall a ::
      Tally(s.entries[e := entry], AgentOfEntry, a)
        == Tally(s.entries, AgentOfEntry, a) - Points(s.entries, AgentOfEntry, e, a) + if entry.agent == a then 1 else 0
  {
    hide Tally;
    forall a {
      TallySet(s.entries, AgentOfEntry, e, entry, a);
    }
  }

  lemma EntriesShrink(s: State, e: EntryId)
    ensures forall a ::
      Tally(s.entries - {e}, AgentOfEntry, a)
        == Tally(s.entries, AgentOfEntry, a) - Points(s.entries, AgentOfEntry, e, a)
  {
    hide Tally;
    forall a {
      TallyWithout(s.entries, AgentOfEntry, e, a);
    }
  }

  lemma SessionsChange(s: State, id: SessionId, e: EntryId)
    ensures forall k ::
      Tally(s.sessions[id := e], Itself, k)
        == Tally(s.sessions, Itself, k) - Points(s.sessions, Itself, id, k) + if k == e then 1 else 0
  {
    hide Tally;
    forall k {
      TallySet(s.sessions, Itself, id, e, k);
    }
  }

  lemma SessionsShrink(s: State, id: SessionId)
    ensures forall k ::
      Tally(s.sessions - {id}, Itself, k)
        == Tally(s.sessions, Itself, k) - Points(s.sessions, Itself, id, k)
  {
    hide Tally;
    forall k {
      TallyWithout(s.sessions, Itself, id, k);
    }
  }

  // ---------- Every step keeps the invariant ----------

  lemma InitialInv(cap: int)
    ensures Inv(Initial(cap))
  {
    var s := Initial(cap);
    forall a
      ensures CountOf(s.agentRefs, a) == AgentOwners(s, a)
    {
      assert Pointing(s.entries, AgentOfEntry, a) == {};
      assert Pointing(s.calls, AgentOfCall, a) == {};
    }
    forall e
      ensures CountOf(s.entryRefs, e) == EntryOwners(s, e)
    {
      assert Pointing(s.sessions, Itself, e) == {};
      assert Pointing(s.calls, EntryOfCall, e) == {};
    }
    assert Pointing(s.calls, Presence, ()) == {};
  }

  lemma EnterKeepsInv(s: State, t: Caller, id: SessionId)
    requires Inv(s) && Enabled(s, Enter(t, id))
    ensures Inv(AfterEnter(s, t, id))
  {
    hide Tally;
    CallsChange(s, t, if s.cap > 0 && s.count >= s.cap then Waiting(id, false) else Admitted(id));
  }

  lemma WakeKeepsInv(s: State, t: Caller)
    requires Inv(s) && Enabled(s, Wake(t))
    ensures Inv(AfterWake(s, t))
  {
    hide Tally;
    var id := s.calls[t].sessionId;
    CallsChange(s, t, if s.count < s.cap then Admitted(id) else Waiting(id, false));
  }

  /** Nobody holds, or is past the lock of, an entry that does not exist yet. */
  lemma CreateKeepsCounts(s: State, id: SessionId)
    requires Inv(s) && id !in s.sessions
    ensures var next := FindOrCreate(s, id); Owned(next) && OneActive(next) && Gated(next) && Numbered(next)
    ensures EntryId(s.nextId) !in s.entries && forall t <- s.calls :: EntryOfCall(s.calls[t]) != Some(EntryId(s.nextId))
  {
    hide Tally, Exclusive;
    var e := EntryId(s.nextId);
    assert CountOf(s.entryRefs, e) == EntryOwners(s, e) == 0;
    EntriesChange(s, e, Entry(s.active, None, false));
    SessionsChange(s, id, e);
    TallyNone(s.calls, EntryOfCall, e);
  }

  lemma FindOrCreateKeepsInv(s: State, id: SessionId)
    requires Inv(s)
    ensures Inv(FindOrCreate(s, id)) && id in FindOrCreate(s, id).sessions
  {
    hide Owned, OneActive, Gated, Numbered;
    if id !in s.sessions {
      CreateKeepsCounts(s, id);
    }
  }

  lemma ReboundKeepsInv(s: State, id: SessionId)
    requires Inv(s) && id in s.sessions
    ensures Inv(Rebound(s, id)) && id in Rebound(s, id).sessions
  {
    hide Tally;
    RegisteredIsLive(s, id);
    var e := s.sessions[id];
    EntriesChange(s, e, s.entries[e].(agent := s.active));
  }

  lemma SnapshotKeepsInv(s: State, t: Caller, id: SessionId)
    requires Inv(s) && id in s.sessions && Enabled(s, Bind(t))
    ensures Inv(Snapshot(s, t, id))
  {
    hide Tally;
    RegisteredIsLive(s, id);
    var e := s.sessions[id];
    CallsChange(s, t, Turn(Queued, e, s.entries[e].agent));
  }

  lemma BindKeepsInv(s: State, t: Caller)
    requires Inv(s) && Enabled(s, Bind(t))
    ensures Inv(AfterBind(s, t))
  {
    hide Tally, Owned, Gated, Exclusive, Numbered;
    var id := s.calls[t].sessionId;
    FindOrCreateKeepsInv(s, id);
    var found := FindOrCreate(s, id);
    ReboundKeepsInv(found, id);
    SnapshotKeepsInv(Rebound(found, id), t, id);
  }

  /** Moving a turn on inside the gate, and setting flags of an entry, moves no pointer. */
  lemma NoPointerMoves(s: State, t: Caller, stage: Stage, e: EntryId, entry: Entry)
    requires Inv(s) && t in s.calls && s.calls[t].Turn? && e in s.entries && entry.agent == s.entries[e].agent
    requires Inside(s.calls[t].(stage := stage)) <==> Inside(s.calls[t])
    ensures var next := Staged(s, t, stage).(entries := s.entries[e := entry]);
      Owned(next) && OneActive(next) && Gated(next) && Numbered(next)
  {
    hide Tally, Exclusive;
    CallsChange(s, t, s.calls[t].(stage := stage));
    EntriesChange(s, e, entry);
  }

  lemma LockKeepsInv(s: State, t: Caller)
    requires Inv(s) && Enabled(s, Lock(t))
    ensures Inv(AfterLock(s, t))
  {
    hide Owned, OneActive, Gated, Numbered;
    var e := s.calls[t].entry;
    NoPointerMoves(s, t, Locked, e, s.entries[e].(lockedBy := Some(t)));
  }

  lemma BeginKeepsInv(s: State, t: Caller)
    requires Inv(s) && Enabled(s, Begin(t))
    ensures Inv(AfterBegin(s, t))
  {
    hide Owned, OneActive, Gated, Numbered;
    CallIsLive(s, t);
    var e := s.calls[t].entry;
    assert PastLock(s, t, e);
    NoPointerMoves(s, t, Running, e, s.entries[e].(isBusy := true));
  }

  lemma EndKeepsInv(s: State, t: Caller)
    requires Inv(s) && Enabled(s, End(t))
    ensures Inv(AfterEnd(s, t))
  {
    hide Owned, OneActive, Gated, Numbered;
    CallIsLive(s, t);
    var e := s.calls[t].entry;
    assert PastLock(s, t, e);
    NoPointerMoves(s, t, Ended, e, s.entries[e].(isBusy := false));
  }

  lemma UnlockKeepsInv(s: State, t: Caller)
    requires Inv(s) && Enabled(s, Unlock(t))
    ensures Inv(AfterUnlock(s, t))
  {
    hide Owned, OneActive, Gated, Numbered;
    CallIsLive(s, t);
    var e := s.calls[t].entry;
    assert PastLock(s, t, e);
    NoPointerMoves(s, t, Unlocked, e, s.entries[e].(lockedBy := None));
  }

  /** Waking the sleepers moves no pointer and admits nobody. */
  lemma SignalsCountNothing(s: State, t: Caller)
    requires Enabled(s, Release(t))
    ensures var next, left := AfterRelease(s, t), s.calls[t := s.calls[t].(stage := Released)];
      && (forall a :: Tally(next.calls, AgentOfCall, a) == Tally(left, AgentOfCall, a))
      && (forall e :: Tally(next.calls, EntryOfCall, e) == Tally(left, EntryOfCall, e))
      && Tally(next.calls, Presence, ()) == Tally(left, Presence, ())
  {
    hide Tally;
    var next, left := AfterRelease(s, t), s.calls[t := s.calls[t].(stage := Released)];
    forall a {
      TallySame(left, next.calls, AgentOfCall, a);
    }
    forall e {
      TallySame(left, next.calls, EntryOfCall, e);
    }
    TallySame(left, next.calls, Presence, ());
  }

  lemma ReleaseKeepsCounts(s: State, t: Caller)
    requires Inv(s) && Enabled(s, Release(t))
    ensures var next := AfterRelease(s, t); Owned(next) && OneActive(next) && Gated(next) && Numbered(next)
  {
    hide Tally, Exclusive, AfterRelease;
    SignalsCountNothing(s, t);
    CallsChange(s, t, s.calls[t].(stage := Released));
    TallyHas(s.calls, Presence, t, ());
    var next := AfterRelease(s, t);
    assert next == s.(calls := next.calls, count := s.count - 1) by {
      ReleaseUnfolds(s, t);
    }
  }

  lemma ReleaseUnfolds(s: State, t: Caller)
    requires Enabled(s, Release(t)) && s.count > 0
    ensures var next := AfterRelease(s, t); next == s.(calls := next.calls, count := s.count - 1)
  {
  }

  lemma ReleaseKeepsInv(s: State, t: Caller)
    requires Inv(s) && Enabled(s, Release(t))
    ensures Inv(AfterRelease(s, t))
  {
    hide Owned, OneActive, Gated, Numbered;
    ReleaseKeepsCounts(s, t);
    assert forall u, e :: PastLock(AfterRelease(s, t), u, e) <==> PastLock(s, u, e);
  }

  /** A call that stops holding its entry, and nothing else, leaves one pointer too many in the count. */
  lemma LeavesEntry(s: State, t: Caller, left: State)
    requires Inv(s) && t in s.calls
    requires || (s.calls[t].Leaving? && left == s.(calls := s.calls - {t}))
             || (s.calls[t].Turn? && left == s.(calls := s.calls[t := Parting(s.calls[t].agent)]))
    ensures OwnedBut(left, EntryOfCall(s.calls[t]).value)
  {
    hide Tally;
    if s.calls[t].Leaving? {
      CallsShrink(s, t);
    } else {
      CallsChange(s, t, Parting(s.calls[t].agent));
    }
  }

  lemma LastOwnerDestroys(s: State, e: EntryId)
    requires OwnedBut(s, e)
    ensures Owned(WithoutEntryOwner(s, e))
  {
    hide Tally;
    StillThere(s, e);
    EntriesShrink(s, e);
  }

  lemma ReturnKeepsInv(s: State, t: Caller)
    requires Inv(s) && Enabled(s, Return(t))
    ensures Inv(AfterReturn(s, t))
  {
    hide Tally;
    var left := s.(calls := s.calls[t := Parting(s.calls[t].agent)]);
    LeavesEntry(s, t, left);
    LastOwnerDestroys(left, s.calls[t].entry);
    CallsChange(s, t, Parting(s.calls[t].agent));
    AfterDestruction(s, t, left, s.calls[t].entry);
  }

  lemma FinishRemoveKeepsInv(s: State, t: Caller)
    requires Inv(s) && Enabled(s, FinishRemove(t))
    ensures Inv(AfterFinishRemove(s, t))
  {
    hide Tally;
    var left := s.(calls := s.calls - {t});
    LeavesEntry(s, t, left);
    LastOwnerDestroys(left, s.calls[t].removed);
    CallsShrink(s, t);
    AfterDestruction(s, t, left, s.calls[t].removed);
  }

  /** Objects that go leave one active agent, and all ids below the next one. */
  lemma FewerObjects(s: State, next: State)
    requires Inv(s) && Owned(next)
    requires next.active == s.active && next.draining == s.draining && next.nextId == s.nextId
    requires next.agentRefs.Keys <= s.agentRefs.Keys && next.entryRefs.Keys <= s.entryRefs.Keys
    ensures OneActive(next) && Numbered(next)
  {
    hide Tally;
    assert CountOf(next.agentRefs, next.active) == AgentOwners(next, next.active);
  }

  lemma DestroysOnly(s: State, e: EntryId)
    requires OwnedBut(s, e)
    ensures var next := WithoutEntryOwner(s, e);
      && next == s.(agentRefs := next.agentRefs, entryRefs := next.entryRefs, entries := next.entries)
      && (next.entries == s.entries || next.entries == s.entries - {e})
      && next.agentRefs.Keys <= s.agentRefs.Keys && next.entryRefs.Keys <= s.entryRefs.Keys
  {
    hide Tally;
  }

  /** Besides the counts, destroying an entry nobody can reach breaks nothing. */
  lemma AfterDestruction(s: State, t: Caller, left: State, e: EntryId)
    requires Inv(s) && t in s.calls && OwnedBut(left, e) && Gated(left)
    requires left == s.(calls := left.calls) && left.calls.Keys <= s.calls.Keys
    requires forall u <- s.calls :: u != t ==> u in left.calls && left.calls[u] == s.calls[u]
    requires forall k :: !PastLock(s, t, k) && !PastLock(left, t, k)
    requires Owned(WithoutEntryOwner(left, e))
    ensures Inv(WithoutEntryOwner(left, e))
  {
    hide Owned, OneActive, Numbered, OwnedBut, Tally, WithoutEntryOwner;
    DestroysOnly(left, e);
    var next := WithoutEntryOwner(left, e);
    assert forall u, k :: PastLock(next, u, k) <==> PastLock(s, u, k);
    FewerObjects(s, next);
  }

  lemma RemoveKeepsInv(s: State, t: Caller, id: SessionId)
    requires Inv(s) && Enabled(s, Remove(t, id))
    ensures Inv(AfterRemove(s, t, id))
  {
    hide Tally;
    CallsChange(s, t, Removing(s.sessions[id]));
    SessionsShrink(s, id);
  }

  lemma BorrowKeepsInv(s: State, t: Caller)
    requires Inv(s) && Enabled(s, Borrow(t))
    ensures Inv(AfterBorrow(s, t))
  {
    hide Tally;
    CallIsLive(s, t);
    var e := s.calls[t].removed;
    CallsChange(s, t, Cleaning(e, s.entries[e].agent));
  }

  lemma BorrowActiveKeepsInv(s: State, t: Caller)
    requires Inv(s) && Enabled(s, BorrowActive(t))
    ensures Inv(AfterBorrowActive(s, t))
  {
    hide Tally;
    CallsChange(s, t, Parting(s.active));
  }

  lemma GiveBackKeepsInv(s: State, t: Caller)
    requires Inv(s) && Enabled(s, GiveBack(t))
    ensures Inv(AfterGiveBack(s, t))
  {
    hide Tally;
    CallIsLive(s, t);
    CallsChange(s, t, Leaving(s.calls[t].removed));
    FewerObjects(s, AfterGiveBack(s, t));
  }

  lemma SwapKeepsInv(s: State, t: Caller, newCap: int)
    requires Inv(s) && Enabled(s, Swap(t, newCap))
    ensures Inv(AfterSwap(s, t, newCap))
  {
    hide Tally;
    assert CountOf(s.agentRefs, AgentId(s.nextId)) == 0;
    CallsChange(s, t, Parting(s.active));
  }

  lemma PartKeepsInv(s: State, t: Caller)
    requires Inv(s) && Enabled(s, Part(t))
    ensures Inv(AfterPart(s, t))
  {
    hide Tally;
    CallIsLive(s, t);
    CallsShrink(s, t);
    FewerObjects(s, AfterPart(s, t));
  }

  /** The invariant is inductive. */
  lemma NextKeepsInv(s: State, step: Step)
    requires Inv(s) && Enabled(s, step)
    ensures Inv(Next(s, step))
  {
    hide Inv;
    match step
    case Enter(t, id) => EnterKeepsInv(s, t, id);
    case Wake(t) => WakeKeepsInv(s, t);
    case Bind(t) => BindKeepsInv(s, t);
    case Lock(t) => LockKeepsInv(s, t);
    case Begin(t) => BeginKeepsInv(s, t);
    case End(t) => EndKeepsInv(s, t);
    case Release(t) => ReleaseKeepsInv(s, t);
    case Unlock(t) => UnlockKeepsInv(s, t);
    case Return(t) => ReturnKeepsInv(s, t);
    case Open(id) => FindOrCreateKeepsInv(s, id);
    case Remove(t, id) => RemoveKeepsInv(s, t, id);
    case Borrow(t) => BorrowKeepsInv(s, t);
    case BorrowActive(t) => BorrowActiveKeepsInv(s, t);
    case GiveBack(t) => GiveBackKeepsInv(s, t);
    case FinishRemove(t) => FinishRemoveKeepsInv(s, t);
    case Swap(t, newCap) => SwapKeepsInv(s, t, newCap);
    case Part(t) => PartKeepsInv(s, t);
  }
}
