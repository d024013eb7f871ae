/** What holds over every run of the session protocol: hot reload, the gate and the per-entry lock. */
module SessionGuarantees {
  import opened Ids
  import opened Options
  import opened RefCounts
  import opened SessionProtocol

  // ---------- Runs ----------

  /** The interleaving `steps` leads from `s` to `end`. */
  ghost predicate Runs(s: State, steps: seq<Step>, end: State)
    requires Inv(s)
    decreases |steps|
  {
    if steps == [] then end == s
    else
      Enabled(s, steps[0]) &&
      (NextKeepsInv(s, steps[0]);
       Runs(Next(s, steps[0]), steps[1..], end))
  }

  ghost predicate Reachable(s: State) {
    exists cap, steps :: (InitialInv(cap); Runs(Initial(cap), steps, s))
  }

  lemma {:induction false} RunsKeepInv(s: State, steps: seq<Step>, end: State)
    requires Inv(s) && Runs(s, steps, end)
    ensures Inv(end)
    decreases |steps|
  {
    hide Inv, Next, Enabled;
    if steps != [] {
      NextKeepsInv(s, steps[0]);
      RunsKeepInv(Next(s, steps[0]), steps[1..], end);
    }
  }

  lemma ReachableInv(s: State)
    requires Reachable(s)
    ensures Inv(s)
  {
    hide Inv, Next, Enabled, Runs;
    var cap, steps :| (InitialInv(cap); Runs(Initial(cap), steps, s));
    InitialInv(cap);
    RunsKeepInv(Initial(cap), steps, s);
  }

  // ---------- Hot reload ----------

  /** The active agent is alive and takes turns; every session is bound to it or to a retired one that still lives. */
  lemma SessionsAreBound(s: State)
    requires Reachable(s)
    ensures s.active in s.agentRefs && s.active !in s.draining
    ensures forall id <- s.sessions ::
      var e := s.sessions[id];
      e in s.entries && s.entries[e].agent in s.agentRefs
      && (s.entries[e].agent == s.active || s.entries[e].agent in s.draining)
  {
    hide Tally, Gated, Exclusive, Numbered;
    ReachableInv(s);
    forall id | id in s.sessions {
      RegisteredIsLive(s, id);
    }
  }

  /** Objects live exactly as long as something points at them: no turn outlives its entry or its agent. */
  lemma NothingDangles(s: State, t: Caller)
    requires Reachable(s) && t in s.calls && s.calls[t].Turn?
    ensures s.calls[t].entry in s.entries && s.calls[t].agent in s.agentRefs
  {
    ReachableInv(s);
    CallIsLive(s, t);
  }

  /** A turn's snapshot is the agent active at that step, and so is the binding it leaves. */
  lemma SnapshotIsActive(s: State, t: Caller)
    requires Inv(s) && Enabled(s, Bind(t))
    ensures var id, next := s.calls[t].sessionId, Next(s, Bind(t));
      && id in next.sessions && (id in s.sessions ==> next.sessions[id] == s.sessions[id])
      && t in next.calls && next.calls[t] == Turn(Queued, next.sessions[id], s.active)
      && next.sessions[id] in next.entries && next.entries[next.sessions[id]].agent == s.active
  {
    hide Tally, Gated, Exclusive, Numbered, Owned;
    var id := s.calls[t].sessionId;
    FindOrCreateKeepsInv(s, id);
    var found := FindOrCreate(s, id);
    RegisteredIsLive(found, id);
    ReboundKeepsInv(found, id);
    RegisteredIsLive(Rebound(found, id), id);
  }

  /** The call table becomes `calls` and the gate does not move. */
  predicate MovesOnly(s: State, next: State, calls: map<Caller, Phase>) {
    next.calls == calls && next.count == s.count && next.cap == s.cap && next.draining == s.draining
  }

  lemma BindMoves(s: State, t: Caller)
    requires Inv(s) && Enabled(s, Bind(t))
    ensures t in Next(s, Bind(t)).calls
    ensures MovesOnly(s, Next(s, Bind(t)), s.calls[t := Next(s, Bind(t)).calls[t]])
  {
    hide Inv;
    var id := s.calls[t].sessionId;
    FindOrCreateKeepsInv(s, id);
    ReboundKeepsInv(FindOrCreate(s, id), id);
  }

  /** The three steps with involved bodies, as far as the call table and the gate go. */
  lemma HardMoves(s: State, step: Step)
    requires Inv(s) && Enabled(s, step)
    ensures step.Bind? ==> step.caller in Next(s, step).calls
    ensures step.Bind? ==> MovesOnly(s, Next(s, step), s.calls[step.caller := Next(s, step).calls[step.caller]])
    ensures step.Return? ==> MovesOnly(s, Next(s, step), s.calls[step.caller := Parting(s.calls[step.caller].agent)])
    ensures step.FinishRemove? ==> MovesOnly(s, Next(s, step), s.calls - {step.caller})
  {
    hide Inv, AfterBind;
    if step.Bind? {
      BindMoves(s, step.caller);
    }
  }

  function Mover(step: Step): Option<Caller> {
    if step.Open? then None else Some(step.caller)
  }

  function Woken(p: Phase): Phase {
    if p.Waiting? then p.(signaled := true) else p
  }

  /** A step moves its own caller only; at most it wakes others. */
  lemma OthersStay(s: State, step: Step, t: Caller)
    requires Inv(s) && Enabled(s, step) && t in s.calls && Mover(step) != Some(t)
    ensures t in Next(s, step).calls
    ensures Next(s, step).calls[t] == s.calls[t] || Next(s, step).calls[t] == Woken(s.calls[t])
  {
    hide Inv, AfterBind, AfterReturn, AfterFinishRemove;
    HardMoves(s, step);
  }

  function Rank(stage: Stage): nat {
    match stage
    case Queued => 0
    case Locked => 1
    case Running => 2
    case Ended => 3
    case Released => 4
    case Unlocked => 5
  }

  lemma TurnStays(s: State, step: Step, t: Caller)
    requires Inv(s) && Enabled(s, step) && step != Return(t)
    requires t in s.calls && s.calls[t].Turn?
    ensures var next := Next(s, step);
      t in next.calls && next.calls[t].Turn?
      && next.calls[t].entry == s.calls[t].entry && next.calls[t].agent == s.calls[t].agent
      && Rank(next.calls[t].stage) == Rank(s.calls[t].stage) + if Mover(step) == Some(t) then 1 else 0
  {
    hide Inv, AfterBind, AfterReturn, AfterFinishRemove;
    if Mover(step) != Some(t) {
      OthersStay(s, step, t);
    }
  }

  /** Until its turn returns, a call works with one entry and one agent, whatever is reloaded, rebound or
      removed meanwhile, and both stay alive. */
  lemma {:induction false} TurnKeepsItsAgent(s: State, steps: seq<Step>, end: State, t: Caller)
    requires Inv(s) && Runs(s, steps, end) && Return(t) !in steps
    requires t in s.calls && s.calls[t].Turn?
    ensures t in end.calls && end.calls[t].Turn?
    ensures end.calls[t].entry == s.calls[t].entry && end.calls[t].agent == s.calls[t].agent
    ensures end.calls[t].entry in end.entries && end.calls[t].agent in end.agentRefs
    ensures Rank(s.calls[t].stage) <= Rank(end.calls[t].stage)
    decreases |steps|
  {
    hide Next, Enabled, Gated, Exclusive, Numbered, OneActive, Owned;
    if steps == [] {
      CallIsLive(s, t);
    } else {
      NextKeepsInv(s, steps[0]);
      TurnStays(s, steps[0], t);
      TurnKeepsItsAgent(Next(s, steps[0]), steps[1..], end, t);
    }
  }

  /** What ties work to an agent: an entry bound to it, or a turn that took it. */
  datatype Tie = ByEntry(entry: EntryId) | ByTurn(caller: Caller)

  ghost function Ties(s: State, a: AgentId): set<Tie> {
    (set e | e in s.entries && s.entries[e].agent == a :: ByEntry(e))
    + (set t | t in s.calls && s.calls[t].Turn? && s.calls[t].agent == a :: ByTurn(t))
  }

  /** The steps that make, rebind or destroy no entry. */
  predicate LeavesEntries(step: Step) {
    !step.Open? && !step.Bind? && !step.Return? && !step.FinishRemove?
  }

  lemma EntriesKeepAgents(s: State, step: Step)
    requires Inv(s) && Enabled(s, step) && LeavesEntries(step)
    ensures s.draining <= Next(s, step).draining
    ensures forall e <- Next(s, step).entries :: e in s.entries && s.entries[e].agent == Next(s, step).entries[e].agent
  {
    if step.Begin? || step.End? || step.Unlock? {
      CallIsLive(s, step.caller);
    }
    hide Inv, AfterBind, AfterReturn, AfterFinishRemove, FindOrCreate;
  }

  lemma TurnsKeepAgents(s: State, step: Step)
    requires Inv(s) && Enabled(s, step) && LeavesEntries(step)
    ensures forall t <- Next(s, step).calls :: Next(s, step).calls[t].Turn? ==>
      t in s.calls && s.calls[t].Turn? && s.calls[t].agent == Next(s, step).calls[t].agent
      && s.calls[t].entry == Next(s, step).calls[t].entry
  {
    hide Inv, AfterBind, AfterReturn, AfterFinishRemove, FindOrCreate;
  }

  lemma TiesFollow(s: State, next: State, a: AgentId)
    requires forall e <- next.entries :: e in s.entries && s.entries[e].agent == next.entries[e].agent
    requires forall t <- next.calls :: next.calls[t].Turn? ==>
      t in s.calls && s.calls[t].Turn? && s.calls[t].agent == next.calls[t].agent
    ensures Ties(next, a) <= Ties(s, a)
  {
  }

  lemma TiesStepDown(s: State, step: Step, a: AgentId)
    requires Inv(s) && Enabled(s, step) && a in s.draining
    ensures a in Next(s, step).draining && Ties(Next(s, step), a) <= Ties(s, a)
  {
    hide Inv, Ties, AfterBind, AfterReturn, AfterFinishRemove, FindOrCreate;
    HardMoves(s, step);
    match step
    case Open(id) => CreateTies(s, id, a);
    case Bind(t) => BindTies(s, t, a);
    case Return(t) => ReturnTies(s, t, a);
    case FinishRemove(t) => FinishRemoveTies(s, t, a);
    case _ =>
      EntriesKeepAgents(s, step);
      TurnsKeepAgents(s, step);
      TiesFollow(s, Next(s, step), a);
  }

  lemma BindTies(s: State, t: Caller, a: AgentId)
    requires Inv(s) && Enabled(s, Bind(t)) && a in s.draining
    ensures a in AfterBind(s, t).draining && Ties(AfterBind(s, t), a) <= Ties(s, a)
  {
    hide Tally, Gated, Exclusive, Numbered, Owned, Ties;
    var id := s.calls[t].sessionId;
    FindOrCreateKeepsInv(s, id);
    var found := FindOrCreate(s, id);
    CreateTies(s, id, a);
    ReboundKeepsInv(found, id);
    ReboundTies(found, id, a);
    SnapshotIsActive(s, t);
    SnapshotTies(Rebound(found, id), t, id, a);
  }

  lemma CreateTies(s: State, id: SessionId, a: AgentId)
    requires Inv(s) && a in s.draining
    ensures FindOrCreate(s, id).draining == s.draining && Ties(FindOrCreate(s, id), a) <= Ties(s, a)
  {
    hide Tally, Gated, Exclusive, Owned;
  }

  lemma ReboundTies(s: State, id: SessionId, a: AgentId)
    requires Inv(s) && a in s.draining && id in s.sessions
    ensures Ties(Rebound(s, id), a) <= Ties(s, a)
  {
    hide Tally, Gated, Exclusive, Owned;
    RegisteredIsLive(s, id);
  }

  lemma SnapshotTies(s: State, t: Caller, id: SessionId, a: AgentId)
    requires Inv(s) && a in s.draining && id in s.sessions && Enabled(s, Bind(t))
    requires Snapshot(s, t, id).calls[t].agent == s.active
    ensures Ties(Snapshot(s, t, id), a) <= Ties(s, a)
  {
    hide Tally, Gated, Exclusive, Owned;
    RegisteredIsLive(s, id);
  }

  lemma ReturnTies(s: State, t: Caller, a: AgentId)
    requires Inv(s) && Enabled(s, Return(t)) && a in s.draining
    ensures Ties(AfterReturn(s, t), a) <= Ties(s, a)
  {
    hide Tally, Gated, Exclusive, Owned;
    var left := s.(calls := s.calls[t := Parting(s.calls[t].agent)]);
    LeavesEntry(s, t, left);
    DestroysOnly(left, s.calls[t].entry);
  }

  lemma FinishRemoveTies(s: State, t: Caller, a: AgentId)
    requires Inv(s) && Enabled(s, FinishRemove(t)) && a in s.draining
    ensures Ties(AfterFinishRemove(s, t), a) <= Ties(s, a)
  {
    hide Tally, Gated, Exclusive, Owned;
    var left := s.(calls := s.calls - {t});
    LeavesEntry(s, t, left);
    DestroysOnly(left, s.calls[t].removed);
  }

  /** Once an agent drains, it takes on nothing new: its ties only ever go. */
  lemma {:induction false} DrainingOnlyDrains(s: State, steps: seq<Step>, end: State, a: AgentId)
    requires Inv(s) && Runs(s, steps, end) && a in s.draining
    ensures a in end.draining && Ties(end, a) <= Ties(s, a)
    decreases |steps|
  {
    hide Next, Enabled, Inv, Ties;
    if steps != [] {
      NextKeepsInv(s, steps[0]);
      TiesStepDown(s, steps[0], a);
      DrainingOnlyDrains(Next(s, steps[0]), steps[1..], end, a);
    }
  }

  /** A reload, an ended turn or a removal whose local pointer to the agent is still there. */
  predicate AboutToLetGo(p: Phase, a: AgentId) {
    (p.Parting? || p.Cleaning?) && p.agent == a
  }

  /** A retired agent is destroyed exactly when nothing is tied to it and no call is about to let it go. */
  lemma RetiredIsFreedIff(s: State, a: AgentId)
    requires Inv(s) && a in s.draining
    ensures a !in s.agentRefs <==> Ties(s, a) == {} && forall t <- s.calls :: !AboutToLetGo(s.calls[t], a)
  {
    hide Gated, Exclusive, Numbered, Tally;
    assert CountOf(s.agentRefs, a) == AgentOwners(s, a);
    if a !in s.agentRefs {
      TallyNone(s.entries, AgentOfEntry, a);
      TallyNone(s.calls, AgentOfCall, a);
      assert Ties(s, a) == {};
    } else if Tally(s.entries, AgentOfEntry, a) > 0 {
      var e := TallySome(s.entries, AgentOfEntry, a);
      assert ByEntry(e) in Ties(s, a);
    } else {
      var t := TallySome(s.calls, AgentOfCall, a);
      assert s.calls[t].Turn? ==> ByTurn(t) in Ties(s, a);
    }
  }

  // ---------- The gate ----------

  lemma GateStep(s: State, step: Step)
    requires Inv(s) && Enabled(s, step)
    ensures s.cap > 0 ==> Next(s, step).count <= s.count || Next(s, step).count <= s.cap
    ensures Next(s, step).cap == if step.Swap? then (if step.newCap > 0 then step.newCap else 0) else s.cap
  {
    hide Inv, AfterBind, AfterReturn, AfterFinishRemove;
    HardMoves(s, step);
  }

  /** Every cap in force during the run lies between 1 and `limit`. */
  ghost predicate CapsWithin(s: State, steps: seq<Step>, limit: int) {
    0 < s.cap <= limit && forall step <- steps :: step.Swap? ==> 0 < step.newCap <= limit
  }

  /** Over any run under positive caps, no more invocations are inside the gate than the largest cap allows. */
  lemma {:induction false} GateHolds(s: State, steps: seq<Step>, end: State, limit: int)
    requires Inv(s) && Runs(s, steps, end) && CapsWithin(s, steps, limit) && s.count <= limit
    ensures (set t | t in end.calls && Inside(end.calls[t])) == Pointing(end.calls, Presence, ())
    ensures |set t | t in end.calls && Inside(end.calls[t])| == end.count <= limit
    decreases |steps|
  {
    if steps == [] {
      assert (set t | t in end.calls && Inside(end.calls[t])) == Pointing(end.calls, Presence, ());
    } else {
      hide Inv, Next, Enabled;
      NextKeepsInv(s, steps[0]);
      GateStep(s, steps[0]);
      GateHolds(Next(s, steps[0]), steps[1..], end, limit);
    }
  }

  // ---------- Exclusion ----------

  /** At most one call is past the lock of an entry, and the entry is busy exactly while that call runs. */
  lemma OneTurnPerEntry(s: State, e: EntryId)
    requires Reachable(s) && e in s.entries
    ensures forall t, u :: PastLock(s, t, e) && PastLock(s, u, e) ==> t == u
    ensures s.entries[e].isBusy <==> exists t :: AtStage(s, t, Running) && s.calls[t].entry == e
  {
    hide Owned, Gated, Numbered, OneActive;
    ReachableInv(s);
    if s.entries[e].isBusy {
      var t := s.entries[e].lockedBy.value;
      assert PastLock(s, t, e);
      assert AtStage(s, t, Running) && s.calls[t].entry == e;
    } else {
      assert forall t :: AtStage(s, t, Running) && s.calls[t].entry == e ==> PastLock(s, t, e);
    }
  }

  /** A turn that waits for its entry's lock or holds it. */
  predicate AtWork(p: Phase) {
    p.Turn? && p.stage != Unlocked
  }

  /** Every turn at work is on an entry that is in the registry. */
  ghost predicate AllRegistered(s: State) {
    forall t <- s.calls :: AtWork(s.calls[t]) ==> Registered(s, s.calls[t].entry)
  }

  ghost predicate Registered(s: State, e: EntryId) {
    exists id <- s.sessions :: s.sessions[id] == e
  }

  /** An entry is registered under one id. */
  ghost predicate OneIdEach(s: State) {
    forall id, other :: id in s.sessions && other in s.sessions && s.sessions[id] == s.sessions[other] ==> id == other
  }

  /** Turns at work and session ids go together, so that exclusion per entry is exclusion per id. */
  ghost predicate PerSession(s: State) {
    AllRegistered(s) && OneIdEach(s)
  }

  /** Some turn at work is on this session. */
  predicate InUse(s: State, id: SessionId)
    requires id in s.sessions
  {
    exists t <- s.calls :: AtWork(s.calls[t]) && s.calls[t].entry == s.sessions[id]
  }

  predicate RemovesInUse(s: State, step: Step)
    requires Inv(s) && Enabled(s, step)
  {
    step.Remove? && InUse(s, step.sessionId)
  }

  lemma SessionsStay(s: State, step: Step, id: SessionId)
    requires Inv(s) && Enabled(s, step) && !step.Remove? && id in s.sessions
    ensures id in Next(s, step).sessions && Next(s, step).sessions[id] == s.sessions[id]
  {
    hide Inv;
    if step.Bind? {
      SessionsStayInBind(s, step.caller, id);
    }
  }

  lemma SessionsStayInBind(s: State, t: Caller, id: SessionId)
    requires Inv(s) && Enabled(s, Bind(t)) && id in s.sessions
    ensures id in Next(s, Bind(t)).sessions && Next(s, Bind(t)).sessions[id] == s.sessions[id]
  {
    hide Inv;
    var own := s.calls[t].sessionId;
    FindOrCreateKeepsInv(s, own);
    ReboundKeepsInv(FindOrCreate(s, own), own);
  }

  /** A turn begins by binding, and its entry is the one bound then. */
  lemma TurnWasThere(s: State, step: Step, t: Caller)
    requires Inv(s) && Enabled(s, step) && step != Bind(t)
    requires t in Next(s, step).calls && Next(s, step).calls[t].Turn?
    ensures t in s.calls && s.calls[t].Turn? && s.calls[t].entry == Next(s, step).calls[t].entry
  {
    hide Inv, Next;
    if LeavesEntries(step) {
      TurnsKeepAgents(s, step);
    } else if step.Open? {
      OpenMovesNobody(s, step.sessionId);
    } else {
      HardMoves(s, step);
    }
  }

  lemma OpenMovesNobody(s: State, id: SessionId)
    requires Inv(s)
    ensures Next(s, Open(id)).calls == s.calls
  {
    hide Inv;
  }

  lemma StaysRegistered(s: State, step: Step, t: Caller)
    requires Inv(s) && Enabled(s, step) && AllRegistered(s) && !RemovesInUse(s, step)
    requires t in Next(s, step).calls && AtWork(Next(s, step).calls[t])
    ensures Registered(Next(s, step), Next(s, step).calls[t].entry)
  {
    hide Inv, Next;
    if step == Bind(t) {
      SnapshotIsActive(s, t);
      assert s.calls[t].sessionId in Next(s, step).sessions;
    } else {
      TurnWasThere(s, step, t);
      WasAtWork(s, step, t);
      var id :| id in s.sessions && s.sessions[id] == s.calls[t].entry;
      if step.Remove? {
        OthersStayRegistered(s, step, id);
      } else {
        SessionsStay(s, step, id);
      }
    }
  }

  lemma WasAtWork(s: State, step: Step, t: Caller)
    requires Inv(s) && Enabled(s, step) && t in s.calls && s.calls[t].Turn?
    requires t in Next(s, step).calls && AtWork(Next(s, step).calls[t])
    ensures AtWork(s.calls[t])
  {
    hide Inv, AfterBind, AfterReturn, AfterFinishRemove;
    HardMoves(s, step);
    if step != Return(t) {
      TurnStays(s, step, t);
    }
  }

  lemma OthersStayRegistered(s: State, step: Step, id: SessionId)
    requires Inv(s) && Enabled(s, step) && step.Remove? && id in s.sessions && id != step.sessionId
    ensures id in Next(s, step).sessions && Next(s, step).sessions[id] == s.sessions[id]
  {
    hide Inv;
  }

  /** A session id gets a new entry, or none. */
  lemma SessionsGrow(s: State, step: Step, id: SessionId)
    requires Inv(s) && Enabled(s, step) && id in Next(s, step).sessions
    ensures id in s.sessions ==> Next(s, step).sessions[id] == s.sessions[id]
    ensures id !in s.sessions ==>
      Next(s, step).sessions[id] == EntryId(s.nextId) && (step == Open(id) || (step.Bind? && s.calls[step.caller].sessionId == id))
  {
    hide Inv;
    if step.Bind? {
      var own := s.calls[step.caller].sessionId;
      FindOrCreateKeepsInv(s, own);
      ReboundKeepsInv(FindOrCreate(s, own), own);
    }
  }

  lemma RegisteredIsNumbered(s: State, id: SessionId)
    requires Inv(s) && id in s.sessions
    ensures s.sessions[id].n < s.nextId
  {
    hide OneActive, Gated, Exclusive;
    RegisteredIsLive(s, id);
  }

  lemma StaysOneIdEach(s: State, step: Step, id: SessionId, other: SessionId)
    requires Inv(s) && Enabled(s, step) && OneIdEach(s)
    requires id in Next(s, step).sessions && other in Next(s, step).sessions
    requires Next(s, step).sessions[id] == Next(s, step).sessions[other]
    ensures id == other
  {
    hide Inv, Next;
    SessionsGrow(s, step, id);
    SessionsGrow(s, step, other);
    if id in s.sessions {
      RegisteredIsNumbered(s, id);
    }
    if other in s.sessions {
      RegisteredIsNumbered(s, other);
    }
  }

  /** In every state, for every step: turns and session ids go on together, if and only if the step does not remove a
      session that a turn at work is on. */
  lemma StepKeepsPerSessionIff(s: State, step: Step)
    requires Inv(s) && PerSession(s) && Enabled(s, step)
    ensures PerSession(Next(s, step)) <==> !RemovesInUse(s, step)
  {
    hide Inv, Next, Registered;
    var next := Next(s, step);
    forall id, other | id in next.sessions && other in next.sessions && next.sessions[id] == next.sessions[other]
      ensures id == other
    {
      StaysOneIdEach(s, step, id, other);
    }
    if RemovesInUse(s, step) {
      var t :| t in s.calls && AtWork(s.calls[t]) && s.calls[t].entry == s.sessions[step.sessionId];
      RemovedIsUnregistered(s, step, t);
    } else {
      forall t | t in next.calls && AtWork(next.calls[t])
        ensures Registered(next, next.calls[t].entry)
      {
        StaysRegistered(s, step, t);
      }
    }
  }

  lemma RemovedIsUnregistered(s: State, step: Step, t: Caller)
    requires Inv(s) && OneIdEach(s) && Enabled(s, step) && step.Remove?
    requires t in s.calls && AtWork(s.calls[t]) && s.calls[t].entry == s.sessions[step.sessionId]
    ensures t in Next(s, step).calls && Next(s, step).calls[t] == s.calls[t] && !Registered(Next(s, step), s.calls[t].entry)
  {
    hide Inv;
  }

  /** Sessions are removed only while no turn at work is on them. */
  ghost predicate RunsInUseKept(s: State, steps: seq<Step>, end: State)
    requires Inv(s)
    decreases |steps|
  {
    if steps == [] then end == s
    else
      Enabled(s, steps[0]) && !RemovesInUse(s, steps[0])
      && (NextKeepsInv(s, steps[0]); RunsInUseKept(Next(s, steps[0]), steps[1..], end))
  }

  lemma {:induction false} RunsKeepPerSession(s: State, steps: seq<Step>, end: State)
    requires Inv(s) && PerSession(s) && RunsInUseKept(s, steps, end)
    ensures Inv(end) && PerSession(end)
    decreases |steps|
  {
    hide Inv, Next, Enabled, PerSession, RemovesInUse;
    if steps != [] {
      NextKeepsInv(s, steps[0]);
      StepKeepsPerSessionIff(s, steps[0]);
      RunsKeepPerSession(Next(s, steps[0]), steps[1..], end);
    }
  }

  /** Over every run that removes sessions only while no turn at work is on them, every turn at work belongs to one
      session id, and no two turns of one id are past the lock at once. */
  lemma OneTurnPerSession(cap: int, steps: seq<Step>, end: State)
    requires (InitialInv(cap); RunsInUseKept(Initial(cap), steps, end))
    ensures PerSession(end)
    ensures forall id, t, u ::
      id in end.sessions && PastLock(end, t, end.sessions[id]) && PastLock(end, u, end.sessions[id]) ==> t == u
  {
    hide Owned, Gated, Numbered, OneActive, RunsInUseKept;
    InitialInv(cap);
    RunsKeepPerSession(Initial(cap), steps, end);
    forall id, t, u | id in end.sessions && PastLock(end, t, end.sessions[id]) && PastLock(end, u, end.sessions[id])
      ensures t == u
    {
      RegisteredIsLive(end, id);
    }
  }

  /** The lock belongs to the entry, not to the session id: once a session is removed while a turn is at work on it,
      a turn on the same id can pass the lock of a new entry while one is past the lock of the old. */
  lemma RemovalLetsTwoTurnsIn(s: State, id: SessionId, u: Caller, remover: Caller)
    requires Inv(s) && id in s.sessions && InUse(s, id)
    requires u !in s.calls && remover !in s.calls && u != remover && (s.cap <= 0 || s.count < s.cap)
    ensures exists t, steps, end ::
      && Runs(s, [Remove(remover, id)] + steps, end)
      && PastLock(end, t, s.sessions[id]) && AtStage(end, u, Running) && end.calls[u].entry != s.sessions[id]
  {
    hide Inv, Runs, Next, InUse;
    var t := HolderOrNext(s, id);
    if s.calls[t].stage == Queued {
      var steps, end := QueuedRunsBeside(s, id, t, u, remover);
      assert PastLock(end, t, s.sessions[id]);
    } else {
      var a := AfterRemoval(s, id, t, u, remover);
      var end := NewcomerRunsBeside(a, id, t, u);
      RunsCons(s, Remove(remover, id), [Enter(u, id), Bind(u), Lock(u), Begin(u)], end);
      assert PastLock(end, t, s.sessions[id]);
    }
  }

  /** Of the turns at work on a session, one is past the lock, or the lock is free for one that waits. */
  lemma HolderOrNext(s: State, id: SessionId) returns (t: Caller)
    requires Inv(s) && id in s.sessions && InUse(s, id)
    ensures t in s.calls && AtWork(s.calls[t]) && s.calls[t].entry == s.sessions[id] && s.sessions[id] in s.entries
    ensures s.calls[t].stage == Queued ==> s.entries[s.sessions[id]].lockedBy.None?
  {
    hide Owned, OneActive, Gated, Numbered;
    RegisteredIsLive(s, id);
    t :| t in s.calls && AtWork(s.calls[t]) && s.calls[t].entry == s.sessions[id];
    var holder := s.entries[s.sessions[id]].lockedBy;
    if holder.Some? {
      t := holder.value;
      assert PastLock(s, t, s.sessions[id]);
    }
  }

  /** If the turn runs or holds the lock already, or is next to take it, the two can run side by side. */
  lemma RemovalLetsTwoTurnsRun(s: State, id: SessionId, t: Caller, u: Caller, remover: Caller)
    requires Inv(s) && id in s.sessions && t in s.calls && s.calls[t].Turn? && s.calls[t].entry == s.sessions[id]
    requires s.calls[t].stage in {Locked, Running} || Enabled(s, Lock(t))
    requires u !in s.calls && remover !in s.calls && u != remover && (s.cap <= 0 || s.count < s.cap)
    ensures exists steps, end ::
      && Runs(s, [Remove(remover, id)] + steps, end)
      && AtStage(end, t, Running) && AtStage(end, u, Running) && end.calls[t].entry == s.sessions[id] != end.calls[u].entry
  {
    hide Inv, Runs, Next;
    if s.calls[t].stage == Queued {
      var steps, end := QueuedRunsBeside(s, id, t, u, remover);
    } else {
      var a := AfterRemoval(s, id, t, u, remover);
      if s.calls[t].stage == Locked {
        var b := BeginsToRun(a, t, id, u);
        var end := NewcomerRunsBeside(b, id, t, u);
        RunsCons(a, Begin(t), [Enter(u, id), Bind(u), Lock(u), Begin(u)], end);
        RunsCons(s, Remove(remover, id), [Begin(t)] + [Enter(u, id), Bind(u), Lock(u), Begin(u)], end);
      } else {
        var end := NewcomerRunsBeside(a, id, t, u);
        RunsCons(s, Remove(remover, id), [Enter(u, id), Bind(u), Lock(u), Begin(u)], end);
      }
    }
  }

  lemma QueuedRunsBeside(s: State, id: SessionId, t: Caller, u: Caller, remover: Caller) returns (steps: seq<Step>, end: State)
    requires Inv(s) && id in s.sessions && t in s.calls && s.calls[t].Turn? && s.calls[t].entry == s.sessions[id]
    requires s.calls[t].stage == Queued && s.sessions[id] in s.entries && s.entries[s.sessions[id]].lockedBy.None?
    requires u !in s.calls && remover !in s.calls && u != remover && (s.cap <= 0 || s.count < s.cap)
    ensures Runs(s, [Remove(remover, id)] + steps, end)
    ensures AtStage(end, t, Running) && AtStage(end, u, Running) && end.calls[t].entry == s.sessions[id] != end.calls[u].entry
  {
    hide Inv, Runs, Next;
    var a := AfterRemoval(s, id, t, u, remover);
    var b := TakesLock(a, t, id, u);
    var c := BeginsToRun(b, t, id, u);
    end := NewcomerRunsBeside(c, id, t, u);
    var rest := [Enter(u, id), Bind(u), Lock(u), Begin(u)];
    RunsCons(b, Begin(t), rest, end);
    RunsCons(a, Lock(t), [Begin(t)] + rest, end);
    steps := [Lock(t)] + ([Begin(t)] + rest);
    RunsCons(s, Remove(remover, id), steps, end);
  }

  /** The session is gone, the turn where it was. */
  lemma AfterRemoval(s: State, id: SessionId, t: Caller, u: Caller, remover: Caller) returns (a: State)
    requires Inv(s) && id in s.sessions && t in s.calls && s.calls[t].Turn?
    requires u !in s.calls && remover !in s.calls && u != remover && (s.cap <= 0 || s.count < s.cap)
    ensures Enabled(s, Remove(remover, id)) && a == Next(s, Remove(remover, id)) && Inv(a)
    ensures id !in a.sessions && u !in a.calls && (a.cap <= 0 || a.count < a.cap)
    ensures t in a.calls && a.calls[t] == s.calls[t] && a.entries == s.entries
  {
    hide Inv;
    a := Next(s, Remove(remover, id));
    NextKeepsInv(s, Remove(remover, id));
  }

  lemma TakesLock(a: State, t: Caller, id: SessionId, u: Caller) returns (b: State)
    requires Inv(a) && Enabled(a, Lock(t)) && id !in a.sessions && u !in a.calls && (a.cap <= 0 || a.count < a.cap)
    ensures b == Next(a, Lock(t)) && Inv(b) && AtStage(b, t, Locked) && b.calls[t].entry == a.calls[t].entry
    ensures id !in b.sessions && u !in b.calls && (b.cap <= 0 || b.count < b.cap)
  {
    hide Inv;
    b := Next(a, Lock(t));
    NextKeepsInv(a, Lock(t));
  }

  lemma BeginsToRun(a: State, t: Caller, id: SessionId, u: Caller) returns (b: State)
    requires Inv(a) && Enabled(a, Begin(t)) && id !in a.sessions && u !in a.calls && (a.cap <= 0 || a.count < a.cap)
    ensures b == Next(a, Begin(t)) && Inv(b) && AtStage(b, t, Running) && b.calls[t].entry == a.calls[t].entry
    ensures id !in b.sessions && u !in b.calls && (b.cap <= 0 || b.count < b.cap)
  {
    hide Inv;
    b := Next(a, Begin(t));
    NextKeepsInv(a, Begin(t));
  }

  /** A turn on an unregistered session starts at once, whatever another turn is doing. */
  lemma NewcomerRunsBeside(a: State, id: SessionId, t: Caller, u: Caller) returns (end: State)
    requires Inv(a) && id !in a.sessions && t in a.calls && a.calls[t].Turn?
    requires u !in a.calls && (a.cap <= 0 || a.count < a.cap)
    ensures Runs(a, [Enter(u, id), Bind(u), Lock(u), Begin(u)], end)
    ensures AtStage(end, t, a.calls[t].stage) && end.calls[t].entry == a.calls[t].entry
    ensures AtStage(end, u, Running) && end.calls[u].entry != a.calls[t].entry
  {
    hide Owned, OneActive, Gated, Exclusive, Numbered, AfterBind;
    var b := Next(a, Enter(u, id));
    NextKeepsInv(a, Enter(u, id));
    CallIsLive(b, t);
    end := BindAndBegin(b, u, t);
    hide Inv, Next, Enabled;
    RunsCons(a, Enter(u, id), [Bind(u), Lock(u), Begin(u)], end);
    assert [Enter(u, id)] + [Bind(u), Lock(u), Begin(u)] == [Enter(u, id), Bind(u), Lock(u), Begin(u)];
  }

  lemma BindAndBegin(b: State, u: Caller, t: Caller) returns (end: State)
    requires Inv(b) && Enabled(b, Bind(u)) && b.calls[u].sessionId !in b.sessions
    requires t in b.calls && b.calls[t].Turn? && b.calls[t].entry in b.entries
    ensures Runs(b, [Bind(u), Lock(u), Begin(u)], end)
    ensures AtStage(end, t, b.calls[t].stage) && end.calls[t].entry == b.calls[t].entry
    ensures AtStage(end, u, Running) && end.calls[u].entry != b.calls[t].entry
  {
    hide Inv, FindOrCreate, Rebound, Snapshot, AfterBind;
    var c := Next(b, Bind(u));
    NextKeepsInv(b, Bind(u));
    SnapshotIsActive(b, u);
    FreshEntry(b, u, b.calls[t].entry);
    TurnStays(b, Bind(u), t);
    var d := Next(c, Lock(u));
    NextKeepsInv(c, Lock(u));
    TurnStays(c, Lock(u), t);
    end := Next(d, Begin(u));
    NextKeepsInv(d, Begin(u));
    TurnStays(d, Begin(u), t);
    hide Next, Enabled;
    assert Runs(end, [], end);
    RunsCons(d, Begin(u), [], end);
    RunsCons(c, Lock(u), [Begin(u)], end);
    RunsCons(b, Bind(u), [Lock(u), Begin(u)], end);
    assert [Begin(u)] + [] == [Begin(u)];
    assert [Lock(u)] + [Begin(u)] == [Lock(u), Begin(u)];
    assert [Bind(u)] + [Lock(u), Begin(u)] == [Bind(u), Lock(u), Begin(u)];
  }

  lemma RunsCons(s: State, step: Step, rest: seq<Step>, end: State)
    requires Inv(s) && Enabled(s, step)
    requires (NextKeepsInv(s, step); Runs(Next(s, step), rest, end))
    ensures Runs(s, [step] + rest, end)
  {
    hide Inv, Next, Enabled;
    assert ([step] + rest)[1..] == rest;
  }

  /** Binding an unregistered session makes an entry that no turn had before, and it is unlocked. */
  lemma FreshEntry(s: State, u: Caller, other: EntryId)
    requires Inv(s) && Enabled(s, Bind(u)) && s.calls[u].sessionId !in s.sessions && other in s.entries
    ensures var next := Next(s, Bind(u));
      next.calls[u].Turn? && next.calls[u].entry != other
      && next.calls[u].entry in next.entries && next.entries[next.calls[u].entry].lockedBy.None?
  {
    hide Tally, Owned, Gated, Exclusive, OneActive, Numbered;
    var id := s.calls[u].sessionId;
    CreateKeepsCounts(s, id);
    FindOrCreateKeepsInv(s, id);
    var found := FindOrCreate(s, id);
    RegisteredIsLive(found, id);
    ReboundKeepsInv(found, id);
    SnapshotIsActive(s, u);
  }
}
