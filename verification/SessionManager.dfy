/** SessionManager itself: the shared fields, and one method per critical section. Each method leaves the
    fields exactly as the protocol's step says, so everything proved over runs is about them. */
module Sessions {
  import opened Ids
  import opened Options
  import opened RefCounts
  import opened SessionProtocol

  lemma BindUnfolds(s: State, t: Caller)
    requires Inv(s) && Enabled(s, Bind(t))
    ensures (
      var id := s.calls[t].sessionId;
      FindOrCreateKeepsInv(s, id);
      ReboundKeepsInv(FindOrCreate(s, id), id);
      Next(s, Bind(t)) == Snapshot(Rebound(FindOrCreate(s, id), id), t, id)
      && Enabled(Rebound(FindOrCreate(s, id), id), Bind(t)))
  {
    hide Inv;
    var id := s.calls[t].sessionId;
    FindOrCreateKeepsInv(s, id);
    ReboundKeepsInv(FindOrCreate(s, id), id);
  }

  lemma CreateUnfolds(s: State, id: SessionId)
    requires Inv(s)
    ensures id in s.sessions ==> FindOrCreate(s, id) == s
    ensures s.active in s.agentRefs && EntryId(s.nextId) !in s.entryRefs
    ensures id !in s.sessions ==> (
      var e := EntryId(s.nextId);
      FindOrCreate(s, id) == s.(sessions := s.sessions[id := e], entries := s.entries[e := Entry(s.active, None, false)],
        entryRefs := Made(s.entryRefs, e), agentRefs := Shared(s.agentRefs, s.active), nextId := s.nextId + 1))
  {
    hide Owned, Gated, Exclusive;
  }

  lemma SwapUnfolds(s: State, t: Caller, newCap: int)
    requires Inv(s) && Enabled(s, Swap(t, newCap))
    ensures AgentId(s.nextId) !in s.agentRefs
    ensures Next(s, Swap(t, newCap)) == State(AgentId(s.nextId), s.draining + {s.active},
      Made(s.agentRefs, AgentId(s.nextId)), s.sessions, s.entries, s.entryRefs, s.calls[t := Parting(s.active)],
      s.count, if newCap > 0 then newCap else 0, s.nextId + 1)
  {
    hide Owned, OneActive, Gated, Exclusive;
  }

  class SessionManager {
    var agent: AgentId
    var draining: set<AgentId>
    var agentRefs: map<AgentId, nat>
    var sessions: map<SessionId, EntryId>
    var entries: map<EntryId, Entry>
    var entryRefs: map<EntryId, nat>
    var calls: map<Caller, Phase>
    var concurrentCount: int
    var maxConcurrent: int
    var nextId: nat

    ghost function View(): State
      reads this
    {
      State(agent, draining, agentRefs, sessions, entries, entryRefs, calls, concurrentCount, maxConcurrent, nextId)
    }

    ghost predicate Valid()
      reads this
    {
      Inv(View())
    }

    /** Initialize. */
    constructor (cap: int)
      ensures Valid() && View() == Initial(cap)
    {
      agent, draining, agentRefs := AgentId(0), {}, map[AgentId(0) := 1];
      sessions, entries, entryRefs, calls := map[], map[], map[], map[];
      concurrentCount, maxConcurrent, nextId := 0, cap, 1;
      InitialInv(cap);
    }

    /** Invoke, lines 574-582. */
    method EnterGate(t: Caller, id: SessionId) returns (admitted: bool)
      requires Valid() && Enabled(View(), Enter(t, id))
      modifies this
      ensures Valid() && View() == Next(old(View()), Enter(t, id))
      ensures admitted <==> calls[t] == Admitted(id)
    {
      hide Owned, OneActive, Gated, Exclusive, Numbered;
      NextKeepsInv(View(), Enter(t, id));
      if maxConcurrent > 0 && concurrentCount >= maxConcurrent {
        calls := calls[t := Waiting(id, false)];
        return false;
      }
      concurrentCount := concurrentCount + 1;
      calls := calls[t := Admitted(id)];
      return true;
    }

    /** The condition variable lets a sleeper look again. */
    method WakeSleeper(t: Caller) returns (admitted: bool)
      requires Valid() && Enabled(View(), Wake(t))
      modifies this
      ensures Valid() && View() == Next(old(View()), Wake(t))
      ensures admitted <==> calls[t].Admitted?
    {
      hide Owned, OneActive, Gated, Exclusive, Numbered;
      NextKeepsInv(View(), Wake(t));
      var id := calls[t].sessionId;
      admitted := concurrentCount < maxConcurrent;
      if admitted {
        concurrentCount := concurrentCount + 1;
        calls := calls[t := Admitted(id)];
      } else {
        calls := calls[t := Waiting(id, false)];
      }
    }

    method FindOrCreateEntry(id: SessionId) returns (entry: EntryId)
      requires Valid()
      modifies this
      ensures Valid() && View() == FindOrCreate(old(View()), id)
      ensures id in sessions && entry == sessions[id] && entry in entries
    {
      hide Owned, OneActive, Gated, Exclusive, Numbered, CountOf, FindOrCreate;
      FindOrCreateKeepsInv(View(), id);
      CreateUnfolds(View(), id);
      ghost var next := FindOrCreate(View(), id);
      RegisteredIsLive(next, id);
      if id in sessions {
        return sessions[id];
      }
      entry := EntryId(nextId);
      nextId := nextId + 1;
      agentRefs := Shared(agentRefs, agent);
      entries := entries[entry := Entry(agent, None, false)];
      entryRefs := Made(entryRefs, entry);
      sessions := sessions[id := entry];
      assert View() == next;
    }

    /** Lines 606-608. */
    method RebindIfDraining(id: SessionId)
      requires Valid() && id in sessions
      modifies this
      ensures Valid() && View() == Rebound(old(View()), id)
    {
      RegisteredIsLive(View(), id);
      ReboundKeepsInv(View(), id);
      ghost var next := Rebound(View(), id);
      var entry := sessions[id];
      var was := entries[entry].agent;
      if was in draining {
        agentRefs := Dropped(Shared(agentRefs, agent), was);
        entries := entries[entry := entries[entry].(agent := agent)];
      }
      assert View() == next;
    }

    /** Lines 605 and 609. */
    method CopyPointers(t: Caller, id: SessionId)
      requires Valid() && id in sessions && Enabled(View(), Bind(t))
      modifies this
      ensures Valid() && View() == Snapshot(old(View()), t, id)
    {
      SnapshotKeepsInv(View(), t, id);
      RegisteredIsLive(View(), id);
      ghost var next := Snapshot(View(), t, id);
      hide Inv, CountOf;
      var entry := sessions[id];
      calls := calls[t := Turn(Queued, entry, entries[entry].agent)];
      entryRefs := Shared(entryRefs, entry);
      agentRefs := Shared(agentRefs, entries[entry].agent);
      assert View() == next;
    }

    /** Invoke, lines 600-610. */
    method TakeSnapshot(t: Caller)
      requires Valid() && Enabled(View(), Bind(t))
      modifies this
      ensures Valid() && View() == Next(old(View()), Bind(t))
    {
      hide Owned, OneActive, Gated, Exclusive, Numbered, Next, Snapshot;
      BindUnfolds(View(), t);
      var id := calls[t].sessionId;
      var entry := FindOrCreateEntry(id);
      RebindIfDraining(id);
      CopyPointers(t, id);
    }

    /** Line 625. */
    method LockEntry(t: Caller)
      requires Valid() && Enabled(View(), Lock(t))
      modifies this
      ensures Valid() && View() == Next(old(View()), Lock(t))
    {
      hide Owned, OneActive, Gated, Exclusive, Numbered;
      NextKeepsInv(View(), Lock(t));
      var entry := calls[t].entry;
      entries := entries[entry := entries[entry].(lockedBy := Some(t))];
      calls := calls[t := calls[t].(stage := Locked)];
    }

    /** Line 626. */
    method BeginTurn(t: Caller)
      requires Valid() && Enabled(View(), Begin(t))
      modifies this
      ensures Valid() && View() == Next(old(View()), Begin(t))
    {
      hide Owned, OneActive, Gated, Exclusive, Numbered;
      NextKeepsInv(View(), Begin(t));
      CallIsLive(View(), t);
      var entry := calls[t].entry;
      entries := entries[entry := entries[entry].(isBusy := true)];
      calls := calls[t := calls[t].(stage := Running)];
    }

    /** Line 642, and line 632 when the agent throws. */
    method EndTurn(t: Caller)
      requires Valid() && Enabled(View(), End(t))
      modifies this
      ensures Valid() && View() == Next(old(View()), End(t))
    {
      hide Owned, OneActive, Gated, Exclusive, Numbered;
      NextKeepsInv(View(), End(t));
      CallIsLive(View(), t);
      var entry := calls[t].entry;
      entries := entries[entry := entries[entry].(isBusy := false)];
      calls := calls[t := calls[t].(stage := Ended)];
    }

    /** releaseGate, lines 584-588. */
    method ReleaseGate(t: Caller)
      requires Valid() && Enabled(View(), Release(t))
      modifies this
      ensures Valid() && View() == Next(old(View()), Release(t))
    {
      hide Owned, OneActive, Gated, Exclusive, Numbered;
      NextKeepsInv(View(), Release(t));
      if concurrentCount > 0 {
        concurrentCount := concurrentCount - 1;
      }
      calls := map u | u in calls ::
        if calls[u].Waiting? then Waiting(calls[u].sessionId, true)
        else if u == t then calls[t].(stage := Released)
        else calls[u];
    }

    method UnlockEntry(t: Caller)
      requires Valid() && Enabled(View(), Unlock(t))
      modifies this
      ensures Valid() && View() == Next(old(View()), Unlock(t))
    {
      hide Owned, OneActive, Gated, Exclusive, Numbered;
      NextKeepsInv(View(), Unlock(t));
      CallIsLive(View(), t);
      var entry := calls[t].entry;
      entries := entries[entry := entries[entry].(lockedBy := None)];
      calls := calls[t := calls[t].(stage := Unlocked)];
    }

    /** The destructor of an owning pointer to an entry. */
    method DropEntry(entry: EntryId)
      requires OwnedBut(View(), entry)
      modifies this`agentRefs, this`entryRefs, this`entries
      ensures View() == WithoutEntryOwner(old(View()), entry)
    {
      StillThere(View(), entry);
      if entryRefs[entry] == 1 {
        agentRefs := Dropped(agentRefs, entries[entry].agent);
        entries := entries - {entry};
      }
      entryRefs := Dropped(entryRefs, entry);
    }

    /** The end of Invoke: its entry pointer goes. */
    method LeaveTurn(t: Caller)
      requires Valid() && Enabled(View(), Return(t))
      modifies this
      ensures Valid() && View() == Next(old(View()), Return(t))
    {
      hide Owned, OneActive, Gated, Exclusive, Numbered;
      NextKeepsInv(View(), Return(t));
      var entry := calls[t].entry;
      LeavesEntry(View(), t, View().(calls := calls[t := Parting(calls[t].agent)]));
      calls := calls[t := Parting(calls[t].agent)];
      DropEntry(entry);
    }

    /** The end of Invoke and of ReloadAgent: the agent pointer goes. */
    method DropAgent(t: Caller)
      requires Valid() && Enabled(View(), Part(t))
      modifies this
      ensures Valid() && View() == Next(old(View()), Part(t))
    {
      hide Owned, OneActive, Gated, Exclusive, Numbered;
      NextKeepsInv(View(), Part(t));
      CallIsLive(View(), t);
      agentRefs := Dropped(agentRefs, calls[t].agent);
      calls := calls - {t};
    }

    /** RemoveSession, lines 810-823. */
    method RemoveSession(t: Caller, id: SessionId)
      requires Valid() && Enabled(View(), Remove(t, id))
      modifies this
      ensures Valid() && View() == Next(old(View()), Remove(t, id))
    {
      hide Owned, OneActive, Gated, Exclusive, Numbered;
      NextKeepsInv(View(), Remove(t, id));
      calls := calls[t := Removing(sessions[id])];
      sessions := sessions - {id};
    }

    /** Line 864. */
    method BorrowAgent(t: Caller)
      requires Valid() && Enabled(View(), Borrow(t))
      modifies this
      ensures Valid() && View() == Next(old(View()), Borrow(t))
    {
      hide Owned, OneActive, Gated, Exclusive, Numbered;
      NextKeepsInv(View(), Borrow(t));
      CallIsLive(View(), t);
      var entry := calls[t].removed;
      agentRefs := Shared(agentRefs, entries[entry].agent);
      calls := calls[t := Cleaning(entry, entries[entry].agent)];
    }

    /** Lines 867-870. */
    method BorrowActiveAgent(t: Caller)
      requires Valid() && Enabled(View(), BorrowActive(t))
      modifies this
      ensures Valid() && View() == Next(old(View()), BorrowActive(t))
    {
      hide Owned, Gated, Exclusive, Numbered;
      NextKeepsInv(View(), BorrowActive(t));
      agentRefs := Shared(agentRefs, agent);
      calls := calls[t := Parting(agent)];
    }

    method GiveAgentBack(t: Caller)
      requires Valid() && Enabled(View(), GiveBack(t))
      modifies this
      ensures Valid() && View() == Next(old(View()), GiveBack(t))
    {
      hide Owned, OneActive, Gated, Exclusive, Numbered;
      NextKeepsInv(View(), GiveBack(t));
      CallIsLive(View(), t);
      agentRefs := Dropped(agentRefs, calls[t].agent);
      calls := calls[t := Leaving(calls[t].removed)];
    }

    method FinishRemoval(t: Caller)
      requires Valid() && Enabled(View(), FinishRemove(t))
      modifies this
      ensures Valid() && View() == Next(old(View()), FinishRemove(t))
    {
      hide Owned, OneActive, Gated, Exclusive, Numbered;
      NextKeepsInv(View(), FinishRemove(t));
      var entry := calls[t].removed;
      LeavesEntry(View(), t, View().(calls := calls - {t}));
      calls := calls - {t};
      DropEntry(entry);
    }

    /** ReloadAgent, lines 1060-1077. */
    method ReloadAgent(t: Caller, newCap: int)
      requires Valid() && Enabled(View(), Swap(t, newCap))
      modifies this
      ensures Valid() && View() == Next(old(View()), Swap(t, newCap))
    {
      hide Owned, OneActive, Gated, Exclusive, Numbered, CountOf, Next;
      NextKeepsInv(View(), Swap(t, newCap));
      ghost var next := Next(View(), Swap(t, newCap));
      SwapUnfolds(View(), t, newCap);
      var newAgent := AgentId(nextId);
      nextId := nextId + 1;
      agentRefs := Made(agentRefs, newAgent);
      if newCap > 0 {
        maxConcurrent := newCap;
      } else {
        maxConcurrent := 0;
      }
      calls := calls[t := Parting(agent)];
      draining := draining + {agent};
      agent := newAgent;
      assert View() == next;
    }
  }
}
