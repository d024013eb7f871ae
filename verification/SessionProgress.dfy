/** When do the calls under way come to their end? Exactly when nobody sleeps at the gate, or the cap is on and
    somebody inside or already signaled will see to the sleepers. What breaks that is a reload. */
module SessionProgress {
  import opened Ids
  import opened Options
  import opened RefCounts
  import opened SessionProtocol
  import opened SessionGuarantees

  /** A sleeper no notify has reached leaves somebody inside, whose release will. */
  ghost predicate Roused(s: State) {
    forall t <- s.calls :: s.calls[t].Waiting? && !s.calls[t].signaled ==> s.count > 0
  }

  predicate CapStaysOn(step: Step) {
    step.Swap? ==> step.newCap > 0
  }

  lemma NoWakeupIsLost(s: State, step: Step)
    requires Inv(s) && Enabled(s, step) && s.cap > 0 && Roused(s) && CapStaysOn(step)
    ensures Next(s, step).cap > 0 && Roused(Next(s, step))
  {
    hide Inv, AfterBind, AfterReturn, AfterFinishRemove;
    HardMoves(s, step);
    if step.Bind? {
      SnapshotIsActive(s, step.caller);
    }
  }

  lemma {:induction false} NoWakeupIsLostInRuns(s: State, steps: seq<Step>, end: State)
    requires Inv(s) && Runs(s, steps, end) && s.cap > 0 && Roused(s)
    requires forall step <- steps :: CapStaysOn(step)
    ensures end.cap > 0 && Roused(end)
    decreases |steps|
  {
    hide Next, Enabled, Inv, Roused;
    if steps != [] {
      NextKeepsInv(s, steps[0]);
      NoWakeupIsLost(s, steps[0]);
      NoWakeupIsLostInRuns(Next(s, steps[0]), steps[1..], end);
    }
  }

  /** The steps that threads already inside take on their own. A wake counts if it was called for and admits. */
  predicate Prompted(s: State, step: Step) {
    && Enabled(s, step)
    && !step.Enter? && !step.Open? && !step.Remove? && !step.BorrowActive? && !step.Swap?
    && (step.Wake? ==> s.calls[step.caller].signaled && s.count < s.cap)
  }

  predicate Asleep(s: State, t: Caller) {
    t in s.calls && s.calls[t].Waiting?
  }

  /** Nobody sleeps, or the cap is on and a wakeup has come or must come. A cap of 0 or less is off. */
  ghost predicate CanDrain(s: State) {
    || (forall t :: !Asleep(s, t))
    || (s.cap > 0 && (s.count > 0 || exists t :: Asleep(s, t) && s.calls[t].signaled))
  }

  /** While any call is unfinished, some thread can take a useful step. */
  lemma SomeStepIsPrompted(s: State) returns (step: Step)
    requires Inv(s) && CanDrain(s) && s.calls != map[]
    ensures Prompted(s, step)
  {
    hide Owned, Numbered, OneActive, Tally;
    if t :| t in s.calls && !s.calls[t].Waiting? {
      step := OwnStep(s, t);
    } else {
      assert Pointing(s.calls, Presence, ()) == {};
      assert s.count == 0 by {
        NobodyInside(s);
      }
      assert (forall t :: t !in s.calls) ==> s.calls == map[];
      var any :| any in s.calls;
      assert Asleep(s, any);
      var t :| Asleep(s, t) && s.calls[t].signaled;
      step := Wake(t);
    }
  }

  lemma NobodyInside(s: State)
    requires Gated(s) && Pointing(s.calls, Presence, ()) == {}
    ensures s.count == 0
  {
  }

  /** A call that is not asleep can go on, or the holder of the lock it queues for can. */
  lemma OwnStep(s: State, t: Caller) returns (step: Step)
    requires Inv(s) && t in s.calls && !s.calls[t].Waiting?
    ensures Prompted(s, step)
  {
    hide Owned, Gated, Numbered, OneActive;
    CallIsLive(s, t);
    match s.calls[t]
    case Admitted(_) => step := Bind(t);
    case Parting(_) => step := Part(t);
    case Removing(_) => step := Borrow(t);
    case Cleaning(_, _) => step := GiveBack(t);
    case Leaving(_) => step := FinishRemove(t);
    case Turn(stage, e, _) =>
      if stage != Queued {
        step := StageStep(s, t);
      } else if s.entries[e].lockedBy.None? {
        step := Lock(t);
      } else {
        assert PastLock(s, s.entries[e].lockedBy.value, e);
        step := StageStep(s, s.entries[e].lockedBy.value);
      }
  }

  lemma StageStep(s: State, t: Caller) returns (step: Step)
    requires t in s.calls && s.calls[t].Turn? && s.calls[t].stage != Queued
    ensures Prompted(s, step)
  {
    match s.calls[t].stage
    case Locked => step := Begin(t);
    case Running => step := End(t);
    case Ended => step := Release(t);
    case Released => step := Unlock(t);
    case Unlocked => step := Return(t);
  }

  // ---------- Every call comes to its end ----------

  /** How many steps a call still has to take. */
  function StepsLeft(p: Phase): nat {
    match p
    case Waiting(_, _) => 9
    case Admitted(_) => 8
    case Turn(stage, _, _) => 7 - Rank(stage)
    case Removing(_) => 3
    case Cleaning(_, _) => 2
    case Leaving(_) => 1
    case Parting(_) => 1
  }

  ghost function Work(calls: map<Caller, Phase>): nat {
    if calls == map[] then 0
    else
      assert (forall t :: t !in calls) ==> calls == map[];
      var t :| t in calls;
      StepsLeft(calls[t]) + Work(calls - {t})
  }

  lemma {:induction false} WorkWithout(calls: map<Caller, Phase>, t: Caller)
    requires t in calls
    ensures Work(calls) == StepsLeft(calls[t]) + Work(calls - {t})
    decreases |calls|
  {
    assert (forall u :: u !in calls) ==> calls == map[];
    var u :| u in calls && Work(calls) == StepsLeft(calls[u]) + Work(calls - {u});
    if u != t {
      WorkWithout(calls - {u}, t);
      WorkWithout(calls - {t}, u);
      assert calls - {u} - {t} == calls - {t} - {u};
    }
  }

  lemma WorkSet(calls: map<Caller, Phase>, t: Caller, p: Phase)
    requires t in calls
    ensures Work(calls[t := p]) - StepsLeft(p) == Work(calls) - StepsLeft(calls[t])
  {
    hide StepsLeft;
    WorkWithout(calls, t);
    WorkWithout(calls[t := p], t);
    assert calls[t := p] - {t} == calls - {t};
  }

  lemma {:induction false} WorkSame(calls: map<Caller, Phase>, other: map<Caller, Phase>)
    requires calls.Keys == other.Keys && forall t <- calls :: StepsLeft(calls[t]) == StepsLeft(other[t])
    ensures Work(calls) == Work(other)
    decreases |calls|
  {
    if calls == map[] {
      assert other == map[];
    } else {
      assert (forall t :: t !in calls) ==> calls == map[];
      var t :| t in calls;
      WorkWithout(calls, t);
      WorkWithout(other, t);
      WorkSame(calls - {t}, other - {t});
    }
  }

  lemma ReleaseWork(s: State, t: Caller)
    requires Enabled(s, Release(t))
    ensures Work(AfterRelease(s, t).calls) == Work(s.calls) - 1
  {
    hide Work;
    var p := s.calls[t].(stage := Released);
    WorkSet(s.calls, t, p);
    WorkSame(s.calls[t := p], AfterRelease(s, t).calls);
  }

  /** A prompted step brings its caller one step nearer to its end; only a release touches other rows. */
  lemma PromptedAdvances(s: State, step: Step)
    requires Inv(s) && Prompted(s, step) && !step.Release?
    ensures var t, calls := step.caller, Next(s, step).calls;
      if t in calls then calls == s.calls[t := calls[t]] && StepsLeft(calls[t]) == StepsLeft(s.calls[t]) - 1
      else calls == s.calls - {t} && StepsLeft(s.calls[t]) == 1
  {
    hide Inv, AfterBind, AfterReturn, AfterFinishRemove;
    HardMoves(s, step);
    if step.Bind? {
      SnapshotIsActive(s, step.caller);
    }
  }

  /** A prompted step uses up one unit of somebody's work. */
  lemma PromptedWorks(s: State, step: Step)
    requires Inv(s) && Prompted(s, step)
    ensures Work(Next(s, step).calls) == Work(s.calls) - 1
  {
    var t := step.caller;
    assert t in s.calls;
    if step.Release? {
      ReleaseWork(s, t);
    } else {
      PromptedAdvances(s, step);
      hide Inv, Next, Work, Prompted, Enabled, StepsLeft;
      if t in Next(s, step).calls {
        WorkSet(s.calls, t, Next(s, step).calls[t]);
      } else {
        WorkWithout(s.calls, t);
      }
    }
  }

  ghost predicate PromptedRun(s: State, steps: seq<Step>, end: State)
    requires Inv(s)
    decreases |steps|
  {
    if steps == [] then end == s
    else
      Prompted(s, steps[0]) &&
      (NextKeepsInv(s, steps[0]);
       PromptedRun(Next(s, steps[0]), steps[1..], end))
  }

  /** However the threads inside are scheduled, their steps run out after exactly the work there was. */
  lemma {:induction false} PromptedRunsEnd(s: State, steps: seq<Step>, end: State)
    requires Inv(s) && PromptedRun(s, steps, end)
    ensures Work(end.calls) == Work(s.calls) - |steps|
    decreases |steps|
  {
    hide Next, Enabled, Inv, Work;
    if steps != [] {
      NextKeepsInv(s, steps[0]);
      PromptedWorks(s, steps[0]);
      PromptedRunsEnd(Next(s, steps[0]), steps[1..], end);
    }
  }

  // ---------- Exactly when ----------

  /** How a step on its own moves the sleepers: nobody falls asleep, and only a release signals. */
  lemma SleepersMove(s: State, step: Step, t: Caller)
    requires Inv(s) && Prompted(s, step)
    ensures Asleep(Next(s, step), t) <==> Asleep(s, t) && step != Wake(t)
    ensures Asleep(Next(s, step), t) ==> Next(s, step).calls[t].signaled == (s.calls[t].signaled || step.Release?)
  {
    hide Inv, AfterBind, AfterReturn, AfterFinishRemove;
    HardMoves(s, step);
    if step.Bind? {
      SnapshotIsActive(s, step.caller);
    }
  }

  /** And how it moves the gate. */
  lemma GateMoves(s: State, step: Step)
    requires Inv(s) && Prompted(s, step)
    ensures Next(s, step).cap == s.cap
    ensures Next(s, step).count == s.count + (if step.Wake? then 1 else if step.Release? then -1 else 0) >= 0
  {
    hide Owned, OneActive, Exclusive, Numbered, Tally, AfterBind, AfterReturn, AfterFinishRemove;
    HardMoves(s, step);
    if step.Release? {
      TallyHas(s.calls, Presence, step.caller, ());
    }
  }

  /** Neither being able to end nor being stuck is changed by the threads' own steps. */
  lemma DrainingIsDecided(s: State, step: Step)
    requires Inv(s) && Prompted(s, step)
    ensures CanDrain(Next(s, step)) <==> CanDrain(s)
  {
    hide Owned, OneActive, Exclusive, Numbered, Tally, Next;
    var next := Next(s, step);
    GateMoves(s, step);
    forall t
      ensures Asleep(next, t) <==> Asleep(s, t) && step != Wake(t)
      ensures Asleep(next, t) ==> next.calls[t].signaled == (s.calls[t].signaled || step.Release?)
    {
      SleepersMove(s, step, t);
    }
    if step.Wake? {
      assert Asleep(s, step.caller) && s.calls[step.caller].signaled;
    } else if step.Release? {
      assert s.cap > 0 ==> CanDrain(s);
      if t :| Asleep(next, t) {
        assert next.calls[t].signaled;
      }
    }
  }

  /** A scheduler that keeps choosing useful steps gets every call home. */
  lemma {:induction false} EveryCallReturns(s: State) returns (steps: seq<Step>, end: State)
    requires Inv(s) && CanDrain(s)
    ensures PromptedRun(s, steps, end) && end.calls == map[] && end.count == 0
    decreases Work(s.calls)
  {
    hide Next, Work, Enabled, CanDrain, Owned, OneActive, Exclusive, Numbered;
    if s.calls == map[] {
      steps, end := [], s;
      assert Pointing(s.calls, Presence, ()) == {};
      NobodyInside(s);
    } else {
      var step := SomeStepIsPrompted(s);
      NextKeepsInv(s, step);
      DrainingIsDecided(s, step);
      PromptedWorks(s, step);
      var rest;
      rest, end := EveryCallReturns(Next(s, step));
      steps := [step] + rest;
      assert steps[1..] == rest;
    }
  }

  lemma {:induction false} RunsAreDecided(s: State, steps: seq<Step>, end: State)
    requires Inv(s) && PromptedRun(s, steps, end)
    ensures CanDrain(end) <==> CanDrain(s)
    decreases |steps|
  {
    hide Next, Enabled, CanDrain, Inv;
    if steps != [] {
      NextKeepsInv(s, steps[0]);
      DrainingIsDecided(s, steps[0]);
      RunsAreDecided(Next(s, steps[0]), steps[1..], end);
    }
  }

  /** For every state and every cap, off ones included: the threads inside can bring every call to its end just
      when nobody sleeps at the gate, or the cap is on and somebody is inside or some sleeper is signaled. */
  lemma CallsReturnIff(s: State)
    requires Inv(s)
    ensures (exists steps, end :: PromptedRun(s, steps, end) && end.calls == map[]) <==> CanDrain(s)
  {
    hide Inv, PromptedRun;
    forall steps, end | PromptedRun(s, steps, end) && end.calls == map[]
      ensures CanDrain(s)
    {
      RunsAreDecided(s, steps, end);
    }
    if CanDrain(s) {
      var steps, end := EveryCallReturns(s);
    }
  }

  /** Under caps that stay positive, from any state where nobody sleeps, no sleeper is ever forgotten. */
  lemma PositiveCapsDrain(s: State, steps: seq<Step>, end: State)
    requires Inv(s) && Runs(s, steps, end) && s.cap > 0 && forall t :: !Asleep(s, t)
    requires forall step <- steps :: CapStaysOn(step)
    ensures Inv(end) && CanDrain(end)
  {
    hide Inv, Runs;
    assert forall t <- s.calls :: !Asleep(s, t);
    RunsKeepInv(s, steps, end);
    NoWakeupIsLostInRuns(s, steps, end);
    assert forall t :: Asleep(end, t) && !end.calls[t].signaled ==> end.count > 0;
  }

  lemma OffStep(s: State, step: Step, t: Caller)
    requires Inv(s) && Enabled(s, step) && s.cap <= 0 && forall u :: !Asleep(s, u)
    ensures !Asleep(Next(s, step), t)
  {
    hide Inv, AfterBind, AfterReturn, AfterFinishRemove;
    assert !Asleep(s, t) && (step.Wake? ==> Asleep(s, step.caller));
    HardMoves(s, step);
    if step.Bind? {
      SnapshotIsActive(s, step.caller);
    }
  }

  /** With the cap off from the start, nobody ever sleeps, so every call can always return. */
  lemma {:induction false} UnlimitedNeverSleeps(s: State, steps: seq<Step>, end: State)
    requires Inv(s) && Runs(s, steps, end) && s.cap <= 0 && forall t :: !Asleep(s, t)
    requires forall step <- steps :: step.Swap? ==> step.newCap <= 0
    ensures CanDrain(end) && forall t :: !Asleep(end, t)
    decreases |steps|
  {
    hide Next, Enabled, Inv, Asleep;
    if steps != [] {
      assert steps[0] in steps && forall step <- steps[1..] :: step in steps;
      NextKeepsInv(s, steps[0]);
      GateStep(s, steps[0]);
      forall t
        ensures !Asleep(Next(s, steps[0]), t)
      {
        OffStep(s, steps[0], t);
      }
      UnlimitedNeverSleeps(Next(s, steps[0]), steps[1..], end);
    }
  }

  // ---------- What a reload strands ----------

  /** After a reload the calls can return just when nobody slept before it, or the new cap is positive and somebody
      is inside or some sleeper is signaled: the reload itself notifies nobody. */
  lemma ReloadStrandsIff(s: State, r: Caller, newCap: int)
    requires Inv(s) && r !in s.calls
    ensures CanDrain(Next(s, Swap(r, newCap))) <==>
      || (forall t :: !Asleep(s, t))
      || (newCap > 0 && (s.count > 0 || exists t :: Asleep(s, t) && s.calls[t].signaled))
  {
    hide Inv;
    var next := Next(s, Swap(r, newCap));
    assert forall t :: Asleep(next, t) <==> Asleep(s, t);
    assert forall t :: Asleep(next, t) ==> next.calls[t] == s.calls[t];
  }

  /** One call sleeps, the gate is empty and off, and the sleeper has been signaled. */
  ghost predicate LoneSleeper(s: State, u: Caller) {
    && s.count == 0 && s.cap == 0 && u in s.calls && s.calls[u].Waiting?
    && forall v :: Asleep(s, v) ==> v == u
  }

  /** A call comes to the full gate and goes to sleep. */
  lemma SleepAtGate(s: State, t: Caller, u: Caller, id: SessionId)
    requires Inv(s) && s.cap == s.count == 1 && AtStage(s, t, Ended) && (forall v :: !Asleep(s, v)) && u !in s.calls
    ensures Enabled(s, Enter(u, id)) && Inv(Next(s, Enter(u, id)))
    ensures var a := Next(s, Enter(u, id));
      && a.count == 1 && a.calls.Keys == s.calls.Keys + {u} && AtStage(a, t, Ended)
      && Asleep(a, u) && forall v :: Asleep(a, v) ==> v == u
  {
    hide Owned, OneActive, Gated, Exclusive, Numbered;
    NextKeepsInv(s, Enter(u, id));
    assert forall v :: Asleep(Next(s, Enter(u, id)), v) ==> Asleep(s, v) || v == u;
  }

  /** A reload switches the cap off. */
  lemma OffOverSleeper(s: State, t: Caller, u: Caller, r: Caller)
    requires Inv(s) && s.count == 1 && AtStage(s, t, Ended) && r !in s.calls
    requires Asleep(s, u) && forall v :: Asleep(s, v) ==> v == u
    ensures Enabled(s, Swap(r, 0)) && Inv(Next(s, Swap(r, 0)))
    ensures var b := Next(s, Swap(r, 0));
      && b.count == 1 && b.cap == 0 && b.calls.Keys == s.calls.Keys + {r} && AtStage(b, t, Ended)
      && Asleep(b, u) && forall v :: Asleep(b, v) ==> v == u
  {
    hide Owned, OneActive, Gated, Exclusive, Numbered;
    NextKeepsInv(s, Swap(r, 0));
    assert forall v :: Asleep(Next(s, Swap(r, 0)), v) ==> Asleep(s, v);
  }

  /** The one call inside leaves. */
  lemma LastOneLeaves(s: State, t: Caller, u: Caller)
    requires Inv(s) && s.count == 1 && s.cap == 0 && AtStage(s, t, Ended)
    requires Asleep(s, u) && forall v :: Asleep(s, v) ==> v == u
    ensures Enabled(s, Release(t)) && Inv(Next(s, Release(t)))
    ensures LoneSleeper(Next(s, Release(t)), u) && Next(s, Release(t)).calls.Keys == s.calls.Keys
  {
    hide Owned, OneActive, Gated, Exclusive, Numbered;
    NextKeepsInv(s, Release(t));
    assert forall v :: Asleep(Next(s, Release(t)), v) ==> Asleep(s, v);
  }

  /** The cap is switched off over a sleeper, and the one call inside leaves. */
  lemma OffWhileAsleep(s: State, t: Caller, u: Caller, r: Caller, id: SessionId) returns (end: State)
    requires Inv(s) && s.cap == s.count == 1 && AtStage(s, t, Ended) && (forall v :: !Asleep(s, v))
    requires u !in s.calls && r !in s.calls && u != r
    ensures Runs(s, [Enter(u, id), Swap(r, 0), Release(t)], end)
    ensures Inv(end) && LoneSleeper(end, u) && end.calls.Keys == s.calls.Keys + {u, r}
  {
    hide Inv, Runs, Next, Enabled, LoneSleeper, AtStage, Asleep;
    SleepAtGate(s, t, u, id);
    var a := Next(s, Enter(u, id));
    OffOverSleeper(a, t, u, r);
    var b := Next(a, Swap(r, 0));
    LastOneLeaves(b, t, u);
    end := Next(b, Release(t));
    RunsNothing(end);
    assert [Release(t)] + [] == [Release(t)];
    RunsCons(b, Release(t), [], end);
    assert [Swap(r, 0)] + [Release(t)] == [Swap(r, 0), Release(t)];
    RunsCons(a, Swap(r, 0), [Release(t)], end);
    assert [Enter(u, id)] + [Swap(r, 0), Release(t)] == [Enter(u, id), Swap(r, 0), Release(t)];
    RunsCons(s, Enter(u, id), [Swap(r, 0), Release(t)], end);
  }

  /** The sleeper looks, finds the count not below 0, sleeps again, and the cap is switched on. */
  lemma OnAgain(s: State, u: Caller, q: Caller, newCap: int) returns (end: State)
    requires Inv(s) && LoneSleeper(s, u) && q !in s.calls && newCap > 0
    ensures Runs(s, [Wake(u), Swap(q, newCap)], end)
    ensures Asleep(end, u) && end.cap == newCap && end.count == 0 && !CanDrain(end)
  {
    hide Owned, OneActive, Gated, Exclusive, Numbered, Runs;
    var a := Next(s, Wake(u));
    NextKeepsInv(s, Wake(u));
    assert forall v :: Asleep(a, v) ==> Asleep(s, v);
    end := Next(a, Swap(q, newCap));
    NextKeepsInv(a, Swap(q, newCap));
    assert forall v :: Asleep(end, v) ==> Asleep(a, v);
    assert Asleep(end, u);
    RunsNothing(end);
    assert [Swap(q, newCap)] + [] == [Swap(q, newCap)];
    RunsCons(a, Swap(q, newCap), [], end);
    assert [Wake(u)] + [Swap(q, newCap)] == [Wake(u), Swap(q, newCap)];
    RunsCons(s, Wake(u), [Swap(q, newCap)], end);
  }

  /** A sleeper can be left behind under a positive cap and an empty gate: the cap is switched off, the one call
      inside leaves, the sleeper looks and sleeps again, and the cap is switched on again. */
  lemma OffAndOnAgainStrands(s: State, t: Caller, u: Caller, r: Caller, q: Caller, id: SessionId, newCap: int)
    requires Inv(s) && s.cap == s.count == 1 && AtStage(s, t, Ended) && (forall v :: !Asleep(s, v))
    requires u !in s.calls && r !in s.calls && q !in s.calls && u != r && u != q && r != q && newCap > 0
    ensures exists end ::
      && Runs(s, [Enter(u, id), Swap(r, 0), Release(t)] + [Wake(u), Swap(q, newCap)], end)
      && Asleep(end, u) && end.cap == newCap > 0 && end.count == 0 && !CanDrain(end)
  {
    hide Inv, Runs, Next, LoneSleeper, CanDrain;
    var off := OffWhileAsleep(s, t, u, r, id);
    var end := OnAgain(off, u, q, newCap);
    RunsJoin(s, [Enter(u, id), Swap(r, 0), Release(t)], off, [Wake(u), Swap(q, newCap)], end);
  }

  lemma {:induction false} RunsJoin(s: State, steps: seq<Step>, middle: State, more: seq<Step>, end: State)
    requires Inv(s) && Runs(s, steps, middle) && Inv(middle) && Runs(middle, more, end)
    ensures Runs(s, steps + more, end)
    decreases |steps|
  {
    hide Inv, Next, Enabled;
    if steps == [] {
      assert steps + more == more;
    } else {
      NextKeepsInv(s, steps[0]);
      RunsJoin(Next(s, steps[0]), steps[1..], middle, more, end);
      assert (steps + more)[1..] == steps[1..] + more;
    }
  }

  lemma RunsNothing(s: State)
    requires Inv(s)
    ensures Runs(s, [], s)
  {
    hide Inv;
  }

  // ---------- The cap switched off ----------

  lemma StrandedStep(s: State, step: Step, t: Caller)
    requires Inv(s) && Enabled(s, step) && s.cap == 0 && t in s.calls && s.calls[t].Waiting?
    requires step.Swap? ==> step.newCap <= 0
    ensures var next := Next(s, step); next.cap == 0 && t in next.calls && next.calls[t].Waiting?
  {
    hide Owned, OneActive, Exclusive, Numbered, AfterBind, AfterReturn, AfterFinishRemove;
    GateStep(s, step);
    if Mover(step) != Some(t) {
      OthersStay(s, step, t);
    }
  }

  /** The wait compares with the cap even when the cap is off: a call that fell asleep under a positive cap
      sleeps on, notified or not, for as long as reloads keep the cap off. */
  lemma {:induction false} CapOffStrandsSleepers(s: State, steps: seq<Step>, end: State, t: Caller)
    requires Inv(s) && Runs(s, steps, end) && s.cap == 0 && t in s.calls && s.calls[t].Waiting?
    requires forall step <- steps :: step.Swap? ==> step.newCap <= 0
    ensures t in end.calls && end.calls[t].Waiting?
    decreases |steps|
  {
    hide Next, Enabled, Inv;
    if steps != [] {
      NextKeepsInv(s, steps[0]);
      StrandedStep(s, steps[0], t);
      CapOffStrandsSleepers(Next(s, steps[0]), steps[1..], end, t);
    }
  }

  /** A reload that turns the cap off strands whoever is asleep at that moment. */
  lemma ReloadCanStrand(s: State, r: Caller, newCap: int, steps: seq<Step>, end: State, t: Caller)
    requires Inv(s) && t in s.calls && s.calls[t].Waiting? && r !in s.calls && newCap <= 0
    requires Runs(s, [Swap(r, newCap)] + steps, end) && forall step <- steps :: step.Swap? ==> step.newCap <= 0
    ensures t in end.calls && end.calls[t].Waiting?
  {
    NextKeepsInv(s, Swap(r, newCap));
    assert ([Swap(r, newCap)] + steps)[1..] == steps;
    CapOffStrandsSleepers(Next(s, Swap(r, newCap)), steps, end, t);
  }
}
