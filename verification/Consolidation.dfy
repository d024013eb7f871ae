/** src/core/agent.cpp: conversations finish, and each agent's polling loop consolidates what they left in the log
    that all agents share. The flag hasNewActivity_ spares a loop the passes that would find nothing. */
module Consolidation {
  import opened Ids
  import opened Options
  import Dream = DreamCursor

  /** One call of Agent::Invoke. */
  datatype Talk = Talk(n: nat, agent: Dream.Runner, session: SessionId)

  /** Where an agent's consolidation loop stands. */
  datatype Stage =
    | Polling    // about to wait, or waiting
    | SawIdle    // some session is idle
    | SawNew     // the flag was set, or this is the first cycle
    | Cleared    // the flag has been cleared
    | HasModel   // the model is made; DreamProcessor::Run is next
    | Running    // inside it; how far is in dream.runners

  /** The source leaves a batch size below 1 undefined. */
  type BatchSize = n: int | n >= 1 witness 1

  /** Fixed when an agent is made; a reload may change them for the next one. */
  datatype Settings = Settings(excluded: set<SessionId>, maxBatchSize: BatchSize)

  /** An agent's own fields. */
  datatype Mind = Mind(
    settings: Settings, hasNewActivity: bool, firstCycle: bool, stage: Stage, isBusy: map<SessionId, bool>)

  function Newborn(settings: Settings): Mind {
    Mind(settings, false, true, Polling, map[])
  }

  /** A conversation that has finished: how long the log was then, and whether its agent counts its session. */
  datatype Finished = Finished(length: nat, counts: bool)

  /** The log with its cursor and runs, the agents alive, and the conversations. */
  datatype State = State(
    dream: Dream.State, agents: map<Dream.Runner, Mind>, talking: set<Talk>, finished: map<Talk, Finished>)

  const Initial := State(Dream.Initial, map[], {}, map[])

  datatype Step =
    | Create(agent: Dream.Runner, settings: Settings)    // at start-up and at each reload
    | Destroy(agent: Dream.Runner)    // when its last turn lets go of it
    | Begin(talk: Talk)
    | Append(talk: Talk, text: string)
    | Finish(talk: Talk)
    | Cleanup(agent: Dream.Runner, session: SessionId)
    | CheckIdle(agent: Dream.Runner)
    | CheckNew(agent: Dream.Runner)
    | Clear(agent: Dream.Runner)
    | MakeModel(agent: Dream.Runner)
    | ReadCursor(agent: Dream.Runner)
    | ReadLog(agent: Dream.Runner)
    | EndPass(agent: Dream.Runner)
    | Throw(agent: Dream.Runner)    // anything between the clear and the move of the cursor

  // ---------- One agent's fields ----------

  predicate AnyIdle(isBusy: map<SessionId, bool>) {
    exists id <- isBusy :: !isBusy[id]
  }

  function AtIdleGate(m: Mind): Mind {
    if m.firstCycle then m.(stage := SawNew, firstCycle := false)
    else if AnyIdle(m.isBusy) then m.(stage := SawIdle)
    else m
  }

  /** NotifySessionIdle: the session is no longer busy, and unless it is excluded the flag is set. */
  function Heard(m: Mind, id: SessionId): Mind {
    m.(isBusy := if id in m.isBusy then m.isBusy[id := false] else m.isBusy,
       hasNewActivity := m.hasNewActivity || id !in m.settings.excluded)
  }

  // ---------- The steps ----------

  predicate Enabled(s: State, step: Step) {
    match step
    case Create(a, _) => a !in s.agents
    case Destroy(a) => a in s.agents && s.agents[a].stage == Polling && forall t <- s.talking :: t.agent != a
    case Begin(t) => t.agent in s.agents && t !in s.talking && t !in s.finished
    case Append(t, _) => t in s.talking && t.agent in s.agents
    case Finish(t) => t in s.talking && t.agent in s.agents
    case Cleanup(a, _) => a in s.agents
    case CheckIdle(a) => a in s.agents && s.agents[a].stage == Polling
    case CheckNew(a) => a in s.agents && s.agents[a].stage == SawIdle
    case Clear(a) => a in s.agents && s.agents[a].stage == SawNew
    case MakeModel(a) => a in s.agents && s.agents[a].stage == Cleared
    case ReadCursor(a) => a in s.agents && s.agents[a].stage == HasModel && Dream.Enabled(s.dream, Dream.Start(a))
    case ReadLog(a) => a in s.agents && s.agents[a].stage == Running && Dream.Enabled(s.dream, Dream.Read(a))
    case EndPass(a) => a in s.agents && s.agents[a].stage == Running && Dream.Enabled(s.dream, Dream.Finish(a))
    case Throw(a) =>
      && a in s.agents && s.agents[a].stage in {Cleared, HasModel, Running}
      && (s.agents[a].stage == Running ==> Dream.Enabled(s.dream, Dream.Abandon(a)))
  }

  /** What a step does to the log, its cursor and its runs. */
  function DreamStep(s: State, step: Step): Option<Dream.Step>
    requires Enabled(s, step)
  {
    match step
    case Append(_, text) => Some(Dream.Append(text))
    case ReadCursor(a) => Some(Dream.Start(a))
    case ReadLog(a) => Some(Dream.Read(a))
    case EndPass(a) => Some(Dream.Finish(a))
    case Throw(a) => if s.agents[a].stage == Running then Some(Dream.Abandon(a)) else None
    case _ => None
  }

  function DreamAfter(s: State, step: Step): Dream.State
    requires Enabled(s, step)
  {
    match DreamStep(s, step)
    case None => s.dream
    case Some(dreamStep) => Dream.Next(s.dream, dreamStep, s.agents[Actor(step)].settings.maxBatchSize)
  }

  /** The agent whose fields or run a step touches. */
  function Actor(step: Step): Dream.Runner {
    match step
    case Begin(t) => t.agent
    case Append(t, _) => t.agent
    case Finish(t) => t.agent
    case _ => step.agent
  }

  /** What a step makes of its agent's fields. */
  function MindAfter(m: Mind, step: Step, dream: Dream.State): Mind {
    match step
    case Begin(t) => m.(isBusy := m.isBusy[t.session := true])
    case Finish(t) => Heard(m, t.session)
    case Cleanup(_, id) => m.(isBusy := m.isBusy - {id})
    case CheckIdle(_) => AtIdleGate(m)
    case CheckNew(_) => m.(stage := if m.hasNewActivity then SawNew else Polling)
    case Clear(_) => m.(hasNewActivity := false, stage := Cleared)
    case MakeModel(_) => m.(stage := HasModel)
    case ReadCursor(_) => m.(stage := Running)
    case ReadLog(a) => if a in dream.runners then m else m.(stage := Polling)
    case EndPass(_) => m.(stage := Polling)
    case Throw(_) => m.(stage := Polling)
    case _ => m
  }

  function Next(s: State, step: Step): State
    requires Enabled(s, step)
  {
    var a, dream := Actor(step), DreamAfter(s, step);
    match step
    case Create(_, settings) => s.(agents := s.agents[a := Newborn(settings)])
    case Destroy(_) => s.(agents := s.agents - {a})
    case Begin(t) => s.(talking := s.talking + {t}, agents := s.agents[a := MindAfter(s.agents[a], step, dream)])
    case Finish(t) =>
      var m := s.agents[a];
      s.(talking := s.talking - {t},
         finished := s.finished[t := Finished(|s.dream.log|, t.session !in m.settings.excluded)],
         agents := s.agents[a := MindAfter(m, step, dream)])
    case _ => s.(agents := s.agents[a := MindAfter(s.agents[a], step, dream)], dream := dream)
  }

  // ---------- Invariant ----------

  /** The agents inside a run are its runners, and a first cycle is over before its pass begins. */
  ghost predicate RunnersMatch(agents: map<Dream.Runner, Mind>, runners: map<Dream.Runner, Dream.Phase>) {
    && (forall a <- runners :: a in agents && agents[a].stage == Running)
    && (forall a <- agents :: agents[a].stage == Running ==> a in runners)
    && (forall a <- agents :: agents[a].firstCycle ==> agents[a].stage == Polling)
  }

  /** Talks go on with agents alive, and what finished is in the log. */
  ghost predicate TalksFit(
    agents: map<Dream.Runner, Mind>, talking: set<Talk>, finished: map<Talk, Finished>, length: nat)
  {
    && (forall t <- talking :: t.agent in agents && t !in finished)
    && (forall t <- finished :: finished[t].length <= length)
  }

  /** Besides, what has been analysed is a prefix of the log, whoever runs when. */
  ghost predicate Inv(s: State) {
    && Dream.PrefixAnalysed(s.dream)
    && RunnersMatch(s.agents, s.dream.runners)
    && TalksFit(s.agents, s.talking, s.finished, |s.dream.log|)
  }

  lemma InitialInv()
    ensures Inv(Initial)
  {
  }

  /** How far the analysed batches reach. */
  function Reach(s: State): int {
    Dream.Reach(s.dream.analysed)
  }

  /** The cursor a pass with its batch in hand will set. */
  function BatchEnd(d: Dream.State, a: Dream.Runner): int {
    if a in d.runners && d.runners[a].HasBatch? && d.runners[a].batch != []
    then d.runners[a].batch[|d.runners[a].batch| - 1].cursor else 0
  }

  /** The cursor the pass of an agent inside a run has found; by now the cursor may be elsewhere. */
  function Since(s: State, a: Dream.Runner): int {
    if a in s.dream.runners then Dream.Since(s.dream.runners[a]) else s.dream.dreamCursor
  }

  function Size(s: State, a: Dream.Runner): BatchSize
    requires a in s.agents
  {
    s.agents[a].settings.maxBatchSize
  }

  lemma DreamStepKeepsPrefix(s: State, step: Step)
    requires Inv(s) && Enabled(s, step)
    ensures Dream.PrefixAnalysed(DreamAfter(s, step))
  {
    hide Dream.PrefixAnalysed, RunnersMatch, TalksFit, Dream.Next;
    match DreamStep(s, step)
    case None =>
    case Some(dreamStep) => Dream.StepKeepsPrefix(s.dream, dreamStep, s.agents[Actor(step)].settings.maxBatchSize);
  }

  /** What a step does to the log, to what has been analysed, and to the cursor. */
  lemma DreamMoves(s: State, step: Step)
    requires Inv(s) && Enabled(s, step)
    ensures var next := Next(s, step);
      && next.dream == DreamAfter(s, step)
      && |next.dream.log| >= |s.dream.log| && (step.Append? || next.dream.log == s.dream.log)
      && Reach(next) == (if step.EndPass? then Dream.Max(Reach(s), BatchEnd(s.dream, step.agent)) else Reach(s))
      && next.dream.dreamCursor == (if step.EndPass? then BatchEnd(s.dream, step.agent) else s.dream.dreamCursor)
  {
    hide Dream.PrefixAnalysed, Dream.Batch, Dream.Reach, RunnersMatch, TalksFit, MindAfter;
    if step.EndPass? {
      Dream.FinishKeepsPrefix(s.dream, step.agent, s.agents[step.agent].settings.maxBatchSize);
    }
  }

  /** A read with nothing past its cursor ends the run; otherwise its batch is the next entries, up to the batch size. */
  lemma ReadStep(s: State, a: Dream.Runner)
    requires Inv(s) && Enabled(s, ReadLog(a))
    ensures 0 <= Since(s, a) <= Reach(s) <= |s.dream.log|
    ensures var next := Next(s, ReadLog(a));
      && (a in next.dream.runners <==> Since(s, a) < |s.dream.log|)
      && (a in next.dream.runners ==>
        && next.dream.runners[a].HasBatch?
        && BatchEnd(next.dream, a) == Since(s, a) + Dream.Min(|s.dream.log| - Since(s, a), Size(s, a)))
  {
    hide Dream.Unprocessed, Dream.Concat, Dream.Reach, Dream.WasAnalysed, RunnersMatch, TalksFit;
    assert Dream.PhaseFits(s.dream, s.dream.runners[a]);
    Dream.UnprocessedIsSuffix(s.dream.log, Since(s, a));
  }

  /** One agent's change of mind, together with the start or end of its run. */
  lemma ChangeKeepsRunners(
      agents: map<Dream.Runner, Mind>, runners: map<Dream.Runner, Dream.Phase>, a: Dream.Runner, m: Mind,
      after: map<Dream.Runner, Dream.Phase>)
    requires RunnersMatch(agents, runners) && after - {a} == runners - {a}
    requires (m.stage == Running <==> a in after) && (m.firstCycle ==> m.stage == Polling)
    ensures RunnersMatch(agents[a := m], after)
  {
    assert forall b :: b != a ==> (b in after <==> b in after - {a}) && (b in runners <==> b in runners - {a});
  }

  lemma AgentMatches(s: State, a: Dream.Runner)
    requires RunnersMatch(s.agents, s.dream.runners) && a in s.agents
    ensures s.agents[a].stage == Running <==> a in s.dream.runners
    ensures s.agents[a].firstCycle ==> s.agents[a].stage == Polling
  {
  }

  lemma DestroyKeepsRunners(s: State, a: Dream.Runner)
    requires RunnersMatch(s.agents, s.dream.runners) && a in s.agents && s.agents[a].stage == Polling
    ensures RunnersMatch(s.agents - {a}, s.dream.runners)
  {
  }

  lemma NewcomerHasNoRun(s: State, a: Dream.Runner)
    requires RunnersMatch(s.agents, s.dream.runners) && a !in s.agents
    ensures a !in s.dream.runners
  {
  }

  lemma NextKeepsRunners(s: State, step: Step)
    requires RunnersMatch(s.agents, s.dream.runners) && Enabled(s, step)
    ensures var next := Next(s, step); RunnersMatch(next.agents, next.dream.runners)
  {
    hide Dream.Batch, AnyIdle, RunnersMatch;
    var next, a := Next(s, step), Actor(step);
    if step.Destroy? {
      DestroyKeepsRunners(s, a);
    } else {
      if a in s.agents {
        AgentMatches(s, a);
      } else {
        NewcomerHasNoRun(s, a);
      }
      ChangeKeepsRunners(s.agents, s.dream.runners, a, next.agents[a], next.dream.runners);
    }
  }

  lemma NextKeepsTalks(s: State, step: Step)
    requires TalksFit(s.agents, s.talking, s.finished, |s.dream.log|) && Enabled(s, step)
    ensures var next := Next(s, step); TalksFit(next.agents, next.talking, next.finished, |next.dream.log|)
  {
    hide Dream.Batch, AnyIdle, MindAfter;
  }

  lemma NextKeepsInv(s: State, step: Step)
    requires Inv(s) && Enabled(s, step)
    ensures Inv(Next(s, step))
  {
    hide Dream.PrefixAnalysed, RunnersMatch, TalksFit, Next, DreamAfter, Enabled;
    DreamMoves(s, step);
    DreamStepKeepsPrefix(s, step);
    NextKeepsRunners(s, step);
    NextKeepsTalks(s, step);
  }

  // ---------- What is forgotten ----------

  /** The agent will still look at a log of this length: its flag is set, its first cycle is to come, or a pass has
      begun that has not read the log yet or has read that far. */
  predicate Heeds(s: State, a: Dream.Runner, length: nat)
    requires a in s.agents
  {
    var m := s.agents[a];
    || m.hasNewActivity || m.firstCycle || m.stage in {SawNew, Cleared, HasModel}
    || (m.stage == Running && a in s.dream.runners && (s.dream.runners[a].HasCursor? || length <= BatchEnd(s.dream, a)))
  }

  /** Some agent other than `but` will. */
  predicate OthersHeed(s: State, but: Dream.Runner, length: nat) {
    exists a <- s.agents :: a != but && Heeds(s, a, length)
  }

  /** The conversation counts, not all of it has been analysed, and nothing points to it any more. */
  predicate Forgotten(s: State, t: Talk) {
    && t in s.finished && s.finished[t].counts && s.finished[t].length > Reach(s)
    && (forall a <- s.agents :: !Heeds(s, a, s.finished[t].length))
  }

  /** The steps that lose a conversation nobody else heeds: an exception in a pass whose flag has not been set again;
      a batch that ends before it, counted from the cursor the pass has found, likewise; the destruction of the agent. */
  predicate Loses(s: State, step: Step, length: nat)
    requires Enabled(s, step)
  {
    match step
    case Throw(a) => !s.agents[a].hasNewActivity && !OthersHeed(s, a, length)
    case ReadLog(a) => length > Since(s, a) + Size(s, a) && !s.agents[a].hasNewActivity && !OthersHeed(s, a, length)
    case Destroy(a) => !OthersHeed(s, a, length)
    case _ => false
  }

  /** What the other agents heed, they heed on. */
  lemma OthersUntouched(s: State, step: Step, b: Dream.Runner, length: nat)
    requires Inv(s) && Enabled(s, step) && b in s.agents && b != Actor(step)
    ensures var next := Next(s, step);
      b in next.agents && (Heeds(next, b, length) <==> Heeds(s, b, length))
  {
    hide Dream.PrefixAnalysed, Dream.Batch, MindAfter;
  }

  lemma OwnHeed(s: State, step: Step, length: nat)
    requires Inv(s) && Enabled(s, step) && length <= |s.dream.log| && Actor(step) in s.agents
    requires length > Reach(s)
    ensures var a, next := Actor(step), Next(s, step);
      a in next.agents ==> (Heeds(next, a, length) <==>
        match step
        case Throw(_) => s.agents[a].hasNewActivity
        case ReadLog(_) => s.agents[a].hasNewActivity || length <= Since(s, a) + Size(s, a)
        case EndPass(_) => s.agents[a].hasNewActivity
        case Finish(t) => Heeds(s, a, length) || t.session !in s.agents[a].settings.excluded
        case _ => Heeds(s, a, length))
  {
    hide Dream.PrefixAnalysed, Dream.Batch, Dream.Reach, AnyIdle, TalksFit, Reach;
    if step.ReadLog? {
      ReadStep(s, step.agent);
    }
  }

  /** What a pass that ends was heeding has been analysed; a new agent heeds everything. */
  lemma OwnEdges(s: State, step: Step, length: nat)
    requires Inv(s) && Enabled(s, step)
    ensures step.EndPass? && Heeds(s, step.agent, length) ==>
      s.agents[step.agent].hasNewActivity || length <= BatchEnd(s.dream, step.agent)
    ensures step.EndPass? && !Heeds(s, step.agent, length) ==> length > BatchEnd(s.dream, step.agent)
    ensures step.Create? ==> Heeds(Next(s, step), step.agent, length)
    ensures step.ReadLog? ==> Heeds(s, step.agent, length)
  {
    hide Dream.PrefixAnalysed, Dream.Batch, AnyIdle;
  }

  /** What has finished stays as it was. */
  lemma FinishedStays(s: State, step: Step, t: Talk)
    requires Inv(s) && Enabled(s, step) && t in s.finished
    ensures var next := Next(s, step); t in next.finished && next.finished[t] == s.finished[t]
    ensures s.finished[t].length <= |s.dream.log|
  {
    hide Dream.PrefixAnalysed, RunnersMatch, DreamAfter, MindAfter;
  }

  /** What a step does to who heeds. */
  lemma HeedMoves(s: State, step: Step, length: nat)
    requires Inv(s) && Enabled(s, step) && Reach(s) < length <= |s.dream.log|
    ensures forall b <- s.agents :: b != Actor(step) ==> b in Next(s, step).agents && (Heeds(Next(s, step), b, length) <==> Heeds(s, b, length))
    ensures Next(s, step).agents.Keys == if step.Destroy? then s.agents.Keys - {step.agent} else s.agents.Keys + {Actor(step)}
  {
    hide Inv, Heeds, Reach, DreamAfter, MindAfter;
    forall b | b in s.agents && b != Actor(step)
      ensures b in Next(s, step).agents && (Heeds(Next(s, step), b, length) <==> Heeds(s, b, length))
    {
      OthersUntouched(s, step, b, length);
    }
  }

  /** In every state, with any number of agents and however their runs overlap, and for every step: exactly those three
      steps forget, exactly then. */
  lemma StepForgetsIff(s: State, step: Step, t: Talk)
    requires Inv(s) && Enabled(s, step)
    requires t in s.finished && s.finished[t].counts && !Forgotten(s, t)
    ensures Forgotten(Next(s, step), t) <==> s.finished[t].length > Reach(s) && Loses(s, step, s.finished[t].length)
  {
    hide Inv, Next, DreamAfter, Heeds, BatchEnd, Reach;
    var length, a, next := s.finished[t].length, Actor(step), Next(s, step);
    DreamMoves(s, step);
    FinishedStays(s, step, t);
    if length > Reach(s) {
      HeedMoves(s, step, length);
      if a in s.agents {
        OwnHeed(s, step, length);
        FlagIsHeeded(s, step, length);
      }
      OwnEdges(s, step, length);
    }
  }

  lemma FlagIsHeeded(s: State, step: Step, length: nat)
    requires Enabled(s, step) && Actor(step) in s.agents
    ensures s.agents[Actor(step)].hasNewActivity ==> Heeds(s, Actor(step), length)
  {
  }

  /** Runs may overlap, and then a pass may read the log from a cursor that another pass has moved on since: it can
      lose a conversation that a batch from the present cursor would reach. */
  lemma StaleCursorLoses(s: State, a: Dream.Runner, t: Talk)
    requires Inv(s) && Enabled(s, ReadLog(a)) && t in s.finished && s.finished[t].counts
    requires !s.agents[a].hasNewActivity && !OthersHeed(s, a, s.finished[t].length)
    requires s.finished[t].length > Reach(s) && Since(s, a) + Size(s, a) < s.finished[t].length <= s.dream.dreamCursor + Size(s, a)
    ensures Forgotten(Next(s, ReadLog(a)), t) && Since(s, a) < s.dream.dreamCursor
  {
    hide Inv, Next, BatchEnd, Reach;
    StepForgetsIff(s, ReadLog(a), t);
  }

  // ---------- Whole runs ----------

  ghost predicate Runs(s: State, steps: seq<Step>, end: State)
    decreases |steps|
  {
    if steps == [] then end == s
    else Enabled(s, steps[0]) && Runs(Next(s, steps[0]), steps[1..], end)
  }

  ghost predicate NothingForgotten(s: State) {
    forall t <- s.finished :: !Forgotten(s, t)
  }

  predicate StillToLook(m: Mind) {
    m.hasNewActivity || m.firstCycle
  }

  /** No pass throws, and none reads more past the cursor it has found than its batch can take, unless its flag has
      been set again meanwhile; no agent is destroyed that still had to look, unless some other agent has to. */
  predicate Careful(s: State, step: Step)
    requires Enabled(s, step)
  {
    match step
    case Throw(a) => s.agents[a].hasNewActivity
    case ReadLog(a) => s.agents[a].hasNewActivity || |s.dream.log| <= Since(s, a) + Size(s, a)
    case Destroy(a) => StillToLook(s.agents[a]) ==> exists b <- s.agents :: b != a && StillToLook(s.agents[b])
    case _ => true
  }

  lemma CarefulLosesNothing(s: State, step: Step, t: Talk)
    requires Inv(s) && Enabled(s, step) && Careful(s, step)
    requires t in s.finished && s.finished[t].counts && !Forgotten(s, t) && s.finished[t].length > Reach(s)
    ensures !Loses(s, step, s.finished[t].length)
  {
    hide Dream.PrefixAnalysed, BatchEnd, RunnersMatch, Reach, Since;
  }

  lemma FinishIsHeeded(s: State, t: Talk)
    requires Inv(s) && Enabled(s, Finish(t))
    ensures !Forgotten(Next(s, Finish(t)), t)
  {
    hide Dream.PrefixAnalysed, BatchEnd, RunnersMatch;
    var next := Next(s, Finish(t));
    assert next.finished[t].counts ==> Heeds(next, t.agent, next.finished[t].length);
  }

  lemma StepForgetsNothing(s: State, step: Step)
    requires Inv(s) && NothingForgotten(s) && Enabled(s, step) && Careful(s, step)
    ensures NothingForgotten(Next(s, step))
  {
    hide Inv, Forgotten, Careful, Loses, DreamAfter, MindAfter, Reach;
    var next := Next(s, step);
    forall t | t in next.finished
      ensures !Forgotten(next, t)
    {
      if t !in s.finished {
        FinishIsHeeded(s, t);
      } else {
        FinishedStays(s, step, t);
        if s.finished[t].counts {
          StepForgetsIff(s, step, t);
          if s.finished[t].length > Reach(s) {
            CarefulLosesNothing(s, step, t);
          }
        } else {
          UncountedIsNotForgotten(next, t);
        }
      }
    }
  }

  lemma UncountedIsNotForgotten(s: State, t: Talk)
    requires t in s.finished && !s.finished[t].counts
    ensures !Forgotten(s, t)
  {
  }

  ghost predicate CarefulRuns(s: State, steps: seq<Step>, end: State)
    decreases |steps|
  {
    if steps == [] then end == s
    else Enabled(s, steps[0]) && Careful(s, steps[0]) && CarefulRuns(Next(s, steps[0]), steps[1..], end)
  }

  /** Over every careful run, with any number of agents whose runs may overlap, no finished conversation of a session
      that counts is forgotten. */
  lemma {:induction false} NoActivityIsLost(s: State, steps: seq<Step>, end: State)
    requires Inv(s) && NothingForgotten(s) && CarefulRuns(s, steps, end)
    ensures Inv(end) && NothingForgotten(end)
    decreases |steps|
  {
    hide Next, Enabled, Inv, NothingForgotten, Careful;
    if steps != [] {
      NextKeepsInv(s, steps[0]);
      StepForgetsNothing(s, steps[0]);
      NoActivityIsLost(Next(s, steps[0]), steps[1..], end);
    }
  }

  lemma FromTheStart(steps: seq<Step>, end: State)
    requires CarefulRuns(Initial, steps, end)
    ensures NothingForgotten(end)
  {
    NoActivityIsLost(Initial, steps, end);
  }

  /** A conversation that its agent counts finishes. */
  predicate Counts(s: State, step: Step)
    requires Enabled(s, step)
  {
    step.Finish? && step.talk.session !in s.agents[step.talk.agent].settings.excluded
  }

  lemma StillForgotten(s: State, step: Step, t: Talk)
    requires Inv(s) && Enabled(s, step) && Forgotten(s, t) && !Counts(s, step) && !step.Create?
    ensures Forgotten(Next(s, step), t)
  {
    hide Inv, Next, DreamAfter, Heeds, BatchEnd, Reach;
    var length, a := s.finished[t].length, Actor(step);
    DreamMoves(s, step);
    FinishedStays(s, step, t);
    HeedMoves(s, step, length);
    if a in s.agents {
      OwnHeed(s, step, length);
      FlagIsHeeded(s, step, length);
    }
    OwnEdges(s, step, length);
  }

  /** No conversation that counts finishes, and no agent is made. */
  ghost predicate QuietRuns(s: State, steps: seq<Step>, end: State)
    decreases |steps|
  {
    if steps == [] then end == s
    else
      && Enabled(s, steps[0]) && !Counts(s, steps[0]) && !steps[0].Create?
      && QuietRuns(Next(s, steps[0]), steps[1..], end)
  }

  /** What is forgotten stays so until another conversation that counts finishes, or a new agent is created. */
  lemma {:induction false} ForgottenUntilNextFinish(s: State, steps: seq<Step>, end: State, t: Talk)
    requires Inv(s) && Forgotten(s, t) && QuietRuns(s, steps, end)
    ensures Inv(end) && Forgotten(end, t)
    decreases |steps|
  {
    hide Next, Enabled, Inv, Forgotten, Counts;
    if steps != [] {
      NextKeepsInv(s, steps[0]);
      StillForgotten(s, steps[0], t);
      ForgottenUntilNextFinish(Next(s, steps[0]), steps[1..], end, t);
    }
  }

  // ---------- The same guard on the present cursor would not do ----------

  lemma Take(start: State, steps: seq<Step>, s: State, step: Step) returns (more: seq<Step>, next: State)
    requires Runs(start, steps, s) && Enabled(s, step)
    ensures more == steps + [step] && next == Next(s, step) && Runs(start, more, next)
  {
    more, next := steps + [step], Next(s, step);
    RunsLast(start, steps, s, step);
  }

  lemma {:induction false} RunsLast(start: State, steps: seq<Step>, s: State, step: Step)
    requires Runs(start, steps, s) && Enabled(s, step)
    ensures Runs(start, steps + [step], Next(s, step))
    decreases |steps|
  {
    hide Next, Enabled;
    if steps == [] {
      assert [step][1..] == [];
    } else {
      RunsLast(Next(start, steps[0]), steps[1..], s, step);
      assert (steps + [step])[1..] == steps[1..] + [step];
    }
  }

  const HELLO := Dream.Entry(1, "hello")
  const AGAIN := Dream.Entry(2, "again")
  const ONE_BY_ONE := Settings({}, 1)

  /** An agent in its first pass, with the first entry as its batch. */
  function InFirstPass(elder: Dream.Runner, first: Talk): State {
    State(
      Dream.State([HELLO], 0, map[elder := Dream.HasBatch([HELLO])], []),
      map[elder := Mind(ONE_BY_ONE, false, false, Running, map[first.session := true])], {first}, map[])
  }

  lemma FirstPassBegins(elder: Dream.Runner, first: Talk) returns (steps: seq<Step>)
    requires first.agent == elder
    ensures Runs(Initial, steps, InFirstPass(elder, first))
  {
    hide Runs, Dream.Batch;
    OneInBatch();
    RunsOfNone();
    var s := Initial;
    steps := [];
    steps, s := Take(Initial, steps, s, Create(elder, ONE_BY_ONE));
    steps, s := Take(Initial, steps, s, Begin(first));
    steps, s := Take(Initial, steps, s, Append(first, "hello"));
    var ready := State(
      Dream.State([HELLO], 0, map[], []),
      map[elder := Mind(ONE_BY_ONE, false, true, Polling, map[first.session := true])], {first}, map[]);
    assert s == ready;
    steps := TakeToRead(steps, s, elder, Mind(ONE_BY_ONE, false, true, Polling, map[first.session := true]));
    s := WithMind(ready, elder, ready.agents[elder].(firstCycle := false, stage := Running), Dream.State([HELLO], 0, map[elder := Dream.HasCursor(0)], []));
    steps, s := Take(Initial, steps, s, ReadLog(elder));
    assert s == InFirstPass(elder, first);
  }

  function WithMind(s: State, a: Dream.Runner, m: Mind, dream: Dream.State): State {
    s.(agents := s.agents[a := m], dream := dream)
  }

  /** A first cycle, from the poll to the read of the cursor. */
  lemma TakeToRead(before: seq<Step>, s: State, a: Dream.Runner, m: Mind) returns (steps: seq<Step>)
    requires Runs(Initial, before, s) && a in s.agents && s.agents[a] == m && a !in s.dream.runners
    requires m.firstCycle && m.stage == Polling
    ensures Runs(Initial, steps, WithMind(s, a, m.(hasNewActivity := false, firstCycle := false, stage := Running),
      s.dream.(runners := s.dream.runners[a := Dream.HasCursor(s.dream.dreamCursor)])))
  {
    hide Runs, AnyIdle;
    var now := s;
    steps := before;
    steps, now := Take(Initial, steps, now, CheckIdle(a));
    assert now == WithMind(s, a, m.(firstCycle := false, stage := SawNew), s.dream);
    steps, now := Take(Initial, steps, now, Clear(a));
    assert now == WithMind(s, a, m.(hasNewActivity := false, firstCycle := false, stage := Cleared), s.dream);
    steps, now := Take(Initial, steps, now, MakeModel(a));
    assert now == WithMind(s, a, m.(hasNewActivity := false, firstCycle := false, stage := HasModel), s.dream);
    steps, now := Take(Initial, steps, now, ReadCursor(a));
    assert now == WithMind(s, a, m.(hasNewActivity := false, firstCycle := false, stage := Running),
      s.dream.(runners := s.dream.runners[a := Dream.HasCursor(s.dream.dreamCursor)]));
  }

  lemma RunsOfNone()
    ensures Runs(Initial, [], Initial)
  {
  }

  lemma OneInBatch()
    ensures Dream.Batch([HELLO], 0, 1) == [HELLO]
  {
    assert [HELLO][1..] == [];
  }

  /** Its successor has read the cursor, and after that the pass has ended. */
  function WithStaleCursor(elder: Dream.Runner, younger: Dream.Runner, first: Talk, t: Talk): State {
    State(
      Dream.State([HELLO, AGAIN], 1, map[younger := Dream.HasCursor(0)], [[HELLO]]),
      map[elder := Mind(ONE_BY_ONE, false, false, Polling, map[first.session := true]),
          younger := Mind(ONE_BY_ONE, false, false, Running, map[t.session := false])],
      {first}, map[t := Finished(2, true)])
  }

  /** The successor's first turn is over before its first cycle. */
  function AfterTurn(elder: Dream.Runner, younger: Dream.Runner, first: Talk, t: Talk): State {
    State(
      Dream.State([HELLO, AGAIN], 0, map[elder := Dream.HasBatch([HELLO])], []),
      map[elder := Mind(ONE_BY_ONE, false, false, Running, map[first.session := true]),
          younger := Mind(ONE_BY_ONE, true, true, Polling, map[t.session := false])],
      {first}, map[t := Finished(2, true)])
  }

  lemma SuccessorTakesTurn(elder: Dream.Runner, younger: Dream.Runner, first: Talk, t: Talk) returns (steps: seq<Step>)
    requires elder != younger && first.agent == elder && t.agent == younger
    ensures Runs(Initial, steps, AfterTurn(elder, younger, first, t))
  {
    hide Runs, Dream.Batch, AnyIdle;
    var s := InFirstPass(elder, first);
    steps := FirstPassBegins(elder, first);
    steps, s := Take(Initial, steps, s, Create(younger, ONE_BY_ONE));
    steps, s := Take(Initial, steps, s, Begin(t));
    steps, s := Take(Initial, steps, s, Append(t, "again"));
    steps, s := Take(Initial, steps, s, Finish(t));
    var after := AfterTurn(elder, younger, first, t);
    assert s.dream.log == after.dream.log;
    assert s.talking == after.talking;
    assert s.agents[younger].isBusy == map[t.session := false];
    assert s.agents == after.agents;
    assert s.finished == after.finished;
    assert s == after;
  }

  lemma SuccessorReadsCursor(elder: Dream.Runner, younger: Dream.Runner, first: Talk, t: Talk) returns (steps: seq<Step>)
    requires elder != younger && first.agent == elder && t.agent == younger
    ensures Runs(Initial, steps, WithStaleCursor(elder, younger, first, t))
  {
    hide Runs, Dream.Batch, AnyIdle;
    var s, m := AfterTurn(elder, younger, first, t), Mind(ONE_BY_ONE, true, true, Polling, map[t.session := false]);
    steps := SuccessorTakesTurn(elder, younger, first, t);
    steps := TakeToRead(steps, s, younger, m);
    s := WithMind(s, younger, m.(hasNewActivity := false, firstCycle := false, stage := Running),
      s.dream.(runners := s.dream.runners[younger := Dream.HasCursor(0)]));
    steps, s := Take(Initial, steps, s, EndPass(elder));
    assert s == WithStaleCursor(elder, younger, first, t);
  }

  /** With batches of one, from the start: no pass throws, no agent is destroyed, the log is one entry past the present
      cursor, and still the read forgets a turn, because it goes by the cursor its pass has found. */
  lemma StaleCursorIsReachable(elder: Dream.Runner, younger: Dream.Runner, first: Talk, t: Talk)
    requires elder != younger && first.agent == elder && t.agent == younger
    ensures var s := WithStaleCursor(elder, younger, first, t);
      && (exists steps :: Runs(Initial, steps, s)) && Enabled(s, ReadLog(younger))
      && |s.dream.log| <= s.dream.dreamCursor + Size(s, younger)
      && Forgotten(Next(s, ReadLog(younger)), t)
  {
    var s := WithStaleCursor(elder, younger, first, t);
    var steps := SuccessorReadsCursor(elder, younger, first, t);
    InitialInv();
    RunsKeepInv(Initial, steps, s);
    assert [[HELLO]][..0] == [];
    assert Reach(s) == 1;
    StaleCursorLoses(s, younger, t);
  }

  lemma {:induction false} RunsKeepInv(s: State, steps: seq<Step>, end: State)
    requires Inv(s) && Runs(s, steps, end)
    ensures Inv(end)
    decreases |steps|
  {
    hide Next, Enabled, Inv;
    if steps != [] {
      NextKeepsInv(s, steps[0]);
      RunsKeepInv(Next(s, steps[0]), steps[1..], end);
    }
  }

  // ---------- An armed flag that nobody acts on ----------

  /** The loop polls in vain: its first cycle is over and no session it knows is idle. */
  predicate Silent(s: State, a: Dream.Runner) {
    a in s.agents && s.agents[a].stage == Polling && !s.agents[a].firstCycle && !AnyIdle(s.agents[a].isBusy)
  }

  lemma SilentStep(s: State, step: Step, a: Dream.Runner)
    requires Silent(s, a) && Enabled(s, step) && step != Destroy(a) && !(step.Finish? && step.talk.agent == a)
    ensures Silent(Next(s, step), a)
    ensures s.agents[a].hasNewActivity ==> Next(s, step).agents[a].hasNewActivity
  {
    hide DreamAfter;
    assert step.Begin? && step.talk.agent == a ==>
      forall id <- Next(s, step).agents[a].isBusy :: id == step.talk.session || id in s.agents[a].isBusy;
  }

  /** CleanupSession may take away the only idle session. From then on, over every run until another turn ends on that
      agent, its loop never gets past its gates, though its flag stays set. */
  lemma {:induction false} SilentUntilNextFinish(s: State, steps: seq<Step>, end: State, a: Dream.Runner)
    requires Silent(s, a) && Runs(s, steps, end)
    requires forall step <- steps :: step != Destroy(a) && !(step.Finish? && step.talk.agent == a)
    ensures Silent(end, a) && (s.agents[a].hasNewActivity ==> end.agents[a].hasNewActivity)
    decreases |steps|
  {
    hide Next, Enabled, Silent;
    if steps != [] {
      assert steps[0] in steps && forall step <- steps[1..] :: step in steps;
      SilentStep(s, steps[0], a);
      SilentUntilNextFinish(Next(s, steps[0]), steps[1..], end, a);
    }
  }

  /** A polling agent falls silent with a clean-up exactly if no other session it knows is idle. */
  lemma CleanupSilencesIff(s: State, a: Dream.Runner, id: SessionId)
    requires a in s.agents && s.agents[a].stage == Polling && !s.agents[a].firstCycle
    ensures Silent(Next(s, Cleanup(a, id)), a) <==> forall other <- s.agents[a].isBusy :: other != id ==> s.agents[a].isBusy[other]
  {
    var before, after := s.agents[a].isBusy, Next(s, Cleanup(a, id)).agents[a].isBusy;
    assert forall other <- before :: other != id ==> other in after && after[other] == before[other];
  }

  // ---------- One pass, whatever happens meanwhile ----------

  predicate InPass(s: State, a: Dream.Runner) {
    a in s.agents && s.agents[a].stage in {Cleared, HasModel, Running}
  }

  /** From the clear of the flag to the end of the pass, with conversations beginning, appending and finishing in
      between; `steps` ends with the step that ends the pass. */
  ghost predicate Pass(s: State, steps: seq<Step>, end: State, a: Dream.Runner)
    decreases |steps|
  {
    && steps != [] && InPass(s, a) && Enabled(s, steps[0]) && !steps[0].Create?
    && var next := Next(s, steps[0]);
      if InPass(next, a) then Pass(next, steps[1..], end, a) else |steps| == 1 && end == next
  }

  /** How far from the cursor it found a pass reaches. */
  function Progress(last: Step, settings: Settings): nat {
    if last.Throw? then 0 else settings.maxBatchSize
  }

  predicate CountsFor(step: Step, settings: Settings) {
    step.Finish? && step.talk.session !in settings.excluded
  }

  /** The only agent is in a pass that found the cursor at `cursor`, and its flag is set exactly if a conversation
      that counts has finished since. */
  ghost predicate MidPass(
    s: State, a: Dream.Runner, length: nat, cursor: int, reach: int, rearmed: bool, settings: Settings)
  {
    && Inv(s) && s.agents.Keys == {a} && InPass(s, a) && s.agents[a].settings == settings
    && s.dream.dreamCursor == cursor && Since(s, a) == cursor && Reach(s) == reach && length <= |s.dream.log|
    && s.agents[a].hasNewActivity == rearmed
    && (a in s.dream.runners && s.dream.runners[a].HasBatch? ==>
          (length <= BatchEnd(s.dream, a) <==> length <= cursor + settings.maxBatchSize))
  }

  lemma ActorIsAlive(s: State, step: Step)
    requires Inv(s) && Enabled(s, step) && !step.Create?
    ensures Actor(step) in s.agents
  {
    hide Dream.PrefixAnalysed, RunnersMatch;
  }

  /** A run keeps the cursor it has found, and a batch once in hand is not changed. */
  lemma RunStays(s: State, step: Step, a: Dream.Runner)
    requires Inv(s) && Enabled(s, step) && a in s.agents
    ensures var next := Next(s, step);
      && (a in s.dream.runners && a in next.dream.runners && !(step.ReadLog? && step.agent == a) ==>
            next.dream.runners[a] == s.dream.runners[a] && BatchEnd(next.dream, a) == BatchEnd(s.dream, a))
      && (a !in s.dream.runners && a in next.dream.runners ==> next.dream.runners[a] == Dream.HasCursor(s.dream.dreamCursor))
      && (step.ReadLog? && step.agent == a && a in next.dream.runners ==> Since(next, a) == Since(s, a))
  {
    hide Dream.PrefixAnalysed, Dream.Batch, MindAfter;
    if step.ReadLog? {
      ReadKeepsSince(s, step.agent);
    }
  }

  lemma ReadKeepsSince(s: State, a: Dream.Runner)
    requires Inv(s) && Enabled(s, ReadLog(a))
    ensures a in Next(s, ReadLog(a)).dream.runners ==> Since(Next(s, ReadLog(a)), a) == Since(s, a)
  {
    hide Dream.PrefixAnalysed, RunnersMatch, TalksFit, Dream.Batch;
    Dream.ReadKeepsPrefix(s.dream, a, s.agents[a].settings.maxBatchSize);
  }

  /** The flag, the agents and the batch in hand after a step of a lone agent's pass. */
  lemma MidPassStep(
      s: State, step: Step, a: Dream.Runner, length: nat, cursor: int, reach: int, rearmed: bool, settings: Settings)
    requires MidPass(s, a, length, cursor, reach, rearmed, settings)
    requires Enabled(s, step) && !step.Create? && InPass(Next(s, step), a)
    ensures MidPass(Next(s, step), a, length, cursor, reach, rearmed || CountsFor(step, settings), settings)
  {
    hide Inv, BatchEnd, Reach, DreamAfter, AnyIdle;
    NextKeepsInv(s, step);
    DreamMoves(s, step);
    ActorIsAlive(s, step);
    RunStays(s, step, a);
    if step.ReadLog? {
      ReadStep(s, a);
    }
  }

  lemma PassEnds(
      s: State, step: Step, a: Dream.Runner, t: Talk, cursor: int, reach: int, rearmed: bool, settings: Settings)
    requires t in s.finished && s.finished[t].counts
    requires MidPass(s, a, s.finished[t].length, cursor, reach, rearmed, settings)
    requires Enabled(s, step) && !step.Create? && !InPass(Next(s, step), a)
    ensures !CountsFor(step, settings)
    ensures Forgotten(Next(s, step), t) <==>
      !rearmed && s.finished[t].length > reach && s.finished[t].length > cursor + Progress(step, settings)
  {
    hide Dream.PrefixAnalysed, Dream.Batch, AnyIdle, BatchEnd, Reach, TalksFit;
    NextKeepsInv(s, step);
    DreamMoves(s, step);
    ActorIsAlive(s, step);
    CursorInLog(s);
    AgentMatches(s, a);
    if step.ReadLog? {
      ReadStep(s, a);
    }
  }

  lemma CursorInLog(s: State)
    requires Inv(s)
    ensures 0 <= s.dream.dreamCursor <= Reach(s) <= |s.dream.log|
  {
  }

  lemma {:induction false} PassOutcome(
      s: State, steps: seq<Step>, end: State, a: Dream.Runner, t: Talk, cursor: int, reach: int, rearmed: bool,
      settings: Settings)
    requires t in s.finished && s.finished[t].counts
    requires MidPass(s, a, s.finished[t].length, cursor, reach, rearmed, settings) && Pass(s, steps, end, a)
    ensures Forgotten(end, t) <==>
      && !rearmed && (forall step <- steps :: !CountsFor(step, settings))
      && s.finished[t].length > reach && s.finished[t].length > cursor + Progress(steps[|steps| - 1], settings)
    decreases |steps|
  {
    hide MidPass, Forgotten, Next, Enabled, InPass, CountsFor, Progress, Inv;
    var next := Next(s, steps[0]);
    assert steps == [steps[0]] + steps[1..];
    MidPassHasInv(s, a, s.finished[t].length, cursor, reach, rearmed, settings);
    FinishedStays(s, steps[0], t);
    if InPass(next, a) {
      MidPassStep(s, steps[0], a, s.finished[t].length, cursor, reach, rearmed, settings);
      PassOutcome(next, steps[1..], end, a, t, cursor, reach, rearmed || CountsFor(steps[0], settings), settings);
    } else {
      PassEnds(s, steps[0], a, t, cursor, reach, rearmed, settings);
    }
  }

  lemma MidPassHasInv(s: State, a: Dream.Runner, length: nat, cursor: int, reach: int, rearmed: bool, settings: Settings)
    requires MidPass(s, a, length, cursor, reach, rearmed, settings)
    ensures Inv(s)
  {
  }

  /** A pass of the only agent, from its clear to its end, over every interleaving: a conversation that counts and
      had finished before the clear is forgotten, if and only if no other has finished since, not all of it had been
      analysed, and it lies more than one batch past the cursor; or at all, if the pass throws. */
  lemma PassLeavesBehindIff(s: State, steps: seq<Step>, end: State, a: Dream.Runner, t: Talk)
    requires Inv(s) && s.agents.Keys == {a} && Enabled(s, Clear(a)) && t in s.finished && s.finished[t].counts
    requires Pass(Next(s, Clear(a)), steps, end, a)
    ensures Forgotten(end, t) <==>
      && (forall step <- steps :: !CountsFor(step, s.agents[a].settings))
      && s.finished[t].length > Reach(s)
      && s.finished[t].length > s.dream.dreamCursor + Progress(steps[|steps| - 1], s.agents[a].settings)
  {
    hide Dream.PrefixAnalysed, Pass, Forgotten, CountsFor, Progress, AnyIdle, BatchEnd, Reach;
    var cleared := Next(s, Clear(a));
    NextKeepsInv(s, Clear(a));
    DreamMoves(s, Clear(a));
    FinishedStays(s, Clear(a), t);
    AgentMatches(s, a);
    assert cleared.agents.Keys == {a};
    assert MidPass(cleared, a, s.finished[t].length, s.dream.dreamCursor, Reach(s), false, s.agents[a].settings);
    PassOutcome(cleared, steps, end, a, t, s.dream.dreamCursor, Reach(s), false, s.agents[a].settings);
  }

  // ---------- Polling with nobody about ----------

  /** The loop of one agent moves on, without an exception. */
  predicate LoopStep(step: Step, a: Dream.Runner) {
    step in {CheckIdle(a), CheckNew(a), Clear(a), MakeModel(a), ReadCursor(a), ReadLog(a), EndPass(a)}
  }

  predicate WillRun(m: Mind) {
    m.firstCycle || (AnyIdle(m.isBusy) && m.hasNewActivity)
  }

  /** Where the cursor stands after a pass that is left alone. */
  function OneBatchOn(s: State, a: Dream.Runner): int
    requires a in s.agents
  {
    s.dream.dreamCursor + Dream.Min(|s.dream.log| - s.dream.dreamCursor, Size(s, a))
  }

  /** How far along a loop is that started from `was`: it has not passed the gates yet, it is in its pass, or it has
      been through one. */
  datatype Along = Before | Within | After

  ghost predicate Polls(was: State, s: State, a: Dream.Runner, along: Along, started: bool) {
    && Inv(s) && a in was.agents && a in s.agents && s.dream.log == was.dream.log
    && 0 <= was.dream.dreamCursor <= Reach(was)
    && s.dream.runners.Keys <= {a}
    && var m, n, cursor := was.agents[a], s.agents[a], was.dream.dreamCursor;
    && n.isBusy == m.isBusy && n.settings == m.settings
    && match along
       case Before =>
         && n.hasNewActivity == m.hasNewActivity && n.firstCycle == m.firstCycle
         && s.dream.dreamCursor == cursor && Reach(s) == Reach(was)
         && ((n.stage == Polling && (started ==> !WillRun(m))) || (n.stage == SawIdle && AnyIdle(m.isBusy) && !m.firstCycle))
       case Within =>
         && WillRun(m) && !n.firstCycle && s.dream.dreamCursor == cursor && Reach(s) == Reach(was) && Since(s, a) == cursor
         && n.stage in {SawNew, Cleared, HasModel, Running} && (n.stage == SawNew || !n.hasNewActivity)
         && (a in s.dream.runners && s.dream.runners[a].HasBatch? ==> BatchEnd(s.dream, a) == OneBatchOn(was, a))
       case After =>
         && WillRun(m) && !n.firstCycle && !n.hasNewActivity && n.stage in {Polling, SawIdle}
         && s.dream.dreamCursor == OneBatchOn(was, a) && Reach(s) == Dream.Max(Reach(was), OneBatchOn(was, a))
  }

  function AlongAfter(along: Along, s: State, next: State, a: Dream.Runner): Along
    requires a in s.agents && a in next.agents
  {
    match along
    case Before => if next.agents[a].stage == SawNew then Within else Before
    case Within => if next.agents[a].stage == Polling then After else Within
    case After => After
  }

  lemma PollStep(was: State, s: State, step: Step, a: Dream.Runner, along: Along, started: bool)
    requires Polls(was, s, a, along, started) && Enabled(s, step) && LoopStep(step, a)
    ensures a in Next(s, step).agents
    ensures Polls(was, Next(s, step), a, AlongAfter(along, s, Next(s, step), a), true)
  {
    hide Dream.PrefixAnalysed, Dream.Batch, RunnersMatch, TalksFit, BatchEnd, AnyIdle, DreamAfter, Reach;
    AgentMatches(s, a);
    NextKeepsInv(s, step);
    DreamMoves(s, step);
    CursorInLog(s);
    RunStays(s, step, a);
    if step.ReadLog? {
      ReadStep(s, a);
    }
    RunnerKeys(s, step, a);
  }

  lemma RunnerKeys(s: State, step: Step, a: Dream.Runner)
    requires Inv(s) && Enabled(s, step) && LoopStep(step, a)
    ensures step.EndPass? ==> a in s.dream.runners && s.dream.runners[a].HasBatch?
    ensures Next(s, step).dream.runners.Keys <= s.dream.runners.Keys + {a}
  {
    hide Dream.PrefixAnalysed, Dream.Batch, AnyIdle;
  }

  lemma {:induction false} PollRun(
      was: State, s: State, steps: seq<Step>, end: State, a: Dream.Runner, along: Along, started: bool)
    returns (last: Along)
    requires Polls(was, s, a, along, started)
    requires Runs(s, steps, end) && forall step <- steps :: LoopStep(step, a)
    ensures Polls(was, end, a, last, started || steps != [])
    decreases |steps|
  {
    hide Polls, Next, Enabled, LoopStep;
    last := along;
    if steps != [] {
      assert steps[0] in steps && forall step <- steps[1..] :: step in steps;
      InPolls(was, s, a, along, started);
      PollStep(was, s, steps[0], a, along, started);
      var next := Next(s, steps[0]);
      last := PollRun(was, next, steps[1..], end, a, AlongAfter(along, s, next, a), true);
    }
  }

  lemma InPolls(was: State, s: State, a: Dream.Runner, along: Along, started: bool)
    requires Polls(was, s, a, along, started)
    ensures a in s.agents
  {
  }

  /** Any number of polls of one agent with nobody about. */
  ghost predicate PollsAlone(s: State, steps: seq<Step>, end: State, a: Dream.Runner) {
    && Inv(s) && a in s.agents && s.agents[a].stage == Polling && s.dream.runners == map[]
    && steps != [] && Runs(s, steps, end) && (forall step <- steps :: LoopStep(step, a))
    && a in end.agents && end.agents[a].stage == Polling
  }

  /** Polling over and over with nobody about consolidates one batch and no more: the next `maxBatchSize` entries if
      it is the first cycle, or a session is idle and the flag set; else none. So everything is consolidated exactly
      if no more than a batch was pending. */
  lemma PollingTakesOneBatch(s: State, steps: seq<Step>, end: State, a: Dream.Runner)
    requires PollsAlone(s, steps, end, a)
    ensures var pending, runs := |s.dream.log| - s.dream.dreamCursor, WillRun(s.agents[a]);
      && end.dream.dreamCursor == (if runs then OneBatchOn(s, a) else s.dream.dreamCursor)
      && Reach(end) == (if runs then Dream.Max(Reach(s), OneBatchOn(s, a)) else Reach(s))
      && (runs ==> (end.dream.dreamCursor == |end.dream.log| <==> pending <= Size(s, a)))
      && (runs ==> !WillRun(end.agents[a]))
  {
    hide Inv, Runs, LoopStep, BatchEnd, AnyIdle, Reach;
    CursorInLog(s);
    assert Polls(s, s, a, Before, false);
    var last := PollRun(s, s, steps, end, a, Before, false);
  }

  /** A conversation not yet analysed in full is consolidated by such polls exactly if the loop gets past its gates, for
      its first cycle or because a session is idle and the flag set, and it lies within a batch of the cursor. */
  lemma PolledIsConsolidatedIff(s: State, steps: seq<Step>, end: State, a: Dream.Runner, t: Talk)
    requires PollsAlone(s, steps, end, a) && t in s.finished && s.finished[t].length > Reach(s)
    ensures s.finished[t].length <= Reach(end)
      <==> WillRun(s.agents[a]) && s.finished[t].length <= s.dream.dreamCursor + Size(s, a)
  {
    hide Dream.PrefixAnalysed, RunnersMatch, Runs, LoopStep, AnyIdle, Reach;
    PollingTakesOneBatch(s, steps, end, a);
  }

  // ---------- A reload ----------

  /** The agent shares the log with its successor, but not the flag. A turn that ends on it and is the last thing it
      does before it is destroyed is forgotten, if and only if it left something to analyse and no other agent has its
      flag set, its first cycle to come, or a pass under way that will read that far. */
  lemma HandoverForgetsIff(s: State, t: Talk)
    requires Inv(s) && t in s.talking && t.session !in s.agents[t.agent].settings.excluded
    requires s.agents[t.agent].stage == Polling && forall u <- s.talking :: u.agent == t.agent ==> u == t
    ensures Enabled(s, Finish(t)) && Enabled(Next(s, Finish(t)), Destroy(t.agent))
    ensures Forgotten(Next(Next(s, Finish(t)), Destroy(t.agent)), t)
      <==> |s.dream.log| > Reach(s) && !OthersHeed(s, t.agent, |s.dream.log|)
  {
    hide Dream.PrefixAnalysed, Heeds, RunnersMatch, Reach;
    var finished := Next(s, Finish(t));
    NextKeepsInv(s, Finish(t));
    DreamMoves(s, Finish(t));
    FinishIsHeeded(s, t);
    StepForgetsIff(finished, Destroy(t.agent), t);
    forall b | b in s.agents && b != t.agent
      ensures Heeds(finished, b, |s.dream.log|) <==> Heeds(s, b, |s.dream.log|)
    {
      OthersUntouched(s, Finish(t), b, |s.dream.log|);
    }
  }

  // ---------- The agent itself ----------

  /** The fields the loop and the conversations share, and the loop itself. */
  class Agent {
    var hasNewActivity: bool
    var firstCycle: bool
    var sessionActivity: map<SessionId, bool>
    const settings: Settings

    ghost function View(): Mind
      reads this
    {
      Mind(settings, hasNewActivity, firstCycle, Polling, sessionActivity)
    }

    constructor (settings: Settings)
      ensures View() == Newborn(settings)
    {
      this.settings := settings;
      hasNewActivity, firstCycle, sessionActivity := false, true, map[];
    }

    /** Lines 225-277, run by the guard on every way out of Invoke. */
    method NotifySessionIdle(id: SessionId)
      modifies this
      ensures View() == Heard(old(View()), id)
    {
      var isExcluded := id in settings.excluded;
      if id in sessionActivity {
        sessionActivity := sessionActivity[id := false];
      }
      if isExcluded {
        return;
      }
      hasNewActivity := true;
    }

    /** Lines 356-418, once round the loop with nobody about: `made` is false when CreateModel throws, `throws` is set
        when the analysis does. The flag goes either way; the cursor moves by one batch, or not at all. */
    method ConsolidationCycle(store: Dream.HistoryStore, made: bool, throws: bool)
      requires store.Valid()
      modifies this, store`dreamCursor
      ensures store.Valid()
      ensures View() == if WillRun(old(View())) then old(View()).(firstCycle := false, hasNewActivity := false) else old(View())
      ensures store.dreamCursor == old(store.dreamCursor) +
        if WillRun(old(View())) && made && !throws
        then Dream.Min(|store.log| - old(store.dreamCursor), settings.maxBatchSize) else 0
    {
      if !firstCycle {
        var anyIdle := exists id <- sessionActivity :: !sessionActivity[id];
        if !anyIdle {
          return;
        }
        if !hasNewActivity {
          return;
        }
      }
      firstCycle := false;
      hasNewActivity := false;
      if !made {
        return;
      }
      var analysed := Dream.Run(store, settings.maxBatchSize, throws);
    }
  }
}
