/** src/core/history_store.cpp and the batching of src/core/dream_processor.cpp: an append-only log, and a
    cursor up to which it has been analysed. */
module DreamCursor {
  import opened Options

  datatype Entry = Entry(cursor: int, text: string)

  /** The k-th event appended carries cursor k, counted from 1. */
  ghost predicate Numbered(log: seq<Entry>) {
    forall k :: 0 <= k < |log| ==> log[k].cursor == k + 1
  }

  /** The entries past a cursor, in order. */
  function Unprocessed(log: seq<Entry>, since: int): seq<Entry> {
    if log == [] then []
    else (if log[0].cursor <= since then [] else [log[0]]) + Unprocessed(log[1..], since)
  }

  lemma {:induction false} UnprocessedSplits(a: seq<Entry>, b: seq<Entry>, since: int)
    ensures Unprocessed(a + b, since) == Unprocessed(a, since) + Unprocessed(b, since)
  {
    if a == [] {
      assert a + b == b;
    } else {
      UnprocessedSplits(a[1..], b, since);
      assert (a + b)[1..] == a[1..] + b;
      var first := if a[0].cursor <= since then [] else [a[0]];
      assert first + (Unprocessed(a[1..], since) + Unprocessed(b, since)) == (first + Unprocessed(a[1..], since)) + Unprocessed(b, since);
    }
  }

  lemma {:induction false} AllPast(log: seq<Entry>, since: int)
    requires forall e <- log :: e.cursor > since
    ensures Unprocessed(log, since) == log
  {
    if log != [] {
      AllPast(log[1..], since);
    }
  }

  lemma {:induction false} NonePast(log: seq<Entry>, since: int)
    requires forall e <- log :: e.cursor <= since
    ensures Unprocessed(log, since) == []
  {
    if log != [] {
      NonePast(log[1..], since);
    }
  }

  /** Of a numbered log, the entries past a cursor are the rest of it from there. */
  lemma UnprocessedIsSuffix(log: seq<Entry>, since: int)
    requires Numbered(log) && 0 <= since <= |log|
    ensures Unprocessed(log, since) == log[since..]
  {
    hide Unprocessed;
    assert log == log[..since] + log[since..];
    UnprocessedSplits(log[..since], log[since..], since);
    NonePast(log[..since], since);
    AllPast(log[since..], since);
  }

  function Min(a: int, b: int): int {
    if a < b then a else b
  }

  function Max(a: int, b: int): int {
    if a < b then b else a
  }

  /** The first entries of what is pending; the source leaves a batch size below 1 undefined. */
  function Batch(log: seq<Entry>, since: int, maxBatchSize: nat): seq<Entry> {
    var entries := Unprocessed(log, since);
    entries[..Min(|entries|, maxBatchSize)]
  }

  class HistoryStore {
    var log: seq<Entry>
    var cursor: int
    var dreamCursor: int

    ghost predicate Valid()
      reads this
    {
      Numbered(log) && cursor == |log| && 0 <= dreamCursor <= |log|
    }

    constructor ()
      ensures Valid() && log == [] && dreamCursor == 0
    {
      log, cursor, dreamCursor := [], 0, 0;
    }

    method AppendEvent(text: string)
      requires Valid()
      modifies this`log, this`cursor
      ensures Valid() && log == old(log) + [Entry(|old(log)| + 1, text)]
    {
      var next := cursor + 1;
      log := log + [Entry(next, text)];
      cursor := next;
    }

    method ReadUnprocessedHistory(sinceCursor: int) returns (entries: seq<Entry>)
      ensures entries == Unprocessed(log, sinceCursor)
    {
      entries := [];
      for i := 0 to |log|
        invariant entries == Unprocessed(log[..i], sinceCursor)
      {
        UnprocessedSplits(log[..i], [log[i]], sinceCursor);
        assert log[..i + 1] == log[..i] + [log[i]] && [log[i]][1..] == [];
        if log[i].cursor <= sinceCursor {
          continue;
        }
        entries := entries + [log[i]];
      }
      assert log[..|log|] == log;
    }

    method SetLastDreamCursor(cursor: int)
      modifies this`dreamCursor
      ensures dreamCursor == cursor
    {
      dreamCursor := cursor;
    }
  }

  /** Run, undisturbed: it analyses the next entries after the cursor, up to the batch size, and moves the cursor
      past exactly those. If the analysis throws, no result, and nothing has moved; with nothing pending there is
      no analysis. */
  method Run(store: HistoryStore, maxBatchSize: nat, throws: bool) returns (analysed: Option<seq<Entry>>)
    requires store.Valid() && maxBatchSize >= 1
    modifies store`dreamCursor
    ensures store.Valid()
    ensures analysed.None? <==> throws && old(store.dreamCursor) < |store.log|
    ensures analysed.None? ==> store.dreamCursor == old(store.dreamCursor)
    ensures analysed.Some? ==>
      && store.dreamCursor == old(store.dreamCursor) + Min(|store.log| - old(store.dreamCursor), maxBatchSize)
      && analysed.value == store.log[old(store.dreamCursor)..store.dreamCursor]
  {
    var lastCursor := store.dreamCursor;
    var entries := store.ReadUnprocessedHistory(lastCursor);
    UnprocessedIsSuffix(store.log, lastCursor);
    if entries == [] {
      return Some([]);
    }
    var batchSize := Min(|entries|, maxBatchSize);
    var batch := entries[..batchSize];
    if throws {
      return None;
    }
    store.SetLastDreamCursor(batch[batchSize - 1].cursor);
    return Some(batch);
  }

  // ---------- Runs that meet ----------

  /** An agent, as the one whose consolidation thread drives a Run; it drives one at a time. */
  datatype Runner = Runner(n: nat)

  /** How far a Run has come: it has read the cursor, or the entries past it. */
  datatype Phase = HasCursor(since: int) | HasBatch(batch: seq<Entry>)

  datatype State = State(log: seq<Entry>, dreamCursor: int, runners: map<Runner, Phase>, analysed: seq<seq<Entry>>)

  const Initial := State([], 0, map[], [])

  datatype Step =
    | Append(text: string)
    | Start(runner: Runner)
    | Read(runner: Runner)
    | Finish(runner: Runner)
    | Abandon(runner: Runner)   // the analysis throws

  predicate Enabled(s: State, step: Step) {
    match step
    case Append(_) => true
    case Start(r) => r !in s.runners
    case Read(r) => r in s.runners && s.runners[r].HasCursor?
    case Finish(r) => r in s.runners && s.runners[r].HasBatch? && s.runners[r].batch != []
    case Abandon(r) => r in s.runners
  }

  /** A Run that finds nothing pending returns at once. */
  function Next(s: State, step: Step, maxBatchSize: nat): State
    requires Enabled(s, step)
  {
    match step
    case Append(text) => s.(log := s.log + [Entry(|s.log| + 1, text)])
    case Start(r) => s.(runners := s.runners[r := HasCursor(s.dreamCursor)])
    case Read(r) =>
      var batch := Batch(s.log, s.runners[r].since, maxBatchSize);
      if batch == [] then s.(runners := s.runners - {r}) else s.(runners := s.runners[r := HasBatch(batch)])
    case Finish(r) =>
      var batch := s.runners[r].batch;
      s.(runners := s.runners - {r}, analysed := s.analysed + [batch], dreamCursor := batch[|batch| - 1].cursor)
    case Abandon(r) => s.(runners := s.runners - {r})
  }

  function Concat(batches: seq<seq<Entry>>): seq<Entry> {
    if batches == [] then [] else Concat(batches[..|batches| - 1]) + batches[|batches| - 1]
  }

  /** What the batches analysed so far cover, and what the one Run under way is about to. */
  ghost predicate ExactlyOnce(s: State) {
    && Numbered(s.log) && 0 <= s.dreamCursor <= |s.log|
    && Concat(s.analysed) == s.log[..s.dreamCursor]
    && (forall r, q :: r in s.runners && q in s.runners ==> r == q)
    && (forall r <- s.runners ::
          match s.runners[r]
          case HasCursor(since) => since == s.dreamCursor
          case HasBatch(batch) =>
            batch != [] && s.dreamCursor + |batch| <= |s.log| && batch == s.log[s.dreamCursor..s.dreamCursor + |batch|])
  }

  /** Nobody starts a Run while another is under way. */
  predicate Alone(s: State, step: Step) {
    step.Start? ==> s.runners == map[]
  }

  lemma FinishKeepsExactlyOnce(s: State, r: Runner, maxBatchSize: nat)
    requires ExactlyOnce(s) && Enabled(s, Finish(r))
    ensures ExactlyOnce(Next(s, Finish(r), maxBatchSize))
    ensures Next(s, Finish(r), maxBatchSize).dreamCursor > s.dreamCursor
  {
    var next, batch := Next(s, Finish(r), maxBatchSize), s.runners[r].batch;
    assert next.analysed[..|s.analysed|] == s.analysed;
    assert batch[|batch| - 1] == s.log[s.dreamCursor + |batch| - 1];
    assert s.log[..next.dreamCursor] == s.log[..s.dreamCursor] + batch;
  }

  lemma ReadKeepsExactlyOnce(s: State, r: Runner, maxBatchSize: nat)
    requires maxBatchSize >= 1 && ExactlyOnce(s) && Enabled(s, Read(r))
    ensures ExactlyOnce(Next(s, Read(r), maxBatchSize))
  {
    hide Unprocessed, Concat;
    UnprocessedIsSuffix(s.log, s.dreamCursor);
  }

  lemma AppendKeepsExactlyOnce(s: State, text: string, maxBatchSize: nat)
    requires ExactlyOnce(s)
    ensures ExactlyOnce(Next(s, Append(text), maxBatchSize))
  {
    hide Concat;
    var next := Next(s, Append(text), maxBatchSize);
    assert next.log[..s.dreamCursor] == s.log[..s.dreamCursor];
    assert forall r <- s.runners :: s.runners[r].HasBatch? ==>
      next.log[s.dreamCursor..s.dreamCursor + |s.runners[r].batch|] == s.log[s.dreamCursor..s.dreamCursor + |s.runners[r].batch|];
  }

  lemma StepKeepsExactlyOnce(s: State, step: Step, maxBatchSize: nat)
    requires maxBatchSize >= 1 && ExactlyOnce(s) && Enabled(s, step) && Alone(s, step)
    ensures ExactlyOnce(Next(s, step, maxBatchSize))
    ensures Next(s, step, maxBatchSize).dreamCursor >= s.dreamCursor
    ensures step.Finish? ==> Next(s, step, maxBatchSize).dreamCursor > s.dreamCursor
  {
    hide Unprocessed, Concat, Batch, Numbered;
    match step
    case Append(text) => AppendKeepsExactlyOnce(s, text, maxBatchSize);
    case Start(_) =>
    case Read(r) => ReadKeepsExactlyOnce(s, r, maxBatchSize);
    case Finish(r) => FinishKeepsExactlyOnce(s, r, maxBatchSize);
    case Abandon(_) =>
  }

  ghost predicate Runs(s: State, steps: seq<Step>, end: State, maxBatchSize: nat)
    decreases |steps|
  {
    if steps == [] then end == s
    else Enabled(s, steps[0]) && Alone(s, steps[0]) && Runs(Next(s, steps[0], maxBatchSize), steps[1..], end, maxBatchSize)
  }

  /** Over any interleaving of appends with Runs that do not overlap, the batches analysed, in order, are exactly
      the log up to the dream cursor. */
  lemma {:induction false} BatchesCoverTheLog(s: State, steps: seq<Step>, end: State, maxBatchSize: nat)
    requires maxBatchSize >= 1 && ExactlyOnce(s) && Runs(s, steps, end, maxBatchSize)
    ensures ExactlyOnce(end) && s.dreamCursor <= end.dreamCursor
    decreases |steps|
  {
    hide Next, Enabled, ExactlyOnce;
    if steps != [] {
      StepKeepsExactlyOnce(s, steps[0], maxBatchSize);
      BatchesCoverTheLog(Next(s, steps[0], maxBatchSize), steps[1..], end, maxBatchSize);
    }
  }

  lemma FromTheStart(steps: seq<Step>, end: State, maxBatchSize: nat)
    requires maxBatchSize >= 1 && Runs(Initial, steps, end, maxBatchSize)
    ensures 0 <= end.dreamCursor <= |end.log| && Concat(end.analysed) == end.log[..end.dreamCursor]
  {
    BatchesCoverTheLog(Initial, steps, end, maxBatchSize);
  }

  // ---------- Runs that overlap ----------

  /** How far the analysed batches reach. */
  function Reach(analysed: seq<seq<Entry>>): (n: int)
    ensures n >= 0
  {
    if analysed == [] then 0
    else
      var rest, last := Reach(analysed[..|analysed| - 1]), analysed[|analysed| - 1];
      if last != [] && last[|last| - 1].cursor > rest then last[|last| - 1].cursor else rest
  }

  /** A batch is a stretch of the log. */
  ghost predicate IsStretch(log: seq<Entry>, batch: seq<Entry>, since: int) {
    batch != [] && 0 <= since && since + |batch| <= |log| && batch == log[since..since + |batch|]
  }

  ghost predicate WasAnalysed(s: State, e: Entry) {
    e in Concat(s.analysed)
  }

  /** Without any restriction on who runs when: what has been analysed is a prefix of the log, nobody starts beyond
      it, but the cursor may lie inside it. */
  ghost predicate PrefixAnalysed(s: State) {
    && Numbered(s.log) && 0 <= s.dreamCursor <= Reach(s.analysed) <= |s.log|
    && (forall e :: WasAnalysed(s, e) <==> e in s.log[..Reach(s.analysed)])
    && (forall r <- s.runners :: PhaseFits(s, s.runners[r]))
  }

  ghost predicate PhaseFits(s: State, phase: Phase) {
    match phase
    case HasCursor(since) => 0 <= since <= Reach(s.analysed)
    case HasBatch(batch) => batch != [] && Since(phase) <= Reach(s.analysed) && IsStretch(s.log, batch, Since(phase))
  }

  /** The cursor a run read when it started. */
  function Since(phase: Phase): int {
    match phase
    case HasCursor(since) => since
    case HasBatch(batch) => if batch == [] then 0 else batch[0].cursor - 1
  }

  lemma InStretch(log: seq<Entry>, from: int, to: int, e: Entry)
    requires Numbered(log) && 0 <= from <= to <= |log|
    ensures e in log[from..to] <==> e in log && from < e.cursor <= to
  {
    if e in log && from < e.cursor <= to {
      assert log[from..to][e.cursor - 1 - from] == log[e.cursor - 1];
    }
  }

  lemma FinishKeepsPrefix(s: State, r: Runner, maxBatchSize: nat)
    requires PrefixAnalysed(s) && Enabled(s, Finish(r))
    ensures PrefixAnalysed(Next(s, Finish(r), maxBatchSize))
    ensures Reach(Next(s, Finish(r), maxBatchSize).analysed) == Max(Reach(s.analysed), Since(s.runners[r]) + |s.runners[r].batch|)
    ensures Next(s, Finish(r), maxBatchSize).dreamCursor == Since(s.runners[r]) + |s.runners[r].batch|
  {
    hide Unprocessed;
    var next, batch, since := Next(s, Finish(r), maxBatchSize), s.runners[r].batch, Since(s.runners[r]);
    assert next.analysed[..|s.analysed|] == s.analysed;
    assert batch[|batch| - 1] == s.log[since + |batch| - 1];
    var reach := Reach(s.analysed);
    assert Reach(next.analysed) == if since + |batch| > reach then since + |batch| else reach;
    forall e
      ensures WasAnalysed(next, e) <==> e in s.log[..Reach(next.analysed)]
    {
      InStretch(s.log, 0, reach, e);
      InStretch(s.log, 0, Reach(next.analysed), e);
      InStretch(s.log, since, since + |batch|, e);
      assert WasAnalysed(next, e) <==> WasAnalysed(s, e) || e in batch;
      assert WasAnalysed(s, e) <==> e in s.log[..reach];
    }
    forall q | q in next.runners
      ensures PhaseFits(next, next.runners[q])
    {
      assert PhaseFits(s, s.runners[q]);
    }
  }

  lemma ReadKeepsPrefix(s: State, r: Runner, maxBatchSize: nat)
    requires maxBatchSize >= 1 && PrefixAnalysed(s) && Enabled(s, Read(r))
    ensures PrefixAnalysed(Next(s, Read(r), maxBatchSize))
    ensures var next := Next(s, Read(r), maxBatchSize);
      r in next.runners ==> Since(next.runners[r]) == Since(s.runners[r])
  {
    hide Unprocessed, Concat;
    UnprocessedIsSuffix(s.log, s.runners[r].since);
    var next := Next(s, Read(r), maxBatchSize);
    assert next.analysed == s.analysed;
    assert forall e :: WasAnalysed(next, e) <==> WasAnalysed(s, e);
    forall q | q in next.runners
      ensures PhaseFits(next, next.runners[q])
    {
      assert PhaseFits(s, s.runners[q]);
    }
  }

  lemma AppendKeepsPrefix(s: State, text: string, maxBatchSize: nat)
    requires PrefixAnalysed(s)
    ensures PrefixAnalysed(Next(s, Append(text), maxBatchSize))
  {
    hide Concat, Reach;
    var next := Next(s, Append(text), maxBatchSize);
    assert next.log[..Reach(s.analysed)] == s.log[..Reach(s.analysed)];
    assert forall e :: WasAnalysed(next, e) <==> WasAnalysed(s, e);
    forall q | q in next.runners
      ensures PhaseFits(next, next.runners[q])
    {
      assert PhaseFits(s, s.runners[q]);
      if s.runners[q].HasBatch? {
        var since, n := Since(s.runners[q]), |s.runners[q].batch|;
        assert next.log[since..since + n] == s.log[since..since + n];
      }
    }
  }

  /** Over every interleaving, overlapping runs and runs that throw included. */
  lemma StepKeepsPrefix(s: State, step: Step, maxBatchSize: nat)
    requires maxBatchSize >= 1 && PrefixAnalysed(s) && Enabled(s, step)
    ensures PrefixAnalysed(Next(s, step, maxBatchSize))
  {
    hide Unprocessed, Concat, Batch, Numbered;
    match step
    case Append(text) => AppendKeepsPrefix(s, text, maxBatchSize);
    case Start(r) =>
      var next := Next(s, step, maxBatchSize);
      assert forall e :: WasAnalysed(next, e) <==> WasAnalysed(s, e);
      assert forall q <- next.runners :: q != r ==> PhaseFits(s, s.runners[q]);
    case Read(r) => ReadKeepsPrefix(s, r, maxBatchSize);
    case Finish(r) => FinishKeepsPrefix(s, r, maxBatchSize);
    case Abandon(r) =>
      var next := Next(s, step, maxBatchSize);
      assert forall e :: WasAnalysed(next, e) <==> WasAnalysed(s, e);
      assert forall q <- next.runners :: PhaseFits(s, s.runners[q]);
  }

  /** What a finishing run analyses again: of its batch, exactly what lies within the reach of the batches before. */
  lemma RepeatedEntries(s: State, r: Runner, e: Entry)
    requires PrefixAnalysed(s) && Enabled(s, Finish(r)) && e in s.runners[r].batch
    ensures WasAnalysed(s, e) <==> e.cursor <= Reach(s.analysed)
  {
    hide Concat, Reach;
    var since := Since(s.runners[r]);
    assert PhaseFits(s, s.runners[r]);
    InStretch(s.log, since, since + |s.runners[r].batch|, e);
    InStretch(s.log, 0, Reach(s.analysed), e);
    assert s.log[0..Reach(s.analysed)] == s.log[..Reach(s.analysed)];
  }

  /** A finishing run repeats entries, and then its first, exactly if it started from a cursor inside what has been
      analysed by now. */
  lemma RunRepeatsIff(s: State, r: Runner)
    requires PrefixAnalysed(s) && Enabled(s, Finish(r))
    ensures (exists e <- s.runners[r].batch :: WasAnalysed(s, e)) <==> Since(s.runners[r]) < Reach(s.analysed)
  {
    hide Concat, Reach, WasAnalysed;
    var batch, since := s.runners[r].batch, Since(s.runners[r]);
    assert PhaseFits(s, s.runners[r]);
    forall e | e in batch
      ensures WasAnalysed(s, e) <==> e.cursor <= Reach(s.analysed)
      ensures e.cursor > since
    {
      RepeatedEntries(s, r, e);
      InStretch(s.log, since, since + |batch|, e);
    }
    assert batch[0] in batch && batch[0].cursor == since + 1;
  }

  ghost predicate AnyRuns(s: State, steps: seq<Step>, end: State, maxBatchSize: nat)
    decreases |steps|
  {
    if steps == [] then end == s
    else Enabled(s, steps[0]) && AnyRuns(Next(s, steps[0], maxBatchSize), steps[1..], end, maxBatchSize)
  }

  /** Nobody is behind `since`, and the reach is past it exactly if somebody finished. */
  ghost predicate AllSince(s: State, since: int, finished: bool) {
    && PrefixAnalysed(s) && s.dreamCursor >= since
    && (forall r <- s.runners :: Since(s.runners[r]) >= since)
    && (Reach(s.analysed) > since <==> finished) && (!finished ==> s.dreamCursor == since)
  }

  lemma StepKeepsSince(s: State, step: Step, since: int, finished: bool, maxBatchSize: nat)
    requires maxBatchSize >= 1 && AllSince(s, since, finished) && Enabled(s, step)
    ensures AllSince(Next(s, step, maxBatchSize), since, finished || step.Finish?)
  {
    hide PrefixAnalysed, Reach, Unprocessed, Batch;
    StepKeepsPrefix(s, step, maxBatchSize);
    match step
    case Read(r) => ReadKeepsPrefix(s, r, maxBatchSize);
    case Finish(r) => FinishMovesReach(s, r, maxBatchSize);
    case _ =>
  }

  lemma FinishMovesReach(s: State, r: Runner, maxBatchSize: nat)
    requires PrefixAnalysed(s) && Enabled(s, Finish(r))
    ensures var next := Next(s, Finish(r), maxBatchSize);
      && Reach(next.analysed) > Since(s.runners[r])
      && Reach(next.analysed) >= Reach(s.analysed)
      && next.dreamCursor > Since(s.runners[r])
  {
    hide Concat;
    FinishKeepsPrefix(s, r, maxBatchSize);
    assert Next(s, Finish(r), maxBatchSize).analysed[..|s.analysed|] == s.analysed;
  }

  lemma {:induction false} SinceOverRuns(s: State, steps: seq<Step>, end: State, since: int, finished: bool, maxBatchSize: nat)
    requires maxBatchSize >= 1 && AllSince(s, since, finished) && AnyRuns(s, steps, end, maxBatchSize)
    ensures AllSince(end, since, finished || exists step <- steps :: step.Finish?)
    decreases |steps|
  {
    hide AllSince, Next, Enabled;
    if steps != [] {
      assert steps == [steps[0]] + steps[1..];
      StepKeepsSince(s, steps[0], since, finished, maxBatchSize);
      SinceOverRuns(Next(s, steps[0], maxBatchSize), steps[1..], end, since, finished || steps[0].Finish?, maxBatchSize);
    }
  }

  lemma StepKeepsOwn(s: State, step: Step, r: Runner, since: int, maxBatchSize: nat)
    requires maxBatchSize >= 1 && PrefixAnalysed(s) && Enabled(s, step) && step != Start(r)
    requires r in s.runners ==> Since(s.runners[r]) == since
    ensures var next := Next(s, step, maxBatchSize); r in next.runners ==> Since(next.runners[r]) == since
  {
    hide PrefixAnalysed, Batch;
    if step.Read? {
      ReadKeepsPrefix(s, step.runner, maxBatchSize);
    }
  }

  /** Until it is over, a run keeps the cursor it started from. */
  lemma {:induction false} OwnOverRuns(s: State, steps: seq<Step>, end: State, r: Runner, since: int, maxBatchSize: nat)
    requires maxBatchSize >= 1 && PrefixAnalysed(s) && AnyRuns(s, steps, end, maxBatchSize) && Start(r) !in steps
    requires r in s.runners ==> Since(s.runners[r]) == since
    ensures PrefixAnalysed(end) && (r in end.runners ==> Since(end.runners[r]) == since)
    decreases |steps|
  {
    hide PrefixAnalysed, Next, Enabled, Since;
    if steps != [] {
      assert steps[0] in steps && forall step <- steps[1..] :: step in steps;
      StepKeepsPrefix(s, steps[0], maxBatchSize);
      StepKeepsOwn(s, steps[0], r, since, maxBatchSize);
      OwnOverRuns(Next(s, steps[0], maxBatchSize), steps[1..], end, r, since, maxBatchSize);
    }
  }

  /** Runs of a draining agent and its successor may overlap. A run that starts when no other is under way and the
      cursor is at the end of what has been analysed goes over entries a second time exactly if another run finishes
      before it does. */
  lemma OverlapRepeatsIff(s: State, steps: seq<Step>, end: State, r: Runner, maxBatchSize: nat)
    requires maxBatchSize >= 1 && PrefixAnalysed(s) && s.runners == map[] && s.dreamCursor == Reach(s.analysed)
    requires AnyRuns(Next(s, Start(r), maxBatchSize), steps, end, maxBatchSize) && Start(r) !in steps
    requires Enabled(end, Finish(r))
    ensures (exists e <- end.runners[r].batch :: WasAnalysed(end, e)) <==> exists step <- steps :: step.Finish?
  {
    hide PrefixAnalysed, Reach, AnyRuns, WasAnalysed;
    var started := Next(s, Start(r), maxBatchSize);
    StepKeepsPrefix(s, Start(r), maxBatchSize);
    SinceOverRuns(started, steps, end, s.dreamCursor, false, maxBatchSize);
    OwnOverRuns(started, steps, end, r, s.dreamCursor, maxBatchSize);
    RunRepeatsIff(end, r);
  }

  /** From the start, whoever runs when: always a prefix, and the cursor never past it. */
  lemma {:induction false} AnalysedIsPrefix(s: State, steps: seq<Step>, end: State, maxBatchSize: nat)
    requires maxBatchSize >= 1 && PrefixAnalysed(s) && AnyRuns(s, steps, end, maxBatchSize)
    ensures PrefixAnalysed(end)
    decreases |steps|
  {
    hide PrefixAnalysed, Next, Enabled;
    if steps != [] {
      StepKeepsPrefix(s, steps[0], maxBatchSize);
      AnalysedIsPrefix(Next(s, steps[0], maxBatchSize), steps[1..], end, maxBatchSize);
    }
  }

  lemma {:induction false} ReachOfConcat(log: seq<Entry>, analysed: seq<seq<Entry>>, cursor: int)
    requires Numbered(log) && 0 <= cursor <= |log| && Concat(analysed) == log[..cursor]
    ensures Reach(analysed) == cursor
  {
    if analysed != [] {
      var n := |analysed| - 1;
      var front, last := Concat(analysed[..n]), analysed[n];
      assert front + last == log[..cursor];
      assert (front + last)[..|front|] == front && |front| + |last| == cursor;
      assert log[..cursor][..|front|] == log[..|front|];
      ReachOfConcat(log, analysed[..n], |front|);
      if last != [] {
        assert (front + last)[cursor - 1] == last[|last| - 1] && log[..cursor][cursor - 1] == log[cursor - 1];
      }
    }
  }

  /** Wherever runs that did not overlap have led, the cursor is at the end of what has been analysed. */
  lemma ExactlyOnceReaches(s: State)
    requires ExactlyOnce(s)
    ensures PrefixAnalysed(s) && s.dreamCursor == Reach(s.analysed)
  {
    hide Concat, Reach;
    ReachOfConcat(s.log, s.analysed, s.dreamCursor);
    forall r | r in s.runners
      ensures PhaseFits(s, s.runners[r])
    {
      if s.runners[r].HasBatch? {
        assert s.runners[r].batch[0] == s.log[s.dreamCursor];
      }
    }
  }
}
