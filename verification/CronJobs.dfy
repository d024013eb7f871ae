/** examples/jiuwenClaw/cron_watcher.cpp, lines 286-388: one pass over the jobs file. */
module CronJobs {
  import opened Calendar
  import opened CronField
  import opened CronNext
  import opened Options

  /** A job as the file holds it, with the defaults of job.value filled in. */
  datatype Job = Job(
    id: string, kind: string, removed: bool, fired: bool, at: int, nextFire: int, everySeconds: real, expr: string)

  /** every_seconds as a whole number of seconds: cut off, and 60 if it is not positive. */
  function Interval(job: Job): (n: nat) {
    if job.everySeconds <= 0.0 then 60 else job.everySeconds.Floor
  }

  // ---------- One job at one time ----------

  /** What becomes of a job's event. */
  datatype Answer =
    | Handles     // the agent deals with it
    | TurnsAway   // the agent is busy, or the watcher is already shutting down
    | StopsAfter  // the agent deals with it, and by then the watcher is shutting down
    | Fails       // handing it over throws, as FindOrCreateEntry may, which Invoke calls outside its try

  predicate Taken(answer: Answer) {
    answer.Handles? || answer.StopsAfter?
  }

  /** What a pass does to one job: the job as edited, and whether its event was handled. */
  datatype Checked = Checked(job: Job, handled: bool)

  predicate Skipped(job: Job) {
    job.removed || (job.fired && job.kind == "one-time")
  }

  /** Lines 303-322. A missing value is an exception. */
  function ShouldFire(job: Job, now: int): Option<bool> {
    if Skipped(job) then Some(false)
    else if job.kind == "one-time" then Some(job.at > 0 && now >= job.at)
    else if job.kind == "recurring" then Some(job.nextFire > 0 && now >= job.nextFire)
    else if job.kind == "cron" && job.expr != "" && job.nextFire > 0 && now >= job.nextFire then
      CronMatches(job.expr, GmTime(now))
    else Some(false)
  }

  /** A cron job whose time has come without matching is put off. */
  predicate Missed(job: Job, now: int) {
    !Skipped(job) && job.kind == "cron" && job.expr != "" && job.nextFire > 0 && now >= job.nextFire
  }

  /** Lines 343-359: the edit after the event was handled. */
  function Handled(job: Job, now: int): Option<Job> {
    if job.kind == "one-time" then Some(job.(removed := true))
    else if job.kind == "cron" then
      var next :- NextFire(job.expr, now);
      Some(job.(nextFire := next, fired := false))
    else Some(job.(nextFire := job.nextFire + Interval(job), fired := false))
  }

  /** Lines 303-364 for one job. A missing value: the pass is left here, by an exception or at shutdown. */
  function Check(job: Job, now: int, answer: Answer): Option<Checked> {
    var fire :- ShouldFire(job, now);
    if fire then
      match answer
      case TurnsAway => Some(Checked(job, false))
      case StopsAfter => None
      case Fails => None
      case Handles =>
        var edited :- Handled(job, now);
        Some(Checked(edited, true))
    else if Missed(job, now) then
      var next :- NextFire(job.expr, now);
      Some(Checked(job.(nextFire := next), false))
    else Some(Checked(job, false))
  }

  // ---------- The whole file ----------

  /** A handled event: the job's id and the instant it was due. */
  datatype Event = Event(id: string, due: int)

  /** The instant a job waits for. */
  function Due(job: Job): int {
    if job.kind == "one-time" then job.at else job.nextFire
  }

  /** The jobs so far, the events handled, and whether the loop was left before its end. */
  datatype Walked = Walked(jobs: seq<Job>, events: seq<Event>, aborted: bool)

  /** An event goes out before an exception in the edit after it. */
  function Emitted(job: Job, now: int, answer: Answer): seq<Event> {
    if ShouldFire(job, now) == Some(true) && Taken(answer) then [Event(job.id, Due(job))] else []
  }

  /** The loop of lines 301-365; `answers[k]` is what becomes of job k's event. */
  function Walk(jobs: seq<Job>, now: int, answers: seq<Answer>): (w: Walked)
    requires |answers| == |jobs|
    ensures !w.aborted ==> |w.jobs| == |jobs|
  {
    if jobs == [] then Walked([], [], false)
    else
      var event := Emitted(jobs[0], now, answers[0]);
      match Check(jobs[0], now, answers[0])
      case None => Walked([], event, true)
      case Some(checked) =>
        var rest := Walk(jobs[1..], now, answers[1..]);
        Walked([checked.job] + rest.jobs, event + rest.events, rest.aborted)
  }

  /** Lines 367-375: a removed one-time job. */
  predicate Spent(job: Job) {
    job.removed && job.kind == "one-time"
  }

  function Swept(jobs: seq<Job>): seq<Job> {
    if jobs == [] then []
    else (if Spent(jobs[0]) then [] else [jobs[0]]) + Swept(jobs[1..])
  }

  /** Two walks one after the other; if the first is aborted that is the end. */
  function Then(first: Walked, second: Walked): Walked {
    if first.aborted then first else Walked(first.jobs + second.jobs, first.events + second.events, second.aborted)
  }

  function WalkOne(job: Job, now: int, answer: Answer): Walked {
    match Check(job, now, answer)
    case None => Walked([], Emitted(job, now, answer), true)
    case Some(checked) => Walked([checked.job], Emitted(job, now, answer), false)
  }

  lemma WalkUnfolds(jobs: seq<Job>, now: int, answers: seq<Answer>)
    requires |answers| == |jobs| > 0
    ensures Walk(jobs, now, answers) == Then(WalkOne(jobs[0], now, answers[0]), Walk(jobs[1..], now, answers[1..]))
  {
    hide Check, Emitted;
  }

  lemma ThenAssociates(a: Walked, b: Walked, c: Walked)
    ensures Then(Then(a, b), c) == Then(a, Then(b, c))
  {
    if !a.aborted && !b.aborted {
      assert (a.jobs + b.jobs) + c.jobs == a.jobs + (b.jobs + c.jobs);
      assert (a.events + b.events) + c.events == a.events + (b.events + c.events);
    }
  }

  /** Walking is done piece by piece until it is aborted. */
  lemma {:induction false} WalkSplits(a: seq<Job>, b: seq<Job>, now: int, answersA: seq<Answer>, answersB: seq<Answer>)
    requires |answersA| == |a| && |answersB| == |b|
    ensures Walk(a + b, now, answersA + answersB) == Then(Walk(a, now, answersA), Walk(b, now, answersB))
  {
    hide Walk, WalkOne, Then;
    WalkNothing(now, Walk(b, now, answersB));
    if a == [] {
      assert a + b == b && answersA + answersB == answersB;
    } else {
      WalkSplits(a[1..], b, now, answersA[1..], answersB);
      WalkUnfolds(a, now, answersA);
      WalkUnfolds(a + b, now, answersA + answersB);
      assert (a + b)[1..] == a[1..] + b && (answersA + answersB)[1..] == answersA[1..] + answersB;
      ThenAssociates(WalkOne(a[0], now, answersA[0]), Walk(a[1..], now, answersA[1..]), Walk(b, now, answersB));
    }
  }

  lemma WalkNothing(now: int, w: Walked)
    ensures Walk([], now, []) == Walked([], [], false)
    ensures Then(Walk([], now, []), w) == w
    ensures !w.aborted ==> Then(w, Walk([], now, [])) == w
  {
    assert w.jobs + [] == w.jobs && w.events + [] == w.events;
    assert [] + w.jobs == w.jobs && [] + w.events == w.events;
  }

  /** The loop's next turn: it goes on to job i, and if the pass is left there the walk is over. */
  lemma WalkStep(jobs: seq<Job>, now: int, answers: seq<Answer>, i: nat)
    requires |answers| == |jobs| && i < |jobs|
    ensures Walk(jobs[..i + 1], now, answers[..i + 1]) == Then(Walk(jobs[..i], now, answers[..i]), WalkOne(jobs[i], now, answers[i]))
    ensures Walk(jobs[..i + 1], now, answers[..i + 1]).aborted ==> Walk(jobs, now, answers) == Walk(jobs[..i + 1], now, answers[..i + 1])
  {
    hide Walk, WalkOne;
    assert jobs[..i + 1] == jobs[..i] + [jobs[i]] && answers[..i + 1] == answers[..i] + [answers[i]];
    WalkSplits(jobs[..i], [jobs[i]], now, answers[..i], [answers[i]]);
    WalkUnfolds([jobs[i]], now, [answers[i]]);
    assert [jobs[i]][1..] == [] && [answers[i]][1..] == [];
    WalkSingle(jobs[i], now, answers[i]);
    WalkSplits(jobs[..i + 1], jobs[i + 1..], now, answers[..i + 1], answers[i + 1..]);
    assert jobs[..i + 1] + jobs[i + 1..] == jobs && answers[..i + 1] + answers[i + 1..] == answers;
  }

  lemma WalkSingle(job: Job, now: int, answer: Answer)
    ensures Then(WalkOne(job, now, answer), Walk([], now, [])) == WalkOne(job, now, answer)
  {
    hide WalkOne;
    var w := WalkOne(job, now, answer);
    WalkNothing(now, w);
  }

  class CronWatcher {
    /** The contents of jobs.json. */
    var jobs: seq<Job>

    constructor (jobs: seq<Job>)
      ensures this.jobs == jobs
    {
      this.jobs := jobs;
    }

    /** One pass: the jobs are edited one by one, spent ones are erased, and the file is written if anything
        changed. When it is left early nothing is written, though events have gone out. */
    method CheckAndFireCrons(now: int, answers: seq<Answer>) returns (events: seq<Event>)
      requires |answers| == |jobs|
      modifies this
      ensures var walked := Walk(old(jobs), now, answers);
        events == walked.events && jobs == if walked.aborted then old(jobs) else Swept(walked.jobs)
    {
      hide Check, Emitted, Swept, Walk;
      WalkNothing(now, Walk(jobs, now, answers));
      var j, modified := jobs, false;
      events := [];
      for i := 0 to |j|
        invariant |j| == |jobs| && jobs == old(jobs)
        invariant !Walk(jobs[..i], now, answers[..i]).aborted && events == Walk(jobs[..i], now, answers[..i]).events
        invariant j == Walk(jobs[..i], now, answers[..i]).jobs + jobs[i..]
        invariant !modified ==> j == jobs
      {
        WalkStep(jobs, now, answers, i);
        assert j[i] == jobs[i];
        events := events + Emitted(j[i], now, answers[i]);
        var checked := Check(j[i], now, answers[i]);
        if checked.None? {
          return;
        }
        if checked.value.job != j[i] {
          modified := true;
        }
        j := j[i := checked.value.job];
      }
      assert jobs[..|j|] == jobs && answers[..|j|] == answers;
      assert j == Walk(jobs, now, answers).jobs;
      var erased;
      j, erased := EraseSpent(j);
      if modified || erased {
        jobs := j;
      }
    }
  }

  lemma SweptAt(jobs: seq<Job>, idx: nat)
    requires idx < |jobs|
    ensures Swept(jobs[idx..]) == (if Spent(jobs[idx]) then [] else [jobs[idx]]) + Swept(jobs[idx + 1..])
  {
    hide Spent;
    assert jobs[idx..][0] == jobs[idx] && jobs[idx..][1..] == jobs[idx + 1..];
  }

  /** Dropping or keeping the last element of a front part. */
  lemma LastOfFront<T>(front: seq<T>, back: seq<T>, idx: nat)
    requires idx < |front|
    ensures var j := front[..idx + 1] + back;
      && j[idx] == front[idx]
      && j[..idx] + j[idx + 1..] == front[..idx] + back
      && j == front[..idx] + ([front[idx]] + back)
  {
  }

  lemma Ends<T>(s: seq<T>)
    ensures s[|s|..] == [] && s[..|s|] == s && s[0..] == s && s + [] == s && s[..0] + s == s
  {
  }

  lemma SweptEnd(jobs: seq<Job>)
    ensures Swept(jobs[|jobs|..]) == []
  {
  }

  /** Lines 367-375: from the back, so that the positions still to come stay valid. */
  method EraseSpent(jobs: seq<Job>) returns (j: seq<Job>, erased: bool)
    ensures j == Swept(jobs)
    ensures !erased ==> j == jobs
  {
    hide Spent, Swept;
    SweptEnd(jobs);
    Ends(jobs);
    j, erased := jobs, false;
    var idx := |j| - 1;
    while idx >= 0
      invariant -1 <= idx < |jobs|
      invariant j == jobs[..idx + 1] + Swept(jobs[idx + 1..])
      invariant !erased ==> j == jobs
    {
      LastOfFront(jobs, Swept(jobs[idx + 1..]), idx);
      SweptAt(jobs, idx);
      Ends(Swept(jobs[idx + 1..]));
      if Spent(j[idx]) {
        j := j[..idx] + j[idx + 1..];
        erased := true;
      }
      idx := idx - 1;
    }
    Ends(Swept(jobs));
  }

  // ---------- What a pass does ----------

  /** In a pass that runs to its end, each job is checked on its own. */
  lemma {:induction false} PassIsPointwise(jobs: seq<Job>, now: int, answers: seq<Answer>, k: nat)
    requires |answers| == |jobs| && k < |jobs| && !Walk(jobs, now, answers).aborted
    ensures Check(jobs[k], now, answers[k]).Some? && Walk(jobs, now, answers).jobs[k] == Check(jobs[k], now, answers[k]).value.job
  {
    hide Check, ShouldFire;
    if k > 0 {
      PassIsPointwise(jobs[1..], now, answers[1..], k - 1);
    }
  }

  lemma {:induction false} SweptKeepsTheRest(jobs: seq<Job>)
    ensures forall job :: job in Swept(jobs) <==> job in jobs && !Spent(job)
  {
    if jobs != [] {
      SweptKeepsTheRest(jobs[1..]);
      assert jobs == [jobs[0]] + jobs[1..];
    }
  }

  /** A cron job whose two day fields are both restricted fires only on days that satisfy both, although its
      next time is sought among days that satisfy either. */
  lemma RestrictedCronFiresOnBothOnly(job: Job, now: int)
    requires job.kind == "cron" && Parse(job.expr).Some?
    requires var f := Parse(job.expr).value; !IsWildcard(f.day) && !IsWildcard(f.weekday) && DueAt(f, GmTime(now)) == Some(true)
    requires !Skipped(job) && job.expr != "" && 0 < job.nextFire <= now
    ensures var f, tm := Parse(job.expr).value, GmTime(now);
      ShouldFire(job, now) == Some(FieldMatches(f.day, tm.mday, 1, 31) == Some(true) && FieldMatches(f.weekday, tm.wday, 0, 6) == Some(true))
  {
    hide DueAt, AllFieldsMatch, Parse, GmTime, FieldMatches;
    RestrictedDaysAgreeIff(Parse(job.expr).value, GmTime(now));
    Decided(AllFieldsMatch(Parse(job.expr).value, GmTime(now)));
  }
}
