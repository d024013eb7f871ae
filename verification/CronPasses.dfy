/** examples/jiuwenClaw/cron_watcher.cpp, lines 286-388: the jobs file over many passes, some of them left early. */
module CronPasses {
  import opened Calendar
  import opened CronField
  import opened CronJobs
  import opened CronNext
  import opened Options

  /** One pass: the time it reads, and what becomes of the event of the job at each place. */
  datatype Pass = Pass(now: int, answers: nat -> Answer)

  function Answers(jobs: seq<Job>, pass: Pass): (answers: seq<Answer>)
    ensures |answers| == |jobs| && forall k :: 0 <= k < |jobs| ==> answers[k] == pass.answers(k)
  {
    seq(|jobs|, (k: nat) => pass.answers(k))
  }

  function WalkOf(jobs: seq<Job>, pass: Pass): Walked {
    Walk(jobs, pass.now, Answers(jobs, pass))
  }

  function CheckAt(jobs: seq<Job>, pass: Pass, k: nat): Option<Checked>
    requires k < |jobs|
  {
    Check(jobs[k], pass.now, pass.answers(k))
  }

  /** The file after a pass: the edits are saved only at the end. */
  function FileAfter(jobs: seq<Job>, pass: Pass): seq<Job> {
    var walked := WalkOf(jobs, pass);
    if walked.aborted then jobs else Swept(walked.jobs)
  }

  // ---------- When a pass is left early ----------

  lemma {:induction false} WalkAbortsIff(jobs: seq<Job>, now: int, answers: seq<Answer>)
    requires |answers| == |jobs|
    ensures Walk(jobs, now, answers).aborted <==> exists k :: 0 <= k < |jobs| && Check(jobs[k], now, answers[k]).None?
  {
    hide Check, Emitted;
    if jobs != [] {
      WalkAbortsIff(jobs[1..], now, answers[1..]);
      if Check(jobs[0], now, answers[0]).Some? && Walk(jobs, now, answers).aborted {
        var k :| 0 <= k < |jobs| - 1 && Check(jobs[1..][k], now, answers[1..][k]).None?;
        assert Check(jobs[k + 1], now, answers[k + 1]).None?;
      }
      if k :| 1 <= k < |jobs| && Check(jobs[k], now, answers[k]).None? {
        assert Check(jobs[1..][k - 1], now, answers[1..][k - 1]).None?;
      }
    }
  }

  /** A due cron job makes the pass throw when its fields do, or when the search for its next time does. */
  predicate Throws(job: Job, now: int, answer: Answer) {
    && Missed(job, now)
    && var matches := CronMatches(job.expr, GmTime(now));
      matches.None? || (NextFire(job.expr, now).None? && !(matches.value && answer.TurnsAway?))
  }

  /** A pass is left early exactly when a due cron job throws, handing an event over does, or shutdown comes while an
      event is handled. */
  lemma PassAbortsIff(jobs: seq<Job>, pass: Pass)
    ensures WalkOf(jobs, pass).aborted <==>
      exists k :: 0 <= k < |jobs| &&
        (|| Throws(jobs[k], pass.now, pass.answers(k))
         || (pass.answers(k) in {StopsAfter, Fails} && ShouldFire(jobs[k], pass.now) == Some(true)))
  {
    hide Walk, CronMatches, NextFire;
    WalkAbortsIff(jobs, pass.now, Answers(jobs, pass));
    forall k | 0 <= k < |jobs|
      ensures CheckAt(jobs, pass, k).None? <==>
        (|| Throws(jobs[k], pass.now, pass.answers(k))
         || (pass.answers(k) in {StopsAfter, Fails} && ShouldFire(jobs[k], pass.now) == Some(true)))
    {
    }
  }

  // ---------- Which events go out ----------

  /** The walk gets as far as the job at place k. */
  ghost predicate Reached(jobs: seq<Job>, pass: Pass, k: nat)
    requires k < |jobs|
  {
    forall j: nat :: j < k ==> CheckAt(jobs, pass, j).Some?
  }

  predicate Fires(job: Job, now: int, answer: Answer) {
    ShouldFire(job, now) == Some(true) && Taken(answer)
  }

  /** The event of the job at place k is handled in the pass, whether or not that is saved. */
  ghost predicate HandledIn(jobs: seq<Job>, pass: Pass, k: nat)
    requires k < |jobs|
  {
    Reached(jobs, pass, k) && Fires(jobs[k], pass.now, pass.answers(k))
  }

  /** The events of a pass are those of the jobs that fire among the jobs it gets to. */
  lemma EventsAre(jobs: seq<Job>, pass: Pass, event: Event)
    ensures event in WalkOf(jobs, pass).events <==>
      exists k :: 0 <= k < |jobs| && HandledIn(jobs, pass, k) && event == Event(jobs[k].id, Due(jobs[k]))
  {
    hide Walk, Check, ShouldFire;
    WalkEvents(jobs, pass.now, Answers(jobs, pass), event);
    if event in WalkOf(jobs, pass).events {
      var k :| IsSource(jobs, pass.now, Answers(jobs, pass), event, k);
      assert HandledIn(jobs, pass, k);
    }
    if k :| 0 <= k < |jobs| && HandledIn(jobs, pass, k) && event == Event(jobs[k].id, Due(jobs[k])) {
      forall j | 0 <= j < k
        ensures Check(jobs[j], pass.now, Answers(jobs, pass)[j]).Some?
      {
        assert CheckAt(jobs, pass, j).Some?;
      }
      assert IsSource(jobs, pass.now, Answers(jobs, pass), event, k);
    }
  }

  ghost predicate IsSource(jobs: seq<Job>, now: int, answers: seq<Answer>, event: Event, k: int)
    requires |answers| == |jobs|
  {
    && 0 <= k < |jobs| && event in Emitted(jobs[k], now, answers[k])
    && forall j :: 0 <= j < k ==> Check(jobs[j], now, answers[j]).Some?
  }

  lemma {:induction false} WalkEvents(jobs: seq<Job>, now: int, answers: seq<Answer>, event: Event)
    requires |answers| == |jobs|
    ensures event in Walk(jobs, now, answers).events <==> exists k :: IsSource(jobs, now, answers, event, k)
  {
    hide Check, Emitted;
    if jobs != [] {
      var rest, restAnswers := jobs[1..], answers[1..];
      WalkEvents(rest, now, restAnswers, event);
      if event in Emitted(jobs[0], now, answers[0]) {
        assert IsSource(jobs, now, answers, event, 0);
      } else if event in Walk(jobs, now, answers).events {
        var k :| IsSource(rest, now, restAnswers, event, k);
        forall j | 0 <= j < k + 1
          ensures Check(jobs[j], now, answers[j]).Some?
        {
          assert j > 0 ==> Check(rest[j - 1], now, restAnswers[j - 1]).Some?;
        }
        assert IsSource(jobs, now, answers, event, k + 1);
      }
      if k :| IsSource(jobs, now, answers, event, k) {
        if k >= 1 {
          assert Check(jobs[0], now, answers[0]).Some?;
          assert forall j :: 0 <= j < k - 1 ==> Check(rest[j], now, restAnswers[j]) == Check(jobs[j + 1], now, answers[j + 1]);
          assert IsSource(rest, now, restAnswers, event, k - 1);
        }
      }
    } else {
      assert forall k :: !IsSource(jobs, now, answers, event, k);
    }
  }

  // ---------- One job through many passes ----------

  /** Where the job at place k is after a pass that leaves it in the file. */
  function Place(jobs: seq<Job>, pass: Pass, k: nat): nat
    requires k < |jobs|
  {
    var walked := WalkOf(jobs, pass);
    if walked.aborted then k else |Swept(walked.jobs[..k])|
  }

  function SweptOne(job: Job): seq<Job> {
    if Spent(job) then [] else [job]
  }

  lemma SweptUnfolds(jobs: seq<Job>)
    requires jobs != []
    ensures Swept(jobs) == SweptOne(jobs[0]) + Swept(jobs[1..])
  {
  }

  lemma SweptNothing()
    ensures Swept([]) == []
  {
  }

  lemma {:induction false} SweptOfConcat(a: seq<Job>, b: seq<Job>)
    ensures Swept(a + b) == Swept(a) + Swept(b)
  {
    hide Swept, SweptOne;
    if a == [] {
      assert a + b == b;
      assert Swept(a) == [] by {
        SweptNothing();
      }
    } else {
      SweptOfConcat(a[1..], b);
      SweptUnfolds(a);
      SweptUnfolds(a + b);
      assert (a + b)[1..] == a[1..] + b;
      assert SweptOne(a[0]) + (Swept(a[1..]) + Swept(b)) == SweptOne(a[0]) + Swept(a[1..]) + Swept(b);
    }
  }

  /** A pass that runs to its end edits the job, and drops it just when it is spent. */
  lemma PassOnJob(jobs: seq<Job>, pass: Pass, k: nat)
    requires k < |jobs| && !WalkOf(jobs, pass).aborted
    ensures CheckAt(jobs, pass, k).Some? && Reached(jobs, pass, k)
    ensures var job, file := CheckAt(jobs, pass, k).value.job, FileAfter(jobs, pass);
      !Spent(job) ==> Place(jobs, pass, k) < |file| && file[Place(jobs, pass, k)] == job
  {
    hide Check, Spent, Walk;
    var answers, walked := Answers(jobs, pass), WalkOf(jobs, pass);
    PassIsPointwise(jobs, pass.now, answers, k);
    forall j: nat | j < k
      ensures CheckAt(jobs, pass, j).Some?
    {
      PassIsPointwise(jobs, pass.now, answers, j);
    }
    var job := walked.jobs[k];
    var front, back := walked.jobs[..k], walked.jobs[k + 1..];
    assert walked.jobs == front + ([job] + back);
    SweptOfConcat(front, [job] + back);
    assert ([job] + back)[1..] == back;
  }

  /** One handling of a job's event: the instant it was due, and whether the pass saved its edit. */
  datatype Handling = Handling(due: int, saved: bool)

  /** A job's course: what is in the file at the end, unless it was dropped, and its handlings in order. */
  datatype Course = Course(job: Option<Job>, log: seq<Handling>)

  function Saved(log: seq<Handling>): (n: nat)
    ensures n <= |log|
  {
    if log == [] then 0 else (if log[0].saved then 1 else 0) + Saved(log[1..])
  }

  ghost function HandlingIn(jobs: seq<Job>, pass: Pass, k: nat): (log: seq<Handling>)
    requires k < |jobs|
    ensures |log| <= 1
  {
    if HandledIn(jobs, pass, k) then [Handling(Due(jobs[k]), !WalkOf(jobs, pass).aborted)] else []
  }

  /** The job at place k, followed through a run of passes. */
  ghost function Follow(jobs: seq<Job>, k: nat, passes: seq<Pass>): Course
    requires k < |jobs|
    decreases |passes|
  {
    if passes == [] then Course(Some(jobs[k]), [])
    else
      var pass := passes[0];
      var handling := HandlingIn(jobs, pass, k);
      if WalkOf(jobs, pass).aborted then
        var rest := Follow(jobs, k, passes[1..]);
        Course(rest.job, handling + rest.log)
      else
        PassOnJob(jobs, pass, k);
        if Spent(CheckAt(jobs, pass, k).value.job) then Course(None, handling)
        else
          var rest := Follow(FileAfter(jobs, pass), Place(jobs, pass, k), passes[1..]);
          Course(rest.job, handling + rest.log)
  }

  /** Following a job by its record alone: what one pass makes of it. */
  ghost function Moved(jobs: seq<Job>, pass: Pass, k: nat): (job: Job)
    requires k < |jobs|
    ensures !WalkOf(jobs, pass).aborted ==> CheckAt(jobs, pass, k).Some? && job == CheckAt(jobs, pass, k).value.job
  {
    if WalkOf(jobs, pass).aborted then jobs[k]
    else
      PassOnJob(jobs, pass, k);
      CheckAt(jobs, pass, k).value.job
  }

  lemma FollowUnfolds(jobs: seq<Job>, k: nat, passes: seq<Pass>)
    requires k < |jobs| && passes != []
    ensures var pass := passes[0];
      var file, place, job, handling := FileAfter(jobs, pass), Place(jobs, pass, k), Moved(jobs, pass, k), HandlingIn(jobs, pass, k);
      && (WalkOf(jobs, pass).aborted || !Spent(job) ==>
            && place < |file| && file[place] == job
            && Follow(jobs, k, passes).job == Follow(file, place, passes[1..]).job
            && Follow(jobs, k, passes).log == handling + Follow(file, place, passes[1..]).log)
      && (!WalkOf(jobs, pass).aborted && Spent(job) ==> Follow(jobs, k, passes) == Course(None, handling))
  {
    hide WalkOf, CheckAt, Spent, HandlingIn, Swept;
    if !WalkOf(jobs, passes[0]).aborted {
      PassOnJob(jobs, passes[0], k);
    }
  }

  // ---------- Every instant is finally handled once ----------

  /** A recurring job whose interval is not cut to zero; see SubsecondNeverMoves for the others. */
  predicate Steady(job: Job) {
    job.kind == "recurring" ==> Interval(job) >= 1
  }

  /** Only forward: an edit never makes a job wait for an earlier instant, and after a handling it is dropped or
      waits for a later one. */
  lemma CheckMovesOn(job: Job, now: int, answer: Answer)
    requires Steady(job) && Check(job, now, answer).Some?
    ensures var checked := Check(job, now, answer).value;
      && checked.handled == Fires(job, now, answer)
      && checked.job.kind == job.kind && Steady(checked.job)
      && Due(job) <= Due(checked.job)
      && (checked.handled ==> Spent(checked.job) || Due(job) < Due(checked.job))
      && (!checked.handled && job.kind != "cron" ==> checked.job == job)
  {
    hide NextFire, CronMatches;
    if Missed(job, now) {
      NextFireIsLater(job.expr, now);
    }
  }

  lemma SavedOfConcat(a: seq<Handling>, b: seq<Handling>)
    requires |a| <= 1
    ensures Saved(a + b) == Saved(a) + Saved(b)
  {
    if a == [] {
      assert a + b == b;
    } else {
      assert (a + b)[1..] == b && a[1..] == [];
    }
  }

  /** Handlings in order: instants never go back, and a saved handling is the last of its instant. */
  ghost predicate Final(log: seq<Handling>) {
    forall i, j :: 0 <= i < j < |log| ==> log[i].due <= log[j].due && (log[i].saved ==> log[i].due < log[j].due)
  }

  /** For jobs of every kind, over every run of passes: a handling whose pass was saved is the last one of its
      instant. So an instant is handled again only after passes that were left early. */
  lemma {:induction false} SavedHandlingIsFinal(jobs: seq<Job>, k: nat, passes: seq<Pass>)
    requires k < |jobs| && Steady(jobs[k])
    ensures Final(Follow(jobs, k, passes).log)
    ensures forall handling <- Follow(jobs, k, passes).log :: handling.due >= Due(jobs[k])
    decreases |passes|
  {
    hide Check, Steady, Due, Spent, WalkOf, FileAfter, Place, Follow, Reached, Fires;
    if passes != [] {
      var pass := passes[0];
      FollowUnfolds(jobs, k, passes);
      var job := Moved(jobs, pass, k);
      if !WalkOf(jobs, pass).aborted {
        PassOnJob(jobs, pass, k);
        CheckMovesOn(jobs[k], pass.now, pass.answers(k));
      }
      if WalkOf(jobs, pass).aborted || !Spent(job) {
        SavedHandlingIsFinal(FileAfter(jobs, pass), Place(jobs, pass, k), passes[1..]);
      }
    } else {
      FollowNothing(jobs, k);
    }
  }

  lemma FollowNothing(jobs: seq<Job>, k: nat)
    requires k < |jobs|
    ensures Follow(jobs, k, []) == Course(Some(jobs[k]), [])
  {
  }

  /** A one-time or recurring job is handled again for the same instant exactly when its last handling was undone. */
  lemma {:induction false} RepeatedIff(jobs: seq<Job>, k: nat, passes: seq<Pass>, i: nat)
    requires k < |jobs| && Steady(jobs[k]) && jobs[k].kind != "cron"
    requires i + 1 < |Follow(jobs, k, passes).log|
    ensures var log := Follow(jobs, k, passes).log; log[i].due == log[i + 1].due <==> !log[i].saved
  {
    SavedHandlingIsFinal(jobs, k, passes);
    UndoneIsRepeated(jobs, k, passes);
  }

  /** The first handling to come is of the instant the job waits for, and stays so until one is saved. */
  lemma {:induction false} UndoneIsRepeated(jobs: seq<Job>, k: nat, passes: seq<Pass>)
    requires k < |jobs| && Steady(jobs[k]) && jobs[k].kind != "cron"
    ensures var log := Follow(jobs, k, passes).log;
      && (log != [] ==> log[0].due == Due(jobs[k]))
      && (forall i :: 0 <= i < |log| - 1 && !log[i].saved ==> log[i].due == log[i + 1].due)
    decreases |passes|
  {
    hide Check, Steady, Due, Spent, WalkOf, FileAfter, Place, Follow, Reached, Fires;
    if passes != [] {
      var pass := passes[0];
      FollowUnfolds(jobs, k, passes);
      var job := Moved(jobs, pass, k);
      if !WalkOf(jobs, pass).aborted {
        PassOnJob(jobs, pass, k);
        CheckMovesOn(jobs[k], pass.now, pass.answers(k));
      }
      if WalkOf(jobs, pass).aborted || !Spent(job) {
        UndoneIsRepeated(FileAfter(jobs, pass), Place(jobs, pass, k), passes[1..]);
      }
    } else {
      FollowNothing(jobs, k);
    }
  }

  /** After a pass that was left early, a job handled in it is handled again by exactly the later passes that get
      to it and whose agent takes the event, for a cron job if its expression matches then. */
  lemma AbortedPassRepeats(jobs: seq<Job>, pass: Pass, next: Pass, k: nat)
    requires k < |jobs| && WalkOf(jobs, pass).aborted && HandledIn(jobs, pass, k) && next.now >= pass.now
    ensures FileAfter(jobs, pass) == jobs
    ensures HandledIn(jobs, next, k) <==>
      && Reached(jobs, next, k) && Taken(next.answers(k))
      && (jobs[k].kind == "cron" ==> CronMatches(jobs[k].expr, GmTime(next.now)) == Some(true))
  {
    hide Walk, Check, CronMatches;
  }

  /** A one-time or recurring job whose instant has come. */
  predicate IsDue(job: Job, now: int) {
    !Skipped(job) && job.kind in {"one-time", "recurring"} && 0 < Due(job) <= now
  }

  lemma DueIsHandled(jobs: seq<Job>, pass: Pass, k: nat)
    requires k < |jobs| && IsDue(jobs[k], pass.now) && Reached(jobs, pass, k) && Taken(pass.answers(k))
    ensures HandledIn(jobs, pass, k) && Event(jobs[k].id, Due(jobs[k])) in WalkOf(jobs, pass).events
  {
    hide WalkOf, Reached;
    EventsAre(jobs, pass, Event(jobs[k].id, Due(jobs[k])));
  }

  /** While a job that throws sits in the file, a due one-time or recurring job before it is handled in every pass that
      gets to it and whose agent takes it: its event goes out again and again, and it never moves. */
  lemma {:induction false} ThrowerRepeatsOthers(jobs: seq<Job>, k: nat, thrower: nat, passes: seq<Pass>)
    requires k < thrower < |jobs|
    requires forall pass <- passes :: IsDue(jobs[k], pass.now) && Reached(jobs, pass, k) && Taken(pass.answers(k))
    requires forall pass <- passes :: Throws(jobs[thrower], pass.now, pass.answers(thrower))
    ensures forall pass <- passes :: Event(jobs[k].id, Due(jobs[k])) in WalkOf(jobs, pass).events
    ensures Follow(jobs, k, passes) == Course(Some(jobs[k]), seq(|passes|, _ => Handling(Due(jobs[k]), false)))
    decreases |passes|
  {
    hide WalkOf, HandledIn, Throws, Due, Spent, Place, IsDue, Reached;
    if passes != [] {
      assert passes == [passes[0]] + passes[1..] && passes[0] in passes && forall pass <- passes[1..] :: pass in passes;
      PassAbortsIff(jobs, passes[0]);
      DueIsHandled(jobs, passes[0], k);
      ThrowerRepeatsOthers(jobs, k, thrower, passes[1..]);
    }
  }

  // ---------- Recurring jobs ----------

  predicate Recurs(job: Job) {
    job.kind == "recurring" && !job.removed && job.nextFire > 0
  }

  lemma RecurringCheck(job: Job, now: int, answer: Answer)
    requires Recurs(job)
    ensures Fires(job, now, answer) <==> now >= job.nextFire && Taken(answer)
    ensures Check(job, now, answer).Some? ==>
      var next := Check(job, now, answer).value.job;
      && !Spent(next) && Recurs(next) && Interval(next) == Interval(job)
      && (if Fires(job, now, answer) then next.nextFire == job.nextFire + Interval(job) else next == job)
  {
    hide CronMatches, NextFire;
  }

  lemma RecurringMoves(jobs: seq<Job>, pass: Pass, k: nat)
    requires k < |jobs| && Recurs(jobs[k])
    ensures var job, moved, log := jobs[k], Moved(jobs, pass, k), HandlingIn(jobs, pass, k);
      && !Spent(moved) && Recurs(moved) && Interval(moved) == Interval(job)
      && moved.nextFire == (if Saved(log) == 0 then job.nextFire else job.nextFire + Interval(job))
      && (Saved(log) == 0 ==> moved == job)
      && (log != [] ==> job.nextFire <= pass.now)
      && (!WalkOf(jobs, pass).aborted && Taken(pass.answers(k)) ==> Saved(log) == if pass.now >= job.nextFire then 1 else 0)
  {
    hide WalkOf, Place, FileAfter, Check, Fires, Interval;
    RecurringCheck(jobs[k], pass.now, pass.answers(k));
    if !WalkOf(jobs, pass).aborted {
      PassOnJob(jobs, pass, k);
    }
  }

  /** The instant n intervals after the first. */
  function Instant(first: int, interval: nat, n: nat): int {
    first + n * interval
  }

  lemma InstantAdds(first: int, interval: nat, a: nat, b: nat)
    requires a <= 1
    ensures Instant(if a == 0 then first else first + interval, interval, b) == Instant(first, interval, a + b)
    ensures Instant(first, interval, 0) == first
  {
  }

  /** Over every run of passes a recurring job stays in the file and is due as many intervals after its first
      instant as it had saved handlings; what was turned away or undone changes nothing. */
  lemma {:induction false} FiresAreIntervalsApart(jobs: seq<Job>, k: nat, passes: seq<Pass>)
    requires k < |jobs| && Recurs(jobs[k])
    ensures var course, job := Follow(jobs, k, passes), jobs[k];
      && course.job.Some? && Recurs(course.job.value) && Interval(course.job.value) == Interval(job)
      && course.job.value.nextFire == Instant(job.nextFire, Interval(job), Saved(course.log))
      && (Saved(course.log) == 0 ==> course.job.value == job)
    decreases |passes|
  {
    hide Recurs, Interval, Follow, FileAfter, Place, Moved, HandlingIn, WalkOf, Spent, Instant, Saved, Taken;
    if passes == [] {
      FollowNothing(jobs, k);
      SavedOfNone();
      InstantAdds(jobs[k].nextFire, Interval(jobs[k]), 0, 0);
    } else {
      FollowUnfolds(jobs, k, passes);
      RecurringMoves(jobs, passes[0], k);
      FiresAreIntervalsApart(FileAfter(jobs, passes[0]), Place(jobs, passes[0], k), passes[1..]);
      var first, rest := HandlingIn(jobs, passes[0], k), Follow(FileAfter(jobs, passes[0]), Place(jobs, passes[0], k), passes[1..]).log;
      SavedOfConcat(first, rest);
      InstantAdds(jobs[k].nextFire, Interval(jobs[k]), Saved(first), Saved(rest));
    }
  }

  /** How many instants first, first + interval, ... lie at or before t. */
  function InstantsBy(first: int, interval: int, t: int): int
    requires interval >= 1
  {
    if t < first then 0 else (t - first) / interval + 1
  }

  lemma InstantsShift(first: int, interval: int, t: int)
    requires interval >= 1 && first <= t
    ensures InstantsBy(first + interval, interval, t) == InstantsBy(first, interval, t) - 1
  {
    if t - first < interval {
      QuotientOf(t - first, 0, interval);
    } else {
      QuotientOf(t - first, (t - first - interval) / interval + 1, interval);
    }
  }

  lemma QuotientOf(n: int, q: int, d: int)
    requires d >= 1 && q * d <= n < q * d + d
    ensures n / d == q
  {
    var r := n / d;
    assert n == r * d + n % d;
    Quotients(r, n % d, q, n - q * d, d);
    assert (r - q) * d == 0;
    assert (q - r) * d == 0;
    if r > q {
      AtLeastOne(r - q, d);
    } else if r < q {
      AtLeastOne(q - r, d);
    }
  }

  /** By time t a recurring job has at most one saved handling for each of its instants up to t; every further
      handling is one that was undone. */
  lemma {:induction false} FiresAreBounded(jobs: seq<Job>, k: nat, passes: seq<Pass>, t: int)
    requires k < |jobs| && Recurs(jobs[k]) && Interval(jobs[k]) >= 1
    requires forall pass <- passes :: pass.now <= t
    ensures Saved(Follow(jobs, k, passes).log) <= InstantsBy(jobs[k].nextFire, Interval(jobs[k]), t)
    decreases |passes|
  {
    hide Recurs, Interval, Follow, FileAfter, Place, Moved, HandlingIn, WalkOf, Spent;
    if passes == [] {
      FollowNothing(jobs, k);
    } else {
      assert passes[0] in passes && forall pass <- passes[1..] :: pass in passes;
      FollowUnfolds(jobs, k, passes);
      RecurringMoves(jobs, passes[0], k);
      var file, place := FileAfter(jobs, passes[0]), Place(jobs, passes[0], k);
      FiresAreBounded(file, place, passes[1..], t);
      SavedOfConcat(HandlingIn(jobs, passes[0], k), Follow(file, place, passes[1..]).log);
      if Saved(HandlingIn(jobs, passes[0], k)) == 1 {
        InstantsShift(jobs[k].nextFire, Interval(jobs[k]), t);
      }
    }
    InstantsArePositive(jobs[k].nextFire, Interval(jobs[k]), t);
  }

  lemma InstantsArePositive(first: int, interval: int, t: int)
    requires interval >= 1
    ensures InstantsBy(first, interval, t) >= if first <= t then 1 else 0
    ensures t < first ==> InstantsBy(first, interval, t) == 0
  {
  }

  /** None of the passes is left early, and no event of the job at place k is turned away. */
  ghost predicate Undisturbed(jobs: seq<Job>, k: nat, passes: seq<Pass>)
    requires k < |jobs|
    decreases |passes|
  {
    passes == [] ||
    var pass := passes[0];
    && !WalkOf(jobs, pass).aborted && Taken(pass.answers(k))
    && var file, place := FileAfter(jobs, pass), Place(jobs, pass, k);
      (place < |file| && !Spent(Moved(jobs, pass, k)) ==> Undisturbed(file, place, passes[1..]))
  }

  lemma UndisturbedUnfolds(jobs: seq<Job>, k: nat, passes: seq<Pass>)
    requires k < |jobs| && passes != [] && Undisturbed(jobs, k, passes)
    ensures !WalkOf(jobs, passes[0]).aborted && Taken(passes[0].answers(k))
    ensures var file, place := FileAfter(jobs, passes[0]), Place(jobs, passes[0], k);
      place < |file| && !Spent(Moved(jobs, passes[0], k)) ==> Undisturbed(file, place, passes[1..])
  {
    hide WalkOf, FileAfter, Place, Moved, Spent;
  }

  function Least(a: int, b: int): int {
    if a <= b then a else b
  }

  lemma OneInstantLess(first: int, interval: int, t: int, n: nat)
    requires interval >= 1 && n >= 1
    ensures first > t ==> InstantsBy(first, interval, t) == 0
    ensures first <= t ==> Least(n, InstantsBy(first, interval, t)) == 1 + Least(n - 1, InstantsBy(first + interval, interval, t))
  {
    if first <= t {
      InstantsShift(first, interval, t);
    }
  }

  lemma SavedOfNone()
    ensures Saved([]) == 0
  {
  }

  /** A backlog is worked off one instant a pass: n undisturbed passes at time t fire n times or until none is left. */
  lemma {:induction false} BacklogIsWorkedOff(jobs: seq<Job>, k: nat, passes: seq<Pass>, t: int)
    requires k < |jobs| && Recurs(jobs[k]) && Interval(jobs[k]) >= 1
    requires Undisturbed(jobs, k, passes) && forall pass <- passes :: pass.now == t
    ensures Saved(Follow(jobs, k, passes).log) == Least(|passes|, InstantsBy(jobs[k].nextFire, Interval(jobs[k]), t))
    decreases |passes|
  {
    hide Recurs, Interval, Undisturbed, InstantsBy, Follow, FileAfter, Place, Moved, HandlingIn, WalkOf, Spent, Saved, Taken;
    if passes == [] {
      FollowNothing(jobs, k);
      SavedOfNone();
    } else {
      assert passes[0] in passes && forall pass <- passes[1..] :: pass in passes;
      FollowUnfolds(jobs, k, passes);
      UndisturbedUnfolds(jobs, k, passes);
      RecurringMoves(jobs, passes[0], k);
      var file, place := FileAfter(jobs, passes[0]), Place(jobs, passes[0], k);
      BacklogIsWorkedOff(file, place, passes[1..], t);
      SavedOfConcat(HandlingIn(jobs, passes[0], k), Follow(file, place, passes[1..]).log);
      OneInstantLess(jobs[k].nextFire, Interval(jobs[k]), t, |passes|);
    }
    InstantsArePositive(jobs[k].nextFire, Interval(jobs[k]), t);
  }

  /** An interval below one second is cut to zero: once due, the job fires in every undisturbed pass for ever. */
  lemma {:induction false} SubsecondNeverMoves(jobs: seq<Job>, k: nat, passes: seq<Pass>)
    requires k < |jobs| && Recurs(jobs[k]) && 0.0 < jobs[k].everySeconds < 1.0
    requires Undisturbed(jobs, k, passes) && forall pass <- passes :: pass.now >= jobs[k].nextFire
    ensures var course := Follow(jobs, k, passes);
      Saved(course.log) == |passes| && course.job.Some? && course.job.value.nextFire == jobs[k].nextFire
  {
    hide Recurs, Follow, Undisturbed;
    FiresAreIntervalsApart(jobs, k, passes);
    SubsecondFires(jobs, k, passes);
  }

  lemma {:induction false} SubsecondFires(jobs: seq<Job>, k: nat, passes: seq<Pass>)
    requires k < |jobs| && Recurs(jobs[k]) && Interval(jobs[k]) == 0
    requires Undisturbed(jobs, k, passes) && forall pass <- passes :: pass.now >= jobs[k].nextFire
    ensures Saved(Follow(jobs, k, passes).log) == |passes|
    decreases |passes|
  {
    hide Recurs, Interval, Undisturbed, Follow, FileAfter, Place, Moved, HandlingIn, WalkOf, Spent;
    if passes == [] {
      FollowNothing(jobs, k);
    } else {
      assert passes[0] in passes && forall pass <- passes[1..] :: pass in passes;
      FollowUnfolds(jobs, k, passes);
      UndisturbedUnfolds(jobs, k, passes);
      RecurringMoves(jobs, passes[0], k);
      var file, place := FileAfter(jobs, passes[0]), Place(jobs, passes[0], k);
      SubsecondFires(file, place, passes[1..]);
      SavedOfConcat(HandlingIn(jobs, passes[0], k), Follow(file, place, passes[1..]).log);
    }
  }

  // ---------- One-time jobs ----------

  /** A one-time job that is still to come. */
  predicate Awaits(job: Job) {
    job.kind == "one-time" && !job.removed && !job.fired && job.at > 0
  }

  /** The job's event can be handled and saved: the pass comes at or after its time, does not turn it away and runs
      to its end. */
  ghost predicate Delivers(jobs: seq<Job>, pass: Pass, k: nat)
    requires k < |jobs|
  {
    pass.now >= jobs[k].at && Taken(pass.answers(k)) && !WalkOf(jobs, pass).aborted
  }

  /** The file before the i-th pass, and where the job at place k then is if it is still there. */
  function FileAt(jobs: seq<Job>, passes: seq<Pass>, i: nat): seq<Job>
    requires i <= |passes|
    decreases i
  {
    if i == 0 then jobs else FileAt(FileAfter(jobs, passes[0]), passes[1..], i - 1)
  }

  ghost function PlaceAt(jobs: seq<Job>, k: nat, passes: seq<Pass>, i: nat): nat
    requires i <= |passes| && k < |jobs|
    decreases i
  {
    if i == 0 then k
    else
      var file, place := FileAfter(jobs, passes[0]), Place(jobs, passes[0], k);
      if place < |file| then PlaceAt(file, place, passes[1..], i - 1) else |FileAt(jobs, passes, i)|
  }

  /** The i-th pass delivers the job at place k of the file the run began with. */
  ghost predicate DeliversAt(jobs: seq<Job>, k: nat, passes: seq<Pass>, i: nat)
    requires k < |jobs| && i < |passes|
  {
    var file, place := FileAt(jobs, passes, i), PlaceAt(jobs, k, passes, i);
    place < |file| && file[place] == jobs[k] && Delivers(file, passes[i], place)
  }

  lemma OneTimeMoves(jobs: seq<Job>, pass: Pass, k: nat)
    requires k < |jobs| && Awaits(jobs[k])
    ensures var moved, log := Moved(jobs, pass, k), HandlingIn(jobs, pass, k);
      && (Delivers(jobs, pass, k) <==> Saved(log) == 1)
      && (Delivers(jobs, pass, k) <==> Spent(moved))
      && (!Delivers(jobs, pass, k) ==> Saved(log) == 0 && moved == jobs[k])
  {
    hide WalkOf;
    if !WalkOf(jobs, pass).aborted {
      PassOnJob(jobs, pass, k);
    }
  }

  lemma ShiftDelivery(jobs: seq<Job>, k: nat, passes: seq<Pass>, i: nat)
    requires k < |jobs| && 1 <= i < |passes|
    requires var file, place := FileAfter(jobs, passes[0]), Place(jobs, passes[0], k);
      place < |file| && file[place] == jobs[k]
    ensures DeliversAt(jobs, k, passes, i)
      <==> DeliversAt(FileAfter(jobs, passes[0]), Place(jobs, passes[0], k), passes[1..], i - 1)
  {
    hide FileAfter, Place, Delivers;
  }

  /** A one-time job is handled and deleted once, if and only if some pass at or after its time runs to its end
      without turning it away; every further handling is one that was undone. */
  lemma {:induction false} OneTimeFiresOnce(jobs: seq<Job>, k: nat, passes: seq<Pass>)
    requires k < |jobs| && Awaits(jobs[k])
    ensures var course, delivered := Follow(jobs, k, passes), exists i: nat :: i < |passes| && DeliversAt(jobs, k, passes, i);
      && Saved(course.log) == (if delivered then 1 else 0)
      && course.job == (if delivered then None else Some(jobs[k]))
    decreases |passes|
  {
    hide Awaits, Follow, FileAfter, Place, Moved, HandlingIn, WalkOf, Spent, Delivers, DeliversAt;
    if passes == [] {
      FollowNothing(jobs, k);
    } else {
      var file, place := FileAfter(jobs, passes[0]), Place(jobs, passes[0], k);
      FollowUnfolds(jobs, k, passes);
      OneTimeMoves(jobs, passes[0], k);
      DeliversFirst(jobs, k, passes);
      if !DeliversAt(jobs, k, passes, 0) {
        OneTimeFiresOnce(file, place, passes[1..]);
        SavedOfConcat(HandlingIn(jobs, passes[0], k), Follow(file, place, passes[1..]).log);
        DeliveredLater(jobs, k, passes);
      }
    }
  }

  lemma DeliversFirst(jobs: seq<Job>, k: nat, passes: seq<Pass>)
    requires k < |jobs| && passes != []
    ensures DeliversAt(jobs, k, passes, 0) <==> Delivers(jobs, passes[0], k)
    ensures Delivers(jobs, passes[0], k) ==> !WalkOf(jobs, passes[0]).aborted
  {
  }

  lemma DeliveredLater(jobs: seq<Job>, k: nat, passes: seq<Pass>)
    requires k < |jobs| && passes != [] && !DeliversAt(jobs, k, passes, 0)
    requires var file, place := FileAfter(jobs, passes[0]), Place(jobs, passes[0], k);
      place < |file| && file[place] == jobs[k]
    ensures var file, place := FileAfter(jobs, passes[0]), Place(jobs, passes[0], k);
      (exists i: nat :: i < |passes| && DeliversAt(jobs, k, passes, i))
        <==> exists i: nat :: i < |passes| - 1 && DeliversAt(file, place, passes[1..], i)
  {
    hide DeliversAt, FileAfter, Place;
    var file, place := FileAfter(jobs, passes[0]), Place(jobs, passes[0], k);
    forall i: nat | 1 <= i < |passes|
      ensures DeliversAt(jobs, k, passes, i) <==> DeliversAt(file, place, passes[1..], i - 1)
    {
      ShiftDelivery(jobs, k, passes, i);
    }
    if i: nat :| i < |passes| - 1 && DeliversAt(file, place, passes[1..], i) {
      assert DeliversAt(jobs, k, passes, i + 1);
    }
  }
}
