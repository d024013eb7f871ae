/** examples/jiuwenClaw/cron_watcher.cpp, lines 204-284: how long the watcher sleeps between passes. */
module CronSleep {
  import opened CronJobs
  import opened CronNext
  import opened Options

  /** What one job asks of the sleep. */
  datatype Wish =
    | Ignored            // removed, spent, or with no time to wait for
    | WakeAt(time: int)
    | Throws             // its cron expression does
    | Spins              // its catch-up loop never ends

  /** The catch-up loop of lines 239-241: the first instant of a recurring job after now. */
  function CatchUp(next: int, interval: int, now: int): (r: int)
    requires interval >= 1
    ensures r > now && (next > now ==> r == next) && (next <= now ==> r <= now + interval)
    decreases now - next
  {
    if next > now then next else CatchUp(next + interval, interval, now)
  }

  /** The loop adds the same step over and over; it ends just when a step is a second or more, or none is needed. */
  lemma CatchUpEndsIff(next: int, interval: nat, now: int)
    ensures (exists n: nat :: next + n * interval > now) <==> next > now || interval >= 1
  {
    if next > now {
      assert next + 0 * interval > now;
    } else if interval >= 1 {
      var n: nat := now - next + 1;
      Enough(n, interval);
      assert next + n * interval > now;
    } else {
      assert forall n: nat :: n * interval == 0;
    }
  }

  lemma Enough(n: nat, interval: int)
    requires interval >= 1
    ensures n * interval >= n
  {
  }

  function WishOf(job: Job, now: int): Wish {
    if Skipped(job) then Ignored
    else if job.kind == "one-time" then
      if job.nextFire > now then WakeAt(job.nextFire) else Ignored
    else if job.kind == "recurring" && job.nextFire > 0 then
      if job.nextFire > now then WakeAt(job.nextFire)
      else if Interval(job) == 0 then Spins
      else WakeAt(CatchUp(job.nextFire, Interval(job), now))
    else if job.kind == "cron" && job.expr != "" && job.nextFire > 0 then
      if job.nextFire > now then WakeAt(job.nextFire)
      else
        match NextFire(job.expr, now)
        case None => Throws
        case Some(next) => WakeAt(next)
    else Ignored
  }

  /** earliestNext, where 0 stands for no job so far. A missing value is an exception. */
  function Earliest(jobs: seq<Job>, now: int, earliest: int): Option<int> {
    if jobs == [] then Some(earliest)
    else
      match WishOf(jobs[0], now)
      case WakeAt(time) => Earliest(jobs[1..], now, if earliest == 0 || time < earliest then time else earliest)
      case Throws => None
      case _ => Earliest(jobs[1..], now, earliest)
  }

  function Min(a: int, b: int): int {
    if a < b then a else b
  }

  /** CalculateSleepDuration; an exception gives the poll interval. */
  function SleepDuration(jobs: seq<Job>, now: int, interval: int): int {
    if jobs == [] then interval
    else
      match Earliest(jobs, now, 0)
      case None => interval
      case Some(earliest) => if earliest > now then Min(interval, earliest - now) else interval
  }

  /** Run, lines 272-273. */
  function SleepFor(jobs: seq<Job>, now: int, interval: int): int {
    var duration := SleepDuration(jobs, now, interval);
    if duration <= 0 then 1 else duration
  }

  method CatchUpLoop(next: int, interval: int, now: int) returns (actualNext: int)
    requires interval >= 1
    ensures actualNext == CatchUp(next, interval, now)
  {
    actualNext := next;
    while actualNext <= now
      invariant CatchUp(actualNext, interval, now) == CatchUp(next, interval, now)
      decreases now - actualNext
    {
      actualNext := actualNext + interval;
    }
  }

  /** The loop over the jobs returns unless it comes to a job whose catch-up never ends. */
  method CalculateSleepDuration(jobs: seq<Job>, now: int, interval: int) returns (duration: int)
    requires forall job <- jobs :: WishOf(job, now) != Spins
    ensures duration == SleepDuration(jobs, now, interval)
  {
    hide NextFire, CatchUp, Interval, Skipped;
    if jobs == [] {
      return interval;
    }
    var earliestNext := 0;
    for i := 0 to |jobs|
      invariant Earliest(jobs, now, 0) == Earliest(jobs[i..], now, earliestNext)
    {
      var job := jobs[i];
      assert jobs[i..][0] == job && jobs[i..][1..] == jobs[i + 1..];
      var wish := WishFor(job, now);
      if wish == Throws {
        return interval;
      }
      if wish.WakeAt? && (earliestNext == 0 || wish.time < earliestNext) {
        earliestNext := wish.time;
      }
    }
    if earliestNext > now {
      return Min(interval, earliestNext - now);
    }
    return interval;
  }

  /** The branches of lines 223-258. */
  method WishFor(job: Job, now: int) returns (wish: Wish)
    requires WishOf(job, now) != Spins
    ensures wish == WishOf(job, now)
  {
    hide NextFire, CatchUp;
    wish := Ignored;
    if job.removed {
      return;
    }
    if job.fired && job.kind == "one-time" {
      return;
    }
    if job.kind == "one-time" {
      if job.nextFire > now {
        wish := WakeAt(job.nextFire);
      }
    } else if job.kind == "recurring" {
      if job.nextFire > 0 {
        var actualNext := job.nextFire;
        if actualNext <= now {
          actualNext := CatchUpLoop(actualNext, Interval(job), now);
        }
        wish := WakeAt(actualNext);
      }
    } else if job.kind == "cron" {
      if job.expr != "" && job.nextFire > 0 {
        wish := WakeAt(job.nextFire);
        if job.nextFire <= now {
          var next := CalculateNextFire(job.expr, now);
          wish := match next case None => Throws case Some(time) => WakeAt(time);
        }
      }
    }
  }

  // ---------- What the sleep guarantees ----------

  lemma WishIsLater(job: Job, now: int)
    ensures WishOf(job, now).WakeAt? ==> WishOf(job, now).time > now
    ensures WishOf(job, now).WakeAt? && job.nextFire > now ==> WishOf(job, now).time == job.nextFire
  {
    hide NextFire, Interval;
    NextFireIsLater(job.expr, now);
  }

  /** The fold keeps the least of the times wished for. */
  lemma {:induction false} EarliestIsLeast(jobs: seq<Job>, now: int, earliest: int)
    requires now >= 0 && (earliest == 0 || earliest > now)
    requires forall job <- jobs :: WishOf(job, now) != Throws
    ensures Earliest(jobs, now, earliest).Some?
    ensures var r := Earliest(jobs, now, earliest).value;
      && (r == 0 || r > now)
      && (r == earliest || exists job <- jobs :: WishOf(job, now) == WakeAt(r))
      && (earliest != 0 ==> r != 0 && r <= earliest)
      && (forall job <- jobs :: WishOf(job, now).WakeAt? ==> r != 0 && r <= WishOf(job, now).time)
    decreases |jobs|
  {
    hide WishOf;
    if jobs != [] {
      var job, rest := jobs[0], jobs[1..];
      assert jobs == [job] + rest;
      WishIsLater(job, now);
      var wish := WishOf(job, now);
      var next := if wish.WakeAt? && (earliest == 0 || wish.time < earliest) then wish.time else earliest;
      EarliestIsLeast(rest, now, next);
    }
  }

  /** The computation of the sleep returns, and not because of an exception. */
  ghost predicate Computed(jobs: seq<Job>, now: int) {
    forall job <- jobs :: WishOf(job, now) != Throws && WishOf(job, now) != Spins
  }

  /** The sleep lasts at least a second and, for a positive poll interval, no longer than it; it never passes the
      time a live job waits for; and it is cut short only for such a time. */
  lemma SleepNeverPassesADueTime(jobs: seq<Job>, now: int, interval: int)
    requires now >= 0 && Computed(jobs, now)
    ensures var r := SleepFor(jobs, now, interval);
      && 1 <= r && (interval >= 1 ==> r <= interval)
      && (forall job <- jobs :: WishOf(job, now).WakeAt? ==> now + r <= WishOf(job, now).time)
      && (interval >= 1 && r < interval ==> exists job <- jobs :: WishOf(job, now) == WakeAt(now + r))
  {
    hide WishOf;
    EarliestIsLeast(jobs, now, 0);
    forall job | job in jobs && WishOf(job, now).WakeAt?
      ensures WishOf(job, now).time > now
    {
      WishIsLater(job, now);
    }
  }

  /** In particular no job comes due while the watcher sleeps: whatever is still to come stays so until it wakes.
      For a one-time job this needs its two times to agree, as they do when the tool adds it: the sleep looks at
      next_fire and the pass at `at`. */
  lemma NothingComesDueAsleep(jobs: seq<Job>, now: int, interval: int, job: Job, x: int)
    requires now >= 0 && Computed(jobs, now)
    requires job in jobs && job.nextFire > now && (job.kind == "one-time" ==> job.at >= job.nextFire)
    requires now <= x < now + SleepFor(jobs, now, interval)
    ensures ShouldFire(job, x) == Some(false)
  {
    hide SleepFor, NextFire, CronMatches;
    SleepNeverPassesADueTime(jobs, now, interval);
    WishIsLater(job, now);
    if !Skipped(job) && (job.kind == "one-time" || job.kind == "recurring" || (job.kind == "cron" && job.expr != "")) {
      assert WishOf(job, now) == WakeAt(job.nextFire);
    }
  }

  /** And it must agree: a one-time job alone in the file is slept past, by some poll interval, exactly when its
      `at` comes after now and its next_fire does not lie between the two. */
  lemma OneTimeIsSleptPastIff(job: Job, now: int)
    requires now >= 0 && job.kind == "one-time" && !Skipped(job) && job.at > now
    ensures (exists interval :: now + SleepFor([job], now, interval) > job.at) <==> !(now < job.nextFire <= job.at)
  {
    if now < job.nextFire <= job.at {
      forall interval
        ensures now + SleepFor([job], now, interval) <= job.at
      {
        SleepNeverPassesADueTime([job], now, interval);
      }
    } else {
      var interval := if job.nextFire > now then job.nextFire - now else job.at - now + 1;
      assert [job][1..] == [] && Earliest([job], now, 0) == Some(if job.nextFire > now then job.nextFire else 0);
      assert now + SleepFor([job], now, interval) > job.at;
    }
  }
}
