/** examples/jiuwenClaw/cron_watcher.cpp, lines 70-139: when does a cron expression fire next? */
module CronNext {
  import opened Calendar
  import opened CronField
  import opened Options

  datatype Fields = Fields(minute: string, hour: string, day: string, month: string, weekday: string)

  // ---------- Reading the expression ----------

  /** The characters up to the first space. */
  function Word(s: string): (w: string)
    ensures |w| <= |s| && s[..|w|] == w
    ensures forall k :: 0 <= k < |w| ==> !IsSpace(w[k])
    ensures |w| < |s| ==> IsSpace(s[|w|])
  {
    if s == "" || IsSpace(s[0]) then "" else [s[0]] + Word(s[1..])
  }

  /** operator>>, `n` times; fewer words than that leave the stream failed. */
  function Words(s: string, n: nat): (words: Option<seq<string>>)
    decreases n
    ensures words.Some? ==> |words.value| == n
    ensures words.Some? ==> forall k :: 0 <= k < n ==> words.value[k] != "" && forall c <- words.value[k] :: !IsSpace(c)
  {
    if n == 0 then Some([])
    else
      var text := SkipSpaces(s);
      if text == "" then None
      else
        var rest :- Words(text[|Word(text)|..], n - 1);
        SkipStops(s);
        Some([Word(text)] + rest)
  }

  lemma {:induction false} SkipStops(s: string)
    ensures SkipSpaces(s) != "" ==> !IsSpace(SkipSpaces(s)[0]) && Word(SkipSpaces(s)) != ""
  {
    if s != "" && IsSpace(s[0]) {
      SkipStops(s[1..]);
    }
  }

  function Parse(expr: string): Option<Fields> {
    var w :- Words(expr, 5);
    Some(Fields(w[0], w[1], w[2], w[3], w[4]))
  }

  // ---------- The two rules ----------

  predicate IsWildcard(field: string) {
    field == "*" || field == "?"
  }

  /** Lines 115-126: restricted in both day fields, a day need only satisfy one of them. */
  function DayMatches(f: Fields, tm: Tm): Option<bool> {
    if IsWildcard(f.day) && IsWildcard(f.weekday) then Some(true)
    else if IsWildcard(f.day) then FieldMatches(f.weekday, tm.wday, 0, 6)
    else if IsWildcard(f.weekday) then FieldMatches(f.day, tm.mday, 1, 31)
    else
      var dom :- FieldMatches(f.day, tm.mday, 1, 31);
      var dow :- FieldMatches(f.weekday, tm.wday, 0, 6);
      Some(dom || dow)
  }

  /** Lines 115-133, where the search stops. */
  function DueAt(f: Fields, tm: Tm): Option<bool> {
    var day :- DayMatches(f, tm);
    var minute :- FieldMatches(f.minute, tm.min, 0, 59);
    if !minute then Some(false)
    else
      var hour :- FieldMatches(f.hour, tm.hour, 0, 23);
      if !hour || !day then Some(false) else FieldMatches(f.month, tm.mon + 1, 1, 12)
  }

  /** MatchesCronExpression, lines 79-85: every field must match. */
  function AllFieldsMatch(f: Fields, tm: Tm): Option<bool> {
    var minute :- FieldMatches(f.minute, tm.min, 0, 59);
    if !minute then Some(false)
    else
      var hour :- FieldMatches(f.hour, tm.hour, 0, 23);
      if !hour then Some(false)
      else
        var day :- FieldMatches(f.day, tm.mday, 1, 31);
        if !day then Some(false)
        else
          var month :- FieldMatches(f.month, tm.mon + 1, 1, 12);
          if !month then Some(false) else FieldMatches(f.weekday, tm.wday, 0, 6)
  }

  function CronMatches(expr: string, tm: Tm): Option<bool> {
    match Parse(expr)
    case None => Some(false)
    case Some(f) => AllFieldsMatch(f, tm)
  }

  lemma WildcardField(field: string, value: int, minVal: int, maxVal: int)
    requires IsWildcard(field)
    ensures FieldMatches(field, value, minVal, maxVal) == Some(true)
  {
    WildcardMatches(field, value, minVal, maxVal);
  }

  /** With a wildcard in either day field, the search stops only where the check at firing time agrees. */
  lemma WildcardDayAgrees(f: Fields, tm: Tm)
    requires IsWildcard(f.day) || IsWildcard(f.weekday)
    requires DueAt(f, tm) == Some(true)
    ensures AllFieldsMatch(f, tm) == Some(true)
  {
    hide FieldMatches;
    if IsWildcard(f.day) {
      WildcardField(f.day, tm.mday, 1, 31);
    }
    if IsWildcard(f.weekday) {
      WildcardField(f.weekday, tm.wday, 0, 6);
    }
  }

  /** With both day fields restricted they agree exactly on the days that satisfy both. */
  lemma RestrictedDaysAgreeIff(f: Fields, tm: Tm)
    requires !IsWildcard(f.day) && !IsWildcard(f.weekday)
    requires DueAt(f, tm) == Some(true)
    ensures AllFieldsMatch(f, tm) == Some(true)
      <==> FieldMatches(f.day, tm.mday, 1, 31) == Some(true) && FieldMatches(f.weekday, tm.wday, 0, 6) == Some(true)
    ensures AllFieldsMatch(f, tm).Some?
  {
    hide FieldMatches;
  }

  // ---------- The search ----------

  const MINUTES := 525600

  /** The k-th whole minute after an instant. */
  function MinuteAfter(t: int, k: int): (r: int)
    ensures k >= 1 ==> r > t
    ensures r % 60 == 0
  {
    60 * (t / 60 + k)
  }

  /** A whole minute after `t` is one of them. */
  lemma WholeMinute(t: int, x: int) returns (k: int)
    requires x > t && x % 60 == 0
    ensures k >= 1 && x == MinuteAfter(t, k)
  {
    k := x / 60 - t / 60;
  }

  function Search(f: Fields, after: int, k: int): Option<int>
    requires 1 <= k <= MINUTES + 1
    decreases MINUTES - k
  {
    if k > MINUTES then Some(after + 60)
    else
      var due :- DueAt(f, GmTime(MinuteAfter(after, k)));
      if due then Some(MinuteAfter(after, k)) else Search(f, after, k + 1)
  }

  function NextFire(expr: string, after: int): Option<int> {
    match Parse(expr)
    case None => Some(after + 60)
    case Some(f) => Search(f, after, 1)
  }

  lemma WholeMinutes(day: int, hour: int, min: int, sec: int)
    requires 0 <= sec < 60
    ensures (86400 * day + 3600 * hour + 60 * min + sec) / 60 == 1440 * day + 60 * hour + min
  {
  }

  /** One minute more on the clock, with the seconds dropped: the minute after. */
  lemma ClockStep(t: int)
    ensures 0 <= GmTime(t).mon < 12
    ensures TimeGm(GmTime(t).(sec := 0, min := GmTime(t).min + 1)) == MinuteAfter(t, 1)
  {
    hide DayNumber, GmTime, MonthLength;
    TimeGmOfGmTime(t);
    var tm := GmTime(t);
    WholeMinutes(DayNumber(tm.year, tm.mon, tm.mday), tm.hour, tm.min, tm.sec);
  }

  lemma ClockStepFromMinute(after: int, k: int)
    ensures var t := MinuteAfter(after, k);
      0 <= GmTime(t).mon < 12 && TimeGm(GmTime(t).(min := GmTime(t).min + 1)) == MinuteAfter(after, k + 1)
  {
    hide GmTime, TimeGm;
    ClockStep(MinuteAfter(after, k));
    SecondOfMinute(MinuteAfter(after, k));
  }

  lemma SecondOfMinute(t: int)
    requires t % 60 == 0
    ensures GmTime(t).sec == 0
  {
    hide DaysBeforeYear, DaysBeforeMonth, IsLeap;
    assert t % 86400 == t - 86400 * (t / 86400);
    assert t == 60 * (t / 60);
    assert t % 86400 == 60 * (t / 60 - 1440 * (t / 86400));
  }

  /** CalculateNextFire. The test for -1 never succeeds, because every time tested is a whole minute. */
  method CalculateNextFire(expr: string, afterTime: int) returns (next: Option<int>)
    ensures next == NextFire(expr, afterTime)
  {
    hide DaysBeforeYear, DaysBeforeMonth, IsLeap, GmTime, TimeGm, FieldMatches, Parse;
    ClockStep(afterTime);
    var fields := Parse(expr);
    if fields.None? {
      return Some(afterTime + 60);
    }
    var f := fields.value;
    var tm := GmTime(afterTime);
    tm := tm.(sec := 0);
    tm := tm.(min := tm.min + 1);
    var domIsWildcard, dowIsWildcard := IsWildcard(f.day), IsWildcard(f.weekday);
    for i := 0 to MINUTES
      invariant 0 <= tm.mon < 12 && TimeGm(tm) == MinuteAfter(afterTime, i + 1)
      invariant NextFire(expr, afterTime) == Search(f, afterTime, i + 1)
    {
      var currentTime := TimeGm(tm);
      if currentTime == -1 {
        return Some(afterTime + 60);
      }
      tm := GmTime(currentTime);
      ClockStepFromMinute(afterTime, i + 1);
      var dayMatches;
      if domIsWildcard && dowIsWildcard {
        dayMatches := true;
      } else if domIsWildcard {
        dayMatches :- MatchesField(f.weekday, tm.wday, 0, 6);
      } else if dowIsWildcard {
        dayMatches :- MatchesField(f.day, tm.mday, 1, 31);
      } else {
        var domMatches :- MatchesField(f.day, tm.mday, 1, 31);
        var dowMatches :- MatchesField(f.weekday, tm.wday, 0, 6);
        dayMatches := domMatches || dowMatches;
      }
      var minuteMatches :- MatchesField(f.minute, tm.min, 0, 59);
      if minuteMatches {
        var hourMatches :- MatchesField(f.hour, tm.hour, 0, 23);
        if hourMatches && dayMatches {
          var monthMatches :- MatchesField(f.month, tm.mon + 1, 1, 12);
          if monthMatches {
            return Some(currentTime);
          }
        }
      }
      tm := tm.(min := tm.min + 1);
    }
    return Some(afterTime + 60);
  }

  // ---------- What the search finds ----------

  /** The first `k` minutes are tested and none is due. */
  ghost predicate NoneDue(f: Fields, after: int, k: int) {
    forall j {:trigger MinuteAfter(after, j)} :: 1 <= j <= k ==> DueAt(f, GmTime(MinuteAfter(after, j))) == Some(false)
  }

  lemma {:induction false} SearchFinds(f: Fields, after: int, k: int) returns (found: int)
    requires 1 <= k <= MINUTES + 1 && NoneDue(f, after, k - 1)
    ensures k <= found <= MINUTES + 1 && NoneDue(f, after, found - 1)
    ensures found <= MINUTES ==> DueAt(f, GmTime(MinuteAfter(after, found))) != Some(false)
    ensures Search(f, after, k)
      == if found > MINUTES then Some(after + 60)
         else if DueAt(f, GmTime(MinuteAfter(after, found))).None? then None
         else Some(MinuteAfter(after, found))
    decreases MINUTES - k
  {
    hide DueAt, GmTime, MinuteAfter;
    if k > MINUTES || DueAt(f, GmTime(MinuteAfter(after, k))) != Some(false) {
      found := k;
    } else {
      found := SearchFinds(f, after, k + 1);
    }
  }

  /** A whole minute before the one found is not due. */
  lemma EarlierIsNotDue(f: Fields, after: int, found: int, x: int)
    requires NoneDue(f, after, found - 1) && after < x < MinuteAfter(after, found) && x % 60 == 0
    ensures DueAt(f, GmTime(x)) == Some(false)
  {
    hide DueAt, GmTime;
    var j := WholeMinute(after, x);
  }

  /** What the search should return: the earliest due minute of the year, or the fallback if there is none, or
      the exception of the first minute that throws. */
  ghost predicate IsEarliest(f: Fields, after: int, found: int, r: Option<int>) {
    && 1 <= found <= MINUTES + 1
    && (forall x :: after < x < MinuteAfter(after, found) && x % 60 == 0 ==> DueAt(f, GmTime(x)) == Some(false))
    && (if found > MINUTES then r == Some(after + 60)
        else if r.None? then DueAt(f, GmTime(MinuteAfter(after, found))).None?
        else r.value == MinuteAfter(after, found) > after && DueAt(f, GmTime(r.value)) == Some(true))
  }

  /** Over all expressions: the result is the earliest whole minute after `after` that is due, within a year of
      525600 minutes; or `after` plus a minute when there is none, or when there are not five fields; and the
      search throws exactly when a minute throws before any is due. */
  lemma NextFireIsEarliest(expr: string, after: int)
    ensures Parse(expr).None? ==> NextFire(expr, after) == Some(after + 60)
    ensures Parse(expr).Some? ==> exists found :: IsEarliest(Parse(expr).value, after, found, NextFire(expr, after))
  {
    hide DueAt, GmTime, Parse;
    if Parse(expr).Some? {
      var f := Parse(expr).value;
      var found := SearchFinds(f, after, 1);
      forall x | after < x < MinuteAfter(after, found) && x % 60 == 0
        ensures DueAt(f, GmTime(x)) == Some(false)
      {
        EarlierIsNotDue(f, after, found, x);
      }
      Decided(DueAt(f, GmTime(MinuteAfter(after, found))));
      assert IsEarliest(f, after, found, NextFire(expr, after));
    }
  }

  lemma NextFireIsLater(expr: string, now: int)
    ensures NextFire(expr, now).Some? ==> NextFire(expr, now).value > now
  {
    hide DueAt, Parse, Search, MinuteAfter;
    NextFireIsEarliest(expr, now);
    if Parse(expr).Some? {
      var found :| IsEarliest(Parse(expr).value, now, found, NextFire(expr, now));
    }
  }

  lemma Decided(due: Option<bool>)
    ensures due == None || due == Some(false) || due == Some(true)
  {
    if due.Some? {
      assert due.value ==> due == Some(true);
      assert !due.value ==> due == Some(false);
    }
  }

  /** With a wildcard in a day field, the time found passes the check made when it comes, unless it is the
      fallback of a search that found nothing. */
  lemma FoundTimeMatches(expr: string, after: int, t: int)
    requires Parse(expr).Some? && (IsWildcard(Parse(expr).value.day) || IsWildcard(Parse(expr).value.weekday))
    requires NextFire(expr, after) == Some(t)
    ensures CronMatches(expr, GmTime(t)) == Some(true) || (t == after + 60 && NoneDue(Parse(expr).value, after, MINUTES))
  {
    hide DueAt, GmTime, Parse, AllFieldsMatch, IsWildcard;
    var f := Parse(expr).value;
    var found := SearchFinds(f, after, 1);
    Decided(DueAt(f, GmTime(MinuteAfter(after, found))));
    if found <= MINUTES {
      WildcardDayAgrees(f, GmTime(t));
    }
  }

  // ---------- Where the two rules part ----------

  const FIRST_OR_MONDAY := "0 0 1 * 1"

  /** "0 0 1 * 1", asked for just before 1970-01-01: the search stops at that Thursday, because it is the first
      of the month, and the check made at that minute turns it down, because it is not a Monday. */
  lemma FirstOrMondayDisagrees()
    ensures NextFire(FIRST_OR_MONDAY, -60) == Some(0)
    ensures CronMatches(FIRST_OR_MONDAY, GmTime(0)) == Some(false)
  {
    hide GmTime, FieldMatches, Words;
    FirstOrMondayParses();
    Epoch();
    EpochFields();
    assert MinuteAfter(-60, 1) == 0;
  }

  lemma Epoch()
    ensures GmTime(0) == Tm(0, 0, 0, 1, 0, 1970, 4)
  {
    hide GmTime, DaysBeforeYear, DaysBeforeMonth, IsLeap;
    EpochDay();
    GmTimeOfTimeGm(Tm(0, 0, 0, 1, 0, 1970, 4));
  }

  lemma EpochDay()
    ensures DaysBeforeYear(1970) == 0
    ensures DaysBeforeMonth(0, IsLeap(1970)) == 0 && DaysBeforeMonth(1, IsLeap(1970)) == 31
  {
    hide IsLeap, LeapsUpTo;
  }

  lemma EpochFields()
    ensures FieldMatches("0", 0, 0, 59) == Some(true) && FieldMatches("0", 0, 0, 23) == Some(true)
    ensures FieldMatches("1", 1, 1, 31) == Some(true) && FieldMatches("1", 4, 0, 6) == Some(false)
    ensures FieldMatches("*", 1, 1, 12) == Some(true)
  {
    hide FieldMatches;
    WildcardField("*", 1, 1, 12);
    OneDigit(0, 0, 0, 59);
    OneDigit(0, 0, 0, 23);
    OneDigit(1, 1, 1, 31);
    OneDigit(1, 4, 0, 6);
  }

  lemma OneDigit(n: nat, value: int, minVal: int, maxVal: int)
    requires n < 10
    ensures FieldMatches([(48 + n) as char], value, minVal, maxVal) == Some(value == n)
  {
    hide FieldMatches;
    FieldMeansItsItems([One(n)], value, minVal, maxVal);
    FirstHitsOrRest([One(n)], value, minVal, maxVal);
    assert PrintedList([One(n)]) == [(48 + n) as char];
  }

  lemma WordsStep(w: string, rest: string, n: nat)
    requires w != "" && (forall c <- w :: !IsSpace(c)) && (rest != "" ==> IsSpace(rest[0]))
    ensures Words(w + rest, n + 1) == (if Words(rest, n).None? then None else Some([w] + Words(rest, n).value))
    ensures Words([' '] + (w + rest), n + 1) == Words(w + rest, n + 1)
  {
    WordOf(w, rest);
    assert SkipSpaces(w + rest) == w + rest;
    assert ([' '] + (w + rest))[1..] == w + rest;
    assert (w + rest)[|w|..] == rest;
  }

  lemma {:induction false} WordOf(w: string, rest: string)
    requires (forall c <- w :: !IsSpace(c)) && (rest != "" ==> IsSpace(rest[0]))
    ensures Word(w + rest) == w
  {
    if w == "" {
      assert w + rest == rest;
    } else {
      WordOf(w[1..], rest);
      assert (w + rest)[1..] == w[1..] + rest;
    }
  }

  lemma FirstOrMondayParses()
    ensures Parse(FIRST_OR_MONDAY) == Some(Fields("0", "0", "1", "*", "1"))
  {
    hide Words;
    WordsStep("1", "", 0);
    WordsStep("*", " 1", 1);
    WordsStep("1", " * 1", 2);
    WordsStep("0", " 1 * 1", 3);
    WordsStep("0", " 0 1 * 1", 4);
    NoWords("");
    assert "1" + "" == "1" && [' '] + "1" == " 1";
    assert "*" + " 1" == "* 1" && [' '] + "* 1" == " * 1";
    assert "1" + " * 1" == "1 * 1" && [' '] + "1 * 1" == " 1 * 1";
    assert "0" + " 1 * 1" == "0 1 * 1" && [' '] + "0 1 * 1" == " 0 1 * 1";
    assert "0" + " 0 1 * 1" == FIRST_OR_MONDAY;
  }

  lemma NoWords(s: string)
    ensures Words(s, 0) == Some([])
  {
  }
}
