/** examples/jiuwenClaw/cron_watcher.cpp, lines 30-68: does a value match one field of a cron expression?
    A missing value stands for the exception std::stoi throws. */
module CronField {
  import opened CppStrings
  import opened Options

  const INT_MAX := 0x7fff_ffff
  const INT_MIN := -0x8000_0000

  // ---------- std::stoi ----------

  predicate IsSpace(c: char) {
    c == ' ' || 9 <= c as int <= 13
  }

  predicate IsDigit(c: char) {
    48 <= c as int <= 57
  }

  function SkipSpaces(s: string): string {
    if s != "" && IsSpace(s[0]) then SkipSpaces(s[1..]) else s
  }

  /** The number a run of digits continues to, and where it stops does not matter. */
  function NumberFrom(s: string, acc: nat): nat {
    if s != "" && IsDigit(s[0]) then NumberFrom(s[1..], 10 * acc + (s[0] as int - 48)) else acc
  }

  /** Blanks, a sign, digits, and anything after them. */
  function Stoi(s: string): Option<int> {
    var text := SkipSpaces(s);
    var negative := text != "" && text[0] == '-';
    var digits := if text != "" && (text[0] == '-' || text[0] == '+') then text[1..] else text;
    if digits == "" || !IsDigit(digits[0]) then None
    else
      var magnitude: int := NumberFrom(digits, 0);
      var n := if negative then -magnitude else magnitude;
      if INT_MIN <= n <= INT_MAX then Some(n) else None
  }

  // ---------- The field ----------

  /** What repeated std::getline with delimiter ',' yields: no empty piece after a final comma. */
  function Pieces(s: string): seq<string>
    decreases |s|
  {
    if s == "" then []
    else
      var comma := FindChar(s, ',', 0);
      if comma == NPOS then [s] else [s[..comma]] + Pieces(s[comma + 1..])
  }

  /** A whole number of steps on from the start, and no further than the field goes. */
  predicate OnStep(start: int, step: int, value: int, maxVal: int) {
    step > 0 && start <= value <= maxVal && (value - start) % step == 0
  }

  /** What stands before and after a slash. */
  function StepMatches(base: string, stepText: string, value: int, minVal: int, maxVal: int): Option<bool> {
    var step :- Stoi(stepText);
    if step <= 0 then Some(false)
    else
      var start :- if base == "*" then Some(minVal) else Stoi(base);
      Some(OnStep(start, step, value, maxVal))
  }

  function RangeMatches(first: string, last: string, value: int): Option<bool> {
    var start :- Stoi(first);
    var end :- Stoi(last);
    Some(start <= value <= end)
  }

  function NumberMatches(field: string, value: int): Option<bool> {
    var target :- Stoi(field);
    Some(value == target)
  }

  /** A field without commas. A dash is looked for before a slash. */
  function PieceMatches(field: string, value: int, minVal: int, maxVal: int): Option<bool> {
    var dash, slash := FindChar(field, '-', 0), FindChar(field, '/', 0);
    if field == "*" || field == "?" then Some(true)
    else if dash != NPOS then RangeMatches(field[..dash], field[dash + 1..], value)
    else if slash != NPOS then
      StepMatches(field[..slash], field[slash + 1..], value, minVal, maxVal)
    else NumberMatches(field, value)
  }

  /** The first piece that matches ends the search; a piece that throws before it ends it too. */
  function SomePieceMatches(pieces: seq<string>, value: int, minVal: int, maxVal: int): Option<bool> {
    if pieces == [] then Some(false)
    else
      var matched :- PieceMatches(pieces[0], value, minVal, maxVal);
      if matched then Some(true) else SomePieceMatches(pieces[1..], value, minVal, maxVal)
  }

  function FieldMatches(field: string, value: int, minVal: int, maxVal: int): Option<bool> {
    if FindChar(field, ',', 0) == NPOS then PieceMatches(field, value, minVal, maxVal)
    else SomePieceMatches(Pieces(field), value, minVal, maxVal)
  }

  /** The stepping loop of lines 60-63 reaches the values a whole number of steps from its start. */
  method StepsTo(start: int, step: int, value: int, maxVal: int) returns (reached: bool)
    requires step > 0
    ensures reached <==> OnStep(start, step, value, maxVal)
  {
    var v, k := start, 0;
    while v <= maxVal
      invariant v == start + k * step && k >= 0
      invariant start <= value < v ==> (value - start) % step != 0
      decreases maxVal - v
    {
      if v == value {
        MultipleOf(k, step);
        return true;
      }
      if v < value < v + step {
        BetweenSteps(value - start, k, step);
      }
      v, k := v + step, k + 1;
    }
    return false;
  }

  lemma MultipleOf(k: int, step: int)
    requires step > 0
    ensures (k * step) % step == 0
  {
    BetweenSteps(k * step, k, step);
  }

  lemma AtLeastOne(m: int, step: int)
    requires m > 0 && step > 0
    ensures m * step >= step
  {
  }

  lemma BetweenSteps(n: int, k: int, step: int)
    requires k * step <= n < k * step + step
    ensures n % step == n - k * step
  {
    var q, r := n / step, n % step;
    assert n == q * step + r && 0 <= r < step;
    Quotients(q, r, k, n - k * step, step);
  }

  lemma Quotients(q: int, r: int, k: int, m: int, step: int)
    requires q * step + r == k * step + m && 0 <= r < step && 0 <= m < step
    ensures r == m
  {
    assert (q - k) * step == m - r;
    assert (k - q) * step == r - m;
    if q > k {
      AtLeastOne(q - k, step);
    } else if q < k {
      AtLeastOne(k - q, step);
    }
  }

  lemma WildcardMatches(field: string, value: int, minVal: int, maxVal: int)
    ensures field == "*" || field == "?" ==> FieldMatches(field, value, minVal, maxVal) == Some(true)
  {
  }

  /** The recursive call of line 39, and the comma loop around it. */
  method MatchesField(field: string, value: int, minVal: int, maxVal: int) returns (r: Option<bool>)
    ensures r == FieldMatches(field, value, minVal, maxVal)
    decreases |field|
  {
    hide PieceMatches;
    WildcardMatches(field, value, minVal, maxVal);
    if field == "*" || field == "?" {
      return Some(true);
    }
    if FindChar(field, ',', 0) != NPOS {
      var rest := field;
      while rest != ""
        invariant rest == field || |rest| < |field|
        invariant SomePieceMatches(Pieces(field), value, minVal, maxVal) == SomePieceMatches(Pieces(rest), value, minVal, maxVal)
        decreases |rest|
      {
        var comma := FindChar(rest, ',', 0);
        var part := if comma == NPOS then rest else rest[..comma];
        rest := if comma == NPOS then "" else rest[comma + 1..];
        r := MatchesField(part, value, minVal, maxVal);
        if r != Some(false) {
          return;
        }
      }
      return Some(false);
    }
    r := MatchesPiece(field, value, minVal, maxVal);
  }

  method MatchesPiece(field: string, value: int, minVal: int, maxVal: int) returns (r: Option<bool>)
    ensures r == PieceMatches(field, value, minVal, maxVal)
  {
    hide RangeMatches, StepMatches, NumberMatches, FindChar;
    if field == "*" || field == "?" {
      return Some(true);
    }
    var dash := FindChar(field, '-', 0);
    if dash != NPOS {
      return RangeMatches(field[..dash], field[dash + 1..], value);
    }
    var slash := FindChar(field, '/', 0);
    if slash != NPOS {
      r := MatchesStep(field[..slash], field[slash + 1..], value, minVal, maxVal);
      return;
    }
    return NumberMatches(field, value);
  }

  method MatchesStep(base: string, stepText: string, value: int, minVal: int, maxVal: int) returns (r: Option<bool>)
    ensures r == StepMatches(base, stepText, value, minVal, maxVal)
  {
    hide OnStep, Stoi;
    var step :- Stoi(stepText);
    if step <= 0 {
      return Some(false);
    }
    var start :- if base == "*" then Some(minVal) else Stoi(base);
    var reached := StepsTo(start, step, value, maxVal);
    return Some(reached);
  }

  // ---------- What a field means ----------

  /** One item of a field as its documentation describes it. */
  datatype Item = Any | One(n: nat) | Span(first: nat, last: nat) | Every(start: Option<nat>, step: nat)

  predicate Hits(item: Item, value: int, minVal: int, maxVal: int) {
    match item
    case Any => true
    case One(n) => value == n
    case Span(first, last) => first <= value <= last
    case Every(start, step) =>
      step > 0 && OnStep(if start.Some? then start.value else minVal, step, value, maxVal)
  }

  predicate SomeHits(items: seq<Item>, value: int, minVal: int, maxVal: int) {
    exists item <- items :: Hits(item, value, minVal, maxVal)
  }

  predicate FitsInt(item: Item) {
    match item
    case Any => true
    case One(n) => n <= INT_MAX
    case Span(first, last) => first <= INT_MAX && last <= INT_MAX
    case Every(start, step) => step <= INT_MAX && (start.Some? ==> start.value <= INT_MAX)
  }

  function Digits(n: nat): string {
    var last := [(48 + n % 10) as char];
    if n < 10 then last else Digits(n / 10) + last
  }

  function Printed(item: Item): string {
    match item
    case Any => "*"
    case One(n) => Digits(n)
    case Span(first, last) => Digits(first) + "-" + Digits(last)
    case Every(start, step) => (if start.Some? then Digits(start.value) else "*") + "/" + Digits(step)
  }

  function PrintedList(items: seq<Item>): string
    requires items != []
  {
    if |items| == 1 then Printed(items[0]) else Printed(items[0]) + "," + PrintedList(items[1..])
  }

  lemma {:induction false} DigitsAreDigits(n: nat)
    ensures Digits(n) != "" && forall k :: 0 <= k < |Digits(n)| ==> IsDigit(Digits(n)[k])
  {
    if n >= 10 {
      DigitsAreDigits(n / 10);
    }
  }

  lemma {:induction false} ReadsDigits(n: nat, tail: string)
    ensures NumberFrom(Digits(n) + tail, 0) == NumberFrom(tail, n)
  {
    var last := [(48 + n % 10) as char];
    if n < 10 {
      assert (Digits(n) + tail)[1..] == tail;
    } else {
      ReadsDigits(n / 10, last + tail);
      assert Digits(n / 10) + (last + tail) == Digits(n) + tail;
      assert (last + tail)[1..] == tail;
    }
  }

  /** stoi reads a printed number back, whatever non-digit follows. */
  lemma StoiReadsBack(n: nat, tail: string)
    requires n <= INT_MAX && (tail != "" ==> !IsDigit(tail[0]))
    ensures Stoi(Digits(n) + tail) == Some(n)
  {
    DigitsAreDigits(n);
    ReadsDigits(n, tail);
    assert (Digits(n) + tail)[0] == Digits(n)[0];
  }

  /** No character of a printed number is one the field syntax looks for. */
  lemma DigitsHideNothing(n: nat, c: char)
    requires !IsDigit(c)
    ensures FindChar(Digits(n), c, 0) == NPOS
  {
    DigitsAreDigits(n);
  }

  /** The first `c` of `left + [c] + right` is the one in the middle, when `left` has none. */
  lemma FindsSeparator(left: string, c: char, right: string)
    requires FindChar(left, c, 0) == NPOS
    ensures FindChar(left + [c] + right, c, 0) == |left|
    ensures (left + [c] + right)[..|left|] == left && (left + [c] + right)[|left| + 1..] == right
  {
    var s := left + [c] + right;
    assert s[|left|] == c;
    assert forall k :: 0 <= k < |left| ==> s[k] == left[k];
  }

  lemma NoneInSum(left: string, c: char, right: string)
    requires FindChar(left, c, 0) == NPOS && FindChar(right, c, 0) == NPOS
    ensures FindChar(left + right, c, 0) == NPOS
  {
    var s := left + right;
    assert forall k :: 0 <= k < |s| ==> s[k] == if k < |left| then left[k] else right[k - |left|];
  }

  lemma PrintedHasNoComma(item: Item)
    ensures FindChar(Printed(item), ',', 0) == NPOS
  {
    match item
    case Any =>
    case One(n) => DigitsHideNothing(n, ',');
    case Span(first, last) =>
      DigitsHideNothing(first, ',');
      DigitsHideNothing(last, ',');
      NoneInSum(Digits(first), ',', "-");
      NoneInSum(Digits(first) + "-", ',', Digits(last));
    case Every(start, step) =>
      var base := if start.Some? then Digits(start.value) else "*";
      if start.Some? {
        DigitsHideNothing(start.value, ',');
      }
      DigitsHideNothing(step, ',');
      NoneInSum(base, ',', "/");
      NoneInSum(base + "/", ',', Digits(step));
  }

  /** A piece means what its item says. */
  lemma PieceMeansItem(item: Item, value: int, minVal: int, maxVal: int)
    requires FitsInt(item)
    ensures PieceMatches(Printed(item), value, minVal, maxVal) == Some(Hits(item, value, minVal, maxVal))
  {
    match item
    case Any =>
    case One(n) =>
      DigitsHideNothing(n, '-');
      DigitsHideNothing(n, '/');
      DigitsAreDigits(n);
      StoiReadsBack(n, "");
      assert Digits(n) + "" == Digits(n);
    case Span(first, last) => SpanMeans(first, last, "", value, minVal, maxVal);
    case Every(start, step) => EveryMeans(start, step, value, minVal, maxVal);
  }

  /** Anything after the end of a range is ignored. */
  lemma SpanMeans(first: nat, last: nat, tail: string, value: int, minVal: int, maxVal: int)
    requires first <= INT_MAX && last <= INT_MAX && (tail != "" ==> !IsDigit(tail[0]))
    ensures PieceMatches(Digits(first) + "-" + (Digits(last) + tail), value, minVal, maxVal) == Some(first <= value <= last)
    ensures tail == "" ==> Digits(first) + "-" + (Digits(last) + tail) == Digits(first) + "-" + Digits(last)
  {
    DigitsHideNothing(first, '-');
    FindsSeparator(Digits(first), '-', Digits(last) + tail);
    StoiReadsBack(first, "");
    assert Digits(first) + "" == Digits(first);
    StoiReadsBack(last, tail);
    DigitsAreDigits(first);
    assert tail == "" ==> Digits(last) + tail == Digits(last);
  }

  /** The text before the slash of a printed step. */
  function Base(start: Option<nat>): string {
    if start.Some? then Digits(start.value) else "*"
  }

  lemma BaseHidesNothing(start: Option<nat>)
    ensures FindChar(Base(start), '-', 0) == NPOS && FindChar(Base(start), '/', 0) == NPOS
    ensures start.None? ==> Base(start) == "*"
    ensures start.Some? && start.value <= INT_MAX ==> Base(start) != "*" && Stoi(Base(start)) == Some(start.value)
  {
    if start.Some? {
      DigitsHideNothing(start.value, '-');
      DigitsHideNothing(start.value, '/');
      DigitsAreDigits(start.value);
      if start.value <= INT_MAX {
        StoiReadsBack(start.value, "");
        assert Digits(start.value) + "" == Digits(start.value);
      }
    }
  }

  lemma EveryMeans(start: Option<nat>, step: nat, value: int, minVal: int, maxVal: int)
    requires FitsInt(Every(start, step))
    ensures PieceMatches(Printed(Every(start, step)), value, minVal, maxVal)
      == Some(Hits(Every(start, step), value, minVal, maxVal))
  {
    hide OnStep, Stoi, Digits, Base;
    EveryPrints(start, step);
    BaseHidesNothing(start);
    StepReadsBack(step);
    EverySplits(Base(start), Digits(step), value, minVal, maxVal);
  }

  lemma EveryPrints(start: Option<nat>, step: nat)
    ensures Printed(Every(start, step)) == Base(start) + "/" + Digits(step)
  {
  }

  lemma StepReadsBack(step: nat)
    ensures FindChar(Digits(step), '-', 0) == NPOS
    ensures step <= INT_MAX ==> Stoi(Digits(step)) == Some(step)
  {
    DigitsHideNothing(step, '-');
    if step <= INT_MAX {
      StoiReadsBack(step, "");
      assert Digits(step) + "" == Digits(step);
    }
  }

  lemma EverySplits(base: string, stepText: string, value: int, minVal: int, maxVal: int)
    requires FindChar(base, '-', 0) == NPOS && FindChar(stepText, '-', 0) == NPOS && FindChar(base, '/', 0) == NPOS
    ensures PieceMatches(base + "/" + stepText, value, minVal, maxVal) == StepMatches(base, stepText, value, minVal, maxVal)
  {
    hide StepMatches;
    NoneInSum(base, '-', "/");
    NoneInSum(base + "/", '-', stepText);
    FindsSeparator(base, '/', stepText);
  }

  lemma {:induction false} PiecesOfList(items: seq<Item>)
    requires items != []
    ensures PrintedList(items) != ""
    ensures |Pieces(PrintedList(items))| == |items|
    ensures forall k :: 0 <= k < |items| ==> Pieces(PrintedList(items))[k] == Printed(items[k])
    ensures FindChar(PrintedList(items), ',', 0) == NPOS <==> |items| == 1
    decreases |items|
  {
    PrintedHasNoComma(items[0]);
    PrintedIsSomething(items[0]);
    if |items| > 1 {
      PiecesOfList(items[1..]);
      FindsSeparator(Printed(items[0]), ',', PrintedList(items[1..]));
      assert Pieces(PrintedList(items)) == [Printed(items[0])] + Pieces(PrintedList(items[1..]));
    }
  }

  lemma PrintedIsSomething(item: Item)
    ensures Printed(item) != ""
  {
    if item.One? {
      DigitsAreDigits(item.n);
    }
  }

  lemma {:induction false} SomePieceMeansSomeItem(pieces: seq<string>, items: seq<Item>, value: int, minVal: int, maxVal: int)
    requires |pieces| == |items| && forall k :: 0 <= k < |items| ==> pieces[k] == Printed(items[k]) && FitsInt(items[k])
    ensures SomePieceMatches(pieces, value, minVal, maxVal) == Some(SomeHits(items, value, minVal, maxVal))
    decreases |items|
  {
    hide PieceMatches, Hits, Printed, FitsInt, SomeHits;
    FirstHitsOrRest(items, value, minVal, maxVal);
    if items != [] {
      PieceMeansItem(items[0], value, minVal, maxVal);
      SomePieceMeansSomeItem(pieces[1..], items[1..], value, minVal, maxVal);
    }
  }

  lemma FirstHitsOrRest(items: seq<Item>, value: int, minVal: int, maxVal: int)
    ensures SomeHits(items, value, minVal, maxVal)
      <==> items != [] && (Hits(items[0], value, minVal, maxVal) || SomeHits(items[1..], value, minVal, maxVal))
  {
    hide Hits;
    if items != [] {
      assert items == [items[0]] + items[1..];
    }
  }

  /** A printed list of items never throws, and matches exactly the values one of its items names. */
  lemma FieldMeansItsItems(items: seq<Item>, value: int, minVal: int, maxVal: int)
    requires items != [] && forall item <- items :: FitsInt(item)
    ensures FieldMatches(PrintedList(items), value, minVal, maxVal)
      == Some(SomeHits(items, value, minVal, maxVal))
  {
    hide PieceMatches, Hits, SomeHits, Pieces, Printed, FitsInt;
    PiecesOfList(items);
    if |items| == 1 {
      FirstHitsOrRest(items, value, minVal, maxVal);
      PieceMeansItem(items[0], value, minVal, maxVal);
      FirstHitsOrRest(items[1..], value, minVal, maxVal);
    } else {
      SomePieceMeansSomeItem(Pieces(PrintedList(items)), items, value, minVal, maxVal);
    }
  }

  /** A step after a range is dropped: "a-b/s" matches every value of the range. */
  lemma RangeIgnoresStep(first: nat, last: nat, step: nat, value: int, minVal: int, maxVal: int)
    requires first <= INT_MAX && last <= INT_MAX
    ensures FieldMatches(Digits(first) + "-" + (Digits(last) + ("/" + Digits(step))), value, minVal, maxVal)
      == Some(first <= value <= last)
  {
    hide PieceMatches, Pieces;
    SpanMeans(first, last, "/" + Digits(step), value, minVal, maxVal);
    DigitsHideNothing(first, ',');
    DigitsHideNothing(last, ',');
    DigitsHideNothing(step, ',');
    NoneInSum(Digits(first), ',', "-");
    NoneInSum("/", ',', Digits(step));
    NoneInSum(Digits(last), ',', "/" + Digits(step));
    NoneInSum(Digits(first) + "-", ',', Digits(last) + ("/" + Digits(step)));
  }
}
