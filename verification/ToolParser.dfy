/** src/utils/tool_parser.cpp: finding the tool calls a model printed into free text. */
module ToolParser {
  import opened CppStrings

  datatype ParsedToolCall = ParsedToolCall(name: string, arguments: string)

  // ---------- ExtractJson ----------

  /** Quotes open and close a string. */
  function Quoting(c: char, inString: bool): bool {
    if c == '"' then !inString else inString
  }

  /** Outside strings, braces nest. */
  function Nesting(c: char, depth: int, quoted: bool): int {
    if !quoted && c == '{' then depth + 1
    else if !quoted && c == '}' then depth - 1
    else depth
  }

  /** The brace scanner on the text that is left: how many characters up to and including the brace
      that brings `depth` to zero, or NPOS. A backslash hides the next character; quotes hide braces. */
  function Scan(s: string, depth: int, inString: bool): (r: int)
    ensures r == NPOS || 0 < r <= |s|
  {
    if s == "" then NPOS
    else if s[0] == '\\' then
      if |s| == 1 then NPOS else Later(2, Scan(s[2..], depth, inString))
    else
      var quoted := Quoting(s[0], inString);
      var nested := Nesting(s[0], depth, quoted);
      if nested < depth && nested == 0 then 1
      else Later(1, Scan(s[1..], nested, quoted))
  }

  /** One step of the scanner. */
  lemma ScanUnfolds(s: string, depth: int, inString: bool)
    requires s != ""
    ensures
      Scan(s, depth, inString) ==
      if s[0] == '\\' then
        if |s| == 1 then NPOS else Later(2, Scan(s[2..], depth, inString))
      else
        var quoted := Quoting(s[0], inString);
        var nested := Nesting(s[0], depth, quoted);
        if nested < depth && nested == 0 then 1
        else Later(1, Scan(s[1..], nested, quoted))
  {
  }

  function Later(n: nat, r: int): int {
    if r == NPOS then NPOS else n + r
  }

  /** The balanced object that starts at `startPos`, or "". */
  function Extract(text: string, startPos: nat): (r: string)
    ensures r != "" ==> startPos + |r| <= |text| && r == text[startPos..startPos + |r|] && r[0] == '{'
  {
    if startPos >= |text| || text[startPos] != '{' then ""
    else
      var n := Scan(text[startPos..], 0, false);
      if n == NPOS then "" else text[startPos..][..n]
  }

  /** The scanner at position `i` of a text. */
  lemma ScanAt(text: string, i: nat, depth: int, inString: bool)
    requires i <= |text|
    ensures i == |text| ==> Scan(text[i..], depth, inString) == NPOS
    ensures i < |text| ==>
      Scan(text[i..], depth, inString) ==
      if text[i] == '\\' then
        if i + 1 == |text| then NPOS else Later(2, Scan(text[i + 2..], depth, inString))
      else
        var quoted := Quoting(text[i], inString);
        var nested := Nesting(text[i], depth, quoted);
        if nested < depth && nested == 0 then 1
        else Later(1, Scan(text[i + 1..], nested, quoted))
  {
    if i < |text| {
      assert text[i..][1..] == text[i + 1..];
      assert i + 1 < |text| ==> text[i..][2..] == text[i + 2..];
    }
  }

  method ExtractJson(text: string, startPos: nat) returns (r: string)
    ensures r == Extract(text, startPos)
  {
    hide Scan;
    if startPos >= |text| {
      return "";
    }
    if text[startPos] != '{' {
      return "";
    }
    var depth := 0;
    var inString := false;
    var i := startPos;
    while i < |text|
      invariant startPos <= i <= |text| + 1
      invariant Scan(text[startPos..], 0, false)
             == if i <= |text| then Later(i - startPos, Scan(text[i..], depth, inString)) else NPOS
    {
      ScanAt(text, i, depth, inString);
      if text[i] == '\\' {
        i := i + 2;
        continue;
      }
      if text[i] == '"' {
        inString := !inString;
      }
      if !inString {
        if text[i] == '{' {
          depth := depth + 1;
        } else if text[i] == '}' {
          depth := depth - 1;
          if depth == 0 {
            assert text[startPos..][..i - startPos + 1] == text[startPos..i + 1];
            return text[startPos..i + 1];
          }
        }
      }
      i := i + 1;
    }
    ScanAt(text, |text|, depth, inString);
    return "";
  }

  // ---------- ExtractAllToolCalls ----------

  /** The string value after the `"name"` key at `nameKey`; "" when it is not a string. */
  function NameIn(json: string, nameKey: nat): string {
    var colon := FindChar(json, ':', nameKey + 6);
    var valStart := FirstNonBlank(json, colon + 1);
    if valStart != NPOS && json[valStart] == '"' then
      var valEnd := FindChar(json, '"', valStart + 1);
      if valEnd != NPOS then json[valStart + 1..valEnd] else ""
    else ""
  }

  /** The object or string value after the `"arguments"` key at `argsKey`; "{}" otherwise. */
  function ArgumentsIn(json: string, argsKey: nat): string {
    var colon := FindChar(json, ':', argsKey + 11);
    var valStart := FirstNonBlank(json, colon + 1);
    if valStart == NPOS then "{}"
    else if json[valStart] == '{' then
      var obj := Extract(json, valStart);
      if obj != "" then obj else "{}"
    else if json[valStart] == '"' then
      var end := FindChar(json, '"', valStart + 1);
      if end != NPOS then "\"" + json[valStart + 1..end] + "\"" else "{}"
    else "{}"
  }

  predicate ValidName(name: string) {
    0 < |name| < 50 && '{' !in name && '}' !in name
  }

  /** The call, if any, that one balanced object describes. */
  function CallIn(json: string): seq<ParsedToolCall> {
    var nameKey := FindString(json, "\"name\"", 0);
    var argsKey := FindString(json, "\"arguments\"", 0);
    if nameKey != NPOS && argsKey != NPOS then
      var call := ParsedToolCall(NameIn(json, nameKey), ArgumentsIn(json, argsKey));
      if ValidName(call.name) then [call] else []
    else []
  }

  /** The calls in the text that is left. */
  function CallsIn(s: string): seq<ParsedToolCall>
    decreases |s|
  {
    var start := FindChar(s, '{', 0);
    if start == NPOS then []
    else
      var json := Extract(s, start);
      if json == "" then CallsIn(s[start + 1..])
      else CallIn(json) + CallsIn(s[start + |json|..])
  }

  /** One turn of the search loop. */
  lemma CallsInUnfolds(s: string, start: int)
    requires start == FindChar(s, '{', 0)
    ensures
      CallsIn(s) ==
      if start == NPOS then []
      else if Extract(s, start) == "" then CallsIn(s[start + 1..])
      else CallIn(Extract(s, start)) + CallsIn(s[start + |Extract(s, start)|..])
  {
    hide Extract, CallIn, FindChar;
  }

  lemma ExtractInSuffix(text: string, from: nat, startPos: nat)
    requires from + startPos <= |text|
    ensures Extract(text[from..], startPos) == Extract(text, from + startPos)
  {
    hide Scan;
    if from + startPos < |text| {
      assert text[from..][startPos..] == text[from + startPos..];
    }
  }

  /** The same turn, read by positions in the whole response. */
  lemma CallsInFrom(response: string, searchPos: nat, start: int)
    requires searchPos <= |response|
    requires start == FindChar(response, '{', searchPos)
    ensures
      CallsIn(response[searchPos..]) ==
      if start == NPOS then []
      else if Extract(response, start) == "" then CallsIn(response[start + 1..])
      else CallIn(Extract(response, start)) + CallsIn(response[start + |Extract(response, start)|..])
  {
    hide *;
    var rest := response[searchPos..];
    FindCharInSuffix(response, '{', searchPos);
    CallsInUnfolds(rest, FindChar(rest, '{', 0));
    if start != NPOS {
      var at := start - searchPos;
      ExtractInSuffix(response, searchPos, at);
      assert rest[at + 1..] == response[start + 1..];
      assert rest[at + |Extract(rest, at)|..] == response[start + |Extract(rest, at)|..];
    }
  }

  method ExtractAllToolCalls(response: string) returns (calls: seq<ParsedToolCall>)
    ensures calls == CallsIn(response)
  {
    hide *;
    calls := [];
    var searchPos := 0;
    assert response[0..] == response;
    while searchPos < |response|
      invariant 0 <= searchPos <= |response|
      invariant calls + CallsIn(response[searchPos..]) == CallsIn(response)
    {
      var jsonStart := FindChar(response, '{', searchPos);
      CallsInFrom(response, searchPos, jsonStart);
      if jsonStart == NPOS {
        break;
      }
      var json := ExtractJson(response, jsonStart);
      if json == "" {
        searchPos := jsonStart + 1;
        continue;
      }
      calls := calls + CallIn(json);
      searchPos := jsonStart + |json|;
    }
    CallsInFrom(response, searchPos, FindChar(response, '{', searchPos));
  }

  // ---------- What the scanner sees is only the object itself ----------

  /** Text after the closing brace does not matter. */
  lemma {:induction false} ScanIgnoresTail(a: string, b: string, depth: int, inString: bool)
    requires Scan(a, depth, inString) != NPOS
    ensures Scan(a + b, depth, inString) == Scan(a, depth, inString)
  {
    hide Scan;
    ScanUnfolds(a, depth, inString);
    ScanUnfolds(a + b, depth, inString);
    if a[0] == '\\' {
      assert (a + b)[2..] == a[2..] + b;
      ScanIgnoresTail(a[2..], b, depth, inString);
    } else {
      assert (a + b)[1..] == a[1..] + b;
      var quoted := Quoting(a[0], inString);
      var nested := Nesting(a[0], depth, quoted);
      if !(nested < depth && nested == 0) {
        ScanIgnoresTail(a[1..], b, nested, quoted);
      }
    }
  }

  /** Nor does text after the position where the scan stopped: the prefix scans alike. */
  lemma {:induction false} ScanOfPrefix(s: string, depth: int, inString: bool)
    requires Scan(s, depth, inString) != NPOS
    ensures Scan(s[..Scan(s, depth, inString)], depth, inString) == Scan(s, depth, inString)
  {
    hide Scan;
    var n := Scan(s, depth, inString);
    ScanUnfolds(s, depth, inString);
    ScanUnfolds(s[..n], depth, inString);
    if s[0] == '\\' {
      ScanOfPrefix(s[2..], depth, inString);
      assert s[..n][2..] == s[2..][..n - 2];
    } else {
      var quoted := Quoting(s[0], inString);
      var nested := Nesting(s[0], depth, quoted);
      assert s[..n][1..] == s[1..][..n - 1];
      if !(nested < depth && nested == 0) {
        ScanOfPrefix(s[1..], nested, quoted);
      }
    }
  }

  /** What closes exactly at its end is stepped over when met `outer` levels deeper. */
  lemma {:induction false} ScanStepsOver(a: string, b: string, depth: nat, inString: bool, outer: nat)
    requires depth >= 1 && outer >= 1
    requires Scan(a, depth, inString) == |a|
    ensures Scan(a + b, depth + outer, inString) == Later(|a|, Scan(b, outer, false))
  {
    hide Scan;
    ScanUnfolds(a, depth, inString);
    ScanUnfolds(a + b, depth + outer, inString);
    if a[0] == '\\' {
      assert (a + b)[2..] == a[2..] + b;
      ScanStepsOver(a[2..], b, depth, inString, outer);
    } else {
      assert (a + b)[1..] == a[1..] + b;
      var quoted := Quoting(a[0], inString);
      var nested := Nesting(a[0], depth, quoted);
      if nested == 0 {
        assert a[1..] + b == b;
      } else {
        ScanStepsOver(a[1..], b, nested, quoted, outer);
      }
    }
  }

  predicate Plain(s: string) {
    forall k :: 0 <= k < |s| ==> s[k] != '"' && s[k] != '\\' && s[k] != '{' && s[k] != '}'
  }

  /** Text without quotes, backslashes and braces leaves the scanner's state alone. */
  lemma {:induction false} ScanSkipsPlain(a: string, b: string, depth: int, inString: bool)
    requires Plain(a)
    ensures Scan(a + b, depth, inString) == Later(|a|, Scan(b, depth, inString))
  {
    if a == "" {
      assert a + b == b;
    } else {
      assert (a + b)[1..] == a[1..] + b;
      ScanSkipsPlain(a[1..], b, depth, inString);
    }
  }

  function Quoted(s: string): string {
    "\"" + s + "\""
  }

  /** A quoted plain text is stepped over. */
  lemma ScanSkipsQuoted(a: string, b: string, depth: int)
    requires Plain(a)
    ensures Scan(Quoted(a) + b, depth, false) == Later(|a| + 2, Scan(b, depth, false))
  {
    assert (Quoted(a) + b)[1..] == a + ("\"" + b);
    ScanSkipsPlain(a, "\"" + b, depth, true);
    assert ("\"" + b)[1..] == b;
  }

  /** A text the parser hands back is a text the parser accepts whole. */
  lemma ExtractIsIdempotent(text: string, startPos: nat)
    ensures Extract(Extract(text, startPos), 0) == Extract(text, startPos)
  {
    var r := Extract(text, startPos);
    if r != "" {
      ScanOfPrefix(text[startPos..], 0, false);
      assert r[0..] == r;
      assert r[..|r|] == r;
    }
  }

  // ---------- Printing calls, and reading them back ----------

  /** A name that the printed layout can carry: accepted by the parser, and free of JSON syntax. */
  predicate PrintableName(name: string) {
    0 < |name| < 50 && Plain(name)
  }

  /** An argument object: any text that the brace scanner accepts as exactly one object. */
  predicate BalancedObject(args: string) {
    args != "" && Extract(args, 0) == args
  }

  predicate Printable(call: ParsedToolCall) {
    PrintableName(call.name) && BalancedObject(call.arguments)
  }

  /** The documented name-first layout. */
  function Print(call: ParsedToolCall): string {
    "{" + Member("name", Quoted(call.name) + ", " + Member("arguments", call.arguments + "}"))
  }

  /** A quoted key, a colon and a blank, then what follows. */
  function Member(key: string, rest: string): string {
    Quoted(key) + (": " + rest)
  }

  /** Calls in a row, each after a piece of prose, with closing prose at the end. */
  function PrintAll(prose: seq<string>, calls: seq<ParsedToolCall>, closing: string): string
    requires |prose| == |calls|
  {
    if calls == [] then closing
    else prose[0] + Print(calls[0]) + PrintAll(prose[1..], calls[1..], closing)
  }

  /** A balanced object, met at depth one, is stepped over. */
  lemma ScanSkipsObject(args: string, rest: string)
    requires BalancedObject(args)
    ensures Scan(args + rest, 1, false) == Later(|args|, Scan(rest, 1, false))
  {
    assert args[0..] == args;
    assert Scan(args[1..], 1, false) == |args| - 1;
    ScanStepsOver(args[1..], rest, 1, false, 1);
    assert (args + rest)[1..] == args[1..] + rest;
  }

  lemma ScanSkipsKey(key: string, rest: string)
    requires Plain(key)
    ensures Scan(Member(key, rest), 1, false) == Later(|key| + 4, Scan(rest, 1, false))
  {
    ScanSkipsQuoted(key, ": " + rest, 1);
    ScanSkipsPlain(": ", rest, 1, false);
  }

  lemma ScanOpens(rest: string)
    ensures Scan("{" + rest, 0, false) == Later(1, Scan(rest, 1, false))
  {
    assert ("{" + rest)[1..] == rest;
  }

  /** The scanner takes a printed call whole, whatever follows it. */
  lemma ScanPrinted(call: ParsedToolCall, rest: string)
    requires Printable(call)
    ensures Scan(Print(call) + rest, 0, false) == |Print(call)|
  {
    hide Scan, Extract, BalancedObject;
    var name, key := "name", "arguments";
    var fromArgs := call.arguments + ("}" + rest);
    var fromKey := Member(key, fromArgs);
    var fromName := Quoted(call.name) + (", " + fromKey);
    assert Print(call) + rest == "{" + Member(name, fromName);
    ScanOpens(Member(name, fromName));
    ScanSkipsKey(name, fromName);
    ScanSkipsQuoted(call.name, ", " + fromKey, 1);
    ScanSkipsPlain(", ", fromKey, 1, false);
    ScanSkipsKey(key, fromArgs);
    ScanSkipsObject(call.arguments, "}" + rest);
    ScanCloses(rest);
  }

  lemma ScanCloses(rest: string)
    ensures Scan("}" + rest, 1, false) == 1
  {
  }

  // ---------- Reading the printed call's two members ----------

  /** Where things stand in a printed call: the name runs from 10, the arguments from |name| + 26. */
  lemma PrintedLayout(call: ParsedToolCall)
    ensures var p, m := Print(call), |call.name|;
      && |p| == m + 27 + |call.arguments|
      && p[..10] == "{\"name\": \""
      && p[10..10 + m] == call.name
      && p[10 + m..26 + m] == "\", \"arguments\": "
      && p[26 + m..] == call.arguments + "}"
  {
    var p, m := Print(call), |call.name|;
    assert p == "{\"name\": \"" + call.name + "\", \"arguments\": " + (call.arguments + "}");
  }

  lemma PrintedNameIsRead(call: ParsedToolCall)
    requires Printable(call)
    ensures FindString(Print(call), "\"name\"", 0) == 1
    ensures NameIn(Print(call), 1) == call.name
  {
    hide Print, Extract, BalancedObject;
    PrintedLayout(call);
    var p, m := Print(call), |call.name|;
    var head := "{\"name\": \"";
    assert forall k :: 0 <= k < 10 ==> p[k] == p[..10][k] == head[k];
    assert p[1..7] == "\"name\"";
    assert OccursAt(p, "\"name\"", 1);
    assert p[0..6][0] == '{';
    assert FindChar(p, ':', 7) == 7;
    assert FirstNonBlank(p, 8) == 9;
    assert p[10 + m] == p[10 + m..26 + m][0];
    assert forall k :: 10 <= k < 10 + m ==> p[k] == p[10..10 + m][k - 10] == call.name[k - 10];
    assert FindChar(p, '"', 10) == 10 + m;
  }

  /** The first `"arguments"` is the key, or the name when the name is `arguments`: the first colon
      after either is the key's. */
  lemma PrintedArgumentsAreRead(call: ParsedToolCall)
    requires Printable(call)
    ensures var argsKey := FindString(Print(call), "\"arguments\"", 0);
      argsKey != NPOS && ArgumentsIn(Print(call), argsKey) == call.arguments
  {
    var p, m := Print(call), |call.name|;
    var argsKey := PrintedArgumentsColon(call);
    PrintedLayout(call);
    assert p[25 + m] == p[10 + m..26 + m][15] == ' ';
    assert p[26 + m] == p[26 + m..][0] == call.arguments[0];
    assert FirstNonBlank(p, 25 + m) == 26 + m;
    PrintedObjectIsRead(call.arguments, p, 26 + m);
  }

  lemma PrintedObjectIsRead(args: string, p: string, at: nat)
    requires BalancedObject(args)
    requires at <= |p| && p[at..] == args + "}"
    ensures Extract(p, at) == args
  {
    assert args[0..] == args;
    ScanIgnoresTail(args, "}", 0, false);
    assert p[at] == p[at..][0] == args[0];
    assert p[at..][..|args|] == args;
  }

  const ArgumentsKey: string := "\"arguments\""

  /** Where the quotes and colons of a printed call with a name of length `m` stand. */
  predicate Punctuated(p: string, m: nat) {
    && |p| > 26 + m
    && (forall k :: 0 <= k < 13 + m && p[k] == '"' ==> k == 1 || k == 6 || k == 9 || k == 10 + m)
    && p[10 + m] == '"' && p[2] == 'n' && p[7] == ':' && p[11 + m] == ','
    && p[24 + m] == ':' && (forall k :: 10 + m <= k < 24 + m ==> p[k] != ':')
    && OccursAt(p, ArgumentsKey, 13 + m)
  }

  /** The quotes and the colon before the name. */
  lemma HeadPunctuation(p: string)
    requires |p| >= 10 && p[..10] == "{\"name\": \""
    ensures forall k :: 0 <= k < 10 && p[k] == '"' ==> k == 1 || k == 6 || k == 9
    ensures p[2] == 'n' && p[7] == ':'
  {
    var head := "{\"name\": \"";
    assert forall k :: 0 <= k < 10 ==> p[k] == p[..10][k] == head[k];
  }

  /** The quotes and the colon after the name. */
  lemma TailPunctuation(p: string, at: nat)
    requires at + 16 <= |p| && p[at..at + 16] == "\", \"arguments\": "
    ensures p[at] == '"' && p[at + 1] == ',' && p[at + 2] == ' ' && p[at + 14] == ':'
    ensures forall k :: at <= k < at + 14 ==> p[k] != ':'
    ensures OccursAt(p, ArgumentsKey, at + 3)
  {
    var tail := "\", \"arguments\": ";
    assert forall k :: at <= k < at + 16 ==> p[k] == p[at..at + 16][k - at] == tail[k - at];
    assert p[at + 3..at + 14] == tail[3..14];
    assert tail[3..14] == ArgumentsKey;
  }

  lemma PrintedPunctuation(call: ParsedToolCall)
    requires Printable(call)
    ensures Punctuated(Print(call), |call.name|)
  {
    hide Print, Extract, BalancedObject, OccursAt;
    PrintedLayout(call);
    var p, m := Print(call), |call.name|;
    HeadPunctuation(p);
    TailPunctuation(p, 10 + m);
    assert forall k :: 10 <= k < 10 + m ==> p[k] == p[10..10 + m][k - 10] == call.name[k - 10];
  }

  /** Only two places can hold the quoted key: the key, or a name that is `arguments`. */
  lemma ArgumentsKeyPlace(p: string, m: nat, at: nat)
    requires Punctuated(p, m)
    requires at <= 13 + m && OccursAt(p, ArgumentsKey, at)
    ensures at == 13 + m || (at == 9 && m == 9)
  {
    OccursChars(p, ArgumentsKey, at);
    assert p[at] == '"' && p[at + 1] == 'a' && p[at + 10] == '"';
    assert at == 9 || at == 13 + m;
    assert forall k :: at < k < at + 10 ==> p[k] != '"';
  }

  lemma PrintedArgumentsColon(call: ParsedToolCall) returns (argsKey: nat)
    requires Printable(call)
    ensures argsKey == FindString(Print(call), ArgumentsKey, 0)
    ensures FindChar(Print(call), ':', argsKey + 11) == 24 + |call.name|
  {
    hide Print, Printable;
    PrintedPunctuation(call);
    argsKey := FindString(Print(call), ArgumentsKey, 0);
    ArgumentsKeyPlace(Print(call), |call.name|, argsKey);
  }

  /** A printed call parses to itself. */
  lemma PrintedCallIsRead(call: ParsedToolCall)
    requires Printable(call)
    ensures CallIn(Print(call)) == [call]
  {
    hide Print, Extract, BalancedObject, FindString, NameIn, ArgumentsIn;
    PrintedNameIsRead(call);
    PrintedArgumentsAreRead(call);
  }

  predicate BraceFree(s: string) {
    '{' !in s && '}' !in s
  }

  /** One step of the search: past brace-free prose, a printed call is read and consumed whole. */
  lemma PrintedCallIsConsumed(prose: string, call: ParsedToolCall, rest: string)
    requires BraceFree(prose) && Printable(call)
    ensures CallsIn(prose + Print(call) + rest) == [call] + CallsIn(rest)
  {
    var s, p := prose + Print(call) + rest, Print(call);
    assert FindChar(s, '{', 0) == |prose| by {
      assert s[|prose|] == '{';
      assert forall k :: 0 <= k < |prose| ==> s[k] == prose[k];
    }
    assert s[|prose|..] == p + rest;
    assert Extract(s, |prose|) == p by {
      ScanPrinted(call, rest);
      assert (p + rest)[..|p|] == p;
    }
    assert s[|prose| + |p|..] == rest;
    PrintedCallIsRead(call);
    CallsInUnfolds(s, |prose|);
  }

  /** Round trip: any list of printable calls, printed between brace-free prose, is read back exactly. */
  lemma {:induction false} PrintedCallsRoundTrip(prose: seq<string>, calls: seq<ParsedToolCall>, closing: string)
    requires |prose| == |calls|
    requires forall p <- prose :: BraceFree(p)
    requires BraceFree(closing)
    requires forall c <- calls :: Printable(c)
    ensures CallsIn(PrintAll(prose, calls, closing)) == calls
  {
    if calls == [] {
      assert FindChar(closing, '{', 0) == NPOS;
    } else {
      PrintedCallIsConsumed(prose[0], calls[0], PrintAll(prose[1..], calls[1..], closing));
      PrintedCallsRoundTrip(prose[1..], calls[1..], closing);
    }
  }

  // ---------- Whatever the text, what comes out is a call ----------

  /** An accepted arguments value: one balanced object, or a quoted string without inner quotes. */
  predicate ArgumentsShape(args: string) {
    || BalancedObject(args)
    || (|args| >= 2 && args[0] == '"' && args[|args| - 1] == '"' && '"' !in args[1..|args| - 1])
  }

  lemma EmptyObjectIsBalanced()
    ensures BalancedObject("{}")
  {
    ScanOpens("}");
    ScanCloses("");
    assert "{}" == "{" + "}" && "}" == "}" + "";
  }

  lemma ArgumentsAreWellShaped(json: string, argsKey: int)
    ensures argsKey >= 0 ==> ArgumentsShape(ArgumentsIn(json, argsKey))
  {
    hide Extract;
    if argsKey < 0 {
      return;
    }
    EmptyObjectIsBalanced();
    var valStart := FirstNonBlank(json, FindChar(json, ':', argsKey + 11) + 1);
    if valStart != NPOS && json[valStart] == '{' {
      ExtractIsIdempotent(json, valStart);
    }
  }

  lemma CallIsValid(json: string)
    ensures forall call <- CallIn(json) :: ValidName(call.name) && ArgumentsShape(call.arguments)
  {
    hide Extract, NameIn, ArgumentsIn, ArgumentsShape, FindString;
    ArgumentsAreWellShaped(json, FindString(json, "\"arguments\"", 0));
  }

  /** Over every model response: each extracted call has a valid name and well-shaped arguments. */
  lemma {:induction false} CallsAreValid(s: string)
    ensures forall call <- CallsIn(s) :: ValidName(call.name) && ArgumentsShape(call.arguments)
    decreases |s|
  {
    hide Extract, CallIn, ArgumentsShape, ValidName;
    var start := FindChar(s, '{', 0);
    if start != NPOS {
      var json := Extract(s, start);
      if json == "" {
        CallsAreValid(s[start + 1..]);
      } else {
        CallIsValid(json);
        CallsAreValid(s[start + |json|..]);
      }
    }
  }

  /** The round trip is exact: among the texts ExtractJson maps to themselves, only the empty one is
      lost, because the parser never reports empty arguments. */
  lemma RoundTripIffArgumentsPresent(call: ParsedToolCall)
    requires PrintableName(call.name) && Extract(call.arguments, 0) == call.arguments
    ensures CallsIn(Print(call)) == [call] <==> call.arguments != ""
  {
    hide CallsIn, Print, Extract, Scan, CallIn;
    if call.arguments != "" {
      PrintedCallsRoundTrip([""], [call], "");
      assert PrintAll([""], [call], "") == Print(call);
    } else {
      CallsAreValid(Print(call));
      assert CallsIn(Print(call)) == [call] ==> call in CallsIn(Print(call));
    }
  }
}
