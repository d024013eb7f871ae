/** src/models/openai_model.cpp: assembling a streamed model answer from raw chunks of
    server-sent events. JSON parsing is a parameter: a function from the text of a data line to the
    event it describes, or None when the text is no JSON or names no choice. An event that throws
    part-way is the event cut short where it threw. */
module SseStream {
  import opened IntOrder
  import opened Options

  /** One entry of delta.tool_calls. */
  datatype Delta = Delta(index: int, id: Option<string>, name: Option<string>, arguments: Option<string>)

  /** What choices[0] of one data line says. */
  datatype Event = Event(content: string, toolCalls: seq<Delta>, finishReason: Option<string>)

  type Parser = string -> Option<Event>

  datatype PartialToolCall = PartialToolCall(id: string, name: string, argumentsJson: string)

  /** What the stream has amounted to so far; `emitted` lists the deltas handed to onChunk. */
  datatype Answer = Answer(
    fullText: string,
    emitted: seq<string>,
    finishReason: string,
    finished: bool,
    partialToolCalls: map<int, PartialToolCall>)

  const NoAnswer: Answer := Answer("", [], "", false, map[])

  // ---------- One event, one line ----------

  function SlotAt(slots: map<int, PartialToolCall>, index: int): PartialToolCall {
    if index in slots then slots[index] else PartialToolCall("", "", "")
  }

  function AddDelta(slots: map<int, PartialToolCall>, d: Delta): map<int, PartialToolCall> {
    var slot := SlotAt(slots, d.index);
    slots[d.index := PartialToolCall(
      d.id.GetOr(slot.id),
      slot.name + d.name.GetOr(""),
      slot.argumentsJson + d.arguments.GetOr(""))]
  }

  function AddDeltas(slots: map<int, PartialToolCall>, deltas: seq<Delta>): map<int, PartialToolCall>
    decreases |deltas|
  {
    if deltas == [] then slots else AddDelta(AddDeltas(slots, deltas[..|deltas| - 1]), deltas[|deltas| - 1])
  }

  function AddEvent(a: Answer, e: Event): Answer {
    Answer(
      a.fullText + e.content,
      if e.content == "" then a.emitted else a.emitted + [e.content],
      e.finishReason.GetOr(a.finishReason),
      a.finished || e.finishReason.Some?,
      AddDeltas(a.partialToolCalls, e.toolCalls))
  }

  const DataPrefix: string := "data: "

  /** The event a line carries, if it is a data line that parses. */
  function EventOf(parse: Parser, line: string): Option<Event> {
    if DataPrefix <= line && line[6..] != "[DONE]" then parse(line[6..]) else None
  }

  function AddLine(parse: Parser, a: Answer, line: string): Answer {
    if DataPrefix <= line && line[6..] == "[DONE]" then a.(finished := true)
    else
      match EventOf(parse, line)
      case None => a
      case Some(e) => AddEvent(a, e)
  }

  function AddLines(parse: Parser, a: Answer, lines: seq<string>): Answer
    decreases |lines|
  {
    if lines == [] then a
    else AddLine(parse, AddLines(parse, a, lines[..|lines| - 1]), lines[|lines| - 1])
  }

  // ---------- Cutting the bytes into lines ----------

  /** Where the first newline stands, or |s|. */
  function FirstNewline(s: string): (n: nat)
    ensures n <= |s| && forall k :: 0 <= k < n ==> s[k] != '\n'
    ensures n < |s| ==> s[n] == '\n'
  {
    if s == "" || s[0] == '\n' then 0 else 1 + FirstNewline(s[1..])
  }

  /** The complete lines of a text, and what follows the last newline. */
  function Lines(s: string): seq<string>
    decreases |s|
  {
    var n := FirstNewline(s);
    if n == |s| then [] else [s[..n]] + Lines(s[n + 1..])
  }

  function Unended(s: string): string
    decreases |s|
  {
    var n := FirstNewline(s);
    if n == |s| then s else Unended(s[n + 1..])
  }

  class StreamContext {
    const parse: Parser
    var fullText: string
    var buffer: string
    var emitted: seq<string>
    var finishReason: string
    var finished: bool
    var partialToolCalls: map<int, PartialToolCall>

    constructor (parse: Parser)
      ensures this.parse == parse && buffer == "" && View() == NoAnswer
    {
      this.parse := parse;
      fullText, buffer, emitted, finishReason, finished, partialToolCalls := "", "", [], "", false, map[];
    }

    function View(): Answer
      reads this
    {
      Answer(fullText, emitted, finishReason, finished, partialToolCalls)
    }

    method ProcessSSEChunk(data: string)
      modifies this
      ensures View() == AddLines(parse, old(View()), Lines(old(buffer) + data))
      ensures buffer == Unended(old(buffer) + data)
    {
      hide AddLine, Lines, Unended;
      buffer := buffer + data;
      ghost var whole := buffer;
      ghost var done: seq<string> := [];
      assert done + Lines(whole) == Lines(whole);
      while true
        invariant View() == AddLines(parse, old(View()), done)
        invariant done + Lines(buffer) == Lines(whole)
        invariant Unended(buffer) == Unended(whole)
        decreases |buffer|
      {
        LinesUnfold(buffer);
        var pos := FirstNewline(buffer);
        if pos == |buffer| {
          assert done + [] == done;
          break;
        }
        var line := buffer[..pos];
        ghost var before := done + Lines(buffer);
        buffer := buffer[pos + 1..];
        ProcessLine(line);
        assert before == done + [line] + Lines(buffer);
        assert (done + [line])[..|done|] == done;
        done := done + [line];
      }
    }

    method ProcessLine(line: string)
      modifies `fullText, `emitted, `finishReason, `finished, `partialToolCalls
      ensures View() == AddLine(parse, old(View()), line)
    {
      if !(DataPrefix <= line) {
        return;
      }
      var dataStr := line[6..];
      if dataStr == "[DONE]" {
        finished := true;
        return;
      }
      var event := parse(dataStr);
      if event.None? {
        return;
      }
      var content := event.value.content;
      fullText := fullText + content;
      if content != "" {
        emitted := emitted + [content];
      }
      ghost var slots := partialToolCalls;
      var deltas := event.value.toolCalls;
      for k := 0 to |deltas|
        invariant fullText == old(fullText) + content && finishReason == old(finishReason) && finished == old(finished)
        invariant emitted == if content == "" then old(emitted) else old(emitted) + [content]
        invariant partialToolCalls == AddDeltas(slots, deltas[..k])
      {
        partialToolCalls := AddDelta(partialToolCalls, deltas[k]);
        assert deltas[..k + 1][..k] == deltas[..k];
      }
      assert deltas[..|deltas|] == deltas;
      if event.value.finishReason.Some? {
        finishReason := event.value.finishReason.value;
        finished := true;
      }
    }

    /** The tool calls of the finished answer: std::map is walked by ascending index. */
    method EmitToolCalls() returns (calls: seq<PartialToolCall>)
      ensures calls == InOrder(partialToolCalls, Ascending(partialToolCalls.Keys))
    {
      calls := [];
      var left := partialToolCalls.Keys;
      ghost var done: seq<int> := [];
      assert done + Ascending(left) == Ascending(left);
      while left != {}
        invariant left <= partialToolCalls.Keys
        invariant done + Ascending(left) == Ascending(partialToolCalls.Keys)
        invariant calls == InOrder(partialToolCalls, done)
        decreases left
      {
        LeastExists(left);
        var index :| IsLeast(index, left);
        AscendingUnfolds(left, index);
        ghost var before := done + Ascending(left);
        calls := calls + [Filled(partialToolCalls[index])];
        left := left - {index};
        assert before == done + [index] + Ascending(left);
        done := done + [index];
      }
      assert done + [] == done;
    }
  }

  /** A slot without arguments is emitted with the empty object. */
  function Filled(slot: PartialToolCall): PartialToolCall {
    slot.(argumentsJson := if slot.argumentsJson == "" then "{}" else slot.argumentsJson)
  }

  function InOrder(slots: map<int, PartialToolCall>, order: seq<int>): seq<PartialToolCall> {
    seq(|order|, k requires 0 <= k < |order| => Filled(SlotAt(slots, order[k])))
  }

  lemma LinesUnfold(s: string)
    ensures FirstNewline(s) == |s| ==> Lines(s) == [] && Unended(s) == s
    ensures FirstNewline(s) < |s| ==> Lines(s) == [s[..FirstNewline(s)]] + Lines(s[FirstNewline(s) + 1..])
    ensures FirstNewline(s) < |s| ==> Unended(s) == Unended(s[FirstNewline(s) + 1..])
  {
    hide FirstNewline;
  }

  // ---------- Chunking ----------

  /** Only an unended line waits for more input. */
  lemma {:induction false} LinesSplit(a: string, b: string)
    ensures Lines(a + b) == Lines(a) + Lines(Unended(a) + b)
    ensures Unended(a + b) == Unended(Unended(a) + b)
    decreases |a|
  {
    hide Lines, Unended;
    LinesUnfold(a);
    var n := FirstNewline(a);
    if n < |a| {
      FirstNewlineOfConcat(a, b);
      LinesUnfold(a + b);
      assert (a + b)[..n] == a[..n];
      assert (a + b)[n + 1..] == a[n + 1..] + b;
      LinesSplit(a[n + 1..], b);
    }
  }

  lemma FirstNewlineOfConcat(a: string, b: string)
    requires FirstNewline(a) < |a|
    ensures FirstNewline(a + b) == FirstNewline(a)
  {
    hide FirstNewline;
    assert forall k :: 0 <= k < |a| ==> (a + b)[k] == a[k];
  }

  lemma {:induction false} AddLinesOfConcat(parse: Parser, a: Answer, xs: seq<string>, ys: seq<string>)
    ensures AddLines(parse, a, xs + ys) == AddLines(parse, AddLines(parse, a, xs), ys)
    decreases |ys|
  {
    hide AddLine;
    if ys == [] {
      assert xs + ys == xs;
    } else {
      var last := |ys| - 1;
      AddLinesOfConcat(parse, a, xs, ys[..last]);
      assert (xs + ys)[..|xs + ys| - 1] == xs + ys[..last];
    }
  }

  datatype Progress = Progress(answer: Answer, buffer: string)

  /** ProcessSSEChunk called on one chunk after another. */
  function Feed(parse: Parser, p: Progress, chunks: seq<string>): Progress
    decreases |chunks|
  {
    if chunks == [] then p
    else
      var text := p.buffer + chunks[0];
      Feed(parse, Progress(AddLines(parse, p.answer, Lines(text)), Unended(text)), chunks[1..])
  }

  function Concat(chunks: seq<string>): string {
    if chunks == [] then "" else chunks[0] + Concat(chunks[1..])
  }

  lemma {:induction false} FeedIsFold(parse: Parser, p: Progress, chunks: seq<string>)
    requires Unended(p.buffer) == p.buffer && Lines(p.buffer) == []
    ensures var text := p.buffer + Concat(chunks);
      Feed(parse, p, chunks) == Progress(AddLines(parse, p.answer, Lines(text)), Unended(text))
    decreases |chunks|
  {
    hide Lines, Unended, AddLine;
    if chunks == [] {
      assert p.buffer + Concat(chunks) == p.buffer;
    } else {
      var text := p.buffer + chunks[0];
      var rest := Concat(chunks[1..]);
      assert text + rest == p.buffer + Concat(chunks);
      LinesSplit(text, rest);
      UnendedIsUnended(text);
      AddLinesOfConcat(parse, p.answer, Lines(text), Lines(Unended(text) + rest));
      FeedIsFold(parse, Progress(AddLines(parse, p.answer, Lines(text)), Unended(text)), chunks[1..]);
    }
  }

  lemma {:induction false} UnendedIsUnended(s: string)
    ensures Unended(Unended(s)) == Unended(s) && Lines(Unended(s)) == []
    decreases |s|
  {
    if FirstNewline(s) < |s| {
      UnendedIsUnended(s[FirstNewline(s) + 1..]);
    }
  }

  /** However the bytes are cut into chunks, the answer is the fold over the complete lines of the
      whole, and what waits in the buffer is what follows the last newline. */
  lemma ChunkingDoesNotMatter(parse: Parser, chunks: seq<string>)
    ensures
      Feed(parse, Progress(NoAnswer, ""), chunks)
      == Progress(AddLines(parse, NoAnswer, Lines(Concat(chunks))), Unended(Concat(chunks)))
  {
    FeedIsFold(parse, Progress(NoAnswer, ""), chunks);
    assert "" + Concat(chunks) == Concat(chunks);
  }

  // ---------- What the fold amounts to ----------

  /** The tool-call deltas of all the lines, in arrival order. */
  function Deltas(parse: Parser, lines: seq<string>): seq<Delta>
    decreases |lines|
  {
    if lines == [] then []
    else
      var event := EventOf(parse, lines[|lines| - 1]);
      Deltas(parse, lines[..|lines| - 1]) + if event.Some? then event.value.toolCalls else []
  }

  datatype Field = Id | Name | Arguments

  function Pick(d: Delta, field: Field): Option<string> {
    match field
    case Id => d.id
    case Name => d.name
    case Arguments => d.arguments
  }

  /** The pieces of one field that arrived for one slot, in order. */
  function Fragments(deltas: seq<Delta>, index: int, field: Field): seq<string>
    decreases |deltas|
  {
    if deltas == [] then []
    else
      var d := deltas[|deltas| - 1];
      Fragments(deltas[..|deltas| - 1], index, field)
        + if d.index == index && Pick(d, field).Some? then [Pick(d, field).value] else []
  }

  lemma {:induction false} ConcatOfSnoc(xs: seq<string>, x: string)
    ensures Concat(xs + [x]) == Concat(xs) + x
  {
    if xs == [] {
      assert [x][1..] == [] && xs + [x] == [x];
    } else {
      ConcatOfSnoc(xs[1..], x);
      assert (xs + [x])[1..] == xs[1..] + [x];
    }
  }

  /** The deltas handed to onChunk concatenate to the full text, and none of them is empty. */
  lemma {:induction false} EmittedIsFullText(parse: Parser, lines: seq<string>)
    ensures var a := AddLines(parse, NoAnswer, lines);
      Concat(a.emitted) == a.fullText && "" !in a.emitted
    decreases |lines|
  {
    if lines != [] {
      var line := lines[|lines| - 1];
      var a := AddLines(parse, NoAnswer, lines[..|lines| - 1]);
      EmittedIsFullText(parse, lines[..|lines| - 1]);
      match EventOf(parse, line) {
        case None =>
        case Some(e) => ConcatOfSnoc(a.emitted, e.content);
      }
    }
  }

  lemma {:induction false} AddDeltasOfConcat(slots: map<int, PartialToolCall>, xs: seq<Delta>, ys: seq<Delta>)
    ensures AddDeltas(slots, xs + ys) == AddDeltas(AddDeltas(slots, xs), ys)
    decreases |ys|
  {
    hide AddDelta;
    if ys == [] {
      assert xs + ys == xs;
    } else {
      var last := |ys| - 1;
      AddDeltasOfConcat(slots, xs, ys[..last]);
      assert (xs + ys)[..|xs + ys| - 1] == xs + ys[..last];
    }
  }

  lemma {:induction false} SlotsComeFromDeltas(parse: Parser, lines: seq<string>)
    ensures AddLines(parse, NoAnswer, lines).partialToolCalls == AddDeltas(map[], Deltas(parse, lines))
    decreases |lines|
  {
    if lines != [] {
      var before := lines[..|lines| - 1];
      SlotsComeFromDeltas(parse, before);
      var event := EventOf(parse, lines[|lines| - 1]);
      AddDeltasOfConcat(map[], Deltas(parse, before), if event.Some? then event.value.toolCalls else []);
    }
  }

  /** The slot that the deltas for `index` describe: the last id, and the pieces of name and
      arguments run together. */
  function Assembled(deltas: seq<Delta>, index: int): PartialToolCall {
    var ids := Fragments(deltas, index, Id);
    PartialToolCall(
      if ids == [] then "" else ids[|ids| - 1],
      Concat(Fragments(deltas, index, Name)),
      Concat(Fragments(deltas, index, Arguments)))
  }

  lemma {:induction false} SlotsCollectFragments(deltas: seq<Delta>, index: int)
    ensures index in AddDeltas(map[], deltas) <==> exists d <- deltas :: d.index == index
    ensures SlotAt(AddDeltas(map[], deltas), index) == Assembled(deltas, index)
    decreases |deltas|
  {
    hide Fragments, Concat;
    if deltas == [] {
      assert Assembled([], index) == PartialToolCall("", "", "") by {
        NothingAssembled(index);
      }
    } else {
      var before, d := deltas[..|deltas| - 1], deltas[|deltas| - 1];
      assert deltas == before + [d];
      SlotsCollectFragments(before, index);
      FragmentsGrow(before, d, index, Id);
      FragmentsGrow(before, d, index, Name);
      FragmentsGrow(before, d, index, Arguments);
    }
  }

  lemma NothingAssembled(index: int)
    ensures Assembled([], index) == PartialToolCall("", "", "")
  {
  }

  lemma FragmentsGrow(before: seq<Delta>, d: Delta, index: int, field: Field)
    ensures var grown := Fragments(before + [d], index, field);
      if d.index == index && Pick(d, field).Some? then
        && grown == Fragments(before, index, field) + [Pick(d, field).value]
        && Concat(grown) == Concat(Fragments(before, index, field)) + Pick(d, field).value
      else grown == Fragments(before, index, field)
  {
    assert (before + [d])[..|before|] == before;
    ConcatOfSnoc(Fragments(before, index, field), Pick(d, field).GetOr(""));
  }

  /** A slot exists exactly when a delta named its index; its id is the last one given, and its name
      and arguments are that index's fragments in arrival order. */
  lemma SlotsAreFragmentsInOrder(parse: Parser, lines: seq<string>, index: int)
    ensures var slots := AddLines(parse, NoAnswer, lines).partialToolCalls;
      && (index in slots <==> exists d <- Deltas(parse, lines) :: d.index == index)
      && (index in slots ==> slots[index] == Assembled(Deltas(parse, lines), index))
  {
    SlotsComeFromDeltas(parse, lines);
    SlotsCollectFragments(Deltas(parse, lines), index);
  }
}
