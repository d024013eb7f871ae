/** src/context_engine/context_engine.cpp: cutting a conversation down to the window the model sees. */
module ContextWindow {
  import opened ContextTokens
  import opened ToolPairing

  /** The two limits of ContextConfig that the window obeys. */
  datatype Limits = Limits(maxContextTokens: int, maxMessages: int)

  function Max(a: int, b: int): int {
    if a >= b then a else b
  }

  // ---------- Merging neighbours ----------

  predicate CanMerge(prev: Message, cur: Message) {
    && prev.role == cur.role
    && prev.role != "tool"
    && !(prev.role == "assistant" && (prev.toolCalls != [] || cur.toolCalls != []))
  }

  function MergeMessageContent(left: string, right: string): string {
    if left == "" then right
    else if right == "" then left
    else left + "\n\n" + right
  }

  /** One more message joins its neighbour or stands on its own. */
  function Join(ms: seq<Message>, m: Message): (r: seq<Message>)
    ensures r != []
  {
    var last := |ms| - 1;
    if ms != [] && CanMerge(ms[last], m) then
      ms[..last] + [ms[last].(content := MergeMessageContent(ms[last].content, m.content))]
    else ms + [m]
  }

  function Merged(ms: seq<Message>): (r: seq<Message>)
    ensures ms != [] ==> r != []
  {
    if ms == [] then [] else Join(Merged(ms[..|ms| - 1]), ms[|ms| - 1])
  }

  // ---------- Segments ----------

  datatype MessageSegment = MessageSegment(start: nat, end: nat, startsWithUser: bool, tokens: int)

  predicate IsUser(m: Message) {
    m.role == "user"
  }

  /** A stretch of messages that no user message interrupts. */
  predicate Uninterrupted(ms: seq<Message>, start: nat, end: nat) {
    && start < end <= |ms|
    && forall k :: start < k < end ==> !IsUser(ms[k])
  }

  /** A segment starts at the very beginning or with a user message, its only one but for the first. */
  predicate IsSegment(ms: seq<Message>, s: MessageSegment) {
    && Uninterrupted(ms, s.start, s.end)
    && (s.start == 0 || IsUser(ms[s.start]))
    && s.startsWithUser == IsUser(ms[s.start])
    && s.tokens == MessagesTokens(ms[s.start..s.end])
  }

  /** Where the first `i` segments end. */
  function EndOf(segments: seq<MessageSegment>, i: nat): nat
    requires i <= |segments|
  {
    if i == 0 then 0 else segments[i - 1].end
  }

  /** The segments lie end to end from the beginning up to `end`. */
  predicate Partition(ms: seq<Message>, segments: seq<MessageSegment>, end: nat) {
    && (forall i :: 0 <= i < |segments| ==> IsSegment(ms, segments[i]) && segments[i].start == EndOf(segments, i))
    && end == EndOf(segments, |segments|)
  }

  lemma NoSegments(ms: seq<Message>)
    ensures Partition(ms, [], 0)
  {
  }

  /** One more segment at the end. */
  lemma PartitionGrows(ms: seq<Message>, segments: seq<MessageSegment>, s: MessageSegment)
    requires Partition(ms, segments, s.start) && IsSegment(ms, s)
    ensures Partition(ms, segments + [s], s.end)
  {
    hide IsSegment;
    var more := segments + [s];
    forall i | 0 <= i < |more|
      ensures IsSegment(ms, more[i]) && more[i].start == EndOf(more, i)
    {
      assert EndOf(more, i) == EndOf(segments, i);
      if i < |segments| {
        assert more[i] == segments[i];
      }
    }
  }

  method BuildMessageSegments(messages: seq<Message>) returns (segments: seq<MessageSegment>)
    ensures Partition(messages, segments, |messages|)
  {
    hide MessagesTokens, Partition;
    NoSegments(messages);
    segments := [];
    if messages == [] {
      return;
    }
    var start := 0;
    for i := 1 to |messages|
      invariant Uninterrupted(messages, start, i)
      invariant start == 0 || IsUser(messages[start])
      invariant Partition(messages, segments, start)
    {
      if messages[i].role == "user" {
        var tokens := CalculateMessagesTokens(messages[start..i]);
        var segment := MessageSegment(start, i, messages[start].role == "user", tokens);
        PartitionGrows(messages, segments, segment);
        segments := segments + [segment];
        start := i;
      }
    }
    var tokens := CalculateMessagesTokens(messages[start..]);
    assert messages[start..] == messages[start..|messages|];
    var segment := MessageSegment(start, |messages|, messages[start].role == "user", tokens);
    PartitionGrows(messages, segments, segment);
    segments := segments + [segment];
  }

  /** Where the newest segment starts: at the last user message that is not the very first message. */
  function LastSegment(ms: seq<Message>): (start: nat)
    requires ms != []
    ensures Uninterrupted(ms, start, |ms|)
    ensures start == 0 || IsUser(ms[start])
  {
    if |ms| == 1 || IsUser(ms[|ms| - 1]) then |ms| - 1
    else LastSegment(ms[..|ms| - 1])
  }

  lemma LastSegmentIsUnique(ms: seq<Message>, start: nat)
    requires ms != [] && Uninterrupted(ms, start, |ms|)
    requires start == 0 || IsUser(ms[start])
    ensures LastSegment(ms) == start
  {
  }

  // ---------- Compressing a segment ----------

  function Heading(): string {
    "Context segment compressed due to context window limits."
  }

  function ToolHeading(): string {
    "\n\nTool results summary:"
  }

  function StateHeading(): string {
    "\n\nLatest assistant state:\n"
  }

  /** At most `n` characters, with dots for what is cut off. */
  function Preview(s: string, n: nat): string {
    if |s| > n then s[..n] + "..." else s
  }

  function ToolSummary(m: Message): string {
    "- " + (if m.toolName == "" then "tool" else m.toolName)
      + (if m.payloadRef == "" then "" else " payload_ref=" + m.payloadRef)
      + (if m.content == "" then "" else ": " + Preview(m.content, 240))
  }

  predicate SpokenByAssistant(m: Message) {
    m.role == "assistant" && m.toolCalls == [] && m.content != ""
  }

  function ToolSummaries(ms: seq<Message>): seq<string> {
    if ms == [] then []
    else
      var m := ms[|ms| - 1];
      ToolSummaries(ms[..|ms| - 1]) + if m.role == "tool" then [ToolSummary(m)] else []
  }

  function LastAssistantText(ms: seq<Message>): string {
    if ms == [] then ""
    else
      var m := ms[|ms| - 1];
      if m.role != "tool" && SpokenByAssistant(m) then m.content else LastAssistantText(ms[..|ms| - 1])
  }

  function Listed(items: seq<string>): string {
    if items == [] then "" else Listed(items[..|items| - 1]) + ("\n" + items[|items| - 1])
  }

  function SummaryText(ms: seq<Message>): string {
    var items, text := ToolSummaries(ms), LastAssistantText(ms);
    Heading() + ToolPart(items) + StatePart(text)
  }

  function ToolPart(items: seq<string>): string {
    if items == [] then ""
    else if |items| > 8 then ToolHeading() + Listed(items[..8]) + "\n- ..."
    else ToolHeading() + Listed(items)
  }

  function StatePart(text: string): string {
    if text == "" then "" else StateHeading() + Preview(text, 800)
  }

  /** Something in the segment is worth a summary. */
  predicate HasSummary(ms: seq<Message>) {
    ToolSummaries(ms) != [] || LastAssistantText(ms) != ""
  }

  function SummaryMessage(text: string): Message {
    Message("assistant", text, [], "", "", "", "")
  }

  /** Halve until it fits. */
  function Halved(s: string, budget: int): string {
    if Tokens(s) > budget && s != "" then Halved(s[..|s| / 2], budget) else s
  }

  /** The user message that opens a segment, if one does. */
  function Opening(ms: seq<Message>): seq<Message> {
    if ms != [] && IsUser(ms[0]) then [ms[0]] else []
  }

  function OrMarker(s: string): string {
    if s == "" then "[compressed]" else s
  }

  function Compressed(limits: Limits, ms: seq<Message>, budget: int): seq<Message> {
    if MessagesTokens(ms) <= budget && |ms| <= limits.maxMessages then ms
    else if !HasSummary(ms) then Opening(ms)
    else
      var whole := SummaryMessage(SummaryText(ms));
      if MessagesTokens(Opening(ms) + [whole]) <= budget then Opening(ms) + [whole]
      else
        var room := Max(1, budget - MessagesTokens(Opening(ms)));
        Opening(ms) + [SummaryMessage(OrMarker(Halved(SummaryText(ms), room)))]
  }

  method CompressSegment(limits: Limits, messages: seq<Message>, segment: MessageSegment, tokenBudget: int)
    returns (compressed: seq<Message>)
    ensures
      compressed ==
      if segment.start >= segment.end || segment.end > |messages| || tokenBudget <= 0 then []
      else Compressed(limits, messages[segment.start..segment.end], tokenBudget)
  {
    hide SummaryText, ToolSummaries, LastAssistantText, MessagesTokens, Halved;
    if segment.start >= segment.end || segment.end > |messages| || tokenBudget <= 0 {
      return [];
    }
    var segmentMessages := messages[segment.start..segment.end];
    var cost := CalculateMessagesTokens(segmentMessages);
    if cost <= tokenBudget && |segmentMessages| <= limits.maxMessages {
      return segmentMessages;
    }

    compressed := [];
    if segmentMessages[0].role == "user" {
      compressed := compressed + [segmentMessages[0]];
    }
    assert compressed == Opening(segmentMessages);

    var toolSummaries, lastAssistantText := Gather(segmentMessages);
    if toolSummaries == [] && lastAssistantText == "" {
      return;
    }
    var content := Summarise(segmentMessages, toolSummaries, lastAssistantText);
    compressed := compressed + [SummaryMessage(content)];
    cost := CalculateMessagesTokens(compressed);
    if cost > tokenBudget {
      compressed := compressed[..|compressed| - 1];
      assert compressed == Opening(segmentMessages);
      var prefixTokens := CalculateMessagesTokens(compressed);
      var budgetForSummary := Max(1, tokenBudget - prefixTokens);
      content := Halve(content, budgetForSummary);
      if content == "" {
        content := "[compressed]";
      }
      compressed := compressed + [SummaryMessage(content)];
    }
  }

  /** The halving loop. */
  method Halve(text: string, budget: int) returns (content: string)
    ensures content == Halved(text, budget)
  {
    hide Tokens;
    content := text;
    var n := EstimateTokens(content);
    while n > budget && content != ""
      invariant n == Tokens(content)
      invariant Halved(content, budget) == Halved(text, budget)
      decreases |content|
    {
      content := content[..|content| / 2];
      n := EstimateTokens(content);
    }
  }

  /** The loop over the segment's messages. */
  method Gather(ms: seq<Message>) returns (toolSummaries: seq<string>, lastAssistantText: string)
    ensures toolSummaries == ToolSummaries(ms) && lastAssistantText == LastAssistantText(ms)
  {
    hide ToolSummary;
    toolSummaries := [];
    lastAssistantText := "";
    for k := 0 to |ms|
      invariant toolSummaries == ToolSummaries(ms[..k]) && lastAssistantText == LastAssistantText(ms[..k])
    {
      assert ms[..k + 1][..k] == ms[..k];
      if ms[k].role == "tool" {
        toolSummaries := toolSummaries + [ToolSummary(ms[k])];
      } else if SpokenByAssistant(ms[k]) {
        lastAssistantText := ms[k].content;
      }
    }
    assert ms[..|ms|] == ms;
  }

  /** The summary's text. */
  method Summarise(ghost ms: seq<Message>, toolSummaries: seq<string>, lastAssistantText: string)
    returns (content: string)
    requires toolSummaries == ToolSummaries(ms) && lastAssistantText == LastAssistantText(ms)
    ensures content == SummaryText(ms)
  {
    hide Heading, ToolHeading, StateHeading, ToolSummaries, LastAssistantText, Preview, Listed, ToolPart;
    content := Heading();
    var toolPart := SummariseTools(toolSummaries);
    content := content + toolPart;
    ghost var soFar := content;
    if lastAssistantText != "" {
      content := content + (StateHeading() + Preview(lastAssistantText, 800));
    }
    assert soFar + "" == soFar;
  }

  /** At most eight tool results, and a sign if there are more. */
  method SummariseTools(toolSummaries: seq<string>) returns (content: string)
    ensures content == ToolPart(toolSummaries)
  {
    hide ToolHeading;
    content := "";
    if toolSummaries != [] {
      content := ToolHeading();
      var kept := 0;
      while kept < |toolSummaries| && kept < 8
        invariant 0 <= kept <= |toolSummaries| && kept <= 8
        invariant content == ToolHeading() + Listed(toolSummaries[..kept])
      {
        assert toolSummaries[..kept + 1][..kept] == toolSummaries[..kept];
        ghost var list := Listed(toolSummaries[..kept]);
        content := content + ("\n" + toolSummaries[kept]);
        assert content == ToolHeading() + (list + ("\n" + toolSummaries[kept]));
        kept := kept + 1;
      }
      assert |toolSummaries| <= 8 ==> toolSummaries[..kept] == toolSummaries;
      if |toolSummaries| > kept {
        content := content + "\n- ...";
      }
    }
  }

  // ---------- Selecting the window ----------

  predicate Fits(limits: Limits, segment: seq<Message>, total: int) {
    |segment| <= limits.maxMessages && total + MessagesTokens(segment) <= limits.maxContextTokens
  }

  /** What is left for the segment that did not fit. */
  function Budget(limits: Limits, total: int): int {
    Max(limits.maxContextTokens - total, 1)
  }

  /** Newest first: whole segments while they fit, then one compressed, then nothing. */
  function Select(limits: Limits, ms: seq<Message>, total: int): seq<Message>
    decreases |ms|
  {
    if ms == [] then []
    else
      var start := LastSegment(ms);
      if Fits(limits, ms[start..], total) then
        Select(limits, ms[..start], total + MessagesTokens(ms[start..])) + ms[start..]
      else Compressed(limits, ms[start..], Budget(limits, total))
  }

  /** The cap keeps the newest messages, and at least one. */
  function Capped(limits: Limits, ms: seq<Message>): seq<Message>
    requires limits.maxMessages >= 0
  {
    if |ms| > limits.maxMessages && |ms| > 1 then ms[|ms| - Max(limits.maxMessages, 1)..] else ms
  }

  /** The window the model sees. */
  function Window(limits: Limits, ms: seq<Message>): seq<Message>
    requires limits.maxMessages >= 0
  {
    Repaired(Capped(limits, Select(limits, Merged(ms), 0)))
  }

  lemma SelectUnfolds(limits: Limits, ms: seq<Message>, total: int, start: nat)
    requires ms != [] && LastSegment(ms) == start
    ensures
      Select(limits, ms, total) ==
      if Fits(limits, ms[start..], total) then
        Select(limits, ms[..start], total + MessagesTokens(ms[start..])) + ms[start..]
      else Compressed(limits, ms[start..], Budget(limits, total))
  {
    hide Compressed, Fits, LastSegment;
  }

  method ApplyContextLimits(limits: Limits, messages: seq<Message>) returns (result: seq<Message>)
    requires limits.maxMessages >= 0
    ensures result == Window(limits, messages)
  {
    hide MessagesTokens, Compressed, Repaired, LastSegment, Select;
    if messages == [] {
      EmptyWindow(limits);
      return [];
    }
    var sanitized := Sanitize(messages);
    var segments := BuildMessageSegments(sanitized);
    result := SelectSegments(limits, sanitized, segments);
    if |result| > limits.maxMessages && |result| > 1 {
      var target := Max(limits.maxMessages, 1);
      var excess := |result| - target;
      result := result[excess..];
    }
    result := DropUnpairedToolMessages(result);
  }

  lemma SelectNothing(limits: Limits, total: int)
    ensures Select(limits, [], total) == []
  {
  }

  lemma RepairNothing()
    ensures Repaired([]) == []
  {
  }

  /** The merging loop. */
  method Sanitize(messages: seq<Message>) returns (sanitized: seq<Message>)
    ensures sanitized == Merged(messages)
  {
    sanitized := [];
    for k := 0 to |messages|
      invariant sanitized == Merged(messages[..k])
    {
      assert messages[..k + 1][..k] == messages[..k];
      var last := |sanitized| - 1;
      if sanitized != [] && CanMerge(sanitized[last], messages[k]) {
        var content := MergeMessageContent(sanitized[last].content, messages[k].content);
        sanitized := sanitized[..last] + [sanitized[last].(content := content)];
      } else {
        sanitized := sanitized + [messages[k]];
      }
    }
    assert messages[..|messages|] == messages;
  }

  /** A segment of a partition lies where its elders end. */
  lemma SegmentAt(ms: seq<Message>, segments: seq<MessageSegment>, i: nat)
    requires Partition(ms, segments, |ms|) && i < |segments|
    ensures IsSegment(ms, segments[i]) && segments[i].start == EndOf(segments, i) < segments[i].end <= |ms|
    ensures EndOf(segments, i + 1) == segments[i].end
  {
    hide MessagesTokens;
  }

  /** The partition's two ends. */
  lemma PartitionEnds(ms: seq<Message>, segments: seq<MessageSegment>)
    requires Partition(ms, segments, |ms|)
    ensures EndOf(segments, |segments|) == |ms| && EndOf(segments, 0) == 0
    ensures ms[..|ms|] == ms && ms[..0] == []
  {
  }

  /** The loop over the segments, newest first. The selected parts come out oldest first. */
  method SelectSegments(limits: Limits, sanitized: seq<Message>, segments: seq<MessageSegment>)
    returns (result: seq<Message>)
    requires Partition(sanitized, segments, |sanitized|)
    ensures result == Select(limits, sanitized, 0)
  {
    hide MessagesTokens, Compressed, LastSegment, Select, Partition, IsSegment, EndOf;
    PartitionEnds(sanitized, segments);
    result := [];
    var totalTokens := 0;
    var i := |segments| - 1;
    assert Select(limits, sanitized, 0) + [] == Select(limits, sanitized, 0);
    while i >= 0
      invariant -1 <= i < |segments|
      invariant EndOf(segments, i + 1) <= |sanitized|
      invariant Select(limits, sanitized[..EndOf(segments, i + 1)], totalTokens) + result == Select(limits, sanitized, 0)
      decreases i
    {
      var segment := segments[i];
      SegmentAt(sanitized, segments, i);
      SelectTakes(limits, sanitized, segment, totalTokens, result);
      var segmentMessages := sanitized[segment.start..segment.end];
      var segmentTokens := CalculateMessagesTokens(segmentMessages);
      var fitsMessages := |segmentMessages| <= limits.maxMessages;
      var fitsTokens := totalTokens + segmentTokens <= limits.maxContextTokens;
      if fitsMessages && fitsTokens {
        result := segmentMessages + result;
        totalTokens := totalTokens + segmentTokens;
        i := i - 1;
        continue;
      }
      var budget := Max(limits.maxContextTokens - totalTokens, 1);
      var compressed := CompressSegment(limits, sanitized, segment, budget);
      result := compressed + result;
      return;
    }
    SelectNothing(limits, totalTokens);
    assert [] + result == result;
  }

  /** One turn of the loop: the newest segment left is taken whole, or compressed with nothing older. */
  lemma SelectTakes(limits: Limits, ms: seq<Message>, segment: MessageSegment, total: int, newer: seq<Message>)
    requires IsSegment(ms, segment)
    ensures var own := ms[segment.start..segment.end];
      Select(limits, ms[..segment.end], total) + newer ==
      if Fits(limits, own, total) then
        Select(limits, ms[..segment.start], total + MessagesTokens(own)) + (own + newer)
      else Compressed(limits, own, Budget(limits, total)) + newer
  {
    hide MessagesTokens, Compressed, LastSegment, Select, Fits;
    SegmentIsLast(ms, segment);
    SelectUnfolds(limits, ms[..segment.end], total, segment.start);
    assert ms[..segment.end][segment.start..] == ms[segment.start..segment.end];
    assert ms[..segment.end][..segment.start] == ms[..segment.start];
  }

  lemma SegmentIsLast(ms: seq<Message>, segment: MessageSegment)
    requires IsSegment(ms, segment)
    ensures LastSegment(ms[..segment.end]) == segment.start
  {
    hide MessagesTokens;
    var prefix := ms[..segment.end];
    assert forall k :: 0 <= k < segment.end ==> prefix[k] == ms[k];
    LastSegmentIsUnique(prefix, segment.start);
  }

  // ---------- The engine ----------

  /** What ContextStorageBase::IsValidMessage lets in. */
  predicate IsValidMessage(m: Message) {
    && m.role != ""
    && if m.role == "assistant" then m.content != "" || m.toolCalls != []
       else if m.role == "tool" then m.toolCallId != "" && m.content != ""
       else m.content != ""
  }

  class ContextEngine {
    const limits: Limits
    var memoryBuffer: seq<Message>

    constructor (limits: Limits)
      requires limits.maxMessages >= 0
      ensures this.limits == limits && memoryBuffer == []
    {
      this.limits := limits;
      memoryBuffer := [];
    }

    /** `now` is the clock. Invalid messages are ignored; the others keep or get a timestamp. */
    method AddMessage(message: Message, now: string)
      modifies this
      ensures !IsValidMessage(message) ==> memoryBuffer == old(memoryBuffer)
      ensures IsValidMessage(message) ==>
        memoryBuffer == old(memoryBuffer) + [message.(timestamp := if message.timestamp == "" then now else message.timestamp)]
    {
      if !IsValidMessage(message) {
        return;
      }
      var stored := message;
      if stored.timestamp == "" {
        stored := stored.(timestamp := now);
      }
      memoryBuffer := memoryBuffer + [stored];
    }

    method GetContextWindow() returns (window: seq<Message>)
      requires limits.maxMessages >= 0
      ensures window == Window(limits, memoryBuffer)
    {
      hide Window;
      if memoryBuffer == [] {
        EmptyWindow(limits);
        return [];
      }
      window := ApplyContextLimits(limits, memoryBuffer);
    }
  }

  lemma EmptyWindow(limits: Limits)
    requires limits.maxMessages >= 0
    ensures Window(limits, []) == []
  {
    SelectNothing(limits, 0);
    RepairNothing();
  }
}
