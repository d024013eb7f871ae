/** src/context_engine/context_engine.cpp: messages and their estimated cost in tokens. */
module ContextTokens {
  datatype ToolCall = ToolCall(id: string, name: string, argumentsJson: string)

  datatype Message = Message(
    role: string,
    content: string,
    toolCalls: seq<ToolCall>,
    toolCallId: string,
    toolName: string,
    payloadRef: string,
    timestamp: string)

  // ---------- Characters ----------

  predicate Ascii(c: char) {
    c as int < 0x80
  }

  /** How many bytes the walk steps over at a lead byte. */
  function Advance(c: char): (n: nat)
    ensures 1 <= n <= 4
    ensures Ascii(c) ==> n == 1
  {
    var b := c as int;
    if b / 0x20 == 6 then 2
    else if b / 0x10 == 14 then 3
    else if b / 8 == 30 then 4
    else 1
  }

  /** Single-byte characters, and characters of any other kind. */
  datatype Counts = Counts(ascii: nat, wide: nat)

  function Tail(s: string): (rest: string)
    requires s != ""
    ensures |rest| < |s|
  {
    if Advance(s[0]) >= |s| then "" else s[Advance(s[0])..]
  }

  function Count(s: string): Counts
    decreases |s|
  {
    if s == "" then Counts(0, 0)
    else
      var rest := Count(Tail(s));
      if Ascii(s[0]) then Counts(rest.ascii + 1, rest.wide) else Counts(rest.ascii, rest.wide + 1)
  }

  lemma CountNothing()
    ensures Count("") == Counts(0, 0)
  {
  }

  lemma CountUnfolds(s: string)
    requires s != ""
    ensures Count(s).ascii == Count(Tail(s)).ascii + (if Ascii(s[0]) then 1 else 0)
    ensures Count(s).wide == Count(Tail(s)).wide + (if Ascii(s[0]) then 0 else 1)
  {
  }

  /** A quarter token an ASCII character, three quarters for any other. */
  function Tokens(s: string): nat {
    Count(s).ascii / 4 + Count(s).wide * 3 / 4
  }

  method EstimateTokens(text: string) returns (tokens: nat)
    ensures tokens == Tokens(text)
  {
    hide Count;
    var asciiChars := 0;
    var wideChars := 0;
    var i := 0;
    assert text[0..] == text;
    while i < |text|
      invariant 0 <= i
      invariant var rest := Count(if i < |text| then text[i..] else "");
        Count(text) == Counts(asciiChars + rest.ascii, wideChars + rest.wide)
    {
      var c := text[i] as int;
      var advance := 1;
      ghost var left := text[i..];
      CountUnfolds(left);
      if c < 0x80 {
        asciiChars := asciiChars + 1;
      } else if c / 0x20 == 6 {
        advance := 2;
        wideChars := wideChars + 1;
      } else if c / 0x10 == 14 {
        advance := 3;
        wideChars := wideChars + 1;
      } else if c / 8 == 30 {
        advance := 4;
        wideChars := wideChars + 1;
      } else {
        wideChars := wideChars + 1;
      }
      i := i + advance;
      assert Tail(left) == if i < |text| then text[i..] else "";
    }
    CountNothing();
    tokens := asciiChars / 4 + wideChars * 3 / 4;
  }

  predicate AllAscii(s: string) {
    forall k :: 0 <= k < |s| ==> Ascii(s[k])
  }

  lemma {:induction false} TokensOfAscii(s: string)
    requires AllAscii(s)
    ensures Count(s) == Counts(|s|, 0) && Tokens(s) == |s| / 4
    decreases |s|
  {
    if s != "" {
      assert Tail(s) == s[1..];
      TokensOfAscii(s[1..]);
    }
  }

  lemma TokensOfOneChar(s: string)
    requires |s| <= 1
    ensures Tokens(s) == 0
  {
    if |s| == 1 {
      assert Tail(s) == "";
      assert Count(Tail(s)) == Counts(0, 0);
      assert Count(s) == Counts(1, 0) || Count(s) == Counts(0, 1);
    }
  }

  // ---------- Messages ----------

  function CallTokens(calls: seq<ToolCall>): nat {
    if calls == [] then 0
    else Tokens(calls[0].name) + Tokens(calls[0].argumentsJson) + CallTokens(calls[1..])
  }

  function MessageTokens(m: Message): nat {
    Tokens(m.role) + Tokens(m.content) + CallTokens(m.toolCalls)
      + Tokens(m.toolCallId) + Tokens(m.toolName) + Tokens(m.payloadRef)
  }

  function MessagesTokens(ms: seq<Message>): nat {
    if ms == [] then 0 else MessageTokens(ms[0]) + MessagesTokens(ms[1..])
  }

  method CalculateMessageTokens(msg: Message) returns (total: nat)
    ensures total == MessageTokens(msg)
  {
    var n := EstimateTokens(msg.role);
    total := n;
    n := EstimateTokens(msg.content);
    total := total + n;
    ghost var text := total;
    for k := 0 to |msg.toolCalls|
      invariant total + CallTokens(msg.toolCalls[k..]) == text + CallTokens(msg.toolCalls)
    {
      n := EstimateTokens(msg.toolCalls[k].name);
      total := total + n;
      n := EstimateTokens(msg.toolCalls[k].argumentsJson);
      total := total + n;
      assert msg.toolCalls[k..][1..] == msg.toolCalls[k + 1..];
    }
    n := EstimateTokens(msg.toolCallId);
    total := total + n;
    n := EstimateTokens(msg.toolName);
    total := total + n;
    n := EstimateTokens(msg.payloadRef);
    total := total + n;
  }

  method CalculateMessagesTokens(messages: seq<Message>) returns (total: nat)
    ensures total == MessagesTokens(messages)
  {
    hide MessageTokens;
    total := 0;
    for k := 0 to |messages|
      invariant total + MessagesTokens(messages[k..]) == MessagesTokens(messages)
    {
      var n := CalculateMessageTokens(messages[k]);
      total := total + n;
      assert messages[k..][1..] == messages[k + 1..];
    }
  }

  lemma {:induction false} MessagesTokensOfConcat(a: seq<Message>, b: seq<Message>)
    ensures MessagesTokens(a + b) == MessagesTokens(a) + MessagesTokens(b)
  {
    hide MessageTokens;
    if a == [] {
      assert a + b == b;
    } else {
      assert (a + b)[1..] == a[1..] + b;
      MessagesTokensOfConcat(a[1..], b);
    }
  }

  lemma MessagesTokensOfOne(m: Message)
    ensures MessagesTokens([m]) == MessageTokens(m)
  {
    hide MessageTokens;
    assert [m][1..] == [];
  }
}
