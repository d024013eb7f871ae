/** src/context_engine/context_engine.cpp: repairing a window in which tool calls and tool results
    have come apart. */
module ToolPairing {
  import opened ContextTokens

  predicate IsAssistant(m: Message) {
    m.role == "assistant"
  }

  predicate IsTool(m: Message) {
    m.role == "tool"
  }

  // ---------- The two id sets ----------

  /** The non-empty ids that assistant messages call. */
  function CallIds(ms: seq<Message>): set<string> {
    set i, j | 0 <= i < |ms| && IsAssistant(ms[i]) && 0 <= j < |ms[i].toolCalls| && ms[i].toolCalls[j].id != ""
      :: ms[i].toolCalls[j].id
  }

  /** The non-empty ids that tool messages answer. */
  function ResultIds(ms: seq<Message>): set<string> {
    set i | 0 <= i < |ms| && IsTool(ms[i]) && ms[i].toolCallId != "" :: ms[i].toolCallId
  }

  // ---------- One pass with a fixed set of ids to keep ----------

  function KeptCalls(calls: seq<ToolCall>, ids: set<string>): (r: seq<ToolCall>)
    ensures forall c :: c in r <==> c in calls && c.id in ids
  {
    if calls == [] then []
    else
      var c := calls[|calls| - 1];
      KeptCalls(calls[..|calls| - 1], ids) + if c.id in ids then [c] else []
  }

  /** A message with only the calls whose id is kept; nothing, when no call and no text is left. */
  function KeptMessage(m: Message, ids: set<string>): seq<Message> {
    if IsAssistant(m) && m.toolCalls != [] then
      var kept := m.(toolCalls := KeptCalls(m.toolCalls, ids));
      if kept.toolCalls == [] && kept.content == "" then [] else [kept]
    else [m]
  }

  /** The first pass: assistant calls. */
  function KeepCalls(ms: seq<Message>, ids: set<string>): seq<Message> {
    if ms == [] then []
    else KeepCalls(ms[..|ms| - 1], ids) + KeptMessage(ms[|ms| - 1], ids)
  }

  /** The second pass: tool messages. */
  function KeepResults(ms: seq<Message>, ids: set<string>): seq<Message> {
    if ms == [] then []
    else
      var m := ms[|ms| - 1];
      KeepResults(ms[..|ms| - 1], ids) + if IsTool(m) && m.toolCallId !in ids then [] else [m]
  }

  method DropOrphanToolCalls(msgs: seq<Message>) returns (cleaned: seq<Message>)
    ensures cleaned == KeepCalls(msgs, ResultIds(msgs))
  {
    var toolResultIds: set<string> := {};
    for i := 0 to |msgs|
      invariant toolResultIds == ResultIds(msgs[..i])
    {
      if msgs[i].role == "tool" && msgs[i].toolCallId != "" {
        toolResultIds := toolResultIds + {msgs[i].toolCallId};
      }
      ResultIdsGrow(msgs, i);
    }
    assert msgs[..|msgs|] == msgs;

    cleaned := [];
    for i := 0 to |msgs|
      invariant cleaned == KeepCalls(msgs[..i], toolResultIds)
    {
      assert msgs[..i + 1][..i] == msgs[..i];
      var msg := msgs[i];
      if msg.role == "assistant" && msg.toolCalls != [] {
        var calls := msg.toolCalls;
        var kept := [];
        for j := 0 to |calls|
          invariant kept == KeptCalls(calls[..j], toolResultIds)
        {
          assert calls[..j + 1][..j] == calls[..j];
          if calls[j].id != "" && calls[j].id in toolResultIds {
            kept := kept + [calls[j]];
          }
        }
        assert calls[..|calls|] == calls;
        msg := msg.(toolCalls := kept);
        if msg.toolCalls == [] && msg.content == "" {
          continue;
        }
      }
      cleaned := cleaned + [msg];
    }
  }

  method DropUnpairedToolMessages(msgs: seq<Message>) returns (cleaned: seq<Message>)
    ensures cleaned == Repaired(msgs)
  {
    hide KeepCalls, ResultIds, KeepPaired, KeptMessage;
    var called := DropOrphanToolCalls(msgs);
    var assistantCallIds: set<string> := {};
    for i := 0 to |called|
      invariant assistantCallIds == CallIds(called[..i])
    {
      CallIdsGrow(called, i);
      if called[i].role == "assistant" {
        for j := 0 to |called[i].toolCalls|
          invariant assistantCallIds == CallIds(called[..i]) + IdsOf(called[i].toolCalls[..j])
        {
          IdsOfGrow(called[i].toolCalls, j);
          if called[i].toolCalls[j].id != "" {
            assistantCallIds := assistantCallIds + {called[i].toolCalls[j].id};
          }
        }
        assert called[i].toolCalls[..|called[i].toolCalls|] == called[i].toolCalls;
      }
    }
    assert called[..|called|] == called;

    cleaned := [];
    for i := 0 to |called|
      invariant cleaned == KeepResults(called[..i], assistantCallIds)
    {
      assert called[..i + 1][..i] == called[..i];
      if called[i].role == "tool" && called[i].toolCallId !in assistantCallIds {
        continue;
      }
      cleaned := cleaned + [called[i]];
    }
    assert called[..|called|] == called;
    TwoPassesAreOne(msgs);
  }

  function IdsOf(calls: seq<ToolCall>): set<string> {
    set j | 0 <= j < |calls| && calls[j].id != "" :: calls[j].id
  }

  lemma IdsOfGrow(calls: seq<ToolCall>, j: nat)
    requires j < |calls|
    ensures IdsOf(calls[..j + 1]) == IdsOf(calls[..j]) + if calls[j].id != "" then {calls[j].id} else {}
  {
    assert calls[..j + 1] == calls[..j] + [calls[j]];
  }

  lemma ResultIdsGrow(ms: seq<Message>, i: nat)
    requires i < |ms|
    ensures ResultIds(ms[..i + 1])
         == ResultIds(ms[..i]) + if IsTool(ms[i]) && ms[i].toolCallId != "" then {ms[i].toolCallId} else {}
  {
    assert ms[..i + 1] == ms[..i] + [ms[i]];
  }

  lemma CallIdsGrow(ms: seq<Message>, i: nat)
    requires i < |ms|
    ensures CallIds(ms[..i + 1]) == CallIds(ms[..i]) + if IsAssistant(ms[i]) then IdsOf(ms[i].toolCalls) else {}
  {
    assert ms[..i + 1] == ms[..i] + [ms[i]];
  }

  // ---------- What the two passes amount to ----------

  /** The ids that are called and answered. */
  function PairedIds(ms: seq<Message>): set<string> {
    CallIds(ms) * ResultIds(ms)
  }

  /** Keep exactly what carries a paired id, in one pass. */
  function KeepPaired(ms: seq<Message>, ids: set<string>): seq<Message> {
    if ms == [] then []
    else
      var m := ms[|ms| - 1];
      KeepPaired(ms[..|ms| - 1], ids)
        + if IsTool(m) && m.toolCallId !in ids then [] else KeptMessage(m, ids)
  }

  function Repaired(ms: seq<Message>): seq<Message> {
    KeepPaired(ms, PairedIds(ms))
  }

  lemma SetOfConcat(a: seq<Message>, b: seq<Message>)
    ensures CallIds(a + b) == CallIds(a) + CallIds(b)
    ensures ResultIds(a + b) == ResultIds(a) + ResultIds(b)
  {
    assert forall i :: 0 <= i < |b| ==> b[i] == (a + b)[|a| + i];
    assert forall i :: |a| <= i < |a| + |b| ==> (a + b)[i] == b[i - |a|];
    assert forall i :: 0 <= i < |a| ==> (a + b)[i] == a[i];
  }

  /** Dropping calls from one message, or the message with them, drops exactly their ids. */
  lemma KeptMessageIds(m: Message, ids: set<string>)
    ensures CallIds(KeptMessage(m, ids)) == CallIds([m]) * ids
    ensures ResultIds(KeptMessage(m, ids)) == ResultIds([m])
  {
    var kept := KeptMessage(m, ids);
    if IsAssistant(m) && m.toolCalls != [] {
      var calls := KeptCalls(m.toolCalls, ids);
      forall id | id in CallIds([m]) * ids
        ensures id in CallIds(kept)
      {
        var j :| 0 <= j < |m.toolCalls| && m.toolCalls[j].id == id;
        assert m.toolCalls[j] in m.toolCalls;
        assert m.toolCalls[j] in calls;
        var k :| 0 <= k < |calls| && calls[k] == m.toolCalls[j];
        assert kept[0].toolCalls[k].id == id;
      }
      forall id | id in CallIds(kept)
        ensures id in CallIds([m]) * ids
      {
        var k :| 0 <= k < |calls| && calls[k].id == id;
        assert calls[k] in calls;
        var j :| 0 <= j < |m.toolCalls| && m.toolCalls[j] == calls[k];
        assert [m][0].toolCalls[j].id == id;
      }
    } else {
      assert kept == [m];
      assert CallIds([m]) == {};
    }
  }

  lemma {:induction false} CallIdsOfKeepCalls(ms: seq<Message>, ids: set<string>)
    ensures CallIds(KeepCalls(ms, ids)) == CallIds(ms) * ids
  {
    hide KeptMessage, CallIds, ResultIds;
    if ms == [] {
      assert CallIds([]) == {} by { NoIds(); }
    } else {
      var before, m := ms[..|ms| - 1], ms[|ms| - 1];
      assert ms == before + [m];
      CallIdsOfKeepCalls(before, ids);
      SetOfConcat(before, [m]);
      SetOfConcat(KeepCalls(before, ids), KeptMessage(m, ids));
      KeptMessageIds(m, ids);
    }
  }

  lemma NoIds()
    ensures CallIds([]) == {} && ResultIds([]) == {}
  {
  }

  /** Keeping by result ids is keeping by paired ids, since every call's id is a call id. */
  lemma {:induction false} KeptCallsByPairs(calls: seq<ToolCall>, ids: set<string>, paired: set<string>)
    requires "" !in ids
    requires paired <= ids && IdsOf(calls) * ids <= paired
    ensures KeptCalls(calls, ids) == KeptCalls(calls, paired)
  {
    if calls != [] {
      var last := |calls| - 1;
      IdsOfGrow(calls, last);
      assert calls[..last + 1] == calls;
      KeptCallsByPairs(calls[..last], ids, paired);
    }
  }

  lemma {:induction false} TwoPassesByPairs(ms: seq<Message>, ids: set<string>, paired: set<string>)
    requires "" !in ids
    requires paired <= ids && CallIds(ms) * ids <= paired
    ensures KeepResults(KeepCalls(ms, ids), paired) == KeepPaired(ms, paired)
  {
    hide CallIds, KeptCalls;
    if ms != [] {
      var before, m := ms[..|ms| - 1], ms[|ms| - 1];
      assert ms[..|before| + 1] == ms;
      CallIdsGrow(ms, |before|);
      TwoPassesByPairs(before, ids, paired);
      if IsAssistant(m) {
        KeptCallsByPairs(m.toolCalls, ids, paired);
      }
      KeepResultsOfConcat(KeepCalls(before, ids), KeptMessage(m, ids), paired);
    }
  }

  lemma KeepResultsOfConcat(a: seq<Message>, b: seq<Message>, ids: set<string>)
    requires |b| <= 1
    ensures KeepResults(a + b, ids)
         == KeepResults(a, ids) + if b != [] && IsTool(b[0]) && b[0].toolCallId !in ids then [] else b
  {
    if b == [] {
      assert a + b == a;
    } else {
      assert (a + b)[..|a|] == a;
    }
  }

  lemma TwoPassesAreOne(ms: seq<Message>)
    ensures var called := KeepCalls(ms, ResultIds(ms));
      KeepResults(called, CallIds(called)) == Repaired(ms)
  {
    CallIdsOfKeepCalls(ms, ResultIds(ms));
    TwoPassesByPairs(ms, ResultIds(ms), PairedIds(ms));
  }

  lemma {:induction false} IdsOfKeepPaired(ms: seq<Message>, ids: set<string>)
    ensures CallIds(KeepPaired(ms, ids)) == CallIds(ms) * ids
    ensures ResultIds(KeepPaired(ms, ids)) == ResultIds(ms) * ids
  {
    hide KeptMessage, CallIds, ResultIds;
    if ms == [] {
      NoIds();
    } else {
      var before, m := ms[..|ms| - 1], ms[|ms| - 1];
      assert ms == before + [m];
      IdsOfKeepPaired(before, ids);
      SetOfConcat(before, [m]);
      var kept := if IsTool(m) && m.toolCallId !in ids then [] else KeptMessage(m, ids);
      SetOfConcat(KeepPaired(before, ids), kept);
      IdsOfOne(m, ids);
    }
  }

  lemma IdsOfOne(m: Message, ids: set<string>)
    ensures var kept := if IsTool(m) && m.toolCallId !in ids then [] else KeptMessage(m, ids);
      CallIds(kept) == CallIds([m]) * ids && ResultIds(kept) == ResultIds([m]) * ids
  {
    KeptMessageIds(m, ids);
    NoIds();
    assert ResultIds([m]) == if IsTool(m) && m.toolCallId != "" then {m.toolCallId} else {} by {
      assert [m][0] == m;
    }
    assert IsTool(m) ==> CallIds([m]) == {};
  }

  /** After the repair the ids called and the ids answered are the same, and they are exactly the
      non-empty ids that were both called and answered before. */
  lemma RepairLeavesPairs(ms: seq<Message>)
    ensures CallIds(Repaired(ms)) == ResultIds(Repaired(ms)) == PairedIds(ms)
  {
    IdsOfKeepPaired(ms, PairedIds(ms));
  }

  lemma {:induction false} KeptCallsTwice(calls: seq<ToolCall>, ids: set<string>)
    ensures KeptCalls(KeptCalls(calls, ids), ids) == KeptCalls(calls, ids)
  {
    if calls != [] {
      var before, c := calls[..|calls| - 1], calls[|calls| - 1];
      KeptCallsTwice(before, ids);
      var kept := KeptCalls(before, ids);
      assert kept + [] == kept;
      assert (kept + [c])[..|kept|] == kept;
    }
  }

  lemma {:induction false} KeepPairedTwice(ms: seq<Message>, ids: set<string>)
    ensures KeepPaired(KeepPaired(ms, ids), ids) == KeepPaired(ms, ids)
  {
    hide KeptCalls;
    if ms != [] {
      var before, m := ms[..|ms| - 1], ms[|ms| - 1];
      KeepPairedTwice(before, ids);
      KeptCallsTwice(m.toolCalls, ids);
      var kept := KeepPaired(before, ids);
      var last := KeepPaired(ms, ids)[|kept|..];
      assert KeepPaired(ms, ids) == kept + last;
      if last != [] {
        assert (kept + last)[..|kept|] == kept;
      } else {
        assert kept + last == kept;
      }
    }
  }

  /** A second pass finds nothing to drop. */
  lemma RepairIsIdempotent(ms: seq<Message>)
    ensures Repaired(Repaired(ms)) == Repaired(ms)
  {
    RepairLeavesPairs(ms);
    assert PairedIds(ms) * PairedIds(ms) == PairedIds(ms);
    KeepPairedTwice(ms, PairedIds(ms));
  }

  /** What is said in a window, calls and results aside, in order. */
  function Said(ms: seq<Message>): seq<Message> {
    if ms == [] then []
    else
      var m := ms[|ms| - 1];
      Said(ms[..|ms| - 1])
        + if IsTool(m) || (IsAssistant(m) && m.content == "") then []
          else if IsAssistant(m) then [m.(toolCalls := [])]
          else [m]
  }

  lemma {:induction false} SaidOfKeepPaired(ms: seq<Message>, ids: set<string>)
    ensures Said(KeepPaired(ms, ids)) == Said(ms)
  {
    hide KeptCalls;
    if ms != [] {
      var before, m := ms[..|ms| - 1], ms[|ms| - 1];
      SaidOfKeepPaired(before, ids);
      var kept := KeepPaired(before, ids);
      var last := KeepPaired(ms, ids)[|kept|..];
      assert KeepPaired(ms, ids) == kept + last;
      if last != [] {
        assert (kept + last)[..|kept|] == kept;
      } else {
        assert kept + last == kept;
      }
    }
  }

  /** User messages, system messages and assistant text all stay, unchanged and in order. */
  lemma RepairKeepsWhatIsSaid(ms: seq<Message>)
    ensures Said(Repaired(ms)) == Said(ms)
  {
    SaidOfKeepPaired(ms, PairedIds(ms));
  }
}
