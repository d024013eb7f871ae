/** The dispatchers and the router themselves: the tables the threads share, and one method per critical
    section, each leaving the tables exactly as the protocol's step says. */
module AskUserDispatching {
  import opened Ids
  import opened Options
  import opened AskUser

  class AskUserDispatchers {
    var sessions: map<SessionId, EntryId>
    var owner: map<EntryId, SessionId>
    var slots: map<Key, SlotId>
    var heap: map<SlotId, Slot>
    var askRequestToSession: map<RequestId, SessionId>
    var asks: map<RequestId, Ask>
    var responses: map<Responder, Response>
    var delivered: map<RequestId, seq<Responder>>
    var nextId: nat

    ghost function View(): State
      reads this
    {
      State(sessions, owner, slots, heap, askRequestToSession, asks, responses, delivered, nextId)
    }

    constructor ()
      ensures View() == Initial
    {
      sessions, owner, slots, heap, askRequestToSession := map[], map[], map[], map[], map[];
      asks, responses, delivered, nextId := map[], map[], map[], 0;
    }

    method OpenSession(id: SessionId)
      requires Enabled(View(), Open(id))
      modifies this
      ensures View() == Next(old(View()), Open(id))
    {
      owner := owner[EntryId(nextId) := id];
      sessions := sessions[id := EntryId(nextId)];
      nextId := nextId + 1;
    }

    method RemoveSession(id: SessionId)
      requires Enabled(View(), Remove(id))
      modifies this
      ensures View() == Next(old(View()), Remove(id))
    {
      sessions := sessions - {id};
    }

    /** ask_user_dispatcher.cpp, lines 5-15. */
    method GetOrCreateSlot(entry: EntryId, request: RequestId) returns (slot: SlotId)
      modifies this`slots, this`heap, this`nextId
      ensures View() == WithSlot(old(View()), Key(entry, request))
      ensures Key(entry, request) in slots && slot == slots[Key(entry, request)]
    {
      var k := Key(entry, request);
      if k in slots {
        return slots[k];
      }
      slot := SlotId(nextId);
      nextId := nextId + 1;
      heap := heap[slot := Slot(request, None, false)];
      slots := slots[k := slot];
    }

    /** EmitAskUser, line 33. */
    method EmitAskUser(request: RequestId, entry: EntryId)
      requires Enabled(View(), Emit(request, entry))
      modifies this
      ensures View() == Next(old(View()), Emit(request, entry))
    {
      var _ := GetOrCreateSlot(entry, request);
      asks := asks[request := Ask(entry, Emitted, None, None)];
    }

    /** RegisterAskRequest, session_manager.cpp lines 166-170. */
    method RegisterAskRequest(request: RequestId)
      requires Enabled(View(), Register(request))
      modifies this
      ensures View() == Next(old(View()), Register(request))
    {
      askRequestToSession := askRequestToSession[request := OwnerOf(owner, asks[request].entry)];
      asks := asks[request := asks[request].(stage := Registered)];
    }

    /** WaitForResponse, line 46. */
    method BeginWait(request: RequestId)
      requires Enabled(View(), Wait(request))
      modifies this
      ensures View() == Next(old(View()), Wait(request))
    {
      var slot := GetOrCreateSlot(asks[request].entry, request);
      asks := asks[request := asks[request].(stage := Waiting, slot := Some(slot))];
    }

    /** WaitForResponse, lines 47-53. */
    method LastLook(request: RequestId) returns (result: Option<string>)
      requires Enabled(View(), Check(request))
      modifies this
      ensures View() == Next(old(View()), Check(request))
      ensures result == asks[request].result
    {
      var slot := heap[asks[request].slot.value];
      result := None;
      if slot.done && slot.answer.Some? {
        result := slot.answer;
      }
      asks := asks[request := asks[request].(stage := Checked, result := result)];
    }

    /** WaitForResponse, lines 57-60. */
    method EraseSlot(request: RequestId)
      requires Enabled(View(), Erase(request))
      modifies this
      ensures View() == Next(old(View()), Erase(request))
    {
      slots := slots - {Key(asks[request].entry, request)};
      asks := asks[request := asks[request].(stage := Erased)];
    }

    /** UnregisterAskRequest, session_manager.cpp lines 172-176. */
    method UnregisterAskRequest(request: RequestId)
      requires Enabled(View(), Unregister(request))
      modifies this
      ensures View() == Next(old(View()), Unregister(request))
    {
      askRequestToSession := askRequestToSession - {request};
      asks := asks[request := asks[request].(stage := Finished)];
    }

    method BeginResponse(responder: Responder, request: RequestId, answer: string)
      requires Enabled(View(), Begin(responder, request, answer))
      modifies this
      ensures View() == Next(old(View()), Begin(responder, request, answer))
    {
      responses := responses[responder := Response(request, answer, IsLate(asks, request), Begun)];
    }

    /** ProvideUserResponse, session_manager.cpp lines 932-941. */
    method LookUpSession(responder: Responder) returns (found: bool)
      requires Enabled(View(), FindSession(responder))
      modifies this
      ensures View() == Next(old(View()), FindSession(responder))
      ensures found <==> !responses[responder].progress.Returned?
    {
      var request := responses[responder].request;
      found := request in askRequestToSession;
      responses := responses[responder := responses[responder].(
        progress := if found then GotSession(askRequestToSession[request]) else Returned(false))];
    }

    /** ProvideUserResponse, session_manager.cpp lines 943-952. */
    method LookUpEntry(responder: Responder) returns (found: bool)
      requires Enabled(View(), FindEntry(responder))
      modifies this
      ensures View() == Next(old(View()), FindEntry(responder))
      ensures found <==> !responses[responder].progress.Returned?
    {
      var id := responses[responder].progress.sessionId;
      found := id in sessions;
      responses := responses[responder := responses[responder].(
        progress := if found then GotEntry(sessions[id]) else Returned(false))];
    }

    /** ProvideResponse, lines 68-75. */
    method LookUpSlot(responder: Responder) returns (found: bool)
      requires Enabled(View(), FindSlot(responder))
      modifies this
      ensures View() == Next(old(View()), FindSlot(responder))
      ensures found <==> !responses[responder].progress.Returned?
    {
      var k := Key(responses[responder].progress.entry, responses[responder].request);
      found := k in slots;
      responses := responses[responder := responses[responder].(
        progress := if found then GotSlot(slots[k]) else Returned(false))];
    }

    /** ProvideResponse, lines 76-82. */
    method WriteAnswer(responder: Responder)
      requires Enabled(View(), SetAnswer(responder))
      modifies this
      ensures View() == Next(old(View()), SetAnswer(responder))
      ensures responses[responder].progress == Returned(true)
    {
      var response := responses[responder];
      var slot := response.progress.slot;
      heap := heap[slot := heap[slot].(answer := Some(response.answer), done := true)];
      delivered := delivered[response.request := WritersFor(delivered, response.request) + [responder]];
      responses := responses[responder := response.(progress := Returned(true))];
    }
  }
}
