/** Progressive disclosure of tools within one turn: src/core/turn_state_proxy.cpp, the seeding in
    src/workers/react_worker.cpp, and src/tools/builtin_tools/tool_search_tool.cpp. */
module Disclosure {

  type Name = string

  datatype State = State(active: set<Name>, loaded: set<Name>, fullPool: bool)

  const Empty := State({}, {}, false)

  function Elements(names: seq<Name>): set<Name> {
    set n | n in names
  }

  // ---------- Names the model sees and may call ----------

  const META_TOOLS: set<Name> := {"tool_search", "skill_search"}

  function AlwaysOn(configured: seq<Name>): set<Name> {
    META_TOOLS + Elements(configured)
  }

  function Visible(s: State, alwaysOn: set<Name>): set<Name> {
    s.active + alwaysOn
  }

  function Callable(s: State, alwaysOn: set<Name>): set<Name> {
    s.loaded + alwaysOn
  }

  // ---------- The turn ----------

  /** What findRelevant returned, if the mode asks it at all; an exception counts as an empty answer. */
  datatype Recall = NotAsked | Answered(tools: seq<Name>)

  /** Lines 264-357 of react_worker.cpp, tool side. */
  function Seeded(pool: seq<Name>, recall: Recall): State {
    if recall.Answered? && recall.tools != [] && Elements(recall.tools) != Elements(pool)
    then State(Elements(recall.tools), {}, false)
    else State(Elements(pool), {}, true)
  }

  /** One call of tool_search. */
  datatype Call = Load(query: Name) | Search(query: Name, found: seq<Name>) | Other(query: Name)

  datatype Reply = NoQuery | Unknown | AlreadyOn | Loaded | NoRecallNeeded | NothingFound | Found(names: seq<Name>) | BadAction

  function IfNew(name: Name, known: set<Name>): seq<Name> {
    if name in known then [] else [name]
  }

  function Without(names: seq<Name>, known: set<Name>): seq<Name> {
    if names == [] then [] else IfNew(names[0], known) + Without(names[1..], known)
  }

  lemma {:induction false} WithoutSplits(a: seq<Name>, b: seq<Name>, known: set<Name>)
    ensures Without(a + b, known) == Without(a, known) + Without(b, known)
  {
    hide IfNew;
    if a == [] {
      assert a + b == b;
    } else {
      WithoutSplits(a[1..], b, known);
      assert (a + b)[1..] == a[1..] + b;
      var first := IfNew(a[0], known);
      assert first + (Without(a[1..], known) + Without(b, known)) == (first + Without(a[1..], known)) + Without(b, known);
    }
  }

  lemma {:induction false} WithoutIsTheRest(names: seq<Name>, known: set<Name>)
    ensures Elements(Without(names, known)) == Elements(names) - known
  {
    if names != [] {
      WithoutIsTheRest(names[1..], known);
      assert Elements(names) == {names[0]} + Elements(names[1..]);
      var first := if names[0] in known then [] else [names[0]];
      assert Elements(first + Without(names[1..], known)) == Elements(first) + Elements(Without(names[1..], known));
    }
  }

  /** The reply; `registered` are the tools the resource manager knows, `on` the names this tool was built with. */
  function ReplyTo(s: State, call: Call, registered: set<Name>, on: set<Name>): Reply {
    if call.query == "" then NoQuery
    else
      match call
      case Load(q) => if q !in registered then Unknown else if q in on then AlreadyOn else Loaded
      case Search(_, found) =>
        if s.fullPool then NoRecallNeeded
        else if Without(found, s.active) == [] then NothingFound
        else Found(Without(found, s.active))
      case Other(_) => BadAction
  }

  function After(s: State, call: Call, registered: set<Name>, on: set<Name>): State {
    match ReplyTo(s, call, registered, on)
    case Loaded => s.(active := s.active + {call.query}, loaded := s.loaded + {call.query})
    case Found(names) => s.(active := s.active + Elements(names), fullPool := false)
    case _ => s
  }

  function AfterAll(s: State, calls: seq<Call>, registered: set<Name>, on: set<Name>): State
    decreases |calls|
  {
    if calls == [] then s else AfterAll(After(s, calls[0], registered, on), calls[1..], registered, on)
  }

  // ---------- The host object ----------

  class TurnState {
    var activeSet: set<Name>
    var loadedTools: set<Name>
    var activeIsFullPool: bool

    ghost function View(): State
      reads this
    {
      State(activeSet, loadedTools, activeIsFullPool)
    }

    constructor ()
      ensures View() == Empty
    {
      activeSet, loadedTools, activeIsFullPool := {}, {}, false;
    }

    method Reset()
      modifies this
      ensures View() == Empty
    {
      activeSet, loadedTools, activeIsFullPool := {}, {}, false;
    }

    method InsertActive(names: seq<Name>)
      modifies this`activeSet
      ensures activeSet == old(activeSet) + Elements(names)
    {
      for i := 0 to |names|
        invariant activeSet == old(activeSet) + Elements(names[..i])
      {
        assert names[..i + 1] == names[..i] + [names[i]];
        activeSet := activeSet + {names[i]};
      }
      assert names[..|names|] == names;
    }

    method SeedActive(names: seq<Name>)
      modifies this
      ensures View() == old(View()).(active := old(activeSet) + Elements(names), fullPool := true)
    {
      InsertActive(names);
      activeIsFullPool := true;
    }

    method SeedActiveSubset(names: seq<Name>)
      modifies this
      ensures View() == old(View()).(active := old(activeSet) + Elements(names), fullPool := false)
    {
      InsertActive(names);
      activeIsFullPool := false;
    }

    /** The start of a turn. */
    method BeginTurn(pool: seq<Name>, recall: Recall)
      modifies this
      ensures View() == Seeded(pool, recall)
    {
      Reset();
      if recall.Answered? {
        if recall.tools == [] {
          SeedActive(pool);
        } else if Elements(recall.tools) == Elements(pool) {
          SeedActive(pool);
        } else {
          SeedActiveSubset(recall.tools);
        }
      } else {
        SeedActive(pool);
      }
    }

    /** ToolSearchTool::Invoke on a parsed input. */
    method ToolSearch(call: Call, registered: set<Name>, on: set<Name>) returns (reply: Reply)
      modifies this
      ensures reply == ReplyTo(old(View()), call, registered, on)
      ensures View() == After(old(View()), call, registered, on)
    {
      if call.query == "" {
        return NoQuery;
      }
      match call {
        case Load(query) =>
          if query !in registered {
            return Unknown;
          }
          if query in on {
            return AlreadyOn;
          }
          activeSet := activeSet + {query};
          loadedTools := loadedTools + {query};
          return Loaded;
        case Search(_, found) =>
          if activeIsFullPool {
            return NoRecallNeeded;
          }
          var newTools := [];
          for i := 0 to |found|
            invariant newTools == Without(found[..i], activeSet)
            invariant View() == old(View())
          {
            WithoutSplits(found[..i], [found[i]], activeSet);
            assert found[..i + 1] == found[..i] + [found[i]] && [found[i]][1..] == [];
            if found[i] !in activeSet {
              newTools := newTools + [found[i]];
            }
          }
          assert found[..|found|] == found;
          if newTools == [] {
            return NothingFound;
          }
          SeedActiveSubset(newTools);
          return Found(newTools);
        case Other(_) =>
          return BadAction;
      }
    }
  }

  // ---------- What holds through a turn ----------

  lemma {:induction false} SetsOnlyGrow(s: State, calls: seq<Call>, registered: set<Name>, on: set<Name>)
    ensures var t := AfterAll(s, calls, registered, on);
      s.active <= t.active && s.loaded <= t.loaded && t.fullPool == s.fullPool
      && (s.loaded <= s.active ==> t.loaded <= t.active) && (s.loaded <= registered - on ==> t.loaded <= registered - on)
    decreases |calls|
  {
    if calls != [] {
      SetsOnlyGrow(After(s, calls[0], registered, on), calls[1..], registered, on);
    }
  }

  /** Whatever the calls of a turn: what is loaded is active, the flag keeps the value it was seeded with, and if
      it is set the whole pool is active. So all that is callable is visible, both meta-tools always are, and only
      registered tools get loaded. */
  lemma TurnInvariant(pool: seq<Name>, recall: Recall, calls: seq<Call>, registered: set<Name>, configured: seq<Name>)
    ensures var t := AfterAll(Seeded(pool, recall), calls, registered, AlwaysOn(configured));
      && t.loaded <= t.active && t.loaded <= registered - AlwaysOn(configured)
      && t.fullPool == Seeded(pool, recall).fullPool
      && (t.fullPool ==> Elements(pool) <= t.active)
      && Callable(t, AlwaysOn(configured)) <= Visible(t, AlwaysOn(configured))
      && META_TOOLS <= Callable(t, AlwaysOn(configured))
  {
    SetsOnlyGrow(Seeded(pool, recall), calls, registered, AlwaysOn(configured));
  }

  /** A search shows what it found: afterwards every tool found is active, and it named just the new ones. */
  lemma SearchShows(s: State, q: Name, found: seq<Name>, registered: set<Name>, on: set<Name>)
    requires q != "" && !s.fullPool
    ensures var t := After(s, Search(q, found), registered, on);
      t.active == s.active + Elements(found) && t.loaded == s.loaded && !t.fullPool
  {
    WithoutIsTheRest(found, s.active);
    assert Elements([]) == {};
  }

  /** A registered tool asked for is callable from the next iteration on, except when the tool that was asked took
      it for always on and the worker does not: the two lists come from different configurations after a reload. */
  lemma LoadedIsCallableIff(s: State, q: Name, registered: set<Name>, on: set<Name>, workerOn: set<Name>)
    requires q != "" && q in registered && q !in s.loaded
    ensures q in Callable(After(s, Load(q), registered, on), workerOn) <==> q !in on || q in workerOn
  {
  }
}
