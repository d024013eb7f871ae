/** src/config/agent_config_store.cpp: code defaults, overrides kept in a file, and the merged view. */
module ConfigStore {
  import opened Options
  import opened ConfigJson

  type AgentId = string

  /** The struct's defaults, types.h lines 21-223 and memory_config.h, for an agent known from the file only. */
  function Fresh(id: AgentId): AgentConfig {
    AgentConfig(id, "", "", "", REACT,
      ModelConfig("", "", "", "", OPENAI, true, ConfigNode(map[]), RetryPolicy(2, 400, 3000, true)),
      ContextConfig(4096, 50, "", "", JSON_FILE, false),
      DreamConfig("", "", 20, 10, 16000, 4000, 32000),
      MemoryConfig(true, "sdk", "builtin.compat", "", ServerConfig("", "", 10, 2, 5, 30), 4096, 8000, true, 60, [],
        MemoryModel(false, "openai", "", "", "", "", "2023-06-01", 60, 0.0, 0),
        ["topic", "task", "project", "file"], 7, ConfigNode(map[])),
      map[], "", "", Limits(10, 3, 0, 0), ToolLists([], [], []), SELECTIVE)
  }

  // ---------- Reading the file ----------

  predicate HasId(item: Json) {
    item.Obj? && Id in item.fields
  }

  /** The loop over "agents": items without an id, or with an empty one, are passed over; an id that is no
      string throws; a later item replaces an earlier one with its id. */
  function ReadItems(items: seq<Json>, overrides: map<AgentId, Json>): Option<map<AgentId, Json>> {
    if items == [] then Some(overrides)
    else if !HasId(items[0]) then ReadItems(items[1..], overrides)
    else
      var id :- AsStr(items[0].fields[Id]);
      ReadItems(items[1..], if id == "" then overrides else overrides[id := items[0]])
  }

  /** A missing or unreadable file is Null. */
  function ReadFile(root: Json): Option<map<AgentId, Json>> {
    if root.Obj? && Agents in root.fields && root.fields[Agents].Arr? then ReadItems(root.fields[Agents].items, map[])
    else Some(map[])
  }

  // ---------- The merged view ----------

  function Base(defaults: map<AgentId, AgentConfig>, id: AgentId): AgentConfig {
    if id in defaults then defaults[id] else Fresh(id)
  }

  /** What Load computes for one agent. */
  function Effective(
    defaults: map<AgentId, AgentConfig>, overrides: map<AgentId, Json>, id: AgentId, dump: Json -> string): Option<AgentConfig>
  {
    if id in overrides then Merge(overrides[id], Base(defaults, id), dump) else Some(Base(defaults, id))
  }

  ghost predicate AllMerge(defaults: map<AgentId, AgentConfig>, overrides: map<AgentId, Json>, dump: Json -> string) {
    forall id <- overrides :: Effective(defaults, overrides, id, dump).Some?
  }

  /** The merged view is the default, overridden, of every agent that has either. */
  ghost predicate IsView(
    view: map<AgentId, AgentConfig>, defaults: map<AgentId, AgentConfig>, overrides: map<AgentId, Json>, dump: Json -> string)
  {
    && view.Keys == defaults.Keys + overrides.Keys
    && forall id <- view :: Effective(defaults, overrides, id, dump) == Some(view[id])
  }

  // ---------- The store ----------

  /** An override is an object that carries its own id. */
  ghost predicate Filed(overrides: map<AgentId, Json>) {
    forall id <- overrides :: id != "" && HasId(overrides[id]) && overrides[id].fields[Id] == Str(id)
  }

  /** A file that lists every override once, in whatever order. */
  ghost predicate Lists(items: seq<Json>, overrides: map<AgentId, Json>) {
    ReadItems(items, map[]) == Some(overrides)
  }

  lemma {:induction false} ReadAppended(items: seq<Json>, more: seq<Json>, overrides: map<AgentId, Json>)
    ensures ReadItems(items + more, overrides)
      == (if ReadItems(items, overrides).Some? then ReadItems(more, ReadItems(items, overrides).value) else None)
    decreases |items|
  {
    if items == [] {
      assert items + more == more;
    } else {
      assert (items + more)[1..] == items[1..] + more;
      if !HasId(items[0]) {
        ReadAppended(items[1..], more, overrides);
      } else if AsStr(items[0].fields[Id]).Some? {
        var id := items[0].fields[Id].s;
        ReadAppended(items[1..], more, if id == "" then overrides else overrides[id := items[0]]);
      }
    }
  }

  datatype Store = Store(
    defaults: map<AgentId, AgentConfig>, overrides: map<AgentId, Json>, current: map<AgentId, AgentConfig>, file: Json)

  /** The operations that change a loaded store; `written` tells whether the file system let it save. */
  datatype Op =
    | Upsert(cfg: AgentConfig, written: bool)
    | UpsertOverride(id: AgentId, overrideJson: Json, written: bool)
    | Remove(id: AgentId, written: bool)

  function Target(op: Op): AgentId {
    if op.Upsert? then op.cfg.id else op.id
  }

  /** Lines 148-149: an object as it is, anything else as an empty one; then the id. */
  function Clean(overrideJson: Json, id: AgentId): Json {
    Obj((if overrideJson.Obj? then overrideJson.fields else map[])[Id := Str(id)])
  }

  /** An empty id is refused, except by Remove, which finds nothing under it. */
  predicate Refused(op: Op) {
    Target(op) == "" && !op.Remove?
  }

  /** Does the merge of an override throw? */
  predicate Throws(s: Store, op: Op, dump: Json -> string) {
    op.UpsertOverride? && !Refused(op) && Merge(Clean(op.overrideJson, op.id), Base(s.defaults, op.id), dump).None?
  }

  function OverridesAfter(s: Store, op: Op): map<AgentId, Json> {
    match op
    case Upsert(cfg, _) => s.overrides[cfg.id := ToJson(cfg)]
    case UpsertOverride(id, overrideJson, _) => s.overrides[id := Clean(overrideJson, id)]
    case Remove(id, _) => s.overrides - {id}
  }

  function CurrentAfter(s: Store, op: Op, dump: Json -> string): map<AgentId, AgentConfig>
    requires !Throws(s, op, dump) && !Refused(op)
  {
    match op
    case Upsert(cfg, _) =>
      s.current[cfg.id :=
        if cfg.id in s.defaults then Normal(cfg).(promptTemplates := s.defaults[cfg.id].promptTemplates + cfg.promptTemplates)
        else cfg]
    case UpsertOverride(id, overrideJson, _) =>
      s.current[id := Merge(Clean(overrideJson, id), Base(s.defaults, id), dump).value]
    case Remove(id, _) => if id in s.defaults then s.current[id := s.defaults[id]] else s.current - {id}
  }

  /** One operation. The order in which a save lists the overrides is left open. An override whose merge throws
      has been stored by then, but is neither merged nor saved. */
  ghost predicate Step(s: Store, op: Op, t: Store, dump: Json -> string) {
    if Refused(op) then t == s
    else
      && t.defaults == s.defaults
      && t.overrides == OverridesAfter(s, op)
      && (if Throws(s, op, dump) then t.current == s.current && t.file == s.file
          else
            && t.current == CurrentAfter(s, op, dump)
            && (if op.written then ReadFile(t.file) == Some(t.overrides) else t.file == s.file))
  }

  class AgentConfigStore {
    var defaults: map<AgentId, AgentConfig>
    var overrides: map<AgentId, Json>
    var current: map<AgentId, AgentConfig>
    var file: Json
    const dump: Json -> string

    constructor (file: Json, dump: Json -> string)
      ensures this.file == file && this.dump == dump
      ensures defaults == map[] && overrides == map[] && current == map[]
    {
      this.file, this.dump := file, dump;
      defaults, overrides, current := map[], map[], map[];
    }

    ghost function View(): Store
      reads this
    {
      Store(defaults, overrides, current, file)
    }

    method RegisterDefault(def: AgentConfig)
      modifies this`defaults
      ensures defaults == if def.id == "" then old(defaults) else old(defaults)[def.id := def]
    {
      if def.id == "" {
        return;
      }
      defaults := defaults[def.id := def];
    }

    /** Load; false stands for an exception, which leaves `current` incomplete. */
    method Load() returns (ok: bool)
      modifies this`overrides, this`current
      ensures ok <==> ReadFile(file).Some? && AllMerge(defaults, ReadFile(file).value, dump)
      ensures ok ==> overrides == ReadFile(file).value && IsView(current, defaults, overrides, dump)
    {
      hide Merge;
      overrides, current := map[], map[];
      var read := ReadFile(file);
      if read.None? {
        return false;
      }
      overrides := read.value;
      var rest := defaults.Keys;
      while rest != {}
        invariant rest <= defaults.Keys && overrides == read.value
        invariant current.Keys == defaults.Keys - rest
        invariant forall id <- current :: Effective(defaults, overrides, id, dump) == Some(current[id])
      {
        Pick(rest);
        var id :| id in rest;
        var merged := Some(defaults[id]);
        if id in overrides {
          merged := Merge(overrides[id], defaults[id], dump);
        }
        if merged.None? {
          return false;
        }
        current := current[id := merged.value];
        rest := rest - {id};
      }
      rest := overrides.Keys;
      while rest != {}
        invariant rest <= overrides.Keys && overrides == read.value
        invariant current.Keys == defaults.Keys + (overrides.Keys - rest)
        invariant forall id <- current :: Effective(defaults, overrides, id, dump) == Some(current[id])
      {
        Pick(rest);
        var id :| id in rest;
        rest := rest - {id};
        if id !in defaults {
          var merged := Merge(overrides[id], Fresh(id), dump);
          if merged.None? {
            return false;
          }
          current := current[id := merged.value];
        }
      }
      return true;
    }

    /** SaveLocked; `written` tells whether the file system let it. */
    method Save(written: bool)
      requires Filed(overrides)
      modifies this`file
      ensures written ==> ReadFile(file) == Some(overrides)
      ensures !written ==> file == old(file)
    {
      var items, rest := [], overrides.Keys;
      assert overrides - overrides.Keys == map[];
      while rest != {}
        invariant file == old(file)
        invariant rest <= overrides.Keys
        invariant ReadItems(items, map[]) == Some(overrides - rest)
      {
        Pick(rest);
        var id :| id in rest;
        ReadAppended(items, [overrides[id]], map[]);
        assert [overrides[id]][1..] == [];
        assert (overrides - rest)[id := overrides[id]] == overrides - (rest - {id});
        items := items + [overrides[id]];
        rest := rest - {id};
      }
      assert overrides - {} == overrides;
      if written {
        file := Obj(map[VersionKey := Int(1), Agents := Arr(items)]);
      }
    }

    /** Upsert stores the whole configuration as the override. */
    method Upsert(cfg: AgentConfig, written: bool)
      requires Filed(overrides)
      modifies this`overrides, this`current, this`file
      ensures Filed(overrides) && Step(old(View()), Op.Upsert(cfg, written), View(), dump)
    {
      hide Merge, Normal, ToJson, HasId, Fresh, Clean, Effective;
      if cfg.id == "" {
        return;
      }
      HasOwnId(cfg);
      overrides := overrides[cfg.id := ToJson(cfg)];
      var merged := cfg;
      if cfg.id in defaults {
        WrittenReadsBack(cfg, defaults[cfg.id], dump);
        var result := Merge(overrides[cfg.id], defaults[cfg.id], dump);
        merged := result.value;
      }
      current := current[cfg.id := merged];
      Save(written);
    }

    /** UpsertOverride; false stands for the exception of the merge. */
    method UpsertOverride(id: AgentId, overrideJson: Json, written: bool) returns (ok: bool)
      requires Filed(overrides)
      modifies this`overrides, this`current, this`file
      ensures Filed(overrides) && Step(old(View()), Op.UpsertOverride(id, overrideJson, written), View(), dump)
      ensures ok <==> !Throws(old(View()), Op.UpsertOverride(id, overrideJson, written), dump)
    {
      hide Merge, Clean, HasId, Fresh;
      if id == "" {
        return true;
      }
      CleanHasId(overrideJson, id);
      overrides := overrides[id := Clean(overrideJson, id)];
      var result := Merge(overrides[id], if id in defaults then defaults[id] else Fresh(id), dump);
      if result.None? {
        return false;
      }
      current := current[id := result.value];
      Save(written);
      return true;
    }

    method Remove(id: AgentId, written: bool)
      requires Filed(overrides)
      modifies this`overrides, this`current, this`file
      ensures Filed(overrides) && Step(old(View()), Op.Remove(id, written), View(), dump)
    {
      hide Merge;
      overrides := overrides - {id};
      if id in defaults {
        current := current[id := defaults[id]];
      } else {
        current := current - {id};
      }
      Save(written);
    }
  }

  lemma Pick(s: set<AgentId>)
    requires s != {}
    ensures exists id :: id in s
  {
    assert (forall id :: id !in s) ==> s == {};
  }

  lemma HasOwnId(cfg: AgentConfig)
    ensures HasId(ToJson(cfg)) && ToJson(cfg).fields[Id] == Str(cfg.id)
  {
    hide AgentOwnFields, LimitFields, ToolListFields, InGroup, Includes;
    AgentKeysDiffer(cfg);
    GroupsDiffer(AgentOwnFields(cfg), LimitFields(cfg.limits), ToolListFields(cfg.tools), 0, 3, 4);
    UnionIncludes(AgentOwnFields(cfg), LimitFields(cfg.limits), ToolListFields(cfg.tools));
    AgentLookups(ToJson(cfg).fields, cfg);
  }

  // ---------- The merged view agrees with a reload ----------

  /** As after a load: the merged view is what a reload of these overrides would compute. */
  ghost predicate Agrees(s: Store, dump: Json -> string) {
    Filed(s.overrides) && IsView(s.current, s.defaults, s.overrides, dump)
  }

  /** Storing a configuration keeps the view right just when a default lies under it, or none of its child
      pointers is null: otherwise the view holds the configuration itself, and a reload one with empty nodes. */
  lemma UpsertAgreesIff(s: Store, cfg: AgentConfig, written: bool, t: Store, dump: Json -> string)
    requires Agrees(s, dump) && cfg.id != "" && Step(s, Upsert(cfg, written), t, dump)
    ensures Agrees(t, dump) <==> cfg.id in s.defaults || NoNullChildren(cfg)
  {
    hide Merge, Normal, ToJson, HasId, NoNullChildren, Fresh, ReadFile;
    HasOwnId(cfg);
    OthersUntouched(s, Upsert(cfg, written), t, dump);
    WrittenReadsBack(cfg, Base(s.defaults, cfg.id), dump);
    if cfg.id !in s.defaults {
      FreshHasNoTemplates(cfg.id);
      RoundTripIff(cfg, Fresh(cfg.id), dump);
    }
    assert Effective(t.defaults, t.overrides, cfg.id, dump) == Merge(ToJson(cfg), Base(s.defaults, cfg.id), dump);
  }

  lemma FreshHasNoTemplates(id: AgentId)
    ensures Fresh(id).promptTemplates == map[]
  {
  }

  /** An operation leaves the other agents alone. */
  lemma OthersUntouched(s: Store, op: Op, t: Store, dump: Json -> string)
    requires Agrees(s, dump) && !Refused(op) && !Throws(s, op, dump) && Step(s, op, t, dump)
    ensures t.current.Keys == t.defaults.Keys + t.overrides.Keys
    ensures forall id <- t.current :: id != Target(op) ==> Effective(t.defaults, t.overrides, id, dump) == Some(t.current[id])
    ensures forall id <- t.overrides :: id != Target(op) ==> id in s.overrides && t.overrides[id] == s.overrides[id]
  {
    hide Merge, Normal, ToJson, HasId, Fresh, ReadFile;
  }

  /** The condition under which an operation keeps the view right, to be checked before the call. */
  predicate Safe(s: Store, op: Op, dump: Json -> string) {
    && (op.Upsert? && !Refused(op) ==> op.cfg.id in s.defaults || NoNullChildren(op.cfg))
    && !Throws(s, op, dump)
  }

  lemma StepAgrees(s: Store, op: Op, t: Store, dump: Json -> string)
    requires Agrees(s, dump) && Step(s, op, t, dump) && Safe(s, op, dump)
    ensures Agrees(t, dump) && t.defaults == s.defaults
  {
    hide Merge, Normal, ToJson, HasId, NoNullChildren, Fresh, ReadFile, Clean;
    if !Refused(op) {
      OthersUntouched(s, op, t, dump);
      match op
      case Upsert(cfg, written) => UpsertAgreesIff(s, cfg, written, t, dump);
      case UpsertOverride(id, overrideJson, _) => CleanHasId(overrideJson, id);
      case Remove(_, _) =>
    }
  }

  lemma CleanHasId(overrideJson: Json, id: AgentId)
    ensures HasId(Clean(overrideJson, id)) && Clean(overrideJson, id).fields[Id] == Str(id)
  {
  }

  /** A run of safe operations. */
  ghost predicate Runs(s: Store, ops: seq<Op>, states: seq<Store>, dump: Json -> string) {
    && |states| == |ops| + 1 && states[0] == s
    && forall k :: 0 <= k < |ops| ==> Step(states[k], ops[k], states[k + 1], dump) && Safe(states[k], ops[k], dump)
  }

  lemma {:induction false} RunsAgree(s: Store, ops: seq<Op>, states: seq<Store>, dump: Json -> string, k: nat)
    requires Agrees(s, dump) && Runs(s, ops, states, dump) && k <= |ops|
    ensures Agrees(states[k], dump) && states[k].defaults == s.defaults
  {
    hide Agrees, Step, Safe;
    if k > 0 {
      RunsAgree(s, ops, states, dump, k - 1);
      StepAgrees(states[k - 1], ops[k - 1], states[k], dump);
    }
  }

  /** After a load and any run of safe operations, the last of them saved, a reload of the saved file finds the
      overrides the store holds and computes exactly its merged view. */
  lemma StoreAgreesWithReload(s: Store, ops: seq<Op>, states: seq<Store>, dump: Json -> string)
    requires Agrees(s, dump) && Runs(s, ops, states, dump)
    requires ops != [] && ops[|ops| - 1].written && !Refused(ops[|ops| - 1])
    ensures var t := states[|ops|];
      && ReadFile(t.file) == Some(t.overrides)
      && AllMerge(t.defaults, t.overrides, dump)
      && forall view :: IsView(view, t.defaults, t.overrides, dump) <==> view == t.current
  {
    hide Merge, ReadFile, Filed, Fresh, ToJson, Normal;
    RunsAgree(s, ops, states, dump, |ops|);
    var t := states[|ops|];
    forall view | IsView(view, t.defaults, t.overrides, dump)
      ensures view == t.current
    {
      assert forall id <- view :: id in t.current;
    }
  }

  // ---------- Overrides that throw ----------

  /** Any run of operations, throwing ones included. */
  ghost predicate AnyRuns(s: Store, ops: seq<Op>, states: seq<Store>, dump: Json -> string) {
    && |states| == |ops| + 1 && states[0] == s
    && forall k :: 0 <= k < |ops| ==> Step(states[k], ops[k], states[k + 1], dump)
  }

  /** Among the first n operations, the last on this id is the k-th, and it threw. */
  ghost predicate LastThrewAt(ops: seq<Op>, states: seq<Store>, n: nat, id: AgentId, k: nat, dump: Json -> string)
    requires n <= |ops| < |states|
  {
    && k < n && Target(ops[k]) == id && Throws(states[k], ops[k], dump)
    && forall j :: k < j < n ==> Target(ops[j]) != id
  }

  ghost predicate LastThrew(ops: seq<Op>, states: seq<Store>, n: nat, id: AgentId, dump: Json -> string)
    requires n <= |ops| < |states|
  {
    exists k: nat :: LastThrewAt(ops, states, n, id, k, dump)
  }

  /** What one operation does to whether an id's override merges: its own id is decided anew, others stay. */
  lemma StepDecides(s: Store, op: Op, t: Store, id: AgentId, dump: Json -> string)
    requires Step(s, op, t, dump)
    ensures t.defaults == s.defaults
    ensures Effective(t.defaults, t.overrides, id, dump).None? <==>
      if Target(op) == id && !Refused(op) then Throws(s, op, dump) else Effective(s.defaults, s.overrides, id, dump).None?
  {
    hide Merge, ToJson, Normal, Clean, Fresh, ReadFile;
    if op.Upsert? {
      WrittenReadsBack(op.cfg, Base(s.defaults, op.cfg.id), dump);
    }
  }

  lemma LastThrewStep(ops: seq<Op>, states: seq<Store>, n: nat, id: AgentId, dump: Json -> string)
    requires n < |ops| < |states|
    ensures LastThrew(ops, states, n + 1, id, dump) <==>
      if Target(ops[n]) == id then Throws(states[n], ops[n], dump) else LastThrew(ops, states, n, id, dump)
  {
    hide Throws;
    var more := n + 1;
    if Target(ops[n]) == id {
      if Throws(states[n], ops[n], dump) {
        assert LastThrewAt(ops, states, more, id, n, dump);
      }
    } else {
      if k: nat :| LastThrewAt(ops, states, n, id, k, dump) {
        assert LastThrewAt(ops, states, more, id, k, dump);
      }
      if k: nat :| LastThrewAt(ops, states, more, id, k, dump) {
        assert LastThrewAt(ops, states, n, id, k, dump);
      }
    }
  }

  /** Over every run: the stored override of an id does not merge exactly while the last operation on it threw. */
  lemma {:induction false} StoredMergesIff(
      s: Store, ops: seq<Op>, states: seq<Store>, n: nat, id: AgentId, dump: Json -> string)
    requires AllMerge(s.defaults, s.overrides, dump) && AnyRuns(s, ops, states, dump) && n <= |ops| && id != ""
    ensures states[n].defaults == s.defaults
    ensures Effective(s.defaults, states[n].overrides, id, dump).None? <==> LastThrew(ops, states, n, id, dump)
  {
    hide Step, Throws, Merge, Base;
    if n > 0 {
      StoredMergesIff(s, ops, states, n - 1, id, dump);
      StepDecides(states[n - 1], ops[n - 1], states[n], id, dump);
      LastThrewStep(ops, states, n - 1, id, dump);
    } else {
      assert forall k: nat :: !LastThrewAt(ops, states, 0, id, k, dump);
    }
  }

  /** An override whose merge throws is refused too late: it is stored by then, and the next save writes it out. Over
      every run whose last operation was saved, a load of the file throws, if and only if some agent's last operation
      threw; so any operation on that agent that goes through heals the file, and nothing else does. */
  lemma SavedFileLoadsIff(s: Store, ops: seq<Op>, states: seq<Store>, dump: Json -> string)
    requires Agrees(s, dump) && AnyRuns(s, ops, states, dump) && ops != []
    requires var n := |ops| - 1; ops[n].written && !Refused(ops[n]) && !Throws(states[n], ops[n], dump)
    ensures var t := states[|ops|];
      && ReadFile(t.file) == Some(t.overrides)
      && (AllMerge(t.defaults, ReadFile(t.file).value, dump) <==> forall id :: !LastThrew(ops, states, |ops|, id, dump))
  {
    hide Effective, ReadFile, Throws, CurrentAfter, OverridesAfter;
    AgreesMerges(s, dump);
    var t := states[|ops|];
    assert Step(states[|ops| - 1], ops[|ops| - 1], t, dump);
    forall id
      ensures Effective(t.defaults, t.overrides, id, dump).None? <==> LastThrew(ops, states, |ops|, id, dump)
    {
      if id == "" {
        NoEmptyId(s, ops, states, |ops|, dump);
      } else {
        StoredMergesIff(s, ops, states, |ops|, id, dump);
      }
    }
    MergesIfListed(t, dump);
  }

  lemma AgreesMerges(s: Store, dump: Json -> string)
    requires Agrees(s, dump)
    ensures AllMerge(s.defaults, s.overrides, dump)
  {
    hide Effective;
    assert forall id <- s.overrides :: id in s.current;
  }

  lemma MergesIfListed(t: Store, dump: Json -> string)
    ensures AllMerge(t.defaults, t.overrides, dump) <==> forall id :: Effective(t.defaults, t.overrides, id, dump).Some?
  {
    hide Merge, Base;
  }

  /** Nothing is ever stored under the empty id. */
  lemma {:induction false} NoEmptyId(s: Store, ops: seq<Op>, states: seq<Store>, n: nat, dump: Json -> string)
    requires Agrees(s, dump) && AnyRuns(s, ops, states, dump) && n <= |ops|
    ensures "" !in states[n].overrides
    ensures Effective(states[n].defaults, states[n].overrides, "", dump).Some?
    ensures !LastThrew(ops, states, n, "", dump)
  {
    hide Merge, ToJson, Clean, Base, HasId, CurrentAfter, ReadFile;
    if n > 0 {
      NoEmptyId(s, ops, states, n - 1, dump);
      assert Step(states[n - 1], ops[n - 1], states[n], dump);
    }
  }
}
