/** The configurable state-machine engine (internal/workflow/engine.go).
    The engine is generic in the domain state D that a commit hook updates inside the transaction. */
module Workflow {
  import opened Prelude

  datatype WfState = WfState(id: int, definition: int, code: string, isFinal: bool)

  datatype Transition = Transition(
    id: int, definition: int, from: Option<int>, to: int, sortOrder: int, guards: seq<string>)

  /** One organization's definitions by code, states by id and by (definition, code), and transitions. */
  datatype Config = Config(
    definitions: map<string, int>, states: map<int, WfState>, codes: map<(int, string), int>, transitions: seq<Transition>)

  datatype Instance = Instance(definition: int, entityType: string, entityId: int, current: int)

  datatype LogEntry = LogEntry(instance: nat, transition: int, from: int, to: int)

  datatype Verdict = Allow | Veto(reason: string) | Broken

  type Guard = (Instance, Transition, WfState, WfState) -> Verdict

  type Hook<!D> = (D, WfState, WfState) -> Option<D>

  datatype Error =
    | NotFound
    | FinalState
    | NoTransition
    | UnknownGuard(key: string)
    | Blocked(reason: string)
    | GuardFailed
    | HookFailed

  /** What the engine stores: instances (their ids are positions), the transition log, the domain. */
  datatype Store<D> = Store(instances: seq<Instance>, log: seq<LogEntry>, domain: D)

  // ---- choosing the transition --------------------------------------------

  /** t leads from state `from` to a state with the target code, in definition def; a transition
      without a from-state starts anywhere. */
  predicate Matches(cfg: Config, t: Transition, def: int, code: string, from: int) {
    t.definition == def && t.to in cfg.states && cfg.states[t.to].code == code &&
    (t.from == Some(from) || t.from.None?)
  }

  /** Specific from-states win over wildcards, then the smaller sort order. */
  predicate Before(s: Transition, t: Transition) {
    if s.from.None? != t.from.None? then t.from.None? else s.sortOrder < t.sortOrder
  }

  /** GetTransitionToState. */
  function Pick(cfg: Config, ts: seq<Transition>, def: int, code: string, from: int): (r: Option<Transition>)
    ensures r.Some? ==> r.value in ts && Matches(cfg, r.value, def, code, from)
    ensures r.None? ==> forall i | 0 <= i < |ts| :: !Matches(cfg, ts[i], def, code, from)
    ensures r.Some? ==> forall i | 0 <= i < |ts| && Matches(cfg, ts[i], def, code, from) :: !Before(ts[i], r.value)
  {
    if ts == [] then None
    else
      var n := |ts| - 1;
      var best := Pick(cfg, ts[..n], def, code, from);
      if !Matches(cfg, ts[n], def, code, from) then best
      else if best.Some? && !Before(ts[n], best.value) then best
      else Some(ts[n])
  }

  // ---- specification ------------------------------------------------------

  datatype Plan = Plan(transition: Transition, from: WfState, to: WfState)

  /** The veto pass: the first guard that does not allow decides. */
  function CheckGuards(reg: map<string, Guard>, keys: seq<string>, inst: Instance, p: Plan): Option<Error> {
    if keys == [] then None
    else
      var earlier := CheckGuards(reg, keys[..|keys| - 1], inst, p);
      if earlier.Some? then earlier
      else
        var k := keys[|keys| - 1];
        if k !in reg then Some(UnknownGuard(k))
        else match reg[k](inst, p.transition, p.from, p.to)
          case Allow => None
          case Veto(reason) => Some(Blocked(reason))
          case Broken => Some(GuardFailed)
  }

  /** Everything decided before the transaction begins. */
  function Prepare(cfg: Config, reg: map<string, Guard>, instances: seq<Instance>, id: nat, code: string): Result<Plan, Error> {
    if id >= |instances| || instances[id].current !in cfg.states then Err(NotFound)
    else
      var inst := instances[id];
      var from := cfg.states[inst.current];
      if from.isFinal then Err(FinalState)
      else match Pick(cfg, cfg.transitions, inst.definition, code, inst.current)
        case None => Err(NoTransition)
        case Some(t) =>
          var plan := Plan(t, from, cfg.states[t.to]);
          match CheckGuards(reg, t.guards, inst, plan)
          case Some(e) => Err(e)
          case None => Ok(plan)
  }

  /** The transaction: state update, log row, hook; all of it or nothing. */
  function Commit<D>(s: Store<D>, id: nat, plan: Plan, hook: Hook<D>): (Store<D>, Result<WfState, Error>)
    requires id < |s.instances|
  {
    match hook(s.domain, plan.from, plan.to)
    case None => (s, Err(HookFailed))
    case Some(d) =>
      (Store(s.instances[id := s.instances[id].(current := plan.to.id)],
             s.log + [LogEntry(id, plan.transition.id, plan.from.id, plan.to.id)], d),
       Ok(plan.to))
  }

  function ApplyTo<D>(cfg: Config, reg: map<string, Guard>, s: Store<D>, id: nat, code: string, hook: Hook<D>)
    : (Store<D>, Result<WfState, Error>)
  {
    match Prepare(cfg, reg, s.instances, id, code)
    case Err(e) => (s, Err(e))
    case Ok(plan) => Commit(s, id, plan, hook)
  }

  function FindInstance(instances: seq<Instance>, def: int, entityType: string, entityId: int): (r: Option<nat>)
    ensures r.Some? ==> r.value < |instances| && IsFor(instances[r.value], def, entityType, entityId)
    ensures r.None? ==> forall i | 0 <= i < |instances| :: !IsFor(instances[i], def, entityType, entityId)
  {
    if instances == [] then None
    else
      var n := |instances| - 1;
      var r := FindInstance(instances[..n], def, entityType, entityId);
      if r.Some? then r else if IsFor(instances[n], def, entityType, entityId) then Some(n) else None
  }

  predicate IsFor(i: Instance, def: int, entityType: string, entityId: int) {
    i.definition == def && i.entityType == entityType && i.entityId == entityId
  }

  /** States are keyed by id, a code names at most one state of a definition, and a transition
      stays inside its definition. */
  ghost predicate WellFormed(cfg: Config) {
    && (forall i | i in cfg.states :: cfg.states[i].id == i)
    && (forall i | i in cfg.states ::
          (cfg.states[i].definition, cfg.states[i].code) in cfg.codes &&
          cfg.codes[(cfg.states[i].definition, cfg.states[i].code)] == i)
    && (forall k | k in cfg.codes ::
          cfg.codes[k] in cfg.states && cfg.states[cfg.codes[k]].definition == k.0 && cfg.states[cfg.codes[k]].code == k.1)
    && (forall k | 0 <= k < |cfg.transitions| && cfg.transitions[k].to in cfg.states ::
          cfg.states[cfg.transitions[k].to].definition == cfg.transitions[k].definition)
  }

  /** The entity's instance, created in the start state when it has none; an unknown definition or
      start state is refused. */
  function Ensure(cfg: Config, instances: seq<Instance>, defCode: string, entityType: string, entityId: int, startCode: string)
    : (seq<Instance>, Option<nat>)
  {
    if defCode !in cfg.definitions then (instances, None)
    else
      var def := cfg.definitions[defCode];
      var found := FindInstance(instances, def, entityType, entityId);
      if found.Some? then (instances, found)
      else if (def, startCode) !in cfg.codes then (instances, None)
      else (instances + [Instance(def, entityType, entityId, cfg.codes[(def, startCode)])], Some(|instances|))
  }

  // ---- the engine ---------------------------------------------------------

  class Engine<D> {
    var instances: seq<Instance>
    var log: seq<LogEntry>
    var domain: D
    const cfg: Config
    const reg: map<string, Guard>

    function View(): Store<D>
      reads this
    {
      Store(instances, log, domain)
    }

    constructor (cfg: Config, reg: map<string, Guard>, domain: D)
      ensures View() == Store([], [], domain)
      ensures this.cfg == cfg && this.reg == reg
    {
      this.cfg, this.reg := cfg, reg;
      this.instances, this.log, this.domain := [], [], domain;
    }

    method EnsureInstance(defCode: string, entityType: string, entityId: int, startCode: string) returns (r: Option<nat>)
      modifies this`instances
      ensures (instances, r) == Ensure(cfg, old(instances), defCode, entityType, entityId, startCode)
    {
      if defCode !in cfg.definitions { return None; }
      var def := cfg.definitions[defCode];
      var found := FindInstance(instances, def, entityType, entityId);
      if found.Some? { return found; }
      if (def, startCode) !in cfg.codes { return None; }
      instances := instances + [Instance(def, entityType, entityId, cfg.codes[(def, startCode)])];
      return Some(|instances| - 1);
    }

    /** ApplyTransitionTo: plan and guards first, then one transaction around state, log and hook. */
    method ApplyTransitionTo(id: nat, code: string, hook: Hook<D>) returns (r: Result<WfState, Error>)
      modifies this
      ensures (View(), r) == ApplyTo(cfg, reg, old(View()), id, code, hook)
    {
      if id >= |instances| || instances[id].current !in cfg.states { return Err(NotFound); }
      var inst := instances[id];
      var from := cfg.states[inst.current];
      if from.isFinal { return Err(FinalState); }
      var picked := Pick(cfg, cfg.transitions, inst.definition, code, inst.current);
      if picked.None? { return Err(NoTransition); }
      var tr := picked.value;
      var plan := Plan(tr, from, cfg.states[tr.to]);
      for i := 0 to |tr.guards|
        invariant unchanged(this)
        invariant CheckGuards(reg, tr.guards[..i], inst, plan).None?
      {
        var k := tr.guards[i];
        assert tr.guards[..i + 1][..i] == tr.guards[..i];
        if k !in reg {
          GuardsStop(reg, tr.guards, inst, plan, i + 1);
          return Err(UnknownGuard(k));
        }
        var verdict := reg[k](inst, tr, from, plan.to);
        if !verdict.Allow? {
          GuardsStop(reg, tr.guards, inst, plan, i + 1);
          return Err(if verdict.Veto? then Blocked(verdict.reason) else GuardFailed);
        }
      }
      assert tr.guards[..|tr.guards|] == tr.guards;
      var saved := (instances, log);
      instances := instances[id := inst.(current := plan.to.id)];
      log := log + [LogEntry(id, tr.id, from.id, plan.to.id)];
      var done := hook(domain, from, plan.to);
      if done.None? {
        instances, log := saved.0, saved.1;
        return Err(HookFailed);
      }
      domain := done.value;
      return Ok(plan.to);
    }
  }

  lemma {:induction false} GuardsStop(reg: map<string, Guard>, keys: seq<string>, inst: Instance, p: Plan, k: nat)
    requires k <= |keys| && CheckGuards(reg, keys[..k], inst, p).Some?
    ensures CheckGuards(reg, keys, inst, p) == CheckGuards(reg, keys[..k], inst, p)
  {
    if k < |keys| {
      assert keys[..|keys| - 1][..k] == keys[..k];
      GuardsStop(reg, keys[..|keys| - 1], inst, p, k);
    } else {
      assert keys[..k] == keys;
    }
  }

  // ---- paths --------------------------------------------------------------

  /** The log rows of one instance, oldest first. */
  function LogOf(log: seq<LogEntry>, id: nat): seq<LogEntry> {
    if log == [] then []
    else LogOf(log[..|log| - 1], id) + if log[|log| - 1].instance == id then [log[|log| - 1]] else []
  }

  /** A defined edge: a configured transition out of a non-final state. */
  ghost predicate Edge(cfg: Config, def: int, from: int, to: int) {
    from in cfg.states && to in cfg.states && !cfg.states[from].isFinal &&
    exists k | 0 <= k < |cfg.transitions| ::
      cfg.transitions[k].definition == def && cfg.transitions[k].to == to &&
      (cfg.transitions[k].from == Some(from) || cfg.transitions[k].from.None?)
  }

  ghost predicate Path(cfg: Config, def: int, rows: seq<LogEntry>, current: int) {
    && (forall i | 0 <= i < |rows| :: Edge(cfg, def, rows[i].from, rows[i].to))
    && (forall i | 0 <= i < |rows| - 1 :: rows[i].to == rows[i + 1].from)
    && (rows != [] ==> rows[|rows| - 1].to == current)
  }

  lemma {:induction false} PathAppend(cfg: Config, def: int, rows: seq<LogEntry>, e: LogEntry)
    requires Path(cfg, def, rows, e.from) && Edge(cfg, def, e.from, e.to)
    ensures Path(cfg, def, rows + [e], e.to)
  {
  }

  /** An edge stays inside its definition. */
  lemma {:induction false} EdgeInside(cfg: Config, def: int, from: int, to: int)
    requires WellFormed(cfg) && Edge(cfg, def, from, to)
    ensures cfg.states[to].definition == def && cfg.codes[(def, cfg.states[to].code)] == to
  {
  }

  /** Every instance's log is a connected path of defined edges that ends at its current state. */
  ghost predicate Traced<D>(cfg: Config, s: Store<D>) {
    && (forall id | 0 <= id < |s.instances| ::
          Path(cfg, s.instances[id].definition, LogOf(s.log, id), s.instances[id].current))
    && (forall k | 0 <= k < |s.log| :: s.log[k].instance < |s.instances|)
  }

  lemma {:induction false} LogOfFresh(log: seq<LogEntry>, id: nat)
    requires forall k | 0 <= k < |log| :: log[k].instance < id
    ensures LogOf(log, id) == []
  {
    if log != [] { LogOfFresh(log[..|log| - 1], id); }
  }

  lemma {:induction false} LogOfAppend(log: seq<LogEntry>, e: LogEntry, id: nat)
    ensures LogOf(log + [e], id) == LogOf(log, id) + if e.instance == id then [e] else []
  {
    assert (log + [e])[..|log|] == log;
  }

  lemma {:induction false} NewInstanceTraced<D>(cfg: Config, s: Store<D>, inst: Instance)
    requires Traced(cfg, s)
    ensures Traced(cfg, s.(instances := s.instances + [inst]))
  {
    LogOfFresh(s.log, |s.instances|);
  }

  /** Committing a plan keeps the instance's log a path exactly when the instance has not moved since the plan
      was made; two overlapping applications may both commit and then the log is no path. */
  lemma {:induction false} CommitTracedIff<D>(cfg: Config, s: Store<D>, id: nat, plan: Plan, hook: Hook<D>)
    requires WellFormed(cfg) && Traced(cfg, s) && id < |s.instances| && LogOf(s.log, id) != []
    requires Edge(cfg, s.instances[id].definition, plan.from.id, plan.to.id)
    requires hook(s.domain, plan.from, plan.to).Some?
    ensures Traced(cfg, Commit(s, id, plan, hook).0) <==> s.instances[id].current == plan.from.id
  {
    var t := Commit(s, id, plan, hook).0;
    var e := LogEntry(id, plan.transition.id, plan.from.id, plan.to.id);
    forall i: nat ensures LogOf(t.log, i) == LogOf(s.log, i) + if e.instance == i then [e] else [] {
      LogOfAppend(s.log, e, i);
    }
    var rows := LogOf(s.log, id);
    assert LogOf(t.log, id)[|rows| - 1] == rows[|rows| - 1] && LogOf(t.log, id)[|rows|] == e;
    if s.instances[id].current == plan.from.id {
      CommitKeepsTraced(cfg, s, id, plan, hook);
    }
  }

  lemma {:induction false} CommitKeepsTraced<D>(cfg: Config, s: Store<D>, id: nat, plan: Plan, hook: Hook<D>)
    requires Traced(cfg, s) && id < |s.instances|
    requires Edge(cfg, s.instances[id].definition, plan.from.id, plan.to.id)
    requires s.instances[id].current == plan.from.id
    ensures Traced(cfg, Commit(s, id, plan, hook).0)
  {
    var t := Commit(s, id, plan, hook).0;
    if t != s {
      var e := LogEntry(id, plan.transition.id, plan.from.id, plan.to.id);
      forall i | 0 <= i < |t.instances|
        ensures Path(cfg, t.instances[i].definition, LogOf(t.log, i), t.instances[i].current)
      {
        LogOfAppend(s.log, e, i);
        var rows := LogOf(s.log, i);
        assert Path(cfg, s.instances[i].definition, rows, s.instances[i].current);
        if i == id {
          PathAppend(cfg, s.instances[i].definition, rows, e);
        } else {
          assert LogOf(t.log, i) == rows;
        }
      }
    }
  }

  lemma {:induction false} PreparedEdge(cfg: Config, reg: map<string, Guard>, instances: seq<Instance>, id: nat, code: string)
    requires WellFormed(cfg) && Prepare(cfg, reg, instances, id, code).Ok?
    ensures var plan := Prepare(cfg, reg, instances, id, code).value;
            plan.from.id == instances[id].current && plan.to.code == code &&
            Edge(cfg, instances[id].definition, plan.from.id, plan.to.id)
  {
    var plan := Prepare(cfg, reg, instances, id, code).value;
    var k :| 0 <= k < |cfg.transitions| && cfg.transitions[k] == plan.transition;
  }

  /** One whole application keeps every log a path; a refusal or a failing hook changes nothing; a final state is never left. */
  lemma {:induction false} ApplyKeepsTraced<D>(cfg: Config, reg: map<string, Guard>, s: Store<D>, id: nat, code: string, hook: Hook<D>)
    requires WellFormed(cfg) && Traced(cfg, s)
    ensures var (t, r) := ApplyTo(cfg, reg, s, id, code, hook);
            && Traced(cfg, t)
            && (r.Err? ==> t == s)
            && (r.Ok? ==> id < |s.instances| && t.instances[id].current == r.value.id && r.value.code == code &&
                          |t.log| == |s.log| + 1)
            && (id < |s.instances| && s.instances[id].current in cfg.states && cfg.states[s.instances[id].current].isFinal ==>
                r == Err(FinalState))
  {
    if Prepare(cfg, reg, s.instances, id, code).Ok? {
      PreparedEdge(cfg, reg, s.instances, id, code);
      CommitKeepsTraced(cfg, s, id, Prepare(cfg, reg, s.instances, id, code).value, hook);
    }
  }

  // ---- when an application succeeds ---------------------------------------

  /** A transition of the definition that leads to a state with the code, from this state or from anywhere. */
  predicate Leads(cfg: Config, t: Transition, def: int, code: string, from: int) {
    t.definition == def && (t.from.Some? ==> t.from.value == from) && t.to in cfg.states && cfg.states[t.to].code == code
  }

  /** The chosen transition names its from-state if any that leads there does, and has the smallest sort order among those
      that are as specific. */
  lemma {:induction false} PickIs(cfg: Config, ts: seq<Transition>, def: int, code: string, from: int)
    ensures var r := Pick(cfg, ts, def, code, from);
            && (r.Some? <==> exists i | 0 <= i < |ts| :: Leads(cfg, ts[i], def, code, from))
            && (r.Some? ==>
                  r.value in ts && Leads(cfg, r.value, def, code, from) &&
                  forall i | 0 <= i < |ts| && Leads(cfg, ts[i], def, code, from) ::
                    (r.value.from.None? ==> ts[i].from.None?) &&
                    (ts[i].from.Some? == r.value.from.Some? ==> r.value.sortOrder <= ts[i].sortOrder))
  {
    forall i | 0 <= i < |ts| ensures Matches(cfg, ts[i], def, code, from) <==> Leads(cfg, ts[i], def, code, from) { }
    hide Pick;
    var r := Pick(cfg, ts, def, code, from);
    if r.Some? {
      var k :| 0 <= k < |ts| && ts[k] == r.value;
      assert Leads(cfg, ts[k], def, code, from);
    }
  }

  /** Every guard named is registered and allows. */
  predicate AllAllow(reg: map<string, Guard>, keys: seq<string>, inst: Instance, t: Transition, from: WfState, to: WfState) {
    forall i | 0 <= i < |keys| :: keys[i] in reg && reg[keys[i]](inst, t, from, to) == Allow
  }

  /** The first guard that is unknown or does not allow decides the error. */
  lemma {:induction false} GuardsDecide(reg: map<string, Guard>, keys: seq<string>, inst: Instance, p: Plan)
    ensures CheckGuards(reg, keys, inst, p).None? <==> AllAllow(reg, keys, inst, p.transition, p.from, p.to)
    ensures CheckGuards(reg, keys, inst, p).Some? ==>
              exists i | 0 <= i < |keys| ::
                AllAllow(reg, keys[..i], inst, p.transition, p.from, p.to) &&
                if keys[i] !in reg then CheckGuards(reg, keys, inst, p) == Some(UnknownGuard(keys[i]))
                else match reg[keys[i]](inst, p.transition, p.from, p.to)
                  case Allow => false
                  case Veto(reason) => CheckGuards(reg, keys, inst, p) == Some(Blocked(reason))
                  case Broken => CheckGuards(reg, keys, inst, p) == Some(GuardFailed)
  {
    if keys != [] {
      var n := |keys| - 1;
      GuardsDecide(reg, keys[..n], inst, p);
      if CheckGuards(reg, keys[..n], inst, p).Some? {
        var i :| 0 <= i < n && AllAllow(reg, keys[..n][..i], inst, p.transition, p.from, p.to) &&
                 if keys[..n][i] !in reg then CheckGuards(reg, keys[..n], inst, p) == Some(UnknownGuard(keys[..n][i]))
                 else match reg[keys[..n][i]](inst, p.transition, p.from, p.to)
                   case Allow => false
                   case Veto(reason) => CheckGuards(reg, keys[..n], inst, p) == Some(Blocked(reason))
                   case Broken => CheckGuards(reg, keys[..n], inst, p) == Some(GuardFailed);
        assert keys[..n][..i] == keys[..i] && keys[..n][i] == keys[i];
      } else {
        assert AllAllow(reg, keys[..n], inst, p.transition, p.from, p.to);
      }
    }
  }

  /** An application succeeds exactly when the instance is in a known state that is not final, a transition is chosen, all of
      its guards allow, and the hook accepts; then the instance is in the new state, one row is logged and the hook's result
      is stored, and nothing else changes. */
  lemma {:induction false} AppliedIff<D>(cfg: Config, reg: map<string, Guard>, s: Store<D>, id: nat, code: string, hook: Hook<D>)
    ensures var (t, r) := ApplyTo(cfg, reg, s, id, code, hook);
            && (r.Ok? <==>
                  id < |s.instances| && s.instances[id].current in cfg.states && !cfg.states[s.instances[id].current].isFinal &&
                  var inst, from := s.instances[id], cfg.states[s.instances[id].current];
                  var chosen := Pick(cfg, cfg.transitions, inst.definition, code, inst.current);
                  chosen.Some? && AllAllow(reg, chosen.value.guards, inst, chosen.value, from, cfg.states[chosen.value.to]) &&
                  hook(s.domain, from, cfg.states[chosen.value.to]).Some?)
            && (r.Ok? ==>
                  var inst, from := s.instances[id], cfg.states[s.instances[id].current];
                  var chosen := Pick(cfg, cfg.transitions, inst.definition, code, inst.current).value;
                  var to := cfg.states[chosen.to];
                  r.value == to &&
                  t == Store(s.instances[id := inst.(current := to.id)], s.log + [LogEntry(id, chosen.id, from.id, to.id)],
                             hook(s.domain, from, to).value))
            && (r.Err? ==> t == s)
  {
    if id < |s.instances| && s.instances[id].current in cfg.states {
      var inst, from := s.instances[id], cfg.states[s.instances[id].current];
      var chosen := Pick(cfg, cfg.transitions, inst.definition, code, inst.current);
      if chosen.Some? { GuardsDecide(reg, chosen.value.guards, inst, Plan(chosen.value, from, cfg.states[chosen.value.to])); }
    }
    hide Pick, CheckGuards, AllAllow;
  }

  /** The entity has one instance of a known definition afterwards: the first it had, or a new last one at the state the
      code names; without definition or state there is none and nothing is created. */
  lemma {:induction false} EnsureIs(cfg: Config, instances: seq<Instance>, defCode: string, entityType: string, entityId: int, startCode: string)
    ensures var (after, k) := Ensure(cfg, instances, defCode, entityType, entityId, startCode);
            if k.None? then after == instances
            else
              && defCode in cfg.definitions && k.value < |after|
              && after[k.value].definition == cfg.definitions[defCode] && after[k.value].entityType == entityType && after[k.value].entityId == entityId
              && (after == instances ||
                  (k.value == |instances| && (cfg.definitions[defCode], startCode) in cfg.codes &&
                   after == instances + [Instance(cfg.definitions[defCode], entityType, entityId, cfg.codes[(cfg.definitions[defCode], startCode)])] &&
                   forall i | 0 <= i < |instances| ::
                     !(instances[i].definition == cfg.definitions[defCode] && instances[i].entityType == entityType && instances[i].entityId == entityId)))
    ensures Ensure(cfg, instances, defCode, entityType, entityId, startCode).1.None? <==>
              defCode !in cfg.definitions ||
              ((cfg.definitions[defCode], startCode) !in cfg.codes &&
               forall i | 0 <= i < |instances| ::
                 !(instances[i].definition == cfg.definitions[defCode] && instances[i].entityType == entityType && instances[i].entityId == entityId))
  {
    hide FindInstance;
    if defCode in cfg.definitions {
      forall i | 0 <= i < |instances|
        ensures IsFor(instances[i], cfg.definitions[defCode], entityType, entityId) <==>
                instances[i].definition == cfg.definitions[defCode] && instances[i].entityType == entityType && instances[i].entityId == entityId
      {
      }
    }
  }

  // ---- whole runs ---------------------------------------------------------

  datatype Step<!D> =
    | EnsureStep(defCode: string, entityType: string, entityId: int, startCode: string)
    | ApplyStep(id: nat, code: string, hook: Hook<D>)

  function Next<D>(cfg: Config, reg: map<string, Guard>, s: Store<D>, step: Step<D>): Store<D> {
    match step
    case EnsureStep(d, ty, e, start) => s.(instances := Ensure(cfg, s.instances, d, ty, e, start).0)
    case ApplyStep(id, code, hook) => ApplyTo(cfg, reg, s, id, code, hook).0
  }

  function Run<D>(cfg: Config, reg: map<string, Guard>, s: Store<D>, steps: seq<Step<D>>): Store<D> {
    if steps == [] then s
    else Next(cfg, reg, Run(cfg, reg, s, steps[..|steps| - 1]), steps[|steps| - 1])
  }

  /** Over every run of whole applications, with any guards and any hooks, each instance's log is a
      connected path of defined edges ending at its current state. */
  lemma {:induction false} RunTraced<D>(cfg: Config, reg: map<string, Guard>, domain: D, steps: seq<Step<D>>)
    requires WellFormed(cfg)
    ensures Traced(cfg, Run(cfg, reg, Store([], [], domain), steps))
  {
    if steps != [] {
      var n := |steps| - 1;
      RunTraced(cfg, reg, domain, steps[..n]);
      var s := Run(cfg, reg, Store([], [], domain), steps[..n]);
      match steps[n]
      case EnsureStep(d, ty, e, start) =>
        if d in cfg.definitions && (cfg.definitions[d], start) in cfg.codes {
          var def := cfg.definitions[d];
          NewInstanceTraced(cfg, s, Instance(def, ty, e, cfg.codes[(def, start)]));
        }
      case ApplyStep(id, code, hook) =>
        ApplyKeepsTraced(cfg, reg, s, id, code, hook);
    }
  }

  /** A final state is absorbing: no continuation of the run moves the instance or logs anything for it. */
  lemma {:induction false} FinalAbsorbs<D>(cfg: Config, reg: map<string, Guard>, s: Store<D>, steps: seq<Step<D>>, id: nat)
    requires WellFormed(cfg) && id < |s.instances|
    requires s.instances[id].current in cfg.states && cfg.states[s.instances[id].current].isFinal
    ensures var t := Run(cfg, reg, s, steps);
            id < |t.instances| && t.instances[id] == s.instances[id] && LogOf(t.log, id) == LogOf(s.log, id)
  {
    if steps != [] {
      var n := |steps| - 1;
      FinalAbsorbs(cfg, reg, s, steps[..n], id);
      var t := Run(cfg, reg, s, steps[..n]);
      if steps[n].ApplyStep? && steps[n].id != id && steps[n].id < |t.instances| {
        var p := Prepare(cfg, reg, t.instances, steps[n].id, steps[n].code);
        if p.Ok? {
          LogOfAppend(t.log, LogEntry(steps[n].id, p.value.transition.id, p.value.from.id, p.value.to.id), id);
        }
      }
    }
  }

  // ---- acyclic definitions ------------------------------------------------

  /** A chain of states joined by defined edges. */
  ghost predicate Chain(cfg: Config, def: int, states: seq<int>) {
    forall i | 0 <= i < |states| - 1 :: Edge(cfg, def, states[i], states[i + 1])
  }

  ghost predicate Acyclic(cfg: Config, def: int) {
    forall c: seq<int> | |c| >= 2 && Chain(cfg, def, c) :: c[0] != c[|c| - 1]
  }

  function Targets(rows: seq<LogEntry>): (r: seq<int>)
    ensures |r| == |rows| && forall i | 0 <= i < |rows| :: r[i] == rows[i].to
  {
    seq(|rows|, i requires 0 <= i < |rows| => rows[i].to)
  }

  /** In an acyclic definition no state is entered twice by one instance. */
  lemma {:induction false} EnteredOnce(cfg: Config, def: int, rows: seq<LogEntry>, current: int, i: nat, j: nat)
    requires Acyclic(cfg, def) && Path(cfg, def, rows, current)
    requires i < j < |rows|
    ensures rows[i].to != rows[j].to
  {
    hide Edge;
    var c := Targets(rows)[i..j + 1];
    assert c[0] == rows[i].to && c[|c| - 1] == rows[j].to;
    forall k | 0 <= k < |c| - 1
      ensures Edge(cfg, def, c[k], c[k + 1])
    {
      assert c[k] == rows[i + k].to == rows[i + k + 1].from;
      assert c[k + 1] == rows[i + k + 1].to;
    }
  }
}
