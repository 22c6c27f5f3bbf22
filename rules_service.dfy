/**
 * The rules service: a registry of rules engines (one optional global engine, one per
 * realm, one per asset), the index of asset state facts pushed so far, the routing of
 * each fact along its engine chain (global, tenant, asset ancestors) and the reactions
 * to ruleset, tenant and asset changes. Every operation is one sequential method on one
 * object; the global lock of the source only serialises them.
 */
module RulesService {
  import opened Wrappers
  import opened RulesTypes

  // ---------------------------------------------------------------------------
  // Engines and the calls the service makes on them
  // ---------------------------------------------------------------------------

  /**
   * A rules engine as the service sees it: its id, the rulesets deployed in it and
   * whether it is in error. The registry holds one such record under each key; the
   * facts, fire() and stop() calls an engine gets are in the service's call log.
   */
  datatype Engine = Engine(id: EngineId, rulesets: set<RulesetId>, error: bool)

  /** A new engine: no rulesets and no error. */
  function NewEngine(id: EngineId): Engine {
    Engine(id, {}, false)
  }

  /** addRuleset: deploys or replaces a ruleset; the engine is in error exactly when loading it failed. */
  function AddRuleset(e: Engine, ruleset: RulesetId, loadFailed: bool): (r: Engine)
    ensures r.id == e.id && ruleset in r.rulesets && r.rulesets - {ruleset} == e.rulesets - {ruleset}
    ensures r.error <==> loadFailed
  {
    e.(rulesets := e.rulesets + {ruleset}, error := loadFailed)
  }

  /** removeRuleset: the engine without the ruleset; the service drops it when none is left. */
  function RemoveRuleset(e: Engine, ruleset: RulesetId): (r: Engine)
    ensures r.id == e.id && r.error == e.error && ruleset !in r.rulesets
    ensures ruleset !in e.rulesets ==> r == e
  {
    assert ruleset !in e.rulesets ==> e.rulesets - {ruleset} == e.rulesets;
    e.(rulesets := e.rulesets - {ruleset})
  }

  /**
   * What deploying a list of rulesets in order does to the engine under one key: nothing
   * when no ruleset of the list deploys there; otherwise there is an engine, in error
   * exactly when the load of the last such ruleset failed, that keeps its id or, when it
   * is new, has the id the first such ruleset gives it.
   */
  ghost predicate DeployedEngine(before: Option<Engine>, after: Option<Engine>, rulesets: seq<Ruleset>,
                                 key: ScopeKey, failing: set<RulesetId>) {
    match LastFor(rulesets, key)
    case None => after == before
    case Some(last) =>
      && after.Some?
      && after.value.error == (last.id in failing)
      && after.value.id == (if before.Some? then before.value.id else EngineIdOf(FirstFor(rulesets, key).value.scope))
  }

  /** Deploying one more ruleset, with the contract of a single deploy, extends the list by it. */
  lemma DeployedEngineStep(before: Option<Engine>, mid: Option<Engine>, after: Option<Engine>,
                           rulesets: seq<Ruleset>, i: nat, key: ScopeKey, failing: set<RulesetId>)
    requires i < |rulesets|
    requires DeployedEngine(before, mid, rulesets[..i], key, failing)
    requires KeyOf(rulesets[i].scope) != key ==> after == mid
    requires KeyOf(rulesets[i].scope) == key ==>
      && after.Some? && after.value.error == (rulesets[i].id in failing)
      && after.value.id == (if mid.Some? then mid.value.id else EngineIdOf(rulesets[i].scope))
    ensures DeployedEngine(before, after, rulesets[..i + 1], key, failing)
  {
    LastForStep(rulesets, i, key);
    FirstForStep(rulesets, i, key);
  }

  /** Deploying two lists one after the other is deploying their concatenation. */
  lemma DeployedEngineConcat(before: Option<Engine>, mid: Option<Engine>, after: Option<Engine>,
                             first: seq<Ruleset>, second: seq<Ruleset>, key: ScopeKey, failing: set<RulesetId>)
    requires DeployedEngine(before, mid, first, key, failing)
    requires DeployedEngine(mid, after, second, key, failing)
    ensures DeployedEngine(before, after, first + second, key, failing)
  {
    LastForConcat(first, second, key);
    FirstForConcat(first, second, key);
  }

  /** Three lists deployed one after the other: the rulesets of their concatenation. */
  lemma DeployedThrice(current: Option<set<RulesetId>>, xs: seq<Ruleset>, ys: seq<Ruleset>, zs: seq<Ruleset>, key: ScopeKey)
    ensures Deployed(Deployed(Deployed(current, IdsFor(xs, key)), IdsFor(ys, key)), IdsFor(zs, key))
         == Deployed(current, IdsFor(xs + ys + zs, key))
  {
    IdsForConcat(xs, ys, key);
    IdsForConcat(xs + ys, zs, key);
    DeployedTwice(current, IdsFor(xs, key), IdsFor(ys, key));
    DeployedTwice(current, IdsFor(xs + ys, key), IdsFor(zs, key));
  }

  /** Three lists deployed one after the other: the engine of their concatenation. */
  lemma DeployedEngineThrice(e0: Option<Engine>, e1: Option<Engine>, e2: Option<Engine>, e3: Option<Engine>,
                             xs: seq<Ruleset>, ys: seq<Ruleset>, zs: seq<Ruleset>, key: ScopeKey, failing: set<RulesetId>)
    requires DeployedEngine(e0, e1, xs, key, failing)
    requires DeployedEngine(e1, e2, ys, key, failing)
    requires DeployedEngine(e2, e3, zs, key, failing)
    ensures DeployedEngine(e0, e3, xs + ys + zs, key, failing)
  {
    DeployedEngineConcat(e0, e1, e2, xs, ys, key, failing);
    DeployedEngineConcat(e0, e2, e3, xs + ys, zs, key, failing);
  }

  /** One call the service made on an engine: a fact operation, fire() or stop(). */
  datatype Call =
    | FactCall(engine: EngineId, op: FactOp)
    | FireCall(engine: EngineId)
    | StopCall(engine: EngineId)

  /** The calls of one fact operation along a chain, in chain order. */
  function DispatchOf(chain: seq<Engine>, op: FactOp): seq<Call>
    decreases |chain|
  {
    if chain == [] then [] else DispatchOf(chain[..|chain| - 1], op) + [FactCall(chain[|chain| - 1].id, op)]
  }

  /** The calls of several fact operations along one chain: each operation along the whole chain in turn. */
  function DispatchAll(chain: seq<Engine>, ops: seq<FactOp>): seq<Call>
    decreases |ops|
  {
    if ops == [] then [] else DispatchAll(chain, ops[..|ops| - 1]) + DispatchOf(chain, ops[|ops| - 1])
  }

  /** The calls of a run of fact operations to one engine. */
  function DispatchTo(id: EngineId, ops: seq<FactOp>): seq<Call>
    decreases |ops|
  {
    if ops == [] then [] else DispatchTo(id, ops[..|ops| - 1]) + [FactCall(id, ops[|ops| - 1])]
  }

  /** The fact operations of a call log that went to the engine with this id, in log order. */
  function Received(log: seq<Call>, id: EngineId): seq<FactOp>
    decreases |log|
  {
    if log == [] then []
    else
      var c := log[|log| - 1];
      Received(log[..|log| - 1], id) + (if c.FactCall? && c.engine == id then [c.op] else [])
  }

  /** How many fire() calls of a log went to the engine with this id. */
  function Fires(log: seq<Call>, id: EngineId): nat
    decreases |log|
  {
    if log == [] then 0
    else Fires(log[..|log| - 1], id) + (if log[|log| - 1] == FireCall(id) then 1 else 0)
  }

  /** How many engines of a chain carry this id. */
  function Occurrences(chain: seq<Engine>, id: EngineId): nat
    decreases |chain|
  {
    if chain == [] then 0
    else Occurrences(chain[..|chain| - 1], id) + (if chain[|chain| - 1].id == id then 1 else 0)
  }

  /** n copies of one operation: what an engine that occurs n times in a chain receives. */
  function Copies(op: FactOp, n: nat): (r: seq<FactOp>)
    ensures |r| == n
    ensures forall k :: 0 <= k < n ==> r[k] == op
  {
    if n == 0 then [] else Copies(op, n - 1) + [op]
  }

  /** Each operation in turn, n times over: what an engine occurring n times in a chain receives from a run. */
  function EachCopied(ops: seq<FactOp>, n: nat): seq<FactOp>
    decreases |ops|
  {
    if ops == [] then [] else EachCopied(ops[..|ops| - 1], n) + Copies(ops[|ops| - 1], n)
  }

  ghost predicate Distinct<T>(s: seq<T>) {
    forall i, j :: 0 <= i < j < |s| ==> s[i] != s[j]
  }

  /** No two engines of the chain carry the same id. */
  ghost predicate DistinctIds(chain: seq<Engine>) {
    forall i, j :: 0 <= i < j < |chain| ==> chain[i].id != chain[j].id
  }

  lemma ReceivedAppendOne(log: seq<Call>, c: Call)
    ensures forall id :: Received(log + [c], id) == Received(log, id) + (if c.FactCall? && c.engine == id then [c.op] else [])
  {
    assert (log + [c])[..|log|] == log;
  }

  /** What an engine received from two logs in a row is what it received from each, in order. */
  lemma {:induction false} ReceivedConcat(log: seq<Call>, more: seq<Call>, id: EngineId)
    ensures Received(log + more, id) == Received(log, id) + Received(more, id)
    decreases |more|
  {
    if more == [] {
      assert log + more == log;
    } else {
      var m := |more| - 1;
      ReceivedConcat(log, more[..m], id);
      assert (log + more)[..|log + more| - 1] == log + more[..m];
      assert (log + more)[|log + more| - 1] == more[m];
    }
  }

  /** Pushing an operation along a chain gives each engine one copy per place it has in the chain. */
  lemma {:induction false} ReceivedAlongChain(chain: seq<Engine>, op: FactOp, id: EngineId)
    ensures Received(DispatchOf(chain, op), id) == Copies(op, Occurrences(chain, id))
    decreases |chain|
  {
    if chain != [] {
      var n := |chain| - 1;
      ReceivedAlongChain(chain[..n], op, id);
      ReceivedAppendOne(DispatchOf(chain[..n], op), FactCall(chain[n].id, op));
    }
  }

  /** Pushing a run of operations along a chain gives each engine every operation once per place it has. */
  lemma {:induction false} ReceivedAlongChainAll(chain: seq<Engine>, ops: seq<FactOp>, id: EngineId)
    ensures Received(DispatchAll(chain, ops), id) == EachCopied(ops, Occurrences(chain, id))
    decreases |ops|
  {
    if ops != [] {
      var n := |ops| - 1;
      ReceivedAlongChainAll(chain, ops[..n], id);
      ReceivedConcat(DispatchAll(chain, ops[..n]), DispatchOf(chain, ops[n]), id);
      ReceivedAlongChain(chain, ops[n], id);
    }
  }

  /** A run dispatched to one engine reaches that engine whole and no other engine. */
  lemma {:induction false} ReceivedDirect(target: EngineId, ops: seq<FactOp>, id: EngineId)
    ensures Received(DispatchTo(target, ops), id) == if id == target then ops else []
    decreases |ops|
  {
    if ops != [] {
      var n := |ops| - 1;
      ReceivedDirect(target, ops[..n], id);
      ReceivedAppendOne(DispatchTo(target, ops[..n]), FactCall(target, ops[n]));
      assert ops == ops[..n] + [ops[n]];
    }
  }

  /** A run of fact calls holds no fire() call. */
  lemma {:induction false} NoFiresInDispatch(target: EngineId, ops: seq<FactOp>, id: EngineId)
    ensures Fires(DispatchTo(target, ops), id) == 0
    decreases |ops|
  {
    if ops != [] {
      var n := |ops| - 1;
      NoFiresInDispatch(target, ops[..n], id);
      assert DispatchTo(target, ops)[..|DispatchTo(target, ops)| - 1] == DispatchTo(target, ops[..n]);
    }
  }

  /** Seeding an engine and firing it once gives it exactly one fire() call and no other engine any. */
  lemma SeedThenFire(target: EngineId, ops: seq<FactOp>, id: EngineId)
    ensures Fires(DispatchTo(target, ops) + [FireCall(target)], id) == if id == target then 1 else 0
  {
    NoFiresInDispatch(target, ops, id);
    var log := DispatchTo(target, ops) + [FireCall(target)];
    assert log[..|log| - 1] == DispatchTo(target, ops);
  }

  /** The fire() calls an engine got from two logs in a row add up. */
  lemma {:induction false} FiresConcat(log: seq<Call>, more: seq<Call>, id: EngineId)
    ensures Fires(log + more, id) == Fires(log, id) + Fires(more, id)
    decreases |more|
  {
    if more == [] {
      assert log + more == log;
    } else {
      var m := |more| - 1;
      FiresConcat(log, more[..m], id);
      assert (log + more)[..|log + more| - 1] == log + more[..m];
      assert (log + more)[|log + more| - 1] == more[m];
    }
  }

  /**
   * Seeding a new engine with a run and firing it once, after any log: that engine gets
   * the run and one more fire(), every other engine gets nothing.
   */
  lemma SeededLog(log: seq<Call>, target: EngineId, ops: seq<FactOp>)
    ensures forall id ::
        && Received(log + DispatchTo(target, ops) + [FireCall(target)], id)
             == Received(log, id) + (if id == target then ops else [])
        && Fires(log + DispatchTo(target, ops) + [FireCall(target)], id)
             == Fires(log, id) + (if id == target then 1 else 0)
  {
    forall id
      ensures Received(log + DispatchTo(target, ops) + [FireCall(target)], id)
                == Received(log, id) + (if id == target then ops else [])
      ensures Fires(log + DispatchTo(target, ops) + [FireCall(target)], id)
                == Fires(log, id) + (if id == target then 1 else 0)
    {
      var seed := DispatchTo(target, ops) + [FireCall(target)];
      assert log + DispatchTo(target, ops) + [FireCall(target)] == log + seed;
      ReceivedConcat(log, seed, id);
      ReceivedConcat(DispatchTo(target, ops), [FireCall(target)], id);
      ReceivedDirect(target, ops, id);
      assert [FireCall(target)][..0] == [];
      FiresConcat(log, seed, id);
      SeedThenFire(target, ops, id);
    }
  }

  /** No engine of the chain carries the id exactly when the id occurs zero times. */
  lemma {:induction false} OccurrencesZero(chain: seq<Engine>, id: EngineId)
    ensures Occurrences(chain, id) == 0 <==> forall k :: 0 <= k < |chain| ==> chain[k].id != id
    decreases |chain|
  {
    if chain != [] {
      var n := |chain| - 1;
      OccurrencesZero(chain[..n], id);
      assert forall k :: 0 <= k < n ==> chain[..n][k] == chain[k];
    }
  }

  /** In a chain without repeated ids, an id that occurs, occurs once. */
  lemma {:induction false} OccursOnce(chain: seq<Engine>, id: EngineId, k: nat)
    requires DistinctIds(chain)
    requires k < |chain| && chain[k].id == id
    ensures Occurrences(chain, id) == 1
    decreases |chain|
  {
    var n := |chain| - 1;
    var front := chain[..n];
    if k == n {
      assert forall j :: 0 <= j < n ==> front[j].id != id by {
        forall j | 0 <= j < n ensures front[j].id != id {
          assert chain[j].id != chain[n].id;
        }
      }
      OccurrencesZero(front, id);
    } else {
      OccursOnce(front, id, k);
    }
  }

  /** An engine that occurs once in a chain receives a run of operations exactly as it was sent. */
  lemma {:induction false} EachCopiedOnce(ops: seq<FactOp>)
    ensures EachCopied(ops, 1) == ops
    decreases |ops|
  {
    if ops != [] {
      var n := |ops| - 1;
      EachCopiedOnce(ops[..n]);
      assert ops == ops[..n] + [ops[n]];
    }
  }

  /** An engine that is not in a chain receives nothing from a run of operations. */
  lemma {:induction false} EachCopiedNone(ops: seq<FactOp>)
    ensures EachCopied(ops, 0) == []
    decreases |ops|
  {
    if ops != [] {
      EachCopiedNone(ops[..|ops| - 1]);
    }
  }

  /** Pushing two runs along a chain one after the other is pushing their concatenation. */
  lemma {:induction false} DispatchAllConcat(chain: seq<Engine>, first: seq<FactOp>, second: seq<FactOp>)
    ensures DispatchAll(chain, first + second) == DispatchAll(chain, first) + DispatchAll(chain, second)
    decreases |second|
  {
    if second == [] {
      assert first + second == first;
    } else {
      var m := |second| - 1;
      DispatchAllConcat(chain, first, second[..m]);
      assert (first + second)[..|first + second| - 1] == first + second[..m];
      assert (first + second)[|first + second| - 1] == second[m];
    }
  }

  lemma DispatchAllAppendOne(chain: seq<Engine>, ops: seq<FactOp>, op: FactOp)
    ensures DispatchAll(chain, ops + [op]) == DispatchAll(chain, ops) + DispatchOf(chain, op)
  {
    assert (ops + [op])[..|ops|] == ops;
  }

  /** One step of a chain walk: the calls for the first i + 1 engines. */
  lemma DispatchStep(chain: seq<Engine>, i: nat, op: FactOp)
    requires i < |chain|
    ensures DispatchOf(chain[..i + 1], op) == DispatchOf(chain[..i], op) + [FactCall(chain[i].id, op)]
  {
    assert chain[..i + 1][..i] == chain[..i];
  }

  /** One step of seeding an engine: the calls for one more operation. */
  lemma DispatchToStep(id: EngineId, ops: seq<FactOp>, op: FactOp)
    ensures DispatchTo(id, ops + [op]) == DispatchTo(id, ops) + [FactCall(id, op)]
  {
    assert (ops + [op])[..|ops|] == ops;
  }

  // ---------------------------------------------------------------------------
  // The error check of a chain
  // ---------------------------------------------------------------------------

  /** True when some engine of the chain is in error. */
  predicate AnyInError(chain: seq<Engine>) {
    exists k :: 0 <= k < |chain| && chain[k].error
  }

  /** True when id is the id of the first engine of the chain that is in error. */
  predicate FirstInError(chain: seq<Engine>, id: EngineId) {
    exists k :: 0 <= k < |chain| && chain[k].id == id && chain[k].error && forall j :: 0 <= j < k ==> !chain[j].error
  }

  /** Walks the chain and returns the id of its first engine in error, or None when none is. */
  method FirstEngineInError(chain: seq<Engine>) returns (failed: Option<EngineId>)
    ensures failed.None? <==> !AnyInError(chain)
    ensures failed.Some? ==> FirstInError(chain, failed.value)
  {
    failed := None;
    var i := 0;
    while i < |chain|
      invariant 0 <= i <= |chain|
      invariant forall j :: 0 <= j < i ==> !chain[j].error
    {
      if chain[i].error {
        failed := Some(chain[i].id);
        return;
      }
      i := i + 1;
    }
  }

  // ---------------------------------------------------------------------------
  // The service
  // ---------------------------------------------------------------------------

  /** The asset engines whose id carries another realm (or none): what removeIf keeps. */
  function OutsideRealm(engines: map<AssetId, Engine>, realm: RealmId): (r: map<AssetId, Engine>)
    ensures forall a :: a in r <==> a in engines && !BelongsToRealm(engines[a].id, realm)
    ensures forall a :: a in r ==> r[a] == engines[a]
  {
    map a | a in engines && !BelongsToRealm(engines[a].id, realm) :: engines[a]
  }

  /** The ids of the asset engines whose id carries the realm: the engines stopped on disable. */
  function InRealmIds(engines: map<AssetId, Engine>, realm: RealmId): (r: set<EngineId>)
    ensures forall id :: id in r <==> exists a :: a in engines && engines[a].id == id && BelongsToRealm(id, realm)
  {
    set a | a in engines && BelongsToRealm(engines[a].id, realm) :: engines[a].id
  }

  /** The ids of all engines of a map. */
  function IdsOf<K>(engines: map<K, Engine>): (r: set<EngineId>)
    ensures forall id :: id in r <==> exists k :: k in engines && engines[k].id == id
  {
    set k | k in engines :: engines[k].id
  }

  /** The asset engines of a map for the ids in the path, in path order, skipping ids without one. */
  function AssetChainOf(assets: map<AssetId, Engine>, path: seq<AssetId>): seq<Engine>
    decreases |path|
  {
    if path == [] then []
    else
      var a := path[|path| - 1];
      AssetChainOf(assets, path[..|path| - 1]) + (if a in assets then [assets[a]] else [])
  }

  /** The engine chain over given registry contents: global engine, realm's tenant engine, path's asset engines. */
  function ChainOf(
    global: Option<Engine>, tenants: map<RealmId, Engine>, assets: map<AssetId, Engine>,
    realm: RealmId, path: seq<AssetId>): seq<Engine>
  {
    (if global.Some? then [global.value] else [])
      + (if realm in tenants then [tenants[realm]] else [])
      + AssetChainOf(assets, path)
  }

  /** The calls of start()'s initial push: each asset's updates along that asset's chain, asset by asset. */
  function InitialDispatch(
    global: Option<Engine>, tenants: map<RealmId, Engine>, assetEngines: map<AssetId, Engine>,
    assets: seq<Asset>): seq<Call>
    decreases |assets|
  {
    if assets == [] then []
    else
      var n := |assets| - 1;
      var a := assets[n];
      InitialDispatch(global, tenants, assetEngines, assets[..n])
        + DispatchAll(ChainOf(global, tenants, assetEngines, a.realmId, a.path), UpdatesOf(a, RuleStateAttributes(a.attributes), true))
  }

  /**
   * One step of a loop that pushes a run of operations along a chain: the log so far
   * followed by the next operation's dispatch is the log of the longer run.
   */
  lemma DispatchRunStep(start: seq<Call>, before: seq<Call>, after: seq<Call>, chain: seq<Engine>, done: seq<FactOp>, op: FactOp)
    requires before == start + DispatchAll(chain, done)
    requires after == before + DispatchOf(chain, op)
    ensures after == start + DispatchAll(chain, done + [op])
  {
    DispatchAllAppendOne(chain, done, op);
    AppendAssoc(start, DispatchAll(chain, done), DispatchOf(chain, op));
  }

  lemma AppendAssoc<T>(a: seq<T>, b: seq<T>, c: seq<T>)
    ensures (a + b) + c == a + (b + c)
  {
  }

  class RulesService {
    var globalEngine: Option<Engine>
    var tenantEngines: map<RealmId, Engine>
    var assetEngines: map<AssetId, Engine>
    var activeTenantIds: seq<RealmId>
    /** The facts pushed to engines so far, at most one per attribute identity. */
    var assetStates: FactIndex
    /** Every call the service made on an engine, in the order it made them. */
    var calls: seq<Call>

    /**
     * The registry invariant: each engine sits under the key its id names and holds at
     * least one ruleset (an engine goes when its last ruleset does). The fact index maps
     * each identity to at most one fact; that each fact sits under its own identity
     * (KeyedByRef) is kept by every index operation (ApplyAllKeepsKeyed).
     */
    ghost predicate Valid()
      reads this`globalEngine, this`tenantEngines, this`assetEngines
    {
      && (globalEngine.Some? ==> globalEngine.value.id == GlobalId && globalEngine.value.rulesets != {})
      && (forall r :: r in tenantEngines ==> tenantEngines[r].id == TenantId(r) && tenantEngines[r].rulesets != {})
      && (forall a :: a in assetEngines ==>
            assetEngines[a].id.AssetEngineId? && assetEngines[a].id.assetId == a && assetEngines[a].rulesets != {})
    }

    constructor ()
      ensures globalEngine.None? && tenantEngines == map[] && assetEngines == map[]
      ensures activeTenantIds == [] && assetStates == map[] && calls == []
      ensures Valid()
    {
      globalEngine := None;
      tenantEngines := map[];
      assetEngines := map[];
      activeTenantIds := [];
      assetStates := map[];
      calls := [];
    }

    /** The engine registered under a key, if any. */
    function EngineAt(key: ScopeKey): Option<Engine>
      reads this`globalEngine, this`tenantEngines, this`assetEngines
    {
      match key
      case GlobalKey => globalEngine
      case TenantKey(r) => if r in tenantEngines then Some(tenantEngines[r]) else None
      case AssetKey(a) => if a in assetEngines then Some(assetEngines[a]) else None
    }

    /** The rulesets of the engine under a key, None when there is no engine. */
    function RulesetsAt(key: ScopeKey): Option<set<RulesetId>>
      reads this`globalEngine, this`tenantEngines, this`assetEngines
    {
      match EngineAt(key)
      case None => None
      case Some(e) => Some(e.rulesets)
    }

    /** True when the engine registered under the key of this id carries this id. */
    predicate Registered(id: EngineId)
      reads this`globalEngine, this`tenantEngines, this`assetEngines
    {
      EngineAt(KeyOfEngine(id)).Some? && EngineAt(KeyOfEngine(id)).value.id == id
    }

    /** Under the registry invariant every engine carries an id that names the key it sits under. */
    lemma EngineKeys()
      requires Valid()
      ensures forall k :: EngineAt(k).Some? ==> KeyOfEngine(EngineAt(k).value.id) == k && EngineAt(k).value.rulesets != {}
    {
    }

    // -------------------------------------------------------------------------
    // The engine chain of a fact
    // -------------------------------------------------------------------------

    /** The asset engines of the ids in the path, in path order, skipping ids without one. */
    function AssetChain(path: seq<AssetId>): seq<Engine>
      reads this`assetEngines
    {
      AssetChainOf(assetEngines, path)
    }

    /** getEnginesInScope: the global engine, the realm's tenant engine, then the path's asset engines. */
    function Chain(realm: RealmId, path: seq<AssetId>): seq<Engine>
      reads this`globalEngine, this`tenantEngines, this`assetEngines
    {
      ChainOf(globalEngine, tenantEngines, assetEngines, realm, path)
    }

    /** getEnginesInScope as the source writes it: one lookup per key, the path walked in order. */
    method GetEnginesInScope(realm: RealmId, path: seq<AssetId>) returns (engines: seq<Engine>)
      ensures engines == Chain(realm, path)
    {
      engines := [];
      if globalEngine.Some? {
        engines := engines + [globalEngine.value];
      }
      if realm in tenantEngines {
        engines := engines + [tenantEngines[realm]];
      }
      ghost var outer := engines;
      for i := 0 to |path|
        invariant engines == outer + AssetChain(path[..i])
      {
        assert path[..i + 1][..i] == path[..i];
        if path[i] in assetEngines {
          engines := engines + [assetEngines[path[i]]];
        }
      }
      assert path[..|path|] == path;
    }

    /**
     * The asset chain of a path holds exactly the asset engines registered for one of its
     * ids; with the registry invariant each one names that id.
     */
    lemma {:induction false} AssetChainMembers(path: seq<AssetId>)
      requires Valid()
      ensures forall e :: e in AssetChain(path) ==>
        e.id.AssetEngineId? && e.id.assetId in path && e.id.assetId in assetEngines && assetEngines[e.id.assetId] == e
      ensures forall a :: a in path && a in assetEngines ==> assetEngines[a] in AssetChain(path)
      decreases |path|
    {
      if path != [] {
        var n := |path| - 1;
        AssetChainMembers(path[..n]);
        assert path == path[..n] + [path[n]];
      }
    }

    /**
     * The chain holds exactly the registered engines whose key is in scope of the fact:
     * the global engine, the engine of the fact's realm and the engines of the path's assets.
     */
    lemma ChainMembers(realm: RealmId, path: seq<AssetId>)
      requires Valid()
      ensures forall e :: e in Chain(realm, path) ==>
        EngineAt(KeyOfEngine(e.id)) == Some(e) && InScope(KeyOfEngine(e.id), realm, path)
      ensures forall k :: InScope(k, realm, path) && EngineAt(k).Some? ==> EngineAt(k).value in Chain(realm, path)
    {
      AssetChainMembers(path);
    }

    /** The chain splits into its global part, its tenant part and its asset part. */
    lemma ChainParts(realm: RealmId, path: seq<AssetId>)
      requires Valid()
      ensures var c := Chain(realm, path);
        var g := if globalEngine.Some? then 1 else 0;
        var t := if realm in tenantEngines then 1 else 0;
        && |c| == g + t + |AssetChain(path)|
        && (forall k :: 0 <= k < g ==> c[k].id == GlobalId)
        && (forall k :: g <= k < g + t ==> c[k].id == TenantId(realm))
        && (forall k :: g + t <= k < |c| ==> c[k] == AssetChain(path)[k - g - t] && c[k].id.AssetEngineId?)
    {
      AssetChainMembers(path);
      var rest := AssetChain(path);
      assert forall k :: 0 <= k < |rest| ==> rest[k] in rest;
    }

    /** Along the chain the scope never goes back: global first, then tenant, then assets. */
    lemma ChainOrdered(realm: RealmId, path: seq<AssetId>)
      requires Valid()
      ensures var c := Chain(realm, path);
        forall i, j :: 0 <= i < j < |c| ==> Level(KeyOfEngine(c[i].id)) <= Level(KeyOfEngine(c[j].id))
    {
      ChainParts(realm, path);
    }

    /** When the path repeats no asset id, no two engines of the asset chain share an id. */
    lemma {:induction false} AssetChainDistinct(path: seq<AssetId>)
      requires Valid()
      requires Distinct(path)
      ensures DistinctIds(AssetChain(path))
      decreases |path|
    {
      if path != [] {
        var n := |path| - 1;
        var a := path[n];
        assert Distinct(path[..n]);
        AssetChainDistinct(path[..n]);
        AssetChainMembers(path[..n]);
        assert a !in path[..n];
        var front := AssetChain(path[..n]);
        assert forall k :: 0 <= k < |front| ==> front[k] in front;
      }
    }

    /** When the path repeats no asset id, no two engines of the chain share an id. */
    lemma ChainDistinct(realm: RealmId, path: seq<AssetId>)
      requires Valid()
      requires Distinct(path)
      ensures DistinctIds(Chain(realm, path))
    {
      AssetChainDistinct(path);
      ChainParts(realm, path);
    }

    /**
     * When the path repeats no asset id, a registered engine whose key is in scope occurs
     * once in the chain and every other id occurs nowhere.
     */
    lemma OccursOnceInChain(realm: RealmId, path: seq<AssetId>, id: EngineId)
      requires Valid()
      requires Distinct(path)
      ensures Occurrences(Chain(realm, path), id) == if Registered(id) && InScope(KeyOfEngine(id), realm, path) then 1 else 0
    {
      var c := Chain(realm, path);
      ChainMembers(realm, path);
      ChainDistinct(realm, path);
      if Registered(id) && InScope(KeyOfEngine(id), realm, path) {
        var e := EngineAt(KeyOfEngine(id)).value;
        assert e in c;
        var k :| 0 <= k < |c| && c[k] == e;
        OccursOnce(c, id, k);
      } else {
        forall k | 0 <= k < |c| ensures c[k].id != id {
          assert c[k] in c;
        }
        OccurrencesZero(c, id);
      }
    }

    /**
     * One fact call pushed along the chain of a fact whose path repeats no id reaches each
     * registered in-scope engine once and no other engine.
     */
    lemma PushedAlongChain(log: seq<Call>, realm: RealmId, path: seq<AssetId>, op: FactOp)
      requires Valid()
      requires Distinct(path)
      ensures forall id ::
          Received(log + DispatchOf(Chain(realm, path), op), id)
            == Received(log, id) + if Registered(id) && InScope(KeyOfEngine(id), realm, path) then [op] else []
    {
      forall id
        ensures Received(log + DispatchOf(Chain(realm, path), op), id)
          == Received(log, id) + if Registered(id) && InScope(KeyOfEngine(id), realm, path) then [op] else []
      {
        ReceivedConcat(log, DispatchOf(Chain(realm, path), op), id);
        ReceivedAlongChain(Chain(realm, path), op, id);
        OccursOnceInChain(realm, path, id);
      }
    }

    /** The same for a run of fact calls pushed along one chain, one after the other. */
    lemma PushedRunAlongChain(log: seq<Call>, realm: RealmId, path: seq<AssetId>, ops: seq<FactOp>)
      requires Valid()
      requires Distinct(path)
      ensures forall id ::
          Received(log + DispatchAll(Chain(realm, path), ops), id)
            == Received(log, id) + if Registered(id) && InScope(KeyOfEngine(id), realm, path) then ops else []
    {
      forall id
        ensures Received(log + DispatchAll(Chain(realm, path), ops), id)
          == Received(log, id) + if Registered(id) && InScope(KeyOfEngine(id), realm, path) then ops else []
      {
        ReceivedConcat(log, DispatchAll(Chain(realm, path), ops), id);
        ReceivedAlongChainAll(Chain(realm, path), ops, id);
        OccursOnceInChain(realm, path, id);
        EachCopiedOnce(ops);
        EachCopiedNone(ops);
      }
    }

    // -------------------------------------------------------------------------
    // Fact propagation
    // -------------------------------------------------------------------------

    /** Makes the same fact call on each engine of the chain, in chain order. */
    method PushToChain(engines: seq<Engine>, op: FactOp)
      modifies this`calls
      ensures calls == old(calls) + DispatchOf(engines, op)
    {
      for i := 0 to |engines|
        invariant calls == old(calls) + DispatchOf(engines[..i], op)
      {
        calls := calls + [FactCall(engines[i].id, op)];
        DispatchStep(engines, i, op);
      }
      assert engines[..|engines|] == engines;
    }

    /**
     * updateAssetState: unless told to skip the check, fails with the first chain engine
     * in error and changes nothing; otherwise replaces the fact of the same identity in
     * the index and passes updateFact to every chain engine.
     */
    method UpdateAssetState(s: AssetState, skipStatusCheck: bool, fireImmediately: bool) returns (failed: Option<EngineId>)
      modifies this`assetStates, this`calls
      ensures var chain := Chain(s.realmId, s.path);
        && (failed.Some? <==> !skipStatusCheck && AnyInError(chain))
        && (failed.Some? ==>
              && FirstInError(chain, failed.value)
              && assetStates == old(assetStates)
              && calls == old(calls))
        && (failed.None? ==>
              && assetStates == Replace(old(assetStates), s)
              && Holds(assetStates, s)
              && calls == old(calls) + DispatchOf(chain, UpdateFact(s, fireImmediately)))
    {
      var engines := GetEnginesInScope(s.realmId, s.path);
      failed := None;
      if !skipStatusCheck {
        failed := FirstEngineInError(engines);
        if failed.Some? {
          return;
        }
      }
      assetStates := RemoveRef(assetStates, s.Ref());
      assetStates := assetStates[s.Ref() := s];
      PushToChain(engines, UpdateFact(s, fireImmediately));
    }

    /**
     * insertAssetEvent: when any chain engine is in error nothing happens; otherwise every
     * chain engine receives insertFact, in chain order. The fact index is never touched.
     */
    method InsertAssetEvent(s: AssetState, expires: string)
      modifies this`calls
      ensures var chain := Chain(s.realmId, s.path);
        && (AnyInError(chain) ==> calls == old(calls))
        && (!AnyInError(chain) ==> calls == old(calls) + DispatchOf(chain, InsertFact(expires, s)))
    {
      var engines := GetEnginesInScope(s.realmId, s.path);
      var failed := FirstEngineInError(engines);
      if failed.Some? {
        return;
      }
      PushToChain(engines, InsertFact(expires, s));
    }

    /**
     * retractAssetState: removes the fact's identity from the index and passes removeFact
     * to every chain engine; with an empty chain only the index changes.
     */
    method RetractAssetState(s: AssetState)
      modifies this`assetStates, this`calls
      ensures assetStates == RemoveRef(old(assetStates), s.Ref())
      ensures calls == old(calls) + DispatchOf(Chain(s.realmId, s.path), RemoveFact(s))
    {
      var engines := GetEnginesInScope(s.realmId, s.path);
      assetStates := RemoveRef(assetStates, s.Ref());
      PushToChain(engines, RemoveFact(s));
    }

    // -------------------------------------------------------------------------
    // Deploying and undeploying rulesets
    // -------------------------------------------------------------------------

    /** deployGlobalRuleset: creates the global engine if there is none; returns it only then. */
    method DeployGlobalRuleset(ruleset: Ruleset, loadFailed: bool) returns (created: Option<Engine>)
      requires Valid()
      requires ruleset.scope.GlobalScope?
      modifies this`globalEngine
      ensures var key := KeyOf(ruleset.scope);
        && RulesetsAt(key) == Deployed(old(RulesetsAt(key)), {ruleset.id})
        && EngineAt(key).Some? && EngineAt(key).value.error == loadFailed
        && EngineAt(key).value.id == (if old(EngineAt(key)).Some? then old(EngineAt(key)).value.id else EngineIdOf(ruleset.scope))
        && created == (if old(EngineAt(key)).None? then EngineAt(key) else None)
        && (forall k :: k != key ==> EngineAt(k) == old(EngineAt(k)))
      ensures Valid()
    {
      created := None;
      if globalEngine.None? {
        globalEngine := Some(NewEngine(GlobalId));
        created := globalEngine;
      }
      globalEngine := Some(AddRuleset(globalEngine.value, ruleset.id, loadFailed));
      if created.Some? {
        created := globalEngine;
      }
    }

    /** undeployGlobalRuleset: no engine, no-op; the engine goes once its last ruleset is removed. */
    method UndeployGlobalRuleset(ruleset: Ruleset)
      requires Valid()
      requires ruleset.scope.GlobalScope?
      modifies this`globalEngine
      ensures var key := KeyOf(ruleset.scope);
        && RulesetsAt(key) == Undeployed(old(RulesetsAt(key)), ruleset.id)
        && (EngineAt(key).Some? ==>
              && EngineAt(key).value.id == old(EngineAt(key)).value.id
              && EngineAt(key).value.error == old(EngineAt(key)).value.error)
        && (old(RulesetsAt(key)).None? || ruleset.id !in old(RulesetsAt(key)).value ==> EngineAt(key) == old(EngineAt(key)))
        && (forall k :: k != key ==> EngineAt(k) == old(EngineAt(k)))
      ensures Valid()
    {
      if globalEngine.None? {
        return;
      }
      var e := RemoveRuleset(globalEngine.value, ruleset.id);
      if e.rulesets == {} {
        globalEngine := None;
      } else {
        globalEngine := Some(e);
      }
    }

    /** deployTenantRuleset: computeIfAbsent on the realm id; returns the engine only if this call created it. */
    method DeployTenantRuleset(ruleset: Ruleset, loadFailed: bool) returns (created: Option<Engine>)
      requires Valid()
      requires ruleset.scope.TenantScope?
      modifies this`tenantEngines
      ensures var key := KeyOf(ruleset.scope);
        && RulesetsAt(key) == Deployed(old(RulesetsAt(key)), {ruleset.id})
        && EngineAt(key).Some? && EngineAt(key).value.error == loadFailed
        && EngineAt(key).value.id == (if old(EngineAt(key)).Some? then old(EngineAt(key)).value.id else EngineIdOf(ruleset.scope))
        && created == (if old(EngineAt(key)).None? then EngineAt(key) else None)
        && (forall k :: k != key ==> EngineAt(k) == old(EngineAt(k)))
      ensures Valid()
    {
      var realm := ruleset.scope.realm;
      var isNew := realm !in tenantEngines;
      if isNew {
        tenantEngines := tenantEngines[realm := NewEngine(TenantId(realm))];
      }
      tenantEngines := tenantEngines[realm := AddRuleset(tenantEngines[realm], ruleset.id, loadFailed)];
      created := if isNew then Some(tenantEngines[realm]) else None;
    }

    /** undeployTenantRuleset: no engine, no-op; the map entry goes when removeRuleset reports the last one gone. */
    method UndeployTenantRuleset(ruleset: Ruleset)
      requires Valid()
      requires ruleset.scope.TenantScope?
      modifies this`tenantEngines
      ensures var key := KeyOf(ruleset.scope);
        && RulesetsAt(key) == Undeployed(old(RulesetsAt(key)), ruleset.id)
        && (EngineAt(key).Some? ==>
              && EngineAt(key).value.id == old(EngineAt(key)).value.id
              && EngineAt(key).value.error == old(EngineAt(key)).value.error)
        && (old(RulesetsAt(key)).None? || ruleset.id !in old(RulesetsAt(key)).value ==> EngineAt(key) == old(EngineAt(key)))
        && (forall k :: k != key ==> EngineAt(k) == old(EngineAt(k)))
      ensures Valid()
    {
      var realm := ruleset.scope.realm;
      if realm !in tenantEngines {
        return;
      }
      var e := RemoveRuleset(tenantEngines[realm], ruleset.id);
      if e.rulesets == {} {
        tenantEngines := tenantEngines - {realm};
      } else {
        tenantEngines := tenantEngines[realm := e];
      }
    }

    /** deployAssetRuleset: computeIfAbsent on the asset id; the new engine's id carries the ruleset's realm. */
    method DeployAssetRuleset(ruleset: Ruleset, loadFailed: bool) returns (created: Option<Engine>)
      requires Valid()
      requires ruleset.scope.AssetScope?
      modifies this`assetEngines
      ensures var key := KeyOf(ruleset.scope);
        && RulesetsAt(key) == Deployed(old(RulesetsAt(key)), {ruleset.id})
        && EngineAt(key).Some? && EngineAt(key).value.error == loadFailed
        && EngineAt(key).value.id == (if old(EngineAt(key)).Some? then old(EngineAt(key)).value.id else EngineIdOf(ruleset.scope))
        && created == (if old(EngineAt(key)).None? then EngineAt(key) else None)
        && (forall k :: k != key ==> EngineAt(k) == old(EngineAt(k)))
      ensures Valid()
    {
      var assetId := ruleset.scope.assetId;
      var isNew := assetId !in assetEngines;
      if isNew {
        assetEngines := assetEngines[assetId := NewEngine(AssetEngineId(ruleset.scope.realm, assetId))];
      }
      assetEngines := assetEngines[assetId := AddRuleset(assetEngines[assetId], ruleset.id, loadFailed)];
      created := if isNew then Some(assetEngines[assetId]) else None;
    }

    /** undeployAssetRuleset: no engine, no-op; the map entry goes when removeRuleset reports the last one gone. */
    method UndeployAssetRuleset(ruleset: Ruleset)
      requires Valid()
      requires ruleset.scope.AssetScope?
      modifies this`assetEngines
      ensures var key := KeyOf(ruleset.scope);
        && RulesetsAt(key) == Undeployed(old(RulesetsAt(key)), ruleset.id)
        && (EngineAt(key).Some? ==>
              && EngineAt(key).value.id == old(EngineAt(key)).value.id
              && EngineAt(key).value.error == old(EngineAt(key)).value.error)
        && (old(RulesetsAt(key)).None? || ruleset.id !in old(RulesetsAt(key)).value ==> EngineAt(key) == old(EngineAt(key)))
        && (forall k :: k != key ==> EngineAt(k) == old(EngineAt(k)))
      ensures Valid()
    {
      var assetId := ruleset.scope.assetId;
      if assetId !in assetEngines {
        return;
      }
      var e := RemoveRuleset(assetEngines[assetId], ruleset.id);
      if e.rulesets == {} {
        assetEngines := assetEngines - {assetId};
      } else {
        assetEngines := assetEngines[assetId := e];
      }
    }

    /** Deploys a ruleset into the engine its scope names (the dispatch on the ruleset's class). */
    method DeployRuleset(ruleset: Ruleset, loadFailed: bool) returns (created: Option<Engine>)
      requires Valid()
      modifies this`globalEngine, this`tenantEngines, this`assetEngines
      ensures var key := KeyOf(ruleset.scope);
        && RulesetsAt(key) == Deployed(old(RulesetsAt(key)), {ruleset.id})
        && EngineAt(key).Some? && EngineAt(key).value.error == loadFailed
        && EngineAt(key).value.id == (if old(EngineAt(key)).Some? then old(EngineAt(key)).value.id else EngineIdOf(ruleset.scope))
        && created == (if old(EngineAt(key)).None? then EngineAt(key) else None)
        && (forall k :: k != key ==> EngineAt(k) == old(EngineAt(k)))
      ensures Valid()
    {
      match ruleset.scope
      case GlobalScope => created := DeployGlobalRuleset(ruleset, loadFailed);
      case TenantScope(_) => created := DeployTenantRuleset(ruleset, loadFailed);
      case AssetScope(_, _) => created := DeployAssetRuleset(ruleset, loadFailed);
    }

    /** Undeploys a ruleset from the engine its scope names (the dispatch on the ruleset's class). */
    method UndeployRuleset(ruleset: Ruleset)
      requires Valid()
      modifies this`globalEngine, this`tenantEngines, this`assetEngines
      ensures var key := KeyOf(ruleset.scope);
        && RulesetsAt(key) == Undeployed(old(RulesetsAt(key)), ruleset.id)
        && (EngineAt(key).Some? ==>
              && EngineAt(key).value.id == old(EngineAt(key)).value.id
              && EngineAt(key).value.error == old(EngineAt(key)).value.error)
        && (old(RulesetsAt(key)).None? || ruleset.id !in old(RulesetsAt(key)).value ==> EngineAt(key) == old(EngineAt(key)))
        && (forall k :: k != key ==> EngineAt(k) == old(EngineAt(k)))
      ensures Valid()
    {
      match ruleset.scope
      case GlobalScope => UndeployGlobalRuleset(ruleset);
      case TenantScope(_) => UndeployTenantRuleset(ruleset);
      case AssetScope(_, _) => UndeployAssetRuleset(ruleset);
    }

    /**
     * Deploys a list of rulesets in order; the rulesets whose ids are in failing are the
     * ones whose load leaves their engine in error. Every key ends up with the rulesets of
     * the list that deploy there added to what it had.
     */
    method DeployEach(rulesets: seq<Ruleset>, failing: set<RulesetId>)
      requires Valid()
      modifies this`globalEngine, this`tenantEngines, this`assetEngines
      ensures forall k :: RulesetsAt(k) == Deployed(old(RulesetsAt(k)), IdsFor(rulesets, k))
      ensures forall k :: DeployedEngine(old(EngineAt(k)), EngineAt(k), rulesets, k, failing)
      ensures Valid()
    {
      forall k ensures RulesetsAt(k) == Deployed(old(RulesetsAt(k)), IdsFor(rulesets[..0], k)) {
        DeployedNothing(RulesetsAt(k));
      }
      for i := 0 to |rulesets|
        invariant Valid()
        invariant forall k :: RulesetsAt(k) == Deployed(old(RulesetsAt(k)), IdsFor(rulesets[..i], k))
        invariant forall k :: DeployedEngine(old(EngineAt(k)), EngineAt(k), rulesets[..i], k, failing)
      {
        label before:
        var _ := DeployRuleset(rulesets[i], rulesets[i].id in failing);
        forall k ensures DeployedEngine(old(EngineAt(k)), EngineAt(k), rulesets[..i + 1], k, failing) {
          DeployedEngineStep(old(EngineAt(k)), old@before(EngineAt(k)), EngineAt(k), rulesets, i, k, failing);
        }
        forall k ensures RulesetsAt(k) == Deployed(old(RulesetsAt(k)), IdsFor(rulesets[..i + 1], k)) {
          IdsForStep(rulesets, i, k);
          if k == KeyOf(rulesets[i].scope) {
            DeployedTwice(old(RulesetsAt(k)), IdsFor(rulesets[..i], k), {rulesets[i].id});
          } else {
            assert RulesetsAt(k) == old@before(RulesetsAt(k));
            assert IdsFor(rulesets[..i], k) + {} == IdsFor(rulesets[..i], k);
          }
        }
      }
      assert rulesets[..|rulesets|] == rulesets;
    }

    /**
     * deployAssetRulesets: deploys, in list order, the asset rulesets whose asset the store
     * finds (assetRealms maps each found asset to its realm) in an active tenant.
     */
    method DeployAssetRulesets(rulesets: seq<Ruleset>, assetRealms: map<AssetId, RealmId>, failing: set<RulesetId>)
      requires Valid()
      modifies this`globalEngine, this`tenantEngines, this`assetEngines
      ensures forall k ::
          RulesetsAt(k) == Deployed(old(RulesetsAt(k)), IdsFor(EligibleAssetRulesets(rulesets, assetRealms, activeTenantIds), k))
      ensures forall k ::
          DeployedEngine(old(EngineAt(k)), EngineAt(k), EligibleAssetRulesets(rulesets, assetRealms, activeTenantIds), k, failing)
      ensures Valid()
    {
      DeployEach(EligibleAssetRulesets(rulesets, assetRealms, activeTenantIds), failing);
    }

    /** Calls stop() once on each engine of the set, in some order. */
    method StopEach(ids: set<EngineId>) returns (ghost stops: seq<Call>)
      modifies this`calls
      ensures calls == old(calls) + stops
      ensures forall c :: c in stops <==> c.StopCall? && c.engine in ids
      ensures Distinct(stops)
    {
      var left := ids;
      stops := [];
      while left != {}
        invariant left <= ids
        invariant calls == old(calls) + stops
        invariant forall c :: c in stops <==> c.StopCall? && c.engine in ids - left
        invariant Distinct(stops)
        decreases left
      {
        var id :| id in left;
        calls := calls + [StopCall(id)];
        stops := stops + [StopCall(id)];
        left := left - {id};
      }
    }

    /**
     * Seeds a newly created engine: one deferred updateFact per fact of the set, in some
     * order, then exactly one fire().
     */
    method SeedEngine(id: EngineId, facts: set<AssetState>) returns (ghost seed: seq<FactOp>)
      modifies this`calls
      ensures SeededWith(seed, facts)
      ensures calls == old(calls) + DispatchTo(id, seed) + [FireCall(id)]
    {
      var left := facts;
      ghost var done: set<AssetState> := {};
      ghost var order: seq<AssetState> := [];
      seed := [];
      while left != {}
        invariant done !! left && done + left == facts
        invariant Enumerates(order, done)
        invariant seed == Deferred(order)
        invariant calls == old(calls) + DispatchTo(id, seed)
        decreases left
      {
        var s :| s in left;
        calls := calls + [FactCall(id, UpdateFact(s, false))];
        DispatchToStep(id, seed, UpdateFact(s, false));
        AppendAssoc(old(calls), DispatchTo(id, seed), [FactCall(id, UpdateFact(s, false))]);
        DeferredAppend(order, s);
        EnumeratesStep(order, done, s);
        seed := seed + [UpdateFact(s, false)];
        order := order + [s];
        done := done + {s};
        left := left - {s};
      }
      SeededFromOrder(order, facts);
      calls := calls + [FireCall(id)];
    }

    // -------------------------------------------------------------------------
    // Change events
    // -------------------------------------------------------------------------

    /**
     * processRulesetChange. A DELETE or a disabled ruleset is undeployed. Otherwise it is
     * deployed; an asset ruleset is first reloaded from the store (reloaded, with the same
     * id), and a missing reload leaves everything as it was (reloadMissing). Only an engine
     * this call created is seeded with the facts in scope of the ruleset and fired once.
     */
    method ProcessRulesetChange(ruleset: Ruleset, cause: Cause, reloaded: Option<Ruleset>, loadFailed: bool)
      returns (created: Option<Engine>, reloadMissing: bool, ghost seed: seq<FactOp>)
      requires Valid()
      requires reloaded.Some? ==> reloaded.value.scope.AssetScope? && reloaded.value.id == ruleset.id
      modifies this`globalEngine, this`tenantEngines, this`assetEngines, this`calls
      ensures var key := KeyOf(ruleset.scope);
        && (cause == Delete || !ruleset.enabled ==>
              && RulesetsAt(key) == Undeployed(old(RulesetsAt(key)), ruleset.id)
              && (EngineAt(key).Some? ==>
                    && EngineAt(key).value.id == old(EngineAt(key)).value.id
                    && EngineAt(key).value.error == old(EngineAt(key)).value.error)
              && (forall k :: k != key ==> EngineAt(k) == old(EngineAt(k)))
              && created.None? && !reloadMissing && calls == old(calls))
        && (reloadMissing <==> cause != Delete && ruleset.enabled && ruleset.scope.AssetScope? && reloaded.None?)
        && (reloadMissing ==>
              && created.None? && calls == old(calls)
              && (forall k :: EngineAt(k) == old(EngineAt(k))))
      ensures cause != Delete && ruleset.enabled && !reloadMissing ==>
        var deployed := if ruleset.scope.AssetScope? then reloaded.value else ruleset;
        var dkey := KeyOf(deployed.scope);
        && RulesetsAt(dkey) == Deployed(old(RulesetsAt(dkey)), {ruleset.id})
        && EngineAt(dkey).value.error == loadFailed
        && EngineAt(dkey).value.id == (if old(EngineAt(dkey)).Some? then old(EngineAt(dkey)).value.id else EngineIdOf(deployed.scope))
        && created == (if old(EngineAt(dkey)).None? then EngineAt(dkey) else None)
        && (forall k :: k != dkey ==> EngineAt(k) == old(EngineAt(k)))
        && (created.None? ==> calls == old(calls))
        && (created.Some? ==>
              && created.value.id == EngineIdOf(deployed.scope)
              && SeededWith(seed, StatesInScope(assetStates, KeyOf(ruleset.scope)))
              && calls == old(calls) + DispatchTo(created.value.id, seed) + [FireCall(created.value.id)])
      ensures Valid()
    {
      created, reloadMissing, seed := None, false, [];
      if cause == Delete || !ruleset.enabled {
        UndeployRuleset(ruleset);
        return;
      }
      var deployed := ruleset;
      if ruleset.scope.AssetScope? {
        if reloaded.None? {
          reloadMissing := true;
          return;
        }
        deployed := reloaded.value;
      }
      created := DeployRuleset(deployed, loadFailed);
      if created.Some? {
        seed := SeedEngine(created.value.id, StatesInScope(assetStates, KeyOf(ruleset.scope)));
      }
    }

    /**
     * The disable branch of processTenantChange: stops and drops the tenant engine of the
     * realm, if any, then stops and drops every asset engine whose id names the realm.
     */
    method RemoveRealmEngines(tenant: RealmId) returns (ghost stops: seq<Call>)
      requires Valid()
      modifies this`tenantEngines, this`assetEngines, this`calls
      ensures tenantEngines == old(tenantEngines) - {tenant}
      ensures assetEngines == OutsideRealm(old(assetEngines), tenant)
      ensures calls == old(calls) + (if tenant in old(tenantEngines) then [StopCall(TenantId(tenant))] else []) + stops
      ensures forall c :: c in stops <==> c.StopCall? && c.engine in InRealmIds(old(assetEngines), tenant)
      ensures Distinct(stops)
      ensures forall k :: EngineAt(k).Some? ==> !BelongsToRealm(EngineAt(k).value.id, tenant)
      ensures Valid()
    {
      if tenant in tenantEngines {
        calls := calls + [StopCall(tenantEngines[tenant].id)];
        tenantEngines := tenantEngines - {tenant};
      }
      stops := StopEach(InRealmIds(assetEngines, tenant));
      assetEngines := OutsideRealm(assetEngines, tenant);
      forall k | EngineAt(k).Some?
        ensures !BelongsToRealm(EngineAt(k).value.id, tenant)
      {
        match k
        case GlobalKey =>
        case TenantKey(r) => assert tenantEngines[r].id == TenantId(r);
        case AssetKey(a) => assert a in assetEngines;
      }
    }

    /**
     * processTenantChange. The active tenant ids are always refreshed. When the tenant went
     * from enabled to disabled its tenant engine and every asset engine whose id carries
     * its realm are stopped and removed; when it went from disabled to enabled its tenant
     * rulesets and its asset rulesets are deployed (without seeding facts).
     */
    method ProcessTenantChange(
      tenant: RealmId, tenantEnabled: bool, cause: Cause, newActiveTenantIds: seq<RealmId>,
      tenantRulesets: seq<Ruleset>, assetRulesets: seq<Ruleset>, assetRealms: map<AssetId, RealmId>,
      failing: set<RulesetId>)
      returns (ghost stops: seq<Call>)
      requires Valid()
      requires forall i :: 0 <= i < |tenantRulesets| ==> tenantRulesets[i].scope == TenantScope(tenant)
      modifies this`globalEngine, this`tenantEngines, this`assetEngines, this`activeTenantIds, this`calls
      ensures activeTenantIds == newActiveTenantIds
      ensures var wasEnabled := tenant in old(activeTenantIds);
        var isEnabled := tenantEnabled && cause != Delete;
        && (wasEnabled == isEnabled ==>
              && globalEngine == old(globalEngine) && tenantEngines == old(tenantEngines)
              && assetEngines == old(assetEngines) && calls == old(calls))
        && (wasEnabled && !isEnabled ==>
              && globalEngine == old(globalEngine)
              && tenantEngines == old(tenantEngines) - {tenant}
              && assetEngines == OutsideRealm(old(assetEngines), tenant)
              && calls == old(calls) + (if tenant in old(tenantEngines) then [StopCall(TenantId(tenant))] else []) + stops
              && (forall c :: c in stops <==> c.StopCall? && c.engine in InRealmIds(old(assetEngines), tenant))
              && Distinct(stops)
              && (forall k :: EngineAt(k).Some? ==> !BelongsToRealm(EngineAt(k).value.id, tenant)))
        && (!wasEnabled && isEnabled ==>
              && calls == old(calls)
              && (forall k ::
                  RulesetsAt(k) == Deployed(Deployed(old(RulesetsAt(k)), IdsFor(tenantRulesets, k)),
                                            IdsFor(EligibleAssetRulesets(assetRulesets, assetRealms, newActiveTenantIds), k)))
              && (forall k ::
                  DeployedEngine(old(EngineAt(k)), EngineAt(k),
                                 tenantRulesets + EligibleAssetRulesets(assetRulesets, assetRealms, newActiveTenantIds), k, failing)))
      ensures Valid()
    {
      stops := [];
      var wasEnabled := tenant in activeTenantIds;
      var isEnabled := tenantEnabled && cause != Delete;
      activeTenantIds := newActiveTenantIds;
      if wasEnabled == isEnabled {
        return;
      }
      if wasEnabled {
        stops := RemoveRealmEngines(tenant);
      } else {
        DeployEach(tenantRulesets, failing);
        label mid:
        DeployAssetRulesets(assetRulesets, assetRealms, failing);
        forall k ensures DeployedEngine(old(EngineAt(k)), EngineAt(k),
                                        tenantRulesets + EligibleAssetRulesets(assetRulesets, assetRealms, newActiveTenantIds), k, failing) {
          DeployedEngineConcat(old(EngineAt(k)), old@mid(EngineAt(k)), EngineAt(k), tenantRulesets,
                               EligibleAssetRulesets(assetRulesets, assetRealms, newActiveTenantIds), k, failing);
        }
      }
    }

    /** Pushes the fact of each attribute with updateAssetState, skipping the error check and firing immediately. */
    method UpdateEach(asset: Asset, attributes: seq<Attribute>)
      modifies this`assetStates, this`calls
      ensures assetStates == ApplyAll(old(assetStates), UpdatesOf(asset, attributes, true))
      ensures calls == old(calls) + DispatchAll(Chain(asset.realmId, asset.path), UpdatesOf(asset, attributes, true))
    {
      ghost var chain := Chain(asset.realmId, asset.path);
      for i := 0 to |attributes|
        invariant assetStates == ApplyAll(old(assetStates), UpdatesOf(asset, attributes[..i], true))
        invariant calls == old(calls) + DispatchAll(chain, UpdatesOf(asset, attributes[..i], true))
      {
        var s := StateOf(asset, attributes[i]);
        ghost var done := UpdatesOf(asset, attributes[..i], true);
        UpdatesStep(asset, attributes, i, true);
        ApplyAllAppendOne(old(assetStates), done, UpdateFact(s, true));
        ghost var before := calls;
        var _ := UpdateAssetState(s, true, true);
        DispatchRunStep(old(calls), before, calls, chain, done, UpdateFact(s, true));
      }
      assert attributes[..|attributes|] == attributes;
    }

    /** Retracts the fact of each attribute with retractAssetState. */
    method RetractEach(asset: Asset, attributes: seq<Attribute>)
      modifies this`assetStates, this`calls
      ensures assetStates == ApplyAll(old(assetStates), RemovalsOf(asset, attributes))
      ensures calls == old(calls) + DispatchAll(Chain(asset.realmId, asset.path), RemovalsOf(asset, attributes))
    {
      ghost var chain := Chain(asset.realmId, asset.path);
      for i := 0 to |attributes|
        invariant assetStates == ApplyAll(old(assetStates), RemovalsOf(asset, attributes[..i]))
        invariant calls == old(calls) + DispatchAll(chain, RemovalsOf(asset, attributes[..i]))
      {
        var s := StateOf(asset, attributes[i]);
        ghost var done := RemovalsOf(asset, attributes[..i]);
        RemovalsStep(asset, attributes, i);
        ApplyAllAppendOne(old(assetStates), done, RemoveFact(s));
        ghost var before := calls;
        RetractAssetState(s);
        DispatchRunStep(old(calls), before, calls, chain, done, RemoveFact(s));
      }
      assert attributes[..|attributes|] == attributes;
    }

    /**
     * processAssetChange. INSERT pushes the rule-state attributes of the event's asset, built
     * with the reloaded asset; UPDATE (when the attributes changed and the asset is still
     * there) retracts the obsolete facts and pushes the added ones; DELETE retracts the
     * rule-state attributes of the event's asset. The fact index and the engine calls are
     * those of AssetChangeOps, routed along the chain of the asset the facts are built from.
     */
    method ProcessAssetChange(
      asset: Asset, cause: Cause, propertyNames: seq<string>, loaded: Option<Asset>,
      obsolete: seq<Attribute>, added: seq<Attribute>)
      modifies this`assetStates, this`calls
      ensures var ops := AssetChangeOps(asset, cause, propertyNames, loaded, obsolete, added);
        var target := AssetChangeTarget(asset, cause, loaded);
        && assetStates == ApplyAll(old(assetStates), ops)
        && calls == old(calls) + DispatchAll(Chain(target.realmId, target.path), ops)
    {
      ghost var ops := AssetChangeOps(asset, cause, propertyNames, loaded, obsolete, added);
      ghost var target := AssetChangeTarget(asset, cause, loaded);
      ghost var chain := Chain(target.realmId, target.path);
      match cause
      case Insert =>
        if loaded.Some? {
          UpdateEach(loaded.value, RuleStateAttributes(asset.attributes));
        } else {
          assert DispatchAll(chain, ops) == [];
        }
      case Update =>
        if "attributes" in propertyNames && loaded.Some? {
          var removals := RemovalsOf(loaded.value, obsolete);
          var updates := UpdatesOf(loaded.value, added, true);
          ghost var states0, calls0 := assetStates, calls;
          RetractEach(loaded.value, obsolete);
          ghost var calls1 := calls;
          UpdateEach(loaded.value, added);
          ApplyAllConcat(states0, removals, updates);
          DispatchAllConcat(chain, removals, updates);
          AppendAssoc(calls0, DispatchAll(chain, removals), DispatchAll(chain, updates));
        } else {
          assert DispatchAll(chain, ops) == [];
        }
      case Delete =>
        RetractEach(asset, RuleStateAttributes(asset.attributes));
    }

    /**
     * processAssetUpdate. A rule-state attribute goes through updateAssetState with the
     * error check, firing immediately unless it is also a rule event; an error there ends
     * the call (the source throws). A rule-event attribute then goes through
     * insertAssetEvent with its own expiry or the configured default. The update is never
     * consumed.
     */
    method ProcessAssetUpdate(asset: Asset, attribute: Attribute, configExpires: string)
      returns (consumed: bool, failed: Option<EngineId>)
      modifies this`assetStates, this`calls
      ensures !consumed
      ensures var s := StateOf(asset, attribute);
        var chain := Chain(asset.realmId, asset.path);
        && (failed.Some? <==> attribute.ruleState && AnyInError(chain))
        && (failed.Some? ==> FirstInError(chain, failed.value) && assetStates == old(assetStates) && calls == old(calls))
        && (failed.None? ==>
              && assetStates == (if attribute.ruleState then Replace(old(assetStates), s) else old(assetStates))
              && calls == old(calls)
                 + (if attribute.ruleState then DispatchOf(chain, UpdateFact(s, !attribute.ruleEvent)) else [])
                 + (if attribute.ruleEvent && !AnyInError(chain)
                    then DispatchOf(chain, InsertFact(attribute.ruleEventExpires.GetOr(configExpires), s))
                    else []))
    {
      consumed, failed := false, None;
      var s := StateOf(asset, attribute);
      ghost var chain := Chain(asset.realmId, asset.path);
      ghost var pushed := calls;
      if attribute.ruleState {
        failed := UpdateAssetState(s, false, !attribute.ruleEvent);
        if failed.Some? {
          return;
        }
        pushed := old(calls) + DispatchOf(chain, UpdateFact(s, !attribute.ruleEvent));
      }
      assert calls == pushed;
      if attribute.ruleEvent {
        InsertAssetEvent(s, attribute.ruleEventExpires.GetOr(configExpires));
      }
    }

    /** Pushes the rule-state attributes of each asset with updateAssetState, unchecked and firing immediately. */
    method PushInitialStates(assets: seq<Asset>)
      modifies this`assetStates, this`calls
      ensures assetStates == ApplyAll(old(assetStates), InitialUpdates(assets))
      ensures calls == old(calls) + InitialDispatch(globalEngine, tenantEngines, assetEngines, assets)
    {
      for i := 0 to |assets|
        invariant assetStates == ApplyAll(old(assetStates), InitialUpdates(assets[..i]))
        invariant calls == old(calls) + InitialDispatch(globalEngine, tenantEngines, assetEngines, assets[..i])
      {
        var a := assets[i];
        var attributes := RuleStateAttributes(a.attributes);
        ghost var done := InitialUpdates(assets[..i]);
        ghost var sent := InitialDispatch(globalEngine, tenantEngines, assetEngines, assets[..i]);
        ghost var chain := Chain(a.realmId, a.path);
        assert assets[..i + 1][..i] == assets[..i];
        assert InitialUpdates(assets[..i + 1]) == done + UpdatesOf(a, attributes, true);
        assert InitialDispatch(globalEngine, tenantEngines, assetEngines, assets[..i + 1])
            == sent + DispatchAll(chain, UpdatesOf(a, attributes, true));
        ApplyAllConcat(old(assetStates), done, UpdatesOf(a, attributes, true));
        AppendAssoc(old(calls), sent, DispatchAll(chain, UpdatesOf(a, attributes, true)));
        UpdateEach(a, attributes);
      }
      assert assets[..|assets|] == assets;
    }

    /**
     * The deploys of start: the enabled global rulesets, then, with the active tenants
     * refreshed, the tenant rulesets of active tenants, then the eligible asset rulesets.
     */
    method DeployAtStart(
      globalRulesets: seq<Ruleset>, newActiveTenantIds: seq<RealmId>, tenantRulesets: seq<Ruleset>,
      assetRulesets: seq<Ruleset>, assetRealms: map<AssetId, RealmId>, failing: set<RulesetId>)
      requires Valid()
      modifies this`globalEngine, this`tenantEngines, this`assetEngines, this`activeTenantIds
      ensures activeTenantIds == newActiveTenantIds
      ensures var deployed := globalRulesets + ActiveTenantRulesets(tenantRulesets, newActiveTenantIds)
                              + EligibleAssetRulesets(assetRulesets, assetRealms, newActiveTenantIds);
        && (forall k :: RulesetsAt(k) == Deployed(old(RulesetsAt(k)), IdsFor(deployed, k)))
        && (forall k :: DeployedEngine(old(EngineAt(k)), EngineAt(k), deployed, k, failing))
      ensures Valid()
    {
      DeployEach(globalRulesets, failing);
      label globals:
      activeTenantIds := newActiveTenantIds;
      var tenantList := ActiveTenantRulesets(tenantRulesets, newActiveTenantIds);
      DeployEach(tenantList, failing);
      label tenants:
      DeployAssetRulesets(assetRulesets, assetRealms, failing);
      ghost var assetList := EligibleAssetRulesets(assetRulesets, assetRealms, newActiveTenantIds);
      forall k
        ensures RulesetsAt(k) == Deployed(old(RulesetsAt(k)), IdsFor(globalRulesets + tenantList + assetList, k))
        ensures DeployedEngine(old(EngineAt(k)), EngineAt(k), globalRulesets + tenantList + assetList, k, failing)
      {
        DeployedThrice(old(RulesetsAt(k)), globalRulesets, tenantList, assetList, k);
        DeployedEngineThrice(old(EngineAt(k)), old@globals(EngineAt(k)), old@tenants(EngineAt(k)), EngineAt(k),
                             globalRulesets, tenantList, assetList, k, failing);
      }
    }

    /**
     * start: the deploys of DeployAtStart, then every rule-state attribute of the stored
     * assets pushed with updateAssetState along the chains of the registry just built.
     */
    method Start(
      globalRulesets: seq<Ruleset>, newActiveTenantIds: seq<RealmId>, tenantRulesets: seq<Ruleset>,
      assetRulesets: seq<Ruleset>, assetRealms: map<AssetId, RealmId>, failing: set<RulesetId>,
      ruleAssets: seq<Asset>)
      requires Valid()
      modifies this`globalEngine, this`tenantEngines, this`assetEngines, this`activeTenantIds, this`assetStates, this`calls
      ensures activeTenantIds == newActiveTenantIds
      ensures var deployed := globalRulesets + ActiveTenantRulesets(tenantRulesets, newActiveTenantIds)
                              + EligibleAssetRulesets(assetRulesets, assetRealms, newActiveTenantIds);
        && (forall k :: RulesetsAt(k) == Deployed(old(RulesetsAt(k)), IdsFor(deployed, k)))
        && (forall k :: DeployedEngine(old(EngineAt(k)), EngineAt(k), deployed, k, failing))
      ensures assetStates == ApplyAll(old(assetStates), InitialUpdates(ruleAssets))
      ensures calls == old(calls) + InitialDispatch(globalEngine, tenantEngines, assetEngines, ruleAssets)
      ensures Valid()
    {
      DeployAtStart(globalRulesets, newActiveTenantIds, tenantRulesets, assetRulesets, assetRealms, failing);
      PushInitialStates(ruleAssets);
    }

    /** stop: stops and removes every asset engine, then every tenant engine, then the global one. */
    method Stop() returns (ghost assetStops: seq<Call>, ghost tenantStops: seq<Call>)
      requires Valid()
      modifies this`globalEngine, this`tenantEngines, this`assetEngines, this`calls
      ensures globalEngine.None? && tenantEngines == map[] && assetEngines == map[]
      ensures forall k :: EngineAt(k).None?
      ensures calls == old(calls) + assetStops + tenantStops + (if old(globalEngine).Some? then [StopCall(GlobalId)] else [])
      ensures forall c :: c in assetStops <==> c.StopCall? && c.engine in IdsOf(old(assetEngines))
      ensures forall c :: c in tenantStops <==> c.StopCall? && c.engine in IdsOf(old(tenantEngines))
      ensures Distinct(assetStops) && Distinct(tenantStops)
      ensures Valid()
    {
      assetStops := StopEach(IdsOf(assetEngines));
      assetEngines := map[];
      tenantStops := StopEach(IdsOf(tenantEngines));
      tenantEngines := map[];
      if globalEngine.Some? {
        calls := calls + [StopCall(globalEngine.value.id)];
        globalEngine := None;
      }
    }
  }
}
