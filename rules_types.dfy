/**
 * Values handled by the rules service: assets and their attributes, the asset state
 * facts built from them, rulesets and their scopes, the keys of the engine registry
 * and the fact operations an engine receives. Also the pure functions that say what
 * the fact index and the registry become after an operation, and lemmas about them.
 */
module RulesTypes {
  import opened Wrappers

  type RealmId = string
  type AssetId = string
  type RulesetId = int

  // ---------------------------------------------------------------------------
  // Assets, attributes and asset state facts
  // ---------------------------------------------------------------------------

  /** Identity of an asset attribute: an asset id and an attribute name. */
  datatype AttributeRef = AttributeRef(assetId: AssetId, attributeName: string)

  /** An asset attribute with the meta items the rules service looks at. */
  datatype Attribute = Attribute(
    name: string,
    value: string,
    ruleState: bool,
    ruleEvent: bool,
    ruleEventExpires: Option<string>)

  /** An asset: its id, realm, ancestor path (root first) and attributes. */
  datatype Asset = Asset(id: AssetId, realmId: RealmId, path: seq<AssetId>, attributes: seq<Attribute>)

  /**
   * An AssetState fact. Two facts are the same fact for the index when they have the
   * same Ref(); the index keeps at most one fact per Ref().
   */
  datatype AssetState = AssetState(
    assetId: AssetId,
    attributeName: string,
    realmId: RealmId,
    path: seq<AssetId>,
    value: string)
  {
    function Ref(): AttributeRef {
      AttributeRef(assetId, attributeName)
    }
  }

  /** The fact an asset's attribute gives: its identity, the asset's realm and path, the attribute's value. */
  function StateOf(asset: Asset, attribute: Attribute): AssetState {
    AssetState(asset.id, attribute.name, asset.realmId, asset.path, attribute.value)
  }

  // ---------------------------------------------------------------------------
  // Rulesets, registry keys and engine identities
  // ---------------------------------------------------------------------------

  /** GlobalRuleset, TenantRuleset and AssetRuleset as one closed variant. */
  datatype RulesetScope =
    | GlobalScope
    | TenantScope(realm: RealmId)
    | AssetScope(realm: RealmId, assetId: AssetId)

  datatype Ruleset = Ruleset(id: RulesetId, scope: RulesetScope, enabled: bool)

  /** The cause of a persistence event. */
  datatype Cause = Insert | Update | Delete

  /** The key under which the registry keeps an engine: nothing, a realm id or an asset id. */
  datatype ScopeKey = GlobalKey | TenantKey(realm: RealmId) | AssetKey(assetId: AssetId)

  /** The registry key a ruleset is deployed under. */
  function KeyOf(scope: RulesetScope): ScopeKey {
    match scope
    case GlobalScope => GlobalKey
    case TenantScope(r) => TenantKey(r)
    case AssetScope(_, a) => AssetKey(a)
  }

  /** RulesEngineId: an asset engine also carries the realm of the ruleset that created it. */
  datatype EngineId = GlobalId | TenantId(realm: RealmId) | AssetEngineId(realm: RealmId, assetId: AssetId)

  /** The registry key an engine with this id belongs under. */
  function KeyOfEngine(id: EngineId): ScopeKey {
    match id
    case GlobalId => GlobalKey
    case TenantId(r) => TenantKey(r)
    case AssetEngineId(_, a) => AssetKey(a)
  }

  /** An engine belongs to a realm when its id carries that realm; the global engine belongs to none. */
  predicate BelongsToRealm(id: EngineId, realm: RealmId) {
    match id
    case GlobalId => false
    case TenantId(r) => r == realm
    case AssetEngineId(r, _) => r == realm
  }

  /** The id a new engine gets when a ruleset of this scope creates it; it belongs under the ruleset's key. */
  function EngineIdOf(scope: RulesetScope): (id: EngineId)
    ensures KeyOfEngine(id) == KeyOf(scope)
    ensures scope.AssetScope? ==> id == AssetEngineId(scope.realm, scope.assetId)
  {
    match scope
    case GlobalScope => GlobalId
    case TenantScope(r) => TenantId(r)
    case AssetScope(r, a) => AssetEngineId(r, a)
  }

  /** Position of a scope in the processing order global, tenant, asset. */
  function Level(key: ScopeKey): nat {
    match key
    case GlobalKey => 0
    case TenantKey(_) => 1
    case AssetKey(_) => 2
  }

  /** True when the engine chain of a fact with this realm and path looks up this key. */
  predicate InScope(key: ScopeKey, realm: RealmId, path: seq<AssetId>) {
    match key
    case GlobalKey => true
    case TenantKey(r) => r == realm
    case AssetKey(a) => a in path
  }

  /** A fact operation as a rules engine receives it. */
  datatype FactOp =
    | InsertFact(expires: string, fact: AssetState)
    | UpdateFact(fact: AssetState, fireImmediately: bool)
    | RemoveFact(fact: AssetState)

  // ---------------------------------------------------------------------------
  // The fact index (assetStates)
  // ---------------------------------------------------------------------------

  /**
   * The fact index. The source keeps a set of facts whose equality is their attribute
   * identity, so it holds at most one fact per identity: a map from the identity to the
   * fact stored for it. Its facts are the map's values.
   */
  type FactIndex = map<AttributeRef, AssetState>

  /** Every fact sits under its own identity. */
  ghost predicate KeyedByRef(index: FactIndex) {
    forall r :: r in index ==> index[r].Ref() == r
  }

  /** Removing a fact from the set: whatever fact has this identity goes, every other stays. */
  function RemoveRef(index: FactIndex, ref: AttributeRef): (r: FactIndex)
    ensures ref !in r
    ensures forall k :: k in r <==> k in index && k != ref
    ensures forall k :: k in r ==> r[k] == index[k]
  {
    index - {ref}
  }

  /** Removing the fact of s's identity and adding s: s is then that identity's fact, the others stay. */
  function Replace(index: FactIndex, s: AssetState): (r: FactIndex)
    ensures s.Ref() in r && r[s.Ref()] == s
    ensures forall k :: k in r <==> k in index || k == s.Ref()
    ensures forall k :: k in r && k != s.Ref() ==> r[k] == index[k]
  {
    RemoveRef(index, s.Ref())[s.Ref() := s]
  }

  /** What a fact operation does to the index: events leave it alone. */
  function ApplyToIndex(index: FactIndex, op: FactOp): FactIndex {
    match op
    case InsertFact(_, _) => index
    case UpdateFact(s, _) => Replace(index, s)
    case RemoveFact(s) => RemoveRef(index, s.Ref())
  }

  /** The index after a sequence of fact operations, applied in order. */
  function ApplyAll(index: FactIndex, ops: seq<FactOp>): FactIndex
    decreases |ops|
  {
    if ops == [] then index
    else ApplyToIndex(ApplyAll(index, ops[..|ops| - 1]), ops[|ops| - 1])
  }

  /**
   * Replacing a fact leaves exactly one fact of its identity, the new one, and keeps
   * every fact of another identity.
   */
  lemma ReplaceKeepsOneFact(index: FactIndex, s: AssetState)
    requires KeyedByRef(index)
    ensures KeyedByRef(Replace(index, s))
    ensures s in Replace(index, s).Values
    ensures forall t :: t in Replace(index, s).Values && t.Ref() == s.Ref() ==> t == s
    ensures forall t: AssetState :: t.Ref() != s.Ref() ==> (t in Replace(index, s).Values <==> t in index.Values)
  {
    var r := Replace(index, s);
    assert r[s.Ref()] == s;
    forall t: AssetState | t.Ref() != s.Ref()
      ensures t in r.Values <==> t in index.Values
    {
      if t in index.Values {
        var k :| k in index && index[k] == t;
        assert r[k] == t;
      }
      if t in r.Values {
        var k :| k in r && r[k] == t;
        assert index[k] == t;
      }
    }
  }

  /** Removing an identity leaves exactly the facts of the other identities. */
  lemma RemoveDropsIdentity(index: FactIndex, ref: AttributeRef)
    requires KeyedByRef(index)
    ensures KeyedByRef(RemoveRef(index, ref))
    ensures forall t :: t in RemoveRef(index, ref).Values <==> t in index.Values && t.Ref() != ref
  {
    var r := RemoveRef(index, ref);
    forall t ensures t in r.Values <==> t in index.Values && t.Ref() != ref {
      if t in index.Values && t.Ref() != ref {
        var k :| k in index && index[k] == t;
        assert r[k] == t;
      }
      if t in r.Values {
        var k :| k in r && r[k] == t;
        assert index[k] == t;
      }
    }
  }

  /** Every fact operation keeps each fact under its own identity. */
  lemma ApplyKeepsKeyed(index: FactIndex, op: FactOp)
    requires KeyedByRef(index)
    ensures KeyedByRef(ApplyToIndex(index, op))
  {
  }

  lemma {:induction false} ApplyAllKeepsKeyed(index: FactIndex, ops: seq<FactOp>)
    requires KeyedByRef(index)
    ensures KeyedByRef(ApplyAll(index, ops))
    decreases |ops|
  {
    if ops != [] {
      ApplyAllKeepsKeyed(index, ops[..|ops| - 1]);
      ApplyKeepsKeyed(ApplyAll(index, ops[..|ops| - 1]), ops[|ops| - 1]);
    }
  }

  lemma ApplyAllAppendOne(index: FactIndex, ops: seq<FactOp>, op: FactOp)
    ensures ApplyAll(index, ops + [op]) == ApplyToIndex(ApplyAll(index, ops), op)
  {
    assert (ops + [op])[..|ops|] == ops;
  }

  /** Applying two runs of operations one after the other is applying their concatenation. */
  lemma {:induction false} ApplyAllConcat(index: FactIndex, first: seq<FactOp>, second: seq<FactOp>)
    ensures ApplyAll(index, first + second) == ApplyAll(ApplyAll(index, first), second)
    decreases |second|
  {
    if second == [] {
      assert first + second == first;
    } else {
      var n := |second| - 1;
      ApplyAllConcat(index, first, second[..n]);
      assert first + second == (first + second[..n]) + [second[n]];
      assert second == second[..n] + [second[n]];
      ApplyAllAppendOne(index, first + second[..n], second[n]);
      ApplyAllAppendOne(ApplyAll(index, first), second[..n], second[n]);
    }
  }

  // ---------------------------------------------------------------------------
  // Facts in scope of a newly created engine
  // ---------------------------------------------------------------------------

  /** getAssetStatesInScope: the indexed facts whose path contains the asset id. */
  function AssetStatesInScope(index: FactIndex, assetId: AssetId): (r: set<AssetState>)
    ensures forall s :: s in r <==> s in index.Values && assetId in s.path
  {
    set s | s in index.Values && assetId in s.path
  }

  /** The facts a newly created engine under this key is seeded with. */
  function StatesInScope(index: FactIndex, key: ScopeKey): set<AssetState> {
    match key
    case GlobalKey => index.Values
    case TenantKey(realm) => set s | s in index.Values && s.realmId == realm
    case AssetKey(assetId) => AssetStatesInScope(index, assetId)
  }

  /**
   * Seeding and propagation agree: a new engine is seeded with exactly the indexed
   * facts whose engine chain would have included it.
   */
  lemma SeedMatchesChain(index: FactIndex, key: ScopeKey, s: AssetState)
    ensures s in StatesInScope(index, key) <==> s in index.Values && InScope(key, s.realmId, s.path)
  {
  }

  /** A log that holds one deferred updateFact for each fact of the set and nothing else. */
  ghost predicate SeededWith(log: seq<FactOp>, facts: set<AssetState>) {
    && (forall k :: 0 <= k < |log| ==> log[k].UpdateFact? && !log[k].fireImmediately && log[k].fact in facts)
    && (forall i, j :: 0 <= i < j < |log| ==> log[i] != log[j])
    && (forall s :: s in facts ==> UpdateFact(s, false) in log)
  }

  /** The deferred updateFact pushes for these facts, in this order. */
  function Deferred(order: seq<AssetState>): seq<FactOp>
    decreases |order|
  {
    if order == [] then [] else Deferred(order[..|order| - 1]) + [UpdateFact(order[|order| - 1], false)]
  }

  /** One more fact at the end adds one more deferred push at the end. */
  lemma DeferredAppend(order: seq<AssetState>, s: AssetState)
    ensures Deferred(order + [s]) == Deferred(order) + [UpdateFact(s, false)]
  {
    assert (order + [s])[..|order|] == order;
  }

  /** The k-th deferred push is that of the k-th fact. */
  lemma {:induction false} DeferredAt(order: seq<AssetState>)
    ensures |Deferred(order)| == |order|
    ensures forall k :: 0 <= k < |order| ==> Deferred(order)[k] == UpdateFact(order[k], false)
    decreases |order|
  {
    if order != [] {
      DeferredAt(order[..|order| - 1]);
    }
  }

  /** The order lists every fact of the set exactly once. */
  ghost predicate Enumerates(order: seq<AssetState>, facts: set<AssetState>) {
    && (forall i, j :: 0 <= i < j < |order| ==> order[i] != order[j])
    && (forall s :: s in facts <==> s in order)
  }

  /** Appending a fact not yet listed enumerates one more fact. */
  lemma EnumeratesStep(order: seq<AssetState>, facts: set<AssetState>, s: AssetState)
    requires Enumerates(order, facts) && s !in facts
    ensures Enumerates(order + [s], facts + {s})
  {
    var next := order + [s];
    forall i, j | 0 <= i < j < |next|
      ensures next[i] != next[j]
    {
      if j == |order| {
        assert next[i] == order[i];
      } else {
        assert next[i] == order[i] && next[j] == order[j];
      }
    }
  }

  /** Pushing every fact of a set once, in any order, is a seeding with that set. */
  lemma SeededFromOrder(order: seq<AssetState>, facts: set<AssetState>)
    requires Enumerates(order, facts)
    ensures SeededWith(Deferred(order), facts)
  {
    var log := Deferred(order);
    DeferredAt(order);
    forall i, j | 0 <= i < j < |log|
      ensures log[i] != log[j]
    {
      assert order[i] != order[j];
    }
    forall s | s in facts
      ensures UpdateFact(s, false) in log
    {
      var k :| 0 <= k < |order| && order[k] == s;
      assert log[k] == UpdateFact(s, false);
    }
  }

  // ---------------------------------------------------------------------------
  // Fact operations produced by asset changes
  // ---------------------------------------------------------------------------

  /** The attributes flagged as rule state, in order. */
  function RuleStateAttributes(attributes: seq<Attribute>): (r: seq<Attribute>)
    ensures forall a :: a in r <==> a in attributes && a.ruleState
    decreases |attributes|
  {
    if attributes == [] then []
    else
      var last := attributes[|attributes| - 1];
      RuleStateAttributes(attributes[..|attributes| - 1]) + (if last.ruleState then [last] else [])
  }

  /** Filtering distributes over concatenation and keeps or drops a single attribute: it keeps list order. */
  lemma {:induction false} RuleStateAttributesConcat(first: seq<Attribute>, second: seq<Attribute>, x: Attribute)
    ensures RuleStateAttributes(first + second) == RuleStateAttributes(first) + RuleStateAttributes(second)
    ensures RuleStateAttributes([x]) == if x.ruleState then [x] else []
    decreases |second|
  {
    assert [x][..0] == [];
    if second == [] {
      assert first + second == first;
    } else {
      var n := |second| - 1;
      assert (first + second)[..|first + second| - 1] == first + second[..n];
      RuleStateAttributesConcat(first, second[..n], x);
    }
  }

  /** One updateAssetState push per attribute, built with the given asset. */
  function UpdatesOf(asset: Asset, attributes: seq<Attribute>, fireImmediately: bool): seq<FactOp>
    decreases |attributes|
  {
    if attributes == [] then []
    else
      UpdatesOf(asset, attributes[..|attributes| - 1], fireImmediately)
        + [UpdateFact(StateOf(asset, attributes[|attributes| - 1]), fireImmediately)]
  }

  /** One retractAssetState per attribute, built with the given asset. */
  function RemovalsOf(asset: Asset, attributes: seq<Attribute>): seq<FactOp>
    decreases |attributes|
  {
    if attributes == [] then []
    else RemovalsOf(asset, attributes[..|attributes| - 1]) + [RemoveFact(StateOf(asset, attributes[|attributes| - 1]))]
  }

  /** The i-th push of UpdatesOf is the updateFact of the i-th attribute's fact. */
  lemma {:induction false} UpdatesOfShape(asset: Asset, attributes: seq<Attribute>, fire: bool)
    ensures |UpdatesOf(asset, attributes, fire)| == |attributes|
    ensures forall i :: 0 <= i < |attributes| ==> UpdatesOf(asset, attributes, fire)[i] == UpdateFact(StateOf(asset, attributes[i]), fire)
    decreases |attributes|
  {
    if attributes != [] {
      var n := |attributes| - 1;
      UpdatesOfShape(asset, attributes[..n], fire);
    }
  }

  /** The i-th operation of RemovalsOf is the removeFact of the i-th attribute's fact. */
  lemma {:induction false} RemovalsOfShape(asset: Asset, attributes: seq<Attribute>)
    ensures |RemovalsOf(asset, attributes)| == |attributes|
    ensures forall i :: 0 <= i < |attributes| ==> RemovalsOf(asset, attributes)[i] == RemoveFact(StateOf(asset, attributes[i]))
    decreases |attributes|
  {
    if attributes != [] {
      var n := |attributes| - 1;
      RemovalsOfShape(asset, attributes[..n]);
    }
  }

  lemma UpdatesStep(asset: Asset, attributes: seq<Attribute>, i: nat, fire: bool)
    requires i < |attributes|
    ensures UpdatesOf(asset, attributes[..i + 1], fire)
      == UpdatesOf(asset, attributes[..i], fire) + [UpdateFact(StateOf(asset, attributes[i]), fire)]
  {
    assert attributes[..i + 1][..i] == attributes[..i];
  }

  lemma RemovalsStep(asset: Asset, attributes: seq<Attribute>, i: nat)
    requires i < |attributes|
    ensures RemovalsOf(asset, attributes[..i + 1])
      == RemovalsOf(asset, attributes[..i]) + [RemoveFact(StateOf(asset, attributes[i]))]
  {
    assert attributes[..i + 1][..i] == attributes[..i];
  }

  /**
   * The fact operations processAssetChange performs, in order. `loaded` is what the
   * asset store returns for the asset id (None: the asset is gone); `obsolete` and
   * `added` are the two attribute lists the attribute diff of an UPDATE yields.
   */
  function AssetChangeOps(
    asset: Asset, cause: Cause, propertyNames: seq<string>, loaded: Option<Asset>,
    obsolete: seq<Attribute>, added: seq<Attribute>): seq<FactOp>
  {
    match cause
    case Insert =>
      if loaded.None? then [] else UpdatesOf(loaded.value, RuleStateAttributes(asset.attributes), true)
    case Update =>
      if "attributes" !in propertyNames || loaded.None? then []
      else RemovalsOf(loaded.value, obsolete) + UpdatesOf(loaded.value, added, true)
    case Delete =>
      RemovalsOf(asset, RuleStateAttributes(asset.attributes))
  }

  /** The asset whose realm and path route the facts of an asset change. */
  function AssetChangeTarget(asset: Asset, cause: Cause, loaded: Option<Asset>): Asset {
    if cause != Delete && loaded.Some? then loaded.value else asset
  }

  /** The initial push of start(): the rule-state attributes of each stored asset, asset by asset. */
  function InitialUpdates(assets: seq<Asset>): seq<FactOp>
    decreases |assets|
  {
    if assets == [] then []
    else
      var n := |assets| - 1;
      InitialUpdates(assets[..n]) + UpdatesOf(assets[n], RuleStateAttributes(assets[n].attributes), true)
  }

  /** After retracting the facts of some attributes, no fact with their identities is left. */
  lemma {:induction false} RemovalsClearIndex(index: FactIndex, asset: Asset, attributes: seq<Attribute>)
    ensures forall i :: 0 <= i < |attributes|
              ==> AttributeRef(asset.id, attributes[i].name) !in ApplyAll(index, RemovalsOf(asset, attributes))
    decreases |attributes|
  {
    if attributes != [] {
      var front := attributes[..|attributes| - 1];
      RemovalsClearIndex(index, asset, front);
      var ops := RemovalsOf(asset, attributes);
      assert ops[..|ops| - 1] == RemovalsOf(asset, front);
      forall i | 0 <= i < |attributes| - 1
        ensures AttributeRef(asset.id, attributes[i].name) !in ApplyAll(index, ops)
      {
        assert attributes[i] == front[i];
      }
    }
  }

  /** The attribute at i is the last one of the list with its name. */
  ghost predicate LastWithName(attributes: seq<Attribute>, i: int) {
    0 <= i < |attributes| && forall j :: i < j < |attributes| ==> attributes[j].name != attributes[i].name
  }

  /** The index holds this fact under its identity. */
  ghost predicate Holds(index: FactIndex, s: AssetState) {
    s.Ref() in index && index[s.Ref()] == s
  }

  /**
   * After pushing the facts of some attributes, the last fact pushed for each attribute
   * name is the one indexed under its identity.
   */
  lemma {:induction false} UpdatesLandInIndex(index: FactIndex, asset: Asset, attributes: seq<Attribute>, fire: bool)
    ensures forall i :: LastWithName(attributes, i) ==>
              Holds(ApplyAll(index, UpdatesOf(asset, attributes, fire)), StateOf(asset, attributes[i]))
    decreases |attributes|
  {
    if attributes != [] {
      var n := |attributes| - 1;
      var front := attributes[..n];
      UpdatesLandInIndex(index, asset, front, fire);
      UpdatesOfShape(asset, front, fire);
      var ops := UpdatesOf(asset, attributes, fire);
      assert ops == UpdatesOf(asset, front, fire) + [UpdateFact(StateOf(asset, attributes[n]), fire)];
      assert ops[..n] == UpdatesOf(asset, front, fire);
      var before := ApplyAll(index, ops[..n]);
      assert ApplyAll(index, ops) == Replace(before, StateOf(asset, attributes[n]));
      forall i | LastWithName(attributes, i) && i < n
        ensures Holds(ApplyAll(index, ops), StateOf(asset, attributes[i]))
      {
        assert front[i] == attributes[i];
        assert LastWithName(front, i);
        assert attributes[n].name != attributes[i].name;
      }
    }
  }

  // ---------------------------------------------------------------------------
  // The registry seen key by key
  // ---------------------------------------------------------------------------

  /**
   * The rulesets under a key after deploying these rulesets there: an engine exists
   * afterwards exactly when one existed or some ruleset arrived.
   */
  function Deployed(current: Option<set<RulesetId>>, ids: set<RulesetId>): (r: Option<set<RulesetId>>)
    ensures r.None? <==> current.None? && ids == {}
    ensures r.Some? ==> r.value == current.GetOr({}) + ids
  {
    if current.None? && ids == {} then None else Some(current.GetOr({}) + ids)
  }

  /** The rulesets under a key after undeploying one: the engine goes once it has none left. */
  function Undeployed(current: Option<set<RulesetId>>, id: RulesetId): (r: Option<set<RulesetId>>)
    ensures current.None? ==> r.None?
    ensures current.Some? ==> (r.None? <==> current.value - {id} == {})
    ensures r.Some? ==> r.value == current.value - {id} && id !in r.value
  {
    match current
    case None => None
    case Some(s) => if s - {id} == {} then None else Some(s - {id})
  }

  /** Undeploying the same ruleset twice is the same as undeploying it once. */
  lemma UndeployIdempotent(current: Option<set<RulesetId>>, id: RulesetId)
    ensures Undeployed(Undeployed(current, id), id) == Undeployed(current, id)
  {
    if current.Some? && current.value - {id} != {} {
      assert (current.value - {id}) - {id} == current.value - {id};
    }
  }

  /** Undeploying a ruleset that a (non-empty) engine does not hold changes nothing. */
  lemma UndeployAbsentIsNoOp(current: Option<set<RulesetId>>, id: RulesetId)
    requires current.Some? ==> current.value != {} && id !in current.value
    ensures Undeployed(current, id) == current
  {
    if current.Some? {
      assert current.value - {id} == current.value;
    }
  }

  /**
   * Undeploying a ruleset just deployed under a key restores the key: no engine if there
   * was none, otherwise the engine's rulesets as they were.
   */
  lemma DeployThenUndeploy(current: Option<set<RulesetId>>, id: RulesetId)
    requires current.Some? ==> current.value != {} && id !in current.value
    ensures Undeployed(Deployed(current, {id}), id) == current
  {
    var held := current.GetOr({});
    assert held + {id} - {id} == held;
  }

  /** The ids of the rulesets in the list that deploy under this key. */
  function IdsFor(rulesets: seq<Ruleset>, key: ScopeKey): (r: set<RulesetId>)
    ensures forall id :: id in r <==> exists i :: 0 <= i < |rulesets| && KeyOf(rulesets[i].scope) == key && rulesets[i].id == id
    decreases |rulesets|
  {
    if rulesets == [] then {}
    else
      var n := |rulesets| - 1;
      var front := IdsFor(rulesets[..n], key);
      assert forall i :: 0 <= i < n ==> rulesets[..n][i] == rulesets[i];
      front + (if KeyOf(rulesets[n].scope) == key then {rulesets[n].id} else {})
  }

  /** Deploying one batch of rulesets after another is deploying both batches at once. */
  lemma DeployedTwice(current: Option<set<RulesetId>>, first: set<RulesetId>, second: set<RulesetId>)
    ensures Deployed(Deployed(current, first), second) == Deployed(current, first + second)
  {
    var held := current.GetOr({});
    assert held + first + second == held + (first + second);
  }

  /** Deploying no ruleset under a key leaves it as it was. */
  lemma DeployedNothing(current: Option<set<RulesetId>>)
    ensures Deployed(current, {}) == current
  {
    if current.Some? {
      assert current.value + {} == current.value;
    }
  }

  /** The ids a list prefix deploys under a key grow by the next ruleset's id when its key matches. */
  lemma IdsForStep(rulesets: seq<Ruleset>, i: nat, key: ScopeKey)
    requires i < |rulesets|
    ensures IdsFor(rulesets[..i + 1], key)
      == IdsFor(rulesets[..i], key) + (if KeyOf(rulesets[i].scope) == key then {rulesets[i].id} else {})
  {
    assert rulesets[..i + 1][..i] == rulesets[..i];
  }

  /** The last ruleset of the list that deploys under this key: its load sets the engine's error state. */
  function LastFor(rulesets: seq<Ruleset>, key: ScopeKey): (r: Option<Ruleset>)
    ensures r.None? <==> forall j :: 0 <= j < |rulesets| ==> KeyOf(rulesets[j].scope) != key
    ensures r.Some? ==> r.value in rulesets && KeyOf(r.value.scope) == key
    decreases |rulesets|
  {
    if rulesets == [] then None
    else
      var n := |rulesets| - 1;
      assert forall j :: 0 <= j < n ==> rulesets[..n][j] == rulesets[j];
      if KeyOf(rulesets[n].scope) == key then Some(rulesets[n]) else LastFor(rulesets[..n], key)
  }

  /** The first ruleset of the list that deploys under this key: it creates the engine when there is none. */
  function FirstFor(rulesets: seq<Ruleset>, key: ScopeKey): (r: Option<Ruleset>)
    ensures r.None? <==> forall j :: 0 <= j < |rulesets| ==> KeyOf(rulesets[j].scope) != key
    ensures r.Some? ==> r.value in rulesets && KeyOf(r.value.scope) == key
    decreases |rulesets|
  {
    if rulesets == [] then None
    else
      var n := |rulesets| - 1;
      assert forall j :: 0 <= j < n ==> rulesets[..n][j] == rulesets[j];
      var front := FirstFor(rulesets[..n], key);
      if front.Some? then front
      else if KeyOf(rulesets[n].scope) == key then Some(rulesets[n])
      else None
  }

  /** A ruleset for the key with none for the key after it is what LastFor gives. */
  lemma {:induction false} LastForIsLast(rulesets: seq<Ruleset>, key: ScopeKey, i: nat)
    requires i < |rulesets| && KeyOf(rulesets[i].scope) == key
    requires forall j :: i < j < |rulesets| ==> KeyOf(rulesets[j].scope) != key
    ensures LastFor(rulesets, key) == Some(rulesets[i])
    decreases |rulesets|
  {
    var n := |rulesets| - 1;
    if i < n {
      assert rulesets[..n][i] == rulesets[i];
      assert forall j :: i < j < n ==> rulesets[..n][j] == rulesets[j];
      LastForIsLast(rulesets[..n], key, i);
    }
  }

  /** A ruleset for the key with none for the key before it is what FirstFor gives. */
  lemma {:induction false} FirstForIsFirst(rulesets: seq<Ruleset>, key: ScopeKey, i: nat)
    requires i < |rulesets| && KeyOf(rulesets[i].scope) == key
    requires forall j :: 0 <= j < i ==> KeyOf(rulesets[j].scope) != key
    ensures FirstFor(rulesets, key) == Some(rulesets[i])
    decreases |rulesets|
  {
    var n := |rulesets| - 1;
    if i < n {
      assert rulesets[..n][i] == rulesets[i];
      assert forall j :: 0 <= j < i ==> rulesets[..n][j] == rulesets[j];
      FirstForIsFirst(rulesets[..n], key, i);
    } else {
      assert forall j :: 0 <= j < n ==> rulesets[..n][j] == rulesets[j];
      assert FirstFor(rulesets[..n], key).None?;
    }
  }

  /** The ids two lists deploy under a key, one after the other, are the ids of each. */
  lemma {:induction false} IdsForConcat(first: seq<Ruleset>, second: seq<Ruleset>, key: ScopeKey)
    ensures IdsFor(first + second, key) == IdsFor(first, key) + IdsFor(second, key)
    decreases |second|
  {
    if second == [] {
      assert first + second == first;
    } else {
      var n := |second| - 1;
      assert (first + second)[..|first| + n] == first + second[..n];
      assert (first + second)[|first| + n] == second[n];
      IdsForConcat(first, second[..n], key);
    }
  }

  /** One more ruleset at the end becomes the last one for its key. */
  lemma LastForStep(rulesets: seq<Ruleset>, i: nat, key: ScopeKey)
    requires i < |rulesets|
    ensures LastFor(rulesets[..i + 1], key)
      == if KeyOf(rulesets[i].scope) == key then Some(rulesets[i]) else LastFor(rulesets[..i], key)
  {
    assert rulesets[..i + 1][..i] == rulesets[..i];
  }

  /** One more ruleset at the end is the first one for its key only when the key had none. */
  lemma FirstForStep(rulesets: seq<Ruleset>, i: nat, key: ScopeKey)
    requires i < |rulesets|
    ensures FirstFor(rulesets[..i + 1], key)
      == if FirstFor(rulesets[..i], key).Some? then FirstFor(rulesets[..i], key)
         else if KeyOf(rulesets[i].scope) == key then Some(rulesets[i]) else None
  {
    assert rulesets[..i + 1][..i] == rulesets[..i];
  }

  /** In two lists one after the other, the last ruleset for a key is the second list's, if it has one. */
  lemma {:induction false} LastForConcat(first: seq<Ruleset>, second: seq<Ruleset>, key: ScopeKey)
    ensures LastFor(first + second, key) == if LastFor(second, key).Some? then LastFor(second, key) else LastFor(first, key)
    decreases |second|
  {
    if second == [] {
      assert first + second == first;
    } else {
      var n := |second| - 1;
      assert (first + second)[..|first| + n] == first + second[..n];
      assert (first + second)[|first| + n] == second[n];
      LastForConcat(first, second[..n], key);
    }
  }

  /** In two lists one after the other, the first ruleset for a key is the first list's, if it has one. */
  lemma {:induction false} FirstForConcat(first: seq<Ruleset>, second: seq<Ruleset>, key: ScopeKey)
    ensures FirstFor(first + second, key) == if FirstFor(first, key).Some? then FirstFor(first, key) else FirstFor(second, key)
    decreases |second|
  {
    if second == [] {
      assert first + second == first;
    } else {
      var n := |second| - 1;
      assert (first + second)[..|first| + n] == first + second[..n];
      assert (first + second)[|first| + n] == second[n];
      FirstForConcat(first, second[..n], key);
    }
  }

  /**
   * deployAssetRulesets keeps an asset ruleset when the asset store finds its asset
   * and that asset's realm is an active tenant.
   */
  predicate EligibleAssetRuleset(r: Ruleset, assetRealms: map<AssetId, RealmId>, activeTenantIds: seq<RealmId>) {
    r.scope.AssetScope? && r.scope.assetId in assetRealms && assetRealms[r.scope.assetId] in activeTenantIds
  }

  function EligibleAssetRulesets(rulesets: seq<Ruleset>, assetRealms: map<AssetId, RealmId>, activeTenantIds: seq<RealmId>): (r: seq<Ruleset>)
    ensures forall x :: x in r <==> x in rulesets && EligibleAssetRuleset(x, assetRealms, activeTenantIds)
    decreases |rulesets|
  {
    if rulesets == [] then []
    else
      var last := rulesets[|rulesets| - 1];
      EligibleAssetRulesets(rulesets[..|rulesets| - 1], assetRealms, activeTenantIds)
        + (if EligibleAssetRuleset(last, assetRealms, activeTenantIds) then [last] else [])
  }

  /** Filtering distributes over concatenation and keeps or drops a single ruleset: it keeps list order. */
  lemma {:induction false} EligibleAssetRulesetsConcat(first: seq<Ruleset>, second: seq<Ruleset>, x: Ruleset,
                                                        assetRealms: map<AssetId, RealmId>, activeTenantIds: seq<RealmId>)
    ensures EligibleAssetRulesets(first + second, assetRealms, activeTenantIds)
         == EligibleAssetRulesets(first, assetRealms, activeTenantIds) + EligibleAssetRulesets(second, assetRealms, activeTenantIds)
    ensures EligibleAssetRulesets([x], assetRealms, activeTenantIds) == if EligibleAssetRuleset(x, assetRealms, activeTenantIds) then [x] else []
    decreases |second|
  {
    assert [x][..0] == [];
    if second == [] {
      assert first + second == first;
    } else {
      var n := |second| - 1;
      assert (first + second)[..|first + second| - 1] == first + second[..n];
      EligibleAssetRulesetsConcat(first, second[..n], x, assetRealms, activeTenantIds);
    }
  }

  /** start() deploys the tenant rulesets whose realm is an active tenant. */
  function ActiveTenantRulesets(rulesets: seq<Ruleset>, activeTenantIds: seq<RealmId>): (r: seq<Ruleset>)
    ensures forall x :: x in r <==> x in rulesets && x.scope.TenantScope? && x.scope.realm in activeTenantIds
    decreases |rulesets|
  {
    if rulesets == [] then []
    else
      var last := rulesets[|rulesets| - 1];
      ActiveTenantRulesets(rulesets[..|rulesets| - 1], activeTenantIds)
        + (if last.scope.TenantScope? && last.scope.realm in activeTenantIds then [last] else [])
  }

  /** Filtering distributes over concatenation and keeps or drops a single ruleset: it keeps list order. */
  lemma {:induction false} ActiveTenantRulesetsConcat(first: seq<Ruleset>, second: seq<Ruleset>, x: Ruleset, activeTenantIds: seq<RealmId>)
    ensures ActiveTenantRulesets(first + second, activeTenantIds)
         == ActiveTenantRulesets(first, activeTenantIds) + ActiveTenantRulesets(second, activeTenantIds)
    ensures ActiveTenantRulesets([x], activeTenantIds) == if x.scope.TenantScope? && x.scope.realm in activeTenantIds then [x] else []
    decreases |second|
  {
    assert [x][..0] == [];
    if second == [] {
      assert first + second == first;
    } else {
      var n := |second| - 1;
      assert (first + second)[..|first + second| - 1] == first + second[..n];
      ActiveTenantRulesetsConcat(first, second[..n], x, activeTenantIds);
    }
  }
}
