# OpenRemote rules service, request routing and tenant rules place

This project models three parts of the OpenRemote manager and container in Dafny and proves properties of the models.

- **The rules service** (`rules_types.dfy`, `rules_service.dfy`). It keeps a registry of rules engines: at most one global engine, one engine per realm (tenant) and one per asset. It also keeps a fact index of the asset state facts pushed so far, with at most one fact per attribute identity (asset id plus attribute name).
  - Every fact goes along its engine chain: the global engine, then the engine of the fact's realm, then the engines of the assets on the fact's path, root first.
  - The service reacts to ruleset changes (deploy and undeploy, seeding a newly created engine), tenant changes (disable and enable a realm) and asset changes (insert, update, delete). `stop` tears the registry down.
  - Engines are values (`Engine`: id, deployed ruleset ids, error flag) held in the class's fields. Every fact operation, `fire()` and `stop()` the service calls on an engine is appended to a call log `calls`, so the contracts state exactly which engine received what, in what order. `addRuleset`, `removeRuleset` and `isError` are not logged: their effect is the engine value itself.
- **The web service's request handler** (`web_service.dfy`). It takes the prefix routes in insertion order, redirects `/` to the default realm, serves the JavaScript API, serves realm roots from the realm index handler, and answers 404 for a path with no realm segment. Otherwise it moves the realm segment into the `Auth-Realm` header and rewrites the path.
  - The two realm patterns `/([a-zA-Z0-9\-_]+)/?` and `/([a-zA-Z0-9\-_]+)/(.*)` are written as matchers. They are proved equal to plain language definitions (`RootForm`, `SubForm`).
  - The model also includes the container host chosen in `init`.
- **The tenant rules place tokenizer** (`rules_tenant_place.dfy`). It converts between the rules place of a realm and its history token.

`wrappers.dfy` holds the `Option` type.

The rules service is modelled as one class. Its methods change its fields, their contracts give the whole new state, and lemmas about the pure functions those contracts use carry the properties the source promises:

- when the fact's path repeats no asset id, each registered in-scope engine receives the fact once, in chain order (a repeated asset id puts its engine in the chain once per occurrence, as `ReceivedAlongChain` states);
- the index keeps one fact per identity;
- a newly created engine is seeded with every fact in its scope exactly once and fired once.

## Model

| member | source | states |
|---|---|---|
| RulesTypes.EngineIdOf | manager/src/main/java/org/openremote/manager/rules/RulesService.java:416-538 | A new engine's id names the registry key its ruleset deploys under. An asset engine's id also carries the ruleset's realm. |
| RulesTypes.StateOf | manager/src/main/java/org/openremote/manager/rules/RulesService.java:278-279 | No contract of its own: the fact takes the asset's id, realm and path and the attribute's name and value. UpdatesOfShape and RemovalsOfShape state which facts the pushes carry. |
| RulesTypes.RemoveRef | manager/src/main/java/org/openremote/manager/rules/RulesService.java:611 | Removing by identity drops that identity's fact and keeps every other fact unchanged. |
| RulesTypes.Replace | manager/src/main/java/org/openremote/manager/rules/RulesService.java:595-597 | After remove and add, s is its identity's fact and every other fact is unchanged; ReplaceKeepsOneFact carries the one-fact-per-identity invariant. |
| RulesTypes.ReplaceKeepsOneFact | manager/src/main/java/org/openremote/manager/rules/RulesService.java:595-597 | remove(s) followed by add(s) keeps every fact under its own identity and puts s in the index. s is the only fact with its identity, and facts of other identities are unchanged. |
| RulesTypes.RemoveDropsIdentity | manager/src/main/java/org/openremote/manager/rules/RulesService.java:610-611 | Removing a fact leaves exactly the facts of the other identities, each still under its own identity. |
| RulesTypes.ApplyAllKeepsKeyed | manager/src/main/java/org/openremote/manager/rules/RulesService.java:103-106 | Any sequence of updates, removals and events keeps each fact of the index under its own identity. |
| RulesTypes.ApplyAllConcat | manager/src/main/java/org/openremote/manager/rules/RulesService.java:318-332 | Applying two runs of fact operations one after the other is the same as applying their concatenation. |
| RulesTypes.AssetStatesInScope | manager/src/main/java/org/openremote/manager/rules/RulesService.java:623-628 | A fact is in scope of an asset exactly when it is indexed and the asset id is on its path. |
| RulesTypes.SeedMatchesChain | manager/src/main/java/org/openremote/manager/rules/RulesService.java:371-403 | A fact seeds a new engine exactly when it is indexed and that engine's key is in the fact's engine chain. Global takes all facts, tenant takes the facts of its realm, asset takes the facts whose path holds the asset. |
| RulesTypes.StatesInScope | manager/src/main/java/org/openremote/manager/rules/RulesService.java:370-403 | No contract of its own: SeedMatchesChain states that a fact seeds a new engine exactly when it is indexed and the engine's key is in scope of the fact. |
| RulesTypes.SeededFromOrder | manager/src/main/java/org/openremote/manager/rules/RulesService.java:370-402 | Pushing each fact of a set once, in any order, gives one deferred updateFact per fact and nothing else. |
| RulesTypes.RuleStateAttributes | manager/src/main/java/org/openremote/manager/rules/RulesService.java:285-286 | Keeps exactly the attributes flagged as rule state. |
| RulesTypes.RuleStateAttributesConcat | manager/src/main/java/org/openremote/manager/rules/RulesService.java:285-286 | The filter distributes over concatenation and keeps a single attribute exactly when it is rule state, so it keeps list order. |
| RulesTypes.UpdatesOf | manager/src/main/java/org/openremote/manager/rules/RulesService.java:289-298 | No contract of its own: UpdatesOfShape states that the i-th push is the updateFact of the i-th attribute's fact, one per attribute. |
| RulesTypes.RemovalsOf | manager/src/main/java/org/openremote/manager/rules/RulesService.java:349-355 | No contract of its own: RemovalsOfShape states that the i-th operation is the removeFact of the i-th attribute's fact, one per attribute. |
| RulesTypes.AssetChangeOps | manager/src/main/java/org/openremote/manager/rules/RulesService.java:281-357 | No contract of its own: its operations are what ProcessAssetChange pushes; RemovalsClearIndex and UpdatesLandInIndex state what they leave in the index. |
| RulesTypes.AssetChangeTarget | manager/src/main/java/org/openremote/manager/rules/RulesService.java:289-295 | No contract of its own: INSERT and UPDATE route along the loaded asset's chain and DELETE along the event asset's, as ProcessAssetChange's ensures state. |
| RulesTypes.RemovalsClearIndex | manager/src/main/java/org/openremote/manager/rules/RulesService.java:318-348 | After the facts of some attributes are retracted, none of their identities is left in the index. |
| RulesTypes.UpdatesLandInIndex | manager/src/main/java/org/openremote/manager/rules/RulesService.java:285-332 | After a run of updates, the index holds the fact of the last attribute of each name. |
| RulesTypes.Deployed | manager/src/main/java/org/openremote/manager/rules/RulesService.java:416-538 | Deploying adds ruleset ids to the key's engine. An engine exists afterwards unless there was none and nothing was deployed. |
| RulesTypes.Undeployed | manager/src/main/java/org/openremote/manager/rules/RulesService.java:438-551 | Undeploying removes the id. With no engine it is a no-op, and the engine goes exactly when its last ruleset does. |
| RulesTypes.UndeployIdempotent | manager/src/main/java/org/openremote/manager/rules/RulesService.java:438-448 | Undeploying the same ruleset twice is the same as undeploying it once. |
| RulesTypes.UndeployAbsentIsNoOp | manager/src/main/java/org/openremote/manager/rules/RulesService.java:475-486 | Undeploying a ruleset the engine does not hold changes nothing. |
| RulesTypes.DeployThenUndeploy | manager/src/main/java/org/openremote/manager/rules/RulesService.java:540-551 | Deploying a ruleset id the key does not hold and then undeploying it gives back what the key held, engine or no engine. |
| RulesTypes.IdsFor | manager/src/main/java/org/openremote/manager/rules/RulesService.java:159-174 | An id deploys under a key exactly when some ruleset of the list has that id and that key. |
| RulesTypes.DeployedTwice | manager/src/main/java/org/openremote/manager/rules/RulesService.java:263-267 | Deploying one batch of rulesets after another is the same as deploying both at once. |
| RulesTypes.IdsForConcat | manager/src/main/java/org/openremote/manager/rules/RulesService.java:159-174 | The ids a concatenation deploys under a key are those of the first list and then of the second. |
| RulesTypes.LastFor | manager/src/main/java/org/openremote/manager/rules/RulesService.java:416-538 | Finds a ruleset of the list for the key exactly when the list has one; the one found is in the list and has that key. |
| RulesTypes.FirstFor | manager/src/main/java/org/openremote/manager/rules/RulesService.java:416-538 | Finds a ruleset of the list for the key exactly when the list has one; the one found is in the list and has that key. |
| RulesTypes.LastForIsLast | manager/src/main/java/org/openremote/manager/rules/RulesService.java:416-538 | The ruleset found by LastFor sits at the last index of the list with that key. |
| RulesTypes.FirstForIsFirst | manager/src/main/java/org/openremote/manager/rules/RulesService.java:456-466 | The ruleset found by FirstFor sits at the first index with that key: the one whose deploy creates the engine and names it. |
| RulesTypes.LastForConcat | manager/src/main/java/org/openremote/manager/rules/RulesService.java:159-174 | The last ruleset for a key in a concatenation is the second list's, or the first's when the second has none. |
| RulesTypes.FirstForConcat | manager/src/main/java/org/openremote/manager/rules/RulesService.java:159-174 | The first ruleset for a key in a concatenation is the first list's, or the second's when the first has none. |
| RulesTypes.EligibleAssetRulesets | manager/src/main/java/org/openremote/manager/rules/RulesService.java:488-514 | deployAssetRulesets keeps exactly the asset rulesets whose asset is found and lies in an active tenant. |
| RulesTypes.EligibleAssetRulesetsConcat | manager/src/main/java/org/openremote/manager/rules/RulesService.java:488-514 | The filter distributes over concatenation and keeps a single ruleset exactly when it is eligible, so it keeps list order. |
| RulesTypes.ActiveTenantRulesets | manager/src/main/java/org/openremote/manager/rules/RulesService.java:164-170 | Exactly the tenant rulesets whose realm is an active tenant. |
| RulesTypes.ActiveTenantRulesetsConcat | manager/src/main/java/org/openremote/manager/rules/RulesService.java:164-170 | The filter distributes over concatenation and keeps a single ruleset exactly when it is a tenant ruleset of an active tenant, so it keeps list order. |
| RulesService.AddRuleset | manager/src/main/java/org/openremote/manager/rules/RulesService.java:433 | Adding a ruleset keeps the engine id, adds the ruleset id, keeps the others, and puts the engine in error exactly when the load failed. |
| RulesService.RemoveRuleset | manager/src/main/java/org/openremote/manager/rules/RulesService.java:438-551 | removeRuleset keeps the engine's id and error state and drops the ruleset. Removing an absent ruleset changes nothing. |
| RulesService.ReceivedConcat | manager/src/main/java/org/openremote/manager/rules/RulesService.java:600-602 | What an engine receives from two logs in a row is what it receives from each, in order. |
| RulesService.DeployedEngineStep | manager/src/main/java/org/openremote/manager/rules/RulesService.java:416-538 | Deploying one more ruleset extends the per-key error flag and engine id outcome of the list before it to the list with it. |
| RulesService.DeployedEngineConcat | manager/src/main/java/org/openremote/manager/rules/RulesService.java:159-174 | Deploying one list and then another has the error flag and engine id outcome of deploying their concatenation. |
| RulesService.DeployedEngineThrice | manager/src/main/java/org/openremote/manager/rules/RulesService.java:159-174 | Deploying three lists in a row has the error flag and engine id outcome of deploying their concatenation. |
| RulesService.DeployedThrice | manager/src/main/java/org/openremote/manager/rules/RulesService.java:159-174 | Deploying three lists in a row leaves each key holding the ids of their concatenation. |
| RulesService.ReceivedAlongChain | manager/src/main/java/org/openremote/manager/rules/RulesService.java:599-620 | Pushing one operation along a chain gives each engine one copy per place it has in the chain. |
| RulesService.ReceivedAlongChainAll | manager/src/main/java/org/openremote/manager/rules/RulesService.java:313-332 | Pushing a run of operations along a chain gives each engine every operation, in order, once per place. |
| RulesService.SeededLog | manager/src/main/java/org/openremote/manager/rules/RulesService.java:370-374 | After seeding and firing a new engine, that engine gets the seed run and exactly one more fire(). Every other engine gets nothing. |
| RulesService.OccurrencesZero | manager/src/main/java/org/openremote/manager/rules/RulesService.java:630-654 | An id occurs zero times in a chain exactly when no engine of the chain carries it. |
| RulesService.OccursOnce | manager/src/main/java/org/openremote/manager/rules/RulesService.java:630-654 | In a chain without repeated ids, an id that occurs occurs once. |
| RulesService.DispatchAllConcat | manager/src/main/java/org/openremote/manager/rules/RulesService.java:318-332 | Pushing two runs along one chain one after the other is pushing their concatenation. |
| RulesService.FirstEngineInError | manager/src/main/java/org/openremote/manager/rules/RulesService.java:588-592 | Returns None exactly when no chain engine is in error. Otherwise it returns the id of the first engine in error. |
| RulesService.RulesService.constructor | manager/src/main/java/org/openremote/manager/rules/RulesService.java:98-106 | The service starts with no engines, no active tenants, an empty fact index and no calls. |
| RulesService.RulesService.EngineKeys | manager/src/main/java/org/openremote/manager/rules/RulesService.java:416-538 | Every registered engine carries an id naming the key it sits under, and holds at least one ruleset. |
| RulesService.RulesService.GetEnginesInScope | manager/src/main/java/org/openremote/manager/rules/RulesService.java:630-654 | Returns the global engine, the realm's tenant engine, then the path's asset engines in path order, skipping missing ones. |
| RulesService.RulesService.AssetChainMembers | manager/src/main/java/org/openremote/manager/rules/RulesService.java:645-651 | The asset part of the chain holds exactly the asset engines registered for ids on the path. |
| RulesService.RulesService.ChainMembers | manager/src/main/java/org/openremote/manager/rules/RulesService.java:630-654 | The chain holds exactly the registered engines whose key is in scope of the realm and path. |
| RulesService.RulesService.ChainParts | manager/src/main/java/org/openremote/manager/rules/RulesService.java:633-651 | The chain is at most one global engine, then at most one tenant engine of the realm, then asset engines only. |
| RulesService.RulesService.ChainOrdered | manager/src/main/java/org/openremote/manager/rules/RulesService.java:633-651 | Along the chain the scope level never decreases: global, then tenant, then assets. |
| RulesService.RulesService.AssetChainDistinct | manager/src/main/java/org/openremote/manager/rules/RulesService.java:645-651 | A path without repeated asset ids gives asset engines with distinct ids. |
| RulesService.RulesService.ChainDistinct | manager/src/main/java/org/openremote/manager/rules/RulesService.java:630-654 | A path without repeated asset ids gives a chain without repeated engine ids. |
| RulesService.RulesService.OccursOnceInChain | manager/src/main/java/org/openremote/manager/rules/RulesService.java:630-654 | When the path repeats no asset id, a registered engine in scope occurs once in the chain, and any other id occurs nowhere. |
| RulesService.RulesService.PushedAlongChain | manager/src/main/java/org/openremote/manager/rules/RulesService.java:599-602 | When the path repeats no asset id, one fact operation pushed along the chain reaches each registered in-scope engine exactly once, and no other engine. |
| RulesService.RulesService.PushedRunAlongChain | manager/src/main/java/org/openremote/manager/rules/RulesService.java:313-332 | When the path repeats no asset id, a run of fact operations reaches each registered in-scope engine whole and in order, exactly once, and no other engine. |
| RulesService.RulesService.PushToChain | manager/src/main/java/org/openremote/manager/rules/RulesService.java:600-602 | Appends one call per chain engine, in chain order, and changes nothing else. |
| RulesService.RulesService.UpdateAssetState | manager/src/main/java/org/openremote/manager/rules/RulesService.java:578-604 | It fails exactly when the check is on and a chain engine is in error: it names the first such engine and changes nothing. Otherwise it replaces the fact of that identity and pushes updateFact along the chain. |
| RulesService.RulesService.InsertAssetEvent | manager/src/main/java/org/openremote/manager/rules/RulesService.java:553-576 | If any chain engine is in error, it does nothing. Otherwise it pushes insertFact along the chain. The index is never touched. |
| RulesService.RulesService.RetractAssetState | manager/src/main/java/org/openremote/manager/rules/RulesService.java:606-621 | Removes the fact's identity from the index and pushes removeFact along the chain, which may be empty. |
| RulesService.RulesService.DeployGlobalRuleset | manager/src/main/java/org/openremote/manager/rules/RulesService.java:416-436 | Adds the ruleset to the global engine, creating it if there is none, and returns the engine exactly when it was created. Error state comes from the load, the id is kept, and other keys are unchanged. |
| RulesService.RulesService.UndeployGlobalRuleset | manager/src/main/java/org/openremote/manager/rules/RulesService.java:438-448 | Removes the ruleset and drops the engine with its last ruleset. With no engine, or a ruleset it does not hold, nothing changes. Other keys are unchanged. |
| RulesService.RulesService.DeployTenantRuleset | manager/src/main/java/org/openremote/manager/rules/RulesService.java:450-473 | computeIfAbsent on the realm: same contract as the global deploy, keyed by the realm. |
| RulesService.RulesService.UndeployTenantRuleset | manager/src/main/java/org/openremote/manager/rules/RulesService.java:475-486 | Same contract as the global undeploy, keyed by the realm. |
| RulesService.RulesService.DeployAssetRuleset | manager/src/main/java/org/openremote/manager/rules/RulesService.java:516-538 | computeIfAbsent on the asset, and a new engine's id carries the ruleset's realm. Otherwise the same contract as the global deploy. |
| RulesService.RulesService.UndeployAssetRuleset | manager/src/main/java/org/openremote/manager/rules/RulesService.java:540-551 | Same contract as the global undeploy, keyed by the asset. |
| RulesService.RulesService.DeployRuleset | manager/src/main/java/org/openremote/manager/rules/RulesService.java:364-409 | Dispatches on the ruleset's class and carries the contract of the matching deploy. |
| RulesService.RulesService.UndeployRuleset | manager/src/main/java/org/openremote/manager/rules/RulesService.java:364-371 | Dispatches on the ruleset's class and carries the contract of the matching undeploy. |
| RulesService.RulesService.DeployEach | manager/src/main/java/org/openremote/manager/rules/RulesService.java:159-174 | After deploying a list, every key holds what it held plus the ids of the list's rulesets for that key; a key the list touches has an engine whose error flag is that of its last deployed ruleset and whose id is the one it had or, when new, the one the first ruleset for the key names; other keys keep their engine. |
| RulesService.RulesService.DeployAssetRulesets | manager/src/main/java/org/openremote/manager/rules/RulesService.java:488-514 | Deploys exactly the eligible asset rulesets (found asset, active tenant), with the same error flag and engine id outcome per key as deploying that list one by one. |
| RulesService.RulesService.StopEach | manager/src/main/java/org/openremote/manager/rules/RulesService.java:192-198 | Calls stop() exactly once on each engine of the set and makes no other call. |
| RulesService.RulesService.SeedEngine | manager/src/main/java/org/openremote/manager/rules/RulesService.java:370-402 | Gives the engine one deferred updateFact per fact of the set, then exactly one fire(). |
| RulesService.RulesService.ProcessRulesetChange | manager/src/main/java/org/openremote/manager/rules/RulesService.java:362-410 | On delete or disable it undeploys; an engine that survives keeps its id and error flag. Otherwise it deploys the ruleset, or the reloaded asset ruleset, keeping an existing engine's id; a missing reload changes nothing. Only a newly created engine is seeded with its in-scope facts and fired once. |
| RulesService.OutsideRealm | manager/src/main/java/org/openremote/manager/rules/RulesService.java:257-259 | removeIf keeps exactly the asset engines whose id does not carry the realm, unchanged. |
| RulesService.InRealmIds | manager/src/main/java/org/openremote/manager/rules/RulesService.java:254-256 | The ids of exactly the asset engines whose id carries the realm: those stopped. |
| RulesService.RulesService.RemoveRealmEngines | manager/src/main/java/org/openremote/manager/rules/RulesService.java:245-259 | Stops and removes the realm's tenant engine and exactly the asset engines whose id carries the realm, each stopped once. No engine of the realm is left. |
| RulesService.RulesService.ProcessTenantChange | manager/src/main/java/org/openremote/manager/rules/RulesService.java:233-271 | Always refreshes the active tenants. No change of enabled state means nothing else happens. Disabling removes the realm's engines; enabling deploys its tenant and eligible asset rulesets, with error flags and engine ids as for deploying that list one by one. |
| RulesService.RulesService.UpdateEach | manager/src/main/java/org/openremote/manager/rules/RulesService.java:285-332 | Index and calls are those of updating each attribute's fact in list order, skipping the error check and firing immediately. |
| RulesService.RulesService.PushInitialStates | manager/src/main/java/org/openremote/manager/rules/RulesService.java:176-188 | The index and the calls are those of pushing every rule-state attribute of each stored asset, in order, through the chain that asset is in scope of. |
| RulesService.RulesService.DeployAtStart | manager/src/main/java/org/openremote/manager/rules/RulesService.java:159-174 | Refreshes the active tenants and deploys global, active-tenant and eligible asset rulesets: per key the ids of that whole list, error flags and engine ids as for deploying it one by one. |
| RulesService.RulesService.Start | manager/src/main/java/org/openremote/manager/rules/RulesService.java:159-189 | The deploys of DeployAtStart, then the index and calls of PushInitialStates over the stored assets; the registry stays valid. |
| RulesService.RulesService.RetractEach | manager/src/main/java/org/openremote/manager/rules/RulesService.java:318-348 | Index and calls are those of retracting each attribute's fact in list order. |
| RulesService.RulesService.ProcessAssetChange | manager/src/main/java/org/openremote/manager/rules/RulesService.java:273-360 | Index and calls follow the insert, update and delete operations of the change, routed along the chain of the asset the facts are built from. |
| RulesService.RulesService.ProcessAssetUpdate | manager/src/main/java/org/openremote/manager/rules/RulesService.java:207-231 | A rule-state attribute is updated with the error check, firing immediately unless it is also an event; an error ends the call. A rule event is then inserted with its own expiry or the default. The update is never consumed. |
| RulesService.RulesService.Stop | manager/src/main/java/org/openremote/manager/rules/RulesService.java:192-204 | Stops every asset engine once, then every tenant engine once, then the global engine, leaving the registry empty. |
| WebService.RealmSpan | container/src/main/java/org/openremote/container/web/WebService.java:82-83 | The greedy span of the realm class: every character in it is in the class, and the next one is not. |
| WebService.SpanOfRealm | container/src/main/java/org/openremote/container/web/WebService.java:82-83 | A realm followed by a character outside the class spans exactly the realm. |
| WebService.MatchesRealmRoot | container/src/main/java/org/openremote/container/web/WebService.java:195 | No contract of its own: MatchesRealmRootIff states that it holds exactly for `/<realm>` and `/<realm>/`. |
| WebService.MatchesRealmRootIff | container/src/main/java/org/openremote/container/web/WebService.java:82 | The root pattern matches exactly `/<realm>` and `/<realm>/`. |
| WebService.MatchRealmSub | container/src/main/java/org/openremote/container/web/WebService.java:203-211 | No contract of its own: MatchRealmSubIff states that it yields (realm, rest) exactly for `/<realm>/<rest>`, and NoSubMatch that None means no such reading. |
| WebService.MatchRealmSubIff | container/src/main/java/org/openremote/container/web/WebService.java:83 | The sub pattern gives (realm, rest) exactly when the path is `/<realm>/<rest>`, where rest has no line terminator. |
| WebService.NoSubMatch | container/src/main/java/org/openremote/container/web/WebService.java:83 | A path the sub pattern rejects has no `/<realm>/<rest>` reading. |
| WebService.FirstPrefix | container/src/main/java/org/openremote/container/web/WebService.java:166-176 | Returns the first prefix route, in insertion order, that the path starts with, or None when there is none. |
| WebService.Route | container/src/main/java/org/openremote/container/web/WebService.java:161-222 | No contract of its own: RouteFirstPrefixWins, RouteNoPrefix, RouteRedirect, RouteJsApi, RouteRealmIndex, RouteRealmSub and RouteNotFound state each branch, both directions where the source tests a condition. |
| WebService.RouteFirstPrefixWins | container/src/main/java/org/openremote/container/web/WebService.java:166-176 | The first matching prefix route handles the request, whatever else would match. |
| WebService.RouteNoPrefix | container/src/main/java/org/openremote/container/web/WebService.java:166-176 | A prefix route is chosen exactly when some prefix matches. |
| WebService.RouteRedirect | container/src/main/java/org/openremote/container/web/WebService.java:179-184 | Without a prefix match, exactly `/` is redirected, and it goes to the default realm. |
| WebService.RouteJsApi | container/src/main/java/org/openremote/container/web/WebService.java:188-192 | Next, the JS API takes exactly the `/jsapi...` paths, and only when it exists. |
| WebService.RouteRealmIndex | container/src/main/java/org/openremote/container/web/WebService.java:195-200 | Next, the realm index takes exactly `/<realm>` and `/<realm>/`, and only when its handler exists. |
| WebService.RouteRealmSub | container/src/main/java/org/openremote/container/web/WebService.java:211-222 | Next, a path is served under realm r with path `/` + rest exactly when it reads `/r/rest`. |
| WebService.RouteNotFound | container/src/main/java/org/openremote/container/web/WebService.java:203-208 | Next, a path is not found exactly when it has no `/<realm>/<rest>` reading. |
| WebService.RouteRootExample | container/src/main/java/org/openremote/container/web/WebService.java:179-184 | `/` is redirected to the default realm. |
| WebService.RouteRealmRootExample | container/src/main/java/org/openremote/container/web/WebService.java:195-208 | `/master` gets the realm index when its handler exists, and is not found otherwise. |
| WebService.RouteRealmSubExample | container/src/main/java/org/openremote/container/web/WebService.java:211-222 | `/r1/x` is served under realm r1 with path `/x`. |
| WebService.RouteJsApiExample | container/src/main/java/org/openremote/container/web/WebService.java:188-192 | A `/jsapi/...` path goes to the JS API. |
| WebService.RoutePrefixExample | container/src/main/java/org/openremote/container/web/WebService.java:166-176 | Of two prefixes a path starts with, the one registered first wins. |
| WebService.RouteNotFoundExample | container/src/main/java/org/openremote/container/web/WebService.java:203-208 | A path whose first segment has a character outside the realm class is not found. |
| WebService.IndexFrom | container/src/main/java/org/openremote/container/web/WebService.java:105 | Returns the first index at or after the start where the string occurs, or -1 exactly when it occurs nowhere there. |
| WebService.IndexOf | container/src/main/java/org/openremote/container/web/WebService.java:105 | No contract of its own: IndexFrom from index 0; IndexOfZeroIff states that 0 means a prefix. |
| WebService.IndexOfZeroIff | container/src/main/java/org/openremote/container/web/WebService.java:105 | `indexOf(p) == 0` holds exactly when the host starts with p, so the source's test is a prefix test. |
| WebService.IsLocalListenHost | container/src/main/java/org/openremote/container/web/WebService.java:105 | No contract of its own: ContainerHost states it as a case-insensitive `localhost` or a `127` or `0.0.0.0` prefix, through IndexOfZeroIff. |
| WebService.ContainerHost | container/src/main/java/org/openremote/container/web/WebService.java:105-107 | Advertises the local address exactly for a listen host equal to `localhost` ignoring case, or starting with `127` or `0.0.0.0`; otherwise the listen host itself. |
| WebService.ContainerHostExamples | container/src/main/java/org/openremote/container/web/WebService.java:64-107 | The default 127.0.0.1, `LocalHost` and 0.0.0.0 advertise the local address. A LAN address and `localhost.example` are kept. |
| WebService.WebService.constructor | container/src/main/java/org/openremote/container/web/WebService.java:91 | Starts with no prefix routes and the given handler and realm configuration. |
| WebService.WebService.AddPrefixRoute | container/src/main/java/org/openremote/container/web/WebService.java:350-355 | A new key is appended, and an existing key keeps its place, so keys stay distinct. |
| WebService.PutHeader | container/src/main/java/org/openremote/container/web/WebService.java:214 | After the put, the name holds the new value, no other header folds to that name, and every header of another name is kept unchanged. |
| WebService.PutHeaderReplacesOtherCase | container/src/main/java/org/openremote/container/web/WebService.java:214 | A client's `auth-realm: other` is replaced by the single `Auth-Realm: r1`; other headers stay. |
| WebService.WebService.HandleRequest | container/src/main/java/org/openremote/container/web/WebService.java:161-222 | The decision is Route's. For a realm root the relative path becomes `/index.html`; for not-found the status becomes 404. A realm sub request gets the Auth-Realm header, replacing any realm header in another letter case, and the rewritten path. No other change is made. |
| WebService.HttpServerExchange.constructor | container/src/main/java/org/openremote/container/web/WebService.java:161-162 | A fresh exchange for a path: request and relative path equal the path, status 200. |
| RulesTenantPlace.GetPlace | manager/client/src/main/java/org/openremote/manager/client/rules/tenant/RulesTenantPlace.java:43-45 | The place has no realm exactly when the token is null or empty. Otherwise the realm is the token. |
| RulesTenantPlace.GetToken | manager/client/src/main/java/org/openremote/manager/client/rules/tenant/RulesTenantPlace.java:48-50 | The token is the realm, or empty for a place without realm. |
| RulesTenantPlace.TokenRoundTrip | manager/client/src/main/java/org/openremote/manager/client/rules/tenant/RulesTenantPlace.java:43-50 | Every non-null token, the empty one included, survives a trip through its place. |
| RulesTenantPlace.PlaceRoundTrip | manager/client/src/main/java/org/openremote/manager/client/rules/tenant/RulesTenantPlace.java:43-50 | A place whose realm is null or non-empty survives a trip through its token. |
| RulesTenantPlace.EmptyRealmCollapses | manager/client/src/main/java/org/openremote/manager/client/rules/tenant/RulesTenantPlace.java:43-50 | An empty realm and a null realm give the same token, and both come back as a null realm. |
| RulesTenantPlace.NullTokenBecomesEmpty | manager/client/src/main/java/org/openremote/manager/client/rules/tenant/RulesTenantPlace.java:43-50 | A null token is not restored: it comes back as the empty token. |
| RulesTenantPlace.PlaceNormalForm | manager/client/src/main/java/org/openremote/manager/client/rules/tenant/RulesTenantPlace.java:43-50 | Printing and re-parsing a parsed place gives the same place. |
| RulesTenantPlace.GetTokenInjective | manager/client/src/main/java/org/openremote/manager/client/rules/tenant/RulesTenantPlace.java:48-50 | Places with the same token are equal unless one realm is empty. |

## Left out

- Locking: every public operation runs under the service's lock (`withLock`). The model runs each operation as one sequential method, so interleavings are not modelled. `retractAssetState` takes no lock; that is not modelled either.
- The rules engines' internals are left out: compiling and loading rulesets, firing rules, event expiry and the knowledge sessions. An engine is its id, its ruleset ids and an error flag; the facts, fire() and stop() it receives are the call log.
- `AddRuleset`, `RemoveRuleset` and the methods that push facts or fire engines (`PushToChain`, `UpdateAssetState`, `InsertAssetEvent`, `RetractAssetState`, `SeedEngine`, `UpdateEach`, `RetractEach`, `ProcessAssetUpdate`, `ProcessAssetChange`, `PushInitialStates`, `Start`): an engine's error flag is set only by a ruleset load (`AddRuleset`), and removing a ruleset keeps it. An error raised while an engine's rules run on `updateFact` or `fire()` is not modelled. So in the model, pushing facts never puts an engine in error and never blocks a later checked update or event insert on the same chain, as it can in the source (RulesService.java:577-592).
- RulesEngine objects are values: there is no in-place update or aliasing of engine objects. An engine is identified by its id, so an engine re-created under the same key has the id of the one before it.
- The engine's own stop when its last ruleset is removed happens inside the engine and is not in the call log. The service side, dropping the engine from the registry, is modelled.
- The event routes (`configure`: ruleset, tenant and asset persistence events) are left out. Each event is a direct call of the matching `Process...` method.
- Store and identity-provider queries are parameters, because they are I/O:
  - the reloaded asset ruleset;
  - the loaded asset;
  - the realm of each found asset;
  - the new active tenant ids;
  - the enabled tenant and asset rulesets of a realm;
  - which ruleset loads fail (`loadFailed`, `failing`).
- `processAssetChange` on UPDATE: the attribute diff of the previous and current JSON state (`getAddedOrModifiedAttributes`, with the timestamp field ignored) is an input pair (`obsolete`, `added`), because it is JSON parsing outside this class.
- `processAssetChange` on INSERT reloads the asset for every attribute. The model uses one lookup for the whole event, because the store is a parameter.
- `Start`: the `findAll` asset query inside `findRuleStateAttributes` (RulesService.java:657-664) is a store query; its result is the `ruleAssets` parameter, a list of assets. The filter of each asset's attributes to its rule-state ones (RulesService.java:668-670) is modelled, by `PushInitialStates` through `RuleStateAttributes`.
- `AssetState` omits the fact's source (`Source.INTERNAL` at start, the caller's source on updates) and its timestamp, because nothing in the modelled core reads either.
- `ProcessRulesetChange`: the source passes a missing reload (the store finds no enabled asset ruleset) straight to `deployAssetRuleset`, which fails with a null dereference. The model reports this as `reloadMissing` and changes nothing.
- `ProcessTenantChange`: when a realm is enabled again, its rulesets are deployed without seeding facts into the new engines, as in the source.
- `DeployAssetRulesets`: the group by asset, then by realm, just filters to the eligible rulesets. The model deploys them in list order. The source's order follows hash-map grouping and is not specified.
- `StopEach` and `SeedEngine`: hash-set and hash-map iteration order is not fixed. The model picks elements in any order and proves every element is used once.
- The `HashSet<AssetState>` fact set, whose equality is by attribute identity, is a map keyed by identity. Its iteration order is not modelled.
- `insertAssetEvent`'s expiry string is passed unchanged. Parsing it is engine-internal.
- `WebService.HandleRequest`: the Undertow and RESTEasy handlers it hands over to are not run; the decision names them. The exception wrapper that turns the 404 `WebApplicationException` into a response is the `NotFound` decision.
- `WebService.HandleRequest`: the redirect URL built from the request URL, the `setRequestURI` rewrite, and the URI builder's percent-encoding and template handling are not modelled. The new path is `/` followed by the rest of the path.
- `WebService.HandleRequest`: a header name holds one value in the model. Undertow's `HeaderMap` holds a list of values per name; `put` replaces that whole list, across letter cases, with the realm, which `PutHeader` models.
- `WebService.EqualsIgnoreCase`: folds ASCII letters only. Java's `equalsIgnoreCase` also folds some non-ASCII characters (such as U+0130 and U+017F) to ASCII letters.
- `WebService.ContainerHost`: the local IPv4 address is a parameter, because looking it up is I/O. The rest of `init` (port, dev mode, the Undertow and RESTEasy setup) and the container host URI are not modelled.
- Logging calls are not modelled.
