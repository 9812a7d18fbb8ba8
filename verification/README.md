# Agent backend: update planner and deployment queue

A Dafny model of the core of `functions/agent-backend`, with proofs about it. The backend
deploys "apps". An app is an architecture of services, layers and resources, rolled out by a
workflow engine. The model covers two parts.

**The update planner (`App.js`).** It compares a wanted architecture with the deployed state
and produces an ordered plan of create, update and delete steps:

- `computeUpdateMask` (module `UpdateMask`): the structural diff of two JSON objects.
- `servicesSteps` and `serviceLayersSteps` (`IdSteps`).
- `resourcesSteps` (`ResourceSteps`).
- `permissionsSteps` (`Permissions`).
- The numbering and filtering of the plan in `getAppUpdatePlan` (`PlanAssembly`).

Next to the planner, module `Apps` covers:

- the status decision of `getAppStatus`;
- the admission checks and writes of `putApp`;
- the bounded search of `generateAppShortId`.

**The deployment queue (`DeploymentQueue.js`, module `DeploymentQueue`).** A deployment moves
`PENDING -> DEPLOYING -> DEPLOYED | FAILED | CANCELLED`, or `PENDING -> SKIPPED`. Three passes
drive it:

- reconciliation with the engine (`updateRunningDeployments`);
- propagation of a deployment's outcome to the app (`updateDeployingApp`);
- FIFO admission (`checkPendingDeployment`, with the `isFirst…`/`isLast…` queries).

**Supporting modules.**

- `Json` models JSON values. An object is an ordered list of key/value pairs, so key order
  fixes the order of paths and steps. `Json` also holds the JavaScript-style accessors the
  source relies on (`Object.keys`/`Object.values`, `obj?.prop`, truthiness, template strings).
- `Steps` holds the plan's step records and categories.
- `Engine` holds the execution states of the workflow engine.
- `Wrappers` holds `Option` and `Result`.

**How state is modelled.**

- Code that updates stored documents or local arrays in place is written as methods with
  loops. Each method's `ensures` ties its result to a specification function. The properties
  are lemmas about those functions.
- The Firestore documents are the fields of two classes:
  - `Apps.AppRegistry` holds the `apps` collection and its `deployments` sub-collections.
  - `DeploymentQueue.DeploymentQueue` holds one app document and its deployments.
- Outside inputs are parameters: the clock, `nanoid` draws, uuids, and the engine's
  `getExecution`/`createExecution` answers.

## Model

| member | source | states |
|---|---|---|
| UpdateMask.MaskMeaning | functions/agent-backend/App.js:371-394 | a path is listed as added/removed/modified iff it lies below `parent` and the reference definition `ChangedAt` holds for its relative part: at the last key, added = only in `next`, removed = only in `curr`, modified = on both sides with different values and `curr`'s not an object; every key above names an object in `curr` present in `next` |
| UpdateMask.MaskOfSelf | functions/agent-backend/App.js:371-394 | `computeUpdateMask(x, x)` returns three empty lists, at any nesting depth |
| UpdateMask.NeedsUpdateMeaning | functions/agent-backend/App.js:549-550 | a resource needs an update iff some path of it was added, removed or modified in the reference sense |
| UpdateMask.ReportedIsChange | functions/agent-backend/App.js:371-394 | every non-empty list of the mask comes from a real change |
| UpdateMask.ChangeIsReported | functions/agent-backend/App.js:371-394 | every real change makes its list non-empty |
| UpdateMask.ObjectKeyMeaning | functions/agent-backend/App.js:385-391 | under a key holding an object, the nested diff reports exactly the changes below that key, never the key itself |
| UpdateMask.LeafKeyMeaning | functions/agent-backend/App.js:380-384 | under a key holding an array or a scalar, only the key itself can be reported, and only as modified, iff the two values differ |
| UpdateMask.Extend | functions/agent-backend/App.js:375-376 | the `parent.k` paths for the keys of one side missing from the other: exactly those paths |
| UpdateMask.DottedRoundTrip | functions/agent-backend/App.js:375-383 | splitting the reported string `parent.k` of a path at its dots gives back the path's keys, when no key is empty or holds a dot; the string is never empty |
| UpdateMask.DottedAllRoundTrip | functions/agent-backend/App.js:375-383 | every path of a mask list is recovered from the string reported for it, so two different paths of plain keys are never reported as the same string |
| UpdateMask.Example | functions/agent-backend/App.js:371-394 | `{a:1,b:{c:2}}` against `{a:1,b:{c:3,d:4}}` gives added `["b.d"]`, removed `[]`, modified `["b.c"]` |
| UpdateMask.InnerExample | functions/agent-backend/App.js:385-391 | the nested level of that example: below `b`, `b.d` is added and `b.c` modified |
| IdSteps.Missing | functions/agent-backend/App.js:407-408 | `xs.filter(x => !ys.includes(x))` holds exactly the elements of `xs` absent from `ys` |
| IdSteps.MissingConcat | functions/agent-backend/App.js:407-408 | the filter keeps the order of its input (it distributes over concatenation) |
| IdSteps.Diff | functions/agent-backend/App.js:406-420 | create = wanted ids not deployed; delete = deployed ids not wanted; the two lists are disjoint; both are empty iff the id sets coincide |
| IdSteps.ServicesSteps | functions/agent-backend/App.js:406-409 | `createServices` holds exactly the wanted services with no key in `state.services`; `deleteServices` holds exactly the deployed keys no longer wanted; both are empty iff the sets coincide |
| IdSteps.ServiceLayersSteps | functions/agent-backend/App.js:417-420 | the same for layers and `state.layers` |
| IdSteps.ServiceSteps | functions/agent-backend/App.js:407-408 | `ids.map(serviceId => ({serviceId}))`, element by element |
| IdSteps.LayerSteps | functions/agent-backend/App.js:418-419 | `ids.map(layerId => ({layerId}))`, element by element |
| ResourceSteps.CollectDeployed | functions/agent-backend/App.js:509-513 | the loop collects the deployed resources the specification function `DeployedResources` defines |
| ResourceSteps.DeployedResourcesGet | functions/agent-backend/App.js:509-513 | a deployed id maps to its `.resource` exactly when that is truthy; entries without `.resource` are ignored |
| ResourceSteps.WithoutDependencies | functions/agent-backend/App.js:519-520 | the spread copy keeps every key, and `dependencies` becomes `{}` iff it was non-empty |
| ResourceSteps.WithoutDependenciesKeepsOthers | functions/agent-backend/App.js:519-520 | no property other than `dependencies` changes |
| ResourceSteps.AddedSteps | functions/agent-backend/App.js:515-527 | the loop over new resources pushes the create, create-wrapper and update steps of the specification |
| ResourceSteps.DeletedSteps | functions/agent-backend/App.js:529-543 | the loop over removed resources pushes the update, delete and delete-wrapper steps of the specification |
| ResourceSteps.ExistingSteps | functions/agent-backend/App.js:545-555 | the loop over kept resources pushes the update steps of the specification |
| ResourceSteps.ResourcesSteps | functions/agent-backend/App.js:501-561 | the five lists are those of `ResourcesPlan` |
| ResourceSteps.CollectAt | functions/agent-backend/App.js:515-543 | a step is in a routed list iff its id is new (or removed), readable, and routed there |
| ResourceSteps.ExistingUpdatesAt | functions/agent-backend/App.js:545-555 | a kept resource has an update step, carrying the wanted resource, iff its update mask is non-empty |
| ResourceSteps.NewResourceSteps | functions/agent-backend/App.js:515-527 | a new non-wrapper gets a create step with `dependencies` emptied, plus an update step with the full resource iff it has dependencies; a new wrapper gets only a create-wrapper step; no delete steps |
| ResourceSteps.RemovedResourceSteps | functions/agent-backend/App.js:529-543 | a removed non-wrapper gets a delete step with the original, plus an update step with dependencies stripped iff it has some; a removed wrapper gets only a delete-wrapper step; no create steps |
| ResourceSteps.ExistingResourceSteps | functions/agent-backend/App.js:545-555 | a resource on both sides gets an update step iff its mask is non-empty, and no other step |
| ResourceSteps.UnknownResourceNoSteps | functions/agent-backend/App.js:509-555 | an id on neither side (including a deployed entry without `.resource`) gets no step |
| Permissions.RoleString | functions/agent-backend/App.js:449 | the role string `service:resourceId:role` is as long as its three parts and two colons |
| Permissions.SplitAtColon | functions/agent-backend/App.js:465 | `split(':')` of two strings joined by a colon is the two splits concatenated |
| Permissions.ParseRoleString | functions/agent-backend/App.js:465 | when no part holds a colon, destructuring the split role string gives back the grant |
| Permissions.ColonInServiceName | functions/agent-backend/App.js:465 | the round trip fails otherwise: service `a:b` comes back as service `a`, resource `b`, role `db` |
| Permissions.GrantsRoundTrip | functions/agent-backend/App.js:465 | a list of grants stored as `${service}:${resourceId}:${role}` strings is read back by the `split(':')` destructuring as exactly the same grants, in order, when no part holds a colon |
| Permissions.AddRole | functions/agent-backend/App.js:450-451 | `hasOwnProperty`/`includes`/`push` add the role once, append a new target to the key order, and change nothing else |
| Permissions.AddDependencies | functions/agent-backend/App.js:448-452 | the loop over one resource's dependencies folds its (target, role) pairs into the groups |
| Permissions.CollectStateGroups | functions/agent-backend/App.js:447-453 | the deployed grants are grouped as `StateGroups` defines (resources with a truthy `resource?.dependencies`) |
| Permissions.CollectArchGroups | functions/agent-backend/App.js:455-461 | the wanted grants are grouped as `ArchGroups` defines (resources with truthy `dependencies`) |
| Permissions.GroupMeaning | functions/agent-backend/App.js:447-461 | the groups are well formed with duplicate-free role lists; a target is present iff some pair names it; a role is listed for a target iff that pair was derived |
| Permissions.GroupsMeaning | functions/agent-backend/App.js:447-461 | the same for the deployed and the wanted groups of a plan |
| Permissions.Dedup | functions/agent-backend/App.js:481 | `[...new Set(xs)]` has no duplicates and the same elements |
| Permissions.MergeDistinct | functions/agent-backend/App.js:476-481 | prev and the added roles together are already duplicate-free, so the `Set` keeps them as they are |
| Permissions.PushSteps | functions/agent-backend/App.js:463-490 | each diff loop pushes the steps `DiffSteps` defines for its targets, in key order |
| Permissions.PermissionsSteps | functions/agent-backend/App.js:441-493 | the create and delete lists are those of `PermissionsPlan` |
| Permissions.NewTargetSteps | functions/agent-backend/App.js:463-466 | a target only wanted gets exactly one create step, with its full grant list, and no delete step |
| Permissions.GoneTargetSteps | functions/agent-backend/App.js:468-471 | a target only deployed gets exactly one delete step, with its prior grant list, and no create step |
| Permissions.KeptTargetSteps | functions/agent-backend/App.js:473-490 | a kept target gets a create step iff it gained roles, listing prev then the gained ones; and a delete step iff it lost roles, listing the next (surviving) roles, not the removed ones |
| Permissions.SameRolesNoSteps | functions/agent-backend/App.js:473-490 | a target whose role set did not change gets no step |
| PlanAssembly.NumberFromMeaning | functions/agent-backend/App.js:286-290 | numbering with `i++` drops no step and reorders none; the ids are strictly increasing and are exactly `start` to `start + n - 1` |
| PlanAssembly.NumberSteps | functions/agent-backend/App.js:286-290 | the counter loop over one category numbers its steps and leaves the counter past them |
| PlanAssembly.NumberPlan | functions/agent-backend/App.js:286-289 | numbering keeps the categories and their order |
| PlanAssembly.DropEmpty | functions/agent-backend/App.js:292 | after the filter every remaining category has steps |
| PlanAssembly.NumberFromConcat | functions/agent-backend/App.js:286-290 | numbering two runs of steps is numbering the first, then the second from where the first stopped |
| PlanAssembly.AssemblePlan | functions/agent-backend/App.js:285-292 | the loop over the categories yields `Assembled(plan)` |
| PlanAssembly.AssembledMeaning | functions/agent-backend/App.js:285-292 | step ids are 0, 1, 2, … in category order, then step order; every step keeps its fields; the categories left are exactly the non-empty ones, in order |
| PlanAssembly.UpdatePlanObject | functions/agent-backend/App.js:269-283 | the plan object declares its nine categories in this order |
| PlanAssembly.GetAppUpdatePlan | functions/agent-backend/App.js:259-293 | the plan is the assembly of the services and layers steps (the two step functions that run) |
| PlanAssembly.UpdatePlanOrder | functions/agent-backend/App.js:269-292 | ids run through created services, created layers, deleted layers, deleted services; only non-empty categories remain |
| PlanAssembly.UpToDatePlanIsEmpty | functions/agent-backend/App.js:259-293 | when the wanted and deployed id sets coincide, the plan is empty |
| Engine.StateNamed | functions/agent-backend/DeploymentQueue.js:12-18 | each of the five `State.Execution` names is read as its state, and exactly the other names become `Unlisted`, keeping the name |
| Engine.StateNamedRoundTrip | functions/agent-backend/DeploymentQueue.js:12-18 | every state whose `Unlisted` name is none of the five is read back from its name |
| Apps.StatusOf | functions/agent-backend/App.js:195-200 | an engine state maps into DEPLOYING, CANCELLED, DEPLOYED, FAILED or UNKNOWN |
| Apps.AppStatus | functions/agent-backend/App.js:169-205 | a missing app is NOT_YET_DEPLOYED; the decision fails (the engine call rejects) iff the app points to an existing deployment whose execution is not `CREATING` and the engine does not answer |
| Apps.NoDeploymentUnknown | functions/agent-backend/App.js:175-178 | an app with no deployment id, or whose deployment is missing, is UNKNOWN |
| Apps.CreationTimeoutRule | functions/agent-backend/App.js:180-189 | while `CREATING`: UNKNOWN without `deployedAt`; otherwise FAILED iff more than 60000 ms have passed, DEPLOYING iff at most |
| Apps.CreationAtTimeoutStillDeploying | functions/agent-backend/App.js:185 | exactly 60000 ms after `deployedAt` the app is still DEPLOYING |
| Apps.EngineStatus | functions/agent-backend/App.js:192-200 | ACTIVE gives DEPLOYING, CANCELLED gives CANCELLED, SUCCEEDED gives DEPLOYED, FAILED gives FAILED, and every other state gives UNKNOWN, each iff |
| Apps.BlockingStatuses | functions/agent-backend/App.js:94-101 | exactly DEPLOYING and CANCELLED refuse a new deployment |
| Apps.ShortIdMeaning | functions/agent-backend/App.js:60-71 | the id found is a draw among the first 100 that no app holds, and every earlier draw was taken; no id is found iff all 100 draws were taken |
| Apps.AppRegistry.GenerateAppShortId | functions/agent-backend/App.js:60-71 | the bounded retry loop returns the id `ShortIdFrom` defines |
| Apps.StalePlanRejected | functions/agent-backend/App.js:90-91 | an existing app whose `deployedAt` differs from `deploymentPoint`, or a missing app with a truthy `deploymentPoint`, is refused and nothing is written |
| Apps.BusyAppRejected | functions/agent-backend/App.js:93-101 | a DEPLOYING or CANCELLED app is refused and nothing is written |
| Apps.PutAppAccepts | functions/agent-backend/App.js:85-160 | the transaction commits iff the plan's deployment point is the app's `deployedAt` (a new app: none is set), the status is read and admits a deployment, and an existing app or a found short id supplies the short id; the whole request succeeds iff, in addition, the workflow started |
| Apps.TransactionWrites | functions/agent-backend/App.js:103-129 | on commit, the app records the new deployment id and time, keeps `appId` and `appShortId` if it existed (or gets an unused, non-empty short id), no other app changes, and the deployment document is written with `execution == 'CREATING'` |
| Apps.PutAppWrites | functions/agent-backend/App.js:80-160 | the same after the workflow start: the execution name replaces `CREATING` only when the workflow started |
| Apps.PutAppKeepsShortIdsUnique | functions/agent-backend/App.js:103-113 | `putApp` never gives two apps the same short id |
| Apps.AppRegistry.Commit | functions/agent-backend/App.js:85-131 | the transaction updates the collections as `Transaction` defines |
| Apps.AppRegistry.PutApp | functions/agent-backend/App.js:80-160 | `putApp` updates the collections as `PutAppEffect` defines |
| DeploymentQueue.IdLessTotal | functions/agent-backend/DeploymentQueue.js:253-281 | two distinct document ids are ordered one way or the other |
| DeploymentQueue.EarlierOrder | functions/agent-backend/DeploymentQueue.js:258 | (`createdAt`, id) is a strict total order on the documents |
| DeploymentQueue.QueueHeads | functions/agent-backend/DeploymentQueue.js:253-281 | each query selects exactly one document when its filter selects any, and none when the filtered set is empty |
| DeploymentQueue.CreateApp | functions/agent-backend/DeploymentQueue.js:123-137 | an existing app is left untouched; a missing one is created as `{state: CREATED, createdAt}`; deployments do not change |
| DeploymentQueue.PutDeploymentQueues | functions/agent-backend/DeploymentQueue.js:55-92 | the app exists afterwards; a PENDING deployment is written under the uuid with `createdAt == checkedAt == now`, holding the execution name once it started; it is returned iff the workflow started; no other deployment changes |
| DeploymentQueue.PutDeploymentKeepsOrder | functions/agent-backend/DeploymentQueue.js:55-92 | a deployment created after every other one keeps the queue orderly |
| DeploymentQueue.ReadExecutions | functions/agent-backend/DeploymentQueue.js:182-213 | the executions of all PENDING and DEPLOYING deployments are read, or the pass fails when one cannot be |
| DeploymentQueue.SettleAll | functions/agent-backend/DeploymentQueue.js:214-242 | every running deployment takes the outcome of its execution |
| DeploymentQueue.ReconcileOutcome | functions/agent-backend/DeploymentQueue.js:216-241 | SUCCEEDED gives DEPLOYED, CANCELLED gives CANCELLED, FAILED or STATE_UNSPECIFIED gives FAILED, each stamping `checkedAt` and `completedAt`; ACTIVE or any other state leaves the deployment exactly as it was; ids, times and files never change |
| DeploymentQueue.TerminalStatesAbsorb | functions/agent-backend/DeploymentQueue.js:218-219 | DEPLOYED, FAILED, CANCELLED and SKIPPED deployments are never modified by the pass |
| DeploymentQueue.ReconciliationIdempotent | functions/agent-backend/DeploymentQueue.js:205-244 | a second pass with the same engine, at any later time, succeeds and changes nothing |
| DeploymentQueue.ReconciliationOnlyFinishes | functions/agent-backend/DeploymentQueue.js:205-244 | the pass keeps every document id and creation time; a deployment that changes was running and ends in a terminal state (a PENDING one may jump there directly) |
| DeploymentQueue.ReconciliationKeepsOrder | functions/agent-backend/DeploymentQueue.js:205-244 | the pass keeps the queue orderly (at most one DEPLOYING, older than every PENDING) |
| DeploymentQueue.PropagationOutcome | functions/agent-backend/DeploymentQueue.js:305-355 | the app becomes DEPLOYED (`deploying` deleted, `architectureFile` copied), FAILED, or CANCELLED for a CANCELLED or SKIPPED deployment (`deploying` names that deployment); without an app, a `deploying` field or the deployment, or for a PENDING or DEPLOYING one, nothing changes; deployments are never written |
| DeploymentQueue.PropagationIdempotent | functions/agent-backend/DeploymentQueue.js:305-355 | applying the propagation twice equals applying it once (documents store their own ids) |
| DeploymentQueue.AdmissionOutcome | functions/agent-backend/DeploymentQueue.js:368-414 | no-op unless the deployment exists and is PENDING; it becomes DEPLOYING (stamped `deployingAt`, app DEPLOYING with `deploying` set to it) iff it heads the queue, even when not last; SKIPPED iff neither first nor last; stays PENDING iff last and not first; a missing app aborts the transaction with no writes; no other deployment changes |
| DeploymentQueue.SoleDeploymentAdmitted | functions/agent-backend/DeploymentQueue.js:383-410 | a deployment alone in the queue is admitted straight away and not stamped completed |
| DeploymentQueue.AdmissionKeepsOrder | functions/agent-backend/DeploymentQueue.js:393-410 | admission never creates a second DEPLOYING deployment, since a deploying one precedes every pending one |
| DeploymentQueue.FetchOutcome | functions/agent-backend/DeploymentQueue.js:103-117 | reconcile, propagate, admit, in that order: an unknown id is answered "Document does not exist"; a PENDING deployment whose execution finished comes back in its final state; the queue stays orderly |
| DeploymentQueue.FetchApp | functions/agent-backend/DeploymentQueue.js:144-156 | `getApp` answers the app document left by reconciliation and propagation, and never adds or removes a deployment |
| DeploymentQueue.DeploymentQueue.CreateAppIfNotExists | functions/agent-backend/DeploymentQueue.js:123-137 | updates the documents as `CreateApp` defines |
| DeploymentQueue.DeploymentQueue.PutDeployment | functions/agent-backend/DeploymentQueue.js:55-92 | updates the documents as `PutDeploymentEffect` defines |
| DeploymentQueue.DeploymentQueue.UpdateRunningDeployments | functions/agent-backend/DeploymentQueue.js:205-244 | updates the documents as `Reconciliation` defines |
| DeploymentQueue.DeploymentQueue.UpdateDeployingApp | functions/agent-backend/DeploymentQueue.js:305-355 | updates the app as `Propagation` defines |
| DeploymentQueue.DeploymentQueue.CheckPendingDeployment | functions/agent-backend/DeploymentQueue.js:368-414 | updates the documents as `Admission` defines |
| DeploymentQueue.DeploymentQueue.GetDeployment | functions/agent-backend/DeploymentQueue.js:103-117 | runs the three passes and answers as `Fetch` defines |
| DeploymentQueue.DeploymentQueue.GetApp | functions/agent-backend/DeploymentQueue.js:144-156 | runs the two passes and answers as `FetchApp` defines |

## Left out

- I/O is not modelled:
  - Firestore reads and writes are field updates on the two classes, one atomic step per operation;
  - the bucket writes of `plan.json` and `artifacts.json` in `putApp` become the single outcome `started`;
  - `createExecution` and `getExecution` become parameters.
- Transactions, optimistic-concurrency retries, and the parallelism of `Promise.all` are left out. The non-transactional reads inside `updateDeployingApp` and `checkPendingDeployment` are read in the same instant as the rest of the pass.
- The clock is a parameter `now`. `getDeployment` and `getApp` use one reading for all their passes. The two readings in `putDeployment` (app creation, deployment creation) are kept apart.
- `DeploymentQueue.DeploymentQueue` holds one app's documents. The `appId` argument and the deployment's `appId` field are therefore implicit.
- `Apps.AppRegistry` and `DeploymentQueue.DeploymentQueue` are two disjoint stores, although in the program they hold the same `apps/{id}` documents and `deployments` sub-collections. Their interaction is not modelled: `getDeployment` serving the deployment documents `putApp` wrote (which have no `state`, so the `state` queries skip them and `checkPendingDeployment` returns on them), and `createAppIfNotExists` or the admission's app update acting on an app document `putApp` wrote.
- `Engine.ExecutionState` names the five listed engine states and keeps any other name as `Unlisted`; `Engine.Listed` says such a name is none of the five, and `Engine.StateNamed` builds only such values. The lemmas about engine states do not require `Listed`, so for an `Unlisted` value carrying a listed name they follow the constructor, not the string.
- Document ids are ordered lexicographically by character (`IdLess`). Firestore's own ordering of ids is not modelled beyond that.
- The `getAppUpdatePlan` glue that reads the deployed state (`getAppState`) is not modelled. The step functions take the deployed `services`/`layers`/`resources` objects as parameters. Only `servicesSteps` and `serviceLayersSteps` run in the plan, as in the source. `resourcesSteps` and `permissionsSteps` are modelled on their own, and their lists are not placed in the plan. In particular, the `createWrapperResources`/`deleteWrapperResources` categories the plan object does not declare are not placed.
- `accountsSteps` is never called and is not modelled.
- `index.js`, `Endpoints.js`, `Workflow.js`, `Firebase.js`, `GcpApi.js`, `Errors.js` and `agent-pairing` are not part of this model. Error kinds are small datatypes (`Apps.Error`, `DeploymentQueue.QueueError`).
- The JSON model has integers, strings, booleans, arrays and objects. It has no `null`, no `undefined` values and no floats.
  - JavaScript's ordering of integer-like keys before other keys is not modelled. Keys keep their listed order.
  - Array comparison by `JSON.stringify` is structural equality of values.
  - `computeUpdateMask` is modelled for null-free values. Where `curr` holds an object and `next` holds a string under the same key, the source would index into the string (its `Object.keys` gives indices); the model does the same through `Entries`.
- `ResourceSteps.ResourcesSteps` and its lemmas require every resource the step functions read to have `dependencies`, unless it is a wrapper. Without it, `Object.keys(undefined)` throws.
- `Permissions.PermissionsSteps` requires every resource with dependencies to name a service. Without one, `resource.service.name` throws.
- `Permissions.ParseRoleString` holds only for names without colons. `Permissions.ColonInServiceName` shows what `split(':')` does otherwise.
- `Permissions.PushSteps` runs the source's single loop over kept targets, which pushes both the gained-roles create step and the lost-roles delete step, as two loops (`PushSteps(More, …)` and `PushSteps(Fewer, …)`). Each output list keeps the source's order: new targets before kept ones in `createPermissions`, and gone targets before kept ones in `deletePermissions`.
- `Apps.AppStatus` takes the app and deployment documents as values. An empty `deploymentId` stands for a missing one, and `None` for a missing `deployedAt`. `getExecution` rejecting is `Failure(EngineUnavailable)`.
- `Apps.AppRegistry.GenerateAppShortId` takes the `nanoid` draws as a function of the attempt number.
- `DeploymentQueue.ReadExecutions`: a deployment without an `execution` name passes `None` to the engine. The engine decides whether that rejects.
