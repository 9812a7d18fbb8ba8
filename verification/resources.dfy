/**
 * `resourcesSteps` (functions/agent-backend/App.js): new, removed and changed resources become
 * create, update and delete steps.  A new resource is created with its `dependencies` emptied
 * and updated with them afterwards; a removed one is first updated without its dependencies
 * and then deleted; wrapper resources go to categories of their own.
 */
module ResourceSteps {
  import opened Wrappers
  import opened Json
  import opened Steps
  import UpdateMask

  /** The entries of a JavaScript object: `architecture`, `state.resources`. */
  type Fields = seq<(string, Json)>

  datatype ResourcePlan = ResourcePlan(
    create: seq<Step>,
    createWrapper: seq<Step>,
    update: seq<Step>,
    deleteWrapper: seq<Step>,
    delete: seq<Step>)

  /** `resource.wrapper` is truthy. */
  predicate IsWrapper(res: Json)
  {
    Truthy(Prop(res, "wrapper"))
  }

  /**
   * A resource the step functions can read without throwing: a non-wrapper has a
   * `dependencies` property (`Object.keys(undefined)` throws a TypeError).
   */
  predicate Readable(res: Json)
  {
    IsWrapper(res) || Prop(res, "dependencies").Some?
  }

  /** `Object.keys(resource.dependencies).length > 0`. */
  predicate HasDependencies(res: Json)
    requires Prop(res, "dependencies").Some?
  {
    |Entries(Prop(res, "dependencies").value)| > 0
  }

  /** `{ ...resource }` with `dependencies` set to `{}` when it has any. */
  function WithoutDependencies(res: Json): (r: Json)
    requires Prop(res, "dependencies").Some?
    ensures r.JObj? && Keys(r.fields) == Keys(res.fields)
    ensures Prop(r, "dependencies") == if HasDependencies(res) then Some(JObj([])) else Prop(res, "dependencies")
  {
    if HasDependencies(res) then
      GetSetField(res.fields, "dependencies", JObj([]), "dependencies");
      JObj(SetField(res.fields, "dependencies", JObj([])))
    else res
  }

  /** Emptying the dependencies leaves every other property as it was. */
  lemma WithoutDependenciesKeepsOthers(res: Json, k: string)
    requires Prop(res, "dependencies").Some? && k != "dependencies"
    ensures Prop(WithoutDependencies(res), k) == Prop(res, k)
  {
    if HasDependencies(res) {
      GetSetField(res.fields, "dependencies", JObj([]), k);
    }
  }

  /** `stateResources`: the deployed entries holding a truthy `.resource`, mapped to it; the others are ignored. */
  function DeployedResources(state: Fields): (r: Fields)
    ensures |r| <= |state|
  {
    if state == [] then []
    else
      var rest := DeployedResources(state[..|state| - 1]);
      var (id, doc) := state[|state| - 1];
      if Truthy(Prop(doc, "resource")) then rest + [(id, Prop(doc, "resource").value)] else rest
  }

  lemma {:induction false} DeployedResourcesDistinct(state: Fields)
    requires DistinctKeys(state)
    ensures DistinctKeys(DeployedResources(state))
    ensures forall k :: k in Keys(DeployedResources(state)) ==> k in Keys(state)
  {
    if state != [] {
      var init := state[..|state| - 1];
      var e := state[|state| - 1];
      assert state == init + [e];
      DistinctSnoc(init, e);
      KeysSnoc(init, e);
      DeployedResourcesDistinct(init);
      if Truthy(Prop(e.1, "resource")) {
        var d := (e.0, Prop(e.1, "resource").value);
        DistinctSnoc(DeployedResources(init), d);
        KeysSnoc(DeployedResources(init), d);
      }
    }
  }

  /**
   * A deployed id is known exactly when its entry holds a truthy `.resource`, and it is then
   * known with that value.
   */
  lemma {:induction false} DeployedResourcesGet(state: Fields, id: string)
    requires DistinctKeys(state)
    ensures DistinctKeys(DeployedResources(state))
    ensures Get(DeployedResources(state), id) ==
            if id in Keys(state) && Truthy(Prop(Get(state, id).value, "resource"))
            then Prop(Get(state, id).value, "resource") else None
  {
    if state != [] {
      var init := state[..|state| - 1];
      var e := state[|state| - 1];
      assert state == init + [e];
      DistinctSnoc(init, e);
      KeysSnoc(init, e);
      GetSnoc(init, e, id);
      DeployedResourcesGet(init, id);
      DeployedResourcesGet(init, e.0);
      var rest := DeployedResources(init);
      if Truthy(Prop(e.1, "resource")) {
        var d := (e.0, Prop(e.1, "resource").value);
        DistinctSnoc(rest, d);
        GetSnoc(rest, d, id);
      }
    }
  }

  /** The routes an entry of the architecture or of the deployed state can take. */
  datatype Route = Create | CreateWrapper | AddedUpdate | DeletedUpdate | Delete | DeleteWrapper

  /** The step, if any, that `route` makes of the resource `res` stored under `id`. */
  function StepFor(route: Route, id: string, res: Json): Option<Step>
    requires Readable(res)
  {
    match route
    case Create => if !IsWrapper(res) then Some(ResourceStep(id, WithoutDependencies(res))) else None
    case CreateWrapper => if IsWrapper(res) then Some(ResourceStep(id, res)) else None
    case AddedUpdate => if !IsWrapper(res) && HasDependencies(res) then Some(ResourceStep(id, res)) else None
    case DeletedUpdate =>
      if !IsWrapper(res) && HasDependencies(res) then Some(ResourceStep(id, WithoutDependencies(res))) else None
    case Delete => if !IsWrapper(res) then Some(ResourceStep(id, res)) else None
    case DeleteWrapper => if IsWrapper(res) then Some(ResourceStep(id, res)) else None
  }

  lemma StepForId(route: Route, id: string, res: Json)
    requires Readable(res)
    ensures StepFor(route, id, res).Some? ==>
              StepFor(route, id, res).value.ResourceStep? && StepFor(route, id, res).value.resourceId == id
  {
  }

  /** The value stored under `id` is readable. */
  predicate ReadableAt(es: Fields, id: string)
  {
    id in Keys(es) && Readable(Get(es, id).value)
  }

  /** Every entry whose key the other side lacks must be readable. */
  predicate ReadableOutside(es: Fields, known: seq<string>)
  {
    forall i :: 0 <= i < |es| && es[i].0 !in known ==> Readable(es[i].1)
  }

  /** The steps `route` makes of the entries whose key is not in `known`, in entry order. */
  function Collect(es: Fields, known: seq<string>, route: Route): (r: seq<Step>)
    requires ReadableOutside(es, known)
    ensures |r| <= |es|
  {
    if es == [] then []
    else
      var rest := Collect(es[..|es| - 1], known, route);
      var (id, res) := es[|es| - 1];
      if id !in known && StepFor(route, id, res).Some? then rest + [StepFor(route, id, res).value] else rest
  }

  /** The steps of one id: those `route` makes of its entry, when the other side lacks it. */
  lemma {:induction false} CollectAt(es: Fields, known: seq<string>, route: Route, id: string, x: Json)
    requires ReadableOutside(es, known) && DistinctKeys(es)
    ensures ResourceStep(id, x) in Collect(es, known, route) <==>
            id in Keys(es) && id !in known && ReadableAt(es, id) &&
            StepFor(route, id, Get(es, id).value) == Some(ResourceStep(id, x))
  {
    if es != [] {
      var init := es[..|es| - 1];
      var e := es[|es| - 1];
      assert es == init + [e];
      DistinctSnoc(init, e);
      KeysSnoc(init, e);
      GetSnoc(init, e, id);
      CollectAt(init, known, route, id, x);
      if e.0 !in known {
        StepForId(route, e.0, e.1);
      }
    }
  }

  /** The update steps of the resources on both sides whose update mask is not empty. */
  function ExistingUpdates(arch: Fields, deployed: Fields): (r: seq<Step>)
    ensures |r| <= |arch|
  {
    if arch == [] then []
    else
      var rest := ExistingUpdates(arch[..|arch| - 1], deployed);
      var (id, res) := arch[|arch| - 1];
      if id in Keys(deployed) && UpdateMask.NeedsUpdate(Get(deployed, id).value, res) then
        rest + [ResourceStep(id, res)]
      else rest
  }

  lemma {:induction false} ExistingUpdatesAt(arch: Fields, deployed: Fields, id: string, x: Json)
    requires DistinctKeys(arch)
    ensures ResourceStep(id, x) in ExistingUpdates(arch, deployed) <==>
            id in Keys(arch) && id in Keys(deployed) && x == Get(arch, id).value &&
            UpdateMask.NeedsUpdate(Get(deployed, id).value, x)
  {
    if arch != [] {
      var init := arch[..|arch| - 1];
      var e := arch[|arch| - 1];
      assert arch == init + [e];
      DistinctSnoc(init, e);
      KeysSnoc(init, e);
      GetSnoc(init, e, id);
      ExistingUpdatesAt(init, deployed, id, x);
    }
  }

  /** What the source needs to read both sides without throwing. */
  predicate ReadableInputs(state: Fields, arch: Fields)
  {
    var deployed := DeployedResources(state);
    ReadableOutside(arch, Keys(deployed)) && ReadableOutside(deployed, Keys(arch))
  }

  /** The plan `resourcesSteps` writes into its five categories. */
  function ResourcesPlan(state: Fields, arch: Fields): ResourcePlan
    requires ReadableInputs(state, arch)
  {
    var deployed := DeployedResources(state);
    var known := Keys(deployed);
    var wanted := Keys(arch);
    ResourcePlan(
      Collect(arch, known, Create),
      Collect(arch, known, CreateWrapper),
      Collect(arch, known, AddedUpdate) + Collect(deployed, wanted, DeletedUpdate) + ExistingUpdates(arch, deployed),
      Collect(deployed, wanted, DeleteWrapper),
      Collect(deployed, wanted, Delete))
  }

  lemma ReadableOutsidePrefix(es: Fields, known: seq<string>, n: nat)
    requires ReadableOutside(es, known) && n <= |es|
    ensures ReadableOutside(es[..n], known)
  {
    assert forall i :: 0 <= i < n ==> es[..n][i] == es[i];
  }

  /** One more entry adds the step `route` makes of it, if any. */
  lemma CollectStep(es: Fields, known: seq<string>, route: Route, i: int)
    requires ReadableOutside(es, known) && 0 <= i < |es|
    ensures ReadableOutside(es[..i], known) && ReadableOutside(es[..i + 1], known)
    ensures Collect(es[..i + 1], known, route) ==
            Collect(es[..i], known, route) +
            if es[i].0 !in known && StepFor(route, es[i].0, es[i].1).Some?
            then [StepFor(route, es[i].0, es[i].1).value] else []
  {
    ReadableOutsidePrefix(es, known, i);
    ReadableOutsidePrefix(es, known, i + 1);
    assert es[..i + 1][..i] == es[..i];
    assert es[..i + 1][i] == es[i];
  }

  /** The first `forEach`: `stateResources` from the deployed entries. */
  method CollectDeployed(state: Fields) returns (deployed: Fields)
    ensures deployed == DeployedResources(state)
  {
    deployed := [];
    for i := 0 to |state|
      invariant deployed == DeployedResources(state[..i])
    {
      assert state[..i + 1][..i] == state[..i];
      var (id, doc) := state[i];
      if Truthy(Prop(doc, "resource")) {
        deployed := deployed + [(id, Prop(doc, "resource").value)];
      }
    }
    assert state[..|state|] == state;
  }

  /** What one architecture entry adds to the three lists the "added resources" loop fills. */
  lemma AddedEntryStep(es: Fields, known: seq<string>, i: int)
    requires ReadableOutside(es, known) && 0 <= i < |es|
    ensures ReadableOutside(es[..i], known) && ReadableOutside(es[..i + 1], known)
    ensures var (id, res) := es[i];
            var added := id !in known;
            Collect(es[..i + 1], known, Create) ==
              Collect(es[..i], known, Create) +
              (if added && !IsWrapper(res) then [ResourceStep(id, WithoutDependencies(res))] else []) &&
            Collect(es[..i + 1], known, AddedUpdate) ==
              Collect(es[..i], known, AddedUpdate) +
              (if added && !IsWrapper(res) && HasDependencies(res) then [ResourceStep(id, res)] else []) &&
            Collect(es[..i + 1], known, CreateWrapper) ==
              Collect(es[..i], known, CreateWrapper) + (if added && IsWrapper(res) then [ResourceStep(id, res)] else [])
  {
    var (id, res) := es[i];
    if id !in known {
      assert Readable(res);
      assert StepFor(Create, id, res) == if !IsWrapper(res) then Some(ResourceStep(id, WithoutDependencies(res))) else None;
      assert StepFor(AddedUpdate, id, res) ==
             if !IsWrapper(res) && HasDependencies(res) then Some(ResourceStep(id, res)) else None;
      assert StepFor(CreateWrapper, id, res) == if IsWrapper(res) then Some(ResourceStep(id, res)) else None;
    }
    CollectStep(es, known, Create, i);
    CollectStep(es, known, AddedUpdate, i);
    CollectStep(es, known, CreateWrapper, i);
  }

  /** The "added resources" `forEach`: pushes to `createResources`, `updateResources` and `createWrapperResources`. */
  method AddedSteps(arch: Fields, known: seq<string>)
    returns (create: seq<Step>, createWrapper: seq<Step>, update: seq<Step>)
    requires ReadableOutside(arch, known)
    ensures create == Collect(arch, known, Create)
    ensures createWrapper == Collect(arch, known, CreateWrapper)
    ensures update == Collect(arch, known, AddedUpdate)
  {
    create, createWrapper, update := [], [], [];
    for i := 0 to |arch|
      invariant create == Collect(arch[..i], known, Create)
      invariant createWrapper == Collect(arch[..i], known, CreateWrapper)
      invariant update == Collect(arch[..i], known, AddedUpdate)
    {
      AddedEntryStep(arch, known, i);
      var (id, res) := arch[i];
      if id !in known {
        if !IsWrapper(res) {
          create := create + [ResourceStep(id, WithoutDependencies(res))];
          if HasDependencies(res) {
            update := update + [ResourceStep(id, res)];
          }
        } else {
          createWrapper := createWrapper + [ResourceStep(id, res)];
        }
      }
    }
    assert arch[..|arch|] == arch;
  }

  /** What one deployed entry adds to the three lists the "deleted resources" loop fills. */
  lemma DeletedEntryStep(es: Fields, known: seq<string>, i: int)
    requires ReadableOutside(es, known) && 0 <= i < |es|
    ensures ReadableOutside(es[..i], known) && ReadableOutside(es[..i + 1], known)
    ensures var (id, res) := es[i];
            var gone := id !in known;
            Collect(es[..i + 1], known, DeletedUpdate) ==
              Collect(es[..i], known, DeletedUpdate) +
              (if gone && !IsWrapper(res) && HasDependencies(res) then [ResourceStep(id, WithoutDependencies(res))] else []) &&
            Collect(es[..i + 1], known, Delete) ==
              Collect(es[..i], known, Delete) + (if gone && !IsWrapper(res) then [ResourceStep(id, res)] else []) &&
            Collect(es[..i + 1], known, DeleteWrapper) ==
              Collect(es[..i], known, DeleteWrapper) + (if gone && IsWrapper(res) then [ResourceStep(id, res)] else [])
  {
    var (id, res) := es[i];
    if id !in known {
      assert Readable(res);
      assert StepFor(DeletedUpdate, id, res) ==
             if !IsWrapper(res) && HasDependencies(res) then Some(ResourceStep(id, WithoutDependencies(res))) else None;
      assert StepFor(Delete, id, res) == if !IsWrapper(res) then Some(ResourceStep(id, res)) else None;
      assert StepFor(DeleteWrapper, id, res) == if IsWrapper(res) then Some(ResourceStep(id, res)) else None;
    }
    CollectStep(es, known, DeletedUpdate, i);
    CollectStep(es, known, Delete, i);
    CollectStep(es, known, DeleteWrapper, i);
  }

  /** The "deleted resources" `forEach`: pushes to `updateResources`, `deleteResources` and `deleteWrapperResources`. */
  method DeletedSteps(deployed: Fields, wanted: seq<string>)
    returns (update: seq<Step>, delete: seq<Step>, deleteWrapper: seq<Step>)
    requires ReadableOutside(deployed, wanted)
    ensures update == Collect(deployed, wanted, DeletedUpdate)
    ensures delete == Collect(deployed, wanted, Delete)
    ensures deleteWrapper == Collect(deployed, wanted, DeleteWrapper)
  {
    update, delete, deleteWrapper := [], [], [];
    for i := 0 to |deployed|
      invariant update == Collect(deployed[..i], wanted, DeletedUpdate)
      invariant delete == Collect(deployed[..i], wanted, Delete)
      invariant deleteWrapper == Collect(deployed[..i], wanted, DeleteWrapper)
    {
      DeletedEntryStep(deployed, wanted, i);
      var (id, res) := deployed[i];
      if id !in wanted {
        if !IsWrapper(res) {
          if HasDependencies(res) {
            update := update + [ResourceStep(id, WithoutDependencies(res))];
          }
          delete := delete + [ResourceStep(id, res)];
        } else {
          deleteWrapper := deleteWrapper + [ResourceStep(id, res)];
        }
      }
    }
    assert deployed[..|deployed|] == deployed;
  }

  /** The "already deployed resources" `forEach`: an update step when the update mask is not empty. */
  method ExistingSteps(arch: Fields, deployed: Fields) returns (update: seq<Step>)
    ensures update == ExistingUpdates(arch, deployed)
  {
    update := [];
    for i := 0 to |arch|
      invariant update == ExistingUpdates(arch[..i], deployed)
    {
      assert arch[..i + 1][..i] == arch[..i];
      var (id, res) := arch[i];
      if id in Keys(deployed) && UpdateMask.NeedsUpdate(Get(deployed, id).value, res) {
        update := update + [ResourceStep(id, res)];
      }
    }
    assert arch[..|arch|] == arch;
  }

  /** `resourcesSteps(mask, state, architecture)` with `state.resources` and `architecture` given by their entries. */
  method ResourcesSteps(state: Fields, arch: Fields) returns (plan: ResourcePlan)
    requires ReadableInputs(state, arch)
    ensures plan == ResourcesPlan(state, arch)
  {
    var deployed := CollectDeployed(state);
    var known, wanted := Keys(deployed), Keys(arch);
    var create, createWrapper, added := AddedSteps(arch, known);
    var removed, delete, deleteWrapper := DeletedSteps(deployed, wanted);
    var existing := ExistingSteps(arch, deployed);
    plan := ResourcePlan(create, createWrapper, added + removed + existing, deleteWrapper, delete);
  }

  // ---------------------------------------------------------------------------------
  // What the plan holds for one resource id.

  /** Both sides are JavaScript objects (distinct keys) the source can read. */
  predicate WellFormedInputs(state: Fields, arch: Fields)
  {
    DistinctKeys(state) && DistinctKeys(arch) && ReadableInputs(state, arch)
  }

  /** The three routes of an architecture entry the deployed state lacks. */
  lemma AddedEntryRoutes(arch: Fields, known: seq<string>, id: string, x: Json)
    requires ReadableOutside(arch, known) && DistinctKeys(arch)
    requires id in Keys(arch) && id !in known
    ensures ReadableAt(arch, id)
    ensures var a := Get(arch, id).value;
            (ResourceStep(id, x) in Collect(arch, known, Create) <==> !IsWrapper(a) && x == WithoutDependencies(a)) &&
            (ResourceStep(id, x) in Collect(arch, known, AddedUpdate) <==> !IsWrapper(a) && HasDependencies(a) && x == a) &&
            (ResourceStep(id, x) in Collect(arch, known, CreateWrapper) <==> IsWrapper(a) && x == a)
  {
    var a := Get(arch, id).value;
    var k :| 0 <= k < |arch| && arch[k] == (id, a);
    assert Readable(a);
    CollectAt(arch, known, Create, id, x);
    CollectAt(arch, known, AddedUpdate, id, x);
    CollectAt(arch, known, CreateWrapper, id, x);
  }

  /** A deployed entry the architecture lacks gets a `DeletedUpdate` step when it is a non-wrapper with dependencies. */
  lemma DeletedUpdateAt(deployed: Fields, wanted: seq<string>, id: string, x: Json)
    requires ReadableOutside(deployed, wanted) && DistinctKeys(deployed)
    requires id in Keys(deployed) && id !in wanted
    ensures ReadableAt(deployed, id)
    ensures var d := Get(deployed, id).value;
            ResourceStep(id, x) in Collect(deployed, wanted, DeletedUpdate) <==>
              !IsWrapper(d) && HasDependencies(d) && x == WithoutDependencies(d)
  {
    var d := Get(deployed, id).value;
    var k :| 0 <= k < |deployed| && deployed[k] == (id, d);
    assert Readable(d);
    CollectAt(deployed, wanted, DeletedUpdate, id, x);
  }

  /** A deployed non-wrapper the architecture lacks is deleted with its deployed definition. */
  lemma DeleteAt(deployed: Fields, wanted: seq<string>, id: string, x: Json)
    requires ReadableOutside(deployed, wanted) && DistinctKeys(deployed)
    requires id in Keys(deployed) && id !in wanted
    ensures ReadableAt(deployed, id)
    ensures var d := Get(deployed, id).value;
            ResourceStep(id, x) in Collect(deployed, wanted, Delete) <==> !IsWrapper(d) && x == d
  {
    var d := Get(deployed, id).value;
    var k :| 0 <= k < |deployed| && deployed[k] == (id, d);
    assert Readable(d);
    CollectAt(deployed, wanted, Delete, id, x);
  }

  /** A deployed wrapper the architecture lacks gets a `deleteWrapperResources` step. */
  lemma DeleteWrapperAt(deployed: Fields, wanted: seq<string>, id: string, x: Json)
    requires ReadableOutside(deployed, wanted) && DistinctKeys(deployed)
    requires id in Keys(deployed) && id !in wanted
    ensures ReadableAt(deployed, id)
    ensures var d := Get(deployed, id).value;
            ResourceStep(id, x) in Collect(deployed, wanted, DeleteWrapper) <==> IsWrapper(d) && x == d
  {
    var d := Get(deployed, id).value;
    var k :| 0 <= k < |deployed| && deployed[k] == (id, d);
    assert Readable(d);
    CollectAt(deployed, wanted, DeleteWrapper, id, x);
  }

  /** No route makes a step of an id that is missing from the entries or known to the other side. */
  lemma NoRoute(es: Fields, known: seq<string>, id: string, x: Json)
    requires ReadableOutside(es, known) && DistinctKeys(es)
    requires id !in Keys(es) || id in known
    ensures forall route :: ResourceStep(id, x) !in Collect(es, known, route)
  {
    forall route: Route ensures ResourceStep(id, x) !in Collect(es, known, route) {
      CollectAt(es, known, route, id, x);
    }
  }

  /** The plan's lists, spelled out. */
  lemma PlanLists(state: Fields, arch: Fields)
    requires ReadableInputs(state, arch)
    ensures var deployed := DeployedResources(state);
            var known, wanted := Keys(deployed), Keys(arch);
            var p := ResourcesPlan(state, arch);
            p.create == Collect(arch, known, Create) &&
            p.createWrapper == Collect(arch, known, CreateWrapper) &&
            p.update == Collect(arch, known, AddedUpdate) + Collect(deployed, wanted, DeletedUpdate) + ExistingUpdates(arch, deployed) &&
            p.deleteWrapper == Collect(deployed, wanted, DeleteWrapper) &&
            p.delete == Collect(deployed, wanted, Delete)
  {
  }

  /**
   * A new resource: a non-wrapper is created with its dependencies emptied and, when it has
   * dependencies, updated with the full resource; a wrapper only gets a `createWrapperResources` step.
   */
  lemma NewResourceSteps(state: Fields, arch: Fields, id: string, x: Json)
    requires WellFormedInputs(state, arch)
    requires id in Keys(arch) && id !in Keys(DeployedResources(state))
    ensures ReadableAt(arch, id)
    ensures var a := Get(arch, id).value;
            var p := ResourcesPlan(state, arch);
            (ResourceStep(id, x) in p.create <==> !IsWrapper(a) && x == WithoutDependencies(a)) &&
            (ResourceStep(id, x) in p.update <==> !IsWrapper(a) && HasDependencies(a) && x == a) &&
            (ResourceStep(id, x) in p.createWrapper <==> IsWrapper(a) && x == a) &&
            ResourceStep(id, x) !in p.delete && ResourceStep(id, x) !in p.deleteWrapper
  {
    var deployed := DeployedResources(state);
    DeployedResourcesDistinct(state);
    PlanLists(state, arch);
    AddedEntryRoutes(arch, Keys(deployed), id, x);
    NoRoute(deployed, Keys(arch), id, x);
    ExistingUpdatesAt(arch, deployed, id, x);
  }

  /**
   * A removed resource: a non-wrapper with dependencies is first updated with them emptied,
   * every non-wrapper is deleted with its deployed definition, a wrapper only gets a
   * `deleteWrapperResources` step.
   */
  lemma RemovedResourceSteps(state: Fields, arch: Fields, id: string, x: Json)
    requires WellFormedInputs(state, arch)
    requires id !in Keys(arch) && id in Keys(DeployedResources(state))
    ensures ReadableAt(DeployedResources(state), id)
    ensures var d := Get(DeployedResources(state), id).value;
            var p := ResourcesPlan(state, arch);
            (ResourceStep(id, x) in p.update <==> !IsWrapper(d) && HasDependencies(d) && x == WithoutDependencies(d)) &&
            (ResourceStep(id, x) in p.delete <==> !IsWrapper(d) && x == d) &&
            (ResourceStep(id, x) in p.deleteWrapper <==> IsWrapper(d) && x == d) &&
            ResourceStep(id, x) !in p.create && ResourceStep(id, x) !in p.createWrapper
  {
    var deployed := DeployedResources(state);
    DeployedResourcesDistinct(state);
    PlanLists(state, arch);
    DeletedUpdateAt(deployed, Keys(arch), id, x);
    DeleteAt(deployed, Keys(arch), id, x);
    DeleteWrapperAt(deployed, Keys(arch), id, x);
    NoRoute(arch, Keys(deployed), id, x);
    ExistingUpdatesAt(arch, deployed, id, x);
  }

  /** A resource on both sides gets one update step, carrying its new definition, exactly when its update mask is not empty, and no other step. */
  lemma ExistingResourceSteps(state: Fields, arch: Fields, id: string, x: Json)
    requires WellFormedInputs(state, arch)
    requires id in Keys(arch) && id in Keys(DeployedResources(state))
    ensures var a := Get(arch, id).value;
            var d := Get(DeployedResources(state), id).value;
            var p := ResourcesPlan(state, arch);
            (ResourceStep(id, x) in p.update <==> x == a && UpdateMask.NeedsUpdate(d, a)) &&
            ResourceStep(id, x) !in p.create && ResourceStep(id, x) !in p.createWrapper &&
            ResourceStep(id, x) !in p.delete && ResourceStep(id, x) !in p.deleteWrapper
  {
    var deployed := DeployedResources(state);
    DeployedResourcesDistinct(state);
    PlanLists(state, arch);
    NoRoute(arch, Keys(deployed), id, x);
    NoRoute(deployed, Keys(arch), id, x);
    ExistingUpdatesAt(arch, deployed, id, x);
  }

  /** An id on neither side (in particular a deployed entry without `.resource` that the architecture drops) gets no step. */
  lemma UnknownResourceNoSteps(state: Fields, arch: Fields, id: string, x: Json)
    requires WellFormedInputs(state, arch)
    requires id !in Keys(arch) && id !in Keys(DeployedResources(state))
    ensures var p := ResourcesPlan(state, arch);
            ResourceStep(id, x) !in p.create && ResourceStep(id, x) !in p.createWrapper &&
            ResourceStep(id, x) !in p.update &&
            ResourceStep(id, x) !in p.delete && ResourceStep(id, x) !in p.deleteWrapper
  {
    var deployed := DeployedResources(state);
    DeployedResourcesDistinct(state);
    PlanLists(state, arch);
    NoRoute(arch, Keys(deployed), id, x);
    NoRoute(deployed, Keys(arch), id, x);
    ExistingUpdatesAt(arch, deployed, id, x);
  }
}
