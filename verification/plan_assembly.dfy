/**
 * The last part of `getAppUpdatePlan` (functions/agent-backend/App.js): the step lists of the
 * plan object are numbered with one running counter, category after category in the order the
 * plan object declares them, and the categories left empty are dropped.
 */
module PlanAssembly {
  import opened Json
  import opened Steps
  import IdSteps

  /** `{ id: i++, ...obj }`: a step with its number in front of its own fields. */
  datatype Numbered = Numbered(id: nat, step: Step)

  /** The plan object: its categories with their lists, in key order. */
  type Plan<T> = seq<(Category, seq<T>)>

  /** All the steps of a plan, category after category. */
  function Flat<T>(plan: Plan<T>): (r: seq<T>)
  {
    if plan == [] then [] else Flat(plan[..|plan| - 1]) + plan[|plan| - 1].1
  }

  function Categories<T>(plan: Plan<T>): seq<Category>
  {
    seq(|plan|, i requires 0 <= i < |plan| => plan[i].0)
  }

  /** `steps.map(obj => ({ id: i++, ...obj }))` with the counter at `start`. */
  function NumberFrom(steps: seq<Step>, start: nat): (r: seq<Numbered>)
    ensures |r| == |steps|
    ensures forall k :: 0 <= k < |steps| ==> r[k].id == start + k && r[k].step == steps[k]
  {
    seq(|steps|, k requires 0 <= k < |steps| => Numbered(start + k, steps[k]))
  }

  /** The steps behind a numbered list. */
  function StepsOf(numbered: seq<Numbered>): (r: seq<Step>)
    ensures |r| == |numbered|
  {
    seq(|numbered|, k requires 0 <= k < |numbered| => numbered[k].step)
  }

  /** The ids a numbered list hands out. */
  function IdsOf(numbered: seq<Numbered>): set<nat>
  {
    set k | 0 <= k < |numbered| :: numbered[k].id
  }

  /**
   * Numbering loses no step and reorders none, and the ids it hands out are strictly
   * increasing and are exactly `start`, …, `start + |steps| - 1`.
   */
  lemma NumberFromMeaning(steps: seq<Step>, start: nat)
    ensures StepsOf(NumberFrom(steps, start)) == steps
    ensures forall k, l :: 0 <= k < l < |steps| ==> NumberFrom(steps, start)[k].id < NumberFrom(steps, start)[l].id
    ensures forall n: nat :: n in IdsOf(NumberFrom(steps, start)) <==> start <= n < start + |steps|
  {
    var r := NumberFrom(steps, start);
    forall n: nat | start <= n < start + |steps| ensures n in IdsOf(r) {
      assert r[n - start].id == n;
    }
  }

  /** `planWithIds`: every list numbered, the counter running on from the lists before it. */
  function NumberPlan(plan: Plan<Step>): (r: Plan<Numbered>)
    ensures Categories(r) == Categories(plan)
  {
    if plan == [] then []
    else
      var init := plan[..|plan| - 1];
      var (category, steps) := plan[|plan| - 1];
      var r := NumberPlan(init) + [(category, NumberFrom(steps, |Flat(init)|))];
      assert Categories(r) == Categories(init) + [category];
      assert Categories(plan) == Categories(init) + [category];
      r
  }

  /** `Object.entries(planWithIds).filter(([type, arr]) => arr.length > 0)`. */
  function DropEmpty<T>(plan: Plan<T>): (r: Plan<T>)
    ensures forall i :: 0 <= i < |r| ==> r[i].1 != []
  {
    if plan == [] then []
    else
      var rest := DropEmpty(plan[1..]);
      if plan[0].1 == [] then rest else [plan[0]] + rest
  }

  /** The categories whose list is not empty, in order. */
  function NonEmptyCategories<T>(plan: Plan<T>): seq<Category>
  {
    if plan == [] then []
    else (if plan[0].1 == [] then [] else [plan[0].0]) + NonEmptyCategories(plan[1..])
  }

  /** What `getAppUpdatePlan` resolves to, for the plan object its step functions filled. */
  function Assembled(plan: Plan<Step>): Plan<Numbered>
  {
    DropEmpty(NumberPlan(plan))
  }

  // ---------------------------------------------------------------------------------
  // The numbering loop.

  /** The inner `arr.map(obj => ({ id: i++, ...obj }))`. */
  method NumberSteps(steps: seq<Step>, start: nat) returns (numbered: seq<Numbered>, next: nat)
    ensures numbered == NumberFrom(steps, start)
    ensures next == start + |steps|
  {
    numbered := [];
    next := start;
    for j := 0 to |steps|
      invariant numbered == NumberFrom(steps[..j], start)
      invariant next == start + j
    {
      numbered := numbered + [Numbered(next, steps[j])];
      next := next + 1;
    }
    assert steps[..|steps|] == steps;
  }

  /** `getAppUpdatePlan` after the step functions ran: number every step, then drop the empty categories. */
  method AssemblePlan(plan: Plan<Step>) returns (result: Plan<Numbered>)
    ensures result == Assembled(plan)
  {
    var i: nat := 0;
    var withIds: Plan<Numbered> := [];
    for c := 0 to |plan|
      invariant withIds == NumberPlan(plan[..c])
      invariant i == |Flat(plan[..c])|
    {
      assert plan[..c + 1][..c] == plan[..c];
      var (category, steps) := plan[c];
      var numbered;
      numbered, i := NumberSteps(steps, i);
      withIds := withIds + [(category, numbered)];
    }
    assert plan[..|plan|] == plan;
    result := DropEmpty(withIds);
  }

  // ---------------------------------------------------------------------------------
  // What the assembled plan holds.

  lemma NumberFromConcat(a: seq<Step>, b: seq<Step>, start: nat)
    ensures NumberFrom(a + b, start) == NumberFrom(a, start) + NumberFrom(b, start + |a|)
  {
  }

  /** Numbering keeps every step, in order, and gives them the numbers 0, 1, 2, ... */
  lemma {:induction false} NumberPlanFlat(plan: Plan<Step>)
    ensures Flat(NumberPlan(plan)) == NumberFrom(Flat(plan), 0)
  {
    if plan != [] {
      var init := plan[..|plan| - 1];
      var (category, steps) := plan[|plan| - 1];
      NumberPlanFlat(init);
      NumberFromConcat(Flat(init), steps, 0);
      var numbered := NumberPlan(init) + [(category, NumberFrom(steps, |Flat(init)|))];
      assert numbered[..|numbered| - 1] == NumberPlan(init);
    }
  }

  /** Dropping a category with no steps drops no step. */
  lemma {:induction false} DropEmptyFlat<T>(plan: Plan<T>)
    ensures Flat(DropEmpty(plan)) == Flat(plan)
  {
    if plan != [] {
      DropEmptyFlat(plan[1..]);
      assert plan == [plan[0]] + plan[1..];
      FlatCons(plan[0], plan[1..]);
      if plan[0].1 != [] {
        FlatCons(plan[0], DropEmpty(plan[1..]));
      }
    }
  }

  lemma {:induction false} FlatCons<T>(e: (Category, seq<T>), plan: Plan<T>)
    ensures Flat([e] + plan) == e.1 + Flat(plan)
    decreases |plan|
  {
    if plan == [] {
      assert [e] + plan == [e];
      assert [e][..0] == [];
    } else {
      var init := plan[..|plan| - 1];
      FlatCons(e, init);
      assert ([e] + plan)[..|[e] + plan| - 1] == [e] + init;
    }
  }

  lemma {:induction false} DropEmptyCategories<T>(plan: Plan<T>)
    ensures Categories(DropEmpty(plan)) == NonEmptyCategories(plan)
  {
    if plan != [] {
      DropEmptyCategories(plan[1..]);
      var rest := DropEmpty(plan[1..]);
      if plan[0].1 != [] {
        assert Categories([plan[0]] + rest) == [plan[0].0] + Categories(rest);
      }
    }
  }

  /**
   * The assembled plan numbers its steps 0, 1, 2, ... in category order and then step order,
   * every step keeps its fields, and it lists exactly the categories that have steps, in the
   * plan object's order.
   */
  lemma AssembledMeaning(plan: Plan<Step>)
    ensures Flat(Assembled(plan)) == NumberFrom(Flat(plan), 0)
    ensures forall k :: 0 <= k < |Flat(Assembled(plan))| ==>
              Flat(Assembled(plan))[k].id == k && Flat(Assembled(plan))[k].step == Flat(plan)[k]
    ensures Categories(Assembled(plan)) == NonEmptyCategories(NumberPlan(plan))
    ensures forall i :: 0 <= i < |Assembled(plan)| ==> Assembled(plan)[i].1 != []
  {
    NumberPlanFlat(plan);
    DropEmptyFlat(NumberPlan(plan));
    DropEmptyCategories(NumberPlan(plan));
  }

  /** Numbering empties no list and fills none: the categories kept are those of the plan object that have steps. */
  lemma {:induction false} NumberPlanNonEmpty(plan: Plan<Step>)
    ensures NonEmptyCategories(NumberPlan(plan)) == NonEmptyCategories(plan)
  {
    if plan != [] {
      var init := plan[..|plan| - 1];
      var (category, steps) := plan[|plan| - 1];
      NumberPlanNonEmpty(init);
      NonEmptySnoc(init, plan[|plan| - 1]);
      NonEmptySnoc(NumberPlan(init), (category, NumberFrom(steps, |Flat(init)|)));
      assert plan == init + [plan[|plan| - 1]];
    }
  }

  lemma {:induction false} NonEmptySnoc<T>(plan: Plan<T>, e: (Category, seq<T>))
    ensures NonEmptyCategories(plan + [e]) == NonEmptyCategories(plan) + if e.1 == [] then [] else [e.0]
  {
    if plan != [] {
      NonEmptySnoc(plan[1..], e);
      assert (plan + [e])[1..] == plan[1..] + [e];
    } else {
      assert [] + [e] == [e];
    }
  }

  // ---------------------------------------------------------------------------------
  // The plan `getAppUpdatePlan` builds.

  /**
   * The plan object after `servicesSteps` and `serviceLayersSteps` ran; the other step
   * functions are commented out of `fns`, so their categories stay empty.
   */
  function UpdatePlanObject(services: (seq<Step>, seq<Step>), layers: (seq<Step>, seq<Step>)): (plan: Plan<Step>)
    ensures Categories(plan) ==
            [CreateServices, CreateServiceLayers, CreateResources, CreatePermissions, UpdateResources,
             DeletePermissions, DeleteResources, DeleteServiceLayers, DeleteServices]
  {
    [(CreateServices, services.0), (CreateServiceLayers, layers.0), (CreateResources, []),
     (CreatePermissions, []), (UpdateResources, []), (DeletePermissions, []), (DeleteResources, []),
     (DeleteServiceLayers, layers.1), (DeleteServices, services.1)]
  }

  /** `getAppUpdatePlan(architecture)` for the deployed `state.services` and `state.layers`. */
  method GetAppUpdatePlan(wantedServices: seq<string>, wantedLayers: seq<string>, deployedServices: Json, deployedLayers: Json)
    returns (result: Plan<Numbered>)
    ensures result == Assembled(UpdatePlanObject(IdSteps.ServicesSteps(wantedServices, deployedServices),
                                                 IdSteps.ServiceLayersSteps(wantedLayers, deployedLayers)))
  {
    var services := IdSteps.ServicesSteps(wantedServices, deployedServices);
    var layers := IdSteps.ServiceLayersSteps(wantedLayers, deployedLayers);
    result := AssemblePlan(UpdatePlanObject(services, layers));
  }

  /**
   * The update plan lists the service creations, then the layer creations, the layer deletions
   * and the service deletions, numbered in that order, and keeps only the categories that have steps.
   */
  lemma UpdatePlanOrder(services: (seq<Step>, seq<Step>), layers: (seq<Step>, seq<Step>))
    ensures var plan := Assembled(UpdatePlanObject(services, layers));
            Flat(plan) == NumberFrom(services.0 + layers.0 + layers.1 + services.1, 0) &&
            Categories(plan) ==
              (if services.0 == [] then [] else [CreateServices]) +
              (if layers.0 == [] then [] else [CreateServiceLayers]) +
              (if layers.1 == [] then [] else [DeleteServiceLayers]) +
              (if services.1 == [] then [] else [DeleteServices])
  {
    var planObject := UpdatePlanObject(services, layers);
    AssembledMeaning(planObject);
    NumberPlanNonEmpty(planObject);
    NonEmptyOfObject(services, layers);
    FlatOfObject(services, layers);
  }

  lemma FlatOfObject(services: (seq<Step>, seq<Step>), layers: (seq<Step>, seq<Step>))
    ensures Flat(UpdatePlanObject(services, layers)) == services.0 + layers.0 + layers.1 + services.1
  {
    var o := UpdatePlanObject(services, layers);
    assert Flat(o[..0]) == [];
    FlatPrefix(o, 0);
    FlatPrefix(o, 1);
    FlatPrefix(o, 2);
    FlatPrefix(o, 3);
    FlatPrefix(o, 4);
    FlatPrefix(o, 5);
    FlatPrefix(o, 6);
    FlatPrefix(o, 7);
    FlatPrefix(o, 8);
    assert o[..9] == o;
  }

  lemma FlatPrefix<T>(plan: Plan<T>, k: int)
    requires 0 <= k < |plan|
    ensures Flat(plan[..k + 1]) == Flat(plan[..k]) + plan[k].1
  {
    assert plan[..k + 1][..k] == plan[..k];
  }

  lemma NonEmptyOfObject(services: (seq<Step>, seq<Step>), layers: (seq<Step>, seq<Step>))
    ensures NonEmptyCategories(UpdatePlanObject(services, layers)) ==
              (if services.0 == [] then [] else [CreateServices]) +
              (if layers.0 == [] then [] else [CreateServiceLayers]) +
              (if layers.1 == [] then [] else [DeleteServiceLayers]) +
              (if services.1 == [] then [] else [DeleteServices])
  {
    var o := UpdatePlanObject(services, layers);
    assert o[9..] == [];
    NonEmptySuffix(o, 8);
    NonEmptySuffix(o, 7);
    NonEmptySuffix(o, 6);
    NonEmptySuffix(o, 5);
    NonEmptySuffix(o, 4);
    NonEmptySuffix(o, 3);
    NonEmptySuffix(o, 2);
    NonEmptySuffix(o, 1);
    NonEmptySuffix(o, 0);
    assert o[0..] == o;
  }

  lemma NonEmptySuffix<T>(plan: Plan<T>, k: int)
    requires 0 <= k < |plan|
    ensures NonEmptyCategories(plan[k..]) ==
            (if plan[k].1 == [] then [] else [plan[k].0]) + NonEmptyCategories(plan[k + 1..])
  {
    assert plan[k..][1..] == plan[k + 1..];
  }

  /** Deployed services and layers that match the architecture give an empty plan. */
  lemma UpToDatePlanIsEmpty(wantedServices: seq<string>, wantedLayers: seq<string>, deployedServices: Json, deployedLayers: Json)
    requires forall x :: x in wantedServices <==> x in Keys(Entries(deployedServices))
    requires forall x :: x in wantedLayers <==> x in Keys(Entries(deployedLayers))
    ensures Assembled(UpdatePlanObject(IdSteps.ServicesSteps(wantedServices, deployedServices),
                                       IdSteps.ServiceLayersSteps(wantedLayers, deployedLayers))) == []
  {
    var services := IdSteps.ServicesSteps(wantedServices, deployedServices);
    var layers := IdSteps.ServiceLayersSteps(wantedLayers, deployedLayers);
    UpdatePlanOrder(services, layers);
  }
}
