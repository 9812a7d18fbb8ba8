/**
 * `servicesSteps` and `serviceLayersSteps` (functions/agent-backend/App.js): set differences
 * between the ids the architecture asks for and the keys of the deployed state.
 */
module IdSteps {
  import opened Json
  import opened Steps

  /** `xs.filter(x => !ys.includes(x))`. */
  function Missing(xs: seq<string>, ys: seq<string>): (r: seq<string>)
    ensures forall x :: x in r <==> x in xs && x !in ys
    ensures |r| <= |xs|
  {
    if xs == [] then []
    else
      var rest := Missing(xs[1..], ys);
      if xs[0] in ys then rest else [xs[0]] + rest
  }

  /** Filtering keeps the order of the list: it distributes over concatenation. */
  lemma {:induction false} MissingConcat(a: seq<string>, b: seq<string>, ys: seq<string>)
    ensures Missing(a + b, ys) == Missing(a, ys) + Missing(b, ys)
  {
    if a != [] {
      assert (a + b)[1..] == a[1..] + b;
      MissingConcat(a[1..], b, ys);
    } else {
      assert a + b == b;
    }
  }

  /** An id the deployed list does not know is kept, in place. */
  lemma MissingKeepsAbsent(xs: seq<string>, ys: seq<string>)
    requires forall x :: x in xs ==> x !in ys
    ensures Missing(xs, ys) == xs
  {
  }

  datatype IdDiff = IdDiff(create: seq<string>, delete: seq<string>)

  /** The ids to create (wanted, not deployed) and to delete (deployed, not wanted). */
  function Diff(wanted: seq<string>, deployed: seq<string>): (r: IdDiff)
    ensures forall x :: x in r.create <==> x in wanted && x !in deployed
    ensures forall x :: x in r.delete <==> x in deployed && x !in wanted
    ensures forall x :: !(x in r.create && x in r.delete)
    ensures (r.create == [] && r.delete == []) <==> (forall x :: x in wanted <==> x in deployed)
  {
    var r := IdDiff(Missing(wanted, deployed), Missing(deployed, wanted));
    assert r.create != [] ==> r.create[0] in r.create;
    assert r.delete != [] ==> r.delete[0] in r.delete;
    r
  }

  /** `ids.map(serviceId => ({ serviceId }))`. */
  function ServiceSteps(ids: seq<string>): (r: seq<Step>)
    ensures |r| == |ids|
    ensures forall i :: 0 <= i < |ids| ==> r[i] == ServiceStep(ids[i])
    ensures forall s :: s in r <==> s.ServiceStep? && s.serviceId in ids
  {
    if ids == [] then [] else [ServiceStep(ids[0])] + ServiceSteps(ids[1..])
  }

  /** `ids.map(layerId => ({ layerId }))`. */
  function LayerSteps(ids: seq<string>): (r: seq<Step>)
    ensures |r| == |ids|
    ensures forall i :: 0 <= i < |ids| ==> r[i] == LayerStep(ids[i])
    ensures forall s :: s in r <==> s.LayerStep? && s.layerId in ids
  {
    if ids == [] then [] else [LayerStep(ids[0])] + LayerSteps(ids[1..])
  }

  /**
   * `servicesSteps`: `createServices` lists the wanted service ids the deployed `state.services`
   * object has no key for, `deleteServices` the deployed keys no longer wanted.
   */
  function ServicesSteps(wanted: seq<string>, deployed: Json): (r: (seq<Step>, seq<Step>))
    ensures forall s :: s in r.0 <==> s.ServiceStep? && s.serviceId in wanted && s.serviceId !in Keys(Entries(deployed))
    ensures forall s :: s in r.1 <==> s.ServiceStep? && s.serviceId in Keys(Entries(deployed)) && s.serviceId !in wanted
    ensures (r.0 == [] && r.1 == []) <==> (forall x :: x in wanted <==> x in Keys(Entries(deployed)))
  {
    var d := Diff(wanted, Keys(Entries(deployed)));
    (ServiceSteps(d.create), ServiceSteps(d.delete))
  }

  /** `serviceLayersSteps`: the same difference between the wanted layer ids and the keys of `state.layers`. */
  function ServiceLayersSteps(wanted: seq<string>, deployed: Json): (r: (seq<Step>, seq<Step>))
    ensures forall s :: s in r.0 <==> s.LayerStep? && s.layerId in wanted && s.layerId !in Keys(Entries(deployed))
    ensures forall s :: s in r.1 <==> s.LayerStep? && s.layerId in Keys(Entries(deployed)) && s.layerId !in wanted
    ensures (r.0 == [] && r.1 == []) <==> (forall x :: x in wanted <==> x in Keys(Entries(deployed)))
  {
    var d := Diff(wanted, Keys(Entries(deployed)));
    (LayerSteps(d.create), LayerSteps(d.delete))
  }
}
