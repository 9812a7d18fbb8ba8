/**
 * `permissionsSteps` (functions/agent-backend/App.js): every dependency of a resource grants the
 * resource's service a role on the dependency's target.  The grants are collected, as
 * `service:resourceId:role` strings, into one list per target for the deployed state and one
 * for the architecture, and the two groupings are diffed target by target into
 * `createPermissions` and `deletePermissions` steps.
 */
module Permissions {
  import opened Wrappers
  import opened Json
  import opened Steps
  import IdSteps

  /** The entries of a JavaScript object: `architecture`, `state.resources`. */
  type Fields = seq<(string, Json)>

  // ---------------------------------------------------------------------------------
  // Role strings.

  /** The template literal `${service}:${resourceId}:${role}`. */
  function RoleString(service: string, resourceId: string, role: string): (p: string)
    ensures |p| == |service| + |resourceId| + |role| + 2
  {
    service + ":" + resourceId + ":" + role
  }

  /** `s.split(':')`. */
  function Split(s: string): (r: seq<string>)
    ensures |r| >= 1
  {
    if s == [] then [""]
    else
      var rest := Split(s[1..]);
      if s[0] == ':' then [""] + rest else [[s[0]] + rest[0]] + rest[1..]
  }

  lemma {:induction false} SplitNoColon(s: string)
    requires ':' !in s
    ensures Split(s) == [s]
  {
    if s != [] {
      assert ':' !in s[1..] by { assert forall c :: c in s[1..] ==> c in s; }
      SplitNoColon(s[1..]);
      assert [s[0]] + s[1..] == s;
    }
  }

  /** Splitting at a colon splits the two sides independently. */
  lemma {:induction false} SplitAtColon(a: string, b: string)
    ensures Split(a + ":" + b) == Split(a) + Split(b)
  {
    if a == [] {
      assert a + ":" + b == [':'] + b;
      assert ([':'] + b)[1..] == b;
    } else {
      var s := a + ":" + b;
      assert s[0] == a[0];
      assert s[1..] == a[1..] + ":" + b;
      SplitAtColon(a[1..], b);
    }
  }

  /** `const [service, resourceId, role] = p.split(':')`: the first three pieces. */
  function Parse(p: string): Grant
  {
    var pieces := Split(p);
    Grant(pieces[0],
          if |pieces| > 1 then pieces[1] else "undefined",
          if |pieces| > 2 then pieces[2] else "undefined")
  }

  /** A role string splits into at least the three pieces the destructuring reads. */
  lemma RoleStringPieces(service: string, resourceId: string, role: string)
    ensures |Split(RoleString(service, resourceId, role))| >= 3
  {
    SplitAtColon(service + ":" + resourceId, role);
    SplitAtColon(service, resourceId);
  }

  /** Parsing gives back the grant a role string was made of, when no part contains a colon. */
  lemma ParseRoleString(service: string, resourceId: string, role: string)
    requires ':' !in service && ':' !in resourceId && ':' !in role
    ensures Parse(RoleString(service, resourceId, role)) == Grant(service, resourceId, role)
  {
    SplitAtColon(service + ":" + resourceId, role);
    SplitAtColon(service, resourceId);
    SplitNoColon(service);
    SplitNoColon(resourceId);
    SplitNoColon(role);
  }

  /** A service name holding a colon shifts the pieces: the grant read back is not the one written. */
  lemma ColonInServiceName()
    ensures Parse(RoleString("a:b", "db", "reader")) == Grant("a", "b", "db")
  {
    SplitAtColon("a:b" + ":" + "db", "reader");
    SplitAtColon("a:b", "db");
    SplitAtColon("a", "b");
    SplitNoColon("a");
    SplitNoColon("b");
    SplitNoColon("db");
    SplitNoColon("reader");
    assert RoleString("a:b", "db", "reader") == "a:b" + ":" + "db" + ":" + "reader";
  }

  /** `roles.map(p => { const [service, resourceId, role] = p.split(':'); ... })`. */
  function Grants(roles: seq<string>): (r: seq<Grant>)
    ensures |r| == |roles|
    ensures forall i :: 0 <= i < |roles| ==> r[i] == Parse(roles[i])
  {
    seq(|roles|, i requires 0 <= i < |roles| => Parse(roles[i]))
  }

  /** The role strings a list of grants is stored as. */
  function RoleStrings(gs: seq<Grant>): (r: seq<string>)
    ensures |r| == |gs|
  {
    seq(|gs|, i requires 0 <= i < |gs| => RoleString(gs[i].service, gs[i].resourceId, gs[i].role))
  }

  /** A grant none of whose parts holds a colon. */
  predicate ColonFree(g: Grant)
  {
    ':' !in g.service && ':' !in g.resourceId && ':' !in g.role
  }

  /** The permission steps report back exactly the grants stored as role strings, when no part holds a colon. */
  lemma GrantsRoundTrip(gs: seq<Grant>)
    requires forall i :: 0 <= i < |gs| ==> ColonFree(gs[i])
    ensures Grants(RoleStrings(gs)) == gs
  {
    forall i | 0 <= i < |gs| ensures Grants(RoleStrings(gs))[i] == gs[i] {
      ParseRoleString(gs[i].service, gs[i].resourceId, gs[i].role);
    }
  }

  // ---------------------------------------------------------------------------------
  // The grants of one resource.

  /** `resource.service.name` is read only when there is a dependency to grant. */
  predicate NamesService(res: Json)
  {
    Prop(res, "dependencies").Some? && |Entries(Prop(res, "dependencies").value)| > 0 ==>
      Prop(res, "service").Some?
  }

  /**
   * The `(target, role string)` pairs `Object.values(resource.dependencies)` yields, in order:
   * the target is `dependency.resourceId` used as a property key.
   */
  function Pairs(id: string, res: Json): (r: seq<(string, string)>)
    requires Prop(res, "dependencies").Some? && NamesService(res)
    ensures |r| == |Entries(Prop(res, "dependencies").value)|
  {
    var deps := Entries(Prop(res, "dependencies").value);
    seq(|deps|, j requires 0 <= j < |deps| =>
      (Text(Prop(deps[j].1, "resourceId")),
       RoleString(Text(PropOf(Prop(res, "service"), "name")), id, Text(Prop(deps[j].1, "role")))))
  }

  /** A deployed entry whose `resource?.dependencies` is truthy can name its service. */
  predicate StateEntryReadable(doc: Json)
  {
    Prop(doc, "resource").Some? ==> NamesService(Prop(doc, "resource").value)
  }

  predicate StateReadable(state: Fields)
  {
    forall i :: 0 <= i < |state| ==> StateEntryReadable(state[i].1)
  }

  predicate ArchReadable(arch: Fields)
  {
    forall i :: 0 <= i < |arch| ==> NamesService(arch[i].1)
  }

  /** What the source needs to read both sides without throwing. */
  predicate PermissionsReadable(state: Fields, arch: Fields)
  {
    StateReadable(state) && ArchReadable(arch)
  }

  /** The pairs the deployed state contributes: entries whose `resource?.dependencies` is truthy. */
  function StatePairs(state: Fields): seq<(string, string)>
    requires StateReadable(state)
  {
    if state == [] then []
    else
      var (id, doc) := state[|state| - 1];
      assert StateEntryReadable(state[|state| - 1].1);
      StatePairs(state[..|state| - 1]) +
      if Truthy(PropOf(Prop(doc, "resource"), "dependencies")) then Pairs(id, Prop(doc, "resource").value) else []
  }

  /** The pairs the architecture contributes: entries whose `dependencies` is truthy. */
  function ArchPairs(arch: Fields): seq<(string, string)>
    requires ArchReadable(arch)
  {
    if arch == [] then []
    else
      var (id, res) := arch[|arch| - 1];
      ArchPairs(arch[..|arch| - 1]) + if Truthy(Prop(res, "dependencies")) then Pairs(id, res) else []
  }

  // ---------------------------------------------------------------------------------
  // Grouping by target: `statePermissions` and `permissions`.

  /** A dictionary from target to role strings; `order` is the order its keys were added in. */
  datatype Groups = Groups(order: seq<string>, roles: map<string, seq<string>>)

  predicate NoDuplicates(xs: seq<string>)
  {
    forall i, j :: 0 <= i < j < |xs| ==> xs[i] != xs[j]
  }

  /** The keys are the listed targets, each listed once, and no target holds a role twice. */
  predicate Valid(g: Groups)
  {
    (forall t :: t in g.roles ==> t in g.order) &&
    (forall t :: t in g.order ==> t in g.roles) &&
    NoDuplicates(g.order) &&
    (forall t :: t in g.roles ==> NoDuplicates(g.roles[t]))
  }

  const Empty := Groups([], map[])

  /**
   * One iteration of the inner `forEach`: the target gets an empty list if it has none, and
   * the role is pushed unless the list includes it already.
   */
  function AddRole(g: Groups, target: string, role: string): (r: Groups)
    requires Valid(g)
    ensures Valid(r)
    ensures target in r.roles && role in r.roles[target]
    ensures forall t :: t in r.roles <==> t in g.roles || t == target
    ensures forall t :: t in g.roles && t != target ==> r.roles[t] == g.roles[t]
    ensures target in g.roles ==>
              r.order == g.order && r.roles[target] == if role in g.roles[target] then g.roles[target] else g.roles[target] + [role]
    ensures target !in g.roles ==> r.order == g.order + [target] && r.roles[target] == [role]
  {
    var g1 := if target in g.roles then g else Groups(g.order + [target], g.roles[target := []]);
    if role in g1.roles[target] then g1 else Groups(g1.order, g1.roles[target := g1.roles[target] + [role]])
  }

  /** The inner loops, folded over a list of pairs. */
  function AddRoles(g: Groups, pairs: seq<(string, string)>): (r: Groups)
    requires Valid(g)
    ensures Valid(r)
  {
    if pairs == [] then g
    else
      var last := pairs[|pairs| - 1];
      AddRole(AddRoles(g, pairs[..|pairs| - 1]), last.0, last.1)
  }

  lemma AddRolesStep(g: Groups, pairs: seq<(string, string)>, j: int)
    requires Valid(g) && 0 <= j < |pairs|
    ensures Valid(AddRoles(g, pairs[..j]))
    ensures AddRoles(g, pairs[..j + 1]) == AddRole(AddRoles(g, pairs[..j]), pairs[j].0, pairs[j].1)
  {
    assert pairs[..j + 1][..j] == pairs[..j];
  }

  lemma {:induction false} AddRolesConcat(g: Groups, a: seq<(string, string)>, b: seq<(string, string)>)
    requires Valid(g)
    ensures AddRoles(g, a + b) == AddRoles(AddRoles(g, a), b)
    decreases |b|
  {
    if b == [] {
      assert a + b == a;
    } else {
      assert (a + b)[..|a + b| - 1] == a + b[..|b| - 1];
      AddRolesConcat(g, a, b[..|b| - 1]);
    }
  }

  function TargetsOf(pairs: seq<(string, string)>): seq<string>
  {
    seq(|pairs|, i requires 0 <= i < |pairs| => pairs[i].0)
  }

  lemma PairTarget(pairs: seq<(string, string)>, p: (string, string))
    ensures p in pairs ==> p.0 in TargetsOf(pairs)
  {
    if p in pairs {
      var k :| 0 <= k < |pairs| && pairs[k] == p;
      assert TargetsOf(pairs)[k] == p.0;
    }
  }

  /**
   * The grouping holds exactly the targets of the pairs, and under each target exactly the
   * roles paired with it, each once.
   */
  lemma {:induction false} GroupMeaning(pairs: seq<(string, string)>)
    ensures Valid(AddRoles(Empty, pairs))
    ensures forall t :: t in AddRoles(Empty, pairs).roles <==> t in TargetsOf(pairs)
    ensures forall t, role :: t in AddRoles(Empty, pairs).roles ==>
              (role in AddRoles(Empty, pairs).roles[t] <==> (t, role) in pairs)
  {
    if pairs != [] {
      var init := pairs[..|pairs| - 1];
      var last := pairs[|pairs| - 1];
      assert pairs == init + [last];
      GroupMeaning(init);
      var g0 := AddRoles(Empty, init);
      var g := AddRoles(Empty, pairs);
      assert g == AddRole(g0, last.0, last.1);
      assert TargetsOf(pairs) == TargetsOf(init) + [last.0];
      forall t, role | t in g.roles ensures role in g.roles[t] <==> (t, role) in pairs {
        assert (t, role) in pairs <==> (t, role) in init || (t, role) == last;
        if t != last.0 {
          assert t in g0.roles;
        } else if t !in g0.roles {
          PairTarget(init, (t, role));
        }
      }
    }
  }

  // ---------------------------------------------------------------------------------
  // The diff.

  /** What happens to a target: new, gone, or on both sides (more or fewer roles). */
  datatype Change = New | Gone | More | Fewer

  /** The grouping a change reads the target's list from must hold it. */
  predicate Ready(change: Change, next: Groups, prev: Groups, t: string)
  {
    match change
    case Gone => t in prev.roles
    case _ => t in next.roles
  }

  /** `[...new Set(xs)]`: the first occurrence of every element, in order. */
  function Dedup(xs: seq<string>): (r: seq<string>)
    ensures NoDuplicates(r)
    ensures forall x :: x in r <==> x in xs
  {
    if xs == [] then []
    else
      var d := Dedup(xs[..|xs| - 1]);
      var last := xs[|xs| - 1];
      assert forall x :: x in xs <==> x in xs[..|xs| - 1] || x == last;
      if last in d then d else d + [last]
  }

  lemma {:induction false} DedupDistinct(xs: seq<string>)
    requires NoDuplicates(xs)
    ensures Dedup(xs) == xs
  {
    if xs != [] {
      var init := xs[..|xs| - 1];
      DedupDistinct(init);
      assert xs == init + [xs[|xs| - 1]];
    }
  }

  /** The step, if any, the diff makes of target `t` under `change`. */
  function StepOf(change: Change, next: Groups, prev: Groups, t: string): (r: Option<Step>)
    requires Ready(change, next, prev, t)
    ensures r.Some? ==> r.value.PermissionStep? && r.value.target == t
  {
    match change
    case New =>
      if t !in prev.roles then Some(PermissionStep(t, Grants(next.roles[t]))) else None
    case Gone =>
      if t !in next.roles then Some(PermissionStep(t, Grants(prev.roles[t]))) else None
    case More =>
      if t in prev.roles && IdSteps.Missing(next.roles[t], prev.roles[t]) != [] then
        Some(PermissionStep(t, Grants(Dedup(prev.roles[t] + IdSteps.Missing(next.roles[t], prev.roles[t])))))
      else None
    case Fewer =>
      if t in prev.roles && IdSteps.Missing(prev.roles[t], next.roles[t]) != [] then
        Some(PermissionStep(t, Grants(next.roles[t])))
      else None
  }

  /** The steps `change` makes of the targets `ts`, in order. */
  function DiffSteps(change: Change, next: Groups, prev: Groups, ts: seq<string>): (r: seq<Step>)
    requires forall t :: t in ts ==> Ready(change, next, prev, t)
    ensures |r| <= |ts|
  {
    if ts == [] then []
    else
      var rest := DiffSteps(change, next, prev, ts[..|ts| - 1]);
      var t := ts[|ts| - 1];
      if StepOf(change, next, prev, t).Some? then rest + [StepOf(change, next, prev, t).value] else rest
  }

  /** The targets a change walks: the deployed keys for `Gone`, the architecture's otherwise. */
  function Order(change: Change, next: Groups, prev: Groups): (ts: seq<string>)
    requires Valid(next) && Valid(prev)
    ensures NoDuplicates(ts)
    ensures forall t :: t in ts ==> Ready(change, next, prev, t)
  {
    if change == Gone then prev.order else next.order
  }

  /** Over distinct targets, the steps of `t` are the one `change` makes of it. */
  lemma {:induction false} DiffStepsAt(change: Change, next: Groups, prev: Groups, ts: seq<string>, t: string, grants: seq<Grant>)
    requires forall u :: u in ts ==> Ready(change, next, prev, u)
    requires NoDuplicates(ts)
    ensures PermissionStep(t, grants) in DiffSteps(change, next, prev, ts) <==>
            t in ts && StepOf(change, next, prev, t) == Some(PermissionStep(t, grants))
  {
    if ts != [] {
      var init := ts[..|ts| - 1];
      var last := ts[|ts| - 1];
      assert ts == init + [last];
      assert forall u :: u in ts <==> u in init || u == last;
      assert last !in init by {
        forall i | 0 <= i < |init| ensures init[i] != last {
          assert ts[i] != ts[|ts| - 1];
        }
      }
      DiffStepsAt(change, next, prev, init, t, grants);
    }
  }

  datatype PermissionPlan = PermissionPlan(create: seq<Step>, delete: seq<Step>)

  /**
   * The diff of the architecture's grouping `next` against the deployed `prev`:
   * `createPermissions` holds the new targets, then the targets that gained roles (both in the
   * architecture's key order); `deletePermissions` the gone targets (deployed key order), then
   * the targets that lost roles.
   */
  function Diff(next: Groups, prev: Groups): PermissionPlan
    requires Valid(next) && Valid(prev)
  {
    PermissionPlan(
      DiffSteps(New, next, prev, Order(New, next, prev)) + DiffSteps(More, next, prev, Order(More, next, prev)),
      DiffSteps(Gone, next, prev, Order(Gone, next, prev)) + DiffSteps(Fewer, next, prev, Order(Fewer, next, prev)))
  }

  /** The groupings of both sides. */
  function StateGroups(state: Fields): Groups
    requires StateReadable(state)
  {
    AddRoles(Empty, StatePairs(state))
  }

  function ArchGroups(arch: Fields): Groups
    requires ArchReadable(arch)
  {
    AddRoles(Empty, ArchPairs(arch))
  }

  /** `mask.createPermissions` and `mask.deletePermissions` as `permissionsSteps` sets them. */
  function PermissionsPlan(state: Fields, arch: Fields): PermissionPlan
    requires PermissionsReadable(state, arch)
  {
    Diff(ArchGroups(arch), StateGroups(state))
  }

  // ---------------------------------------------------------------------------------
  // The loops of `permissionsSteps`.

  /** The inner `forEach` over `Object.values(resource.dependencies)`. */
  method AddDependencies(g: Groups, id: string, res: Json) returns (r: Groups)
    requires Valid(g) && Prop(res, "dependencies").Some? && NamesService(res)
    ensures r == AddRoles(g, Pairs(id, res))
  {
    var deps := Entries(Prop(res, "dependencies").value);
    var service := Text(PropOf(Prop(res, "service"), "name"));
    ghost var pairs := Pairs(id, res);
    var order, roles := g.order, g.roles;
    for j := 0 to |deps|
      invariant Groups(order, roles) == AddRoles(g, pairs[..j])
    {
      AddRolesStep(g, pairs, j);
      var dependency := deps[j].1;
      var target := Text(Prop(dependency, "resourceId"));
      var role := RoleString(service, id, Text(Prop(dependency, "role")));
      ghost var before := Groups(order, roles);
      assert pairs[j] == (target, role);
      if target !in roles {
        order, roles := order + [target], roles[target := []];
      }
      if role !in roles[target] {
        roles := roles[target := roles[target] + [role]];
      }
      assert Groups(order, roles) == AddRole(before, target, role);
    }
    assert pairs[..|deps|] == pairs;
    r := Groups(order, roles);
  }

  /** One more deployed entry adds the pairs of its resource, when its dependencies are truthy. */
  lemma StatePairsStep(state: Fields, i: int)
    requires StateReadable(state)
    requires 0 <= i < |state|
    ensures StateReadable(state[..i]) && StateReadable(state[..i + 1])
    ensures var (id, doc) := state[i];
            StatePairs(state[..i + 1]) ==
            StatePairs(state[..i]) +
            if Truthy(PropOf(Prop(doc, "resource"), "dependencies")) then Pairs(id, Prop(doc, "resource").value) else []
  {
    assert state[..i + 1][..i] == state[..i];
  }

  /** One more architecture entry adds the pairs of its dependencies, when they are truthy. */
  lemma ArchPairsStep(arch: Fields, i: int)
    requires ArchReadable(arch)
    requires 0 <= i < |arch|
    ensures ArchReadable(arch[..i]) && ArchReadable(arch[..i + 1])
    ensures var (id, res) := arch[i];
            ArchPairs(arch[..i + 1]) == ArchPairs(arch[..i]) + if Truthy(Prop(res, "dependencies")) then Pairs(id, res) else []
  {
    assert arch[..i + 1][..i] == arch[..i];
  }

  /** `statePermissions`: the first outer `forEach`. */
  method CollectStateGroups(state: Fields) returns (g: Groups)
    requires StateReadable(state)
    ensures g == StateGroups(state)
  {
    g := Empty;
    for i := 0 to |state|
      invariant g == AddRoles(Empty, StatePairs(state[..i]))
    {
      StatePairsStep(state, i);
      var (id, doc) := state[i];
      if Truthy(PropOf(Prop(doc, "resource"), "dependencies")) {
        var resource := Prop(doc, "resource").value;
        ghost var done, more := StatePairs(state[..i]), Pairs(id, resource);
        g := AddDependencies(g, id, resource);
        AddRolesConcat(Empty, done, more);
        assert StatePairs(state[..i + 1]) == done + more;
        assert g == AddRoles(Empty, done + more);
      } else {
        assert StatePairs(state[..i + 1]) == StatePairs(state[..i]) + [];
        assert StatePairs(state[..i + 1]) == StatePairs(state[..i]);
      }
    }
    assert state[..|state|] == state;
  }

  /** `permissions`: the second outer `forEach`. */
  method CollectArchGroups(arch: Fields) returns (g: Groups)
    requires ArchReadable(arch)
    ensures g == ArchGroups(arch)
  {
    g := Empty;
    for i := 0 to |arch|
      invariant g == AddRoles(Empty, ArchPairs(arch[..i]))
    {
      ArchPairsStep(arch, i);
      var (id, res) := arch[i];
      if Truthy(Prop(res, "dependencies")) {
        ghost var done, more := ArchPairs(arch[..i]), Pairs(id, res);
        g := AddDependencies(g, id, res);
        AddRolesConcat(Empty, done, more);
        assert ArchPairs(arch[..i + 1]) == done + more;
        assert g == AddRoles(Empty, done + more);
      } else {
        assert ArchPairs(arch[..i + 1]) == ArchPairs(arch[..i]) + [];
        assert ArchPairs(arch[..i + 1]) == ArchPairs(arch[..i]);
      }
    }
    assert arch[..|arch|] == arch;
  }

  /** One of the three diffing `forEach` loops: pushes the step `change` makes of each target. */
  method PushSteps(change: Change, next: Groups, prev: Groups) returns (steps: seq<Step>)
    requires Valid(next) && Valid(prev)
    ensures steps == DiffSteps(change, next, prev, Order(change, next, prev))
  {
    var ts := Order(change, next, prev);
    steps := [];
    for i := 0 to |ts|
      invariant steps == DiffSteps(change, next, prev, ts[..i])
    {
      assert ts[..i + 1][..i] == ts[..i];
      var step := StepOf(change, next, prev, ts[i]);
      if step.Some? {
        steps := steps + [step.value];
      }
    }
    assert ts[..|ts|] == ts;
  }

  /** `permissionsSteps(mask, state, architecture)`, with both sides given by their entries. */
  method PermissionsSteps(state: Fields, arch: Fields) returns (plan: PermissionPlan)
    requires PermissionsReadable(state, arch)
    ensures plan == PermissionsPlan(state, arch)
  {
    var prev := CollectStateGroups(state);
    var next := CollectArchGroups(arch);
    var created := PushSteps(New, next, prev);
    var deleted := PushSteps(Gone, next, prev);
    var gained := PushSteps(More, next, prev);
    var lost := PushSteps(Fewer, next, prev);
    plan := PermissionPlan(created + gained, deleted + lost);
  }

  // ---------------------------------------------------------------------------------
  // What the plan holds for one target.

  /**
   * `statePermissions` and `permissions` hold exactly the targets of the grants derived from
   * their side, and under each target exactly its role strings, none twice.
   */
  lemma GroupsMeaning(state: Fields, arch: Fields, t: string, role: string)
    requires PermissionsReadable(state, arch)
    ensures var prev := StateGroups(state);
            (t in prev.roles <==> t in TargetsOf(StatePairs(state))) &&
            (t in prev.roles ==> NoDuplicates(prev.roles[t]) && (role in prev.roles[t] <==> (t, role) in StatePairs(state)))
    ensures var next := ArchGroups(arch);
            (t in next.roles <==> t in TargetsOf(ArchPairs(arch))) &&
            (t in next.roles ==> NoDuplicates(next.roles[t]) && (role in next.roles[t] <==> (t, role) in ArchPairs(arch)))
  {
    GroupMeaning(StatePairs(state));
    GroupMeaning(ArchPairs(arch));
  }

  /** The steps of one change, one target at a time. */
  lemma ChangeAt(change: Change, next: Groups, prev: Groups, t: string, grants: seq<Grant>)
    requires Valid(next) && Valid(prev)
    ensures var ts := Order(change, next, prev);
            PermissionStep(t, grants) in DiffSteps(change, next, prev, ts) <==>
            t in ts && StepOf(change, next, prev, t) == Some(PermissionStep(t, grants))
  {
    DiffStepsAt(change, next, prev, Order(change, next, prev), t, grants);
  }

  /** A target only the architecture names gets one create step with its whole list, and no delete step. */
  lemma NewTargetSteps(next: Groups, prev: Groups, t: string, grants: seq<Grant>)
    requires Valid(next) && Valid(prev)
    requires t in next.roles && t !in prev.roles
    ensures PermissionStep(t, grants) in Diff(next, prev).create <==> grants == Grants(next.roles[t])
    ensures PermissionStep(t, grants) !in Diff(next, prev).delete
  {
    ChangeAt(New, next, prev, t, grants);
    ChangeAt(More, next, prev, t, grants);
    ChangeAt(Gone, next, prev, t, grants);
    ChangeAt(Fewer, next, prev, t, grants);
  }

  /** A target only the deployed state names gets one delete step with its prior list, and no create step. */
  lemma GoneTargetSteps(next: Groups, prev: Groups, t: string, grants: seq<Grant>)
    requires Valid(next) && Valid(prev)
    requires t !in next.roles && t in prev.roles
    ensures PermissionStep(t, grants) in Diff(next, prev).delete <==> grants == Grants(prev.roles[t])
    ensures PermissionStep(t, grants) !in Diff(next, prev).create
  {
    ChangeAt(New, next, prev, t, grants);
    ChangeAt(More, next, prev, t, grants);
    ChangeAt(Gone, next, prev, t, grants);
    ChangeAt(Fewer, next, prev, t, grants);
  }

  /**
   * A target on both sides gets a create step when it gained roles, listing the prior roles and
   * then the gained ones, and a delete step when it lost roles, listing the roles it keeps
   * (the architecture's list, not the lost ones).
   */
  lemma KeptTargetSteps(next: Groups, prev: Groups, t: string, grants: seq<Grant>)
    requires Valid(next) && Valid(prev)
    requires t in next.roles && t in prev.roles
    ensures var gained := IdSteps.Missing(next.roles[t], prev.roles[t]);
            PermissionStep(t, grants) in Diff(next, prev).create <==>
              gained != [] && grants == Grants(prev.roles[t] + gained)
    ensures var lost := IdSteps.Missing(prev.roles[t], next.roles[t]);
            PermissionStep(t, grants) in Diff(next, prev).delete <==>
              lost != [] && grants == Grants(next.roles[t])
  {
    ChangeAt(New, next, prev, t, grants);
    ChangeAt(More, next, prev, t, grants);
    ChangeAt(Gone, next, prev, t, grants);
    ChangeAt(Fewer, next, prev, t, grants);
    var gained := IdSteps.Missing(next.roles[t], prev.roles[t]);
    MissingNoDuplicates(next.roles[t], prev.roles[t]);
    MergeDistinct(prev.roles[t], gained);
  }

  /** `prev` and the roles it lacks, without duplicates, need no deduplication. */
  lemma MergeDistinct(prev: seq<string>, gained: seq<string>)
    requires NoDuplicates(prev) && NoDuplicates(gained)
    requires forall x :: x in gained ==> x !in prev
    ensures NoDuplicates(prev + gained)
    ensures Dedup(prev + gained) == prev + gained
  {
    var s := prev + gained;
    forall i, j | 0 <= i < j < |s| ensures s[i] != s[j] {
      if j < |prev| {
      } else if i >= |prev| {
        assert s[i] == gained[i - |prev|] && s[j] == gained[j - |prev|];
      } else {
        assert s[i] in prev && s[j] in gained;
      }
    }
    DedupDistinct(s);
  }

  /** `added` filters a list without duplicates, so it has none either. */
  lemma MissingNoDuplicates(xs: seq<string>, ys: seq<string>)
    requires NoDuplicates(xs)
    ensures NoDuplicates(IdSteps.Missing(xs, ys))
  {
    if xs != [] {
      assert NoDuplicates(xs[1..]) by {
        forall i, j | 0 <= i < j < |xs[1..]| ensures xs[1..][i] != xs[1..][j] {
          assert xs[i + 1] != xs[j + 1];
        }
      }
      MissingNoDuplicates(xs[1..], ys);
      assert xs[0] !in xs[1..] by {
        forall i | 0 <= i < |xs[1..]| ensures xs[1..][i] != xs[0] {
          assert xs[0] != xs[i + 1];
        }
      }
    }
  }

  /** Targets whose deployed and desired roles are the same set get no step at all. */
  lemma SameRolesNoSteps(next: Groups, prev: Groups, t: string, grants: seq<Grant>)
    requires Valid(next) && Valid(prev)
    requires t in next.roles && t in prev.roles
    requires forall role :: role in next.roles[t] <==> role in prev.roles[t]
    ensures PermissionStep(t, grants) !in Diff(next, prev).create
    ensures PermissionStep(t, grants) !in Diff(next, prev).delete
  {
    KeptTargetSteps(next, prev, t, grants);
    var gained := IdSteps.Missing(next.roles[t], prev.roles[t]);
    var lost := IdSteps.Missing(prev.roles[t], next.roles[t]);
    NoMemberEmpty(gained);
    NoMemberEmpty(lost);
  }

  lemma NoMemberEmpty(xs: seq<string>)
    ensures (forall x :: x !in xs) ==> xs == []
  {
    if xs != [] {
      assert xs[0] in xs;
    }
  }
}
