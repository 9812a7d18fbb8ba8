/**
 * The deployment queue of functions/agent-backend/DeploymentQueue.js for one app: the app
 * document, its `deployments` sub-collection keyed by document id, and the passes that move a
 * deployment along `PENDING -> DEPLOYING -> {DEPLOYED, FAILED, CANCELLED}` or `PENDING -> SKIPPED`.
 *
 * Each pass is a function on a `Store` (the specification) and a method of `DeploymentQueue`
 * that updates the fields in place; the clock, the uuid and the workflow engine are parameters.
 */
module DeploymentQueue {
  import opened Wrappers
  import Engine

  /** `State.Deployment`. */
  datatype DeploymentState = Pending | Deploying | Deployed | Failed | Cancelled | Skipped

  /** `State.App`. */
  datatype AppState = Created | Deploying | Deployed | Failed | Cancelled

  /** The app's `deploying` field: the deployment it follows. */
  datatype DeployingRef = DeployingRef(architectureFile: string, deploymentId: string)

  /** The app document. */
  datatype App = App(state: AppState, createdAt: int, deploying: Option<DeployingRef>, architectureFile: Option<string>)

  /** A deployment document; the optional fields are absent until a pass writes them. */
  datatype Deployment = Deployment(
    deploymentId: string,
    createdAt: int,
    checkedAt: int,
    state: DeploymentState,
    architectureFile: string,
    artifactsFile: string,
    execution: Option<string>,
    completedAt: Option<int>,
    deployingAt: Option<int>)

  /** The stored documents of the app. */
  datatype Store = Store(app: Option<App>, deployments: map<string, Deployment>)

  /** Why a pass fails. */
  datatype QueueError =
    | EngineUnavailable  // `getExecution` rejected for a running deployment
    | MissingApp         // the transaction updated an app document that does not exist
    | NotStarted         // `createExecution` rejected

  /** What a pass returns, with the documents it leaves. */
  datatype Outcome<T> = Outcome(result: Result<T, QueueError>, store: Store)

  /** What `getDeployment` answers. */
  datatype Fetched = Missing | Found(deployment: Deployment)

  /** The engine: the execution, if `getExecution` answers, of an execution name. */
  type Workflows = Option<string> -> Option<Engine.Execution>

  /** A deployment the `state in [DEPLOYING, PENDING]` queries select. */
  predicate Queued(d: Deployment)
  {
    d.state == Pending || d.state == DeploymentState.Deploying
  }

  /** A deployment no pass modifies any more. */
  predicate Terminal(s: DeploymentState)
  {
    s == DeploymentState.Deployed || s == DeploymentState.Failed || s == DeploymentState.Cancelled || s == Skipped
  }

  /** Every deployment document stores its own id. */
  predicate KeysMatch(ds: map<string, Deployment>)
  {
    forall id :: id in ds ==> ds[id].deploymentId == id
  }

  // ---------------------------------------------------------------------------------
  // Queue order: `createdAt`, then the document id

  /** The order of document ids: lexicographic on characters. */
  predicate IdLess(a: string, b: string)
  {
    if a == [] then b != []
    else b != [] && (a[0] < b[0] || (a[0] == b[0] && IdLess(a[1..], b[1..])))
  }

  /** Two distinct ids are ordered one way or the other. */
  lemma {:induction false} IdLessTotal(a: string, b: string)
    ensures a == b || IdLess(a, b) || IdLess(b, a)
    decreases |a|
  {
    if a != [] && b != [] && a[0] == b[0] {
      IdLessTotal(a[1..], b[1..]);
      if a[1..] == b[1..] {
        assert a == [a[0]] + a[1..] && b == [b[0]] + b[1..];
      }
    }
  }

  /** No two ids are ordered both ways (so no id precedes itself). */
  lemma {:induction false} IdLessAsymmetric(a: string, b: string)
    ensures !(IdLess(a, b) && IdLess(b, a))
    decreases |a|
  {
    if a != [] && b != [] && a[0] == b[0] {
      IdLessAsymmetric(a[1..], b[1..]);
    }
  }

  lemma {:induction false} IdLessTransitive(a: string, b: string, c: string)
    requires IdLess(a, b) && IdLess(b, c)
    ensures IdLess(a, c)
    decreases |a|
  {
    if a != [] && a[0] == b[0] && b[0] == c[0] {
      IdLessTransitive(a[1..], b[1..], c[1..]);
    }
  }

  /** `a` comes before `b` in the `orderBy('createdAt', 'asc')` order, ties broken by id. */
  predicate Earlier(ds: map<string, Deployment>, a: string, b: string)
  {
    a in ds && b in ds &&
    (ds[a].createdAt < ds[b].createdAt || (ds[a].createdAt == ds[b].createdAt && IdLess(a, b)))
  }

  /** `Earlier` is a strict total order on the documents. */
  lemma EarlierOrder(ds: map<string, Deployment>, a: string, b: string, c: string)
    requires a in ds && b in ds && c in ds
    ensures a == b || Earlier(ds, a, b) || Earlier(ds, b, a)
    ensures !(Earlier(ds, a, b) && Earlier(ds, b, a))
    ensures Earlier(ds, a, b) && Earlier(ds, b, c) ==> Earlier(ds, a, c)
  {
    IdLessTotal(a, b);
    IdLessAsymmetric(a, b);
    if Earlier(ds, a, b) && Earlier(ds, b, c) && ds[a].createdAt == ds[b].createdAt == ds[c].createdAt {
      IdLessTransitive(a, b, c);
    }
  }

  /** `isFirstDeploymentQueued`: `id` heads the PENDING and DEPLOYING deployments. */
  predicate IsFirstQueued(ds: map<string, Deployment>, id: string)
  {
    id in ds && Queued(ds[id]) &&
    forall other :: other in ds && Queued(ds[other]) && other != id ==> Earlier(ds, id, other)
  }

  /** `isLastDeploymentQueued`: `id` is the latest PENDING deployment. */
  predicate IsLastQueued(ds: map<string, Deployment>, id: string)
  {
    id in ds && ds[id].state == Pending &&
    forall other :: other in ds && ds[other].state == Pending && other != id ==> Earlier(ds, other, id)
  }

  /** The ids among `ids` of the documents `keep` selects. */
  function Selected(ds: map<string, Deployment>, keep: Deployment -> bool): (r: set<string>)
    ensures forall id :: id in r <==> id in ds && keep(ds[id])
  {
    set id | id in ds && keep(ds[id])
  }

  /** Among a non-empty set of documents one comes first and one comes last. */
  lemma {:induction false} Extremes(ds: map<string, Deployment>, ids: set<string>)
    requires ids != {} && ids <= ds.Keys
    ensures exists m :: m in ids && forall o :: o in ids && o != m ==> Earlier(ds, m, o)
    ensures exists m :: m in ids && forall o :: o in ids && o != m ==> Earlier(ds, o, m)
    decreases |ids|
  {
    var x :| x in ids;
    if ids == {x} {
      assert forall o :: o in ids && o != x ==> Earlier(ds, x, o);
      assert forall o :: o in ids && o != x ==> Earlier(ds, o, x);
    } else {
      var rest := ids - {x};
      Extremes(ds, rest);
      var lo :| lo in rest && forall o :: o in rest && o != lo ==> Earlier(ds, lo, o);
      var hi :| hi in rest && forall o :: o in rest && o != hi ==> Earlier(ds, o, hi);
      EarlierOrder(ds, x, lo, x);
      EarlierOrder(ds, x, hi, x);
      if Earlier(ds, x, lo) {
        forall o | o in ids && o != x ensures Earlier(ds, x, o) {
          if o != lo { EarlierOrder(ds, x, lo, o); }
        }
      } else {
        assert Earlier(ds, lo, x);
        assert forall o :: o in ids && o != lo ==> Earlier(ds, lo, o);
      }
      if Earlier(ds, hi, x) {
        forall o | o in ids && o != x ensures Earlier(ds, o, x) {
          if o != hi { EarlierOrder(ds, o, hi, x); }
        }
      } else {
        assert Earlier(ds, x, hi);
        assert forall o :: o in ids && o != hi ==> Earlier(ds, o, hi);
      }
    }
  }

  /**
   * The two queries each select exactly one document as long as their filter selects any,
   * and none otherwise.
   */
  lemma QueueHeads(ds: map<string, Deployment>)
    ensures (exists id :: id in ds && Queued(ds[id])) <==> (exists id :: IsFirstQueued(ds, id))
    ensures (exists id :: id in ds && ds[id].state == Pending) <==> (exists id :: IsLastQueued(ds, id))
    ensures forall a, b :: IsFirstQueued(ds, a) && IsFirstQueued(ds, b) ==> a == b
    ensures forall a, b :: IsLastQueued(ds, a) && IsLastQueued(ds, b) ==> a == b
  {
    var queued := Selected(ds, Queued);
    if queued != {} {
      Extremes(ds, queued);
      var m :| m in queued && forall o :: o in queued && o != m ==> Earlier(ds, m, o);
      assert IsFirstQueued(ds, m);
    }
    var pending := Selected(ds, (d: Deployment) => d.state == Pending);
    if pending != {} {
      Extremes(ds, pending);
      var m :| m in pending && forall o :: o in pending && o != m ==> Earlier(ds, o, m);
      assert IsLastQueued(ds, m);
    }
    forall a, b | IsFirstQueued(ds, a) && IsFirstQueued(ds, b) ensures a == b {
      EarlierOrder(ds, a, b, a);
    }
    forall a, b | IsLastQueued(ds, a) && IsLastQueued(ds, b) ensures a == b {
      EarlierOrder(ds, a, b, a);
    }
  }

  /** A deploying deployment is the only one, and it precedes every pending one. */
  predicate Orderly(ds: map<string, Deployment>)
  {
    (forall a, b ::
       a in ds && b in ds && ds[a].state == DeploymentState.Deploying && ds[b].state == DeploymentState.Deploying
       ==> a == b) &&
    (forall a, b ::
       a in ds && b in ds && ds[a].state == DeploymentState.Deploying && ds[b].state == Pending
       ==> Earlier(ds, a, b))
  }

  // ---------------------------------------------------------------------------------
  // createAppIfNotExists and putDeployment

  /** `createAppIfNotExists` at time `now`. */
  function CreateApp(s: Store, now: int): (r: Store)
    ensures r.deployments == s.deployments
    ensures s.app.Some? ==> r == s
    ensures s.app.None? ==> r.app == Some(App(Created, now, None, None))
  {
    if s.app.Some? then s else s.(app := Some(App(Created, now, None, None)))
  }

  /**
   * `putDeployment(architectureFile, artifactsFile)` with the uuid `id`, the app creation time
   * `appNow`, the deployment's time `now` and the name of the execution `createExecution`
   * started (`None` when it rejected).
   */
  function PutDeploymentEffect(s: Store, id: string, architectureFile: string, artifactsFile: string,
                               appNow: int, now: int, started: Option<string>): Outcome<Deployment>
  {
    var created := CreateApp(s, appNow);
    var d := Deployment(id, now, now, Pending, architectureFile, artifactsFile, None, None, None);
    if started.None? then Outcome(Failure(NotStarted), created.(deployments := created.deployments[id := d]))
    else
      var d' := d.(execution := started);
      Outcome(Success(d'), created.(deployments := created.deployments[id := d']))
  }

  /**
   * `putDeployment` ensures the app exists and queues a new PENDING deployment stamped
   * `createdAt == checkedAt == now`, holding the execution's name once it started; no other
   * deployment changes.
   */
  lemma PutDeploymentQueues(s: Store, id: string, architectureFile: string, artifactsFile: string,
                            appNow: int, now: int, started: Option<string>)
    ensures var o := PutDeploymentEffect(s, id, architectureFile, artifactsFile, appNow, now, started);
            o.store.app.Some? && (s.app.Some? ==> o.store.app == s.app) &&
            id in o.store.deployments &&
            o.store.deployments[id].state == Pending && o.store.deployments[id].deploymentId == id &&
            o.store.deployments[id].createdAt == now && o.store.deployments[id].checkedAt == now &&
            o.store.deployments[id].execution == started &&
            (o.result.Success? <==> started.Some?) &&
            (o.result.Success? ==> o.result.value == o.store.deployments[id]) &&
            o.store.deployments.Keys == s.deployments.Keys + {id} &&
            (forall k :: k in s.deployments && k != id ==> o.store.deployments[k] == s.deployments[k])
  {
  }

  /** A deployment created after every other one keeps the queue orderly. */
  lemma PutDeploymentKeepsOrder(s: Store, id: string, architectureFile: string, artifactsFile: string,
                                appNow: int, now: int, started: Option<string>)
    requires Orderly(s.deployments) && KeysMatch(s.deployments)
    requires forall k :: k in s.deployments ==> s.deployments[k].createdAt < now
    ensures var o := PutDeploymentEffect(s, id, architectureFile, artifactsFile, appNow, now, started);
            Orderly(o.store.deployments) && KeysMatch(o.store.deployments)
  {
    var o := PutDeploymentEffect(s, id, architectureFile, artifactsFile, appNow, now, started);
    var ds, ds' := s.deployments, o.store.deployments;
    forall a, b | a in ds' && b in ds' && ds'[a].state == DeploymentState.Deploying && ds'[b].state == Pending
      ensures Earlier(ds', a, b)
    {
      assert a != id && a in ds && ds'[a] == ds[a];
      if b != id {
        assert b in ds && ds'[b] == ds[b];
        assert Earlier(ds, a, b);
      }
    }
  }

  // ---------------------------------------------------------------------------------
  // updateRunningDeployments

  /** The update a finished execution makes to a running deployment. */
  function Settle(d: Deployment, e: Engine.Execution, now: int): Deployment
  {
    match e.state
    case Succeeded => d.(state := DeploymentState.Deployed, checkedAt := now, completedAt := Some(e.endTime))
    case Cancelled => d.(state := DeploymentState.Cancelled, checkedAt := now, completedAt := Some(e.endTime))
    case Failed => d.(state := DeploymentState.Failed, checkedAt := now, completedAt := Some(e.endTime))
    case StateUnspecified => d.(state := DeploymentState.Failed, checkedAt := now, completedAt := Some(e.endTime))
    case _ => d
  }

  /** One deployment after the pass: only PENDING and DEPLOYING deployments are looked at. */
  function Reconcile(d: Deployment, engine: Workflows, now: int): Deployment
  {
    if Queued(d) && engine(d.execution).Some? then Settle(d, engine(d.execution).value, now) else d
  }

  /** Every running deployment's execution can be read. */
  predicate Reachable(ds: map<string, Deployment>, engine: Workflows)
  {
    forall id :: id in ds && Queued(ds[id]) ==> engine(ds[id].execution).Some?
  }

  /**
   * `updateRunningDeployments`: every execution is read first, so one that cannot be read
   * fails the pass before anything is written.
   */
  function Reconciliation(s: Store, engine: Workflows, now: int): Outcome<()>
  {
    if !Reachable(s.deployments, engine) then Outcome(Failure(EngineUnavailable), s)
    else Outcome(Success(()), s.(deployments := map id | id in s.deployments :: Reconcile(s.deployments[id], engine, now)))
  }

  /**
   * How the engine's state lands on a running deployment: SUCCEEDED, CANCELLED, FAILED and
   * STATE_UNSPECIFIED end it (stamping `checkedAt` and `completedAt`), even when it was still
   * PENDING; ACTIVE or any other state leaves it exactly as it was.  The id, the creation time,
   * the files, the execution and `deployingAt` never change.
   */
  lemma ReconcileOutcome(d: Deployment, e: Engine.Execution, now: int)
    requires Queued(d)
    ensures var r := Settle(d, e, now);
            (e.state == Engine.Succeeded ==> r.state == DeploymentState.Deployed) &&
            (e.state == Engine.Cancelled ==> r.state == DeploymentState.Cancelled) &&
            (e.state == Engine.Failed || e.state == Engine.StateUnspecified ==> r.state == DeploymentState.Failed) &&
            (Terminal(r.state) ==> r.checkedAt == now && r.completedAt == Some(e.endTime)) &&
            (!Terminal(r.state) <==> e.state == Engine.Active || e.state.Unlisted?) &&
            (!Terminal(r.state) ==> r == d) &&
            r.deploymentId == d.deploymentId && r.createdAt == d.createdAt &&
            r.architectureFile == d.architectureFile && r.artifactsFile == d.artifactsFile &&
            r.execution == d.execution && r.deployingAt == d.deployingAt
  {
  }

  /** A pass leaves the app alone and never touches a deployment in a terminal state. */
  lemma TerminalStatesAbsorb(s: Store, engine: Workflows, now: int, id: string)
    requires id in s.deployments && Terminal(s.deployments[id].state)
    ensures var o := Reconciliation(s, engine, now);
            o.store.app == s.app && id in o.store.deployments && o.store.deployments[id] == s.deployments[id]
  {
  }

  /**
   * A second pass with the same engine, at any later time, finds nothing to do: it succeeds
   * and changes no document.
   */
  lemma ReconciliationIdempotent(s: Store, engine: Workflows, now: int, later: int)
    requires Reconciliation(s, engine, now).result.Success?
    ensures var once := Reconciliation(s, engine, now).store;
            Reconciliation(once, engine, later) == Outcome(Success(()), once)
  {
    var once := Reconciliation(s, engine, now).store;
    var ds, ds1 := s.deployments, once.deployments;
    forall id | id in ds1 && Queued(ds1[id]) ensures engine(ds1[id].execution).Some? && Reconcile(ds1[id], engine, later) == ds1[id] {
      ReconcileOutcome(ds[id], engine(ds[id].execution).value, now);
    }
    var ds2 := map id | id in ds1 :: Reconcile(ds1[id], engine, later);
    assert ds2 == ds1;
  }

  /** A pass neither queues nor admits a deployment: the running ones can only finish. */
  lemma ReconciliationOnlyFinishes(s: Store, engine: Workflows, now: int)
    ensures var ds := s.deployments;
            var ds' := Reconciliation(s, engine, now).store.deployments;
            ds'.Keys == ds.Keys &&
            (forall id :: id in ds ==> ds'[id].createdAt == ds[id].createdAt && ds'[id].deploymentId == ds[id].deploymentId) &&
            (forall id :: id in ds && Queued(ds'[id]) ==> ds'[id] == ds[id]) &&
            (forall id :: id in ds && ds'[id] != ds[id] ==> Queued(ds[id]) && Terminal(ds'[id].state))
  {
    var ds := s.deployments;
    forall id | id in ds && Queued(ds[id]) && engine(ds[id].execution).Some? {
      ReconcileOutcome(ds[id], engine(ds[id].execution).value, now);
    }
  }

  /** The pass keeps the queue orderly and the ids matching. */
  lemma ReconciliationKeepsOrder(s: Store, engine: Workflows, now: int)
    requires Orderly(s.deployments) && KeysMatch(s.deployments)
    ensures var ds' := Reconciliation(s, engine, now).store.deployments;
            Orderly(ds') && KeysMatch(ds')
  {
    ReconciliationOnlyFinishes(s, engine, now);
    var ds, ds' := s.deployments, Reconciliation(s, engine, now).store.deployments;
    forall a, b | a in ds' && b in ds' && ds'[a].state == DeploymentState.Deploying && ds'[b].state == Pending
      ensures Earlier(ds', a, b)
    {
      assert Queued(ds'[a]) && Queued(ds'[b]);
      assert Earlier(ds, a, b);
    }
  }

  /**
   * The first half of `updateRunningDeployments`: the execution of every running deployment,
   * or `None` as soon as one cannot be read.
   */
  method ReadExecutions(ds: map<string, Deployment>, engine: Workflows) returns (r: Option<map<string, Engine.Execution>>)
    ensures r.None? <==> !Reachable(ds, engine)
    ensures r.Some? ==> r.value.Keys == Selected(ds, Queued) &&
                        forall id :: id in r.value ==> engine(ds[id].execution) == Some(r.value[id])
  {
    var todo := Selected(ds, Queued);
    var executions: map<string, Engine.Execution> := map[];
    while todo != {}
      invariant todo <= Selected(ds, Queued)
      invariant executions.Keys == Selected(ds, Queued) - todo
      invariant forall id :: id in executions ==> engine(ds[id].execution) == Some(executions[id])
      decreases |todo|
    {
      var id :| id in todo;
      var execution := engine(ds[id].execution);
      if execution.None? {
        return None;
      }
      executions := executions[id := execution.value];
      todo := todo - {id};
    }
    r := Some(executions);
  }

  /** The second half: each running deployment takes the outcome of its execution. */
  method SettleAll(ds: map<string, Deployment>, executions: map<string, Engine.Execution>, engine: Workflows, now: int)
    returns (r: map<string, Deployment>)
    requires executions.Keys == Selected(ds, Queued)
    requires forall id :: id in executions ==> engine(ds[id].execution) == Some(executions[id])
    ensures r == map id | id in ds :: Reconcile(ds[id], engine, now)
  {
    r := ds;
    var left := executions.Keys;
    while left != {}
      invariant left <= executions.Keys
      invariant r.Keys == ds.Keys
      invariant forall id :: id in ds ==> r[id] == if id in left then ds[id] else Reconcile(ds[id], engine, now)
      decreases |left|
    {
      var id :| id in left;
      r := r[id := Settle(r[id], executions[id], now)];
      left := left - {id};
    }
  }

  // ---------------------------------------------------------------------------------
  // updateDeployingApp

  /** `updateDeployingApp`: the app follows the outcome of the deployment it points to. */
  function Propagation(s: Store): Store
  {
    if s.app.None? || s.app.value.deploying.None? || s.app.value.deploying.value.deploymentId == "" then s
    else if s.app.value.deploying.value.deploymentId !in s.deployments then s
    else
      var app := s.app.value;
      var d := s.deployments[app.deploying.value.deploymentId];
      var deployingRef := Some(DeployingRef(d.architectureFile, d.deploymentId));
      match d.state
      case Pending => s
      case Deploying => s
      case Deployed => s.(app := Some(app.(state := AppState.Deployed, deploying := None, architectureFile := Some(d.architectureFile))))
      case Failed => s.(app := Some(app.(state := AppState.Failed, deploying := deployingRef)))
      case Cancelled => s.(app := Some(app.(state := AppState.Cancelled, deploying := deployingRef)))
      case Skipped => s.(app := Some(app.(state := AppState.Cancelled, deploying := deployingRef)))
  }

  /**
   * The app's state becomes DEPLOYED (the `deploying` field goes, the architecture is recorded),
   * FAILED or CANCELLED (`deploying` naming that deployment) as the deployment it points to
   * is DEPLOYED, FAILED, or CANCELLED or SKIPPED; a PENDING or DEPLOYING deployment, a missing
   * one, a missing `deploying` field and a missing app change nothing.  Deployments are never written.
   */
  lemma PropagationOutcome(s: Store)
    ensures var r := Propagation(s);
            r.deployments == s.deployments &&
            (r.app.Some? <==> s.app.Some?) &&
            (r != s ==>
              s.app.value.deploying.Some? && s.app.value.deploying.value.deploymentId in s.deployments &&
              var d := s.deployments[s.app.value.deploying.value.deploymentId];
              Terminal(d.state) &&
              r.app.value.createdAt == s.app.value.createdAt &&
              (d.state == DeploymentState.Deployed <==> r.app.value.state == AppState.Deployed) &&
              (d.state == DeploymentState.Deployed ==> r.app.value.deploying == None && r.app.value.architectureFile == Some(d.architectureFile)) &&
              (d.state == DeploymentState.Failed <==> r.app.value.state == AppState.Failed) &&
              (d.state == DeploymentState.Cancelled || d.state == Skipped <==> r.app.value.state == AppState.Cancelled) &&
              (d.state != DeploymentState.Deployed ==>
                 r.app.value.deploying == Some(DeployingRef(d.architectureFile, d.deploymentId)) &&
                 r.app.value.architectureFile == s.app.value.architectureFile))
  {
  }

  /** Applying the propagation twice equals applying it once. */
  lemma PropagationIdempotent(s: Store)
    requires KeysMatch(s.deployments)
    ensures Propagation(Propagation(s)) == Propagation(s)
  {
    PropagationOutcome(s);
    var r := Propagation(s);
    if r != s && r.app.value.deploying.Some? {
      var d := s.deployments[s.app.value.deploying.value.deploymentId];
      assert r.app.value.deploying.value.deploymentId == d.deploymentId;
      PropagationOutcome(r);
    }
  }

  // ---------------------------------------------------------------------------------
  // checkPendingDeployment

  /**
   * `checkPendingDeployment(id)` at time `now`: a PENDING deployment that is not the latest one
   * is skipped; one that heads the queue starts deploying, and so does the app.  Both updates
   * land on the same document when it is first and not last, and the second wins the state.
   */
  function Admission(s: Store, id: string, now: int): Outcome<()>
  {
    if id !in s.deployments || s.deployments[id].state != Pending then Outcome(Success(()), s)
    else
      var d := s.deployments[id];
      var isFirst := IsFirstQueued(s.deployments, id);
      var isLast := IsLastQueued(s.deployments, id);
      var skipped := if !isLast then d.(state := Skipped, completedAt := Some(now), checkedAt := now) else d;
      if !isFirst then Outcome(Success(()), s.(deployments := s.deployments[id := skipped]))
      else if s.app.None? then Outcome(Failure(MissingApp), s)
      else
        var deploying := skipped.(state := DeploymentState.Deploying, checkedAt := now, deployingAt := Some(now));
        var app := s.app.value.(state := AppState.Deploying, deploying := Some(DeployingRef(d.architectureFile, d.deploymentId)));
        Outcome(Success(()), Store(Some(app), s.deployments[id := deploying]))
  }

  /**
   * Admission only looks at a PENDING deployment.  It starts deploying exactly when it heads
   * the queue (and the app follows it), is skipped when it is neither first nor last, and
   * stays pending otherwise; no other deployment changes.
   */
  lemma AdmissionOutcome(s: Store, id: string, now: int)
    ensures var o := Admission(s, id, now);
            var ds, ds' := s.deployments, o.store.deployments;
            ds'.Keys == ds.Keys &&
            (forall k :: k in ds && k != id ==> ds'[k] == ds[k]) &&
            (id !in ds || ds[id].state != Pending ==> o == Outcome(Success(()), s)) &&
            (o.result.Failure? <==> IsFirstQueued(ds, id) && ds[id].state == Pending && s.app.None?) &&
            (o.result.Failure? ==> o.store == s) &&
            (o.result.Success? && id in ds && ds[id].state == Pending ==>
              ds'[id].createdAt == ds[id].createdAt && ds'[id].deploymentId == ds[id].deploymentId &&
              (ds'[id].state == DeploymentState.Deploying <==> IsFirstQueued(ds, id)) &&
              (ds'[id].state == Skipped <==> !IsFirstQueued(ds, id) && !IsLastQueued(ds, id)) &&
              (ds'[id].state == Pending <==> !IsFirstQueued(ds, id) && IsLastQueued(ds, id)) &&
              (IsFirstQueued(ds, id) ==>
                 ds'[id].deployingAt == Some(now) && ds'[id].checkedAt == now &&
                 o.store.app == Some(s.app.value.(state := AppState.Deploying,
                                                  deploying := Some(DeployingRef(ds[id].architectureFile, ds[id].deploymentId))))) &&
              (!IsFirstQueued(ds, id) ==> o.store.app == s.app))
  {
  }

  /** A deployment alone in the queue is admitted straight away. */
  lemma SoleDeploymentAdmitted(s: Store, id: string, now: int)
    requires id in s.deployments && s.deployments[id].state == Pending && s.app.Some?
    requires forall k :: k in s.deployments && k != id ==> !Queued(s.deployments[k])
    ensures var o := Admission(s, id, now);
            o.result.Success? && o.store.deployments[id].state == DeploymentState.Deploying &&
            o.store.deployments[id].completedAt == s.deployments[id].completedAt &&
            o.store.app.value.state == AppState.Deploying
  {
    assert IsFirstQueued(s.deployments, id) && IsLastQueued(s.deployments, id);
  }

  /**
   * Admission never makes a second deployment DEPLOYING: while one is deploying it precedes
   * every pending deployment, so none of those heads the queue.
   */
  lemma AdmissionKeepsOrder(s: Store, id: string, now: int)
    requires Orderly(s.deployments) && KeysMatch(s.deployments)
    ensures var ds' := Admission(s, id, now).store.deployments;
            Orderly(ds') && KeysMatch(ds')
  {
    AdmissionOutcome(s, id, now);
    var ds, ds' := s.deployments, Admission(s, id, now).store.deployments;
    if id in ds && ds[id].state == Pending && IsFirstQueued(ds, id) && s.app.Some? {
      forall a | a in ds && a != id && ds[a].state == DeploymentState.Deploying ensures false {
        assert Earlier(ds, a, id);
        assert Earlier(ds, id, a);
        EarlierOrder(ds, a, id, a);
      }
    }
    forall a, b | a in ds' && b in ds' && ds'[a].state == DeploymentState.Deploying && ds'[b].state == Pending
      ensures Earlier(ds', a, b)
    {
      assert Earlier(ds, a, b);
    }
  }

  // ---------------------------------------------------------------------------------
  // getDeployment and getApp

  /**
   * `getDeployment(id)`: reconcile with the engine, propagate to the app, admit `id`, then read
   * the document.
   */
  function Fetch(s: Store, id: string, engine: Workflows, now: int): Outcome<Fetched>
  {
    var reconciled := Reconciliation(s, engine, now);
    if reconciled.result.Failure? then Outcome(Failure(reconciled.result.error), reconciled.store)
    else
      var admitted := Admission(Propagation(reconciled.store), id, now);
      if admitted.result.Failure? then Outcome(Failure(admitted.result.error), admitted.store)
      else
        var ds := admitted.store.deployments;
        Outcome(Success(if id in ds then Found(ds[id]) else Missing), admitted.store)
  }

  /**
   * An unknown id is answered `Missing` ("Document does not exist"), a known one with its
   * document; a pending deployment whose execution already finished is not admitted but
   * comes back in its final state.  The queue stays orderly.
   */
  lemma FetchOutcome(s: Store, id: string, engine: Workflows, now: int)
    requires Orderly(s.deployments) && KeysMatch(s.deployments)
    ensures var o := Fetch(s, id, engine, now);
            Orderly(o.store.deployments) && KeysMatch(o.store.deployments) &&
            o.store.deployments.Keys == s.deployments.Keys &&
            (o.result.Success? ==> (o.result.value == Missing <==> id !in s.deployments)) &&
            (o.result.Success? && id in s.deployments && Queued(s.deployments[id]) &&
             Terminal(Settle(s.deployments[id], engine(s.deployments[id].execution).value, now).state) ==>
               o.result.value == Found(Settle(s.deployments[id], engine(s.deployments[id].execution).value, now)))
  {
    var r := Reconciliation(s, engine, now);
    ReconciliationKeepsOrder(s, engine, now);
    ReconciliationOnlyFinishes(s, engine, now);
    if r.result.Success? {
      var p := Propagation(r.store);
      PropagationOutcome(r.store);
      AdmissionOutcome(p, id, now);
      AdmissionKeepsOrder(p, id, now);
    }
  }

  /** `getApp`: reconcile with the engine, propagate to the app, then read the app document. */
  function FetchApp(s: Store, engine: Workflows, now: int): (o: Outcome<Option<App>>)
    ensures o.result.Success? ==> o.result.value == o.store.app
    ensures o.store.deployments.Keys == s.deployments.Keys
  {
    var reconciled := Reconciliation(s, engine, now);
    if reconciled.result.Failure? then Outcome(Failure(reconciled.result.error), reconciled.store)
    else
      var propagated := Propagation(reconciled.store);
      Outcome(Success(propagated.app), propagated)
  }

  // ---------------------------------------------------------------------------------
  // The stored documents

  /** `DeploymentQueue` over the documents of one app. */
  class DeploymentQueue {
    var app: Option<App>
    var deployments: map<string, Deployment>

    function Snapshot(): Store
      reads this
    {
      Store(app, deployments)
    }

    constructor (s: Store)
      ensures Snapshot() == s
    {
      app := s.app;
      deployments := s.deployments;
    }

    /** `createAppIfNotExists` at time `now`. */
    method CreateAppIfNotExists(now: int)
      modifies this
      ensures Snapshot() == CreateApp(old(Snapshot()), now)
    {
      if app.None? {
        app := Some(App(Created, now, None, None));
      }
    }

    /** `putDeployment` with the uuid `id`; see `PutDeploymentEffect` for the parameters. */
    method PutDeployment(id: string, architectureFile: string, artifactsFile: string,
                         appNow: int, now: int, started: Option<string>) returns (r: Result<Deployment, QueueError>)
      modifies this
      ensures Outcome(r, Snapshot()) ==
              PutDeploymentEffect(old(Snapshot()), id, architectureFile, artifactsFile, appNow, now, started)
    {
      CreateAppIfNotExists(appNow);
      var deployment := Deployment(id, now, now, Pending, architectureFile, artifactsFile, None, None, None);
      deployments := deployments[id := deployment];
      if started.None? {
        return Failure(NotStarted);
      }
      deployment := deployment.(execution := started);
      deployments := deployments[id := deployment];
      r := Success(deployment);
    }

    /** `updateRunningDeployments` with the engine `engine` at time `now`. */
    method UpdateRunningDeployments(engine: Workflows, now: int) returns (r: Result<(), QueueError>)
      modifies this
      ensures Outcome(r, Snapshot()) == Reconciliation(old(Snapshot()), engine, now)
    {
      var executions := ReadExecutions(deployments, engine);
      if executions.None? {
        return Failure(EngineUnavailable);
      }
      deployments := SettleAll(deployments, executions.value, engine, now);
      r := Success(());
    }

    /** `updateDeployingApp`. */
    method UpdateDeployingApp()
      modifies this
      ensures Snapshot() == Propagation(old(Snapshot()))
    {
      if app.None? || app.value.deploying.None? || app.value.deploying.value.deploymentId == "" {
        return;
      }
      var deployingId := app.value.deploying.value.deploymentId;
      if deployingId !in deployments {
        return;
      }
      var deployment := deployments[deployingId];
      var deployingRef := Some(DeployingRef(deployment.architectureFile, deployment.deploymentId));
      match deployment.state {
        case Pending =>
        case Deploying =>
        case Deployed =>
          app := Some(app.value.(state := AppState.Deployed, deploying := None,
                                 architectureFile := Some(deployment.architectureFile)));
        case Failed =>
          app := Some(app.value.(state := AppState.Failed, deploying := deployingRef));
        case Cancelled =>
          app := Some(app.value.(state := AppState.Cancelled, deploying := deployingRef));
        case Skipped =>
          app := Some(app.value.(state := AppState.Cancelled, deploying := deployingRef));
      }
    }

    /** `checkPendingDeployment(id)` at time `now`. */
    method CheckPendingDeployment(id: string, now: int) returns (r: Result<(), QueueError>)
      modifies this
      ensures Outcome(r, Snapshot()) == Admission(old(Snapshot()), id, now)
    {
      if id !in deployments || deployments[id].state != Pending {
        return Success(());
      }
      var deployment := deployments[id];
      var isFirst := IsFirstQueued(deployments, id);
      var isLast := IsLastQueued(deployments, id);
      var written := deployment;
      if !isLast {
        written := written.(state := Skipped, completedAt := Some(now), checkedAt := now);
      }
      if isFirst {
        if app.None? {
          // updating a missing app document aborts the whole transaction
          return Failure(MissingApp);
        }
        written := written.(state := DeploymentState.Deploying, checkedAt := now, deployingAt := Some(now));
        app := Some(app.value.(state := AppState.Deploying,
                               deploying := Some(DeployingRef(deployment.architectureFile, deployment.deploymentId))));
      }
      deployments := deployments[id := written];
      r := Success(());
    }

    /** `getDeployment(id)` with the engine `engine` at time `now`. */
    method GetDeployment(id: string, engine: Workflows, now: int) returns (r: Result<Fetched, QueueError>)
      modifies this
      ensures Outcome(r, Snapshot()) == Fetch(old(Snapshot()), id, engine, now)
    {
      var reconciled := UpdateRunningDeployments(engine, now);
      if reconciled.Failure? {
        return Failure(reconciled.error);
      }
      UpdateDeployingApp();
      var admitted := CheckPendingDeployment(id, now);
      if admitted.Failure? {
        return Failure(admitted.error);
      }
      r := Success(if id in deployments then Found(deployments[id]) else Missing);
    }

    /** `getApp` with the engine `engine` at time `now`. */
    method GetApp(engine: Workflows, now: int) returns (r: Result<Option<App>, QueueError>)
      modifies this
      ensures Outcome(r, Snapshot()) == FetchApp(old(Snapshot()), engine, now)
    {
      var reconciled := UpdateRunningDeployments(engine, now);
      if reconciled.Failure? {
        return Failure(reconciled.error);
      }
      UpdateDeployingApp();
      r := Success(app);
    }
  }
}
