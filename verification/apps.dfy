/**
 * The app records of functions/agent-backend/App.js: the status an app is in (`getAppStatus`),
 * the admission of a new deployment (`putApp`) and the search for an unused short id
 * (`generateAppShortId`).  The `apps` collection and its `deployments` sub-collections are the
 * fields of `AppRegistry`; the clock, the engine and the random draws are parameters.
 */
module Apps {
  import opened Wrappers
  import opened Json
  import Engine

  /** `Status`. */
  datatype Status = Deployed | Deploying | NotYetDeployed | Failed | Cancelled | Unknown

  /** Why `putApp` rejects. */
  datatype Error =
    | StalePlan          // the app was deployed since the plan was computed
    | MissingApp         // the plan was computed against an app that does not exist
    | Blocked(status: Status)
    | EngineUnavailable  // `getExecution` rejected
    | NoShortId          // 100 draws found no unused short id
    | NotStarted         // the bucket writes or `createExecution` failed after the transaction

  /**
   * An app document.  An empty `deploymentId` stands for a missing one (both are falsy);
   * a `deployedAt` of `None` stands for `null`.
   */
  datatype AppRecord = AppRecord(appId: string, appShortId: string, deploymentId: string, deployedAt: Option<int>)

  /** A deployment document: `execution` holds `CREATING` until the workflow has started. */
  datatype DeploymentRecord = DeploymentRecord(
    appId: string,
    deploymentId: string,
    deploymentPoint: Option<int>,
    deployedAt: Option<int>,
    execution: string,
    plan: Json)

  const Creating := "CREATING"

  /** A workflow not created one minute after `deployedAt` is taken to have failed to start. */
  const CreationTimeout := 60 * 1000

  /** `generateAppShortId` draws at most this many candidates. */
  const MaxDraws := 100

  /** A number that is set and not 0: JavaScript truthiness of a timestamp. */
  predicate IsSet(n: Option<int>)
  {
    n.Some? && n.value != 0
  }

  // ---------------------------------------------------------------------------------
  // getAppStatus

  /** The status an engine state maps to. */
  function StatusOf(s: Engine.ExecutionState): (r: Status)
    ensures r in {Deploying, Cancelled, Deployed, Failed, Unknown}
  {
    match s
    case Active => Deploying
    case Cancelled => Cancelled
    case Succeeded => Deployed
    case Failed => Failed
    case _ => Unknown
  }

  /**
   * `getAppStatus` for the app document `app` and its `deployments`, at time `now`:
   * `Failure` when the engine cannot be asked.
   */
  function AppStatus(app: Option<AppRecord>, deployments: map<string, DeploymentRecord>, now: int,
                     engine: string -> Option<Engine.Execution>): (r: Result<Status, Error>)
    ensures r.Failure? <==>
              app.Some? && app.value.deploymentId != "" && app.value.deploymentId in deployments &&
              deployments[app.value.deploymentId].execution != Creating &&
              engine(deployments[app.value.deploymentId].execution).None?
    ensures r.Failure? ==> r.error == EngineUnavailable
    ensures app.None? ==> r == Success(NotYetDeployed)
  {
    if app.None? then Success(NotYetDeployed)
    else if app.value.deploymentId == "" || app.value.deploymentId !in deployments then Success(Unknown)
    else
      var deployment := deployments[app.value.deploymentId];
      if deployment.execution == Creating then
        if !IsSet(deployment.deployedAt) then Success(Unknown)
        else if now - deployment.deployedAt.value > CreationTimeout then Success(Failed)
        else Success(Deploying)
      else
        match engine(deployment.execution)
        case None => Failure(EngineUnavailable)
        case Some(execution) => Success(StatusOf(execution.state))
  }

  /** An app with no deployment id, or whose deployment document is missing, is in an unknown state. */
  lemma NoDeploymentUnknown(app: AppRecord, deployments: map<string, DeploymentRecord>, now: int,
                            engine: string -> Option<Engine.Execution>)
    requires app.deploymentId == "" || app.deploymentId !in deployments
    ensures AppStatus(Some(app), deployments, now, engine) == Success(Unknown)
  {
  }

  /**
   * While the workflow is being created, the app is `DEPLOYING` for one minute after
   * `deployedAt` (the minute included) and `FAILED` afterwards; without `deployedAt` it is unknown.
   */
  lemma CreationTimeoutRule(app: AppRecord, deployments: map<string, DeploymentRecord>, now: int,
                            engine: string -> Option<Engine.Execution>)
    requires app.deploymentId != "" && app.deploymentId in deployments
    requires deployments[app.deploymentId].execution == Creating
    ensures var d := deployments[app.deploymentId];
            var r := AppStatus(Some(app), deployments, now, engine);
            (!IsSet(d.deployedAt) ==> r == Success(Unknown)) &&
            (IsSet(d.deployedAt) ==> (r == Success(Failed) <==> now > d.deployedAt.value + 60000)) &&
            (IsSet(d.deployedAt) ==> (r == Success(Deploying) <==> now <= d.deployedAt.value + 60000))
  {
  }

  /** Exactly one minute after `deployedAt` the app is still deploying. */
  lemma CreationAtTimeoutStillDeploying(app: AppRecord, deployments: map<string, DeploymentRecord>,
                                        engine: string -> Option<Engine.Execution>)
    requires app.deploymentId != "" && app.deploymentId in deployments
    requires deployments[app.deploymentId].execution == Creating
    requires IsSet(deployments[app.deploymentId].deployedAt)
    ensures AppStatus(Some(app), deployments, deployments[app.deploymentId].deployedAt.value + 60000, engine) ==
            Success(Deploying)
  {
    CreationTimeoutRule(app, deployments, deployments[app.deploymentId].deployedAt.value + 60000, engine);
  }

  /** Once the workflow runs, the status is the engine's: ACTIVE, CANCELLED, SUCCEEDED, FAILED, anything else unknown. */
  lemma EngineStatus(app: AppRecord, deployments: map<string, DeploymentRecord>, now: int,
                     engine: string -> Option<Engine.Execution>)
    requires app.deploymentId != "" && app.deploymentId in deployments
    requires deployments[app.deploymentId].execution != Creating
    requires engine(deployments[app.deploymentId].execution).Some?
    ensures var s := engine(deployments[app.deploymentId].execution).value.state;
            var r := AppStatus(Some(app), deployments, now, engine);
            (r == Success(Deploying) <==> s == Engine.Active) &&
            (r == Success(Cancelled) <==> s == Engine.Cancelled) &&
            (r == Success(Deployed) <==> s == Engine.Succeeded) &&
            (r == Success(Failed) <==> s == Engine.Failed) &&
            (r == Success(Unknown) <==> s == Engine.StateUnspecified || s.Unlisted?)
  {
  }

  // ---------------------------------------------------------------------------------
  // putApp

  /** The statuses `putApp` lets a new deployment start from. */
  predicate Admits(s: Status)
  {
    s in {Unknown, Failed, Deployed, NotYetDeployed}
  }

  /** Only a deploying or a cancelled app blocks a new deployment. */
  lemma BlockingStatuses(s: Status)
    ensures !Admits(s) <==> s == Deploying || s == Cancelled
  {
  }

  /** An app's deployment documents (an app without any has an empty sub-collection). */
  function DeploymentsOf(deployments: map<string, map<string, DeploymentRecord>>, appId: string): map<string, DeploymentRecord>
  {
    if appId in deployments then deployments[appId] else map[]
  }

  /** The short ids the apps hold. */
  predicate ShortIdUsed(apps: map<string, AppRecord>, id: string)
  {
    exists k :: k in apps && apps[k].appShortId == id
  }

  /**
   * The id `generateAppShortId` settles on from draw `k` on: the first draw, among the first
   * `MaxDraws`, that no app holds and that is not empty (an empty result is falsy and the loop
   * goes on).
   */
  function ShortIdFrom(apps: map<string, AppRecord>, draw: nat -> string, k: nat): (r: Option<string>)
    decreases MaxDraws - k
  {
    if k >= MaxDraws then None
    else if !ShortIdUsed(apps, draw(k)) && draw(k) != "" then Some(draw(k))
    else ShortIdFrom(apps, draw, k + 1)
  }

  /** The id found is one of the draws, unused and not empty, and every earlier draw was unusable. */
  lemma {:induction false} ShortIdMeaning(apps: map<string, AppRecord>, draw: nat -> string, k: nat)
    ensures var r := ShortIdFrom(apps, draw, k);
            (r.Some? ==> r.value != "" && !ShortIdUsed(apps, r.value) &&
                         exists j :: k <= j < MaxDraws && draw(j) == r.value &&
                                     forall i :: k <= i < j ==> draw(i) == "" || ShortIdUsed(apps, draw(i))) &&
            (r.None? <==> forall i :: k <= i < MaxDraws ==> draw(i) == "" || ShortIdUsed(apps, draw(i)))
    decreases MaxDraws - k
  {
    if k < MaxDraws {
      ShortIdMeaning(apps, draw, k + 1);
      var r := ShortIdFrom(apps, draw, k);
      if !ShortIdUsed(apps, draw(k)) && draw(k) != "" {
        assert draw(k) == r.value;
      } else if r.Some? {
        var j :| k + 1 <= j < MaxDraws && draw(j) == r.value &&
                 forall i :: k + 1 <= i < j ==> draw(i) == "" || ShortIdUsed(apps, draw(i));
        assert forall i :: k <= i < j ==> draw(i) == "" || ShortIdUsed(apps, draw(i));
      }
    }
  }

  /** Every app holds its own short id. */
  predicate UniqueShortIds(apps: map<string, AppRecord>)
  {
    forall a, b :: a in apps && b in apps && a != b ==> apps[a].appShortId != apps[b].appShortId
  }

  /** What `putApp` leaves behind: its outcome and the two collections. */
  datatype Put = Put(result: Result<(), Error>, apps: map<string, AppRecord>,
                     deployments: map<string, map<string, DeploymentRecord>>)

  /**
   * The transaction of `putApp(appId, deploymentId, deployedAt, deploymentPoint, plan)`: the
   * checks, then the app document and the deployment document it writes.
   */
  function Transaction(apps: map<string, AppRecord>, deployments: map<string, map<string, DeploymentRecord>>,
                  appId: string, deploymentId: string, deployedAt: Option<int>, deploymentPoint: Option<int>,
                  plan: Json, now: int, engine: string -> Option<Engine.Execution>, draw: nat -> string): Put
  {
    var app := if appId in apps then Some(apps[appId]) else None;
    var status := AppStatus(app, DeploymentsOf(deployments, appId), now, engine);
    var shortId := if app.Some? then Some(app.value.appShortId) else ShortIdFrom(apps, draw, 0);
    if app.Some? && app.value.deployedAt != deploymentPoint then Put(Failure(StalePlan), apps, deployments)
    else if app.None? && IsSet(deploymentPoint) then Put(Failure(MissingApp), apps, deployments)
    else if status.Failure? then Put(Failure(status.error), apps, deployments)
    else if !Admits(status.value) then Put(Failure(Blocked(status.value)), apps, deployments)
    else if shortId.None? then Put(Failure(NoShortId), apps, deployments)
    else
      var record := if app.Some? then app.value.(deploymentId := deploymentId, deployedAt := deployedAt)
                    else AppRecord(appId, shortId.value, deploymentId, deployedAt);
      var deployment := DeploymentRecord(appId, deploymentId, deploymentPoint, deployedAt, Creating, plan);
      Put(Success(()), apps[appId := record],
          deployments[appId := DeploymentsOf(deployments, appId)[deploymentId := deployment]])
  }

  /**
   * `putApp`: the transaction, then the start of the workflow, whose execution name is
   * `started` (`None` when the bucket writes or `createExecution` failed; the transaction's
   * writes stay).
   */
  function PutAppEffect(apps: map<string, AppRecord>, deployments: map<string, map<string, DeploymentRecord>>,
                        appId: string, deploymentId: string, deployedAt: Option<int>, deploymentPoint: Option<int>,
                        plan: Json, now: int, engine: string -> Option<Engine.Execution>, draw: nat -> string,
                        started: Option<string>): Put
  {
    var c := Transaction(apps, deployments, appId, deploymentId, deployedAt, deploymentPoint, plan, now, engine, draw);
    if c.result.Failure? then c
    else if started.None? then c.(result := Failure(NotStarted))
    else
      var written := DeploymentsOf(c.deployments, appId);
      assert deploymentId in written;
      c.(deployments := c.deployments[appId := written[deploymentId := written[deploymentId].(execution := started.value)]])
  }

  /** A plan computed against another deployment point than the app's is refused, and nothing is written. */
  lemma StalePlanRejected(apps: map<string, AppRecord>, deployments: map<string, map<string, DeploymentRecord>>,
                          appId: string, deploymentId: string, deployedAt: Option<int>, deploymentPoint: Option<int>,
                          plan: Json, now: int, engine: string -> Option<Engine.Execution>, draw: nat -> string,
                          started: Option<string>)
    requires (appId in apps && apps[appId].deployedAt != deploymentPoint) || (appId !in apps && IsSet(deploymentPoint))
    ensures var p := PutAppEffect(apps, deployments, appId, deploymentId, deployedAt, deploymentPoint, plan, now, engine, draw, started);
            p.result.Failure? && (p.result.error == StalePlan || p.result.error == MissingApp) &&
            p.apps == apps && p.deployments == deployments
  {
  }

  /** A deploying or cancelled app refuses a new deployment, and nothing is written. */
  lemma BusyAppRejected(apps: map<string, AppRecord>, deployments: map<string, map<string, DeploymentRecord>>,
                        appId: string, deploymentId: string, deployedAt: Option<int>, deploymentPoint: Option<int>,
                        plan: Json, now: int, engine: string -> Option<Engine.Execution>, draw: nat -> string,
                        started: Option<string>)
    requires var app := if appId in apps then Some(apps[appId]) else None;
             AppStatus(app, DeploymentsOf(deployments, appId), now, engine) in {Success(Deploying), Success(Cancelled)}
    ensures var p := PutAppEffect(apps, deployments, appId, deploymentId, deployedAt, deploymentPoint, plan, now, engine, draw, started);
            p.result.Failure? && p.apps == apps && p.deployments == deployments
  {
  }

  /**
   * When `putApp` goes through: the plan was computed against the app's current deployment
   * point (a new app has none), the status admits a new deployment, a new app found a short id,
   * and, for the whole request, the workflow started.
   */
  lemma PutAppAccepts(apps: map<string, AppRecord>, deployments: map<string, map<string, DeploymentRecord>>,
                      appId: string, deploymentId: string, deployedAt: Option<int>, deploymentPoint: Option<int>,
                      plan: Json, now: int, engine: string -> Option<Engine.Execution>, draw: nat -> string,
                      started: Option<string>)
    ensures var app := if appId in apps then Some(apps[appId]) else None;
            var status := AppStatus(app, DeploymentsOf(deployments, appId), now, engine);
            var commits := (appId in apps ==> apps[appId].deployedAt == deploymentPoint) &&
                           (appId !in apps ==> !IsSet(deploymentPoint)) &&
                           status.Success? && Admits(status.value) &&
                           (appId in apps || ShortIdFrom(apps, draw, 0).Some?);
            var c := Transaction(apps, deployments, appId, deploymentId, deployedAt, deploymentPoint, plan, now, engine, draw);
            var p := PutAppEffect(apps, deployments, appId, deploymentId, deployedAt, deploymentPoint, plan, now, engine, draw, started);
            (c.result.Success? <==> commits) && (p.result.Success? <==> commits && started.Some?)
  {
  }

  /** The documents the transaction writes when it commits. */
  lemma TransactionWrites(apps: map<string, AppRecord>, deployments: map<string, map<string, DeploymentRecord>>,
                          appId: string, deploymentId: string, deployedAt: Option<int>, deploymentPoint: Option<int>,
                          plan: Json, now: int, engine: string -> Option<Engine.Execution>, draw: nat -> string)
    ensures var c := Transaction(apps, deployments, appId, deploymentId, deployedAt, deploymentPoint, plan, now, engine, draw);
            c.result.Success? ==>
              appId in c.apps &&
              c.apps[appId].deploymentId == deploymentId && c.apps[appId].deployedAt == deployedAt &&
              (appId in apps ==> c.apps[appId].appShortId == apps[appId].appShortId && c.apps[appId].appId == apps[appId].appId) &&
              (appId !in apps ==> c.apps[appId].appShortId != "" && !ShortIdUsed(apps, c.apps[appId].appShortId)) &&
              (forall k :: k in apps && k != appId ==> k in c.apps && c.apps[k] == apps[k]) &&
              appId in c.deployments && deploymentId in c.deployments[appId] &&
              c.deployments[appId][deploymentId] ==
                DeploymentRecord(appId, deploymentId, deploymentPoint, deployedAt, Creating, plan)
  {
    if appId !in apps {
      ShortIdMeaning(apps, draw, 0);
    }
  }

  /**
   * When the transaction commits, the app document holds the new deployment id and time and
   * keeps its short id (a new app gets an unused one), and the deployment document records
   * the request with `execution` at `CREATING` until the workflow has started.
   */
  lemma PutAppWrites(apps: map<string, AppRecord>, deployments: map<string, map<string, DeploymentRecord>>,
                     appId: string, deploymentId: string, deployedAt: Option<int>, deploymentPoint: Option<int>,
                     plan: Json, now: int, engine: string -> Option<Engine.Execution>, draw: nat -> string,
                     started: Option<string>)
    ensures var p := PutAppEffect(apps, deployments, appId, deploymentId, deployedAt, deploymentPoint, plan, now, engine, draw, started);
            (p.result.Success? || p.result == Failure(NotStarted)) ==>
              appId in p.apps &&
              p.apps[appId].deploymentId == deploymentId && p.apps[appId].deployedAt == deployedAt &&
              (appId in apps ==> p.apps[appId].appShortId == apps[appId].appShortId && p.apps[appId].appId == apps[appId].appId) &&
              (appId !in apps ==> p.apps[appId].appShortId != "" && !ShortIdUsed(apps, p.apps[appId].appShortId)) &&
              (forall k :: k in apps && k != appId ==> k in p.apps && p.apps[k] == apps[k]) &&
              appId in p.deployments && deploymentId in p.deployments[appId] &&
              p.deployments[appId][deploymentId] ==
                DeploymentRecord(appId, deploymentId, deploymentPoint, deployedAt,
                                 if p.result.Success? then started.value else Creating, plan)
  {
    TransactionWrites(apps, deployments, appId, deploymentId, deployedAt, deploymentPoint, plan, now, engine, draw);
  }

  /** `putApp` never gives two apps the same short id. */
  lemma PutAppKeepsShortIdsUnique(apps: map<string, AppRecord>, deployments: map<string, map<string, DeploymentRecord>>,
                                  appId: string, deploymentId: string, deployedAt: Option<int>, deploymentPoint: Option<int>,
                                  plan: Json, now: int, engine: string -> Option<Engine.Execution>, draw: nat -> string,
                                  started: Option<string>)
    requires UniqueShortIds(apps)
    ensures UniqueShortIds(PutAppEffect(apps, deployments, appId, deploymentId, deployedAt, deploymentPoint, plan, now, engine, draw, started).apps)
  {
    var p := PutAppEffect(apps, deployments, appId, deploymentId, deployedAt, deploymentPoint, plan, now, engine, draw, started);
    PutAppWrites(apps, deployments, appId, deploymentId, deployedAt, deploymentPoint, plan, now, engine, draw, started);
    if p.apps != apps {
      forall a, b | a in p.apps && b in p.apps && a != b ensures p.apps[a].appShortId != p.apps[b].appShortId {
        if a == appId && appId !in apps {
          assert b in apps && p.apps[b] == apps[b];
        } else if b == appId && appId !in apps {
          assert a in apps && p.apps[a] == apps[a];
        }
      }
    }
  }

  /** The `apps` collection and its `deployments` sub-collections. */
  class AppRegistry {
    var apps: map<string, AppRecord>
    var deployments: map<string, map<string, DeploymentRecord>>

    constructor ()
      ensures apps == map[] && deployments == map[]
    {
      apps := map[];
      deployments := map[];
    }

    /** `generateAppShortId(transaction)`: draw up to 100 candidates until one is unused. */
    method GenerateAppShortId(draw: nat -> string) returns (r: Option<string>)
      ensures r == ShortIdFrom(apps, draw, 0)
    {
      var i := 0;
      var result := "";
      while i < MaxDraws && result == ""
        invariant 0 <= i <= MaxDraws
        invariant result == "" ==> ShortIdFrom(apps, draw, 0) == ShortIdFrom(apps, draw, i)
        invariant result != "" ==> ShortIdFrom(apps, draw, 0) == Some(result)
        decreases MaxDraws - i
      {
        var appShortId := draw(i);
        i := i + 1;
        if !ShortIdUsed(apps, appShortId) {
          result := appShortId;
        }
      }
      r := if result == "" then None else Some(result);
    }

    /** The transaction of `putApp`. */
    method Commit(appId: string, deploymentId: string, deployedAt: Option<int>, deploymentPoint: Option<int>,
                  plan: Json, now: int, engine: string -> Option<Engine.Execution>, draw: nat -> string)
      returns (r: Result<(), Error>)
      modifies this
      ensures var p := Transaction(old(apps), old(deployments), appId, deploymentId, deployedAt, deploymentPoint,
                                    plan, now, engine, draw);
              r == p.result && apps == p.apps && deployments == p.deployments
    {
      var app := if appId in apps then Some(apps[appId]) else None;
      if app.Some? && app.value.deployedAt != deploymentPoint {
        return Failure(StalePlan);
      } else if app.None? && IsSet(deploymentPoint) {
        return Failure(MissingApp);
      }
      var status := AppStatus(app, DeploymentsOf(deployments, appId), now, engine);
      if status.Failure? {
        return Failure(status.error);
      }
      if !Admits(status.value) {
        return Failure(Blocked(status.value));
      }
      if app.None? {
        var appShortId := GenerateAppShortId(draw);
        if appShortId.None? {
          return Failure(NoShortId);
        }
        apps := apps[appId := AppRecord(appId, appShortId.value, deploymentId, deployedAt)];
      } else {
        apps := apps[appId := app.value.(deploymentId := deploymentId, deployedAt := deployedAt)];
      }
      var deployment := DeploymentRecord(appId, deploymentId, deploymentPoint, deployedAt, Creating, plan);
      deployments := deployments[appId := DeploymentsOf(deployments, appId)[deploymentId := deployment]];
      r := Success(());
    }

    /** `putApp`: the transaction, then the write of the execution name once the workflow started. */
    method PutApp(appId: string, deploymentId: string, deployedAt: Option<int>, deploymentPoint: Option<int>,
                  plan: Json, now: int, engine: string -> Option<Engine.Execution>, draw: nat -> string,
                  started: Option<string>) returns (r: Result<(), Error>)
      modifies this
      ensures var p := PutAppEffect(old(apps), old(deployments), appId, deploymentId, deployedAt, deploymentPoint,
                                    plan, now, engine, draw, started);
              r == p.result && apps == p.apps && deployments == p.deployments
    {
      r := Commit(appId, deploymentId, deployedAt, deploymentPoint, plan, now, engine, draw);
      if r.Failure? {
        return;
      }
      // the transaction has committed; the workflow starts or the request fails
      if started.None? {
        return Failure(NotStarted);
      }
      var written := DeploymentsOf(deployments, appId);
      assert deploymentId in written;
      deployments := deployments[appId := written[deploymentId := written[deploymentId].(execution := started.value)]];
    }
  }
}
