/** The polling reconciler (webhook-listener/src/polling_service.py, class
    `PollingService`): the fallback that compares the registry's `deploy=true`
    versions with the InferenceServices the listener manages and makes one
    mutation per difference.

    The background task and its sleep are not modelled: `running` is the flag the
    loop tests, and one cycle of the loop is `PollOnce`. The ghost logs record each
    `_deploy_model` and `_undeploy_model` invocation, so that "once per pair" can be
    stated. */
module Polling {
  import opened Wrappers
  import opened K8sNames
  import opened Kubernetes
  import opened Mlflow
  import opened ArtifactUris
  import opened WebhookHandler

  /** (model name, version). */
  type Pair = (string, string)

  const ModelLabel: string := "mlflow.model"
  const VersionLabel: string := "mlflow.version"
  const Unknown: string := "unknown"

  /** The selector `_poll_and_reconcile` lists with. */
  const PollSelector: Option<Labels> := Some(map["managed-by" := "mlflow-kserve-webhook-listener"])

  /** `desired_deployments`. */
  function Desired(cands: seq<Candidate>): (d: set<Pair>)
    ensures forall i :: 0 <= i < |cands| ==> (cands[i].name, cands[i].version) in d
  {
    set c | c in cands :: (c.name, c.version)
  }

  /** A listed service counts when both labels are present and non-empty. */
  predicate Tracked(info: ServiceInfo) {
    && ModelLabel in info.labels && info.labels[ModelLabel] != ""
    && VersionLabel in info.labels && info.labels[VersionLabel] != ""
  }

  function PairOf(info: ServiceInfo): Pair
    requires Tracked(info)
  {
    (info.labels[ModelLabel], info.labels[VersionLabel])
  }

  /** `current_deployments`. */
  function Current(items: seq<ServiceInfo>): (c: set<Pair>)
    ensures forall i :: 0 <= i < |items| && Tracked(items[i]) ==> PairOf(items[i]) in c
  {
    set i | 0 <= i < |items| && Tracked(items[i]) :: PairOf(items[i])
  }

  /** `deployed_service_names`: a later service with the same pair overwrites an
      earlier one. */
  function NamesOf(items: seq<ServiceInfo>): (names: map<Pair, string>)
    ensures items != [] && Tracked(items[|items| - 1]) ==>
      PairOf(items[|items| - 1]) in names && names[PairOf(items[|items| - 1])] == items[|items| - 1].name
    decreases |items|
  {
    if items == [] then map[]
    else
      var last := items[|items| - 1];
      var init := NamesOf(items[..|items| - 1]);
      if Tracked(last) then init[PairOf(last) := last.name] else init
  }

  /** `d` lists every element of `s` exactly once. */
  ghost predicate Enumerates<T(!new)>(d: seq<T>, s: set<T>) {
    && (forall i, j :: 0 <= i < j < |d| ==> d[i] != d[j])
    && (forall x :: x in d <==> x in s)
  }

  /** The pairs the undeploy loop acts on, each with the service name it deletes. */
  function UndeployTargets(toUndeploy: set<Pair>, names: map<Pair, string>): (t: set<(Pair, string)>)
    ensures forall e :: e in t ==> e.0 in toUndeploy && e.0 in names && e.1 == names[e.0] && e.1 != ""
    ensures forall p :: p in toUndeploy && p in names && names[p] != "" ==> (p, names[p]) in t
  {
    set p | p in toUndeploy && p in names && names[p] != "" :: (p, names[p])
  }

  /** The first candidate with that name and version (`next(..., None)`). */
  function FindCandidate(cands: seq<Candidate>, name: string, version: string): (c: Option<Candidate>)
    ensures c.Some? ==> c.value in cands && c.value.name == name && c.value.version == version
    ensures c.None? <==> (name, version) !in Desired(cands)
  {
    if cands == [] then None
    else if cands[0].name == name && cands[0].version == version then Some(cands[0])
    else
      var c := FindCandidate(cands[1..], name, version);
      assert Desired(cands) == {(cands[0].name, cands[0].version)} + Desired(cands[1..]);
      c
  }

  /** The run id and experiment id handed to the template, given the registry's runs
      and failing requests: both "unknown" when the version has no run id or the run
      lookup raises. */
  function RunFields(runs: map<string, Run>, failing: set<Op>, runId: Option<string>): (f: (string, string))
    ensures runId.None? || runId.value == "" || GetRunOp in failing || runId.value !in runs ==>
      f == (Unknown, Unknown)
    ensures f != (Unknown, Unknown) ==> runId.Some? && f.0 == runId.value
  {
    if runId.None? || runId.value == "" || GetRunOp in failing || runId.value !in runs then (Unknown, Unknown)
    else (runId.value, runs[runId.value].experimentId)
  }

  /** What `_deploy_model` hands to the template and the cluster, or `None` when it
      stops (no data for the pair, an unresolvable source, a refused name or a
      template error). Unlike the webhook path, the source URI is resolved. */
  function PollPlan(runs: map<string, Run>, failing: set<Op>, template: Template, artifactsBase: Option<string>,
                    namespace: string, cands: seq<Candidate>, name: string, version: string): (p: Option<(string, Manifest)>)
    ensures p.Some? <==>
      && FindCandidate(cands, name, version).Some?
      && ResolveArtifactsUri(FindCandidate(cands, name, version).value.source, artifactsBase).Ok?
      && DeployPlan(template, name, version,
                    Details(RunFields(runs, failing, FindCandidate(cands, name, version).value.runId).0,
                            ResolveArtifactsUri(FindCandidate(cands, name, version).value.source, artifactsBase).value,
                            RunFields(runs, failing, FindCandidate(cands, name, version).value.runId).1),
                    namespace).Some?
    ensures p.Some? ==> ValidName(p.value.0) && p.value.0 == GenerateInferenceServiceName(name, version).value
  {
    match FindCandidate(cands, name, version)
    case None => None
    case Some(c) =>
      match ResolveArtifactsUri(c.source, artifactsBase)
      case Err(_) => None
      case Ok(storage) =>
        var (runId, experimentId) := RunFields(runs, failing, c.runId);
        DeployPlan(template, name, version, Details(runId, storage, experimentId), namespace)
  }

  /** The service names the undeploy loop deletes. */
  function UndeployNames(toUndeploy: set<Pair>, names: map<Pair, string>): set<string> {
    set p | p in toUndeploy && p in names && names[p] != "" :: names[p]
  }

  /** The delete requests a log of undeployments sends, in its order. */
  function DeleteCallsOf(log: seq<(Pair, string)>): (c: seq<ApiCall>)
    ensures |c| == |log| && forall i :: 0 <= i < |log| ==> c[i] == DeleteCall(log[i].1)
  {
    seq(|log|, i requires 0 <= i < |log| => DeleteCall(log[i].1))
  }

  /** For every pair that `_deploy_model` gets as far as the cluster with, the
      generated service name and the rendered manifest. */
  function PlansOf(runs: map<string, Run>, failing: set<Op>, template: Template, artifactsBase: Option<string>,
                   namespace: string, cands: seq<Candidate>): map<Pair, (string, Manifest)>
  {
    map p | p in Desired(cands) && PollPlan(runs, failing, template, artifactsBase, namespace, cands, p.0, p.1).Some?
          :: PollPlan(runs, failing, template, artifactsBase, namespace, cands, p.0, p.1).value
  }

  /** The services the deploy loop over `ps` may touch. */
  function PlannedNames(plans: map<Pair, (string, Manifest)>, ps: set<Pair>): set<string> {
    set p | p in ps && p in plans :: plans[p].0
  }

  /** No other pair of `ps` with a plan generates the same service name as `p`. */
  predicate SoleClaim(plans: map<Pair, (string, Manifest)>, ps: set<Pair>, p: Pair)
    requires p in plans
  {
    forall q :: q in ps && q in plans && q != p ==> plans[q].0 != plans[p].0
  }

  /** Service `name` as one `update_inference_service` leaves it: as it was when the
      kind is wrong or a request fails, otherwise holding the manifest. */
  predicate NameUpdated(before: map<string, Resource>, failing: set<Verb>, name: string, m: Manifest,
                        after: map<string, Resource>)
  {
    if KindCheck(m).Some? || UpdateFails(before, failing, name) then
      (name in after <==> name in before) && (name in before ==> after[name] == before[name])
    else
      name in after && after[name].labels == m.labels && after[name].spec == m.spec
  }

  /** What the deploy loop over `ps` leaves, apart from the names in `removed`
      (deleted afterwards): every service no plan names is as it was, nothing new
      appears but planned names, and the name of each pair that no other pair
      claims is left as a single update would leave it. */
  ghost predicate DeployEffect(plans: map<Pair, (string, Manifest)>, ps: set<Pair>, before: map<string, Resource>,
                               failing: set<Verb>, after: map<string, Resource>, removed: set<string>)
  {
    && (forall n :: n in before && n !in PlannedNames(plans, ps) && n !in removed ==> n in after && after[n] == before[n])
    && (forall n :: n in after && n !in PlannedNames(plans, ps) ==> n in before)
    && (forall p :: p in ps && p in plans && SoleClaim(plans, ps, p) && plans[p].0 !in removed ==>
          NameUpdated(before, failing, plans[p].0, plans[p].1, after))
  }

  /** A request `update_inference_service` sends for one of `names`. */
  predicate UpdateRequest(c: ApiCall, names: set<string>) {
    (c.GetCall? || c.PatchCall? || c.CreateCall?) && c.name in names
  }

  /** From position `k` on, `calls` holds only update requests for `names`. */
  ghost predicate UpdatesSince(calls: seq<ApiCall>, k: nat, names: set<string>) {
    k <= |calls| && forall i :: k <= i < |calls| ==> UpdateRequest(calls[i], names)
  }

  /** The requests of a reconciliation after `before`: update requests for `names`,
      then exactly `deletes`. */
  ghost predicate ReconcileCalls(before: seq<ApiCall>, after: seq<ApiCall>, names: set<string>, deletes: seq<ApiCall>) {
    && |before| + |deletes| <= |after| && after[..|before|] == before
    && after[|after| - |deletes|..] == deletes
    && forall i :: |before| <= i < |after| - |deletes| ==> UpdateRequest(after[i], names)
  }

  class PollingService {
    const registry: MlflowClient
    const cluster: KubernetesClient
    const interval: int
    const template: Template
    /** `settings.artifacts_uri`, which the settings class does not define. */
    const artifactsBase: Option<string>
    var running: bool
    var deployedModels: set<Pair>
    ghost var deployLog: seq<Pair>
    ghost var undeployLog: seq<(Pair, string)>

    constructor (registry: MlflowClient, cluster: KubernetesClient, interval: int, template: Template,
                 artifactsBase: Option<string>)
      ensures this.registry == registry && this.cluster == cluster && this.interval == interval
      ensures this.template == template && this.artifactsBase == artifactsBase
      ensures !running && deployedModels == {} && deployLog == [] && undeployLog == []
    {
      this.registry := registry;
      this.cluster := cluster;
      this.interval := interval;
      this.template := template;
      this.artifactsBase := artifactsBase;
      running := false;
      deployedModels := {};
      deployLog := [];
      undeployLog := [];
    }

    /** `start`: a second start does nothing. */
    method Start()
      modifies this`running
      ensures running
    {
      if running {
        return;
      }
      running := true;
    }

    /** `stop`: stopping a stopped service does nothing. */
    method Stop()
      modifies this`running
      ensures !running
    {
      if !running {
        return;
      }
      running := false;
    }

    /** The plans of `_deploy_model` for the registry's current state. */
    ghost function Plans(cands: seq<Candidate>): map<Pair, (string, Manifest)>
      reads registry
    {
      PlansOf(registry.runs, registry.failing, template, artifactsBase, cluster.namespace, cands)
    }

    /** `_deploy_model`: never raises; every failure ends it quietly. */
    method DeployModel(name: string, version: string, cands: seq<Candidate>)
      requires cluster.Valid()
      modifies this`deployLog, cluster`services, cluster`order, cluster`nextUid, cluster`calls
      ensures cluster.Valid()
      ensures deployLog == old(deployLog) + [(name, version)]
      ensures (name, version) !in Plans(cands) ==> unchanged(cluster)
      ensures (name, version) in Plans(cands) ==>
        var plan := Plans(cands)[(name, version)];
        && plan.0 == GenerateInferenceServiceName(name, version).value
        && UpdateEffect(old(cluster.services), cluster.failing, plan.0, plan.1, cluster.services)
        && cluster.calls == old(cluster.calls) + UpdateCalls(old(cluster.services), cluster.failing, plan.0, plan.1)
    {
      deployLog := deployLog + [(name, version)];
      var plan := Plan(name, version, cands);
      PlansAt(registry.runs, registry.failing, template, artifactsBase, cluster.namespace, cands, name, version);
      Apply(plan);
    }

    /** The create-or-update that ends `_deploy_model`, when there is a plan. */
    method Apply(plan: Option<(string, Manifest)>)
      requires cluster.Valid()
      modifies cluster`services, cluster`order, cluster`nextUid, cluster`calls
      ensures cluster.Valid()
      ensures plan.None? ==> unchanged(cluster)
      ensures plan.Some? ==>
        && UpdateEffect(old(cluster.services), cluster.failing, plan.value.0, plan.value.1, cluster.services)
        && cluster.calls == old(cluster.calls) + UpdateCalls(old(cluster.services), cluster.failing, plan.value.0, plan.value.1)
    {
      if plan.Some? {
        var _ := cluster.Update(plan.value.0, plan.value.1);
      }
    }

    /** The steps of `_deploy_model` before the cluster is called. */
    method Plan(name: string, version: string, cands: seq<Candidate>) returns (plan: Option<(string, Manifest)>)
      ensures plan == PollPlan(registry.runs, registry.failing, template, artifactsBase, cluster.namespace, cands, name, version)
    {
      var c := FindCandidate(cands, name, version);
      if c.None? {
        return None;
      }
      var storage := ResolveArtifactsUri(c.value.source, artifactsBase);
      if storage.Err? {
        return None;
      }
      var runId := Unknown;
      var experimentId := Unknown;
      if c.value.runId.Some? && c.value.runId.value != "" {
        var run := registry.GetRun(c.value.runId);
        if run.Ok? {
          runId, experimentId := c.value.runId.value, run.value.experimentId;
        }
      }
      plan := DeployPlan(template, name, version, Details(runId, storage.value, experimentId), cluster.namespace);
    }

    /** `_undeploy_model`: one delete of the observed name; errors are swallowed. */
    method UndeployModel(pair: Pair, serviceName: string)
      requires cluster.Valid()
      modifies this`undeployLog, cluster`services, cluster`order, cluster`calls
      ensures cluster.Valid()
      ensures undeployLog == old(undeployLog) + [(pair, serviceName)]
      ensures cluster.calls == old(cluster.calls) + [DeleteCall(serviceName)]
      ensures DeleteVerb !in cluster.failing ==> cluster.services == old(cluster.services) - {serviceName}
      ensures DeleteVerb in cluster.failing ==> cluster.services == old(cluster.services)
    {
      undeployLog := undeployLog + [(pair, serviceName)];
      var _ := cluster.Delete(serviceName);
    }

    /** The loop that builds `current_deployments` and `deployed_service_names`. */
    static method Observe(items: seq<ServiceInfo>) returns (current: set<Pair>, names: map<Pair, string>)
      ensures current == Current(items) && names == NamesOf(items)
    {
      current, names := {}, map[];
      var i := 0;
      while i < |items|
        invariant 0 <= i <= |items|
        invariant current == Current(items[..i]) && names == NamesOf(items[..i])
      {
        if Tracked(items[i]) {
          current := current + {PairOf(items[i])};
          names := names[PairOf(items[i]) := items[i].name];
        }
        CurrentSnoc(items, i);
        i := i + 1;
      }
      assert items[..i] == items;
    }

    /** `_poll_and_reconcile`. The only request that can fail the cycle is the list:
        then nothing is mutated and the tracked set is kept. Otherwise every pair in
        `desired - current` is deployed once, every pair in `current - desired` with
        a known name is undeployed once, and the tracked set becomes `desired`. */
    method PollAndReconcile()
      requires cluster.Valid()
      modifies this`deployedModels, this`deployLog, this`undeployLog
      modifies cluster`services, cluster`order, cluster`nextUid, cluster`calls
      ensures cluster.Valid()
      ensures ListVerb in cluster.failing ==>
        && deployedModels == old(deployedModels) && deployLog == old(deployLog) && undeployLog == old(undeployLog)
        && cluster.services == old(cluster.services) && cluster.calls == old(cluster.calls) + [ListCall(PollSelector)]
      ensures ListVerb !in cluster.failing ==>
        var cands := if SearchModelsOp in registry.failing || SearchVersionsOp in registry.failing then []
                     else DeployTagged(registry.models, registry.versions);
        var items := Project(old(cluster.Listing(PollSelector)), cluster.namespace);
        && deployedModels == Desired(cands)
        && |deployLog| >= |old(deployLog)| && |undeployLog| >= |old(undeployLog)|
        && Enumerates(deployLog[|old(deployLog)|..], Desired(cands) - Current(items))
        && Enumerates(undeployLog[|old(undeployLog)|..],
                      UndeployTargets(Current(items) - Desired(cands), NamesOf(items)))
        && ReconcileCalls(old(cluster.calls) + [ListCall(PollSelector)], cluster.calls,
                          PlannedNames(Plans(cands), Desired(cands) - Current(items)),
                          DeleteCallsOf(undeployLog[|old(undeployLog)|..]))
        && ReconciledServices(Plans(cands), Desired(cands) - Current(items),
                              UndeployNames(Current(items) - Desired(cands), NamesOf(items)),
                              old(cluster.services), cluster.failing, cluster.services)
    {
      var cands := registry.GetModelsWithDeployTag();
      var listed := cluster.List(PollSelector);
      if listed.Err? {
        return;
      }
      Reconcile(cands, listed.value);
    }

    /** The part of `_poll_and_reconcile` after the list: compare, deploy what is
        missing, undeploy what is no longer wanted, and record the desired set. */
    method Reconcile(cands: seq<Candidate>, items: seq<ServiceInfo>)
      requires cluster.Valid()
      modifies this`deployedModels, this`deployLog, this`undeployLog
      modifies cluster`services, cluster`order, cluster`nextUid, cluster`calls
      ensures cluster.Valid()
      ensures deployedModels == Desired(cands)
      ensures |deployLog| >= |old(deployLog)| && |undeployLog| >= |old(undeployLog)|
      ensures Enumerates(deployLog[|old(deployLog)|..], Desired(cands) - Current(items))
      ensures Enumerates(undeployLog[|old(undeployLog)|..],
                         UndeployTargets(Current(items) - Desired(cands), NamesOf(items)))
      ensures ReconcileCalls(old(cluster.calls), cluster.calls, PlannedNames(Plans(cands), Desired(cands) - Current(items)),
                             DeleteCallsOf(undeployLog[|old(undeployLog)|..]))
      ensures ReconciledServices(Plans(cands), Desired(cands) - Current(items),
                                 UndeployNames(Current(items) - Desired(cands), NamesOf(items)),
                                 old(cluster.services), cluster.failing, cluster.services)
    {
      var desired := Desired(cands);
      var current, names := Observe(items);
      ghost var calls0 := cluster.calls;
      ghost var deployed := DeployAll(desired - current, cands);
      assert deployLog[|old(deployLog)|..] == deployed;
      ghost var mid, calls1 := cluster.services, cluster.calls;
      ghost var undeployed := UndeployAll(current - desired, names);
      assert undeployLog[|old(undeployLog)|..] == undeployed;
      ReconcileCallsCompose(calls0, calls1, DeleteCallsOf(undeployed), PlannedNames(Plans(cands), desired - current));
      ReconciledCompose(Plans(cands), desired - current, UndeployNames(current - desired, names),
                        old(cluster.services), cluster.failing, mid, cluster.services);
      deployedModels := desired;
    }

    /** The loop over `to_deploy`; set iteration order is unspecified, so the next
        pair is any one not yet done. */
    method DeployAll(toDeploy: set<Pair>, cands: seq<Candidate>) returns (ghost done: seq<Pair>)
      requires cluster.Valid()
      modifies this`deployLog, cluster`services, cluster`order, cluster`nextUid, cluster`calls
      ensures cluster.Valid()
      ensures deployLog == old(deployLog) + done && Enumerates(done, toDeploy)
      ensures DeployEffect(Plans(cands), toDeploy, old(cluster.services), cluster.failing, cluster.services, {})
      ensures |cluster.calls| >= |old(cluster.calls)| && cluster.calls[..|old(cluster.calls)|] == old(cluster.calls)
      ensures UpdatesSince(cluster.calls, |old(cluster.calls)|, PlannedNames(Plans(cands), toDeploy))
    {
      var pending := toDeploy;
      done := [];
      ghost var seen: set<Pair> := {};
      ghost var runs, failing := registry.runs, registry.failing;
      ghost var plans := PlansOf(runs, failing, template, artifactsBase, cluster.namespace, cands);
      while pending != {}
        invariant seen !! pending && seen + pending == toDeploy
        invariant registry.runs == runs && registry.failing == failing
        invariant DeployProgress(plans, seen, done, old(deployLog), old(cluster.services), old(cluster.calls))
        decreases |pending|
      {
        var p :| p in pending;
        DeployNext(p, cands, runs, failing, seen, done, old(deployLog), old(cluster.services), old(cluster.calls));
        done, seen := done + [p], seen + {p};
        pending := pending - {p};
      }
      assert seen == toDeploy;
    }

    /** The state of the loop over `to_deploy` once the pairs `seen` are done, in
        the order `done`, starting from log `log0`, services `before` and requests `calls0`. */
    ghost predicate DeployProgress(plans: map<Pair, (string, Manifest)>, seen: set<Pair>, done: seq<Pair>,
                                   log0: seq<Pair>, before: map<string, Resource>, calls0: seq<ApiCall>)
      reads this, cluster
    {
      && cluster.Valid()
      && deployLog == log0 + done
      && Enumerates(done, seen)
      && DeployEffect(plans, seen, before, cluster.failing, cluster.services, {})
      && |cluster.calls| >= |calls0| && cluster.calls[..|calls0|] == calls0
      && UpdatesSince(cluster.calls, |calls0|, PlannedNames(plans, seen))
    }

    /** One turn of the loop over `to_deploy`: the loop's effect so far grows by pair `p`. */
    method DeployNext(p: Pair, cands: seq<Candidate>, ghost runs: map<string, Run>, ghost failing: set<Op>,
                      ghost seen: set<Pair>, ghost done: seq<Pair>, ghost log0: seq<Pair>,
                      ghost before: map<string, Resource>, ghost calls0: seq<ApiCall>)
      requires registry.runs == runs && registry.failing == failing
      requires p !in seen
      requires DeployProgress(PlansOf(runs, failing, template, artifactsBase, cluster.namespace, cands),
                              seen, done, log0, before, calls0)
      modifies this`deployLog, cluster`services, cluster`order, cluster`nextUid, cluster`calls
      ensures DeployProgress(PlansOf(runs, failing, template, artifactsBase, cluster.namespace, cands),
                             seen + {p}, done + [p], log0, before, calls0)
    {
      ghost var plans := PlansOf(runs, failing, template, artifactsBase, cluster.namespace, cands);
      ghost var mid, midCalls := cluster.services, cluster.calls;
      DeployModel(p.0, p.1, cands);
      DeployEffectStep(plans, seen, p, before, cluster.failing, mid, cluster.services);
      DeployCallsStep(plans, seen, p, |calls0|, midCalls, cluster.calls, mid, cluster.failing);
      EnumeratesSnoc(done, seen, p);
      ConcatAssoc(log0, done, [p]);
    }

    /** The loop over `to_undeploy`: a pair without a known, non-empty name is skipped. */
    method UndeployAll(toUndeploy: set<Pair>, names: map<Pair, string>) returns (ghost done: seq<(Pair, string)>)
      requires cluster.Valid()
      modifies this`undeployLog, cluster`services, cluster`order, cluster`calls
      ensures cluster.Valid()
      ensures undeployLog == old(undeployLog) + done && Enumerates(done, UndeployTargets(toUndeploy, names))
      ensures cluster.calls == old(cluster.calls) + DeleteCallsOf(done)
      ensures DeleteVerb !in cluster.failing ==> cluster.services == old(cluster.services) - UndeployNames(toUndeploy, names)
      ensures DeleteVerb in cluster.failing ==> cluster.services == old(cluster.services)
    {
      var pending := toUndeploy;
      done := [];
      ghost var seen: set<Pair> := {};
      while pending != {}
        invariant seen !! pending && seen + pending == toUndeploy
        invariant UndeployProgress(names, seen, done, old(undeployLog), old(cluster.services), old(cluster.calls))
        decreases |pending|
      {
        var p :| p in pending;
        done := UndeployNext(p, names, seen, done, old(undeployLog), old(cluster.services), old(cluster.calls));
        seen := seen + {p};
        pending := pending - {p};
      }
      assert seen == toUndeploy;
    }

    /** The state of the loop over `to_undeploy` once the pairs `seen` are done,
        having undeployed `done`, starting from log `log0`, services `before` and
        requests `calls0`. */
    ghost predicate UndeployProgress(names: map<Pair, string>, seen: set<Pair>, done: seq<(Pair, string)>,
                                     log0: seq<(Pair, string)>, before: map<string, Resource>, calls0: seq<ApiCall>)
      reads this, cluster
    {
      && cluster.Valid()
      && undeployLog == log0 + done
      && Enumerates(done, UndeployTargets(seen, names))
      && cluster.calls == calls0 + DeleteCallsOf(done)
      && (DeleteVerb !in cluster.failing ==> cluster.services == before - UndeployNames(seen, names))
      && (DeleteVerb in cluster.failing ==> cluster.services == before)
    }

    /** One turn of the loop over `to_undeploy`. */
    method UndeployNext(p: Pair, names: map<Pair, string>, ghost seen: set<Pair>, ghost done: seq<(Pair, string)>,
                        ghost log0: seq<(Pair, string)>, ghost before: map<string, Resource>, ghost calls0: seq<ApiCall>)
      returns (ghost done': seq<(Pair, string)>)
      requires p !in seen && UndeployProgress(names, seen, done, log0, before, calls0)
      modifies this`undeployLog, cluster`services, cluster`order, cluster`calls
      ensures UndeployProgress(names, seen + {p}, done', log0, before, calls0)
    {
      UndeployStep(seen, p, names);
      if p in names && names[p] != "" {
        var entry := (p, names[p]);
        assert entry !in UndeployTargets(seen, names);
        UndeployModel(p, names[p]);
        EnumeratesSnoc(done, UndeployTargets(seen, names), entry);
        ConcatAssoc(log0, done, [entry]);
        assert DeleteCallsOf(done + [entry]) == DeleteCallsOf(done) + [DeleteCall(names[p])];
        ConcatAssoc(calls0, DeleteCallsOf(done), [DeleteCall(names[p])]);
        assert before - UndeployNames(seen, names) - {names[p]} == before - UndeployNames(seen + {p}, names);
        done' := done + [entry];
      } else {
        done' := done;
      }
    }

    /** One turn of `_poll_loop`: the cycle's errors are caught inside it, so the
        loop goes on and the service stays running. */
    method PollOnce()
      requires cluster.Valid() && running
      modifies this`deployedModels, this`deployLog, this`undeployLog
      modifies cluster`services, cluster`order, cluster`nextUid, cluster`calls
      ensures cluster.Valid() && running
    {
      PollAndReconcile();
    }
  }

  lemma CurrentSnoc(items: seq<ServiceInfo>, i: nat)
    requires i < |items|
    ensures Current(items[..i + 1]) == Current(items[..i]) + (if Tracked(items[i]) then {PairOf(items[i])} else {})
    ensures NamesOf(items[..i + 1]) == if Tracked(items[i]) then NamesOf(items[..i])[PairOf(items[i]) := items[i].name]
                                        else NamesOf(items[..i])
  {
    assert items[..i + 1][..i] == items[..i];
  }

  /** Every pair of the current set has a name, and the name is that of a listed
      service carrying the pair's labels. */
  lemma {:induction false} NamesCoverCurrent(items: seq<ServiceInfo>)
    ensures forall p :: p in NamesOf(items) <==> p in Current(items)
    ensures forall p :: p in NamesOf(items) ==>
      exists i :: 0 <= i < |items| && Tracked(items[i]) && PairOf(items[i]) == p && items[i].name == NamesOf(items)[p]
    decreases |items|
  {
    if items != [] {
      var n := |items| - 1;
      NamesCoverCurrent(items[..n]);
      CurrentSnoc(items, n);
      assert items[..n + 1] == items;
      forall p | p in NamesOf(items)
        ensures exists i :: 0 <= i < |items| && Tracked(items[i]) && PairOf(items[i]) == p && items[i].name == NamesOf(items)[p]
      {
        if Tracked(items[n]) && p == PairOf(items[n]) {
          assert items[n].name == NamesOf(items)[p];
        } else {
          var i :| 0 <= i < n && Tracked(items[..n][i]) && PairOf(items[..n][i]) == p && items[..n][i].name == NamesOf(items[..n])[p];
          assert items[i] == items[..n][i];
        }
      }
    }
  }

  /** A registry outage looks like "nothing is marked": the cycle then undeploys every
      managed service it can name. */
  lemma OutageUndeploysEverything(items: seq<ServiceInfo>)
    ensures forall p :: p in NamesOf(items) && NamesOf(items)[p] != "" ==>
      (p, NamesOf(items)[p]) in UndeployTargets(Current(items) - Desired([]), NamesOf(items))
  {
    NamesCoverCurrent(items);
  }

  lemma ConcatAssoc<T>(a: seq<T>, b: seq<T>, c: seq<T>)
    ensures a + b + c == a + (b + c)
  {
  }

  /** A log that enumerates a set, extended by a new element. */
  lemma EnumeratesSnoc<T(!new)>(d: seq<T>, s: set<T>, x: T)
    requires Enumerates(d, s) && x !in s
    ensures Enumerates(d + [x], s + {x})
  {
  }

  /** "Exactly once": a log that enumerates a set has one entry per element. */
  lemma {:induction false} EnumeratesSize<T(!new)>(d: seq<T>, s: set<T>)
    requires Enumerates(d, s)
    ensures |d| == |s|
    decreases |d|
  {
    if d != [] {
      var x := d[|d| - 1];
      var init := d[..|d| - 1];
      assert forall y :: y in init <==> y in s - {x} by {
        forall y ensures y in init <==> y in s - {x} {
          if y in init {
            var k :| 0 <= k < |init| && init[k] == y;
            assert d[k] == y && k < |d| - 1;
          }
          assert y in d <==> y in init || y == x by { assert d == init + [x]; }
        }
      }
      EnumeratesSize(init, s - {x});
    } else {
      assert forall x :: x !in s;
      assert s == {};
    }
  }

  /** A pair deployed by the cycle is indeed marked in the registry's answer, so
      `_deploy_model` finds its data. */
  lemma DesiredHasData(cands: seq<Candidate>, p: Pair)
    requires p in Desired(cands)
    ensures FindCandidate(cands, p.0, p.1).Some?
  {
  }

  /** The services after a reconciliation: when deletes work, every undeployed name
      is gone and the rest is as the deploy loop left it; when they fail, the deploy
      loop's effect is all there is. */
  ghost predicate ReconciledServices(plans: map<Pair, (string, Manifest)>, toDeploy: set<Pair>, removed: set<string>,
                                     before: map<string, Resource>, failing: set<Verb>, after: map<string, Resource>)
  {
    && (DeleteVerb !in failing ==>
          (forall n :: n in removed ==> n !in after) && DeployEffect(plans, toDeploy, before, failing, after, removed))
    && (DeleteVerb in failing ==> DeployEffect(plans, toDeploy, before, failing, after, {}))
  }

  /** The plans are exactly what `PollPlan` accepts. */
  lemma PlansAt(runs: map<string, Run>, failing: set<Op>, template: Template, artifactsBase: Option<string>,
                namespace: string, cands: seq<Candidate>, name: string, version: string)
    ensures var plans := PlansOf(runs, failing, template, artifactsBase, namespace, cands);
      var plan := PollPlan(runs, failing, template, artifactsBase, namespace, cands, name, version);
      && ((name, version) in plans <==> plan.Some?)
      && ((name, version) in plans ==> plans[(name, version)] == plan.value)
  {
  }

  /** A name no pair of `ps` claims is as the deploy loop found it. */
  lemma UnclaimedKept(plans: map<Pair, (string, Manifest)>, ps: set<Pair>, before: map<string, Resource>,
                      failing: set<Verb>, mid: map<string, Resource>, n: string)
    requires DeployEffect(plans, ps, before, failing, mid, {})
    requires n !in PlannedNames(plans, ps)
    ensures (n in mid <==> n in before) && (n in before ==> mid[n] == before[n])
    ensures UpdateFails(mid, failing, n) == UpdateFails(before, failing, n)
  {
  }

  /** The deploy loop's effect after one more pair. */
  lemma DeployEffectStep(plans: map<Pair, (string, Manifest)>, ps: set<Pair>, x: Pair, before: map<string, Resource>,
                         failing: set<Verb>, mid: map<string, Resource>, after: map<string, Resource>)
    requires x !in ps
    requires DeployEffect(plans, ps, before, failing, mid, {})
    requires x in plans ==> UpdateEffect(mid, failing, plans[x].0, plans[x].1, after)
    requires x !in plans ==> after == mid
    ensures DeployEffect(plans, ps + {x}, before, failing, after, {})
  {
    var ps' := ps + {x};
    if x !in plans {
      assert PlannedNames(plans, ps') == PlannedNames(plans, ps);
      forall p | p in ps' && p in plans && SoleClaim(plans, ps', p)
        ensures NameUpdated(before, failing, plans[p].0, plans[p].1, after)
      {
        assert SoleClaim(plans, ps, p);
      }
    } else {
      var svc := plans[x].0;
      assert PlannedNames(plans, ps') == PlannedNames(plans, ps) + {svc};
      forall p | p in ps' && p in plans && SoleClaim(plans, ps', p)
        ensures NameUpdated(before, failing, plans[p].0, plans[p].1, after)
      {
        if p == x {
          assert svc !in PlannedNames(plans, ps) by {
            forall q | q in ps && q in plans ensures plans[q].0 != svc {
              assert q != x;
            }
          }
          UnclaimedKept(plans, ps, before, failing, mid, svc);
        } else {
          assert SoleClaim(plans, ps, p);
          assert plans[p].0 != svc by { assert x in ps' && x in plans && x != p; }
        }
      }
    }
  }

  /** The requests of the deploy loop after one more pair. */
  lemma DeployCallsStep(plans: map<Pair, (string, Manifest)>, ps: set<Pair>, x: Pair, k: nat, midCalls: seq<ApiCall>,
                        calls: seq<ApiCall>, mid: map<string, Resource>, failing: set<Verb>)
    requires UpdatesSince(midCalls, k, PlannedNames(plans, ps))
    requires x !in plans ==> calls == midCalls
    requires x in plans ==> calls == midCalls + UpdateCalls(mid, failing, plans[x].0, plans[x].1)
    ensures UpdatesSince(calls, k, PlannedNames(plans, ps + {x}))
    ensures calls[..k] == midCalls[..k]
  {
    assert PlannedNames(plans, ps) <= PlannedNames(plans, ps + {x});
    if x in plans {
      assert plans[x].0 in PlannedNames(plans, ps + {x});
    }
  }

  /** Deleting the undeployed names after the deploy loop. */
  lemma ReconciledCompose(plans: map<Pair, (string, Manifest)>, ps: set<Pair>, removed: set<string>,
                          before: map<string, Resource>, failing: set<Verb>, mid: map<string, Resource>,
                          after: map<string, Resource>)
    requires DeployEffect(plans, ps, before, failing, mid, {})
    requires after == if DeleteVerb in failing then mid else mid - removed
    ensures ReconciledServices(plans, ps, removed, before, failing, after)
  {
  }

  /** The requests of the deploy loop followed by those of the undeploy loop. */
  lemma ReconcileCallsCompose(c0: seq<ApiCall>, c1: seq<ApiCall>, deletes: seq<ApiCall>, names: set<string>)
    requires |c0| <= |c1| && c1[..|c0|] == c0 && UpdatesSince(c1, |c0|, names)
    ensures ReconcileCalls(c0, c1 + deletes, names, deletes)
  {
    var c2 := c1 + deletes;
    assert c2[|c2| - |deletes|..] == deletes;
    assert c2[..|c0|] == c1[..|c0|];
    forall i | |c0| <= i < |c2| - |deletes| ensures UpdateRequest(c2[i], names) {
      assert c2[i] == c1[i];
    }
  }

  /** The undeploy loop after one more pair: the targets and the deleted names grow
      by that pair's entry when it has a non-empty name. */
  lemma UndeployStep(ps: set<Pair>, x: Pair, names: map<Pair, string>)
    ensures x in names && names[x] != "" ==>
      && UndeployTargets(ps + {x}, names) == UndeployTargets(ps, names) + {(x, names[x])}
      && UndeployNames(ps + {x}, names) == UndeployNames(ps, names) + {names[x]}
    ensures !(x in names && names[x] != "") ==>
      UndeployTargets(ps + {x}, names) == UndeployTargets(ps, names) && UndeployNames(ps + {x}, names) == UndeployNames(ps, names)
  {
  }

  /** The delete requests of the undeploy loop are exactly one per deleted name:
      none is missed, none is extra and none is sent twice. */
  lemma {:induction false} DeletesCoverTargets(log: seq<(Pair, string)>, ps: set<Pair>, names: map<Pair, string>)
    requires Enumerates(log, UndeployTargets(ps, names))
    ensures forall n :: DeleteCall(n) in DeleteCallsOf(log) <==> n in UndeployNames(ps, names)
    ensures |DeleteCallsOf(log)| == |UndeployTargets(ps, names)|
  {
    EnumeratesSize(log, UndeployTargets(ps, names));
    forall n ensures DeleteCall(n) in DeleteCallsOf(log) <==> n in UndeployNames(ps, names) {
      if DeleteCall(n) in DeleteCallsOf(log) {
        var i :| 0 <= i < |log| && DeleteCallsOf(log)[i] == DeleteCall(n);
        assert log[i] in UndeployTargets(ps, names);
      }
      if n in UndeployNames(ps, names) {
        var p :| p in ps && p in names && names[p] != "" && names[p] == n;
        assert (p, n) in log;
        var i :| 0 <= i < |log| && log[i] == (p, n);
        assert DeleteCallsOf(log)[i] == DeleteCall(n);
      }
    }
  }
}
