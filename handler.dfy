/** Event routing and the `deploy`-tag handlers (webhook-listener/src/webhook_handler.py:
    `process_webhook_event`, `handle_tag_set_event`, `handle_tag_deleted_event`), as
    methods over the registry client and the cluster client.

    The Jinja template is the parameter `template`; `None` from it is a TemplateError.
    Every field of the event may be absent (`dict.get`), so each is an `Option`.
    Cluster effects are stated on values (the services before and after, the
    requests sent before and after) so the router can repeat its handlers' promises. */
module WebhookHandler {
  import opened Wrappers
  import opened K8sNames
  import opened Kubernetes
  import opened Mlflow

  const TagEntity: string := "model_version_tag"
  const SetAction: string := "set"
  const DeletedAction: string := "deleted"

  /** The `data` object of an event; a missing `data` has every field absent. */
  datatype TagData = TagData(name: Option<string>, version: Option<string>,
                             key: Option<string>, value: Option<string>)

  /** An event; `data` is `None` when the payload's `data` is present but not an
      object (null, a list, a string or a number), on which `dict.get` raises. */
  datatype Event = Event(entity: Option<string>, action: Option<string>, data: Option<TagData>)

  /** The variables handed to the InferenceService template. */
  datatype TemplateVars = TemplateVars(name: string, namespace: string, modelName: string,
                                       modelVersion: string, storageUri: string, runId: string,
                                       experimentId: string)

  type Template = TemplateVars -> Option<Manifest>

  /** What the deploy path reads from the registry. */
  datatype Details = Details(runId: string, storageUri: string, experimentId: string)

  datatype Ignore = NotDeployKey(key: Option<string>) | UnexpectedValue(value: Option<string>)

  datatype Failure =
    | FetchFailed                          // "Failed to fetch model details from MLflow"
    | ManifestFailed                       // "Failed to generate manifest"
    | DeployFailed(serviceName: string)    // "Kubernetes deployment failed"
    | DeleteFailed(serviceName: string)    // "Kubernetes deletion failed"

  /** The `action` of a handler's answer. `applied` is `None` for the
      `note: already_exists` answer. */
  datatype TagOutcome =
    | Ignored(why: Ignore, modelName: Option<string>, version: Option<string>)
    | Deployed(modelName: Option<string>, version: Option<string>, serviceName: string,
               namespace: string, applied: Option<Applied>)
    | Undeployed(modelName: Option<string>, version: Option<string>, serviceName: string,
                 namespace: string, alreadyDeleted: bool)
    | Failed(failure: Failure, modelName: Option<string>, version: Option<string>)

  /** The exception a handler lets escape: the ValueError of an empty service name on
      the undeploy paths, where the name is generated outside any `try`. */
  datatype HandlerError = InvalidServiceName

  datatype EventStatus =
    | Success(outcome: TagOutcome)   // routed to a handler
    | NotHandled                     // "received but not handled"
    | ProcessingError                // the handler raised

  datatype EventResponse = EventResponse(status: EventStatus, entity: Option<string>,
                                         action: Option<string>, deliveryId: string)

  /** How an f-string shows an optional value. */
  function Shown(o: Option<string>): string {
    match o case Some(s) => s case None => "None"
  }

  /** The model version and its run, or `None` when either lookup raises (an absent
      name or version is refused by the registry). */
  function ModelDetails(reg: MlflowClient, name: Option<string>, version: Option<string>): (d: Option<Details>)
    reads reg
    ensures d.Some? ==> name.Some? && version.Some? && GetModelVersionOp !in reg.failing && GetRunOp !in reg.failing
    ensures d.Some? ==> FindVersion(reg.versions, name.value, version.value).Some?
                        && d.value.storageUri == FindVersion(reg.versions, name.value, version.value).value.source
  {
    if name.None? || version.None? || GetModelVersionOp in reg.failing then None
    else match FindVersion(reg.versions, name.value, version.value)
      case None => None
      case Some(mv) =>
        if GetRunOp in reg.failing || mv.runId.None? || mv.runId.value !in reg.runs then None
        else Some(Details(mv.runId.value, mv.source, reg.runs[mv.runId.value].experimentId))
  }

  /** `render_inference_service` followed by `generate_inference_service_name`: the
      service name and the manifest, or `None` when either raises. */
  function DeployPlan(template: Template, name: string, version: string, d: Details, namespace: string)
    : (p: Option<(string, Manifest)>)
    ensures p.Some? <==> GenerateInferenceServiceName(name, version).Ok?
                         && template(TemplateVars(GenerateInferenceServiceName(name, version).value, namespace,
                                                  name, version, d.storageUri, d.runId, d.experimentId)).Some?
    ensures p.Some? ==> ValidName(p.value.0) && p.value.0 == GenerateInferenceServiceName(name, version).value
  {
    match RenderedName(name, version, None)
    case Err(_) => None
    case Ok(svc) =>
      match template(TemplateVars(svc, namespace, name, version, d.storageUri, d.runId, d.experimentId))
      case None => None
      case Some(m) => Some((svc, m))
  }

  /** The deploy path's answer and effect for service `svc` and manifest `m`: an
      error carrying the service name when the kind is wrong or the API fails;
      otherwise "deployed", reported as updated exactly when the object existed
      before. Either way the cluster is left as `update_inference_service` leaves it. */
  predicate DeployReported(data: TagData, svc: string, m: Manifest, before: map<string, Resource>,
                           failing: set<Verb>, o: TagOutcome, after: map<string, Resource>)
  {
    && o.modelName == data.name && o.version == data.version
    && UpdateEffect(before, failing, svc, m, after)
    && (KindCheck(m).Some? || UpdateFails(before, failing, svc) ==> o == Failed(DeployFailed(svc), data.name, data.version))
    && (KindCheck(m).None? && !UpdateFails(before, failing, svc) ==>
          && o.Deployed? && o.serviceName == svc && o.applied.Some? && o.applied.value.name == svc
          && (o.applied.value.status == Updated <==> svc in before))
  }

  /** The undeploy path on the cluster's services and sent requests: an invalid
      generated name raises before any request; otherwise exactly one delete of the
      generated name, "undeployed" (noting whether it was already gone) when it
      succeeds, an error carrying the name, with nothing removed, when it fails. */
  predicate UndeployReported(data: TagData, namespace: string, failing: set<Verb>,
                             before: map<string, Resource>, calls0: seq<ApiCall>,
                             r: Result<TagOutcome, HandlerError>,
                             after: map<string, Resource>, calls1: seq<ApiCall>)
  {
    match GenerateInferenceServiceName(Shown(data.name), Shown(data.version))
    case Err(_) => r == Err(InvalidServiceName) && after == before && calls1 == calls0
    case Ok(svc) =>
      && calls1 == calls0 + [DeleteCall(svc)]
      && (DeleteVerb in failing ==> r == Ok(Failed(DeleteFailed(svc), data.name, data.version)) && after == before)
      && (DeleteVerb !in failing ==>
            r == Ok(Undeployed(data.name, data.version, svc, namespace, svc !in before)) && after == before - {svc})
  }

  /** The deploy path of `deploy=true`, given what the registry answers: a registry
      failure or a manifest that cannot be made sends nothing; otherwise the update
      of the generated name with the rendered manifest, and its answer. */
  predicate DeployPathReported(details: Option<Details>, template: Template, data: TagData, namespace: string,
                               failing: set<Verb>, before: map<string, Resource>, calls0: seq<ApiCall>,
                               r: Result<TagOutcome, HandlerError>,
                               after: map<string, Resource>, calls1: seq<ApiCall>)
  {
    match details
    case None => r == Ok(Failed(FetchFailed, data.name, data.version)) && after == before && calls1 == calls0
    case Some(d) =>
      && data.name.Some? && data.version.Some?
      && match DeployPlan(template, data.name.value, data.version.value, d, namespace)
         case None => r == Ok(Failed(ManifestFailed, data.name, data.version)) && after == before && calls1 == calls0
         case Some((svc, m)) =>
           && r.Ok? && DeployReported(data, svc, m, before, failing, r.value, after)
           && calls1 == calls0 + UpdateCalls(before, failing, svc, m)
  }

  /** Whether the deploy path gets as far as the cluster: the registry answered and
      both the name and the manifest could be made. */
  predicate ReachesCluster(details: Option<Details>, template: Template, data: TagData, namespace: string) {
    && details.Some? && data.name.Some? && data.version.Some?
    && DeployPlan(template, data.name.value, data.version.value, details.value, namespace).Some?
  }

  /** `handle_tag_set_event` on the cluster: another key, or a value other than
      "true"/"false", is ignored and sends nothing; "true" deploys, "false" undeploys. */
  predicate TagSetReported(details: Option<Details>, template: Template, data: TagData, namespace: string,
                           failing: set<Verb>, before: map<string, Resource>, calls0: seq<ApiCall>,
                           r: Result<TagOutcome, HandlerError>,
                           after: map<string, Resource>, calls1: seq<ApiCall>)
  {
    if data.key != Some(DeployTag) then
      r == Ok(Ignored(NotDeployKey(data.key), data.name, data.version)) && after == before && calls1 == calls0
    else if data.value == Some("true") then
      DeployPathReported(details, template, data, namespace, failing, before, calls0, r, after, calls1)
    else if data.value == Some("false") then
      UndeployReported(data, namespace, failing, before, calls0, r, after, calls1)
    else
      r == Ok(Ignored(UnexpectedValue(data.value), data.name, data.version)) && after == before && calls1 == calls0
  }

  /** `handle_tag_deleted_event` on the cluster: the `deploy` key undeploys, any
      other is ignored and sends nothing. */
  predicate TagDeletedReported(data: TagData, namespace: string, failing: set<Verb>,
                               before: map<string, Resource>, calls0: seq<ApiCall>,
                               r: Result<TagOutcome, HandlerError>,
                               after: map<string, Resource>, calls1: seq<ApiCall>)
  {
    if data.key != Some(DeployTag) then
      r == Ok(Ignored(NotDeployKey(data.key), data.name, data.version)) && after == before && calls1 == calls0
    else
      UndeployReported(data, namespace, failing, before, calls0, r, after, calls1)
  }

  /** The handler's result as the router reports it: a raised error is the "error"
      status. `HandlerError` has a single case, so nothing is lost. */
  function AsHandled(s: EventStatus): (r: Result<TagOutcome, HandlerError>)
    requires !s.NotHandled?
    ensures r.Ok? <==> s.Success?
    ensures r.Ok? ==> s == Success(r.value)
  {
    match s
    case Success(o) => Ok(o)
    case ProcessingError => Err(InvalidServiceName)
  }

  /** `process_webhook_event` on the cluster: a tag set or deleted event goes to
      its handler, whose result or raised error is the status; a `data` that is not
      an object raises on the first `get`; any other event is not handled and
      sends nothing. */
  predicate EventReported(reg: MlflowClient, template: Template, event: Event, namespace: string,
                          failing: set<Verb>, before: map<string, Resource>, calls0: seq<ApiCall>,
                          status: EventStatus, after: map<string, Resource>, calls1: seq<ApiCall>)
    reads reg
  {
    if !IsTagEvent(event) then
      status == NotHandled && after == before && calls1 == calls0
    else match event.data
      case None => status == ProcessingError && after == before && calls1 == calls0
      case Some(data) =>
        && status != NotHandled
        && if event.action == Some(SetAction) then
             TagSetReported(ModelDetails(reg, data.name, data.version), template, data, namespace, failing,
                            before, calls0, AsHandled(status), after, calls1)
           else
             TagDeletedReported(data, namespace, failing, before, calls0, AsHandled(status), after, calls1)
  }

  /** The answer of the deploy path once the update has come back. */
  function DeployAnswer(data: TagData, svc: string, namespace: string, res: Result<Applied, ClusterError>): (o: TagOutcome)
    ensures o.Deployed? || o == Failed(DeployFailed(svc), data.name, data.version)
  {
    match res
    case Ok(a) => Deployed(data.name, data.version, svc, namespace, Some(a))
    case Err(AlreadyExists(_)) => Deployed(data.name, data.version, svc, namespace, None)
    case Err(ClientError(_)) => Failed(DeployFailed(svc), data.name, data.version)
  }

  /** The undeploy path shared by `deploy=false` and the deletion of the tag: exactly
      one delete, of the generated name. */
  method Undeploy(cluster: KubernetesClient, data: TagData) returns (r: Result<TagOutcome, HandlerError>)
    requires cluster.Valid()
    modifies cluster`services, cluster`order, cluster`calls
    ensures cluster.Valid()
    ensures UndeployReported(data, cluster.namespace, cluster.failing, old(cluster.services), old(cluster.calls),
                             r, cluster.services, cluster.calls)
    ensures r.Err? <==> GenerateInferenceServiceName(Shown(data.name), Shown(data.version)).Err?
    ensures r.Err? ==> unchanged(cluster)
  {
    var name := GenerateInferenceServiceName(Shown(data.name), Shown(data.version));
    if name.Err? {
      return Err(InvalidServiceName);
    }
    var res := cluster.Delete(name.value);
    if res.Err? {
      return Ok(Failed(DeleteFailed(name.value), data.name, data.version));
    }
    return Ok(Undeployed(data.name, data.version, name.value, cluster.namespace, res.value.alreadyDeleted));
  }

  /** `handle_tag_set_event`. */
  method HandleTagSet(reg: MlflowClient, cluster: KubernetesClient, template: Template, data: TagData)
    returns (r: Result<TagOutcome, HandlerError>)
    requires cluster.Valid()
    modifies cluster`services, cluster`order, cluster`nextUid, cluster`calls
    ensures cluster.Valid()
    ensures TagSetReported(ModelDetails(reg, data.name, data.version), template, data, cluster.namespace,
                           cluster.failing, old(cluster.services), old(cluster.calls), r, cluster.services, cluster.calls)
    ensures r.Err? <==>
      data.key == Some(DeployTag) && data.value == Some("false")
      && GenerateInferenceServiceName(Shown(data.name), Shown(data.version)).Err?
    ensures r.Err? ==> unchanged(cluster)
    // a key other than `deploy`, or a value other than "true"/"false": nothing at all changes
    ensures data.key != Some(DeployTag) || (data.value != Some("true") && data.value != Some("false")) ==>
      unchanged(cluster)
    ensures data.key == Some(DeployTag) && data.value == Some("true")
            && !ReachesCluster(ModelDetails(reg, data.name, data.version), template, data, cluster.namespace) ==>
      unchanged(cluster)
  {
    if data.key != Some(DeployTag) {
      return Ok(Ignored(NotDeployKey(data.key), data.name, data.version));
    }
    if data.value == Some("true") {
      r := Deploy(reg, cluster, template, data);
    } else if data.value == Some("false") {
      r := Undeploy(cluster, data);
    } else {
      return Ok(Ignored(UnexpectedValue(data.value), data.name, data.version));
    }
  }

  /** The deploy path of `deploy=true`: the registry is read under one `try`, the
      manifest and name are made under a second, and only then is the cluster called. */
  method Deploy(reg: MlflowClient, cluster: KubernetesClient, template: Template, data: TagData)
    returns (r: Result<TagOutcome, HandlerError>)
    requires cluster.Valid()
    modifies cluster`services, cluster`order, cluster`nextUid, cluster`calls
    ensures cluster.Valid()
    ensures r.Ok?
    ensures DeployPathReported(ModelDetails(reg, data.name, data.version), template, data, cluster.namespace,
                               cluster.failing, old(cluster.services), old(cluster.calls), r, cluster.services, cluster.calls)
    ensures !ReachesCluster(ModelDetails(reg, data.name, data.version), template, data, cluster.namespace) ==>
      unchanged(cluster)
  {
    var details := FetchDetails(reg, data.name, data.version);
    if details.None? {
      return Ok(Failed(FetchFailed, data.name, data.version));
    }
    r := DeployFetched(cluster, template, data, details.value);
  }

  /** The second `try` of the deploy path, once the registry has answered. */
  method DeployFetched(cluster: KubernetesClient, template: Template, data: TagData, d: Details)
    returns (r: Result<TagOutcome, HandlerError>)
    requires cluster.Valid() && data.name.Some? && data.version.Some?
    modifies cluster`services, cluster`order, cluster`nextUid, cluster`calls
    ensures cluster.Valid()
    ensures r.Ok?
    ensures DeployPathReported(Some(d), template, data, cluster.namespace, cluster.failing, old(cluster.services),
                               old(cluster.calls), r, cluster.services, cluster.calls)
    ensures !ReachesCluster(Some(d), template, data, cluster.namespace) ==> unchanged(cluster)
  {
    var plan := DeployPlan(template, data.name.value, data.version.value, d, cluster.namespace);
    if plan.None? {
      return Ok(Failed(ManifestFailed, data.name, data.version));
    }
    var answer := Apply(cluster, data, plan.value.0, plan.value.1);
    return Ok(answer);
  }

  /** `update_inference_service` and the answer built from what it returns or raises. */
  method Apply(cluster: KubernetesClient, data: TagData, svc: string, m: Manifest) returns (o: TagOutcome)
    requires cluster.Valid()
    modifies cluster`services, cluster`order, cluster`nextUid, cluster`calls
    ensures cluster.Valid()
    ensures DeployReported(data, svc, m, old(cluster.services), cluster.failing, o, cluster.services)
    ensures cluster.calls == old(cluster.calls) + UpdateCalls(old(cluster.services), cluster.failing, svc, m)
  {
    var res := cluster.Update(svc, m);
    o := DeployAnswer(data, svc, cluster.namespace, res);
  }

  /** The two registry calls of the deploy path, under one `try`. */
  method FetchDetails(reg: MlflowClient, name: Option<string>, version: Option<string>) returns (d: Option<Details>)
    ensures d == ModelDetails(reg, name, version)
  {
    if name.None? || version.None? {
      return None;
    }
    var mv := reg.GetModelVersion(name.value, version.value);
    if mv.Err? {
      return None;
    }
    var run := reg.GetRun(mv.value.runId);
    if run.Err? {
      return None;
    }
    return Some(Details(mv.value.runId.value, mv.value.source, run.value.experimentId));
  }

  /** `handle_tag_deleted_event`: deleting the `deploy` tag undeploys. */
  method HandleTagDeleted(cluster: KubernetesClient, data: TagData) returns (r: Result<TagOutcome, HandlerError>)
    requires cluster.Valid()
    modifies cluster`services, cluster`order, cluster`calls
    ensures cluster.Valid()
    ensures TagDeletedReported(data, cluster.namespace, cluster.failing, old(cluster.services), old(cluster.calls),
                               r, cluster.services, cluster.calls)
    ensures r.Err? <==> data.key == Some(DeployTag) && GenerateInferenceServiceName(Shown(data.name), Shown(data.version)).Err?
    ensures r.Err? || data.key != Some(DeployTag) ==> unchanged(cluster)
  {
    if data.key != Some(DeployTag) {
      return Ok(Ignored(NotDeployKey(data.key), data.name, data.version));
    }
    r := Undeploy(cluster, data);
  }

  /** `process_webhook_event`: routing on entity and action. */
  method ProcessWebhookEvent(reg: MlflowClient, cluster: KubernetesClient, template: Template,
                             event: Event, deliveryId: string) returns (r: EventResponse)
    requires cluster.Valid()
    modifies cluster`services, cluster`order, cluster`nextUid, cluster`calls
    ensures cluster.Valid()
    ensures r.entity == event.entity && r.action == event.action && r.deliveryId == deliveryId
    ensures EventReported(reg, template, event, cluster.namespace, cluster.failing, old(cluster.services),
                          old(cluster.calls), r.status, cluster.services, cluster.calls)
    ensures !IsTagEvent(event) ==> r.status == NotHandled && unchanged(cluster)
    ensures r.status == ProcessingError ==> IsTagEvent(event) && unchanged(cluster)
  {
    if !IsTagEvent(event) {
      return EventResponse(NotHandled, event.entity, event.action, deliveryId);
    }
    if event.data.None? {
      return EventResponse(ProcessingError, event.entity, event.action, deliveryId);
    }
    var routed: Result<TagOutcome, HandlerError>;
    if event.action == Some(SetAction) {
      routed := HandleTagSet(reg, cluster, template, event.data.value);
    } else {
      routed := HandleTagDeleted(cluster, event.data.value);
    }
    var status := match routed case Ok(o) => Success(o) case Err(_) => ProcessingError;
    return EventResponse(status, event.entity, event.action, deliveryId);
  }

  /** A `model_version_tag` event with action `set` or `deleted`, the two the router handles. */
  predicate IsTagEvent(event: Event) {
    event.entity == Some(TagEntity) && (event.action == Some(SetAction) || event.action == Some(DeletedAction))
  }
}
