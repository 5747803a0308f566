/** The listener's HTTP layer and start-up (webhook-listener/src/main.py): the
    guard order of `handle_webhook`, the projection of `list_services`, the
    aggregation of `detailed_health_check`, `health_check`, and the decision in
    `lifespan` between webhooks and polling.

    The request body arrives as text; `parse` stands for `json.loads`. HTTP errors
    are their status codes. */
module App {
  import opened Wrappers
  import opened Kubernetes
  import opened Mlflow
  import opened WebhookAuth
  import opened WebhookHandler
  import opened Polling

  /** What `json.loads` makes of the body: an object read as an event, any other
      JSON value (on which `webhook_data.get` raises), or a parse error. */
  datatype Body = EventObject(event: Event) | OtherJson | Malformed

  datatype WebhookReply = Rejected(code: int) | Answered(response: EventResponse)

  /** The three headers are present and non-empty. */
  predicate HeadersPresent(signature: Option<string>, deliveryId: Option<string>, timestamp: Option<string>) {
    && signature.Some? && signature.value != ""
    && deliveryId.Some? && deliveryId.value != ""
    && timestamp.Some? && timestamp.value != ""
  }

  /** The checks of `handle_webhook` before the event is processed, in their order:
      headers (400), JSON (500), freshness (401), signature (401). `None` lets the
      request through. */
  function Guard(mac: Mac, secret: string, now: int, payload: string, body: Body,
                 signature: Option<string>, deliveryId: Option<string>, timestamp: Option<string>)
    : (code: Option<int>)
    ensures code.None? <==>
      && HeadersPresent(signature, deliveryId, timestamp) && !body.Malformed?
      && TimestampFresh(timestamp, now, DefaultMaxAge)
      && VerifySignature(mac, payload, signature.value, secret, deliveryId.value, timestamp.value)
    ensures code.Some? ==> code.value in {400, 401, 500}
    ensures !HeadersPresent(signature, deliveryId, timestamp) ==> code == Some(400)
    ensures HeadersPresent(signature, deliveryId, timestamp) && body.Malformed? ==> code == Some(500)
    ensures HeadersPresent(signature, deliveryId, timestamp) && !body.Malformed? && !TimestampFresh(timestamp, now, DefaultMaxAge) ==>
      code == Some(401)
    ensures HeadersPresent(signature, deliveryId, timestamp) && !body.Malformed? && TimestampFresh(timestamp, now, DefaultMaxAge)
            && !VerifySignature(mac, payload, signature.value, secret, deliveryId.value, timestamp.value) ==>
      code == Some(401)
  {
    if !HeadersPresent(signature, deliveryId, timestamp) then Some(400)
    else if body.Malformed? then Some(500)
    else if !TimestampFresh(timestamp, now, DefaultMaxAge) then Some(401)
    else if !VerifySignature(mac, payload, signature.value, secret, deliveryId.value, timestamp.value) then Some(401)
    else None
  }

  /** `handle_webhook`: nothing reaches the cluster unless every check passes. */
  method HandleWebhook(reg: MlflowClient, cluster: KubernetesClient, template: Template, mac: Mac,
                       secret: string, now: int, parse: string -> Body, payload: string,
                       signature: Option<string>, deliveryId: Option<string>, timestamp: Option<string>)
    returns (reply: WebhookReply)
    requires cluster.Valid()
    modifies cluster`services, cluster`order, cluster`nextUid, cluster`calls
    ensures cluster.Valid()
    ensures Guard(mac, secret, now, payload, parse(payload), signature, deliveryId, timestamp).Some? ==>
      reply == Rejected(Guard(mac, secret, now, payload, parse(payload), signature, deliveryId, timestamp).value)
      && unchanged(cluster)
    ensures Guard(mac, secret, now, payload, parse(payload), signature, deliveryId, timestamp).None? ==>
      match parse(payload)
      case OtherJson => reply == Rejected(500) && unchanged(cluster)
      case EventObject(e) =>
        && reply.Answered? && reply.response.deliveryId == deliveryId.value
        && reply.response.entity == e.entity && reply.response.action == e.action
        && EventReported(reg, template, e, cluster.namespace, cluster.failing, old(cluster.services),
                         old(cluster.calls), reply.response.status, cluster.services, cluster.calls)
      case Malformed => false
  {
    var body := parse(payload);
    var code := Guard(mac, secret, now, payload, body, signature, deliveryId, timestamp);
    if code.Some? {
      return Rejected(code.value);
    }
    match body {
      case OtherJson =>
        return Rejected(500);
      case EventObject(e) =>
        var response := ProcessWebhookEvent(reg, cluster, template, e, deliveryId.value);
        return Answered(response);
    }
  }

  // ---------------------------------------------------------------------------
  // /services

  /** The selector and the label keys `list_services` and the detailed health check
      use; the reconciler uses different ones. */
  const ServicesSelector: Option<Labels> := Some(map["managed-by" := "nebari-mlflow-webhook-listener"])
  const ModelNameKey: string := "mlflow.org/model-name"
  const ModelVersionKey: string := "mlflow.org/model-version"
  const RunIdKey: string := "mlflow.org/run-id"
  const UnknownLabel: string := "unknown"

  datatype Readiness = Ready | NotReady | UnknownReadiness

  datatype ServiceView = ServiceView(name: string, namespace: string, modelName: string, modelVersion: string,
                                     runId: string, status: Readiness, url: Option<string>, creationTimestamp: nat)

  datatype ServicesPage = ServicesPage(services: seq<ServiceView>, total: nat, namespace: string)

  /** The first condition of type `Ready`. */
  function FirstReady(conditions: seq<Condition>): (c: Option<nat>)
    ensures c.Some? ==> c.value < |conditions| && conditions[c.value].conditionType == "Ready"
                        && forall j :: 0 <= j < c.value ==> conditions[j].conditionType != "Ready"
    ensures c.None? ==> forall j :: 0 <= j < |conditions| ==> conditions[j].conditionType != "Ready"
  {
    if conditions == [] then None
    else if conditions[0].conditionType == "Ready" then Some(0)
    else match FirstReady(conditions[1..])
      case None => None
      case Some(k) => Some(k + 1)
  }

  function ReadinessOf(conditions: seq<Condition>): Readiness {
    match FirstReady(conditions)
    case None => UnknownReadiness
    case Some(k) => if conditions[k].status == "True" then Ready else NotReady
  }

  /** The search over conditions, stopped by `break` at the first `Ready` one. */
  method ReadyStatus(conditions: seq<Condition>) returns (ready: Readiness)
    ensures ready == ReadinessOf(conditions)
    ensures ready == Ready <==> exists k :: 0 <= k < |conditions| && conditions[k].conditionType == "Ready"
                                  && conditions[k].status == "True"
                                  && forall j :: 0 <= j < k ==> conditions[j].conditionType != "Ready"
    ensures ready == UnknownReadiness <==> forall j :: 0 <= j < |conditions| ==> conditions[j].conditionType != "Ready"
  {
    ready := UnknownReadiness;
    var i := 0;
    while i < |conditions|
      invariant 0 <= i <= |conditions|
      invariant forall j :: 0 <= j < i ==> conditions[j].conditionType != "Ready"
    {
      if conditions[i].conditionType == "Ready" {
        ready := if conditions[i].status == "True" then Ready else NotReady;
        FirstReadyAt(conditions, i);
        return;
      }
      i := i + 1;
    }
  }

  lemma {:induction false} FirstReadyAt(conditions: seq<Condition>, i: nat)
    requires i < |conditions| && conditions[i].conditionType == "Ready"
    requires forall j :: 0 <= j < i ==> conditions[j].conditionType != "Ready"
    ensures FirstReady(conditions) == Some(i)
  {
    if i > 0 {
      FirstReadyAt(conditions[1..], i - 1);
    }
  }

  function LabelOr(labels: Labels, key: string): (v: string)
    ensures key !in labels ==> v == UnknownLabel
    ensures key in labels ==> v == labels[key]
  {
    if key in labels then labels[key] else UnknownLabel
  }

  function View(info: ServiceInfo): ServiceView {
    ServiceView(info.name, info.namespace, LabelOr(info.labels, ModelNameKey), LabelOr(info.labels, ModelVersionKey),
                LabelOr(info.labels, RunIdKey), ReadinessOf(info.status.conditions), info.status.url,
                info.creationTimestamp)
  }

  /** `list_services`: one view per listed service, in order; a listing error is 500. */
  method ListServices(cluster: KubernetesClient) returns (r: Result<ServicesPage, int>)
    requires cluster.Valid()
    modifies cluster`calls
    ensures ListVerb in cluster.failing ==> r == Err(500)
    ensures ListVerb !in cluster.failing ==>
      var items := Project(cluster.Listing(ServicesSelector), cluster.namespace);
      && r.Ok? && r.value.total == |r.value.services| == |items| && r.value.namespace == cluster.namespace
      && forall i :: 0 <= i < |items| ==> r.value.services[i] == View(items[i])
  {
    var listed := cluster.List(ServicesSelector);
    if listed.Err? {
      return Err(500);
    }
    var items := listed.value;
    var views: seq<ServiceView> := [];
    var i := 0;
    while i < |items|
      invariant 0 <= i <= |items|
      invariant |views| == i && forall j :: 0 <= j < i ==> views[j] == View(items[j])
    {
      var ready := ReadyStatus(items[i].status.conditions);
      var labels := items[i].labels;
      views := views + [ServiceView(items[i].name, items[i].namespace, LabelOr(labels, ModelNameKey),
                                    LabelOr(labels, ModelVersionKey), LabelOr(labels, RunIdKey), ready,
                                    items[i].status.url, items[i].creationTimestamp)];
      i := i + 1;
    }
    return Ok(ServicesPage(views, |views|, cluster.namespace));
  }

  // ---------------------------------------------------------------------------
  // Health

  datatype HealthStatus = Healthy | Unhealthy

  /** `health_check`: the liveness probe answers healthy whatever the collaborators do. */
  function HealthCheck(reg: MlflowClient, cluster: KubernetesClient): (s: HealthStatus)
    ensures s == Healthy
  {
    Healthy
  }

  datatype DetailedHealth = DetailedHealth(status: HealthStatus, mlflowConnected: bool, kubernetesConnected: bool,
                                           webhookCount: Option<nat>, managedServicesCount: Option<nat>)

  /** `detailed_health_check`: healthy only when both the registry and the cluster
      answer a list request. */
  method DetailedHealthCheck(reg: MlflowClient, cluster: KubernetesClient) returns (h: DetailedHealth)
    requires cluster.Valid()
    modifies cluster`calls
    ensures h.mlflowConnected <==> ListWebhooksOp !in reg.failing
    ensures h.kubernetesConnected <==> ListVerb !in cluster.failing
    ensures h.status == Healthy <==> h.mlflowConnected && h.kubernetesConnected
    ensures h.mlflowConnected ==> h.webhookCount == Some(|reg.webhooks|)
    ensures h.kubernetesConnected ==> h.managedServicesCount == Some(|cluster.Listing(ServicesSelector)|)
  {
    h := DetailedHealth(Healthy, false, false, None, None);
    var webhooks := reg.ListWebhooks();
    if webhooks.Ok? {
      h := h.(mlflowConnected := true, webhookCount := Some(|webhooks.value|));
    } else {
      h := h.(status := Unhealthy);
    }
    var services := cluster.List(ServicesSelector);
    if services.Ok? {
      h := h.(kubernetesConnected := true, managedServicesCount := Some(|services.value|));
    } else {
      h := h.(status := Unhealthy);
    }
    if !(h.mlflowConnected && h.kubernetesConnected) {
      h := h.(status := Unhealthy);
    }
  }

  // ---------------------------------------------------------------------------
  // Start-up

  const WebhookEvents: seq<string> := ["model_version_tag.set", "model_version_tag.deleted"]
  const WebhookDescription: string := "Automatically deploy MLflow models to KServe based on tags"

  /** The settings `lifespan` reads (several of them absent from the settings class). */
  datatype StartupSettings = StartupSettings(disableWebhooks: bool, enablePollingFallback: bool,
                                             webhookName: string, webhookUrl: string, webhookSecret: string,
                                             pollingInterval: int)

  /** When the as-written registration succeeds: the listing works, the delete of
      the first webhook at the url (if any) works, and, unless a second one is left
      to reuse, the create works. */
  predicate AsWrittenRegisters(failing: set<Op>, webhooks: seq<Webhook>, url: string) {
    && ListWebhooksOp !in failing
    && (FirstWithUrl(webhooks, url).Some? ==> DeleteWebhookOp !in failing)
    && (FirstWithUrl(WithoutFirstUrl(webhooks, url), url).None? ==> CreateWebhookOp !in failing)
  }

  /** The registration steps as `lifespan` writes them: delete the webhook found
      at the listener's url, then ensure one is registered, without a test
      delivery. Either step raising leaves the listener unregistered. When a
      second webhook had the url, it is reused as it is, secret included. */
  method RegisterWebhookAsWritten(reg: MlflowClient, settings: StartupSettings) returns (registered: bool)
    modifies reg`webhooks, reg`nextWebhookId
    ensures registered <==> AsWrittenRegisters(reg.failing, old(reg.webhooks), settings.webhookUrl)
    ensures registered ==> FirstWithUrl(reg.webhooks, settings.webhookUrl).Some?
    ensures registered && FirstWithUrl(WithoutFirstUrl(old(reg.webhooks), settings.webhookUrl), settings.webhookUrl).Some? ==>
      reg.webhooks == WithoutFirstUrl(old(reg.webhooks), settings.webhookUrl)
  {
    var deleted := reg.DeleteWebhookByUrl(settings.webhookUrl);
    if deleted.Err? {
      return false;
    }
    assert reg.webhooks == WithoutFirstUrl(old(reg.webhooks), settings.webhookUrl);
    var ensured := reg.EnsureWebhookRegistered(settings.webhookName, settings.webhookUrl, WebhookEvents,
                                               settings.webhookSecret, Some(WebhookDescription), false);
    if ensured.Err? {
      return false;
    }
    if ensured.value.0 {
      assert reg.webhooks[|reg.webhooks| - 1].url == settings.webhookUrl;
    }
    return true;
  }

  /** Two registrations left at the listener's url with an old secret: after the
      as-written start-up with a new secret, the webhook MLflow signs with still
      holds the old one, so every delivery fails the signature check. */
  method StaleSecretReused() returns (registered: bool, used: Option<Webhook>)
    ensures registered && used.Some? && used.value.secret == "old-secret"
  {
    var url := "http://listener/webhook";
    var reg := new MlflowClient([], [], map[], {}, true);
    var _ := reg.CreateWebhook("kserve-deployer", url, WebhookEvents, "old-secret", None);
    var _ := reg.CreateWebhook("kserve-deployer", url, WebhookEvents, "old-secret", None);
    var settings := StartupSettings(false, true, "kserve-deployer", url, "new-secret", 60);
    var ws := reg.webhooks;
    assert |ws| == 2 && ws[0].id == 0 && ws[1].id == 1 && ws[0].url == url && ws[1].url == url;
    assert FirstWithUrl(ws, url) == Some(ws[0]);
    assert WithoutId(ws[1..][1..], 0) == [];
    assert WithoutId(ws, 0) == [ws[1]];
    registered := RegisterWebhookAsWritten(reg, settings);
    used := FirstWithUrl(reg.webhooks, url);
  }

  /** The registration start-up needs: delete every webhook at the listener's
      url, then register one with the current secret. Once registered, every
      webhook at the url carries the configured secret. */
  method RegisterWebhook(reg: MlflowClient, settings: StartupSettings) returns (registered: bool)
    modifies reg`webhooks, reg`nextWebhookId
    ensures registered <==>
      && ListWebhooksOp !in reg.failing
      && (FirstWithUrl(old(reg.webhooks), settings.webhookUrl).Some? ==> DeleteWebhookOp !in reg.failing)
      && CreateWebhookOp !in reg.failing
    ensures registered ==> FirstWithUrl(reg.webhooks, settings.webhookUrl).Some?
    ensures registered ==>
      forall w :: w in reg.webhooks && w.url == settings.webhookUrl ==> w.secret == settings.webhookSecret
  {
    var deleted := reg.DeleteWebhooksByUrl(settings.webhookUrl);
    if deleted.Err? {
      return false;
    }
    ghost var cleared := reg.webhooks;
    var ensured := reg.EnsureWebhookRegistered(settings.webhookName, settings.webhookUrl, WebhookEvents,
                                               settings.webhookSecret, Some(WebhookDescription), false);
    if ensured.Err? {
      return false;
    }
    assert reg.webhooks == cleared + [ensured.value.1];
    assert reg.webhooks[|reg.webhooks| - 1].url == settings.webhookUrl;
    return true;
  }

  /** `lifespan`'s start-up, with the registration as written: polling starts
      exactly when no webhook got registered and the fallback is enabled; with
      webhooks disabled the registry is not touched. */
  method Startup(reg: MlflowClient, cluster: KubernetesClient, template: Template, artifactsBase: Option<string>,
                 settings: StartupSettings) returns (registered: bool, polling: Option<PollingService>)
    modifies reg`webhooks, reg`nextWebhookId
    ensures settings.disableWebhooks ==> !registered && unchanged(reg)
    ensures !settings.disableWebhooks ==>
      && (registered <==> AsWrittenRegisters(reg.failing, old(reg.webhooks), settings.webhookUrl))
      && (registered ==> FirstWithUrl(reg.webhooks, settings.webhookUrl).Some?)
      && (registered && FirstWithUrl(WithoutFirstUrl(old(reg.webhooks), settings.webhookUrl), settings.webhookUrl).Some? ==>
            reg.webhooks == WithoutFirstUrl(old(reg.webhooks), settings.webhookUrl))
    ensures polling.Some? <==> !registered && settings.enablePollingFallback
    ensures polling.Some? ==> fresh(polling.value) && polling.value.running
                              && polling.value.registry == reg && polling.value.cluster == cluster
                              && polling.value.interval == settings.pollingInterval
  {
    registered := false;
    if !settings.disableWebhooks {
      registered := RegisterWebhookAsWritten(reg, settings);
    }
    polling := None;
    if !registered && settings.enablePollingFallback {
      var service := new PollingService(reg, cluster, settings.pollingInterval, template, artifactsBase);
      service.Start();
      polling := Some(service);
    }
  }
}
