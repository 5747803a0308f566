/** The MLflow registry client (webhook-listener/src/mlflow_client.py, class
    `MLflowClient`).

    The tracking server is the state of the client object: registered model names in
    search order, model versions, runs and webhooks. `failing` names the SDK calls that
    raise (an outage, an unknown id); `listenerReachable` is whether a webhook test
    delivery reaches the listener. */
module Mlflow {
  import opened Wrappers
  import opened ArtifactUris

  type Tags = map<string, string>

  /** `version.tags` may be `None`; `version.run_id` may be `None`. */
  datatype ModelVersion = ModelVersion(name: string, version: string, runId: Option<string>,
                                       source: string, tags: Option<Tags>)

  datatype Run = Run(runId: string, experimentId: string, artifactUri: string)

  datatype Webhook = Webhook(id: nat, name: string, url: string, events: seq<string>,
                             secret: string, description: Option<string>)

  /** One entry of `get_models_with_deploy_tag`'s result. */
  datatype Candidate = Candidate(name: string, version: string, runId: Option<string>,
                                 source: string, tags: Tags)

  datatype Op =
    | GetModelVersionOp | GetRunOp | SearchModelsOp | SearchVersionsOp
    | ListWebhooksOp | CreateWebhookOp | TestWebhookOp | DeleteWebhookOp

  datatype RegistryError =
    | Unavailable(op: Op)
    | NoSuchVersion(name: string, version: string)
    | NoSuchRun
    | NoSourceUri            // the ValueError of `get_storage_uri`

  const DeployTag: string := "deploy"

  /** `(version.tags or {}).get("deploy") == "true"`. */
  predicate MarkedForDeploy(v: ModelVersion) {
    var tags := v.tags.GetOr(map[]);
    DeployTag in tags && tags[DeployTag] == "true"
  }

  function CandidateOf(v: ModelVersion): Candidate {
    Candidate(v.name, v.version, v.runId, v.source, v.tags.GetOr(map[]))
  }

  /** What `search_model_versions(f"name='{name}'")` returns, in order. */
  function VersionsOf(versions: seq<ModelVersion>, name: string): (r: seq<ModelVersion>)
    ensures forall v :: v in r <==> v in versions && v.name == name
  {
    if versions == [] then []
    else (if versions[0].name == name then [versions[0]] else []) + VersionsOf(versions[1..], name)
  }

  /** The marked versions among `vs`, as candidates, in order. */
  function MarkedIn(vs: seq<ModelVersion>): (r: seq<Candidate>)
    ensures |r| <= |vs|
  {
    if vs == [] then []
    else (if MarkedForDeploy(vs[0]) then [CandidateOf(vs[0])] else []) + MarkedIn(vs[1..])
  }

  lemma {:induction false} MarkedInIff(vs: seq<ModelVersion>, c: Candidate)
    ensures c in MarkedIn(vs) <==> exists v :: v in vs && MarkedForDeploy(v) && c == CandidateOf(v)
  {
    if vs != [] {
      MarkedInIff(vs[1..], c);
      assert forall v :: v in vs <==> v == vs[0] || v in vs[1..];
    }
  }

  /** The nested scan: models in search order, each model's versions in order. */
  function DeployTagged(models: seq<string>, versions: seq<ModelVersion>): seq<Candidate>
    decreases |models|
  {
    if models == [] then []
    else DeployTagged(models[..|models| - 1], versions) + MarkedIn(VersionsOf(versions, models[|models| - 1]))
  }

  /** The first webhook whose url is `url`. */
  function FirstWithUrl(ws: seq<Webhook>, url: string): (r: Option<Webhook>)
    ensures r.None? <==> forall w :: w in ws ==> w.url != url
    ensures r.Some? ==> r.value in ws && r.value.url == url
  {
    if ws == [] then None
    else if ws[0].url == url then Some(ws[0])
    else FirstWithUrl(ws[1..], url)
  }

  /** The webhook found is the one at the least index holding that url. */
  lemma {:induction false} FirstWithUrlAt(ws: seq<Webhook>, url: string, i: nat)
    requires i < |ws| && ws[i].url == url
    requires forall j :: 0 <= j < i ==> ws[j].url != url
    ensures FirstWithUrl(ws, url) == Some(ws[i])
  {
    if i > 0 {
      FirstWithUrlAt(ws[1..], url, i - 1);
    }
  }

  class MlflowClient {
    var models: seq<string>
    var versions: seq<ModelVersion>
    var runs: map<string, Run>
    var webhooks: seq<Webhook>
    var nextWebhookId: nat
    var failing: set<Op>
    var listenerReachable: bool

    constructor (models: seq<string>, versions: seq<ModelVersion>, runs: map<string, Run>,
                 failing: set<Op>, listenerReachable: bool)
      ensures this.models == models && this.versions == versions && this.runs == runs
      ensures this.failing == failing && this.listenerReachable == listenerReachable
      ensures webhooks == [] && nextWebhookId == 0
    {
      this.models := models;
      this.versions := versions;
      this.runs := runs;
      this.failing := failing;
      this.listenerReachable := listenerReachable;
      webhooks := [];
      nextWebhookId := 0;
    }

    /** `get_model_version`. */
    method GetModelVersion(name: string, version: string) returns (r: Result<ModelVersion, RegistryError>)
      ensures GetModelVersionOp in failing ==> r == Err(Unavailable(GetModelVersionOp))
      ensures GetModelVersionOp !in failing ==>
        r == match FindVersion(versions, name, version) case Some(v) => Ok(v) case None => Err(NoSuchVersion(name, version))
    {
      if GetModelVersionOp in failing {
        return Err(Unavailable(GetModelVersionOp));
      }
      var found := FindVersion(versions, name, version);
      if found.None? {
        return Err(NoSuchVersion(name, version));
      }
      return Ok(found.value);
    }

    /** `get_run`; a missing run id is not found either. */
    method GetRun(runId: Option<string>) returns (r: Result<Run, RegistryError>)
      ensures r.Ok? <==> GetRunOp !in failing && runId.Some? && runId.value in runs
      ensures r.Ok? ==> r.value == runs[runId.value]
    {
      if GetRunOp in failing {
        return Err(Unavailable(GetRunOp));
      }
      if runId.None? || runId.value !in runs {
        return Err(NoSuchRun);
      }
      return Ok(runs[runId.value]);
    }

    /** `_resolve_storage_uri`: only a double-slash source needs the run. */
    method ResolveStorageUri(source: string, runId: Option<string>) returns (r: Result<string, RegistryError>)
      ensures !NeedsRunLookup(source) ==> r == Ok(source)
      ensures NeedsRunLookup(source) ==>
        if GetRunOp !in failing && runId.Some? && runId.value in runs
        then r == Ok(ResolveAgainstRun(source, runs[runId.value].artifactUri))
        else r.Err?
    {
      if !NeedsRunLookup(source) {
        return Ok(source);
      }
      var run := GetRun(runId);
      if run.Err? {
        return Err(run.error);
      }
      return Ok(ResolveAgainstRun(source, run.value.artifactUri));
    }

    /** `get_storage_uri`: an empty source is refused with ValueError. */
    method GetStorageUri(name: string, version: string) returns (r: Result<string, RegistryError>)
      ensures GetModelVersionOp in failing || FindVersion(versions, name, version).None? ==> r.Err?
      ensures GetModelVersionOp !in failing && FindVersion(versions, name, version).Some? ==>
        var mv := FindVersion(versions, name, version).value;
        && (mv.source == "" ==> r == Err(NoSourceUri))
        && (mv.source != "" && !NeedsRunLookup(mv.source) ==> r == Ok(mv.source))
        && (mv.source != "" && NeedsRunLookup(mv.source) ==>
              if GetRunOp !in failing && mv.runId.Some? && mv.runId.value in runs
              then r == Ok(ResolveAgainstRun(mv.source, runs[mv.runId.value].artifactUri))
              else r.Err?)
      ensures r.Ok? ==> r.value != ""
    {
      var mv := GetModelVersion(name, version);
      if mv.Err? {
        return Err(mv.error);
      }
      if mv.value.source == "" {
        return Err(NoSourceUri);
      }
      r := ResolveStorageUri(mv.value.source, mv.value.runId);
      if r.Ok? && !NeedsRunLookup(mv.value.source) {
        assert r.value == mv.value.source;
      } else if r.Ok? {
        ResolvedNotEmpty(mv.value.source, runs[mv.value.runId.value].artifactUri);
      }
    }

    /** `list_webhooks`. */
    method ListWebhooks() returns (r: Result<seq<Webhook>, RegistryError>)
      ensures r == if ListWebhooksOp in failing then Err(Unavailable(ListWebhooksOp)) else Ok(webhooks)
    {
      if ListWebhooksOp in failing {
        return Err(Unavailable(ListWebhooksOp));
      }
      return Ok(webhooks);
    }

    /** `get_webhook_by_url`: a linear search that stops at the first match. */
    method GetWebhookByUrl(url: string) returns (r: Result<Option<Webhook>, RegistryError>)
      ensures ListWebhooksOp in failing ==> r == Err(Unavailable(ListWebhooksOp))
      ensures ListWebhooksOp !in failing ==> r == Ok(FirstWithUrl(webhooks, url))
    {
      var listed := ListWebhooks();
      if listed.Err? {
        return Err(listed.error);
      }
      var ws := listed.value;
      var i := 0;
      while i < |ws|
        invariant 0 <= i <= |ws|
        invariant FirstWithUrl(ws, url) == FirstWithUrl(ws[i..], url)
      {
        if ws[i].url == url {
          return Ok(Some(ws[i]));
        }
        assert ws[i..][1..] == ws[i + 1..];
        i := i + 1;
      }
      return Ok(None);
    }

    /** `create_webhook`. */
    method CreateWebhook(name: string, url: string, events: seq<string>, secret: string,
                         description: Option<string>) returns (r: Result<Webhook, RegistryError>)
      modifies this`webhooks, this`nextWebhookId
      ensures CreateWebhookOp in failing ==>
        r == Err(Unavailable(CreateWebhookOp)) && webhooks == old(webhooks) && nextWebhookId == old(nextWebhookId)
      ensures CreateWebhookOp !in failing ==>
        && r == Ok(Webhook(old(nextWebhookId), name, url, events, secret, description))
        && webhooks == old(webhooks) + [r.value] && nextWebhookId == old(nextWebhookId) + 1
    {
      if CreateWebhookOp in failing {
        return Err(Unavailable(CreateWebhookOp));
      }
      var w := Webhook(nextWebhookId, name, url, events, secret, description);
      webhooks := webhooks + [w];
      nextWebhookId := nextWebhookId + 1;
      return Ok(w);
    }

    /** `test_webhook`: a test delivery; `success` is whether it reached the listener. */
    method TestWebhook(id: nat) returns (r: Result<bool, RegistryError>)
      ensures r == if TestWebhookOp in failing then Err(Unavailable(TestWebhookOp)) else Ok(listenerReachable)
    {
      if TestWebhookOp in failing {
        return Err(Unavailable(TestWebhookOp));
      }
      return Ok(listenerReachable);
    }

    /** `delete_webhook`. */
    method DeleteWebhook(id: nat) returns (r: Result<(), RegistryError>)
      modifies this`webhooks
      ensures DeleteWebhookOp in failing ==> r.Err? && webhooks == old(webhooks)
      ensures DeleteWebhookOp !in failing ==> r.Ok? && webhooks == WithoutId(old(webhooks), id)
    {
      if DeleteWebhookOp in failing {
        return Err(Unavailable(DeleteWebhookOp));
      }
      webhooks := WithoutId(webhooks, id);
      return Ok(());
    }

    /** `delete_webhook_by_url`: true iff a webhook with that url was found and
        deleted; nothing is deleted otherwise. */
    method DeleteWebhookByUrl(url: string) returns (r: Result<bool, RegistryError>)
      modifies this`webhooks
      ensures ListWebhooksOp in failing ==> r.Err? && webhooks == old(webhooks)
      ensures ListWebhooksOp !in failing && FirstWithUrl(old(webhooks), url).None? ==>
        r == Ok(false) && webhooks == old(webhooks)
      ensures ListWebhooksOp !in failing && FirstWithUrl(old(webhooks), url).Some? ==>
        if DeleteWebhookOp in failing then r.Err? && webhooks == old(webhooks)
        else r == Ok(true) && webhooks == WithoutId(old(webhooks), FirstWithUrl(old(webhooks), url).value.id)
    {
      var found := GetWebhookByUrl(url);
      if found.Err? {
        return Err(found.error);
      }
      if found.value.Some? {
        var d := DeleteWebhook(found.value.value.id);
        if d.Err? {
          return Err(d.error);
        }
        return Ok(true);
      }
      return Ok(false);
    }

    /** Deletes every webhook with the url, one `delete_webhook_by_url` at a time
        until none is found, and answers how many it deleted. This is the
        deletion start-up needs in order to use the current secret (see
        `DeleteWebhookByUrl`, which deletes the first only). */
    method DeleteWebhooksByUrl(url: string) returns (r: Result<nat, RegistryError>)
      modifies this`webhooks
      ensures r.Err? <==>
        ListWebhooksOp in failing || (FirstWithUrl(old(webhooks), url).Some? && DeleteWebhookOp in failing)
      ensures r.Err? ==> webhooks == old(webhooks)
      ensures r.Ok? ==> FirstWithUrl(webhooks, url).None? && Kept(old(webhooks), webhooks, url)
      ensures r.Ok? && r.value == 0 ==> webhooks == old(webhooks)
    {
      var count := 0;
      while true
        invariant Kept(old(webhooks), webhooks, url)
        invariant count == 0 ==> webhooks == old(webhooks)
        invariant count > 0 ==>
          ListWebhooksOp !in failing && DeleteWebhookOp !in failing && FirstWithUrl(old(webhooks), url).Some?
        decreases |webhooks|
      {
        ghost var before := webhooks;
        var deleted := DeleteWebhookByUrl(url);
        if deleted.Err? {
          return Err(deleted.error);
        }
        if !deleted.value {
          return Ok(count);
        }
        var gone := FirstWithUrl(before, url).value;
        WithoutIdShrinks(before, gone);
        KeptStep(old(webhooks), before, url, gone);
        count := count + 1;
      }
    }

    /** `ensure_webhook_registered`: an existing registration for the url is reused
        and nothing is created; otherwise one is created, and a failed or raising
        test delivery after it does not change the answer. */
    method EnsureWebhookRegistered(name: string, url: string, events: seq<string>, secret: string,
                                   description: Option<string>, testOnCreate: bool)
      returns (r: Result<(bool, Webhook), RegistryError>)
      modifies this`webhooks, this`nextWebhookId
      ensures ListWebhooksOp in failing ==> r.Err? && webhooks == old(webhooks)
      ensures ListWebhooksOp !in failing && FirstWithUrl(old(webhooks), url).Some? ==>
        r == Ok((false, FirstWithUrl(old(webhooks), url).value)) && webhooks == old(webhooks)
      ensures ListWebhooksOp !in failing && FirstWithUrl(old(webhooks), url).None? && CreateWebhookOp in failing ==>
        r.Err? && webhooks == old(webhooks)
      ensures ListWebhooksOp !in failing && FirstWithUrl(old(webhooks), url).None? && CreateWebhookOp !in failing ==>
        && r == Ok((true, Webhook(old(nextWebhookId), name, url, events, secret, description)))
        && webhooks == old(webhooks) + [r.value.1]
    {
      var existing := GetWebhookByUrl(url);
      if existing.Err? {
        return Err(existing.error);
      }
      if existing.value.Some? {
        return Ok((false, existing.value.value));
      }
      var created := CreateWebhook(name, url, events, secret, description);
      if created.Err? {
        return Err(created.error);
      }
      if testOnCreate {
        var _ := TestWebhook(created.value.id);
      }
      return Ok((true, created.value));
    }

    /** `get_models_with_deploy_tag`: every version marked `deploy=true`, model by
        model; any error makes the whole answer `[]`. */
    method GetModelsWithDeployTag() returns (r: seq<Candidate>)
      ensures r == if SearchModelsOp in failing || SearchVersionsOp in failing then [] else DeployTagged(models, versions)
    {
      if SearchModelsOp in failing {
        return [];
      }
      var ms := models;
      if ms != [] && SearchVersionsOp in failing {
        return [];
      }
      var found: seq<Candidate> := [];
      var i := 0;
      while i < |ms|
        invariant 0 <= i <= |ms|
        invariant found == DeployTagged(ms[..i], versions)
      {
        var vs := VersionsOf(versions, ms[i]);
        var marked := MarkedVersions(vs);
        DeployTaggedSnoc(ms, i, versions);
        found := found + marked;
        i := i + 1;
      }
      assert ms[..i] == ms;
      return found;
    }
  }

  /** The inner loop of `get_models_with_deploy_tag`, over one model's versions. */
  method MarkedVersions(vs: seq<ModelVersion>) returns (found: seq<Candidate>)
    ensures found == MarkedIn(vs)
  {
    found := [];
    var j := 0;
    while j < |vs|
      invariant 0 <= j <= |vs|
      invariant found == MarkedIn(vs[..j])
    {
      if MarkedForDeploy(vs[j]) {
        found := found + [CandidateOf(vs[j])];
      }
      MarkedInSnoc(vs, j);
      j := j + 1;
    }
    assert vs[..j] == vs;
  }

  /** The version `get_model_version(name, version)` finds. */
  function FindVersion(vs: seq<ModelVersion>, name: string, version: string): (r: Option<ModelVersion>)
    ensures r.Some? ==> r.value in vs && r.value.name == name && r.value.version == version
    ensures r.None? ==> forall v :: v in vs ==> !(v.name == name && v.version == version)
  {
    if vs == [] then None
    else if vs[0].name == name && vs[0].version == version then Some(vs[0])
    else FindVersion(vs[1..], name, version)
  }

  function WithoutId(ws: seq<Webhook>, id: nat): (r: seq<Webhook>)
    ensures forall w :: w in r <==> w in ws && w.id != id
  {
    if ws == [] then [] else (if ws[0].id == id then [] else [ws[0]]) + WithoutId(ws[1..], id)
  }

  lemma DeployTaggedSnoc(models: seq<string>, i: nat, versions: seq<ModelVersion>)
    requires i < |models|
    ensures DeployTagged(models[..i + 1], versions)
         == DeployTagged(models[..i], versions) + MarkedIn(VersionsOf(versions, models[i]))
  {
    assert models[..i + 1][..i] == models[..i];
  }

  /** Deleting by url keeps no webhook that was not there, and every webhook
      whose url differs and whose id no webhook with that url shares. */
  ghost predicate Kept(before: seq<Webhook>, after: seq<Webhook>, url: string) {
    && (forall w :: w in after ==> w in before)
    && (forall w :: w in before && w.url != url && !SharesIdWithUrl(before, w.id, url) ==> w in after)
  }

  ghost predicate SharesIdWithUrl(ws: seq<Webhook>, id: nat, url: string) {
    exists v :: v in ws && v.url == url && v.id == id
  }

  lemma {:induction false} WithoutIdShrinks(ws: seq<Webhook>, gone: Webhook)
    requires gone in ws
    ensures |WithoutId(ws, gone.id)| < |ws|
  {
    if ws[0] != gone {
      WithoutIdShrinks(ws[1..], gone);
    } else {
      WithoutIdAtMost(ws[1..], gone.id);
    }
  }

  lemma {:induction false} WithoutIdAtMost(ws: seq<Webhook>, id: nat)
    ensures |WithoutId(ws, id)| <= |ws|
  {
    if ws != [] {
      WithoutIdAtMost(ws[1..], id);
    }
  }

  /** One more deletion, of a webhook with the url, keeps `Kept` true. */
  lemma KeptStep(start: seq<Webhook>, before: seq<Webhook>, url: string, gone: Webhook)
    requires Kept(start, before, url) && gone in before && gone.url == url
    ensures Kept(start, WithoutId(before, gone.id), url)
  {
    forall w | w in start && w.url != url && !SharesIdWithUrl(start, w.id, url)
      ensures w in WithoutId(before, gone.id)
    {
      assert w.id != gone.id;
    }
  }

  /** The webhooks left after `delete_webhook_by_url`: the first one with that url,
      and every other webhook sharing its id, are gone. */
  function WithoutFirstUrl(ws: seq<Webhook>, url: string): seq<Webhook> {
    match FirstWithUrl(ws, url)
    case None => ws
    case Some(w) => WithoutId(ws, w.id)
  }

  /** Extending the scanned prefix by one version extends the result by at most it. */
  lemma MarkedInSnoc(vs: seq<ModelVersion>, j: nat)
    requires j < |vs|
    ensures MarkedIn(vs[..j + 1]) == MarkedIn(vs[..j]) + (if MarkedForDeploy(vs[j]) then [CandidateOf(vs[j])] else [])
  {
    MarkedInAppend(vs[..j], [vs[j]]);
    assert vs[..j + 1] == vs[..j] + [vs[j]];
  }

  lemma {:induction false} MarkedInAppend(a: seq<ModelVersion>, b: seq<ModelVersion>)
    ensures MarkedIn(a + b) == MarkedIn(a) + MarkedIn(b)
    decreases |a|
  {
    if a != [] {
      MarkedInAppend(a[1..], b);
      assert (a + b)[0] == a[0] && (a + b)[1..] == a[1..] + b;
    } else {
      assert a + b == b;
    }
  }

  /** A resolved storage URI is never empty. */
  lemma ResolvedNotEmpty(source: string, artifactUri: string)
    requires source != ""
    ensures ResolveAgainstRun(source, artifactUri) != ""
  {
  }

  /** A candidate is reported exactly when some version of a registered model carries
      `deploy=true`; the version is reported as stored. */
  lemma {:induction false} DeployTaggedIff(models: seq<string>, versions: seq<ModelVersion>, c: Candidate)
    ensures c in DeployTagged(models, versions)
        <==> exists v :: v in versions && v.name in models && MarkedForDeploy(v) && c == CandidateOf(v)
    decreases |models|
  {
    if models != [] {
      var init := models[..|models| - 1];
      var last := models[|models| - 1];
      DeployTaggedIff(init, versions, c);
      MarkedInIff(VersionsOf(versions, last), c);
      assert forall n :: n in models <==> n in init || n == last by {
        assert models == init + [last];
      }
      if c in MarkedIn(VersionsOf(versions, last)) {
        var v :| v in VersionsOf(versions, last) && MarkedForDeploy(v) && c == CandidateOf(v);
        assert v in versions && v.name in models;
      }
      if exists v :: v in versions && v.name in models && MarkedForDeploy(v) && c == CandidateOf(v) {
        var v :| v in versions && v.name in models && MarkedForDeploy(v) && c == CandidateOf(v);
        if v.name == last {
          assert v in VersionsOf(versions, last);
        } else {
          assert v.name in init;
        }
      }
    }
  }

  /** Versions with no tags at all (`tags is None`) are never reported. */
  lemma UntaggedNeverReported(v: ModelVersion)
    requires v.tags.None?
    ensures !MarkedForDeploy(v)
  {
  }
}
