# MLflow → KServe webhook listener and the Nebari MLflow stages, in Dafny

This project models the decision and reconciliation core of the
nebari-mlflow-plugin repository, and proves properties of that model.

- **The webhook listener** (`webhook-listener/src`) receives MLflow
  model-version tag events. A tag `deploy=true` renders a KServe
  `InferenceService` for the version and applies it to the cluster.
  `deploy=false`, or deleting the tag, removes the service. A polling
  reconciler can stand in for webhooks.
- **The two Nebari stages** (`src/nebari_mlflow_plugin`,
  `src/nebari_plugin_mlflow_aws`) map a Nebari configuration plus the outputs
  of earlier stages to the Terraform input variables of the MLflow deployment.

One Dafny module per source file:

| module | file | models |
|---|---|---|
| `K8sNames` | `names.dfy` | `templates.py`: `sanitize_k8s_name`, `generate_inference_service_name`, and the name choice in `render_inference_service` |
| `WebhookAuth` | `auth.dfy` | `webhook_handler.py`: `verify_mlflow_signature` and `verify_timestamp_freshness` |
| `WebhookHandler` | `handler.dfy` | `webhook_handler.py`: `process_webhook_event` and the tag-set and tag-deleted handlers, as methods over the registry and cluster objects |
| `ArtifactUris` | `artifacts.dfy` | `mlflow_client.py`: the string logic of `resolve_mlflow_artifacts_uri` and `_resolve_storage_uri` |
| `Mlflow` | `registry.dfy` | `mlflow_client.py`: class `MlflowClient` over versions, runs and a mutable webhook list |
| `Kubernetes` | `cluster.dfy` | `kubernetes_client.py`: class `KubernetesClient` over a name → object map, with the exception hierarchy as `ClusterError` |
| `Polling` | `polling.dfy` | `polling_service.py`: class `PollingService` |
| `Retry` | `retry.dfy` | `timeout_utils.py`: the attempt loop and the settings defaults |
| `App` | `app.dfy` | `main.py`: the request guard, `/services`, the health endpoints and the start-up registration |
| `MlflowPlugin` | `plugin_mlflow.dfy` | `src/nebari_mlflow_plugin/__init__.py`: `check` and `input_vars` for every provider |
| `MlflowAwsPlugin` | `plugin_aws.dfy` | `src/nebari_plugin_mlflow_aws/__init__.py`: `input_vars`, `get_keycloak_config` and the lookups that open `check` |
| `StageOutputs` | `stageoutputs.dfy` | the nested `stage_outputs` dictionary and its `KeyError`s |
| `StageJson` | `stagejson.dfy` | Python's `json.dumps` with default arguments, as the overrides variable uses it |
| `Decimal` | `decimal.dfy` | Python's `int(str)` and `str(int)`, as the freshness check uses them |
| `Strings`, `Wrappers` | `strings.dfy`, `wrappers.dfy` | `startswith`, `strip`, `replace` and slicing; `Option` and `Result` |

Stateful code is modelled in imperative form:

- The MLflow client, the Kubernetes client and the polling service are classes.
  Their methods carry `modifies` clauses.
- A collaborator that would raise is a field of the object. For the registry this
  is `failing: set<Op>`; for the cluster it is `failing: set<Verb>`.
- Every method states its result and its new state in terms of the old state.
- The cluster keeps a ghost log of the API calls made, `calls`. The polling
  service keeps ghost logs of its deploy and undeploy invocations. These logs
  let the model state "no cluster call" and "exactly once per pair".

Pure code is modelled as functions with lemmas: name sanitising, signatures,
URIs and the plugins.

Several things the code depends on are parameters of the model:

- HMAC-SHA256 and base64, as one uninterpreted function `mac(secret, content)`.
- The Jinja template, as a function from the template variables to an optional
  manifest.
- The JSON parse of the request body.
- The clock, as `now`.
- `settings.artifacts_uri`, which `config.py` does not define. It is an
  `Option<string>`, and `None` stands for the `AttributeError`.

Where the code and its documentation or tests disagree, the model follows the code:

- The service name is `<model>-v<version>`, without the `mlflow-` prefix that
  `webhook-listener/tests/test_templates.py:22-35` expects.
- Polling still deploys when a version has no `run_id` or `get_run` fails. It
  uses `unknown` for both fields, although `webhook-listener/tests/test_polling_service.py:262-282`
  expects no deploy.
- The webhook path passes the raw `source` URI (`webhook_handler.py:328`).
  Polling resolves it first (`polling_service.py:177`).
- Polling lists with `managed-by=mlflow-kserve-webhook-listener` and reads the
  labels `mlflow.model` and `mlflow.version`. `main.py` uses its own selector
  and label keys (`main.py:289,326,349-351`).
- The AWS stage's `check` looks up `node_group_iam_policy_name` without a
  trailing `["value"]`. Its `input_vars` needs `node_group_iam_role_name`, so
  the check does not guarantee `input_vars` succeeds
  (`MlflowAwsPlugin.CheckDoesNotCoverInputVars`).
- In the AWS stage, a missing ingress domain raises the `KeyError` of
  `get_keycloak_config`, which runs before the `try`. It never reaches the
  wrapped `Exception` at line 111.
- In the MLflow stage, the `except KeyError` around `escaped_project_name`
  cannot fire.
- In the MLflow stage, `if self.config.mlflow.aws` (and `.local`) is true for any
  block that is present. The model therefore reads "the block is present".

## Model

| member | source | states |
|---|---|---|
| K8sNames.Lower | webhook-listener/src/templates.py:40 | every character is lowered and the length is kept |
| K8sNames.ReplaceInvalid | webhook-listener/src/templates.py:43 | each character outside `[a-z0-9-]` becomes `-`, position by position |
| K8sNames.CollapseHyphens | webhook-listener/src/templates.py:49 | no `--` remains; the result is empty only if the input is; characters come from the input; a first or last character that is not `-` survives |
| K8sNames.CollapseKeepsOthers | webhook-listener/src/templates.py:49 | collapsing removes hyphens only: with every `-` deleted, input and output are the same string |
| K8sNames.CollapseIsDropRepeated | webhook-listener/src/templates.py:49 | the collapse equals dropping each `-` that another `-` follows, the reading of `re.sub(r"-+", "-", ...)` |
| K8sNames.RenderedName | webhook-listener/src/templates.py:110-114 | always a valid name; without an explicit name it is the generated name and never fails; an explicit name fails exactly when no character lowers to `[a-z0-9]`, and one that is valid once lowered is only lowered |
| K8sNames.StripShape | webhook-listener/src/templates.py:46 | a stripped name drawn from `[a-z0-9-]` neither starts nor ends with `-` |
| K8sNames.CollapseShape | webhook-listener/src/templates.py:46-49 | stripping then collapsing gives a well-shaped name (allowed characters, no edge or doubled `-`) |
| K8sNames.TruncateShape | webhook-listener/src/templates.py:52-53 | truncation keeps the shape, keeps a prefix, is at most 253 long and is at least 252 long when a cut happened |
| K8sNames.SanitizeK8sName | webhook-listener/src/templates.py:19-61 | a returned name is a valid Kubernetes name (allowed characters, no edge or doubled `-`, 1 to 253 characters) and a prefix of the collapsed form; the ValueError is raised exactly when no character of the input lowers to `[a-z0-9]` |
| K8sNames.GenerateInferenceServiceName | webhook-listener/src/templates.py:64-79 | always a valid name: the inserted `v` survives sanitising, so the ValueError is never raised; when `<model>-v<version>` is valid once lowered, the name is exactly that, lowered |
| K8sNames.SanitizeShape | webhook-listener/src/templates.py:40-53 | the pre-check name is well shaped and bounded, and it is the collapsed name, or a prefix of it of at least 252 characters |
| K8sNames.SanitizeTruncation | webhook-listener/src/templates.py:52-58 | a result is the collapsed name when that fits and a cut prefix otherwise; an error happens only when the collapsed name is empty |
| K8sNames.SanitizedEmptyIff | webhook-listener/src/templates.py:40-58 | the string checked before the raise is empty exactly when no character of the input lowers to `[a-z0-9]` |
| K8sNames.ReplacedHyphensIff | webhook-listener/src/templates.py:40-43 | after replacement the name is all `-` exactly when the input has no letter or digit |
| K8sNames.CollapseUnchanged | webhook-listener/src/templates.py:49 | a string with no `--` and no leading `-` is left alone |
| K8sNames.CollapseKeepsHead | webhook-listener/src/templates.py:49 | a first character other than `-` is kept and collapsing goes on after it |
| K8sNames.CollapseSingleHyphen | webhook-listener/src/templates.py:49 | a lone `-` before a non-hyphen is kept as it is |
| K8sNames.SanitizeKeepsValid | webhook-listener/src/templates.py:19-61 | an already-valid name comes back unchanged |
| K8sNames.LowerReplaceUnchanged | webhook-listener/src/templates.py:40-43 | lowering and replacing leave a `[a-z0-9-]` string alone |
| K8sNames.SanitizeIdempotent | webhook-listener/src/templates.py:19-61 | sanitising a sanitised name gives it back |
| K8sNames.SanitizeLowersValid | webhook-listener/src/templates.py:40 | a name that is valid once lowered is just lowered |
| K8sNames.SanitizeLowers | webhook-listener/src/templates.py:19-61 | an input that is valid once lowered sanitises to its lowered form |
| K8sNames.SanitizeMixedCaseExample | webhook-listener/tests/test_templates.py:6-11 | `MyModel-V1` becomes `mymodel-v1` |
| K8sNames.SanitizeRejectsExamples | webhook-listener/src/templates.py:56-58 | a name made only of `!` and `-`, such as `!!!` or `---`, is rejected |
| K8sNames.GenerateNameExample | webhook-listener/src/templates.py:76-79 | (`iris-classifier`, `3`) gives `iris-classifier-v3` |
| WebhookAuth.Sign | webhook-listener/src/webhook_handler.py:66-69 | the expected signature always carries the `v1,` prefix |
| WebhookAuth.VerifySignature | webhook-listener/src/webhook_handler.py:32-103 | an accepted signature carries the `v1,` prefix (the full condition is `VerifyIffSigned`) |
| WebhookAuth.TimestampFresh | webhook-listener/src/webhook_handler.py:106-162 | a fresh timestamp is present, parses as an integer, and lies between `now - max_age` and `now` (both directions in `FreshIff`) |
| WebhookAuth.VerifyIffSigned | webhook-listener/src/webhook_handler.py:32-103 | verification succeeds exactly when the signature equals `v1,` + mac(secret, `id.timestamp.payload`) |
| WebhookAuth.VerifyRequiresPrefix | webhook-listener/src/webhook_handler.py:59-64 | a signature without the `v1,` prefix is rejected |
| WebhookAuth.RejectedPrefixExamples | webhook-listener/src/webhook_handler.py:59-64 | the empty signature and a `v2,` signature over the right digest are rejected |
| WebhookAuth.WrongSecretRejected | webhook-listener/src/webhook_handler.py:66-78 | a signature made with one secret fails under a secret whose mac differs |
| WebhookAuth.TamperedPayloadRejected | webhook-listener/src/webhook_handler.py:66-78 | a signature for one payload fails for a payload whose mac differs |
| WebhookAuth.DotSplitUnique | webhook-listener/src/webhook_handler.py:69 | joining with `.` is unambiguous when the left part has no `.` |
| WebhookAuth.SignedContentInjective | webhook-listener/src/webhook_handler.py:69 | with dot-free ids and timestamps, the signed content determines the id, timestamp and payload |
| WebhookAuth.FreshIff | webhook-listener/src/webhook_handler.py:106-162 | fresh exactly when the header is present, parses as an integer, and lies in `[now - max_age, now]` |
| WebhookAuth.FreshnessByAge | webhook-listener/src/webhook_handler.py:124-128 | a timestamp of age `a` is fresh exactly when `0 <= a <= max_age` |
| WebhookAuth.UnparsableNeverFresh | webhook-listener/src/webhook_handler.py:157-162 | a missing, empty or non-numeric timestamp is never fresh |
| Decimal.NatToString | webhook-listener/src/webhook_handler.py:124 | `str` of a natural number gives a non-empty string of digits |
| Decimal.ParseInt | webhook-listener/src/webhook_handler.py:124 | `int(s)` succeeds only when `s` is not blank once whitespace is stripped |
| Decimal.ParseDigits | webhook-listener/src/webhook_handler.py:124 | a digit body parses exactly when its underscores are single and stand between digits |
| Decimal.DigitsGrouped | webhook-listener/src/webhook_handler.py:124 | a plain digit string is a well-formed body |
| Decimal.GroupedDigits | webhook-listener/src/webhook_handler.py:124 | a well-formed body holds only digits and `_`, and only digits once `_` is removed |
| Decimal.NatToStringValue | webhook-listener/src/webhook_handler.py:124 | the digits printed for `n` have value `n` |
| Decimal.ParseIntRoundTrip | webhook-listener/src/webhook_handler.py:124 | `int(str(i)) == i` for every integer |
| Decimal.ParseUnsigned | webhook-listener/src/webhook_handler.py:124 | a digit string parses to its decimal value |
| Decimal.ParseSigned | webhook-listener/src/webhook_handler.py:124 | `-` and a digit string parse to the negated value |
| Decimal.ParsePlainDigits | webhook-listener/src/webhook_handler.py:124 | the literal parser reads plain and negated digit strings |
| Decimal.DigitsValue | webhook-listener/src/webhook_handler.py:124 | a plain digit body has its decimal value |
| Decimal.DigitsUnstripped | webhook-listener/src/webhook_handler.py:124 | a numeral has no surrounding whitespace to strip |
| Decimal.ParseIntRejectsForeign | webhook-listener/src/webhook_handler.py:122-162 | a character that is not whitespace, a digit, a sign or `_` makes parsing fail |
| Decimal.ParseIntBlank | webhook-listener/src/webhook_handler.py:122-162 | an empty or all-whitespace string does not parse |
| WebhookHandler.ModelDetails | webhook-listener/src/webhook_handler.py:319-360 | details exist only when name and version are given, the version exists, both registry reads succeed, and the storage URI is the version's raw source |
| WebhookHandler.DeployPlan | webhook-listener/src/webhook_handler.py:362-380 | a plan exists exactly when the service name generates and the template renders; its name is the generated, valid name |
| WebhookHandler.DeployAnswer | webhook-listener/src/webhook_handler.py:389-449 | the outcome is "deployed" or the deploy error that carries the service name |
| WebhookHandler.Undeploy | webhook-listener/src/webhook_handler.py:468-522 | exactly one delete, of the generated name. On success "undeployed", flagged already-deleted when the name was absent, and the services are the old ones minus that name. On a cluster error, an error carrying the service name, and the services are unchanged. The invalid-name error changes nothing; it cannot occur, since the generated name is always valid |
| WebhookHandler.HandleTagSet | webhook-listener/src/webhook_handler.py:261-538 | a key other than `deploy`, or a value other than `true`/`false`, is ignored and the cluster is unchanged. `true` follows the deploy path: no cluster call until the details and a plan exist, then one create-or-update whose answer matches the new cluster state, with every other service kept. `false` has `Undeploy`'s full effect on services and requests |
| WebhookHandler.Deploy | webhook-listener/src/webhook_handler.py:309-466 | the deploy branch: missing details are a fetch failure and a failed plan a manifest failure, both with no cluster call; otherwise one create-or-update, reported as `DeployReported` and sending exactly `UpdateCalls` |
| WebhookHandler.DeployFetched | webhook-listener/src/webhook_handler.py:362-466 | once the details are fetched: no plan means no cluster call and a manifest failure; otherwise the create-or-update with its answer and requests as in `Deploy` |
| WebhookHandler.Apply | webhook-listener/src/webhook_handler.py:389-449 | the answer names the service and says "created" or "updated" as the old cluster state dictates; a wrong kind or failed request answers the deploy error and leaves the services unchanged; no other service is touched; the requests are exactly `UpdateCalls` |
| WebhookHandler.FetchDetails | webhook-listener/src/webhook_handler.py:319-360 | the registry reads give exactly `ModelDetails` |
| WebhookHandler.HandleTagDeleted | webhook-listener/src/webhook_handler.py:541-639 | key `deploy` has `Undeploy`'s full effect on services and requests and reports its outcome; any other key is ignored with the cluster unchanged |
| WebhookHandler.ProcessWebhookEvent | webhook-listener/src/webhook_handler.py:165-257 | the answer echoes entity, action and delivery id. Events other than the tag-set and tag-deleted pairs are "not handled" and leave the cluster unchanged. A tag event whose `data` is not an object is a processing error and leaves the cluster unchanged. Otherwise the status and the cluster change are exactly those of the tag-set or tag-deleted handler (`EventReported`) |
| ArtifactUris.LogicalPath | webhook-listener/src/mlflow_client.py:39 | removing the scheme never lengthens the URI |
| ArtifactUris.ResolveArtifactsUri | webhook-listener/src/mlflow_client.py:14-46 | a non-logical URI comes back unchanged; a logical one with no configured base fails |
| ArtifactUris.ResolveAgainstRun | webhook-listener/src/mlflow_client.py:207-224 | a logical run URI, or a path containing `/models/`, leaves the source unchanged |
| ArtifactUris.SchemesNested | webhook-listener/src/mlflow_client.py:33 | the `mlflow-artifacts:/` test also covers `mlflow-artifacts://` |
| ArtifactUris.LogicalPathSingle | webhook-listener/src/mlflow_client.py:39 | `mlflow-artifacts:/` + p gives back p |
| ArtifactUris.LogicalPathDouble | webhook-listener/src/mlflow_client.py:39 | `mlflow-artifacts://` + p gives back p |
| ArtifactUris.ResolveLogicalUri | webhook-listener/src/mlflow_client.py:37-43 | either scheme + p resolves to `base.rstrip("/") + "/" + p` |
| ArtifactUris.SingleSlashNotLookedUp | webhook-listener/src/mlflow_client.py:192-194 | a single-slash logical URI is not rewritten against the run |
| ArtifactUris.ResolveRunPath | webhook-listener/src/mlflow_client.py:226-231 | a run path is `artifact_uri.rstrip("/") + "/" + path.lstrip("/")` |
| ArtifactUris.ResolveModelPath | webhook-listener/src/mlflow_client.py:221-224 | a `/models/` path comes back unchanged |
| Mlflow.VersionsOf | webhook-listener/src/mlflow_client.py:452-455 | exactly the versions of the named model |
| Mlflow.MarkedInIff | webhook-listener/src/mlflow_client.py:457-470 | a candidate is reported exactly when some version carries `deploy == "true"` and yields that candidate |
| Mlflow.FirstWithUrl | webhook-listener/src/mlflow_client.py:251-270 | none exactly when no webhook has the URL; otherwise a webhook with that URL from the list |
| Mlflow.FirstWithUrlAt | webhook-listener/src/mlflow_client.py:262-267 | the search returns the earliest webhook with the URL |
| Mlflow.MlflowClient.constructor | webhook-listener/src/mlflow_client.py:52-61 | a client over the given registry contents, with no webhooks |
| Mlflow.MlflowClient.GetModelVersion | webhook-listener/src/mlflow_client.py:63-101 | a registry failure or an unknown version is an error; otherwise the version |
| Mlflow.MlflowClient.GetRun | webhook-listener/src/mlflow_client.py:103-137 | succeeds exactly when the registry is up and the run id names a run, and returns that run |
| Mlflow.MlflowClient.ResolveStorageUri | webhook-listener/src/mlflow_client.py:180-234 | a URI without the double-slash scheme is returned unchanged; otherwise the run lookup either fails or the URI is resolved against the run |
| Mlflow.MlflowClient.GetStorageUri | webhook-listener/src/mlflow_client.py:139-178 | a registry failure or unknown version is an error; an empty source is `NoSourceUri`; a direct source is returned as is; an `mlflow-artifacts://` source is resolved against its run's artifact URI when the run lookup succeeds and is an error otherwise; a result is never empty |
| Mlflow.MlflowClient.ListWebhooks | webhook-listener/src/mlflow_client.py:236-249 | the registered webhooks, or the registry error |
| Mlflow.MlflowClient.GetWebhookByUrl | webhook-listener/src/mlflow_client.py:251-270 | the first webhook with the URL, or the registry error |
| Mlflow.MlflowClient.CreateWebhook | webhook-listener/src/mlflow_client.py:272-309 | appends a webhook with a fresh id and the given fields, or changes nothing on failure |
| Mlflow.MlflowClient.TestWebhook | webhook-listener/src/mlflow_client.py:311-333 | reports whether the listener is reachable, or the registry error |
| Mlflow.MlflowClient.DeleteWebhook | webhook-listener/src/mlflow_client.py:335-348 | removes the webhook with that id, or changes nothing on failure |
| Mlflow.MlflowClient.DeleteWebhookByUrl | webhook-listener/src/mlflow_client.py:350-369 | true exactly when a webhook with the URL existed, and then only the first is removed; no delete without a match |
| Mlflow.MlflowClient.DeleteWebhooksByUrl | webhook-listener/src/mlflow_client.py:350-369 | corrected form: repeats the delete until no webhook has the URL, keeps every other webhook, and changes nothing on error |
| Mlflow.MlflowClient.EnsureWebhookRegistered | webhook-listener/src/mlflow_client.py:371-429 | an existing URL gives (false, existing) with no create; otherwise (true, created), whatever the test says |
| Mlflow.MlflowClient.GetModelsWithDeployTag | webhook-listener/src/mlflow_client.py:431-478 | the deploy-tagged candidates of all models, or `[]` on any search error |
| Mlflow.MarkedVersions | webhook-listener/src/mlflow_client.py:457-470 | the inner loop collects exactly the marked candidates, in order |
| Mlflow.FindVersion | webhook-listener/src/mlflow_client.py:63-101 | finds a version with that name and version, or there is none |
| Mlflow.WithoutId | webhook-listener/src/mlflow_client.py:335-348 | exactly the webhooks with another id remain |
| Mlflow.DeployTaggedSnoc | webhook-listener/src/mlflow_client.py:448-470 | one more model appends exactly its marked versions |
| Mlflow.WithoutIdShrinks | webhook-listener/src/mlflow_client.py:350-369 | deleting a listed webhook shortens the list, so the repeated delete terminates |
| Mlflow.WithoutIdAtMost | webhook-listener/src/mlflow_client.py:335-348 | deleting never lengthens the list |
| Mlflow.KeptStep | webhook-listener/src/mlflow_client.py:350-369 | deleting a webhook at the URL keeps every webhook at another URL |
| Mlflow.MarkedInSnoc | webhook-listener/src/mlflow_client.py:457-470 | one more version appends its candidate exactly when it is marked |
| Mlflow.MarkedInAppend | webhook-listener/src/mlflow_client.py:457-470 | filtering distributes over concatenation |
| Mlflow.ResolvedNotEmpty | webhook-listener/src/mlflow_client.py:166-171 | a non-empty source resolves to a non-empty URI |
| Mlflow.DeployTaggedIff | webhook-listener/src/mlflow_client.py:446-477 | a candidate is reported exactly when a version of a listed model is tagged `deploy=true` |
| Mlflow.UntaggedNeverReported | webhook-listener/src/mlflow_client.py:459-460 | a version with no tags is never marked |
| Kubernetes.KindCheck | webhook-listener/src/kubernetes_client.py:97-100 | accepted exactly when the manifest is a document of kind `InferenceService` |
| Kubernetes.Info | webhook-listener/src/kubernetes_client.py:115-120 | the summary carries the object's name, labels and uid and the client's namespace |
| Kubernetes.Project | webhook-listener/src/kubernetes_client.py:284-310 | one summary per listed item, in order |
| Kubernetes.Selected | webhook-listener/src/kubernetes_client.py:262-310 | only objects matching the selector, drawn from the cluster |
| Kubernetes.KubernetesClient.constructor | webhook-listener/src/kubernetes_client.py:31-70 | an empty cluster in the given namespace |
| Kubernetes.KubernetesClient.Get | webhook-listener/src/kubernetes_client.py:205-260 | the summary of a present object, none for an absent one, the API error otherwise |
| Kubernetes.KubernetesClient.Create | webhook-listener/src/kubernetes_client.py:72-141 | a wrong kind fails before any call; a present name is `AlreadyExists`; otherwise an object is added with a fresh uid |
| Kubernetes.KubernetesClient.Update | webhook-listener/src/kubernetes_client.py:324-404 | a wrong kind fails before any call; then a get; a present object is patched ("updated", same uid), an absent one created ("created"); a failed request changes nothing; every other object is kept; the requests are exactly `UpdateCalls` |
| Kubernetes.UpdateCalls | webhook-listener/src/kubernetes_client.py:324-404 | no request for a wrong kind; otherwise a get, then, unless the get fails, a patch of a present object or a create of a missing one |
| Kubernetes.KubernetesClient.Delete | webhook-listener/src/kubernetes_client.py:143-203 | the object is removed; an absent name also succeeds, flagged as already deleted |
| Kubernetes.KubernetesClient.List | webhook-listener/src/kubernetes_client.py:262-322 | the projected objects matching the selector, or the API error |
| Kubernetes.RemoveName | webhook-listener/src/kubernetes_client.py:143-203 | exactly the other names remain |
| Kubernetes.RemoveNameKeeps | webhook-listener/src/kubernetes_client.py:143-203 | removal keeps names distinct |
| Kubernetes.RemoveAbsentName | webhook-listener/src/kubernetes_client.py:181-192 | removing an absent name changes nothing |
| Kubernetes.SelectedComplete | webhook-listener/src/kubernetes_client.py:262-310 | every matching object is listed |
| Kubernetes.DeleteTwice | webhook-listener/src/kubernetes_client.py:181-192 | two deletes in a row both succeed; the second reports the object already deleted |
| Polling.FindCandidate | webhook-listener/src/polling_service.py:162-165 | finds the model data for the pair, and there is none exactly when the pair is not desired |
| Polling.Desired | webhook-listener/src/polling_service.py:97-100 | every candidate's (name, version) pair is desired |
| Polling.Current | webhook-listener/src/polling_service.py:108-116 | every listed service with both labels set contributes its pair |
| Polling.NamesOf | webhook-listener/src/polling_service.py:108-116 | the last listed service with a pair supplies that pair's name |
| Polling.UndeployTargets | webhook-listener/src/polling_service.py:134-138 | the targets are exactly the pairs to undeploy with a known, non-empty name, each with that name |
| Polling.DeletesCoverTargets | webhook-listener/src/polling_service.py:134-138 | the undeploy loop sends a delete for a name exactly when it is a target's name, and one delete per target |
| Polling.RunFields | webhook-listener/src/polling_service.py:173-194 | a missing run id or failed run read gives `unknown`/`unknown`; otherwise the run id is kept |
| Polling.PollPlan | webhook-listener/src/polling_service.py:160-207 | a plan exists exactly when the data is found, the URI resolves and the manifest renders; its service name is the generated, valid one |
| Polling.PollingService.constructor | webhook-listener/src/polling_service.py:18-38 | a stopped service tracking nothing |
| Polling.PollingService.Start | webhook-listener/src/polling_service.py:40-48 | the service is running afterwards |
| Polling.PollingService.Stop | webhook-listener/src/polling_service.py:50-62 | the service is stopped afterwards |
| Polling.PollingService.DeployModel | webhook-listener/src/polling_service.py:146-220 | logged once; without a plan the cluster is unchanged; with one, the generated name holds the manifest's labels and spec unless the kind is wrong or a request fails, every other service is kept, and the requests are exactly `UpdateCalls` |
| Polling.PollingService.Apply | webhook-listener/src/polling_service.py:209-210 | no plan leaves the cluster unchanged; a plan has the create-or-update's effect (`UpdateEffect`) and sends exactly `UpdateCalls` |
| Polling.PollingService.Plan | webhook-listener/src/polling_service.py:160-207 | computes exactly `PollPlan` |
| Polling.PollingService.UndeployModel | webhook-listener/src/polling_service.py:222-250 | logged once, one delete of the observed name; a failure is absorbed |
| Polling.PollingService.PollAndReconcile | webhook-listener/src/polling_service.py:82-144 | a failed list sends only the list and changes nothing. Otherwise the tracked set becomes desired. Each desired − current pair is deployed once, and each current − desired pair undeployed once under its observed name. The requests are the list, then create-or-update requests for planned names only, then exactly one delete per undeployed pair. The services are as `ReconciledServices` states: each planned name that one pair claims holds its manifest unless its request failed; the deleted names are gone when deletes work; every other service is as it was |
| Polling.PollingService.Reconcile | webhook-listener/src/polling_service.py:96-141 | after the list: the tracked set becomes desired, the deploy and undeploy loops run once per pair, and the requests and services are as in `PollAndReconcile` |
| Polling.PollingService.DeployAll | webhook-listener/src/polling_service.py:130-132 | one deploy per pair of the set; services that no plan names are unchanged; a name that one pair claims is left as one create-or-update of its manifest leaves it; only create-or-update requests for planned names are sent |
| Polling.PollingService.UndeployAll | webhook-listener/src/polling_service.py:134-138 | one undeploy per pair with a non-empty name; the requests are exactly one delete per such pair, in log order; when deletes work, the services lose exactly those names; otherwise they are unchanged |
| Polling.PollingService.PollOnce | webhook-listener/src/polling_service.py:64-80 | a cycle never stops the loop |
| Polling.CurrentSnoc | webhook-listener/src/polling_service.py:108-116 | one more service adds its pair and name exactly when both labels are set |
| Polling.NamesCoverCurrent | webhook-listener/src/polling_service.py:108-116 | the name map covers exactly the current pairs, each named by a listed service |
| Polling.OutageUndeploysEverything | webhook-listener/src/polling_service.py:94-138 | when the registry search fails, every managed service with a name is undeployed |
| Polling.EnumeratesSize | webhook-listener/src/polling_service.py:118-138 | a log enumerating a set once per element has the set's size |
| Polling.DesiredHasData | webhook-listener/src/polling_service.py:162-169 | every desired pair has model data |
| Retry.FirstCompleted | webhook-listener/src/timeout_utils.py:49-70 | the earliest completed attempt, or none when all failed |
| Retry.WithTimeoutAndRetry | webhook-listener/src/timeout_utils.py:13-97 | at most `max_retries + 1` attempts; the first success is returned at once; otherwise the last failure is re-raised; one sleep after each failed attempt but the last |
| Retry.Setting | webhook-listener/src/timeout_utils.py:129-130 | a configured value wins over the default |
| Retry.ConfiguredLimits | webhook-listener/src/timeout_utils.py:99-145 | timeout and retries come from the settings, or default to 30 and 2 |
| Retry.AlwaysFailingDefault | webhook-listener/src/timeout_utils.py:77-92 | with the defaults, a function that always fails is tried 3 times, sleeps twice and re-raises |
| Retry.SecondTimeLucky | webhook-listener/src/timeout_utils.py:69-90 | failing once and then succeeding returns the value after 2 attempts and 1 sleep |
| Retry.FailureKindIrrelevant | webhook-listener/src/timeout_utils.py:72-92 | timeouts and exceptions are retried alike |
| Retry.ListenerDefaults | webhook-listener/src/timeout_utils.py:99-130 | unset start-up settings give a timeout of 30 and 2 retries |
| App.Guard | webhook-listener/src/main.py:166-216 | missing headers give 400 first; then a malformed body 500; then a stale timestamp 401; then a bad signature 401; it passes exactly when all checks pass |
| App.HandleWebhook | webhook-listener/src/main.py:152-236 | a guard failure answers its code and touches no cluster; a non-object body 500; otherwise the router's answer, echoing the delivery id, with the cluster changed exactly as `EventReported` states for that event |
| App.FirstReady | webhook-listener/src/main.py:336-341 | the first condition of type `Ready` |
| App.ReadyStatus | webhook-listener/src/main.py:336-341 | "Ready" exactly when the first `Ready` condition has status `True`; "Unknown" exactly when there is none |
| App.FirstReadyAt | webhook-listener/src/main.py:336-341 | the search stops at the first `Ready` condition |
| App.LabelOr | webhook-listener/src/main.py:349-351 | a missing label reads `unknown` |
| App.ListServices | webhook-listener/src/main.py:311-370 | one view per listed service, in order, with total equal to their number; a list failure is 500 |
| App.HealthCheck | webhook-listener/src/main.py:240-246 | always healthy |
| App.DetailedHealthCheck | webhook-listener/src/main.py:250-307 | healthy exactly when both MLflow and Kubernetes answer, with their counts |
| App.RegisterWebhookAsWritten | webhook-listener/src/main.py:64-97 | start-up registration as written: succeeds exactly when the list, the delete of a first webhook at the URL and, when no second one is left, the create all succeed (`AsWrittenRegisters`); then a webhook is at the URL, and a second old one is reused as it is |
| App.StaleSecretReused | webhook-listener/src/mlflow_client.py:350-369 | with two old webhooks at the URL, start-up keeps one carrying the old secret |
| App.RegisterWebhook | webhook-listener/src/main.py:64-97 | corrected registration: after success every webhook at the URL carries the configured secret |
| App.Startup | webhook-listener/src/main.py:33-131 | disabled webhooks skip registration; otherwise registration runs as written: it succeeds exactly when `AsWrittenRegisters` holds, then leaves a webhook at the URL, and reuses a second old webhook unchanged; polling starts exactly when not registered and the fallback is enabled |
| StageOutputs.FirstMissing | src/nebari_mlflow_plugin/__init__.py:110-114 | none exactly when every lookup succeeds; otherwise a missing path from the list |
| StageOutputs.FirstMissingIsFirst | src/nebari_mlflow_plugin/__init__.py:110-114 | the `KeyError` raised is the one of the first missing lookup |
| StageJson.HexDigit | src/nebari_mlflow_plugin/__init__.py:131 | a hex digit is printable and is not `"` |
| StageJson.Hex4 | src/nebari_mlflow_plugin/__init__.py:131 | four printable hex digits, none of them `"` |
| StageJson.UEscape | src/nebari_mlflow_plugin/__init__.py:131 | a `\uXXXX` escape is six printable characters without `"` |
| StageJson.EscapeChar | src/nebari_mlflow_plugin/__init__.py:131 | every character is written in printable ASCII (`ensure_ascii`) |
| StageJson.EscapeChars | src/nebari_mlflow_plugin/__init__.py:131 | an escaped string is printable ASCII |
| StageJson.Quoted | src/nebari_mlflow_plugin/__init__.py:131 | a quoted string is printable ASCII |
| StageJson.Join | src/nebari_mlflow_plugin/__init__.py:131 | joining printable parts gives printable text |
| StageJson.Dumps | src/nebari_mlflow_plugin/__init__.py:131 | the JSON text is printable ASCII |
| StageJson.DecimalText | src/nebari_mlflow_plugin/__init__.py:131 | an integer's text is printable |
| StageJson.DecodeUnit | src/nebari_mlflow_plugin/__init__.py:131 | decoding one unit consumes at least one character of the input |
| StageJson.Combined | src/nebari_mlflow_plugin/__init__.py:131 | a surrogate pair names a character beyond the BMP |
| StageJson.HexRoundTrip | src/nebari_mlflow_plugin/__init__.py:131 | four hex digits read back as the number written |
| StageJson.DecodeShort | src/nebari_mlflow_plugin/__init__.py:131 | a two-character escape decodes to its character |
| StageJson.DecodeBasic | src/nebari_mlflow_plugin/__init__.py:131 | a `\uXXXX` escape decodes to its character |
| StageJson.DecodePair | src/nebari_mlflow_plugin/__init__.py:131 | a high and a low surrogate escape in a row decode to the character they combine to, taking twelve characters |
| StageJson.DecodeAstral | src/nebari_mlflow_plugin/__init__.py:131 | a surrogate-pair escape decodes to its character |
| StageJson.DecodeEscaped | src/nebari_mlflow_plugin/__init__.py:131 | every escaped character decodes back to itself |
| StageJson.UnescapeEscaped | src/nebari_mlflow_plugin/__init__.py:131 | escaping is reversible: a JSON reader gets the original string back |
| StageJson.EscapedQuotesAreEscaped | src/nebari_mlflow_plugin/__init__.py:131 | every `"` in an escaped string follows a backslash, so it cannot end the literal |
| StageJson.EscapeCharQuote | src/nebari_mlflow_plugin/__init__.py:131 | the only `"` a character's escape holds is the second character of `\"` |
| StageJson.EmptyObjectDumps | tests/unit/test_plugin.py:60 | the empty overrides dictionary dumps as `{}` |
| StageJson.PlainUnescaped | src/nebari_mlflow_plugin/__init__.py:131 | printable text without `"` or `\` is written as it is |
| StageJson.OneMemberDumps | src/nebari_mlflow_plugin/__init__.py:131 | a one-member dictionary is `{`, the quoted key, `": "`, the value's text and `}` |
| StageJson.FooBarDumps | tests/unit/test_plugin.py:97-110 | `{"foo": "bar"}` dumps with the default separators |
| StageJson.AccentDumps | src/nebari_mlflow_plugin/__init__.py:131 | `é` (U+00E9) is written as the escape `\u00e9` |
| StageJson.AstralDumps | src/nebari_mlflow_plugin/__init__.py:131 | U+1F600 is written as the surrogate-pair escape `\ud83d\ude00` |
| MlflowPlugin.Check | src/nebari_mlflow_plugin/__init__.py:51-107 | an unknown provider raises `NotImplementedError`; true exactly for local, or a cloud provider whose OIDC issuer output exists |
| MlflowPlugin.CommonPathsRequired | src/nebari_mlflow_plugin/__init__.py:112-114 | every provider reads the domain and both forward-auth names |
| MlflowPlugin.InputVars | src/nebari_mlflow_plugin/__init__.py:109-191 | fails exactly for an unknown provider (`NotImplementedError`) or a missing output (the `KeyError` of a required lookup); a result has the provider's own variables |
| MlflowPlugin.ReleaseNameEverywhere | src/nebari_mlflow_plugin/__init__.py:124-184 | the Helm release is `<project>-mlflow` for every provider |
| MlflowPlugin.OverridesEverywhere | src/nebari_mlflow_plugin/__init__.py:131-188 | overrides is one printable JSON text, of the configured dictionary, `{}` by default |
| MlflowPlugin.S3EncryptionDefault | src/nebari_mlflow_plugin/__init__.py:116-118 | encryption is on unless an aws block is present, which then decides |
| MlflowPlugin.StorageAccountShape | src/nebari_mlflow_plugin/__init__.py:150 | the account name is the first 15 characters of the project, `mlfsa`, then the postfix |
| MlflowPlugin.BucketNamed | src/nebari_mlflow_plugin/__init__.py:170 | the bucket is `<project>-mlflow-artifacts` |
| MlflowPlugin.MinioPasswordDefault | src/nebari_mlflow_plugin/__init__.py:178 | the MinIO password is the local block's, or `minio-secret-password` |
| MlflowPlugin.OutputsPassedOn | src/nebari_mlflow_plugin/__init__.py:111-127 | the domain, the forward-auth names and the OIDC issuer are passed on unchanged |
| MlflowPlugin.InputVarsPassesCheck | src/nebari_mlflow_plugin/__init__.py:51-191 | whenever `input_vars` succeeds, `check` returns true |
| MlflowPlugin.LocalWithoutOutputs | src/nebari_mlflow_plugin/__init__.py:101-174 | local passes `check` with no outputs, yet `input_vars` then stops at the domain |
| MlflowPlugin.MissingIssuer | src/nebari_mlflow_plugin/__init__.py:54-111 | a cloud provider without the OIDC issuer fails `check` and raises on that lookup in `input_vars` |
| MlflowPlugin.AwsExample | tests/unit/test_plugin.py:36-60 | the AWS example configuration gives the expected variables |
| MlflowPlugin.OverridesExample | tests/unit/test_plugin.py:97-110 | overrides `{foo: bar}` are passed as `['{"foo": "bar"}']` |
| MlflowAwsPlugin.KeycloakConfig | src/nebari_plugin_mlflow_aws/__init__.py:136-147 | succeeds exactly when all seven outputs exist, and appends `/auth/` to the Keycloak URL; otherwise the `KeyError` of a missing one |
| MlflowAwsPlugin.ChartNamespace | src/nebari_plugin_mlflow_aws/__init__.py:113-117 | the namespace is created exactly when a non-empty namespace other than Nebari's is given; otherwise Nebari's is used |
| MlflowAwsPlugin.InputVars | src/nebari_plugin_mlflow_aws/__init__.py:105-134 | succeeds exactly when the Keycloak outputs and the IAM role exist; the role name is passed on |
| MlflowAwsPlugin.FixedReferences | src/nebari_plugin_mlflow_aws/__init__.py:121-129 | the client is `mlflow`, and the signing key is the forward-auth Deployment in Nebari's namespace |
| MlflowAwsPlugin.UrlsUnderDomain | src/nebari_plugin_mlflow_aws/__init__.py:122-133 | the base URL is `https://<domain>/mlflow`, the only redirect is its `/_oauth`, and the ingress host is the domain |
| MlflowAwsPlugin.KeycloakUrlPassedOn | src/nebari_plugin_mlflow_aws/__init__.py:120-146 | the external URL is the credentials URL with `/auth/`; the realm id is passed on |
| MlflowAwsPlugin.NamespaceRule | src/nebari_plugin_mlflow_aws/__init__.py:113-131 | `input_vars` applies the namespace rule |
| MlflowAwsPlugin.ChartNamespaceStable | src/nebari_plugin_mlflow_aws/__init__.py:113-117 | fed its own namespace back, the rule keeps it |
| MlflowAwsPlugin.MissingOutputsRaise | src/nebari_plugin_mlflow_aws/__init__.py:106-111 | a missing domain raises the Keycloak lookup's `KeyError`; a missing role raises the wrapped `Exception` |
| MlflowAwsPlugin.CheckDoesNotCoverInputVars | src/nebari_plugin_mlflow_aws/__init__.py:38-108 | outputs can pass the opening lookups of `check` and still make `input_vars` raise |

## Left out

- HMAC-SHA256, base64 and `hmac.compare_digest` are one uninterpreted function `mac`. The compare is equality. The `except` at `webhook_handler.py:97-103` cannot be reached in a total model.
- HTTP plumbing (FastAPI, uvicorn), SSL setup, reading the request body, and parsing the body as JSON. The parse is a parameter `parse`.
- Async machinery: tasks, cancellation, `asyncio.sleep`, `wait_for` and `to_thread`.
  - One attempt or one cycle is one step, and a timeout is an attempt outcome.
  - At start-up the retry wrapper around the two registry calls is not applied: each call is made once.
- The MLflow SDK, the Kubernetes `CustomObjectsApi`, YAML and Jinja are not modelled.
  - A manifest is a record with a kind, labels and a spec.
  - The template is a parameter.
  - Cluster objects are keyed by the name argument.
- MLflow paging, the filter-string quoting of `search_model_versions`, and the other version and run fields beyond the ones used.
- K8sNames.Lower: only ASCII letters are lowered. Python's `lower()` is Unicode-aware, but every other non-`[a-z0-9-]` character becomes `-` anyway. The case that differs is a character such as U+212A (Kelvin sign) that lowers to an ASCII letter.
- Decimal.ParseInt: `int()` accepts ASCII digits, whitespace, sign and single underscores; Unicode digits and Unicode whitespace are not modelled.
- Logging, and `InferenceServiceNotFoundError`, which the client never raises.
- The KServe controller, which fills in the `status` conditions that `/services` reads. The status is a field of the object.
- Kubernetes.KubernetesClient.Update: its `AlreadyExists` result cannot happen in a sequential model, because the fall-back create follows a get that found nothing.
- WebhookHandler.ProcessWebhookEvent: a field of `data` of the wrong JSON type (a number where a name is expected) is not modelled; each field is a string or absent. A `data` that is present but not an object is the processing-error path.
- WebhookHandler.Undeploy: the `InvalidServiceName` branch follows the source's `ValueError`, but it cannot be taken. The generated name always holds the `v` of `-v`, so it is never empty (`GenerateInferenceServiceName`).
- Polling.PollingService.DeployAll: when two desired pairs generate the same service name, such as ("a", "1-v2") and ("a-v1", "2"), the outcome at that name depends on the order of the set walk. The contract states only that the name is among the planned ones and that nothing else changes; `NameUpdated` is stated for pairs whose name no other pair claims.
- WebhookHandler.ModelDetails: an absent name or version in the event is a registry failure. The source passes `None` to the SDK, which fails.
- Polling.PollingService.PollOnce: states only that the loop keeps running. The cycle's own effect is stated by `PollAndReconcile`, and the sleep between cycles is left out.
- The shutdown half of `lifespan` (`main.py:133-139`) is `Stop` alone.
- `config.py` and `src/nebari_plugin_mlflow_aws/cfg/__init__.py` are not part of this model. Settings are parameters: `settings.artifacts_uri`, `disable_webhooks` and `enable_polling_fallback` are read by the code but not defined in `config.py`.
- The Keycloak connection loop of the AWS `check` (`src/nebari_plugin_mlflow_aws/__init__.py:48-103`) involves network I/O, `time.sleep` and `sys.exit`. Only its opening lookups are modelled.
- Terraform, Helm and the stage directories (`template_directory`) are not modelled. Stage-output leaves are strings, and JSON values carry no floating-point numbers (`Json` has no float case).
- The docker-compose scripts (`model-create.py`, `listener.py`) are not modelled.

## Findings

| source | as written | input that shows it | evidently intended | confidence | as-written member | corrected member |
|---|---|---|---|---|---|---|
| webhook-listener/src/main.py:64-90 with webhook-listener/src/mlflow_client.py:350-369 | start-up deletes only the first webhook registered at the listener URL, then `ensure_webhook_registered` reuses any other webhook still at that URL | two webhooks already at the URL with an old secret, and a new secret configured | every webhook at the URL is deleted, so the one in use carries the current secret (the comment at `main.py:64-65`) | medium, not executed | App.StaleSecretReused | App.RegisterWebhook |
