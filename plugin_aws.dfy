/** The AWS-only Nebari stage (src/nebari_plugin_mlflow_aws/__init__.py): the
    Keycloak settings it reads from earlier stages, the Terraform variables it
    derives from them, and the prerequisite lookup that opens its `check`. */
module MlflowAwsPlugin {
  import opened Wrappers
  import opened StageOutputs

  /** The Keycloak client the stage configures. */
  const ClientName: string := "mlflow"

  const SigningKeyName: string := "forwardauth-deployment"
  const SigningKeyKind: string := "Deployment"

  function CredentialPath(field: string): Path {
    [Keycloak, "keycloak_credentials", "value", field]
  }

  const RealmIdPath: Path := [KeycloakConfiguration, "realm_id", "value"]
  const RoleNamePath: Path := [Infrastructure, "node_group_iam_role_name", "value"]
  /** What `check` looks up instead: the policy, not the role, and without a
      trailing `["value"]`. */
  const PolicyNamePath: Path := [Infrastructure, "node_group_iam_policy_name"]

  /** The outputs `get_keycloak_config` reads, in its order. */
  const KeycloakPaths: seq<Path> := [
    DomainPath, CredentialPath("url"), CredentialPath("username"), CredentialPath("password"),
    CredentialPath("realm"), CredentialPath("client_id"), RealmIdPath]

  /** A `KeyError` raised by a lookup, or the `Exception` `input_vars` raises
      when its own two lookups fail. */
  datatype StageError = MissingOutput(path: Path) | PrerequisiteMissing

  /** The dictionary `get_keycloak_config` returns. */
  datatype KeycloakSettings = KeycloakSettings(
    domain: string,
    keycloakUrl: string,
    username: string,
    password: string,
    masterRealmId: string,
    masterClientId: string,
    realmId: string)

  /** `get_keycloak_config`: the ingress domain, the Keycloak admin credentials
      with `/auth/` appended to the server URL, and the Nebari realm. */
  function KeycloakConfig(outputs: Outputs): (r: Result<KeycloakSettings, StageError>)
    ensures r.Ok? <==> forall i :: 0 <= i < |KeycloakPaths| ==> KeycloakPaths[i] in outputs
    ensures r.Err? ==> r.error.MissingOutput? && r.error.path in KeycloakPaths && r.error.path !in outputs
    ensures r.Ok? ==> DomainPath in outputs && CredentialPath("url") in outputs && RealmIdPath in outputs
    ensures r.Ok? ==> && r.value.domain == outputs[DomainPath]
                      && r.value.keycloakUrl == outputs[CredentialPath("url")] + "/auth/"
                      && r.value.realmId == outputs[RealmIdPath]
  {
    match FirstMissing(outputs, KeycloakPaths)
    case Some(p) => Err(MissingOutput(p))
    case None =>
      assert KeycloakPaths[1] == CredentialPath("url") && KeycloakPaths[2] == CredentialPath("username");
      assert KeycloakPaths[3] == CredentialPath("password") && KeycloakPaths[4] == CredentialPath("realm");
      assert KeycloakPaths[5] == CredentialPath("client_id") && KeycloakPaths[6] == RealmIdPath;
      Ok(KeycloakSettings(
        outputs[DomainPath],
        outputs[CredentialPath("url")] + "/auth/",
        outputs[CredentialPath("username")],
        outputs[CredentialPath("password")],
        outputs[CredentialPath("realm")],
        outputs[CredentialPath("client_id")],
        outputs[RealmIdPath]))
  }

  /** The namespace the chart goes to and whether the stage creates it: the
      configured `ml_flow.namespace` unless that is absent, empty or Nebari's
      own namespace, in which case Nebari's namespace, which already exists. */
  function ChartNamespace(nebariNamespace: string, chartNamespace: Option<string>): (placement: (string, bool))
    ensures placement.1 <==> chartNamespace.Some? && chartNamespace.value != "" && chartNamespace.value != nebariNamespace
    ensures placement.0 == if placement.1 then chartNamespace.value else nebariNamespace
  {
    match chartNamespace
    case Some(ns) => if ns == "" || ns == nebariNamespace then (nebariNamespace, false) else (ns, true)
    case None => (nebariNamespace, false)
  }

  /** `signing_key_ref`. */
  datatype ObjectRef = ObjectRef(name: string, kind: string, namespace: string)

  /** The dictionary `input_vars` returns, a field per key. */
  datatype InputVariables = InputVariables(
    realmId: string,
    clientId: string,
    baseUrl: string,
    externalUrl: string,
    validRedirectUris: seq<string>,
    signingKeyRef: ObjectRef,
    createNamespace: bool,
    namespace: string,
    nodeGroupIamRoleName: string,
    ingressHost: string)

  /** The parts of the Nebari configuration the stage reads. */
  datatype NebariConfig = NebariConfig(namespace: string, mlFlowNamespace: Option<string>)

  function BaseUrl(domain: string): string {
    "https://" + domain + "/mlflow"
  }

  /** `MlflowStage.input_vars`. The Keycloak settings are read first, outside
      the `try`, so a missing ingress domain surfaces as the `KeyError` of that
      lookup; only a missing IAM role name reaches the wrapped `Exception`. */
  function InputVars(config: NebariConfig, outputs: Outputs): (r: Result<InputVariables, StageError>)
    ensures r.Ok? <==> KeycloakConfig(outputs).Ok? && RoleNamePath in outputs
    ensures r.Err? && r.error.MissingOutput? <==> KeycloakConfig(outputs).Err?
    ensures r.Ok? ==> RoleNamePath in outputs && r.value.nodeGroupIamRoleName == outputs[RoleNamePath]
  {
    match KeycloakConfig(outputs)
    case Err(e) => Err(e)
    case Ok(keycloak) =>
      if RoleNamePath !in outputs || DomainPath !in outputs then Err(PrerequisiteMissing)
      else
        var (ns, create) := ChartNamespace(config.namespace, config.mlFlowNamespace);
        Ok(InputVariables(
          keycloak.realmId,
          ClientName,
          BaseUrl(keycloak.domain),
          keycloak.keycloakUrl,
          [BaseUrl(keycloak.domain) + "/_oauth"],
          ObjectRef(SigningKeyName, SigningKeyKind, config.namespace),
          create,
          ns,
          outputs[RoleNamePath],
          outputs[DomainPath]))
  }

  /** The lookups that open `check`, before it reaches Keycloak. */
  predicate CheckPrerequisites(outputs: Outputs) {
    Present(outputs, PolicyNamePath) && Present(outputs, DomainPath)
  }

  // ---------------------------------------------------------------------------

  /** The Keycloak client is always `mlflow`, the signing key always the
      forward-auth deployment in Nebari's namespace. */
  lemma FixedReferences(config: NebariConfig, outputs: Outputs)
    requires InputVars(config, outputs).Ok?
    ensures InputVars(config, outputs).value.clientId == "mlflow"
    ensures InputVars(config, outputs).value.signingKeyRef ==
              ObjectRef("forwardauth-deployment", "Deployment", config.namespace)
  {
  }

  /** The service lives at `https://<domain>/mlflow` on the ingress host, and the
      one redirect URI is its `/_oauth` path. */
  lemma UrlsUnderDomain(config: NebariConfig, outputs: Outputs)
    requires InputVars(config, outputs).Ok?
    ensures var v := InputVars(config, outputs).value;
            && v.baseUrl == "https://" + v.ingressHost + "/mlflow"
            && v.validRedirectUris == [v.baseUrl + "/_oauth"]
            && v.ingressHost == outputs[DomainPath]
  {
  }

  /** The Keycloak URL handed on is the credentials' server URL with `/auth/`. */
  lemma KeycloakUrlPassedOn(config: NebariConfig, outputs: Outputs)
    requires InputVars(config, outputs).Ok?
    ensures CredentialPath("url") in outputs && RealmIdPath in outputs
    ensures InputVars(config, outputs).value.externalUrl == outputs[CredentialPath("url")] + "/auth/"
    ensures InputVars(config, outputs).value.realmId == outputs[RealmIdPath]
  {
    assert KeycloakPaths[1] == CredentialPath("url");
  }

  /** The namespace rule as `input_vars` applies it. */
  lemma NamespaceRule(config: NebariConfig, outputs: Outputs)
    requires InputVars(config, outputs).Ok?
    ensures var v := InputVars(config, outputs).value;
            && (v.createNamespace <==> config.mlFlowNamespace.Some? && config.mlFlowNamespace.value != ""
                                        && config.mlFlowNamespace.value != config.namespace)
            && v.namespace == (if v.createNamespace then config.mlFlowNamespace.value else config.namespace)
  {
  }

  /** The rule settles: fed its own namespace back, it keeps it. */
  lemma ChartNamespaceStable(nebariNamespace: string, chartNamespace: Option<string>)
    ensures var (ns, _) := ChartNamespace(nebariNamespace, chartNamespace);
            ChartNamespace(nebariNamespace, Some(ns)).0 == ns
  {
  }

  /** A missing ingress domain makes `input_vars` raise the lookup's `KeyError`,
      and a missing IAM role name (with everything else present) the wrapped
      `Exception`. */
  lemma {:induction false} MissingOutputsRaise(config: NebariConfig, outputs: Outputs)
    ensures DomainPath !in outputs ==> InputVars(config, outputs) == Err(MissingOutput(DomainPath))
    ensures KeycloakConfig(outputs).Ok? && RoleNamePath !in outputs ==>
              InputVars(config, outputs) == Err(PrerequisiteMissing)
  {
    if DomainPath !in outputs {
      FirstMissingIsFirst(outputs, KeycloakPaths, 0);
    }
  }

  /** `check` looks up the IAM policy name while `input_vars` needs the role
      name: outputs can pass the one and fail the other. */
  lemma CheckDoesNotCoverInputVars(config: NebariConfig)
    ensures var outputs := map[
              PolicyNamePath + ["value"] := "policy",
              DomainPath := "nebari.example.com",
              CredentialPath("url") := "https://nebari.example.com",
              CredentialPath("username") := "root",
              CredentialPath("password") := "secret",
              CredentialPath("realm") := "master",
              CredentialPath("client_id") := "admin-cli",
              RealmIdPath := "nebari"];
            CheckPrerequisites(outputs) && InputVars(config, outputs) == Err(PrerequisiteMissing)
  {
    var outputs := map[
      PolicyNamePath + ["value"] := "policy",
      DomainPath := "nebari.example.com",
      CredentialPath("url") := "https://nebari.example.com",
      CredentialPath("username") := "root",
      CredentialPath("password") := "secret",
      CredentialPath("realm") := "master",
      CredentialPath("client_id") := "admin-cli",
      RealmIdPath := "nebari"];
    assert PolicyNamePath + ["value"] in outputs && PolicyNamePath <= PolicyNamePath + ["value"];
    assert DomainPath in outputs && DomainPath <= DomainPath;
    assert RoleNamePath[1][15] != (PolicyNamePath + ["value"])[1][15];
    assert forall i :: 0 <= i < |KeycloakPaths| ==> KeycloakPaths[i] in outputs;
  }
}
