/** The multi-provider Nebari stage (src/nebari_mlflow_plugin/__init__.py): its
    prerequisite `check` and the Terraform variables `input_vars` derives, per
    cloud provider, from the Nebari configuration and earlier stage outputs. */
module MlflowPlugin {
  import opened Wrappers
  import Strings
  import opened StageJson
  import opened StageOutputs

  /** `ProviderEnum`; the providers the stage does not support (such as
      `existing`) are `OtherProvider`. */
  datatype Provider = Aws | Azure | Gcp | Local | OtherProvider(name: string)

  predicate IsCloud(p: Provider) {
    p.Aws? || p.Azure? || p.Gcp?
  }

  /** `KeyError` from a stage-output lookup, or `NotImplementedError`. */
  datatype StageError = MissingOutput(path: Path) | NotImplemented(provider: string)

  /** `MlflowConfigAWS`: the field itself is optional and defaults to true. */
  datatype AwsBlock = AwsBlock(enableS3Encryption: Option<bool>)

  /** `MlflowConfigLocal`. */
  datatype LocalBlock = LocalBlock(minioRootPassword: string)

  const DefaultMinioPassword: string := "minio-secret-password"

  /** `MlflowProvidersInputSchema`; a `None` overrides is dumped as `null`. */
  datatype MlflowSettings = MlflowSettings(
    enabled: bool,
    overrides: Option<seq<(string, Json)>>,
    aws: Option<AwsBlock>,
    local: Option<LocalBlock>)

  const DefaultMlflow: MlflowSettings := MlflowSettings(true, Some([]), None, None)

  /** The parts of the Nebari configuration the stage reads. */
  datatype NebariConfig = NebariConfig(
    projectName: string,
    escapedProjectName: string,
    namespace: string,
    provider: Provider,
    awsRegion: string,
    azureRegion: string,
    storageAccountPostfix: string,
    gcpRegion: string,
    mlflow: MlflowSettings)

  const OidcIssuerPath: Path := [Infrastructure, "cluster_oidc_issuer_url", "value"]
  const ResourceGroupPath: Path := [Infrastructure, "resource_group_name", "value"]
  const ProjectIdPath: Path := [Infrastructure, "project_id", "value"]
  const ForwardAuthServicePath: Path := [Services, "forward-auth-service", "value", "name"]
  const ForwardAuthMiddlewarePath: Path := [Services, "forward-auth-middleware", "value", "name"]

  /** `MlflowStage.check`: a cloud provider needs the cluster's OIDC issuer URL
      from the infrastructure stage, a local deployment needs nothing, and any
      other provider is not implemented. */
  function Check(config: NebariConfig, outputs: Outputs): (r: Result<bool, StageError>)
    ensures r.Err? <==> config.provider.OtherProvider?
    ensures r.Err? ==> r.error == NotImplemented(config.provider.name)
    ensures r == Ok(true) <==> config.provider.Local? || (IsCloud(config.provider) && OidcIssuerPath in outputs)
  {
    match config.provider
    case OtherProvider(name) => Err(NotImplemented(name))
    case Local => Ok(true)
    case _ => Ok(OidcIssuerPath in outputs)
  }

  /** The stage outputs `input_vars` reads for a provider, in the order it reads
      them. */
  function RequiredPaths(p: Provider): seq<Path> {
    match p
    case Aws => [OidcIssuerPath, DomainPath, ForwardAuthServicePath, ForwardAuthMiddlewarePath]
    case Azure => [OidcIssuerPath, DomainPath, ResourceGroupPath, ForwardAuthServicePath, ForwardAuthMiddlewarePath]
    case Gcp => [OidcIssuerPath, DomainPath, ProjectIdPath, ForwardAuthServicePath, ForwardAuthMiddlewarePath]
    case Local => [DomainPath, ForwardAuthServicePath, ForwardAuthMiddlewarePath]
    case OtherProvider(_) => []
  }

  function ReleaseName(projectName: string): string {
    projectName + "-mlflow"
  }

  function StorageAccountName(projectName: string, postfix: string): string {
    Strings.Take(projectName, 15) + "mlfsa" + postfix
  }

  function BucketName(projectName: string): string {
    projectName + "-mlflow-artifacts"
  }

  /** `enable_s3_encryption`: true unless an aws block is given, whose own
      (possibly absent) value is then passed on. */
  function S3Encryption(aws: Option<AwsBlock>): Option<bool> {
    match aws
    case None => Some(true)
    case Some(block) => block.enableS3Encryption
  }

  function MinioPassword(local: Option<LocalBlock>): string {
    match local
    case Some(block) => block.minioRootPassword
    case None => DefaultMinioPassword
  }

  /** `[json.dumps(overrides)]`. */
  function OverridesVar(overrides: Option<seq<(string, Json)>>): seq<string> {
    var value := match overrides case Some(fields) => Object(fields) case None => Null;
    [Dumps(value)]
  }

  /** The variables every provider passes: `enabled`, `namespace`,
      `external_url`, `helm-release-name`, `forwardauth-service-name`,
      `forwardauth-middleware-name` and `overrides`. */
  datatype CommonVars = CommonVars(
    enabled: bool,
    namespace: string,
    externalUrl: string,
    helmReleaseName: string,
    forwardauthServiceName: string,
    forwardauthMiddlewareName: string,
    overrides: seq<string>)

  /** The provider's own variables, each field named after its key
      (`cluster_oidc_issuer_url`, `project_name`, `region`,
      `enable_s3_encryption`, `storage_resource_group_name`,
      `storage_account_name`, `project_id`, `bucket_name`,
      `minio_root_password`); a `None` encryption flag is Python's `None`. */
  datatype ProviderVars =
    | AwsVars(clusterOidcIssuerUrl: string, projectName: string, region: string, enableS3Encryption: Option<bool>)
    | AzureVars(clusterOidcIssuerUrl: string, storageResourceGroupName: string, region: string, storageAccountName: string)
    | GcpVars(clusterOidcIssuerUrl: string, projectId: string, region: string, bucketName: string)
    | LocalVars(minioRootPassword: string)

  /** The dictionary `input_vars` returns. */
  datatype InputVariables = InputVariables(common: CommonVars, specific: ProviderVars)

  predicate HasAll(outputs: Outputs, paths: seq<Path>) {
    forall i :: 0 <= i < |paths| ==> paths[i] in outputs
  }

  function Common(config: NebariConfig, outputs: Outputs): CommonVars
    requires DomainPath in outputs && ForwardAuthServicePath in outputs && ForwardAuthMiddlewarePath in outputs
  {
    CommonVars(
      config.mlflow.enabled, config.namespace, outputs[DomainPath], ReleaseName(config.projectName),
      outputs[ForwardAuthServicePath], outputs[ForwardAuthMiddlewarePath], OverridesVar(config.mlflow.overrides))
  }

  function Specific(config: NebariConfig, outputs: Outputs): ProviderVars
    requires !config.provider.OtherProvider? && HasAll(outputs, RequiredPaths(config.provider))
  {
    match config.provider
    case Aws =>
      assert RequiredPaths(Aws)[0] == OidcIssuerPath;
      AwsVars(outputs[OidcIssuerPath], config.escapedProjectName, config.awsRegion, S3Encryption(config.mlflow.aws))
    case Azure =>
      assert RequiredPaths(Azure)[0] == OidcIssuerPath && RequiredPaths(Azure)[2] == ResourceGroupPath;
      AzureVars(outputs[OidcIssuerPath], outputs[ResourceGroupPath], config.azureRegion,
                StorageAccountName(config.projectName, config.storageAccountPostfix))
    case Gcp =>
      assert RequiredPaths(Gcp)[0] == OidcIssuerPath && RequiredPaths(Gcp)[2] == ProjectIdPath;
      GcpVars(outputs[OidcIssuerPath], outputs[ProjectIdPath], config.gcpRegion, BucketName(config.projectName))
    case Local => LocalVars(MinioPassword(config.mlflow.local))
  }

  lemma CommonPathsRequired(outputs: Outputs, p: Provider)
    requires !p.OtherProvider? && HasAll(outputs, RequiredPaths(p))
    ensures DomainPath in outputs && ForwardAuthServicePath in outputs && ForwardAuthMiddlewarePath in outputs
  {
    var paths := RequiredPaths(p);
    var n := |paths|;
    if p.Local? {
      assert paths[0] == DomainPath;
    } else {
      assert paths[1] == DomainPath;
    }
    assert paths[n - 2] == ForwardAuthServicePath;
    assert paths[n - 1] == ForwardAuthMiddlewarePath;
  }

  /** The variant of the provider variables each provider gets. */
  predicate Matches(p: Provider, v: ProviderVars) {
    match p
    case Aws => v.AwsVars?
    case Azure => v.AzureVars?
    case Gcp => v.GcpVars?
    case Local => v.LocalVars?
    case OtherProvider(_) => false
  }

  /** `MlflowStage.input_vars`: the provider's variables, `KeyError` for the
      first stage output it reads that is missing, or `NotImplementedError`. */
  function InputVars(config: NebariConfig, outputs: Outputs): (r: Result<InputVariables, StageError>)
    ensures r.Err? <==> config.provider.OtherProvider? || !HasAll(outputs, RequiredPaths(config.provider))
    ensures r.Err? && r.error.NotImplemented? <==> config.provider.OtherProvider?
    ensures r.Err? && r.error.MissingOutput? ==>
              r.error.path in RequiredPaths(config.provider) && r.error.path !in outputs
    ensures r.Ok? ==> Matches(config.provider, r.value.specific)
    ensures r.Ok? ==> DomainPath in outputs && ForwardAuthServicePath in outputs && ForwardAuthMiddlewarePath in outputs
    ensures r.Ok? && IsCloud(config.provider) ==> OidcIssuerPath in outputs
  {
    if config.provider.OtherProvider? then Err(NotImplemented(config.provider.name))
    else match FirstMissing(outputs, RequiredPaths(config.provider))
      case Some(p) => Err(MissingOutput(p))
      case None =>
        CommonPathsRequired(outputs, config.provider);
        Ok(InputVariables(Common(config, outputs), Specific(config, outputs)))
  }

  // ---------------------------------------------------------------------------

  /** Every provider names the Helm release after the project. */
  lemma ReleaseNameEverywhere(config: NebariConfig, outputs: Outputs)
    requires InputVars(config, outputs).Ok?
    ensures InputVars(config, outputs).value.common.helmReleaseName == config.projectName + "-mlflow"
  {
  }

  /** Every provider passes the overrides as a one-element list holding their
      JSON text, printable ASCII throughout; the default ones are `['{}']`. */
  lemma OverridesEverywhere(config: NebariConfig, outputs: Outputs)
    requires InputVars(config, outputs).Ok?
    ensures var o := InputVars(config, outputs).value.common.overrides;
            |o| == 1 && AllPrintable(o[0])
    ensures config.mlflow.overrides.Some? ==>
              InputVars(config, outputs).value.common.overrides == [Dumps(Object(config.mlflow.overrides.value))]
    ensures config.mlflow.overrides == DefaultMlflow.overrides ==>
              InputVars(config, outputs).value.common.overrides == ["{}"]
  {
    EmptyObjectDumps();
  }

  /** On AWS, S3 encryption is on unless an aws block is given, which then
      decides it. */
  lemma S3EncryptionDefault(config: NebariConfig, outputs: Outputs)
    requires config.provider.Aws? && InputVars(config, outputs).Ok?
    ensures config.mlflow.aws.None? ==> InputVars(config, outputs).value.specific.enableS3Encryption == Some(true)
    ensures config.mlflow.aws.Some? ==>
              InputVars(config, outputs).value.specific.enableS3Encryption == config.mlflow.aws.value.enableS3Encryption
  {
  }

  /** On Azure, the storage account is at most 15 characters of the project
      name, then `mlfsa`, then the configured postfix. */
  lemma StorageAccountShape(config: NebariConfig, outputs: Outputs)
    requires config.provider.Azure? && InputVars(config, outputs).Ok?
    ensures var name := InputVars(config, outputs).value.specific.storageAccountName;
            var k := if |config.projectName| < 15 then |config.projectName| else 15;
            && |name| == k + 5 + |config.storageAccountPostfix|
            && name[..k] == config.projectName[..k]
            && name[k..k + 5] == "mlfsa"
            && name[k + 5..] == config.storageAccountPostfix
  {
  }

  /** On GCP, the bucket is named after the project. */
  lemma BucketNamed(config: NebariConfig, outputs: Outputs)
    requires config.provider.Gcp? && InputVars(config, outputs).Ok?
    ensures InputVars(config, outputs).value.specific.bucketName == config.projectName + "-mlflow-artifacts"
  {
  }

  /** Locally, the MinIO password is the local block's, or the schema's default
      without one. */
  lemma MinioPasswordDefault(config: NebariConfig, outputs: Outputs)
    requires config.provider.Local? && InputVars(config, outputs).Ok?
    ensures config.mlflow.local.None? ==>
              InputVars(config, outputs).value.specific.minioRootPassword == "minio-secret-password"
    ensures config.mlflow.local.Some? ==>
              InputVars(config, outputs).value.specific.minioRootPassword == config.mlflow.local.value.minioRootPassword
  {
  }

  /** The variables hand the stage outputs on unchanged. */
  lemma OutputsPassedOn(config: NebariConfig, outputs: Outputs)
    requires InputVars(config, outputs).Ok?
    ensures var v := InputVars(config, outputs).value;
            && v.common.externalUrl == outputs[DomainPath]
            && v.common.forwardauthServiceName == outputs[ForwardAuthServicePath]
            && v.common.forwardauthMiddlewareName == outputs[ForwardAuthMiddlewarePath]
            && (IsCloud(config.provider) ==> v.specific.clusterOidcIssuerUrl == outputs[OidcIssuerPath])
  {
  }

  /** Whatever `input_vars` accepts, `check` passes. */
  lemma InputVarsPassesCheck(config: NebariConfig, outputs: Outputs)
    requires InputVars(config, outputs).Ok?
    ensures Check(config, outputs) == Ok(true)
  {
    if IsCloud(config.provider) {
      assert RequiredPaths(config.provider)[0] == OidcIssuerPath;
    }
  }

  /** A local deployment passes `check` with no stage outputs at all, although
      `input_vars` still needs the ingress domain. */
  lemma LocalWithoutOutputs(config: NebariConfig)
    requires config.provider.Local?
    ensures Check(config, map[]) == Ok(true)
    ensures InputVars(config, map[]) == Err(MissingOutput(DomainPath))
  {
  }

  /** A cloud provider missing the OIDC issuer URL fails `check`, and
      `input_vars` raises for that key first. */
  lemma MissingIssuer(config: NebariConfig, outputs: Outputs)
    requires IsCloud(config.provider) && OidcIssuerPath !in outputs
    ensures Check(config, outputs) == Ok(false)
    ensures InputVars(config, outputs) == Err(MissingOutput(OidcIssuerPath))
  {
    FirstMissingIsFirst(outputs, RequiredPaths(config.provider), 0);
  }

  /** The AWS stage outputs of the unit tests and the variables derived from them. */
  lemma AwsExample()
    ensures var outputs := map[
              OidcIssuerPath := "https://test-oidc-url.com",
              DomainPath := "my-test-domain.com",
              ForwardAuthServicePath := "forwardauth-service",
              ForwardAuthMiddlewarePath := "forwardauth-middleware"];
            var config := NebariConfig("testproject", "testprojectname", "nebari-ns", Aws,
                                       "us-east-1", "eastus", "abc123", "us-central1", DefaultMlflow);
            InputVars(config, outputs) == Ok(InputVariables(
              CommonVars(true, "nebari-ns", "my-test-domain.com", "testproject-mlflow",
                         "forwardauth-service", "forwardauth-middleware", ["{}"]),
              AwsVars("https://test-oidc-url.com", "testprojectname", "us-east-1", Some(true))))
  {
    var outputs := map[
      OidcIssuerPath := "https://test-oidc-url.com",
      DomainPath := "my-test-domain.com",
      ForwardAuthServicePath := "forwardauth-service",
      ForwardAuthMiddlewarePath := "forwardauth-middleware"];
    assert HasAll(outputs, RequiredPaths(Aws));
    EmptyObjectDumps();
    assert ReleaseName("testproject") == "testproject-mlflow";
  }

  /** Overrides `{"foo": "bar"}` reach Terraform as `['{"foo": "bar"}']`. */
  lemma OverridesExample(config: NebariConfig, outputs: Outputs)
    requires config.mlflow.overrides == Some([("foo", Str("bar"))]) && InputVars(config, outputs).Ok?
    ensures InputVars(config, outputs).value.common.overrides == ["{\"foo\": \"bar\"}"]
  {
    FooBarDumps("foo", "bar");
  }
}
