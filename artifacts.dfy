/** Rewriting MLflow's logical artifact URIs into storage URIs
    (webhook-listener/src/mlflow_client.py): `resolve_mlflow_artifacts_uri` and the
    string logic of `MLflowClient._resolve_storage_uri` after its run lookup. */
module ArtifactUris {
  import opened Wrappers
  import opened Strings

  const DoubleSlashScheme: string := "mlflow-artifacts://"
  const SingleSlashScheme: string := "mlflow-artifacts:/"
  const Slash: set<char> := {'/'}
  const ModelsSegment: string := "/models/"

  /** `settings.artifacts_uri` is read but the settings class has no such field:
      reading it raises AttributeError, here `MissingArtifactsUri`. */
  datatype ConfigError = MissingArtifactsUri

  predicate IsLogical(uri: string) {
    StartsWith(uri, DoubleSlashScheme) || StartsWith(uri, SingleSlashScheme)
  }

  /** Both scheme spellings removed everywhere, the double-slash one first. */
  function LogicalPath(uri: string): (path: string)
    ensures |path| <= |uri|
  {
    RemoveAll(RemoveAll(uri, DoubleSlashScheme), SingleSlashScheme)
  }

  /** `resolve_mlflow_artifacts_uri`, with `settings.artifacts_uri` as `artifactsBase`. */
  function ResolveArtifactsUri(source: string, artifactsBase: Option<string>): (r: Result<string, ConfigError>)
    ensures !IsLogical(source) ==> r == Ok(source)
    ensures IsLogical(source) && artifactsBase.None? ==> r == Err(MissingArtifactsUri)
  {
    if !IsLogical(source) then Ok(source)
    else match artifactsBase
      case None => Err(MissingArtifactsUri)
      case Some(base) => Ok(RStrip(base, Slash) + "/" + LogicalPath(source))
  }

  /** Only the double-slash spelling asks for the run's artifact location. */
  predicate NeedsRunLookup(source: string) {
    StartsWith(source, DoubleSlashScheme)
  }

  /** `_resolve_storage_uri` once the run's `artifact_uri` is known. */
  function ResolveAgainstRun(source: string, artifactUri: string): (r: string)
    ensures IsLogical(artifactUri) || Contains(LogicalPath(source), ModelsSegment) ==> r == source
  {
    var path := LogicalPath(source);
    if IsLogical(artifactUri) then source
    else if Contains(path, ModelsSegment) then source
    else RStrip(artifactUri, Slash) + "/" + LStrip(path, Slash)
  }

  // ---------------------------------------------------------------------------

  /** The double-slash scheme starts with the single-slash one, so a double-slash URI
      is logical for both checks. */
  lemma SchemesNested()
    ensures StartsWith(DoubleSlashScheme, SingleSlashScheme)
  {
  }

  /** Inside the single-slash scheme no double-slash scheme can start unless the
      path itself begins with `/`. */
  lemma NoDoubleInsideSingle(p: string)
    requires p == [] || p[0] != '/'
    ensures NoMatchBefore(SingleSlashScheme + p, |SingleSlashScheme|, DoubleSlashScheme)
  {
    var s := SingleSlashScheme + p;
    forall k | 0 <= k < |SingleSlashScheme| ensures !StartsWith(s[k..], DoubleSlashScheme) {
      if k == 0 {
        if |s| >= |DoubleSlashScheme| {
          assert s[k..][18] == p[0];
        }
      } else if |s[k..]| > 0 {
        assert s[k..][0] == SingleSlashScheme[k];
      }
    }
  }

  /** A path that holds no scheme comes back from the single-slash spelling intact. */
  lemma LogicalPathSingle(p: string)
    requires !Contains(p, SingleSlashScheme) && (p == [] || p[0] != '/')
    ensures LogicalPath(SingleSlashScheme + p) == p
  {
    var s := SingleSlashScheme + p;
    NoDoubleInsideSingle(p);
    RemoveAllSkip(s, |SingleSlashScheme|, DoubleSlashScheme);
    assert s[..|SingleSlashScheme|] == SingleSlashScheme && s[|SingleSlashScheme|..] == p;
    NoDoubleIn(p);
    RemoveAllHead(SingleSlashScheme, p);
    RemoveAllAbsent(p, SingleSlashScheme);
  }

  /** ... and from the double-slash spelling. */
  lemma LogicalPathDouble(p: string)
    requires !Contains(p, SingleSlashScheme)
    ensures LogicalPath(DoubleSlashScheme + p) == p
  {
    RemoveAllHead(DoubleSlashScheme, p);
    NoDoubleIn(p);
    RemoveAllAbsent(p, SingleSlashScheme);
  }

  lemma NoDoubleIn(p: string)
    requires !Contains(p, SingleSlashScheme)
    ensures RemoveAll(p, DoubleSlashScheme) == p
  {
    if Contains(p, DoubleSlashScheme) {
      ContainsPrefixPattern(p, DoubleSlashScheme, SingleSlashScheme);
    }
    RemoveAllAbsent(p, DoubleSlashScheme);
  }

  /** A logical URI resolves to the configured base, trailing slashes dropped, joined
      by one `/` to the path after the scheme. */
  lemma ResolveLogicalUri(p: string, base: string)
    requires !Contains(p, SingleSlashScheme) && (p == [] || p[0] != '/')
    ensures ResolveArtifactsUri(SingleSlashScheme + p, Some(base)) == Ok(RStrip(base, Slash) + "/" + p)
    ensures ResolveArtifactsUri(DoubleSlashScheme + p, Some(base)) == Ok(RStrip(base, Slash) + "/" + p)
  {
    LogicalPathSingle(p);
    LogicalPathDouble(p);
    assert IsLogical(SingleSlashScheme + p);
    assert IsLogical(DoubleSlashScheme + p) by {
      assert (DoubleSlashScheme + p)[..|DoubleSlashScheme|] == DoubleSlashScheme;
    }
  }

  /** A single-slash source never triggers the run lookup, so `_resolve_storage_uri`
      hands it back unchanged. */
  lemma SingleSlashNotLookedUp(p: string)
    requires p == [] || p[0] != '/'
    ensures !NeedsRunLookup(SingleSlashScheme + p)
  {
    var s := SingleSlashScheme + p;
    if |s| >= |DoubleSlashScheme| {
      assert s[18] != DoubleSlashScheme[18];
    }
  }

  /** A run-artifact path is joined onto the run's storage location, with the slashes
      between them normalised to one. */
  lemma ResolveRunPath(p: string, artifactUri: string)
    requires !Contains(p, SingleSlashScheme) && !Contains(p, ModelsSegment) && !IsLogical(artifactUri)
    ensures ResolveAgainstRun(DoubleSlashScheme + p, artifactUri) == RStrip(artifactUri, Slash) + "/" + LStrip(p, Slash)
  {
    LogicalPathDouble(p);
  }

  /** A registered-model path (`/models/` in it) is handed back as it came. */
  lemma ResolveModelPath(p: string, artifactUri: string)
    requires !Contains(p, SingleSlashScheme) && Contains(p, ModelsSegment)
    ensures ResolveAgainstRun(DoubleSlashScheme + p, artifactUri) == DoubleSlashScheme + p
  {
    LogicalPathDouble(p);
  }
}
