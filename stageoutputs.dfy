/** The outputs of earlier Nebari stages, as both plugins read them: a nested
    dictionary `stage_outputs[stage][key]...`, flattened here to the string
    leaves it holds, each under the keys that lead to it (outermost first). A
    lookup of a missing key raises `KeyError`. */
module StageOutputs {
  import opened Wrappers

  type Path = seq<string>
  type Outputs = map<Path, string>

  const Infrastructure: string := "stages/02-infrastructure"
  const Ingress: string := "stages/04-kubernetes-ingress"
  const Keycloak: string := "stages/05-kubernetes-keycloak"
  const KeycloakConfiguration: string := "stages/06-kubernetes-keycloak-configuration"
  const Services: string := "stages/07-kubernetes-services"

  /** `stage_outputs["stages/04-kubernetes-ingress"]["domain"]`: the one value
      read without a trailing `["value"]`. */
  const DomainPath: Path := [Ingress, "domain"]

  /** Whether a lookup along `path` raises no `KeyError`: some leaf lies at or
      below it. */
  predicate Present(outputs: Outputs, path: Path) {
    exists p | p in outputs :: path <= p
  }

  /** The first of `paths` (looked up in this order) holding no leaf, which is
      the one whose `KeyError` is raised. */
  function FirstMissing(outputs: Outputs, paths: seq<Path>): (m: Option<Path>)
    ensures m.None? <==> forall i :: 0 <= i < |paths| ==> paths[i] in outputs
    ensures m.Some? ==> m.value in paths && m.value !in outputs
  {
    if paths == [] then None
    else if paths[0] !in outputs then Some(paths[0])
    else FirstMissing(outputs, paths[1..])
  }

  /** `FirstMissing` reports the earliest missing path. */
  lemma {:induction false} FirstMissingIsFirst(outputs: Outputs, paths: seq<Path>, i: nat)
    requires i < |paths| && paths[i] !in outputs
    requires forall j :: 0 <= j < i ==> paths[j] in outputs
    ensures FirstMissing(outputs, paths) == Some(paths[i])
  {
    if i > 0 {
      FirstMissingIsFirst(outputs, paths[1..], i - 1);
    }
  }
}
