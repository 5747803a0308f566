/** The KServe InferenceService client (webhook-listener/src/kubernetes_client.py).

    The cluster's API server is the state of the client object: `services` maps a
    name to the stored object, `order` is the order the server lists them in, and
    `failing` names the verbs for which the server answers with an error other than
    404 or 409 (an outage, a permission problem). The ghost `calls` records every
    request the client sends, so that callers can state which requests were made. */
module Kubernetes {
  import opened Wrappers

  const InferenceServiceKind: string := "InferenceService"

  type Labels = map<string, string>

  /** The YAML manifest after `yaml.safe_load`: a document whose `kind` may be absent,
      or text that does not load as a mapping. */
  datatype Manifest =
    | Document(kind: Option<string>, labels: Labels, spec: string)
    | Unparsable

  datatype Condition = Condition(conditionType: string, status: string)

  /** The `status` block KServe's controller writes (the controller is not modelled). */
  datatype ServiceStatus = ServiceStatus(conditions: seq<Condition>, url: Option<string>)

  const NoStatus: ServiceStatus := ServiceStatus([], None)

  /** A stored InferenceService. */
  datatype Resource = Resource(name: string, uid: nat, createdAt: nat, labels: Labels,
                               spec: string, status: ServiceStatus)

  /** The dictionary `get_inference_service` and `list_inference_services` build. */
  datatype ServiceInfo = ServiceInfo(name: string, namespace: string, uid: nat, labels: Labels,
                                     creationTimestamp: nat, status: ServiceStatus)

  datatype ApplyStatus = Created | Updated

  /** The dictionary `create_inference_service` and `update_inference_service` return. */
  datatype Applied = Applied(status: ApplyStatus, name: string, namespace: string, uid: nat)

  /** The dictionary `delete_inference_service` returns; `alreadyDeleted` is the
      `note: already_deleted` of a 404. */
  datatype Deleted = Deleted(name: string, namespace: string, alreadyDeleted: bool)

  datatype Verb = GetVerb | CreateVerb | PatchVerb | DeleteVerb | ListVerb

  datatype ApiCall =
    | GetCall(name: string)
    | CreateCall(name: string)
    | PatchCall(name: string)
    | DeleteCall(name: string)
    | ListCall(selector: Option<Labels>)

  /** Why a `KubernetesClientError` was raised. */
  datatype Reason = InvalidKind(kind: Option<string>) | YamlError | ApiError(verb: Verb)

  /** The exception hierarchy: `InferenceServiceAlreadyExistsError` is a
      `KubernetesClientError`; `InferenceServiceNotFoundError` is declared in the
      source but never raised, so it has no case here. */
  datatype ClusterError = AlreadyExists(name: string) | ClientError(reason: Reason)

  /** The check both create and update make before sending anything. */
  function KindCheck(m: Manifest): (r: Option<Reason>)
    ensures r.None? <==> m.Document? && m.kind == Some(InferenceServiceKind)
  {
    match m
    case Unparsable => Some(YamlError)
    case Document(kind, _, _) => if kind == Some(InferenceServiceKind) then None else Some(InvalidKind(kind))
  }

  /** A label selector of `key=value` pairs selects the objects carrying all of them;
      `None` selects everything. */
  predicate Selects(selector: Option<Labels>, labels: Labels) {
    selector.None? || forall k :: k in selector.value ==> k in labels && labels[k] == selector.value[k]
  }

  function Info(r: Resource, namespace: string): (i: ServiceInfo)
    ensures i.name == r.name && i.namespace == namespace && i.labels == r.labels && i.uid == r.uid
  {
    ServiceInfo(r.name, namespace, r.uid, r.labels, r.createdAt, r.status)
  }

  /** The projection `list_inference_services` applies to each listed item. */
  function Project(items: seq<Resource>, namespace: string): (r: seq<ServiceInfo>)
    ensures |r| == |items|
    ensures forall i :: 0 <= i < |items| ==> r[i] == Info(items[i], namespace)
  {
    seq(|items|, i requires 0 <= i < |items| => Info(items[i], namespace))
  }

  /** The names in `order` whose objects the selector selects, in order. */
  function Selected(order: seq<string>, services: map<string, Resource>, selector: Option<Labels>): (r: seq<Resource>)
    requires forall n :: n in order ==> n in services
    ensures |r| <= |order|
    ensures forall i :: 0 <= i < |r| ==> Selects(selector, r[i].labels) && r[i] in services.Values
    decreases |order|
  {
    if order == [] then []
    else
      var rest := Selected(order[1..], services, selector);
      var o := services[order[0]];
      if Selects(selector, o.labels) then [o] + rest else rest
  }

  class KubernetesClient {
    const namespace: string
    var services: map<string, Resource>
    var order: seq<string>
    var failing: set<Verb>
    var nextUid: nat
    ghost var calls: seq<ApiCall>

    ghost predicate Valid()
      reads this
    {
      && (forall n :: n in services ==> services[n].name == n)
      && (forall n :: n in order <==> n in services)
      && (forall i, j :: 0 <= i < j < |order| ==> order[i] != order[j])
      && (forall n :: n in services ==> services[n].uid < nextUid)
    }

    /** What the API server would answer to a list request with this selector. */
    function Listing(selector: Option<Labels>): seq<Resource>
      reads this`services, this`order
      requires forall n :: n in order ==> n in services
    {
      Selected(order, services, selector)
    }

    constructor (namespace: string, failing: set<Verb>)
      ensures Valid() && this.namespace == namespace && this.failing == failing
      ensures services == map[] && order == [] && calls == []
    {
      this.namespace := namespace;
      this.failing := failing;
      services := map[];
      order := [];
      nextUid := 0;
      calls := [];
    }

    /** `get_inference_service`: a 404 is `None`, not an error. */
    method Get(name: string) returns (r: Result<Option<ServiceInfo>, ClusterError>)
      requires Valid()
      modifies this`calls
      ensures calls == old(calls) + [GetCall(name)]
      ensures r.Err? <==> GetVerb in failing
      ensures r.Err? ==> r.error == ClientError(ApiError(GetVerb))
      ensures r.Ok? ==> r.value == if name in services then Some(Info(services[name], namespace)) else None
    {
      calls := calls + [GetCall(name)];
      if GetVerb in failing {
        return Err(ClientError(ApiError(GetVerb)));
      }
      if name in services {
        return Ok(Some(Info(services[name], namespace)));
      }
      return Ok(None);
    }

    /** `create_inference_service`: the kind is checked before anything is sent; a
        name the server already holds is a 409, raised as AlreadyExists. */
    method Create(name: string, manifest: Manifest) returns (r: Result<Applied, ClusterError>)
      requires Valid()
      modifies this`services, this`order, this`nextUid, this`calls
      ensures Valid()
      ensures KindCheck(manifest).Some? ==>
        && r == Err(ClientError(KindCheck(manifest).value))
        && services == old(services) && order == old(order) && calls == old(calls)
      ensures KindCheck(manifest).None? ==> calls == old(calls) + [CreateCall(name)]
      ensures KindCheck(manifest).None? && CreateVerb in failing ==>
        r == Err(ClientError(ApiError(CreateVerb))) && services == old(services) && order == old(order)
      ensures KindCheck(manifest).None? && CreateVerb !in failing && name in old(services) ==>
        r == Err(AlreadyExists(name)) && services == old(services) && order == old(order)
      ensures KindCheck(manifest).None? && CreateVerb !in failing && name !in old(services) ==>
        && r == Ok(Applied(Created, name, namespace, old(nextUid)))
        && services == old(services)[name := Resource(name, old(nextUid), old(nextUid), manifest.labels, manifest.spec, NoStatus)]
        && order == old(order) + [name]
    {
      var bad := KindCheck(manifest);
      if bad.Some? {
        return Err(ClientError(bad.value));
      }
      calls := calls + [CreateCall(name)];
      if CreateVerb in failing {
        return Err(ClientError(ApiError(CreateVerb)));
      }
      if name in services {
        return Err(AlreadyExists(name));
      }
      var uid := nextUid;
      services := services[name := Resource(name, uid, uid, manifest.labels, manifest.spec, NoStatus)];
      order := order + [name];
      nextUid := nextUid + 1;
      return Ok(Applied(Created, name, namespace, uid));
    }

    /** `update_inference_service`'s outcome in one line: it fails exactly when the kind
        is wrong or a request it sends fails, and then the cluster keeps what it held;
        otherwise `name` holds the manifest. */
    ghost predicate Applies(name: string, manifest: Manifest, before: map<string, Resource>,
                            r: Result<Applied, ClusterError>)
      reads this
    {
      && (r.Ok? <==> KindCheck(manifest).None? && !UpdateFails(before, failing, name))
      && (r.Err? ==> services == before && r.error.ClientError?)
      && (r.Ok? ==> && r.value.name == name && r.value.namespace == namespace
                    && (r.value.status == Updated <==> name in before)
                    && name in services && services[name].labels == manifest.labels
                    && services[name].spec == manifest.spec)
    }

    /** `update_inference_service`: kind check, then a get; an existing object is
        patched (keeping its uid, creation time and status), a missing one created. */
    method Update(name: string, manifest: Manifest) returns (r: Result<Applied, ClusterError>)
      requires Valid()
      modifies this`services, this`order, this`nextUid, this`calls
      ensures Valid()
      ensures KindCheck(manifest).Some? ==>
        && r == Err(ClientError(KindCheck(manifest).value))
        && services == old(services) && order == old(order) && calls == old(calls)
      ensures KindCheck(manifest).None? && GetVerb in failing ==>
        && r == Err(ClientError(ApiError(GetVerb)))
        && calls == old(calls) + [GetCall(name)] && services == old(services) && order == old(order)
      ensures KindCheck(manifest).None? && GetVerb !in failing && name in old(services) ==>
        && calls == old(calls) + [GetCall(name), PatchCall(name)] && order == old(order)
        && (PatchVerb in failing ==> r == Err(ClientError(ApiError(PatchVerb))) && services == old(services))
        && (PatchVerb !in failing ==>
              && r == Ok(Applied(Updated, name, namespace, old(services)[name].uid))
              && services == old(services)[name := old(services)[name].(labels := manifest.labels, spec := manifest.spec)])
      ensures KindCheck(manifest).None? && GetVerb !in failing && name !in old(services) ==>
        && calls == old(calls) + [GetCall(name), CreateCall(name)]
        && (CreateVerb in failing ==> r == Err(ClientError(ApiError(CreateVerb))) && services == old(services) && order == old(order))
        && (CreateVerb !in failing ==>
              && r == Ok(Applied(Created, name, namespace, old(nextUid)))
              && services == old(services)[name := Resource(name, old(nextUid), old(nextUid), manifest.labels, manifest.spec, NoStatus)]
              && order == old(order) + [name])
      ensures Applies(name, manifest, old(services), r)
      ensures UpdateEffect(old(services), failing, name, manifest, services)
      ensures calls == old(calls) + UpdateCalls(old(services), failing, name, manifest)
    {
      var bad := KindCheck(manifest);
      if bad.Some? {
        return Err(ClientError(bad.value));
      }
      var existing := Get(name);
      if existing.Err? {
        return Err(existing.error);
      }
      if existing.value.Some? {
        calls := calls + [PatchCall(name)];
        if PatchVerb in failing {
          return Err(ClientError(ApiError(PatchVerb)));
        }
        var o := services[name];
        services := services[name := o.(labels := manifest.labels, spec := manifest.spec)];
        return Ok(Applied(Updated, name, namespace, o.uid));
      }
      r := Create(name, manifest);
    }

    /** `delete_inference_service`: a 404 counts as success, noted as already deleted. */
    method Delete(name: string) returns (r: Result<Deleted, ClusterError>)
      requires Valid()
      modifies this`services, this`order, this`calls
      ensures Valid()
      ensures calls == old(calls) + [DeleteCall(name)]
      ensures DeleteVerb in failing ==>
        r == Err(ClientError(ApiError(DeleteVerb))) && services == old(services) && order == old(order)
      ensures DeleteVerb !in failing ==>
        && r == Ok(Deleted(name, namespace, name !in old(services)))
        && services == old(services) - {name}
        && order == RemoveName(old(order), name)
    {
      calls := calls + [DeleteCall(name)];
      if DeleteVerb in failing {
        return Err(ClientError(ApiError(DeleteVerb)));
      }
      if name !in services {
        assert services - {name} == services;
        RemoveAbsentName(order, name);
        return Ok(Deleted(name, namespace, true));
      }
      RemoveNameKeeps(order, name);
      services := services - {name};
      order := RemoveName(order, name);
      return Ok(Deleted(name, namespace, false));
    }

    /** `list_inference_services`: the selector goes to the server unchanged, and
        each item it returns is projected, in order. */
    method List(selector: Option<Labels>) returns (r: Result<seq<ServiceInfo>, ClusterError>)
      requires Valid()
      modifies this`calls
      ensures calls == old(calls) + [ListCall(selector)]
      ensures ListVerb in failing ==> r == Err(ClientError(ApiError(ListVerb)))
      ensures ListVerb !in failing ==> r == Ok(Project(Listing(selector), namespace))
    {
      calls := calls + [ListCall(selector)];
      if ListVerb in failing {
        return Err(ClientError(ApiError(ListVerb)));
      }
      var items := Listing(selector);
      var out: seq<ServiceInfo> := [];
      var i := 0;
      while i < |items|
        invariant 0 <= i <= |items|
        invariant out == Project(items[..i], namespace)
      {
        out := out + [Info(items[i], namespace)];
        i := i + 1;
      }
      assert items[..i] == items;
      return Ok(out);
    }
  }

  /** Whether `update_inference_service` on `name` meets an API error, given what the
      cluster holds and which verbs fail: the get, then the patch of an existing
      object or the create of a missing one. */
  predicate UpdateFails(services: map<string, Resource>, failing: set<Verb>, name: string) {
    GetVerb in failing || (if name in services then PatchVerb in failing else CreateVerb in failing)
  }

  /** The requests `update_inference_service` sends for `name`: none when the kind is
      wrong; otherwise the get and, unless it fails, the patch of an existing object
      or the create of a missing one. */
  function UpdateCalls(services: map<string, Resource>, failing: set<Verb>, name: string, manifest: Manifest)
    : (c: seq<ApiCall>)
    ensures c == [] <==> KindCheck(manifest).Some?
    ensures c != [] ==> c[0] == GetCall(name) && (|c| == 1 <==> GetVerb in failing) && |c| <= 2
    ensures |c| == 2 ==> c[1] == if name in services then PatchCall(name) else CreateCall(name)
  {
    if KindCheck(manifest).Some? then []
    else if GetVerb in failing then [GetCall(name)]
    else if name in services then [GetCall(name), PatchCall(name)]
    else [GetCall(name), CreateCall(name)]
  }

  /** Every service other than `name` is as it was. */
  predicate OthersKept(before: map<string, Resource>, after: map<string, Resource>, name: string) {
    && (forall n :: n in before && n != name ==> n in after && after[n] == before[n])
    && (forall n :: n in after && n != name ==> n in before)
  }

  /** What `update_inference_service` leaves behind: the other services untouched;
      nothing changed when the kind is wrong or a request fails; otherwise `name`
      holding the manifest's labels and spec. */
  predicate UpdateEffect(before: map<string, Resource>, failing: set<Verb>, name: string, m: Manifest,
                         after: map<string, Resource>)
  {
    && OthersKept(before, after, name)
    && (KindCheck(m).Some? || UpdateFails(before, failing, name) ==> after == before)
    && (KindCheck(m).None? && !UpdateFails(before, failing, name) ==>
          name in after && after[name].labels == m.labels && after[name].spec == m.spec)
  }

  /** `order` without `name`. */
  function RemoveName(order: seq<string>, name: string): (r: seq<string>)
    ensures forall n :: n in r <==> n in order && n != name
    ensures |r| <= |order|
  {
    if order == [] then []
    else if order[0] == name then RemoveName(order[1..], name)
    else [order[0]] + RemoveName(order[1..], name)
  }

  lemma {:induction false} RemoveNameKeeps(order: seq<string>, name: string)
    requires forall i, j :: 0 <= i < j < |order| ==> order[i] != order[j]
    ensures forall i, j :: 0 <= i < j < |RemoveName(order, name)| ==> RemoveName(order, name)[i] != RemoveName(order, name)[j]
    decreases |order|
  {
    if order != [] {
      RemoveNameKeeps(order[1..], name);
      if order[0] != name {
        assert order[0] !in order[1..];
      }
    }
  }

  lemma {:induction false} RemoveAbsentName(order: seq<string>, name: string)
    requires name !in order
    ensures RemoveName(order, name) == order
    decreases |order|
  {
    if order != [] {
      RemoveAbsentName(order[1..], name);
    }
  }

  /** Every stored object the selector selects is listed. */
  lemma {:induction false} SelectedComplete(order: seq<string>, services: map<string, Resource>,
                                            selector: Option<Labels>, n: string)
    requires forall m :: m in order ==> m in services
    requires n in order && Selects(selector, services[n].labels)
    ensures services[n] in Selected(order, services, selector)
    decreases |order|
  {
    if order[0] != n {
      SelectedComplete(order[1..], services, selector, n);
    }
  }

  /** Delete is idempotent: a second delete of the same name succeeds too, and reports
      that the object was already gone. */
  method DeleteTwice(c: KubernetesClient, name: string) returns (first: Result<Deleted, ClusterError>, second: Result<Deleted, ClusterError>)
    requires c.Valid() && DeleteVerb !in c.failing
    modifies c
    ensures c.Valid() && name !in c.services
    ensures first.Ok? && second.Ok? && second.value == Deleted(name, c.namespace, true)
  {
    first := c.Delete(name);
    second := c.Delete(name);
  }
}
