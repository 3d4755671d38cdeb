/**
 * The `openstack_workflow_cron_trigger_v2` resource: create, read and
 * delete of a Mistral cron trigger, over the resource's state and the
 * triggers the service holds.
 */
module CronTriggerResource {
  import opened Wrappers
  import opened ResourceData
  import opened Lifecycle

  /** A cron trigger as the service returns it. */
  datatype CronTrigger = CronTrigger(
    id: string, name: string, workflowId: string, workflowName: string,
    workflowInput: map<string, string>, workflowParams: map<string, string>,
    pattern: string, remainingExecutions: int, projectId: string, createdAt: string)

  /** `crontriggers.CreateOpts`. */
  datatype CreateOpts = CreateOpts(
    name: string, workflowId: string, workflowName: string,
    workflowInput: map<string, string>, workflowParams: map<string, string>,
    pattern: string, remainingExecutions: int)

  const RetrieveMessage: string := "Error retrieving openstack_workflow_cron_trigger_v2"
  const DeleteMessage: string := "Error deleting openstack_workflow_cron_trigger_v2"
  const MissingWorkflowMessage: string := "Either \"workflow_id\" or \"workflow_name\" must be set"

  function CreateError(cause: string): string {
    "Unable to create openstack_workflow_cron_trigger_v2: " + cause
  }

  /** The create request built from the configuration. */
  function CreateOptsOf(a: Attributes): (o: CreateOpts)
    ensures o.name == GetString(a, "name") && o.pattern == GetString(a, "pattern")
    ensures o.workflowId == GetString(a, "workflow_id") && o.workflowName == GetString(a, "workflow_name")
    ensures o.workflowInput == GetDict(a, "workflow_input") && o.workflowParams == GetDict(a, "workflow_params")
    ensures o.remainingExecutions == GetInt(a, "remaining_executions")
  {
    CreateOpts(
      GetString(a, "name"), GetString(a, "workflow_id"), GetString(a, "workflow_name"),
      GetDict(a, "workflow_input"), GetDict(a, "workflow_params"),
      GetString(a, "pattern"), GetInt(a, "remaining_executions"))
  }

  /** The keys `Read` writes. */
  const ReadKeys: set<string> := {
    "name", "region", "workflow_id", "workflow_name", "workflow_input",
    "workflow_params", "pattern", "remaining_executions", "project_id", "created_at"
  }

  /** The state after `Read` has copied trigger `t` into `a`. */
  function ReadInto(a: Attributes, region: string, t: CronTrigger): (r: Attributes)
    ensures forall k :: k in a ==> k in r
    ensures forall k :: k in a && k !in ReadKeys ==> r[k] == a[k]
    ensures GetString(r, "region") == region
  {
    a["name" := Str(t.name)]
     ["region" := Str(region)]
     ["workflow_id" := Str(t.workflowId)]
     ["workflow_name" := Str(t.workflowName)]
     ["workflow_input" := Dict(t.workflowInput)]
     ["workflow_params" := Dict(t.workflowParams)]
     ["pattern" := Str(t.pattern)]
     ["remaining_executions" := Int(t.remainingExecutions)]
     ["project_id" := Str(t.projectId)]
     ["created_at" := Str(t.createdAt)]
  }

  /** The trigger the state `a` describes, for the resource with id `id`. */
  function View(a: Attributes, id: string): CronTrigger {
    CronTrigger(
      id, GetString(a, "name"), GetString(a, "workflow_id"), GetString(a, "workflow_name"),
      GetDict(a, "workflow_input"), GetDict(a, "workflow_params"),
      GetString(a, "pattern"), GetInt(a, "remaining_executions"),
      GetString(a, "project_id"), GetString(a, "created_at"))
  }

  /** After a read the state describes exactly the trigger the service returned. */
  lemma ViewAfterRead(a: Attributes, region: string, t: CronTrigger)
    ensures View(ReadInto(a, region, t), t.id) == t
  {
    var r := ReadInto(a, region, t);
    assert r["name"] == Str(t.name);
    assert r["workflow_id"] == Str(t.workflowId);
    assert r["workflow_name"] == Str(t.workflowName);
    assert r["workflow_input"] == Dict(t.workflowInput);
    assert r["workflow_params"] == Dict(t.workflowParams);
    assert r["pattern"] == Str(t.pattern);
    assert r["remaining_executions"] == Int(t.remainingExecutions);
    assert r["project_id"] == Str(t.projectId);
  }

  /** Reading the same trigger twice leaves the state as one read does. */
  lemma ReadIsIdempotent(a: Attributes, region: string, t: CronTrigger)
    ensures ReadInto(ReadInto(a, region, t), region, t) == ReadInto(a, region, t)
  {
  }

  /** The values `Create` writes back after the service accepted the request. */
  function CreateEcho(a: Attributes): (r: Attributes)
    ensures CreateOptsOf(r) == CreateOptsOf(a)
    ensures forall k :: k in a && k != "project_id" ==> k in r
  {
    a["name" := Str(GetString(a, "name"))]
     ["workflow_id" := Str(GetString(a, "workflow_id"))]
     ["workflow_name" := Str(GetString(a, "workflow_name"))]
     ["workflow_input" := Dict(GetDict(a, "workflow_input"))]
     ["workflow_params" := Dict(GetDict(a, "workflow_params"))]
     ["pattern" := Str(GetString(a, "pattern"))]
     ["remaining_executions" := Int(GetInt(a, "remaining_executions"))]
     ["project_id" := Str(GetString(a, "project_id"))]
  }

  /**
   * One cron trigger resource: its state (`id`, "" when unset, and
   * `attrs`), the triggers the service holds, and the create requests
   * sent so far.
   */
  class Resource {
    var id: string
    var attrs: Attributes
    var remote: map<string, CronTrigger>
    var sent: seq<CreateOpts>

    constructor (config: Attributes, remote: map<string, CronTrigger>)
      ensures id == "" && attrs == config && this.remote == remote && sent == []
    {
      id := "";
      attrs := config;
      this.remote := remote;
      sent := [];
    }

    /**
     * `resourceWorkflowCronTriggerV2Read`. `clientErr` is the failure to
     * build the workflow client, `failure` a transport failure of the `Get`.
     */
    method Read(region: string, clientErr: Option<string>, failure: Option<string>)
      returns (diags: seq<string>)
      modifies this
      ensures remote == old(remote) && sent == old(sent)
      ensures clientErr.Some? ==>
        diags == [ClientError(clientErr.value)] && id == old(id) && attrs == old(attrs)
      ensures clientErr.None? && failure.Some? ==>
        diags == [RetrieveMessage + " " + old(id) + ": " + failure.value] && id == old(id) && attrs == old(attrs)
      ensures clientErr.None? && failure.None? && old(id) !in old(remote) ==>
        diags == [] && id == "" && attrs == old(attrs)
      ensures clientErr.None? && failure.None? && old(id) in old(remote) ==>
        diags == [] && id == old(id) && attrs == ReadInto(old(attrs), region, old(remote)[old(id)])
    {
      if clientErr.Some? {
        return [ClientError(clientErr.value)];
      }
      var got := Lookup(remote, id, failure);
      if got.Err? {
        var checked := CheckDeleted(id, got.error, RetrieveMessage);
        id := checked.id;
        if checked.err.Some? {
          return [checked.err.value];
        }
        return [];
      }
      attrs := ReadInto(attrs, region, got.value);
      return [];
    }

    /**
     * `resourceWorkflowCronTriggerV2Create`. `response` is the service's
     * answer to the create request (the new trigger, which it then holds,
     * or an error); `readFailure` is passed to the `Read` that follows.
     */
    method Create(region: string, clientErr: Option<string>,
                  response: Result<CronTrigger, string>, readFailure: Option<string>)
      returns (diags: seq<string>)
      modifies this
      ensures clientErr.Some? ==>
        diags == [ClientError(clientErr.value)] &&
        id == old(id) && attrs == old(attrs) && remote == old(remote) && sent == old(sent)
      ensures clientErr.None? && GetString(old(attrs), "workflow_id") == "" && GetString(old(attrs), "workflow_name") == "" ==>
        diags == [MissingWorkflowMessage] &&
        id == old(id) && attrs == old(attrs) && remote == old(remote) && sent == old(sent)
      ensures clientErr.None? && (GetString(old(attrs), "workflow_id") != "" || GetString(old(attrs), "workflow_name") != "") ==>
        sent == old(sent) + [CreateOptsOf(old(attrs))]
      ensures clientErr.None? && (GetString(old(attrs), "workflow_id") != "" || GetString(old(attrs), "workflow_name") != "") &&
              response.Err? ==>
        diags == [CreateError(response.error)] && id == old(id) && attrs == old(attrs) && remote == old(remote)
      ensures clientErr.None? && (GetString(old(attrs), "workflow_id") != "" || GetString(old(attrs), "workflow_name") != "") &&
              response.Ok? ==>
        var t := response.value;
        remote == old(remote)[t.id := t] && id == t.id &&
        (readFailure.None? ==> diags == [] && attrs == ReadInto(CreateEcho(old(attrs)), region, t)) &&
        (readFailure.Some? ==> diags == [RetrieveMessage + " " + t.id + ": " + readFailure.value] &&
                               attrs == CreateEcho(old(attrs)))
    {
      if clientErr.Some? {
        return [ClientError(clientErr.value)];
      }
      var opts := CreateOptsOf(attrs);
      if opts.workflowId == "" && opts.workflowName == "" {
        return [MissingWorkflowMessage];
      }
      sent := sent + [opts];
      if response.Err? {
        return [CreateError(response.error)];
      }
      var trigger := response.value;
      remote := remote[trigger.id := trigger];
      id := trigger.id;
      attrs := CreateEcho(attrs);
      diags := Read(region, None, readFailure);
    }

    /**
     * `resourceWorkflowCronTriggerV2Delete`. A trigger the service no
     * longer has is not an error: the id is cleared.
     */
    method Delete(region: string, clientErr: Option<string>, failure: Option<string>)
      returns (diags: seq<string>)
      modifies this
      ensures attrs == old(attrs) && sent == old(sent)
      ensures clientErr.Some? ==>
        diags == [ClientError(clientErr.value)] && id == old(id) && remote == old(remote)
      ensures clientErr.None? && failure.Some? ==>
        diags == [DeleteMessage + " " + old(id) + ": " + failure.value] && id == old(id) && remote == old(remote)
      ensures clientErr.None? && failure.None? ==>
        diags == [] && old(id) !in remote && remote == old(remote) - {old(id)} &&
        id == (if old(id) in old(remote) then old(id) else "")
    {
      if clientErr.Some? {
        return [ClientError(clientErr.value)];
      }
      var got := Lookup(remote, id, failure);
      if got.Err? {
        var checked := CheckDeleted(id, got.error, DeleteMessage);
        id := checked.id;
        if checked.err.Some? {
          return [checked.err.value];
        }
        return [];
      }
      remote := remote - {id};
      return [];
    }
  }

  /** A trigger created and read back is what the state then describes. */
  method CreateAndRead(r: Resource, region: string, t: CronTrigger) returns (diags: seq<string>)
    requires GetString(r.attrs, "workflow_id") != "" || GetString(r.attrs, "workflow_name") != ""
    modifies r
    ensures diags == [] && r.id == t.id && t.id in r.remote && r.remote[t.id] == t
    ensures View(r.attrs, r.id) == t
  {
    diags := r.Create(region, None, Ok(t), None);
    ViewAfterRead(CreateEcho(old(r.attrs)), region, t);
  }

  /**
   * Deleting an existing trigger twice succeeds both times: the second
   * call finds nothing and clears the id.
   */
  method DeleteTwice(r: Resource, region: string) returns (first: seq<string>, second: seq<string>)
    requires r.id in r.remote
    modifies r
    ensures first == [] && second == []
    ensures r.id == "" && r.remote == old(r.remote) - {old(r.id)}
  {
    first := r.Delete(region, None, None);
    second := r.Delete(region, None, None);
  }

  /** A trigger deleted outside Terraform drops out of state on the next read, without an error. */
  method ReadAfterOutOfBandDelete(r: Resource, region: string) returns (diags: seq<string>)
    requires r.id !in r.remote
    modifies r
    ensures diags == [] && r.id == "" && r.attrs == old(r.attrs)
  {
    diags := r.Read(region, None, None);
  }
}
