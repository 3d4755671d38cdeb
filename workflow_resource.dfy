/**
 * The `openstack_workflow_workflow_v2` resource: a Mistral workflow
 * created from a YAML definition, read back, and deleted.
 */
module WorkflowResource {
  import opened Wrappers
  import opened ResourceData
  import opened Lifecycle
  import VerifyYAML

  /** A workflow as the service returns it. */
  datatype Workflow = Workflow(
    id: string, name: string, scope: string, namespace: string, definition: string,
    input: string, tags: set<string>, projectId: string, createdAt: string)

  /** `workflows.CreateOpts`, with the definition as the text sent. */
  datatype CreateOpts = CreateOpts(scope: string, namespace: string, definition: string)

  const RetrieveMessage: string := "Error retrieving openstack_workflow_workflow_v2"
  const DeleteMessage: string := "Error deleting openstack_workflow_workflow_v2"

  function CreateError(cause: string): string {
    "Unable to create openstack_workflow_workflow_v2: " + cause
  }

  function ParseError(cause: string): string {
    "Unable to parse definition: " + cause
  }

  /**
   * The `definition` attribute's StateFunc: state keeps the line-end
   * rewrite of the configured text, whether or not it parses.
   */
  function DefinitionState(v: string, isYAML: string -> bool, yamlError: string -> string): (r: string)
    ensures r == VerifyYAML.ReplaceCRLF(v)
    ensures |r| <= |v|
  {
    VerifyYAML.NormalizedTextIgnoresParser(v, isYAML, yamlError);
    VerifyYAML.ReplaceRemovesOnlyCR(v);
    VerifyYAML.NormalizeYAMLString(Some(v), isYAML, yamlError).text
  }

  /**
   * The services's record of the workflows one definition created: each
   * is stored under its id, later ones over earlier ones.
   */
  function Register(remote: map<string, Workflow>, ws: seq<Workflow>): map<string, Workflow>
    decreases |ws|
  {
    if ws == [] then remote else Register(remote[ws[0].id := ws[0]], ws[1..])
  }

  lemma {:induction false} RegisterDomain(remote: map<string, Workflow>, ws: seq<Workflow>)
    ensures Register(remote, ws).Keys == remote.Keys + set w | w in ws :: w.id
    decreases |ws|
  {
    if ws != [] {
      RegisterDomain(remote[ws[0].id := ws[0]], ws[1..]);
      assert forall w :: w in ws <==> w == ws[0] || w in ws[1..];
    }
  }

  /** The last workflow of the list is the one stored under its id. */
  lemma {:induction false} RegisterKeepsLast(remote: map<string, Workflow>, ws: seq<Workflow>)
    requires |ws| > 0
    ensures ws[|ws| - 1].id in Register(remote, ws)
    ensures Register(remote, ws)[ws[|ws| - 1].id] == ws[|ws| - 1]
    decreases |ws|
  {
    if |ws| > 1 {
      RegisterKeepsLast(remote[ws[0].id := ws[0]], ws[1..]);
    }
  }

  /** The keys `Read` writes. */
  const ReadKeys: set<string> := {
    "region", "name", "scope", "namespace", "definition", "input", "tags", "project_id", "created_at"
  }

  /** The state after `Read` has copied workflow `w` into `a`. */
  function ReadInto(a: Attributes, region: string, w: Workflow): (r: Attributes)
    ensures forall k :: k in a ==> k in r
    ensures forall k :: k in a && k !in ReadKeys ==> r[k] == a[k]
    ensures GetString(r, "region") == region
  {
    a["region" := Str(region)]
     ["name" := Str(w.name)]
     ["scope" := Str(w.scope)]
     ["namespace" := Str(w.namespace)]
     ["definition" := Str(w.definition)]
     ["input" := Str(w.input)]
     ["tags" := Tags(w.tags)]
     ["scope" := Str(w.scope)]
     ["project_id" := Str(w.projectId)]
     ["created_at" := Str(w.createdAt)]
  }

  /** The workflow the state `a` describes, for the resource with id `id`. */
  function View(a: Attributes, id: string): Workflow {
    Workflow(
      id, GetString(a, "name"), GetString(a, "scope"), GetString(a, "namespace"),
      GetString(a, "definition"), GetString(a, "input"), GetTags(a, "tags"),
      GetString(a, "project_id"), GetString(a, "created_at"))
  }

  /** After a read the state describes exactly the workflow the service returned. */
  lemma ViewAfterRead(a: Attributes, region: string, w: Workflow)
    ensures View(ReadInto(a, region, w), w.id) == w
  {
    var r := ReadInto(a, region, w);
    assert r["name"] == Str(w.name);
    assert r["scope"] == Str(w.scope);
    assert r["namespace"] == Str(w.namespace);
    assert r["definition"] == Str(w.definition);
    assert r["input"] == Str(w.input);
    assert r["tags"] == Tags(w.tags);
    assert r["project_id"] == Str(w.projectId);
  }

  /**
   * The values `Create` writes after the service accepted the request:
   * the normalised definition and what the returned workflow says.
   */
  function CreateEcho(a: Attributes, definition: string, w: Workflow): (r: Attributes)
    ensures GetString(r, "definition") == definition && GetString(r, "scope") == w.scope
    ensures GetString(r, "namespace") == GetString(a, "namespace")
  {
    a["name" := Str(w.name)]
     ["scope" := Str(GetString(a, "scope"))]
     ["namespace" := Str(GetString(a, "namespace"))]
     ["definition" := Str(definition)]
     ["input" := Str(w.input)]
     ["tags" := Tags(w.tags)]
     ["scope" := Str(w.scope)]
     ["project_id" := Str(w.projectId)]
     ["created_at" := Str(w.createdAt)]
  }

  /**
   * One workflow resource: its state (`id`, "" when unset, and `attrs`),
   * the workflows the service holds, and the create requests sent so far.
   */
  class Resource {
    var id: string
    var attrs: Attributes
    var remote: map<string, Workflow>
    var sent: seq<CreateOpts>

    constructor (config: Attributes, remote: map<string, Workflow>)
      ensures id == "" && attrs == config && this.remote == remote && sent == []
    {
      id := "";
      attrs := config;
      this.remote := remote;
      sent := [];
    }

    /**
     * `resourceWorkflowWorkflowV2Read`. `clientErr` is the failure to
     * build the workflow client, `failure` a transport failure of the `Get`.
     */
    method Read(region: string, clientErr: Option<string>, failure: Option<string>)
      returns (diags: seq<string>)
      modifies this
      ensures remote == old(remote) && sent == old(sent)
      ensures clientErr.Some? ==>
        diags == [ClientError(clientErr.value)] && id == old(id) && attrs == old(attrs)
      ensures clientErr.None? && failure.Some? ==>
        diags == [RetrieveMessage + " " + old(id) + ": " + failure.value] && id == old(id) && attrs == old(attrs)
      ensures clientErr.None? && failure.None? && old(id) !in old(remote) ==>
        diags == [] && id == "" && attrs == old(attrs)
      ensures clientErr.None? && failure.None? && old(id) in old(remote) ==>
        diags == [] && id == old(id) && attrs == ReadInto(old(attrs), region, old(remote)[old(id)])
    {
      if clientErr.Some? {
        return [ClientError(clientErr.value)];
      }
      var got := Lookup(remote, id, failure);
      if got.Err? {
        var checked := CheckDeleted(id, got.error, RetrieveMessage);
        id := checked.id;
        if checked.err.Some? {
          return [checked.err.value];
        }
        return [];
      }
      attrs := ReadInto(attrs, region, got.value);
      return [];
    }

    /**
     * `resourceWorkflowWorkflowV2Create`. `isYAML`/`yamlError` stand for
     * the YAML parser; `response` is the service's answer (the workflows
     * the definition created, which it then holds, or an error);
     * `readFailure` is passed to the `Read` that follows. The resource
     * takes the last workflow of the list.
     */
    method Create(region: string, clientErr: Option<string>,
                  isYAML: string -> bool, yamlError: string -> string,
                  response: Result<seq<Workflow>, string>, readFailure: Option<string>)
      returns (diags: seq<string>)
      requires response.Ok? ==> |response.value| > 0
      modifies this
      ensures clientErr.Some? ==>
        diags == [ClientError(clientErr.value)] &&
        id == old(id) && attrs == old(attrs) && remote == old(remote) && sent == old(sent)
      ensures clientErr.None? && !isYAML(VerifyYAML.ReplaceCRLF(GetString(old(attrs), "definition"))) &&
              GetString(old(attrs), "definition") != "" ==>
        diags == [ParseError(yamlError(VerifyYAML.ReplaceCRLF(GetString(old(attrs), "definition"))))] &&
        id == old(id) && attrs == old(attrs) && remote == old(remote) && sent == old(sent)
      ensures clientErr.None? && (isYAML(VerifyYAML.ReplaceCRLF(GetString(old(attrs), "definition"))) ||
                                 GetString(old(attrs), "definition") == "") ==>
        sent == old(sent) + [CreateOpts(GetString(old(attrs), "scope"), GetString(old(attrs), "namespace"),
                                        VerifyYAML.ReplaceCRLF(GetString(old(attrs), "definition")))]
      ensures clientErr.None? && |sent| > |old(sent)| && response.Err? ==>
        diags == [CreateError(response.error)] && id == old(id) && attrs == old(attrs) && remote == old(remote)
      ensures clientErr.None? && |sent| > |old(sent)| && response.Ok? ==>
        var w := response.value[|response.value| - 1];
        var echo := CreateEcho(old(attrs), VerifyYAML.ReplaceCRLF(GetString(old(attrs), "definition")), w);
        remote == Register(old(remote), response.value) && id == w.id &&
        (readFailure.None? ==> diags == [] && attrs == ReadInto(echo, region, w)) &&
        (readFailure.Some? ==> diags == [RetrieveMessage + " " + w.id + ": " + readFailure.value] && attrs == echo)
    {
      if clientErr.Some? {
        return [ClientError(clientErr.value)];
      }
      var normalized := VerifyYAML.NormalizeYAMLString(Some(GetString(attrs, "definition")), isYAML, yamlError);
      VerifyYAML.NormalizedTextIgnoresParser(GetString(attrs, "definition"), isYAML, yamlError);
      if normalized.err.Some? {
        return [ParseError(normalized.err.value)];
      }
      var definition := normalized.text;
      sent := sent + [CreateOpts(GetString(attrs, "scope"), GetString(attrs, "namespace"), definition)];
      if response.Err? {
        return [CreateError(response.error)];
      }
      var workflows := response.value;
      remote := Register(remote, workflows);
      var workflow := workflows[|workflows| - 1];
      RegisterKeepsLast(old(remote), workflows);
      id := workflow.id;
      attrs := CreateEcho(attrs, definition, workflow);
      diags := Read(region, None, readFailure);
    }

    /** `resourceWorkflowWorkflowV2Delete`. */
    method Delete(region: string, clientErr: Option<string>, failure: Option<string>)
      returns (diags: seq<string>)
      modifies this
      ensures attrs == old(attrs) && sent == old(sent)
      ensures clientErr.Some? ==>
        diags == [ClientError(clientErr.value)] && id == old(id) && remote == old(remote)
      ensures clientErr.None? && failure.Some? ==>
        diags == [DeleteMessage + " " + old(id) + ": " + failure.value] && id == old(id) && remote == old(remote)
      ensures clientErr.None? && failure.None? ==>
        diags == [] && old(id) !in remote && remote == old(remote) - {old(id)} &&
        id == (if old(id) in old(remote) then old(id) else "")
    {
      if clientErr.Some? {
        return [ClientError(clientErr.value)];
      }
      var got := Lookup(remote, id, failure);
      if got.Err? {
        var checked := CheckDeleted(id, got.error, DeleteMessage);
        id := checked.id;
        if checked.err.Some? {
          return [checked.err.value];
        }
        return [];
      }
      remote := remote - {id};
      return [];
    }
  }

  /**
   * A definition that creates several workflows leaves the resource
   * tracking the last one, and a read then describes it.
   */
  method CreateTracksLastWorkflow(r: Resource, region: string, isYAML: string -> bool, yamlError: string -> string,
                                  ws: seq<Workflow>)
    returns (diags: seq<string>)
    requires |ws| > 0 && isYAML(VerifyYAML.ReplaceCRLF(GetString(r.attrs, "definition")))
    modifies r
    ensures diags == [] && r.id == ws[|ws| - 1].id
    ensures View(r.attrs, r.id) == ws[|ws| - 1]
    ensures forall w :: w in ws ==> w.id in r.remote
  {
    diags := r.Create(region, None, isYAML, yamlError, Ok(ws), None);
    var w := ws[|ws| - 1];
    RegisterKeepsLast(old(r.remote), ws);
    RegisterDomain(old(r.remote), ws);
    ViewAfterRead(CreateEcho(old(r.attrs), VerifyYAML.ReplaceCRLF(GetString(old(r.attrs), "definition")), w), region, w);
  }
}
