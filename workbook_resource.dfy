/**
 * The `openstack_workflow_workbook_v2` resource: a Mistral workbook
 * created from a YAML definition, read back, and deleted.
 */
module WorkbookResource {
  import opened Wrappers
  import opened ResourceData
  import opened Lifecycle
  import VerifyYAML

  /** A workbook as the service returns it. */
  datatype Workbook = Workbook(
    id: string, name: string, scope: string, namespace: string, definition: string,
    tags: set<string>, projectId: string, createdAt: string)

  /** `workbooks.CreateOpts`, with the definition as the text sent. */
  datatype CreateOpts = CreateOpts(scope: string, namespace: string, definition: string)

  const RetrieveMessage: string := "Error retrieving openstack_workflow_workbook_v2"
  const DeleteMessage: string := "Error deleting openstack_workflow_workbook_v2"

  function CreateError(cause: string): string {
    "Unable to create openstack_workflow_workbook_v2: " + cause
  }

  function ParseError(cause: string): string {
    "Unable to parse definition: " + cause
  }

  /** The keys `Read` writes. */
  const ReadKeys: set<string> := {
    "region", "name", "scope", "namespace", "definition", "tags", "project_id", "created_at"
  }

  /** The state after `Read` has copied workbook `b` into `a`. */
  function ReadInto(a: Attributes, region: string, b: Workbook): (r: Attributes)
    ensures forall k :: k in a ==> k in r
    ensures forall k :: k in a && k !in ReadKeys ==> r[k] == a[k]
    ensures GetString(r, "region") == region
  {
    a["region" := Str(region)]
     ["name" := Str(b.name)]
     ["scope" := Str(b.scope)]
     ["namespace" := Str(b.namespace)]
     ["definition" := Str(b.definition)]
     ["tags" := Tags(b.tags)]
     ["scope" := Str(b.scope)]
     ["project_id" := Str(b.projectId)]
     ["created_at" := Str(b.createdAt)]
  }

  /** The workbook the state `a` describes, for the resource with id `id`. */
  function View(a: Attributes, id: string): Workbook {
    Workbook(
      id, GetString(a, "name"), GetString(a, "scope"), GetString(a, "namespace"),
      GetString(a, "definition"), GetTags(a, "tags"),
      GetString(a, "project_id"), GetString(a, "created_at"))
  }

  /** After a read the state describes exactly the workbook the service returned. */
  lemma ViewAfterRead(a: Attributes, region: string, b: Workbook)
    ensures View(ReadInto(a, region, b), b.id) == b
  {
    var r := ReadInto(a, region, b);
    assert r["name"] == Str(b.name);
    assert r["scope"] == Str(b.scope);
    assert r["namespace"] == Str(b.namespace);
    assert r["definition"] == Str(b.definition);
    assert r["tags"] == Tags(b.tags);
    assert r["project_id"] == Str(b.projectId);
  }

  /**
   * The values `Create` writes after the service accepted the request:
   * the region, the normalised definition, and what the returned workbook
   * says.
   */
  function CreateEcho(a: Attributes, region: string, definition: string, b: Workbook): (r: Attributes)
    ensures GetString(r, "region") == region && GetString(r, "definition") == definition
    ensures GetString(r, "scope") == b.scope && GetString(r, "namespace") == GetString(a, "namespace")
  {
    a["region" := Str(region)]
     ["scope" := Str(GetString(a, "scope"))]
     ["namespace" := Str(GetString(a, "namespace"))]
     ["definition" := Str(definition)]
     ["name" := Str(b.name)]
     ["tags" := Tags(b.tags)]
     ["scope" := Str(b.scope)]
     ["project_id" := Str(b.projectId)]
     ["created_at" := Str(b.createdAt)]
  }

  /**
   * One workbook resource: its state (`id`, "" when unset, and `attrs`),
   * the workbooks the service holds, and the create requests sent so far.
   */
  class Resource {
    var id: string
    var attrs: Attributes
    var remote: map<string, Workbook>
    var sent: seq<CreateOpts>

    constructor (config: Attributes, remote: map<string, Workbook>)
      ensures id == "" && attrs == config && this.remote == remote && sent == []
    {
      id := "";
      attrs := config;
      this.remote := remote;
      sent := [];
    }

    /**
     * `resourceWorkflowWorkbookV2Read`. `clientErr` is the failure to
     * build the workflow client, `failure` a transport failure of the `Get`.
     */
    method Read(region: string, clientErr: Option<string>, failure: Option<string>)
      returns (diags: seq<string>)
      modifies this
      ensures remote == old(remote) && sent == old(sent)
      ensures clientErr.Some? ==>
        diags == [ClientError(clientErr.value)] && id == old(id) && attrs == old(attrs)
      ensures clientErr.None? && failure.Some? ==>
        diags == [RetrieveMessage + " " + old(id) + ": " + failure.value] && id == old(id) && attrs == old(attrs)
      ensures clientErr.None? && failure.None? && old(id) !in old(remote) ==>
        diags == [] && id == "" && attrs == old(attrs)
      ensures clientErr.None? && failure.None? && old(id) in old(remote) ==>
        diags == [] && id == old(id) && attrs == ReadInto(old(attrs), region, old(remote)[old(id)])
    {
      if clientErr.Some? {
        return [ClientError(clientErr.value)];
      }
      var got := Lookup(remote, id, failure);
      if got.Err? {
        var checked := CheckDeleted(id, got.error, RetrieveMessage);
        id := checked.id;
        if checked.err.Some? {
          return [checked.err.value];
        }
        return [];
      }
      attrs := ReadInto(attrs, region, got.value);
      return [];
    }

    /**
     * `resourceWorkflowWorkbookV2Create`. `isYAML`/`yamlError` stand for
     * the YAML parser; `response` is the service's answer (the new
     * workbook, which it then holds, or an error); `readFailure` is passed
     * to the `Read` that follows.
     */
    method Create(region: string, clientErr: Option<string>,
                  isYAML: string -> bool, yamlError: string -> string,
                  response: Result<Workbook, string>, readFailure: Option<string>)
      returns (diags: seq<string>)
      modifies this
      ensures clientErr.Some? ==>
        diags == [ClientError(clientErr.value)] &&
        id == old(id) && attrs == old(attrs) && remote == old(remote) && sent == old(sent)
      ensures clientErr.None? && !isYAML(VerifyYAML.ReplaceCRLF(GetString(old(attrs), "definition"))) &&
              GetString(old(attrs), "definition") != "" ==>
        diags == [ParseError(yamlError(VerifyYAML.ReplaceCRLF(GetString(old(attrs), "definition"))))] &&
        id == old(id) && attrs == old(attrs) && remote == old(remote) && sent == old(sent)
      ensures clientErr.None? && (isYAML(VerifyYAML.ReplaceCRLF(GetString(old(attrs), "definition"))) ||
                                 GetString(old(attrs), "definition") == "") ==>
        sent == old(sent) + [CreateOpts(GetString(old(attrs), "scope"), GetString(old(attrs), "namespace"),
                                        VerifyYAML.ReplaceCRLF(GetString(old(attrs), "definition")))]
      ensures clientErr.None? && |sent| > |old(sent)| && response.Err? ==>
        diags == [CreateError(response.error)] && id == old(id) && attrs == old(attrs) && remote == old(remote)
      ensures clientErr.None? && |sent| > |old(sent)| && response.Ok? ==>
        var b := response.value;
        var echo := CreateEcho(old(attrs), region, VerifyYAML.ReplaceCRLF(GetString(old(attrs), "definition")), b);
        remote == old(remote)[b.id := b] && id == b.id &&
        (readFailure.None? ==> diags == [] && attrs == ReadInto(echo, region, b)) &&
        (readFailure.Some? ==> diags == [RetrieveMessage + " " + b.id + ": " + readFailure.value] && attrs == echo)
    {
      if clientErr.Some? {
        return [ClientError(clientErr.value)];
      }
      var normalized := VerifyYAML.NormalizeYAMLString(Some(GetString(attrs, "definition")), isYAML, yamlError);
      VerifyYAML.NormalizedTextIgnoresParser(GetString(attrs, "definition"), isYAML, yamlError);
      if normalized.err.Some? {
        return [ParseError(normalized.err.value)];
      }
      var definition := normalized.text;
      sent := sent + [CreateOpts(GetString(attrs, "scope"), GetString(attrs, "namespace"), definition)];
      if response.Err? {
        return [CreateError(response.error)];
      }
      var workbook := response.value;
      remote := remote[workbook.id := workbook];
      id := workbook.id;
      attrs := CreateEcho(attrs, region, definition, workbook);
      diags := Read(region, None, readFailure);
    }

    /** `resourceWorkflowWorkbookV2Delete`. */
    method Delete(region: string, clientErr: Option<string>, failure: Option<string>)
      returns (diags: seq<string>)
      modifies this
      ensures attrs == old(attrs) && sent == old(sent)
      ensures clientErr.Some? ==>
        diags == [ClientError(clientErr.value)] && id == old(id) && remote == old(remote)
      ensures clientErr.None? && failure.Some? ==>
        diags == [DeleteMessage + " " + old(id) + ": " + failure.value] && id == old(id) && remote == old(remote)
      ensures clientErr.None? && failure.None? ==>
        diags == [] && old(id) !in remote && remote == old(remote) - {old(id)} &&
        id == (if old(id) in old(remote) then old(id) else "")
    {
      if clientErr.Some? {
        return [ClientError(clientErr.value)];
      }
      var got := Lookup(remote, id, failure);
      if got.Err? {
        var checked := CheckDeleted(id, got.error, DeleteMessage);
        id := checked.id;
        if checked.err.Some? {
          return [checked.err.value];
        }
        return [];
      }
      remote := remote - {id};
      return [];
    }
  }

  /**
   * The definition kept in state after a create and read is the one the
   * service holds, not the normalised text that was sent.
   */
  method ReadKeepsServiceDefinition(r: Resource, region: string, isYAML: string -> bool, yamlError: string -> string,
                                    b: Workbook)
    returns (diags: seq<string>)
    requires isYAML(VerifyYAML.ReplaceCRLF(GetString(r.attrs, "definition")))
    modifies r
    ensures diags == [] && r.id == b.id
    ensures View(r.attrs, r.id) == b && GetString(r.attrs, "definition") == b.definition
    ensures |r.sent| > 0 && r.sent[|r.sent| - 1].definition == VerifyYAML.ReplaceCRLF(GetString(old(r.attrs), "definition"))
  {
    diags := r.Create(region, None, isYAML, yamlError, Ok(b), None);
    ViewAfterRead(CreateEcho(old(r.attrs), region, VerifyYAML.ReplaceCRLF(GetString(old(r.attrs), "definition")), b), region, b);
  }
}
