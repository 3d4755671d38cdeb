/**
 * The `openstack_workflow_cron_trigger_v2` data source: list the cron
 * triggers matching the configured filters and describe the single match.
 */
module CronTriggerDataSource {
  import opened Wrappers
  import opened ResourceData
  import opened Lifecycle
  import opened Selection
  import opened CronTriggerResource

  /** `crontriggers.ListFilter`. */
  datatype ListFilter = ListFilter(filter: string, value: string)

  /** `crontriggers.ListOpts`, as far as the data source fills it in; "" means unset. */
  datatype ListOpts = ListOpts(projectId: string, name: Option<ListFilter>, workflowId: string)

  const NoResultsMessage: string := "Your query returned no results. Please change your search criteria and try again"
  const MultipleResultsMessage: string := "Your query returned more than one result. Please try a more specific search criteria"

  function QueryError(cause: string): string {
    "Unable to query cron triggers: " + cause
  }

  function ExtractError(cause: string): string {
    "Unable to retrieve cron triggers: " + cause
  }

  /** The listing filters built from the configuration. */
  function ListOptsFor(a: Attributes): (o: ListOpts)
    ensures o.projectId == GetString(a, "project_id")
    ensures o.name.Some? <==> GetString(a, "name") != ""
    ensures o.name.Some? ==> o.name.value == ListFilter("eq", GetString(a, "name"))
    ensures o.workflowId == GetString(a, "workflow_id")
  {
    var o := ListOpts(GetString(a, "project_id"), None, "");
    var o := if GetString(a, "name") != "" then o.(name := Some(ListFilter("eq", GetString(a, "name")))) else o;
    if GetString(a, "workflow_id") != "" then o.(workflowId := GetString(a, "workflow_id")) else o
  }

  /** A trigger the service may return for `o`: unset filters do not constrain. */
  predicate Matches(o: ListOpts, t: CronTrigger) {
    (o.projectId == "" || t.projectId == o.projectId) &&
    (o.name.None? || t.name == o.name.value.value) &&
    (o.workflowId == "" || t.workflowId == o.workflowId)
  }

  /** The state after the data source has described trigger `t`. */
  function Describe(a: Attributes, region: string, t: CronTrigger): (r: Attributes)
    ensures GetString(r, "region") == region && GetString(r, "name") == t.name
    ensures GetString(r, "project_id") == t.projectId && GetString(r, "created_at") == t.createdAt
    ensures forall k :: k in a && k !in {"region", "name", "project_id", "created_at"} ==> k in r && r[k] == a[k]
  {
    a["region" := Str(region)]
     ["name" := Str(t.name)]
     ["project_id" := Str(t.projectId)]
     ["created_at" := Str(t.createdAt)]
  }

  /** The data source's state: the id ("" until read) and the attributes. */
  class DataSource {
    var id: string
    var attrs: Attributes

    constructor (config: Attributes)
      ensures id == "" && attrs == config
    {
      id := "";
      attrs := config;
    }

    /**
     * `dataSourceWorkflowCronTriggerV2Read`. `clientErr` is the failure to
     * build the workflow client; `list` is the service's answer to a listing.
     */
    method Read(region: string, clientErr: Option<string>, list: ListOpts -> ListAnswer<CronTrigger>)
      returns (diags: seq<string>)
      modifies this
      ensures clientErr.Some? ==> diags == [ClientError(clientErr.value)]
      ensures clientErr.None? && list(ListOptsFor(old(attrs))).QueryFailed? ==>
        diags == [QueryError(list(ListOptsFor(old(attrs))).cause)]
      ensures clientErr.None? && list(ListOptsFor(old(attrs))).ExtractFailed? ==>
        diags == [ExtractError(list(ListOptsFor(old(attrs))).cause)]
      ensures clientErr.None? && list(ListOptsFor(old(attrs))).Listed? && |list(ListOptsFor(old(attrs))).items| == 0 ==>
        diags == [NoResultsMessage]
      ensures clientErr.None? && list(ListOptsFor(old(attrs))).Listed? && |list(ListOptsFor(old(attrs))).items| > 1 ==>
        diags == [MultipleResultsMessage]
      ensures diags != [] ==> id == old(id) && attrs == old(attrs)
      ensures diags == [] <==>
        clientErr.None? && list(ListOptsFor(old(attrs))).Listed? && |list(ListOptsFor(old(attrs))).items| == 1
      ensures diags == [] ==>
        var t := list(ListOptsFor(old(attrs))).items[0];
        id == t.id && attrs == Describe(old(attrs), region, t)
    {
      if clientErr.Some? {
        return [ClientError(clientErr.value)];
      }
      var opts := ListOpts(GetString(attrs, "project_id"), None, "");
      var name := GetString(attrs, "name");
      if name != "" {
        opts := opts.(name := Some(ListFilter("eq", name)));
      }
      var workflowId := GetString(attrs, "workflow_id");
      if workflowId != "" {
        opts := opts.(workflowId := workflowId);
      }
      assert opts == ListOptsFor(attrs);
      var answer := list(opts);
      if answer.QueryFailed? {
        return [QueryError(answer.cause)];
      }
      if answer.ExtractFailed? {
        return [ExtractError(answer.cause)];
      }
      var all := answer.items;
      if |all| < 1 {
        return [NoResultsMessage];
      }
      if |all| > 1 {
        return [MultipleResultsMessage];
      }
      var trigger := all[0];
      id := trigger.id;
      attrs := Describe(attrs, region, trigger);
      return [];
    }
  }

  /**
   * When the service honours the filters, the trigger described has the
   * configured name, project and workflow, wherever those were set.
   */
  lemma DescribedTriggerMatchesFilters(a: Attributes, list: ListOpts -> ListAnswer<CronTrigger>)
    requires list(ListOptsFor(a)).Listed?
    requires forall t :: t in list(ListOptsFor(a)).items ==> Matches(ListOptsFor(a), t)
    requires |list(ListOptsFor(a)).items| == 1
    ensures var t := list(ListOptsFor(a)).items[0];
      (GetString(a, "name") != "" ==> t.name == GetString(a, "name")) &&
      (GetString(a, "project_id") != "" ==> t.projectId == GetString(a, "project_id")) &&
      (GetString(a, "workflow_id") != "" ==> t.workflowId == GetString(a, "workflow_id"))
  {
    var xs := list(ListOptsFor(a)).items;
    assert xs[0] in xs;
  }
}
