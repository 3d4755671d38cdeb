/**
 * The `openstack_blockstorage_snapshot_v3` data source: list the volume
 * snapshots matching the configured filters and describe one of them.
 */
module SnapshotDataSource {
  import opened Wrappers
  import opened ResourceData
  import opened Selection

  /** A block storage snapshot as the service returns it. */
  datatype Snapshot = Snapshot(
    id: string, name: string, description: string, size: int,
    status: string, volumeId: string, metadata: map<string, string>)

  /** `snapshots.ListOpts`, as far as the data source fills it in; "" means unset. */
  datatype ListOpts = ListOpts(name: string, status: string, volumeId: string)

  const NoResultsMessage: string :=
    "Your openstack_blockstorage_snapshot_v3 query returned no results. " +
    "Please change your search criteria and try again."
  const MultipleResultsMessage: string :=
    "Your query returned more than one result. Please try a more " +
    "specific search criteria, or set `most_recent` attribute to true."

  function ClientError(cause: string): string {
    "Error creating OpenStack block storage client: " + cause
  }

  function QueryError(cause: string): string {
    "Unable to query openstack_blockstorage_snapshots_v3: " + cause
  }

  function ExtractError(cause: string): string {
    "Unable to retrieve openstack_blockstorage_snapshots_v3: " + cause
  }

  function ListOptsFor(a: Attributes): (o: ListOpts)
    ensures o.name == GetString(a, "name") && o.status == GetString(a, "status")
    ensures o.volumeId == GetString(a, "volume_id")
  {
    ListOpts(GetString(a, "name"), GetString(a, "status"), GetString(a, "volume_id"))
  }

  /** A snapshot the service may return for `o`: unset filters do not constrain. */
  predicate Matches(o: ListOpts, s: Snapshot) {
    (o.name == "" || s.name == o.name) &&
    (o.status == "" || s.status == o.status) &&
    (o.volumeId == "" || s.volumeId == o.volumeId)
  }

  /** The keys the data source writes. */
  const DescribedKeys: set<string> := {
    "name", "description", "size", "status", "volume_id", "metadata", "region"
  }

  /** The state after the data source has described snapshot `s`. */
  function Describe(a: Attributes, region: string, s: Snapshot): (r: Attributes)
    ensures forall k :: k in a && k !in DescribedKeys ==> k in r && r[k] == a[k]
    ensures GetString(r, "region") == region
  {
    a["name" := Str(s.name)]
     ["description" := Str(s.description)]
     ["size" := Int(s.size)]
     ["status" := Str(s.status)]
     ["volume_id" := Str(s.volumeId)]
     ["metadata" := Dict(s.metadata)]
     ["region" := Str(region)]
  }

  /** The snapshot the state `a` describes, for the data source with id `id`. */
  function View(a: Attributes, id: string): Snapshot {
    Snapshot(
      id, GetString(a, "name"), GetString(a, "description"), GetInt(a, "size"),
      GetString(a, "status"), GetString(a, "volume_id"), GetDict(a, "metadata"))
  }

  /** The described state gives back exactly the selected snapshot. */
  lemma ViewAfterDescribe(a: Attributes, region: string, s: Snapshot)
    ensures View(Describe(a, region, s), s.id) == s
  {
    var r := Describe(a, region, s);
    assert r["name"] == Str(s.name);
    assert r["description"] == Str(s.description);
    assert r["size"] == Int(s.size);
    assert r["status"] == Str(s.status);
    assert r["volume_id"] == Str(s.volumeId);
  }

  /** The data source's state: the id ("" until read) and the attributes. */
  class DataSource {
    var id: string
    var attrs: Attributes

    constructor (config: Attributes)
      ensures id == "" && attrs == config
    {
      id := "";
      attrs := config;
    }

    /**
     * `dataSourceBlockStorageSnapshotV3Read`. `clientErr` is the failure
     * to build the block storage client; `list` is the service's answer to
     * a listing; `mostRecent` stands for the choice among several snapshots
     * that `most_recent` asks for.
     */
    method Read(region: string, clientErr: Option<string>,
                list: ListOpts -> ListAnswer<Snapshot>, mostRecent: seq<Snapshot> -> Snapshot)
      returns (diags: seq<string>)
      modifies this
      ensures clientErr.Some? ==> diags == [ClientError(clientErr.value)]
      ensures clientErr.None? && list(ListOptsFor(old(attrs))).QueryFailed? ==>
        diags == [QueryError(list(ListOptsFor(old(attrs))).cause)]
      ensures clientErr.None? && list(ListOptsFor(old(attrs))).ExtractFailed? ==>
        diags == [ExtractError(list(ListOptsFor(old(attrs))).cause)]
      ensures clientErr.None? && list(ListOptsFor(old(attrs))).Listed? ==>
        var chosen := SelectMostRecent(list(ListOptsFor(old(attrs))).items, GetBool(old(attrs), "most_recent"), mostRecent);
        (chosen.NoResults? ==> diags == [NoResultsMessage]) &&
        (chosen.MultipleResults? ==> diags == [MultipleResultsMessage]) &&
        (chosen.Selected? ==> diags == [] && id == chosen.item.id && attrs == Describe(old(attrs), region, chosen.item))
      ensures diags != [] ==> id == old(id) && attrs == old(attrs)
    {
      if clientErr.Some? {
        return [ClientError(clientErr.value)];
      }
      var opts := ListOpts(GetString(attrs, "name"), GetString(attrs, "status"), GetString(attrs, "volume_id"));
      var answer := list(opts);
      if answer.QueryFailed? {
        return [QueryError(answer.cause)];
      }
      if answer.ExtractFailed? {
        return [ExtractError(answer.cause)];
      }
      var all := answer.items;
      if |all| < 1 {
        return [NoResultsMessage];
      }
      var snapshot: Snapshot;
      if |all| > 1 {
        var recent := GetBool(attrs, "most_recent");
        if recent {
          snapshot := mostRecent(all);
        } else {
          return [MultipleResultsMessage];
        }
      } else {
        snapshot := all[0];
      }
      id := snapshot.id;
      attrs := Describe(attrs, region, snapshot);
      return [];
    }
  }

  /**
   * With one matching snapshot, or several and a chooser that picks a
   * listed one, the snapshot described satisfies every filter that was set.
   */
  lemma DescribedSnapshotMatchesFilters(a: Attributes, list: ListOpts -> ListAnswer<Snapshot>,
                                        mostRecent: seq<Snapshot> -> Snapshot)
    requires list(ListOptsFor(a)).Listed?
    requires forall s :: s in list(ListOptsFor(a)).items ==> Matches(ListOptsFor(a), s)
    requires |list(ListOptsFor(a)).items| > 1 ==> mostRecent(list(ListOptsFor(a)).items) in list(ListOptsFor(a)).items
    ensures var chosen := SelectMostRecent(list(ListOptsFor(a)).items, GetBool(a, "most_recent"), mostRecent);
      chosen.Selected? ==>
        (GetString(a, "name") != "" ==> chosen.item.name == GetString(a, "name")) &&
        (GetString(a, "status") != "" ==> chosen.item.status == GetString(a, "status")) &&
        (GetString(a, "volume_id") != "" ==> chosen.item.volumeId == GetString(a, "volume_id"))
  {
    SelectedIsListed(list(ListOptsFor(a)).items, GetBool(a, "most_recent"), mostRecent);
  }
}
