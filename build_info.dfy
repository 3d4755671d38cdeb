/**
 * `getSDKVersion`: the version of one Go module among the binary's build
 * dependencies (`debug.ReadBuildInfo().Deps`), or a fallback. `None` stands
 * for a binary without build information.
 */
module BuildInfo {
  import opened Wrappers

  datatype ModuleInfo = ModuleInfo(path: string, version: string)

  /** The version of the first dependency whose path is `path`. */
  function DependencyVersion(deps: seq<ModuleInfo>, path: string, fallback: string): string
    decreases |deps|
  {
    if deps == [] then fallback
    else if deps[0].path == path then deps[0].version
    else DependencyVersion(deps[1..], path, fallback)
  }

  lemma {:induction false} DependencyVersionFirstMatch(deps: seq<ModuleInfo>, path: string, fallback: string, i: nat)
    requires i < |deps| && deps[i].path == path
    requires forall j :: 0 <= j < i ==> deps[j].path != path
    ensures DependencyVersion(deps, path, fallback) == deps[i].version
    decreases i
  {
    if i > 0 {
      assert forall j :: 0 <= j < i - 1 ==> deps[1..][j] == deps[j + 1];
      DependencyVersionFirstMatch(deps[1..], path, fallback, i - 1);
    }
  }

  lemma {:induction false} DependencyVersionAbsent(deps: seq<ModuleInfo>, path: string, fallback: string)
    requires forall j :: 0 <= j < |deps| ==> deps[j].path != path
    ensures DependencyVersion(deps, path, fallback) == fallback
    decreases |deps|
  {
    if deps != [] {
      assert forall j :: 0 <= j < |deps| - 1 ==> deps[1..][j] == deps[j + 1];
      DependencyVersionAbsent(deps[1..], path, fallback);
    }
  }

  /** The first-match loop of both `getSDKVersion` functions. */
  method FindDependencyVersion(buildInfo: Option<seq<ModuleInfo>>, path: string, fallback: string)
    returns (v: string)
    ensures buildInfo.None? ==> v == fallback
    ensures buildInfo.Some? ==> v == DependencyVersion(buildInfo.value, path, fallback)
  {
    if buildInfo.None? {
      return fallback;
    }
    var deps := buildInfo.value;
    for i := 0 to |deps|
      invariant DependencyVersion(deps, path, fallback) == DependencyVersion(deps[i..], path, fallback)
    {
      assert deps[i..][1..] == deps[i + 1..];
      if deps[i].path == path {
        return deps[i].version;
      }
    }
    return fallback;
  }
}
