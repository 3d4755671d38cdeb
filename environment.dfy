/**
 * The process environment as a value: a map from variable name to value.
 * `os.Getenv` yields "" for an unset variable, so unset and empty are the same.
 */
module Environment {
  import opened Wrappers

  type Env = map<string, string>

  function Getenv(env: Env, name: string): string {
    if name in env then env[name] else ""
  }

  /**
   * The value of the first variable of `vars`, in order, whose value is
   * non-empty; the lookup that the framework helpers and the provider
   * schema's environment fallbacks share.
   */
  function FirstNonEmpty(env: Env, vars: seq<string>): Option<string>
    decreases |vars|
  {
    if vars == [] then None
    else if Getenv(env, vars[0]) != "" then Some(Getenv(env, vars[0]))
    else FirstNonEmpty(env, vars[1..])
  }

  /** FirstNonEmpty finds the first non-empty variable and ignores later ones. */
  lemma {:induction false} FirstNonEmptyIsFirstMatch(env: Env, vars: seq<string>, i: nat)
    requires i < |vars| && Getenv(env, vars[i]) != ""
    requires forall j :: 0 <= j < i ==> Getenv(env, vars[j]) == ""
    ensures FirstNonEmpty(env, vars) == Some(Getenv(env, vars[i]))
    decreases i
  {
    if i > 0 {
      assert Getenv(env, vars[0]) == "";
      assert forall j :: 0 <= j < i - 1 ==> vars[1..][j] == vars[j + 1];
      FirstNonEmptyIsFirstMatch(env, vars[1..], i - 1);
    }
  }

  /** FirstNonEmpty finds nothing exactly when every listed variable is empty or unset. */
  lemma {:induction false} FirstNonEmptyNone(env: Env, vars: seq<string>)
    ensures FirstNonEmpty(env, vars) == None <==> forall j :: 0 <= j < |vars| ==> Getenv(env, vars[j]) == ""
    decreases |vars|
  {
    if vars != [] {
      FirstNonEmptyNone(env, vars[1..]);
      assert forall j :: 1 <= j < |vars| ==> vars[j] == vars[1..][j - 1];
    }
  }
}
