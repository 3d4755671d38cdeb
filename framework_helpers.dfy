/**
 * The configuration lookups of the plugin-framework provider: a setting is
 * the explicit configuration value when it is known, otherwise taken from
 * the first usable environment variable of a list, otherwise a default.
 */
module FrameworkHelpers {
  import opened Wrappers
  import opened Environment
  import BuildInfo

  /** A framework attribute value: null, unknown (not yet computed) or known. */
  datatype ConfigValue<T> = Null | Unknown | Known(value: T)

  const MinInt64: int := -0x8000_0000_0000_0000
  const MaxInt64: int := 0x7FFF_FFFF_FFFF_FFFF

  /** The Go module path `getSDKVersion` looks for in this package. */
  const FrameworkModulePath: string := "github.com/hashicorp/terraform-plugin-framework"

  predicate IsDigit(c: char) {
    '0' <= c <= '9'
  }

  predicate AllDigits(s: string) {
    forall k :: 0 <= k < |s| ==> IsDigit(s[k])
  }

  /** The number a run of decimal digits denotes (0 for none). */
  function DigitsValue(s: string): nat
    requires AllDigits(s)
    decreases |s|
  {
    if s == [] then 0
    else DigitsValue(s[..|s| - 1]) * 10 + (s[|s| - 1] as int - '0' as int)
  }

  /**
   * `strconv.Atoi` on a 64-bit platform: an optional sign, at least one
   * decimal digit and nothing else, within the range of int64.
   */
  function ParseDecimal(s: string): (r: Option<int>)
    ensures r.Some? ==> |s| > 0 && MinInt64 <= r.value <= MaxInt64
  {
    if |s| == 0 then None
    else
      var digits := if s[0] == '-' || s[0] == '+' then s[1..] else s;
      if |digits| == 0 || !AllDigits(digits) then None
      else
        var n: int := if s[0] == '-' then 0 - DigitsValue(digits) as int else DigitsValue(digits);
        if MinInt64 <= n <= MaxInt64 then Some(n) else None
  }

  /** `strconv.Itoa`, the inverse Atoi is checked against. */
  function FormatDecimal(n: int): string {
    if n < 0 then "-" + NatDigits(-n) else NatDigits(n)
  }

  function NatDigits(n: nat): string
    decreases n
  {
    if n < 10 then [('0' as int + n) as char]
    else NatDigits(n / 10) + [('0' as int + n % 10) as char]
  }

  lemma {:induction false} NatDigitsValue(n: nat)
    ensures |NatDigits(n)| > 0 && AllDigits(NatDigits(n)) && IsDigit(NatDigits(n)[0])
    ensures DigitsValue(NatDigits(n)) == n
    decreases n
  {
    if n >= 10 {
      NatDigitsValue(n / 10);
      var s := NatDigits(n);
      assert s[..|s| - 1] == NatDigits(n / 10);
    }
  }

  /** Atoi reads back every int64 that Itoa writes. */
  lemma ParseFormatRoundTrip(n: int)
    requires MinInt64 <= n <= MaxInt64
    ensures ParseDecimal(FormatDecimal(n)) == Some(n)
  {
    if n < 0 {
      NatDigitsValue(-n);
      assert FormatDecimal(n)[1..] == NatDigits(-n);
    } else {
      NatDigitsValue(n);
    }
  }

  /** `getStringValue` */
  method GetStringValue(configValue: ConfigValue<string>, env: Env, envVars: seq<string>, defaultValue: string)
    returns (r: string)
    ensures configValue.Known? ==> r == configValue.value
    ensures !configValue.Known? ==>
      forall i :: 0 <= i < |envVars| && Getenv(env, envVars[i]) != "" &&
                  (forall j :: 0 <= j < i ==> Getenv(env, envVars[j]) == "") ==>
        r == Getenv(env, envVars[i])
    ensures !configValue.Known? && (forall i :: 0 <= i < |envVars| ==> Getenv(env, envVars[i]) == "") ==>
      r == defaultValue
  {
    if configValue.Known? {
      return configValue.value;
    }
    for k := 0 to |envVars|
      invariant forall j :: 0 <= j < k ==> Getenv(env, envVars[j]) == ""
    {
      var value := Getenv(env, envVars[k]);
      if value != "" {
        return value;
      }
    }
    return defaultValue;
  }

  /**
   * `getBoolValue`: the first non-empty variable decides, and it means true
   * only when it is exactly "true" or "1".
   */
  method GetBoolValue(configValue: ConfigValue<bool>, env: Env, envVars: seq<string>, defaultValue: bool)
    returns (r: bool)
    ensures configValue.Known? ==> r == configValue.value
    ensures !configValue.Known? ==>
      forall i :: 0 <= i < |envVars| && Getenv(env, envVars[i]) != "" &&
                  (forall j :: 0 <= j < i ==> Getenv(env, envVars[j]) == "") ==>
        (r <==> Getenv(env, envVars[i]) == "true" || Getenv(env, envVars[i]) == "1")
    ensures !configValue.Known? && (forall i :: 0 <= i < |envVars| ==> Getenv(env, envVars[i]) == "") ==>
      r == defaultValue
  {
    if configValue.Known? {
      return configValue.value;
    }
    for k := 0 to |envVars|
      invariant forall j :: 0 <= j < k ==> Getenv(env, envVars[j]) == ""
    {
      var value := Getenv(env, envVars[k]);
      if value != "" {
        return value == "true" || value == "1";
      }
    }
    return defaultValue;
  }

  /**
   * `getIntValue`: a non-empty variable that does not parse as a decimal
   * integer is skipped and the search goes on.
   */
  method GetIntValue(configValue: ConfigValue<int>, env: Env, envVars: seq<string>, defaultValue: int)
    returns (r: int)
    ensures configValue.Known? ==> r == configValue.value
    ensures !configValue.Known? ==>
      forall i :: 0 <= i < |envVars| && ParseDecimal(Getenv(env, envVars[i])).Some? &&
                  (forall j :: 0 <= j < i ==> ParseDecimal(Getenv(env, envVars[j])).None?) ==>
        r == ParseDecimal(Getenv(env, envVars[i])).value
    ensures !configValue.Known? && (forall i :: 0 <= i < |envVars| ==> ParseDecimal(Getenv(env, envVars[i])).None?) ==>
      r == defaultValue
  {
    if configValue.Known? {
      return configValue.value;
    }
    for k := 0 to |envVars|
      invariant forall j :: 0 <= j < k ==> ParseDecimal(Getenv(env, envVars[j])).None?
    {
      var value := Getenv(env, envVars[k]);
      if value != "" {
        var parsed := ParseDecimal(value);
        if parsed.Some? {
          return parsed.value;
        }
      }
    }
    return defaultValue;
  }

  /** `getSDKVersion` of the framework provider. */
  method GetSDKVersion(buildInfo: Option<seq<BuildInfo.ModuleInfo>>, providerVersion: string)
    returns (v: string)
    ensures buildInfo.None? ==> v == providerVersion
    ensures buildInfo.Some? ==> v == BuildInfo.DependencyVersion(buildInfo.value, FrameworkModulePath, providerVersion)
  {
    v := BuildInfo.FindDependencyVersion(buildInfo, FrameworkModulePath, providerVersion);
  }
}
