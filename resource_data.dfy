/**
 * A resource's tracked attributes, as the provider SDK's ResourceData holds
 * them: a map from attribute key to value. `d.Get` of an attribute that is
 * not set yields the zero value of the attribute's type.
 */
module ResourceData {
  import opened Wrappers

  datatype Value =
    | Str(s: string)
    | Bool(b: bool)
    | Int(i: int)
    | Dict(m: map<string, string>)
    | Tags(t: set<string>)

  type Attributes = map<string, Value>

  function GetString(a: Attributes, key: string): string {
    if key in a && a[key].Str? then a[key].s else ""
  }

  function GetBool(a: Attributes, key: string): bool {
    key in a && a[key].Bool? && a[key].b
  }

  function GetInt(a: Attributes, key: string): int {
    if key in a && a[key].Int? then a[key].i else 0
  }

  function GetDict(a: Attributes, key: string): map<string, string> {
    if key in a && a[key].Dict? then a[key].m else map[]
  }

  function GetTags(a: Attributes, key: string): set<string> {
    if key in a && a[key].Tags? then a[key].t else {}
  }

  /** `GetOkExists`: the value, when the key was set at all. */
  function GetOkExists(a: Attributes, key: string): Option<Value> {
    if key in a then Some(a[key]) else None
  }
}
