/**
 * The YAML validators of the `verify` package. The YAML parser
 * (gopkg.in/yaml.v2) is not modelled: `isYAML` stands for "Unmarshal
 * succeeds on this text", and `yamlError` for the error it then reports.
 */
module VerifyYAML {
  import opened Wrappers

  /** The (string, error) pair that `checkYAMLString` and `NormalizeYAMLString` return. */
  datatype Checked = Checked(text: string, err: Option<string>)

  datatype ValidationError = InvalidYAML(key: string, cause: string)

  /** `strings.ReplaceAll(s, "\r\n", "\n")`: leftmost, non-overlapping matches. */
  function ReplaceCRLF(s: string): string
    decreases |s|
  {
    if |s| >= 2 && s[0] == '\r' && s[1] == '\n' then "\n" + ReplaceCRLF(s[2..])
    else if s == [] then []
    else [s[0]] + ReplaceCRLF(s[1..])
  }

  predicate HasCRLFAt(s: string, i: int) {
    0 <= i < |s| - 1 && s[i] == '\r' && s[i + 1] == '\n'
  }

  function CountCRLF(s: string): nat
    decreases |s|
  {
    if |s| >= 2 && s[0] == '\r' && s[1] == '\n' then 1 + CountCRLF(s[2..])
    else if s == [] then 0
    else CountCRLF(s[1..])
  }

  /** The characters of `s` other than carriage returns, in order. */
  function WithoutCR(s: string): string
    decreases |s|
  {
    if s == [] then []
    else (if s[0] == '\r' then [] else [s[0]]) + WithoutCR(s[1..])
  }

  function CountCR(s: string): nat
    decreases |s|
  {
    if s == [] then 0 else (if s[0] == '\r' then 1 else 0) + CountCR(s[1..])
  }

  /** A string with no "\r\n" is left as it is. */
  lemma {:induction false} ReplaceWithoutCRLF(s: string)
    requires forall i :: 0 <= i < |s| ==> !HasCRLFAt(s, i)
    ensures ReplaceCRLF(s) == s
    decreases |s|
  {
    if s != [] {
      assert !HasCRLFAt(s, 0);
      assert forall i :: 0 <= i < |s| - 1 ==> HasCRLFAt(s[1..], i) == HasCRLFAt(s, i + 1);
      ReplaceWithoutCRLF(s[1..]);
    }
  }

  /**
   * Only carriage returns are removed: every other character survives in
   * order, one carriage return disappears per "\r\n", and the length
   * drops by the number of matches.
   */
  lemma {:induction false} ReplaceRemovesOnlyCR(s: string)
    ensures WithoutCR(ReplaceCRLF(s)) == WithoutCR(s)
    ensures CountCR(ReplaceCRLF(s)) == CountCR(s) - CountCRLF(s)
    ensures |ReplaceCRLF(s)| == |s| - CountCRLF(s)
    decreases |s|
  {
    if |s| >= 2 && s[0] == '\r' && s[1] == '\n' {
      ReplaceRemovesOnlyCR(s[2..]);
      assert s[1..][1..] == s[2..];
      assert WithoutCR(s) == WithoutCR(s[1..]);
      assert WithoutCR(s[1..]) == "\n" + WithoutCR(s[2..]);
      assert CountCR(s[1..]) == CountCR(s[2..]);
      CountCRLFBound(s[2..]);
    } else if s != [] {
      ReplaceRemovesOnlyCR(s[1..]);
      CountCRLFBound(s[1..]);
    }
  }

  lemma {:induction false} CountCRLFBound(s: string)
    ensures CountCRLF(s) <= CountCR(s)
    decreases |s|
  {
    if |s| >= 2 && s[0] == '\r' && s[1] == '\n' {
      CountCRLFBound(s[2..]);
      assert s[1..][1..] == s[2..];
      assert CountCR(s[1..]) == CountCR(s[2..]);
    } else if s != [] {
      CountCRLFBound(s[1..]);
    }
  }

  /**
   * The replacement works piecewise, except across a boundary that splits a
   * "\r\n" in two.
   */
  lemma {:induction false} ReplaceConcat(a: string, b: string)
    requires a == [] || b == [] || a[|a| - 1] != '\r' || b[0] != '\n'
    ensures ReplaceCRLF(a + b) == ReplaceCRLF(a) + ReplaceCRLF(b)
    decreases |a|
  {
    if a == [] {
      assert a + b == b;
    } else if |a| >= 2 && a[0] == '\r' && a[1] == '\n' {
      assert (a + b)[2..] == a[2..] + b;
      ReplaceConcat(a[2..], b);
    } else if |a| == 1 {
      assert (a + b)[1..] == b;
      if b != [] {
        assert !(a[0] == '\r' && b[0] == '\n');
      }
      assert ReplaceCRLF(a) == [a[0]];
    } else {
      assert (a + b)[1..] == a[1..] + b;
      ReplaceConcat(a[1..], b);
    }
  }

  /** The rewrite is not idempotent: "\r\r\n" becomes "\r\n", which has a match of its own. */
  lemma ReplaceNotIdempotent()
    ensures ReplaceCRLF("\r\r\n") == "\r\n"
    ensures ReplaceCRLF(ReplaceCRLF("\r\r\n")) == "\n"
  {
    assert "\r\r\n"[1..] == "\r\n";
    assert "\r\n"[2..] == "";
  }

  /**
   * `checkYAMLString`: nil or "" is accepted without consulting the parser;
   * any other text is returned as it is, with the parser's error if it fails.
   */
  function CheckYAMLString(yamlString: Option<string>, isYAML: string -> bool, yamlError: string -> string): (r: Checked)
    ensures (yamlString.None? || yamlString.value == "") ==> r == Checked("", None)
    ensures yamlString.Some? && yamlString.value != "" ==>
      r.text == yamlString.value && (r.err.Some? <==> !isYAML(yamlString.value))
  {
    if yamlString.None? || yamlString.value == "" then Checked("", None)
    else
      var s := yamlString.value;
      Checked(s, if isYAML(s) then None else Some(yamlError(s)))
  }

  /** `NormalizeYAMLString`: CRLF line ends become LF, and the result is checked. */
  function NormalizeYAMLString(templateString: Option<string>, isYAML: string -> bool, yamlError: string -> string): (r: Checked)
    ensures templateString.None? ==> r == Checked("", None)
    ensures templateString.Some? ==> r == CheckYAMLString(Some(ReplaceCRLF(templateString.value)), isYAML, yamlError)
  {
    var t := if templateString.Some? then Some(ReplaceCRLF(templateString.value)) else None;
    CheckYAMLString(t, isYAML, yamlError)
  }

  /**
   * The text `NormalizeYAMLString` yields is the line-end rewrite of its
   * input whether or not the parser accepts it, which is why a StateFunc may
   * drop its error.
   */
  lemma NormalizedTextIgnoresParser(s: string, isYAML: string -> bool, yamlError: string -> string)
    ensures NormalizeYAMLString(Some(s), isYAML, yamlError).text == ReplaceCRLF(s)
  {
    if s != "" {
      assert ReplaceCRLF(s) != "";
    }
  }

  /**
   * `ValidStringIsYAML`: never a warning, and exactly one error when the
   * check fails, naming the key and wrapping the check's error.
   */
  function ValidStringIsYAML(v: Option<string>, k: string, isYAML: string -> bool, yamlError: string -> string)
    : (r: (seq<string>, seq<ValidationError>))
    ensures r.0 == []
    ensures |r.1| <= 1
    ensures |r.1| == 1 <==> CheckYAMLString(v, isYAML, yamlError).err.Some?
    ensures |r.1| == 1 ==> r.1[0] == InvalidYAML(k, CheckYAMLString(v, isYAML, yamlError).err.value)
  {
    var c := CheckYAMLString(v, isYAML, yamlError);
    if c.err.Some? then ([], [InvalidYAML(k, c.err.value)]) else ([], [])
  }
}
