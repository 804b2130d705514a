/** The few JavaScript string and argument conventions the consumer relies on. */
module Js {
  import opened Wrappers

  /** An optional argument: `Omitted` is `undefined`, which is the only value that
      triggers a default parameter; `Passed("")` stands for every falsy value
      (`null`, `''`). */
  datatype Arg = Omitted | Passed(value: string)

  /** The value of a parameter declared `p = dflt`. */
  function ArgOr(a: Arg, dflt: string): (r: string)
    ensures a.Passed? ==> r == a.value
    ensures a.Omitted? ==> r == dflt
  {
    match a
    case Omitted => dflt
    case Passed(s) => s
  }

  /** JavaScript truthiness of a string-valued field. */
  predicate Truthy(s: string) {
    s != ""
  }

  /** `s` when truthy, otherwise the field is left off the object. */
  function IfTruthy(s: string): (r: Option<string>)
    ensures r.Some? <==> s != ""
    ensures r.Some? ==> r.value == s
  {
    if s != "" then Some(s) else None
  }

  function UpperChar(c: char): char {
    if 'a' <= c <= 'z' then (c as int - 32) as char else c
  }

  function LowerChar(c: char): char {
    if 'A' <= c <= 'Z' then (c as int + 32) as char else c
  }

  /** `String.prototype.toUpperCase` restricted to ASCII letters. */
  function Upper(s: string): (r: string)
    ensures |r| == |s|
    ensures forall i :: 0 <= i < |s| ==> r[i] == UpperChar(s[i])
  {
    seq(|s|, i requires 0 <= i < |s| => UpperChar(s[i]))
  }

  /** `String.prototype.toLowerCase` restricted to ASCII letters. */
  function Lower(s: string): (r: string)
    ensures |r| == |s|
    ensures forall i :: 0 <= i < |s| ==> r[i] == LowerChar(s[i])
  {
    seq(|s|, i requires 0 <= i < |s| => LowerChar(s[i]))
  }

  predicate HasPrefix(s: string, p: string) {
    |p| <= |s| && s[..|p|] == p
  }

  /** The text before the first '-' of `s` (all of `s` when it has none). */
  function UntilDash(s: string): (r: string)
    ensures |r| <= |s| && r == s[..|r|]
    ensures '-' !in r
    ensures |r| < |s| ==> s[|r|] == '-'
  {
    if s == [] || s[0] == '-' then [] else [s[0]] + UntilDash(s[1..])
  }

  /** `parts.join(sep)`. */
  function Join(parts: seq<string>, sep: string): string {
    if |parts| == 0 then ""
    else if |parts| == 1 then parts[0]
    else parts[0] + sep + Join(parts[1..], sep)
  }

  /** Joining one more part adds the separator and that part at the end. */
  lemma {:induction false} JoinSnoc(parts: seq<string>, x: string, sep: string)
    requires |parts| > 0
    ensures Join(parts + [x], sep) == Join(parts, sep) + sep + x
  {
    if |parts| == 1 {
      assert parts + [x] == [parts[0], x];
      assert [parts[0], x][1..] == [x];
    } else {
      assert (parts + [x])[1..] == parts[1..] + [x];
      JoinSnoc(parts[1..], x, sep);
    }
  }

  /** `s.split('-')[1]` for a string that has at least one '-'. */
  function SecondDashSegment(s: string): (r: string)
    requires '-' in s
  {
    var head := UntilDash(s);
    UntilDash(s[|head| + 1..])
  }

  /** `UntilDash` stops at the first dash: a dash-free prefix followed by a dash
      (or by nothing) is exactly what it returns. */
  lemma {:induction false} UntilDashOfPrefix(p: string, q: string)
    requires '-' !in p
    requires q == [] || q[0] == '-'
    ensures UntilDash(p + q) == p
  {
    if p == [] {
      assert p + q == q;
    } else {
      assert (p + q)[0] == p[0];
      assert (p + q)[1..] == p[1..] + q;
      UntilDashOfPrefix(p[1..], q);
    }
  }
}
