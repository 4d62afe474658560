/**
  The JavaScript values the code inspects, with the language's notion of
  truthiness, the `||` operator and the text a template literal `${v}`
  produces for them.
 */
module Js {
  import opened Base
  import opened Strings

  /** A JavaScript value. Numbers are integers; objects and arrays are opaque. */
  datatype JsValue =
    | Undefined
    | Null
    | Bool(b: bool)
    | Num(n: int)
    | Str(s: string)
    | Obj

  /** The values that `if (v)` and `!v` treat as true. */
  predicate Truthy(v: JsValue)
  {
    match v
    case Undefined => false
    case Null => false
    case Bool(b) => b
    case Num(n) => n != 0
    case Str(s) => s != ""
    case Obj => true
  }

  /** `a || b`: `a` when it is truthy, `b` otherwise. */
  function Or(a: JsValue, b: JsValue): JsValue
  {
    if Truthy(a) then a else b
  }

  /** The first truthy value of a list, searched from the front. */
  function FirstTruthy(vs: seq<JsValue>): (r: Option<JsValue>)
    ensures r.None? <==> forall k :: 0 <= k < |vs| ==> !Truthy(vs[k])
    ensures r.Some? ==> Truthy(r.value)
    ensures r.Some? ==>
      exists k :: 0 <= k < |vs| && vs[k] == r.value && forall j :: 0 <= j < k ==> !Truthy(vs[j])
    decreases |vs|
  {
    if |vs| == 0 then None
    else if Truthy(vs[0]) then Some(vs[0])
    else
      var r := FirstTruthy(vs[1..]);
      assert r.Some? ==> forall k :: 0 <= k < |vs| - 1 ==> vs[1..][k] == vs[k + 1];
      r
  }

  /** Appending a value changes the first truthy one only when none was found before. */
  lemma {:induction false} FirstTruthySnoc(vs: seq<JsValue>, x: JsValue)
    ensures FirstTruthy(vs + [x]) ==
      if FirstTruthy(vs).Some? then FirstTruthy(vs) else if Truthy(x) then Some(x) else None
    decreases |vs|
  {
    if |vs| > 0 && !Truthy(vs[0]) {
      assert (vs + [x])[1..] == vs[1..] + [x];
      FirstTruthySnoc(vs[1..], x);
    }
  }

  /** `v0 || v1 || ... || vn`, grouped to the left as JavaScript does. */
  function OrAll(vs: seq<JsValue>): JsValue
    requires |vs| >= 1
    decreases |vs|
  {
    if |vs| == 1 then vs[0] else Or(OrAll(vs[..|vs| - 1]), vs[|vs| - 1])
  }

  /** A chain of `||` yields the first truthy operand, and the last operand
      when every operand is falsy. */
  lemma {:induction false} OrAllIsFirstTruthy(vs: seq<JsValue>)
    requires |vs| >= 1
    ensures Truthy(OrAll(vs)) <==> FirstTruthy(vs).Some?
    ensures FirstTruthy(vs).Some? ==> OrAll(vs) == FirstTruthy(vs).value
    ensures FirstTruthy(vs).None? ==> OrAll(vs) == vs[|vs| - 1]
    decreases |vs|
  {
    if |vs| > 1 {
      var init := vs[..|vs| - 1];
      OrAllIsFirstTruthy(init);
      assert vs == init + [vs[|vs| - 1]];
      FirstTruthySnoc(init, vs[|vs| - 1]);
    }
  }

  /** The text `${v}` renders for a value. */
  function TemplateText(v: JsValue): string
  {
    match v
    case Undefined => "undefined"
    case Null => "null"
    case Bool(b) => if b then "true" else "false"
    case Num(n) => IntToDecimal(n)
    case Str(s) => s
    case Obj => "[object Object]"
  }

  /** A string-or-null value is truthy exactly when it is a non-empty string. */
  predicate Present(t: Option<string>)
  {
    t.Some? && t.value != ""
  }

  /** `t || fallback` for a value that is a string or null. */
  function TextOr(t: Option<string>, fallback: string): string
  {
    if Present(t) then t.value else fallback
  }
}
