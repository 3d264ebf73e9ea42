/** The JavaScript values the login form handles and the language semantics it
    relies on: ToBoolean (ECMAScript 2023, section 7.1.2), the `||` operator
    (section 13.13), property reads on parsed JSON, and ToString (section 7.1.17)
    as `localStorage.setItem` applies it. */
module JsValues {

  datatype Option<T> = None | Some(value: T)

  /** A value as `JSON.parse` can produce it, plus `undefined` for a missing
      property. Numbers are finite reals; `JSON.parse` rounds a literal
      out of range to an infinity or to zero, which the caller's parser can
      express as any value it likes. */
  datatype JsValue =
    | Undefined
    | Null
    | Bool(b: bool)
    | Number(n: real)
    | Str(s: string)
    | Array(items: seq<JsValue>)
    | Object(fields: map<string, JsValue>)

  /** ToBoolean: `undefined`, `null`, `false`, zero and the empty string are
      falsy; every other value, every array and object included, is truthy. */
  predicate Truthy(v: JsValue) {
    match v
    case Undefined => false
    case Null => false
    case Bool(b) => b
    case Number(n) => n != 0.0
    case Str(s) => s != ""
    case Array(_) => true
    case Object(_) => true
  }

  predicate IsNullish(v: JsValue) {
    v.Undefined? || v.Null?
  }

  /** `a || b`: the left operand when it is truthy, otherwise the right one. */
  function Or(a: JsValue, b: JsValue): JsValue {
    if Truthy(a) then a else b
  }

  /** `v?.key`: the own property `key` of an object, `undefined` for a missing
      property and for every value that is not an object. The property names
      the form reads (`message`, `access_token`, `token`, `jwt`) are not
      inherited by any JSON value, so own properties are all there is. */
  function Get(v: JsValue, key: string): (r: JsValue)
    ensures r != Undefined ==> v.Object? && key in v.fields && v.fields[key] == r
    ensures v.Object? && key in v.fields ==> r == v.fields[key]
  {
    if v.Object? && key in v.fields then v.fields[key] else Undefined
  }

  /** Reference definition for a chain of `||`: the position of the first
      truthy value, or |vs| when there is none. */
  function FirstTruthy(vs: seq<JsValue>): (i: nat)
    ensures i <= |vs|
    ensures forall k :: 0 <= k < i ==> !Truthy(vs[k])
    ensures i < |vs| ==> Truthy(vs[i])
  {
    if vs == [] then 0
    else if Truthy(vs[0]) then 0
    else 1 + FirstTruthy(vs[1..])
  }

  /** `vs[0] || vs[1] || ... || vs[|vs| - 1]`, grouped to the left as
      JavaScript parses it. */
  function OrChain(vs: seq<JsValue>): JsValue
    requires vs != []
  {
    if |vs| == 1 then vs[0] else Or(OrChain(vs[..|vs| - 1]), vs[|vs| - 1])
  }

  /** A chain of `||` yields the first truthy operand, and the last operand
      when none is truthy. */
  lemma {:induction false} OrChainIsFirstTruthy(vs: seq<JsValue>)
    requires vs != []
    ensures FirstTruthy(vs) < |vs| ==> OrChain(vs) == vs[FirstTruthy(vs)]
    ensures FirstTruthy(vs) == |vs| ==> OrChain(vs) == vs[|vs| - 1]
    ensures Truthy(OrChain(vs)) <==> FirstTruthy(vs) < |vs|
  {
    if |vs| > 1 {
      var init := vs[..|vs| - 1];
      OrChainIsFirstTruthy(init);
      FirstTruthyOfPrefix(vs);
    }
  }

  /** Dropping the last value keeps the position of a truthy value found
      before it. */
  lemma {:induction false} FirstTruthyOfPrefix(vs: seq<JsValue>)
    requires vs != []
    ensures var i := FirstTruthy(vs[..|vs| - 1]);
            if i < |vs| - 1 then FirstTruthy(vs) == i
            else FirstTruthy(vs) == if Truthy(vs[|vs| - 1]) then |vs| - 1 else |vs|
  {
    if |vs| > 1 && !Truthy(vs[0]) {
      FirstTruthyOfPrefix(vs[1..]);
      assert vs[1..][..|vs[1..]| - 1] == vs[..|vs| - 1][1..];
    }
  }

  /** Whether ToString of `v` completes. Objects from JSON inherit
      `Object.prototype.toString`, unless they carry an own `toString`
      property: JSON makes that property a non-callable value, so
      OrdinaryToPrimitive (section 7.1.1.1) falls back to `valueOf`, which
      returns the object itself, and the conversion throws a TypeError. An array
      converts its non-nullish elements in turn (section 23.1.3.18). */
  predicate Stringifiable(v: JsValue) {
    match v
    case Object(fields) => "toString" !in fields
    case Array(items) => forall k :: 0 <= k < |items| ==> Stringifiable(items[k])
    case _ => true
  }

  /** ToString of `v`, as `localStorage.setItem` stores a value, or None when
      the conversion throws. Number formatting (section 6.1.6.1.20) is supplied
      by the caller. */
  function ToJsString(v: JsValue, numberToString: real -> string): (r: Option<string>)
    ensures r.Some? <==> Stringifiable(v)
    ensures v.Str? ==> r == Some(v.s)
    ensures v.Number? ==> r == Some(numberToString(v.n))
    ensures v.Bool? ==> r == Some(if v.b then "true" else "false")
    ensures v.Undefined? ==> r == Some("undefined")
    ensures v.Null? ==> r == Some("null")
    ensures v.Object? && r.Some? ==> r.value == "[object Object]"
  {
    match v
    case Undefined => Some("undefined")
    case Null => Some("null")
    case Bool(b) => Some(if b then "true" else "false")
    case Number(n) => Some(numberToString(n))
    case Str(s) => Some(s)
    case Array(items) =>
      var parts := seq(|items|, k requires 0 <= k < |items| =>
        if IsNullish(items[k]) then Some("") else ToJsString(items[k], numberToString));
      assert forall k :: 0 <= k < |items| ==> (parts[k].Some? <==> Stringifiable(items[k]));
      if forall k :: 0 <= k < |parts| ==> parts[k].Some? then
        Some(JoinWithCommas(seq(|parts|, k requires 0 <= k < |parts| => parts[k].value)))
      else None
    case Object(fields) => if "toString" in fields then None else Some("[object Object]")
  }

  /** `Array.prototype.join` with the default separator. */
  function JoinWithCommas(parts: seq<string>): string {
    if parts == [] then ""
    else if |parts| == 1 then parts[0]
    else JoinWithCommas(parts[..|parts| - 1]) + "," + parts[|parts| - 1]
  }
}
