/** JSON values as `JSON.parse` returns them, and the few JavaScript
    operations the model applies to them: reading a property and turning a
    value into text inside a template literal. Numbers are integers here. */
module JsonValue {
  import opened Wrappers
  import opened Text

  datatype Json =
    | JNull
    | JBool(b: bool)
    | JNum(n: int)
    | JStr(s: string)
    | JArr(items: seq<Json>)
    | JObj(fields: map<string, Json>)

  /** `v.name` for a value that is not null; None stands for `undefined`.
      Strings, numbers, booleans and arrays have none of the property names
      this model reads. */
  function Property(v: Json, name: string): (r: Option<Json>)
    requires !v.JNull?
    ensures r.Some? <==> v.JObj? && name in v.fields
  {
    if v.JObj? && name in v.fields then Some(v.fields[name]) else None
  }

  /** `v.name` where `v` itself may be `undefined`; None when the access would
      throw a TypeError (reading a property of `undefined` or `null`),
      otherwise the property (None inside Some for `undefined`). */
  function ReadProperty(v: Option<Json>, name: string): (r: Option<Option<Json>>)
    ensures r.None? <==> Nullish(v)
  {
    if Nullish(v) then None else Some(Property(v.value, name))
  }

  predicate Nullish(v: Option<Json>) {
    v.None? || v.value.JNull?
  }

  /** The text a value becomes inside a template literal `${v}`; None when
      the conversion throws a TypeError. */
  function TemplateText(v: Option<Json>): (r: Option<string>)
    ensures v.None? ==> r == Some("undefined")
  {
    match v
    case None => Some("undefined")
    case Some(j) => ValueText(j)
  }

  /** `String(j)` for a parsed value. An object is "[object Object]" unless
      it has an own `toString` property: JSON never makes that property a
      function, and `valueOf` returns the object itself, so the conversion
      throws. An array joins its elements with "," (null elements become
      empty text) and throws when one of them does. */
  function ValueText(j: Json): (r: Option<string>)
    decreases j, 0
    ensures j.JStr? ==> r == Some(j.s)
    ensures j.JObj? ==> (r.None? <==> "toString" in j.fields)
    ensures j.JArr? ==> (r.None? <==> exists i :: 0 <= i < |j.items| && ElementFails(j.items[i]))
    ensures r.None? ==> j.JObj? || j.JArr?
  {
    match j
    case JNull => Some("null")
    case JBool(b) => Some(if b then "true" else "false")
    case JNum(n) => Some(IntToString(n))
    case JStr(s) => Some(s)
    case JArr(items) =>
      if exists i :: 0 <= i < |items| && ElementFails(items[i]) then None
      else Some(Join(seq(|items|, i requires 0 <= i < |items| =>
                           if items[i].JNull? then "" else ValueText(items[i]).value), ","))
    case JObj(fields) => if "toString" in fields then None else Some("[object Object]")
  }

  /** An array element whose conversion throws (null becomes empty text). */
  predicate ElementFails(e: Json)
    decreases e, 1
  {
    !e.JNull? && ValueText(e).None?
  }

  /** A string value is interpolated as itself. */
  lemma TemplateTextOfString(s: string)
    ensures TemplateText(Some(JStr(s))) == Some(s)
  {
  }
}
