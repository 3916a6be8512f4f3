/** The event record the dashboard receives from its backend, and the two
    ways its components read the case-insensitive `severity` and
    `source_system` labels. Timestamps are milliseconds since the epoch; a
    missing (null or undefined) field is `None`, a present one, even the
    empty string, is `Some`. */
module Events {
  import opened JsValues
  import opened JsStrings

  const MsPerDay: int := 86400000

  datatype Event = Event(
    id: Option<string>,
    sourceSystem: Option<string>,
    severity: Option<string>,
    eventType: string,
    description: string,
    createdAt: Option<int>,
    timestamp: Option<int>)

  /** `field || fallback` on a text field: a missing field and the empty
      string are both falsy and give way to the fallback. */
  function TextOr(field: Option<string>, fallback: string): (s: string)
    ensures field.Some? && field.value != [] ==> s == field.value
    ensures field.None? || field.value == [] ==> s == fallback
  {
    match field
    case Some(text) => if text != [] then text else fallback
    case None => fallback
  }

  /** `field?.toLowerCase()`: a missing field stays missing, a present one,
      the empty string included, is lower-cased. */
  function LowerOpt(field: Option<string>): (r: Option<string>)
    ensures r.None? <==> field.None?
    ensures r.Some? ==> |r.value| == |field.value|
    ensures r.Some? ==> r.value == ToLower(field.value)
    ensures r.Some? ==> forall i :: 0 <= i < |r.value| ==> !IsUpperAscii(r.value[i])
  {
    match field
    case Some(s) => Some(ToLower(s))
    case None => None
  }

  /** `(field || '').toLowerCase()`: a missing field reads as the empty string. */
  function LowerOrEmpty(field: Option<string>): (s: string)
    ensures s == [] <==> field.None? || field.value == []
    ensures field.Some? ==> |s| == |field.value|
    ensures field.Some? ==> s == ToLower(field.value)
    ensures forall i :: 0 <= i < |s| ==> !IsUpperAscii(s[i])
  {
    ToLower(TextOr(field, ""))
  }

  /** `event.source_system?.toLowerCase() === name`. */
  predicate SourceIs(e: Event, name: string) {
    LowerOpt(e.sourceSystem) == Some(name)
  }

  /** `severity === 'critical' || severity === 'high'` on `event.severity?.toLowerCase()`. */
  predicate IsCriticalOrHigh(e: Event) {
    var severity := LowerOpt(e.severity);
    severity == Some("critical") || severity == Some("high")
  }

  /** For a non-empty name, the optional-chaining comparison and the
      default-to-empty comparison classify every field alike. */
  lemma LowerFormsAgree(field: Option<string>, name: string)
    requires name != []
    ensures (LowerOpt(field) == Some(name)) <==> (LowerOrEmpty(field) == name)
  {
  }
}
