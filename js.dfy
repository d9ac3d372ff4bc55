/** JavaScript values as the TaxPal client services see them: properties that
    may be `undefined`, JavaScript truthiness, and the `string | Date` union that
    the income and expense bodies accept for their dates. */
module Js {

  /** A property that may be `undefined` (None) or hold a value (Some). */
  datatype Option<+T> = None | Some(value: T)

  /** JavaScript truthiness of an optional string: `undefined` and `""`
      are falsy, every other string is truthy. */
  predicate Truthy(o: Option<string>) {
    o.Some? && o.value != ""
  }

  /** The JavaScript expression `a || b` on optional strings. */
  function Or(a: Option<string>, b: Option<string>): Option<string> {
    if Truthy(a) then a else b
  }

  /** `a || b` is `a` when `a` is truthy and `b` otherwise. */
  lemma OrRule(a: Option<string>, b: Option<string>)
    ensures Truthy(a) ==> Or(a, b) == a
    ensures !Truthy(a) ==> Or(a, b) == b
  {
  }

  /** A JavaScript `Date`, identified by its time value (milliseconds since
      the epoch). */
  datatype Instant = Instant(epochMillis: int)

  /** A value of the TypeScript type `string | Date`. */
  datatype DateInput = Text(text: string) | Date(instant: Instant)

  /** JavaScript truthiness of an optional `string | Date`: a `Date` is an
      object and therefore always truthy, a string is truthy unless empty. */
  predicate DateTruthy(d: Option<DateInput>) {
    match d
    case None => false
    case Some(Text(s)) => s != ""
    case Some(Date(_)) => true
  }

  /** `d instanceof Date ? d.toISOString() : String(d)`; `toISO` stands for
      `Date.prototype.toISOString`, whose internals are not modelled. */
  function DateString(d: DateInput, toISO: Instant -> string): string {
    match d
    case Text(s) => s
    case Date(t) => toISO(t)
  }

  /** A `Date` is rendered by `toISO`, a string passes through `String`
      unchanged. */
  lemma DateStringRule(d: DateInput, toISO: Instant -> string)
    ensures d.Date? ==> DateString(d, toISO) == toISO(d.instant)
    ensures d.Text? ==> DateString(d, toISO) == d.text
  {
  }

  /** The statement `if (x instanceof Date) x = x.toISOString()` applied to
      an optional date property. */
  function CoerceDate(d: Option<DateInput>, toISO: Instant -> string): Option<DateInput> {
    if d.Some? && d.value.Date? then Some(Text(toISO(d.value.instant))) else d
  }

  /** A date property in the form sent over the wire: absent or a string,
      never a `Date` object. */
  predicate OnWire(d: Option<DateInput>) {
    d.None? || d.value.Text?
  }

  /** Coercion turns a `Date` into its ISO string, leaves a string and an
      absent date as they were, and always yields a wire form. */
  lemma CoerceDateRule(d: Option<DateInput>, toISO: Instant -> string)
    ensures d.None? ==> CoerceDate(d, toISO).None?
    ensures d.Some? && d.value.Text? ==> CoerceDate(d, toISO) == d
    ensures d.Some? && d.value.Date? ==> CoerceDate(d, toISO) == Some(Text(toISO(d.value.instant)))
    ensures OnWire(CoerceDate(d, toISO))
    ensures OnWire(d) ==> CoerceDate(d, toISO) == d
  {
  }
}
