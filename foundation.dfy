/**
 * Values the application takes from Apple's frameworks. Only their identity
 * is observed by the modelled code, so each is an opaque handle.
 */
module Foundation {
  import opened Wrappers

  /** A `UUID`: compared for equality and nothing else. */
  datatype Uuid = Uuid(bits: nat)

  /** A `UIImage`. */
  datatype Image = Image(handle: nat)

  /** An `MKMapItem`. */
  datatype MapItem = MapItem(handle: nat)

  /** A `Date`. */
  datatype Date = Date(timestamp: int)

  /**
   * The numeric services the price code calls, left uninterpreted:
   * `parse` is `Double(_:)` on a string, `format` is a decimal-style
   * `NumberFormatter.string(from:)`, `divide` is floating-point division.
   * Doubles are written as `real`; their rounding is not modelled.
   */
  datatype Numerics = Numerics(
    parse: string -> Option<real>,
    format: real -> Option<string>,
    divide: (real, real) -> real)

  /** The currency code stored under `currentCurrency` in user defaults when none is stored yet. */
  const DefaultCurrency: string := "KRW"

  /**
   * The currency code a price field's button starts with: the stored code,
   * or `DefaultCurrency` when none is stored (which is then stored and read back).
   */
  function CurrentCurrency(stored: Option<string>): (r: string)
    ensures stored.Some? ==> r == stored.value
    ensures stored.None? ==> r == DefaultCurrency
  {
    if stored.Some? then stored.value else DefaultCurrency
  }

  /**
   * What `UITextField.text` reads back after `value` is assigned to it: the
   * value itself, or the empty text when `nil` is assigned.
   */
  function FieldText(value: Option<string>): (r: Option<string>)
    ensures r.Some?
    ensures value.Some? ==> r == value
    ensures value.None? ==> r == Some("")
  {
    if value.Some? then value else Some("")
  }
}
