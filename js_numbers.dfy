/**
 * The JavaScript number coercions the source applies to form fields and stored records.
 * Floating-point rounding is not modelled: numbers are reals.
 */
module JsNumbers {

  /** What `parseFloat` yields: a number, or NaN. */
  datatype NumLike = Num(r: real) | NotANumber

  /**
   * A raw value found in a numeric field: `undefined`/`null`, a string (with what
   * `parseFloat` makes of it, its grammar being out of scope), or a number (possibly NaN).
   */
  datatype Field =
    | Missing
    | Text(s: string, parsed: NumLike)
    | Number(n: NumLike)

  /** The empty string of a cleared input; `parseFloat("")` is NaN. */
  const Blank: Field := Text("", NotANumber)

  /** A text field is consistent when the empty string is not claimed to parse. */
  predicate WellFormed(f: Field)
  {
    f.Text? && f.s == "" ==> f.parsed == NotANumber
  }

  /** `parseFloat(x)`. */
  function ParseFloat(f: Field): NumLike
  {
    match f
    case Missing => NotANumber
    case Text(_, p) => p
    case Number(n) => n
  }

  /** `x || 0` on a number: NaN (and 0) become 0. */
  function OrZero(x: NumLike): real
  {
    match x
    case Num(r) => r
    case NotANumber => 0.0
  }

  /** `parseFloat(x) || 0`, the coercion applied to every amount and estimate. */
  function ToNumber(f: Field): real
  {
    OrZero(ParseFloat(f))
  }

  /** A number stored back into a record, as `parseFloat(x) || 0` produces it. */
  function FromReal(x: real): (f: Field)
    ensures ToNumber(f) == x
  {
    Number(Num(x))
  }

  /** JavaScript truthiness of the field's value: "", 0, NaN, null and undefined are falsy. */
  predicate Truthy(f: Field)
  {
    match f
    case Missing => false
    case Text(s, _) => s != ""
    case Number(Num(r)) => r != 0.0
    case Number(NotANumber) => false
  }

  /** A field whose numeric reading is never negative. */
  predicate NonNegative(f: Field)
  {
    ToNumber(f) >= 0.0
  }
}
