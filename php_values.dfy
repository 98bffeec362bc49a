/**
 * The PHP values the core reads out of decoded JSON, query strings and rate rows, and the
 * PHP conversions it applies to them: `??`, `(string)`, `(float)`, `is_numeric` and truthiness.
 */
module PhpValues {
  import opened PhpStrings

  /**
   * One scalar as PHP holds it after decoding. A float keeps the text `(string)` renders for
   * it; a string keeps the float `(float)` reads from it (its leading numeric part, else 0).
   * `NumericStr` is a string `is_numeric` accepts, `OtherStr` one it refuses.
   */
  datatype Scalar =
    | Null
    | Bool(b: bool)
    | Int(n: int)
    | Float(value: real, text: string)
    | NumericStr(text: string, value: real)
    | OtherStr(text: string, value: real)

  /** `(string)` of an int: optional minus sign, then the decimal digits. */
  function IntText(n: int): string {
    if n < 0 then "-" + IntToString(-n) else IntToString(n)
  }

  /** A decoded JSON object or query array with scalar entries. */
  type Fields = map<string, Scalar>

  /** `$a[key] ?? default`: a missing key and a null entry both give the default. */
  function Coalesce(a: Fields, key: string, default: Scalar): Scalar {
    if key in a && !a[key].Null? then a[key] else default
  }

  /** is_numeric(). */
  predicate IsNumeric(v: Scalar) {
    v.Int? || v.Float? || v.NumericStr?
  }

  /** `(string) $v`. */
  function ToText(v: Scalar): string {
    match v
    case Null => ""
    case Bool(b) => if b then "1" else ""
    case Int(n) => IntText(n)
    case Float(_, text) => text
    case NumericStr(text, _) => text
    case OtherStr(text, _) => text
  }

  /** `(float) $v`. */
  function ToFloat(v: Scalar): real {
    match v
    case Null => 0.0
    case Bool(b) => if b then 1.0 else 0.0
    case Int(n) => n as real
    case Float(value, _) => value
    case NumericStr(_, value) => value
    case OtherStr(_, value) => value
  }

  /** A string is false in a boolean context exactly when it is "" or "0". */
  predicate TruthyText(s: string) {
    s != "" && s != "0"
  }

  /** PHP truthiness, as `if ($v)` and `!$v` read it. */
  predicate Truthy(v: Scalar) {
    match v
    case Null => false
    case Bool(b) => b
    case Int(n) => n != 0
    case Float(value, _) => value != 0.0
    case NumericStr(text, _) => TruthyText(text)
    case OtherStr(text, _) => TruthyText(text)
  }
}
