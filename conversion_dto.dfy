/**
 * App\DTO\ConversionRequest: the record `fromArray` builds from a query or JSON object, and
 * the constraint attributes on its three properties, which the Symfony validator checks.
 */
module ConversionDto {
  import opened PhpStrings
  import opened PhpValues
  import opened Errors
  import opened FormatHelper

  datatype ConversionRequest = ConversionRequest(amount: real, sourceCurrency: string, targetCurrency: string)

  /** `strtoupper((string)($input[key] ?? ''))`, how `from` and `to` are read. */
  function CodeField(input: Fields, key: string): string {
    ToUpper(ToText(Coalesce(input, key, OtherStr("", 0.0))))
  }

  /** fromArray: `amount` goes through `(float)`, `from` and `to` through `(string)` and
      strtoupper. Absent or null entries read as 0 and "". The codes are not trimmed. */
  function FromArray(input: Fields): (r: ConversionRequest)
    ensures "amount" !in input ==> r.amount == 0.0
    ensures "from" !in input ==> r.sourceCurrency == ""
    ensures "to" !in input ==> r.targetCurrency == ""
    ensures forall i :: 0 <= i < |r.sourceCurrency| ==> !IsLowerAscii(r.sourceCurrency[i])
    ensures forall i :: 0 <= i < |r.targetCurrency| ==> !IsLowerAscii(r.targetCurrency[i])
  {
    ConversionRequest(
      ToFloat(Coalesce(input, "amount", Int(0))),
      CodeField(input, "from"),
      CodeField(input, "to"))
  }

  /** The request satisfies every constraint: a non-negative amount and two codes of exactly
      three characters in A-Z. */
  predicate Valid(r: ConversionRequest) {
    r.amount >= 0.0 && IsCurrencyCode(r.sourceCurrency) && IsCurrencyCode(r.targetCurrency)
  }

  /** NotBlank never fires on a float (0.0 is not blank: '0' == 0.0); PositiveOrZero fires on
      a negative amount. */
  function AmountViolations(amount: real): seq<Violation> {
    if amount < 0.0 then [Violation("amount", PositiveOrZero)] else []
  }

  /** NotBlank fires on ""; Length(exactly: 3) on any other length; Regex skips "" and
      otherwise fires when preg_match fails. */
  function CodeViolations(property: string, code: string): seq<Violation> {
    (if code == "" then [Violation(property, NotBlank)] else [])
    + (if |code| != 3 then [Violation(property, Length)] else [])
    + (if code != "" && !MatchesCurrencyPattern(code) then [Violation(property, Regex)] else [])
  }

  /** The validator's violation list, property by property in declaration order. */
  function Violations(r: ConversionRequest): (v: seq<Violation>)
    ensures v == [] <==> Valid(r)
    ensures forall i :: 0 <= i < |v| ==>
      v[i].property in {"amount", "sourceCurrency", "targetCurrency"}
  {
    AmountViolations(r.amount)
    + CodeViolations("sourceCurrency", r.sourceCurrency)
    + CodeViolations("targetCurrency", r.targetCurrency)
  }

  /** A code passes its three constraints exactly when it is three letters A-Z. */
  lemma CodeViolationsEmpty(property: string, code: string)
    ensures CodeViolations(property, code) == [] <==> IsCurrencyCode(code)
  {
  }

  /** "USD\n" satisfies the Regex constraint, since PCRE's `$` matches before a final newline,
      but the Length constraint still rejects it. */
  lemma TrailingNewlineRejected()
    ensures MatchesCurrencyPattern("USD\n")
    ensures CodeViolations("sourceCurrency", "USD\n") == [Violation("sourceCurrency", Length)]
  {
    assert "USD\n"[..3] == "USD";
  }

  /** Lower-case codes are upper-cased, so "usd" becomes the valid "USD"; a padded " usd " is
      not trimmed and stays invalid. */
  lemma FromArrayCodes(input: Fields)
    requires "from" in input && "to" in input
    requires input["from"] == OtherStr("usd", 0.0) && input["to"] == OtherStr(" gbp", 0.0)
    ensures FromArray(input).sourceCurrency == "USD"
    ensures FromArray(input).targetCurrency == " GBP"
    ensures !Valid(FromArray(input))
  {
    var src, tgt := "usd", " gbp";
    var u := ToUpper(src);
    assert u[0] == 'U' && u[1] == 'S' && u[2] == 'D';
    var t := ToUpper(tgt);
    assert t[0] == ' ' && t[1] == 'G' && t[2] == 'B' && t[3] == 'P';
  }

  /** An empty input builds amount 0.0 and two empty codes, which fail NotBlank and Length. */
  lemma FromEmptyArray()
    ensures FromArray(map[]) == ConversionRequest(0.0, "", "")
    ensures Violations(FromArray(map[])) ==
      [Violation("sourceCurrency", NotBlank), Violation("sourceCurrency", Length),
       Violation("targetCurrency", NotBlank), Violation("targetCurrency", Length)]
  {
  }

  /** App\Dto\ConversionResponse, and the JSON object getConvert answers with. The formatted
      amount and the timestamp come from ICU and the clock and are carried as given. */
  datatype ConversionResponse = ConversionResponse(
    amount: real, from: string, to: string, rate: real, converted: real,
    formatted: string, source: string, timestamp: string)
}
