/**
 * What the core throws. Each PHP exception class is one variant; the data an exception is
 * built from stands in for its message text.
 */
module Errors {

  /** The constraint attributes declared on ConversionRequest. */
  datatype Constraint = NotBlank | PositiveOrZero | Length | Regex

  /** One entry of the validator's ConstraintViolationList. */
  datatype Violation = Violation(property: string, constraint: Constraint)

  /** Why an \InvalidArgumentException was thrown. */
  datatype ArgumentError =
    | InvalidCurrencyCode(code: string)   // FormatHelper::normalizeCurrencyCode
    | NegativeAmount                      // MoneyConversionCalculator::convertAmount

  /** Why an App\Exception\ConversionException was thrown. */
  datatype ConversionError =
    | InvalidRates(eurToSource: real, eurToTarget: real)   // ConversionException::invalidRates
    | Rejected(violations: seq<Violation>)                 // (string) $violations in ConversionService

  /** Why an App\Exception\SwopApiException was thrown. */
  datatype SwopError =
    | HttpStatus(status: int)          // SwopApiException::fromHttpStatus
    | MissingRate(currency: string)    // SwopApiException::missingRate

  /** Throwables of the HTTP client library, which are none of the classes above. */
  datatype Fault = Transport | Decoding

  datatype Exception =
    | InvalidArgument(argument: ArgumentError)
    | Conversion(conversion: ConversionError)
    | Swop(swop: SwopError)
    | Unexpected(fault: Fault)
}
