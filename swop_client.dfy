/**
 * App\Service\SwopApiClient::fetchExchangeCurrency: the status check and the scan over the
 * decoded rate rows. The HTTP exchange itself is a parameter: what the transport returned.
 */
module SwopClient {
  import opened Wrappers
  import opened PhpStrings
  import opened PhpValues
  import opened Errors

  /** One element of the decoded payload: an object with scalar entries, or anything else. */
  datatype Row = NotArray | Fields(entries: PhpValues.Fields)

  /** What `toArray(false)` gives: the payload's elements in order, or a decoding failure. */
  datatype Payload = Rows(rows: seq<Row>) | Undecodable

  /** The outcome of the GET request: a transport failure, or a status and a payload. */
  datatype HttpReply = TransportFailure | Reply(status: int, payload: Payload)

  /** `$row['quote'] ?? $row['rate'] ?? null`: the candidate value of a row. */
  function RowValue(entries: PhpValues.Fields): Scalar {
    Coalesce(entries, "quote", Coalesce(entries, "rate", Null))
  }

  /** Whether the row is quoted in the requested currency, compared case-insensitively. */
  predicate RowMatches(entries: PhpValues.Fields, quoteCurrency: string) {
    ToUpper(ToText(Coalesce(entries, "quote_currency", OtherStr("", 0.0)))) == ToUpper(quoteCurrency)
  }

  /** The rate a single row supplies for the requested currency, if it supplies one. */
  function RowRate(row: Row, quoteCurrency: string): (r: Option<real>)
    ensures r.Some? ==> row.Fields? && RowMatches(row.entries, quoteCurrency)
    ensures r.Some? ==> IsNumeric(RowValue(row.entries)) && r.value == ToFloat(RowValue(row.entries))
    ensures row.Fields? && RowMatches(row.entries, quoteCurrency) && IsNumeric(RowValue(row.entries)) ==> r.Some?
  {
    match row
    case NotArray => None
    case Fields(entries) =>
      if RowMatches(entries, quoteCurrency) && IsNumeric(RowValue(entries)) then
        Some(ToFloat(RowValue(entries)))
      else
        None
  }

  /** The rate of the first row, in payload order, that supplies one. */
  function FirstRate(rows: seq<Row>, quoteCurrency: string): Option<real> {
    if |rows| == 0 then None
    else if RowRate(rows[0], quoteCurrency).Some? then RowRate(rows[0], quoteCurrency)
    else FirstRate(rows[1..], quoteCurrency)
  }

  /** What fetchExchangeCurrency returns or throws for a given reply. */
  function Fetch(quoteCurrency: string, reply: HttpReply): Result<real, Exception> {
    match reply
    case TransportFailure => Failure(Unexpected(Transport))
    case Reply(status, payload) =>
      if status != 200 then Failure(Swop(HttpStatus(status)))
      else match payload
        case Undecodable => Failure(Unexpected(Decoding))
        case Rows(rows) =>
          match FirstRate(rows, quoteCurrency)
          case Some(v) => Success(v)
          case None => Failure(Swop(MissingRate(quoteCurrency)))
  }

  /** The method as written: check the status, then walk the rows with `continue` and an early
      return. */
  method FetchExchangeCurrency(quoteCurrency: string, reply: HttpReply) returns (r: Result<real, Exception>)
    ensures r == Fetch(quoteCurrency, reply)
  {
    if reply.TransportFailure? {
      return Failure(Unexpected(Transport));
    }
    if reply.status != 200 {
      return Failure(Swop(HttpStatus(reply.status)));
    }
    if reply.payload.Undecodable? {
      return Failure(Unexpected(Decoding));
    }
    var rows := reply.payload.rows;
    var i := 0;
    while i < |rows|
      invariant 0 <= i <= |rows|
      invariant FirstRate(rows, quoteCurrency) == FirstRate(rows[i..], quoteCurrency)
    {
      var row := rows[i];
      assert rows[i..][1..] == rows[i + 1..];
      if !row.Fields? {
        i := i + 1;
        continue;
      }
      if RowMatches(row.entries, quoteCurrency) {
        var val := RowValue(row.entries);
        if IsNumeric(val) {
          return Success(ToFloat(val));
        }
      }
      i := i + 1;
    }
    return Failure(Swop(MissingRate(quoteCurrency)));
  }

  /** The row FirstRate picks: the first one that supplies a rate, and no earlier row does. */
  lemma {:induction false} FirstRateAt(rows: seq<Row>, quoteCurrency: string, i: int)
    requires 0 <= i < |rows| && RowRate(rows[i], quoteCurrency).Some?
    requires forall j :: 0 <= j < i ==> RowRate(rows[j], quoteCurrency).None?
    ensures FirstRate(rows, quoteCurrency) == RowRate(rows[i], quoteCurrency)
  {
    if i > 0 {
      FirstRateAt(rows[1..], quoteCurrency, i - 1);
    }
  }

  /** No rate at all exactly when no row supplies one. */
  lemma {:induction false} FirstRateNone(rows: seq<Row>, quoteCurrency: string)
    ensures FirstRate(rows, quoteCurrency).None? <==>
      forall j :: 0 <= j < |rows| ==> RowRate(rows[j], quoteCurrency).None?
  {
    if |rows| > 0 {
      FirstRateNone(rows[1..], quoteCurrency);
      assert forall j :: 1 <= j < |rows| ==> rows[1..][j - 1] == rows[j];
    }
  }

  /** Any status but 200 is reported as such, whatever the payload holds. */
  lemma StatusFirst(quoteCurrency: string, status: int, payload: Payload)
    requires status != 200
    ensures Fetch(quoteCurrency, Reply(status, payload)) == Failure(Swop(HttpStatus(status)))
  {
  }

  /** Elements that are not arrays are skipped. */
  lemma NotArraySkipped(before: seq<Row>, after: seq<Row>, quoteCurrency: string)
    ensures FirstRate(before + [NotArray] + after, quoteCurrency) == FirstRate(before + after, quoteCurrency)
  {
    FirstRateSkips(before, [NotArray], after, quoteCurrency);
  }

  /** Rows that supply no rate, wherever they stand, do not change the outcome. */
  lemma {:induction false} FirstRateSkips(before: seq<Row>, skipped: seq<Row>, after: seq<Row>, quoteCurrency: string)
    requires forall j :: 0 <= j < |skipped| ==> RowRate(skipped[j], quoteCurrency).None?
    ensures FirstRate(before + skipped + after, quoteCurrency) == FirstRate(before + after, quoteCurrency)
  {
    if |before| > 0 {
      assert (before + skipped + after)[1..] == before[1..] + skipped + after;
      assert (before + after)[1..] == before[1..] + after;
      FirstRateSkips(before[1..], skipped, after, quoteCurrency);
    } else if |skipped| > 0 {
      assert (skipped + after)[1..] == skipped[1..] + after;
      FirstRateSkips([], skipped[1..], after, quoteCurrency);
      assert before + skipped + after == skipped + after;
      assert before + skipped[1..] + after == skipped[1..] + after;
    } else {
      assert before + skipped + after == before + after;
    }
  }

  /** A matching row whose value is not numeric does not end the scan: a later matching row
      still supplies the rate. */
  lemma NonNumericMatchSkipped(entries: PhpValues.Fields, after: seq<Row>, quoteCurrency: string)
    requires RowMatches(entries, quoteCurrency) && !IsNumeric(RowValue(entries))
    ensures FirstRate([Fields(entries)] + after, quoteCurrency) == FirstRate(after, quoteCurrency)
  {
    assert ([Fields(entries)] + after)[1..] == after;
  }

  /** The value comes from `quote` when it is present and not null, and then `rate` is never
      consulted: a non-numeric `quote` makes the row unusable even with a numeric `rate`. */
  lemma QuoteShadowsRate(entries: PhpValues.Fields, quoteCurrency: string)
    requires "quote" in entries && !entries["quote"].Null?
    ensures RowValue(entries) == entries["quote"]
    ensures !IsNumeric(entries["quote"]) ==> RowRate(Fields(entries), quoteCurrency).None?
  {
  }

  /** A zero or negative numeric value is returned unchanged; positivity is not checked here. */
  lemma NonPositiveReturned(entries: PhpValues.Fields, quoteCurrency: string)
    requires RowMatches(entries, quoteCurrency)
    requires "quote" in entries && entries["quote"].Float? && entries["quote"].value <= 0.0
    ensures Fetch(quoteCurrency, Reply(200, Rows([Fields(entries)]))) == Success(entries["quote"].value)
  {
  }

  function QuoteRow(currency: string, quote: real, text: string): Row {
    Fields(map["base_currency" := OtherStr("EUR", 0.0), "quote_currency" := OtherStr(currency, 0.0),
               "quote" := Float(quote, text)])
  }

  /** The payload [EUR→USD 1.1, EUR→GBP 0.9] gives 1.1 for USD and 0.9 for GBP, and no rate
      for a currency it does not list. */
  lemma TwoRowPayload()
    ensures var reply := Reply(200, Rows([QuoteRow("USD", 1.1, "1.1"), QuoteRow("GBP", 0.9, "0.9")]));
      && Fetch("USD", reply) == Success(1.1)
      && Fetch("GBP", reply) == Success(0.9)
      && Fetch("CHF", reply) == Failure(Swop(MissingRate("CHF")))
  {
    var usd, gbp := QuoteRow("USD", 1.1, "1.1"), QuoteRow("GBP", 0.9, "0.9");
    assert [usd, gbp][1..] == [gbp];
    UpperCodes();
  }

  lemma UpperCodes()
    ensures ToUpper("USD") == "USD" && ToUpper("GBP") == "GBP" && ToUpper("CHF") == "CHF"
  {
    ToUpperKeepsUpper("USD");
    ToUpperKeepsUpper("GBP");
    ToUpperKeepsUpper("CHF");
  }
}
