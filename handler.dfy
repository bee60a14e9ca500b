/**
 * The request checks of the `NewTransaction` HTTP handler
 * (ae_money/transaction_handler.go) that run before any datastore access:
 * the Amounts/Accounts length check and `parseDate`.
 */
module Handler {
  import opened Wrappers
  import GoStrings

  /**
   * The arguments `parseDate` hands to `time.Date`: a year, month and day
   * at midnight UTC. The components are kept as parsed, without the
   * normalisation `time.Date` applies to out-of-range months and days.
   */
  datatype Date = Date(year: int, month: int, day: int)

  /** The decoded JSON body of a new-transaction request. */
  datatype TransactionRequest = TransactionRequest(
    amounts: seq<int>, accounts: seq<int>, memo: string, date: string)

  const LengthMismatch: string := "Amounts and accounts of different lengths"

  /** The error `parseDate` returns, naming the rejected input. */
  function ParseFailure(s: string): string {
    "Could not parse " + s + " as a date"
  }

  /** Exactly three '-'-separated components, each an integer `strconv.Atoi` accepts. */
  predicate IsDateString(s: string) {
    var c := GoStrings.Split(s, '-');
    |c| == 3 && forall i :: 0 <= i < 3 ==> GoStrings.Atoi(c[i]).Some?
  }

  /** The date an accepted string denotes: components 0, 1 and 2 as year, month and day. */
  function DateOf(s: string): Date
    requires IsDateString(s)
  {
    var c := GoStrings.Split(s, '-');
    Date(GoStrings.Atoi(c[0]).value, GoStrings.Atoi(c[1]).value, GoStrings.Atoi(c[2]).value)
  }

  /** `parseDate`: split on '-', require three components, convert each with `Atoi`. */
  method ParseDate(s: string) returns (r: Result<Date, string>)
    ensures r.Success? <==> IsDateString(s)
    ensures r.Success? ==> r.value == DateOf(s)
    ensures r.Failure? ==> r.error == ParseFailure(s)
  {
    var components := GoStrings.Split(s, '-');
    if |components| != 3 {
      return Failure(ParseFailure(s));
    }
    var dateparts := new int[3];
    var i := 0;
    while i < |components|
      invariant 0 <= i <= 3
      invariant forall k :: 0 <= k < i ==>
        GoStrings.Atoi(components[k]).Some? && dateparts[k] == GoStrings.Atoi(components[k]).value
    {
      var parsed := GoStrings.Atoi(components[i]);
      if parsed.None? {
        return Failure(ParseFailure(s));
      }
      dateparts[i] := parsed.value;
      i := i + 1;
    }
    return Success(Date(dateparts[0], dateparts[1], dateparts[2]));
  }

  /**
   * The checks `NewTransaction` makes on a decoded request before it touches
   * the datastore: the lengths first, then the date.
   */
  method CheckRequest(req: TransactionRequest) returns (r: Result<Date, string>)
    ensures |req.amounts| != |req.accounts| ==> r == Failure(LengthMismatch)
    ensures |req.amounts| == |req.accounts| ==>
      (r.Success? <==> IsDateString(req.date)) &&
      (r.Success? ==> r.value == DateOf(req.date)) &&
      (r.Failure? ==> r.error == ParseFailure(req.date))
  {
    if |req.amounts| != |req.accounts| {
      return Failure(LengthMismatch);
    }
    r := ParseDate(req.date);
  }

  /** An accepted date string holds exactly two '-' characters. */
  lemma DateStringDashes(s: string)
    requires IsDateString(s)
    ensures multiset(s)['-'] == 2
  {
    GoStrings.SplitCount(s, '-');
  }

  /** Year, month and day rendered in decimal and joined by '-'. */
  function FormatDate(d: Date): string {
    GoStrings.IntToString(d.year) + "-" + GoStrings.IntToString(d.month) + "-" + GoStrings.IntToString(d.day)
  }

  /** A date with non-negative components survives formatting and parsing. */
  lemma ParseOfFormat(d: Date)
    requires d.year >= 0 && d.month >= 0 && d.day >= 0
    ensures IsDateString(FormatDate(d)) && DateOf(FormatDate(d)) == d
  {
    var y, m, dd := GoStrings.IntToString(d.year), GoStrings.IntToString(d.month), GoStrings.IntToString(d.day);
    var parts := [y, m, dd];
    GoStrings.NatToStringHasNoDash(d.year);
    GoStrings.NatToStringHasNoDash(d.month);
    GoStrings.NatToStringHasNoDash(d.day);
    assert parts[1..] == [m, dd] && parts[1..][1..] == [dd];
    assert GoStrings.Join(parts[1..], '-') == m + "-" + dd;
    assert GoStrings.Join(parts, '-') == y + "-" + (m + "-" + dd);
    assert y + "-" + (m + "-" + dd) == FormatDate(d);
    GoStrings.SplitOfJoin(parts, '-');
    GoStrings.AtoiOfIntToString(d.year);
    GoStrings.AtoiOfIntToString(d.month);
    GoStrings.AtoiOfIntToString(d.day);
  }

  lemma AcceptedDateSplit()
    ensures GoStrings.Split("2014-11-01", '-') == ["2014", "11", "01"]
  {
    var parts := ["2014", "11", "01"];
    assert parts[1..] == ["11", "01"] && parts[1..][1..] == ["01"];
    assert GoStrings.Join(parts, '-') == "2014-11-01";
    GoStrings.SplitOfJoin(parts, '-');
  }

  lemma AcceptedDateParts()
    ensures GoStrings.Atoi("2014") == Some(2014)
    ensures GoStrings.Atoi("11") == Some(11)
    ensures GoStrings.Atoi("01") == Some(1)
  {
    assert "2014"[..3] == "201" && "201"[..2] == "20" && "20"[..1] == "2" && "2"[..0] == "";
    assert "11"[..1] == "1" && "1"[..0] == "";
    assert "01"[..1] == "0" && "0"[..0] == "";
  }

  lemma DateFromParts(s: string)
    requires GoStrings.Split(s, '-') == ["2014", "11", "01"]
    ensures IsDateString(s) && DateOf(s) == Date(2014, 11, 1)
  {
    AcceptedDateParts();
  }

  /** "2014-11-01" denotes the first of November 2014. */
  lemma AcceptedDateExample()
    ensures IsDateString("2014-11-01") && DateOf("2014-11-01") == Date(2014, 11, 1)
  {
    AcceptedDateSplit();
    DateFromParts("2014-11-01");
  }

  /** A string without '-' is a single component, so it is never a date. */
  lemma NoDashRejected(s: string)
    requires '-' !in s
    ensures !IsDateString(s)
  {
    GoStrings.SplitWithoutSeparator(s, '-');
  }

  /** The accepted date of transaction_handler_test.go. */
  method ParseDateAccepts() returns (good: Result<Date, string>)
    ensures good == Success(Date(2014, 11, 1))
  {
    AcceptedDateExample();
    good := ParseDate("2014-11-01");
  }

  /** The rejected dates of transaction_handler_test.go: a missing one and words. */
  method ParseDateRejects() returns (empty: Result<Date, string>, words: Result<Date, string>)
    ensures empty == Failure(ParseFailure(""))
    ensures words == Failure(ParseFailure("Not a real date"))
  {
    NoDashRejected("");
    empty := ParseDate("");

    NoDashRejected("Not a real date");
    words := ParseDate("Not a real date");
  }

  /** Three amounts for two accounts are rejected, however good the date. */
  method MismatchedLengthsExample() returns (r: Result<Date, string>)
    ensures r == Failure("Amounts and accounts of different lengths")
  {
    r := CheckRequest(TransactionRequest([123, -100, -23], [1, 2], "Bad transaction", "2014-11-01"));
  }
}
