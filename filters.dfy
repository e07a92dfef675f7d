/** The two record filters the tables share: the inclusive date range every
    table applies to its rows, and the case-insensitive driver-name search of
    the driver payment and advance tables.

    A date string becomes a time value through `parse`, which stands for
    `new Date(text)`: `None` is an Invalid Date, whose time value is NaN. */
module Filters {
  import opened Common
  import opened JsValues

  /** The bound a date-range input stands for: an empty input is the given
      default, anything else is whatever `new Date` makes of it. */
  function BoundTime(input: string, default: TimeValue, parse: string -> Option<TimeValue>): Option<TimeValue>
  {
    if input != "" then parse(input) else Some(default)
  }

  /** The predicate of every table's `data.filter`: no filtering when both
      inputs are empty; otherwise `start <= date <= end`, where a missing start
      is the epoch, a missing end is the largest date, and any comparison with
      an Invalid Date is false. */
  predicate InDateRange(startDate: string, endDate: string, parse: string -> Option<TimeValue>, date: string)
  {
    if startDate == "" && endDate == "" then true
    else
      match (parse(date), BoundTime(startDate, Epoch, parse), BoundTime(endDate, MaxTime, parse))
      case (Some(d), Some(s), Some(e)) => s <= d <= e
      case _ => false
  }

  /** The date filter as the tables apply it, reading each record's date
      through `dateOf`. */
  function FilterByDate<T>(s: seq<T>, dateOf: T -> string, startDate: string, endDate: string,
                           parse: string -> Option<TimeValue>): (r: seq<T>)
    ensures Subsequence(r, s)
    ensures forall i :: 0 <= i < |r| ==> r[i] in s && InDateRange(startDate, endDate, parse, dateOf(r[i]))
    ensures forall i :: 0 <= i < |s| && InDateRange(startDate, endDate, parse, dateOf(s[i])) ==> s[i] in r
  {
    var p := x => InDateRange(startDate, endDate, parse, dateOf(x));
    FilterIsSubsequence(s, p);
    Filter(s, p)
  }

  /** With both inputs empty every record is kept, in its original order. */
  lemma NoBoundsKeepsAll<T>(s: seq<T>, dateOf: T -> string, parse: string -> Option<TimeValue>)
    ensures FilterByDate(s, dateOf, "", "", parse) == s
  {
    FilterAll(s, x => InDateRange("", "", parse, dateOf(x)));
  }

  /** Once a bound is set, a record whose date does not parse never passes, and
      neither does any record when a non-empty bound does not parse. */
  lemma InvalidDatesExcluded(startDate: string, endDate: string, parse: string -> Option<TimeValue>, date: string)
    requires startDate != "" || endDate != ""
    requires parse(date).None?
             || (startDate != "" && parse(startDate).None?)
             || (endDate != "" && parse(endDate).None?)
    ensures !InDateRange(startDate, endDate, parse, date)
  {
  }

  /** With both bounds set and valid, the range is inclusive at both ends. */
  lemma BothBoundsInclusive(startDate: string, endDate: string, parse: string -> Option<TimeValue>, date: string)
    requires startDate != "" && endDate != ""
    requires parse(startDate).Some? && parse(endDate).Some? && parse(date).Some?
    ensures InDateRange(startDate, endDate, parse, date)
            <==> parse(startDate).value <= parse(date).value <= parse(endDate).value
  {
  }

  /** A missing end bound imposes no upper limit: every valid date is at most
      the largest time value. */
  lemma MissingEndIsUnbounded(startDate: string, parse: string -> Option<TimeValue>, date: string)
    requires startDate != "" && parse(startDate).Some?
    ensures InDateRange(startDate, "", parse, date)
            <==> parse(date).Some? && parse(startDate).value <= parse(date).value
  {
  }

  /** A missing start bound is the epoch, not minus infinity: a valid date
      before 1970 is filtered out as soon as an end bound is set. */
  lemma MissingStartIsEpoch(endDate: string, parse: string -> Option<TimeValue>, date: string)
    requires endDate != "" && parse(endDate).Some?
    ensures InDateRange("", endDate, parse, date)
            <==> parse(date).Some? && Epoch <= parse(date).value <= parse(endDate).value
  {
  }

  /** The driver search of the driver payment and advance tables:
      `driverName.toLowerCase().includes(term.toLowerCase())`. */
  predicate DriverMatches(driverName: string, term: string)
  {
    Includes(Lower(driverName), Lower(term))
  }

  /** The search keeps a record exactly when the lower-cased term occurs in the
      lower-cased name; the empty term keeps every record. */
  lemma DriverMatchesIffOccurs(driverName: string, term: string)
    ensures DriverMatches(driverName, term) ==> exists i :: OccursAt(Lower(driverName), Lower(term), i)
    ensures (exists i :: OccursAt(Lower(driverName), Lower(term), i)) ==> DriverMatches(driverName, term)
    ensures DriverMatches(driverName, "")
  {
    var name, t := Lower(driverName), Lower(term);
    IncludesIffOccurs(name, t);
    assert DriverMatches(driverName, term) <==> Includes(name, t);
    assert Lower("") == "";
  }

  /** The search ignores ASCII case on both sides. */
  lemma DriverMatchesIgnoresCase(driverName: string, term: string)
    ensures DriverMatches(driverName, term) == DriverMatches(Lower(driverName), Lower(term))
  {
    LowerIdempotent(driverName);
    LowerIdempotent(term);
  }

  lemma LowerIdempotent(s: string)
    ensures Lower(Lower(s)) == Lower(s)
  {
    assert forall i :: 0 <= i < |s| ==> LowerChar(LowerChar(s[i])) == LowerChar(s[i]);
  }

  /** The driver search applied to a list, reading each record's driver name
      through `nameOf`. */
  function SearchByDriver<T>(s: seq<T>, nameOf: T -> string, term: string): (r: seq<T>)
    ensures Subsequence(r, s)
    ensures forall i :: 0 <= i < |r| ==> r[i] in s && DriverMatches(nameOf(r[i]), term)
    ensures forall i :: 0 <= i < |s| && DriverMatches(nameOf(s[i]), term) ==> s[i] in r
  {
    var p := x => DriverMatches(nameOf(x), term);
    FilterIsSubsequence(s, p);
    Filter(s, p)
  }

  /** An empty search box shows every record it is given. */
  lemma EmptySearchKeepsAll<T>(s: seq<T>, nameOf: T -> string)
    ensures SearchByDriver(s, nameOf, "") == s
  {
    forall x | true
      ensures DriverMatches(nameOf(x), "")
    {
      DriverMatchesIffOccurs(nameOf(x), "");
    }
    FilterAll(s, x => DriverMatches(nameOf(x), ""));
  }

  /** Searching the date-filtered records is one filter by both conditions. */
  lemma SearchAfterDateFilter<T>(s: seq<T>, dateOf: T -> string, nameOf: T -> string, startDate: string,
                                 endDate: string, term: string, parse: string -> Option<TimeValue>)
    ensures SearchByDriver(FilterByDate(s, dateOf, startDate, endDate, parse), nameOf, term)
            == Filter(s, x => InDateRange(startDate, endDate, parse, dateOf(x)) && DriverMatches(nameOf(x), term))
  {
    var inRange := x => InDateRange(startDate, endDate, parse, dateOf(x));
    var matches := x => DriverMatches(nameOf(x), term);
    FilterFilter(s, inRange, matches,
                 x => InDateRange(startDate, endDate, parse, dateOf(x)) && DriverMatches(nameOf(x), term));
  }

  /** The date filter of a concatenation is the concatenation of the filters. */
  lemma FilterByDateAppend<T>(a: seq<T>, b: seq<T>, dateOf: T -> string, startDate: string, endDate: string,
                              parse: string -> Option<TimeValue>)
    ensures FilterByDate(a + b, dateOf, startDate, endDate, parse)
            == FilterByDate(a, dateOf, startDate, endDate, parse) + FilterByDate(b, dateOf, startDate, endDate, parse)
  {
    FilterAppend(a, b, x => InDateRange(startDate, endDate, parse, dateOf(x)));
  }

  /** The search of a concatenation is the concatenation of the searches. */
  lemma SearchByDriverAppend<T>(a: seq<T>, b: seq<T>, nameOf: T -> string, term: string)
    ensures SearchByDriver(a + b, nameOf, term) == SearchByDriver(a, nameOf, term) + SearchByDriver(b, nameOf, term)
  {
    FilterAppend(a, b, x => DriverMatches(nameOf(x), term));
  }
}
