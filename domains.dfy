/**
 * Search domains and how a report resolves the one it sends to the record
 * store: the user's filter text, then the time window, then any extra
 * predicates supplied by the caller.
 */
module Domains {
  import opened Wrappers
  import opened Calendar

  /** A field value as it travels in a domain term or a read record. */
  datatype Val =
    | VText(text: string)
    | VInt(number: int)
    | VReal(amount: real)
    | VBool(flag: bool)
    | VDate(date: Date)
    | VPair(id: int, name: string)   // a many2one value: (id, display name)
    | VNone                          // Python's None / False for an empty field

  /** One element of a domain list: a `(field, operator, value)` triple or a prefix connective. */
  datatype Term = Leaf(field: string, op: string, value: Val) | Connective(symbol: string)

  type Domain = seq<Term>

  /** The time-filter selection; `Unset` is the empty selection. */
  datatype TimeFilter = Last3Months | Last6Months | ThisYear | Custom | Unset

  /**
   * `_eval_domain`: an empty filter text means no restriction; otherwise the
   * text is handed to the expression evaluator `parse`, and a text it
   * rejects also means no restriction (the filter fails open).
   */
  function EvalDomain(text: string, parse: string -> Option<Domain>): (d: Domain)
    ensures text == "" ==> d == []
    ensures text != "" && parse(text).Some? ==> d == parse(text).value
    ensures text != "" && parse(text).None? ==> d == []
  {
    if text == "" then []
    else match parse(text)
      case Some(parsed) => parsed
      case None => []
  }

  /** The two predicates bounding `create_date` to `[start, end]`. */
  function CreatedBetween(start: Date, end: Date): Domain {
    [Leaf("create_date", ">=", VDate(start)), Leaf("create_date", "<=", VDate(end))]
  }

  /**
   * `_get_time_domain`: the window the time filter selects, anchored on
   * `today`, or no predicate when no window applies.
   */
  function TimeDomain(filter: TimeFilter, dateFrom: Option<Date>, dateTo: Option<Date>, today: Date): (d: Domain)
    ensures filter == ThisYear ==> d == CreatedBetween(Ymd(today.year, 1, 1), Ymd(today.year, 12, 31))
    ensures filter == Last3Months ==> d == CreatedBetween(SubMonths(today, 3), today)
    ensures filter == Last6Months ==> d == CreatedBetween(SubMonths(today, 6), today)
    ensures filter == Custom ==> (d != [] <==> dateFrom.Some? && dateTo.Some?)
    ensures filter == Custom && dateFrom.Some? && dateTo.Some? ==> d == CreatedBetween(dateFrom.value, dateTo.value)
    ensures filter == Unset ==> d == []
  {
    var window: Option<(Date, Date)> :=
      match filter
      case Last3Months => Some((SubMonths(today, 3), today))
      case Last6Months => Some((SubMonths(today, 6), today))
      case ThisYear => Some((YearStart(today), YearEnd(today)))
      case Custom => if dateFrom.Some? && dateTo.Some? then Some((dateFrom.value, dateTo.value)) else None
      case Unset => None;
    match window
    case Some((start, end)) => CreatedBetween(start, end)
    case None => []
  }

  /**
   * The domain a report actually queries with: filter, then time window,
   * then the caller's extra predicates when there are any.
   */
  function EffectiveDomain(text: string, parse: string -> Option<Domain>, window: Domain, extra: Domain): (d: Domain)
    ensures |d| == |EvalDomain(text, parse)| + |window| + |extra|
    ensures d[..|EvalDomain(text, parse)|] == EvalDomain(text, parse)
    ensures d[|EvalDomain(text, parse)|..|EvalDomain(text, parse)| + |window|] == window
    ensures d[|EvalDomain(text, parse)| + |window|..] == extra
  {
    var base := EvalDomain(text, parse) + window;
    if |extra| > 0 then base + extra else base
  }

  /**
   * Every window the resolver builds with a relative filter is a proper
   * interval that contains `today`.
   */
  lemma RelativeWindowContainsToday(filter: TimeFilter, dateFrom: Option<Date>, dateTo: Option<Date>, today: Date)
    requires filter in {Last3Months, Last6Months, ThisYear}
    ensures var d := TimeDomain(filter, dateFrom, dateTo, today);
      && |d| == 2
      && d[0].Leaf? && d[1].Leaf? && d[0].value.VDate? && d[1].value.VDate?
      && OnOrBefore(d[0].value.date, today) && OnOrBefore(today, d[1].value.date)
  {
    if filter == Last3Months {
      SubMonthsNotAfter(today, 3);
    } else if filter == Last6Months {
      SubMonthsNotAfter(today, 6);
    }
  }
}
