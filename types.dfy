/** The records shared by the ledger, the transaction form and the filter
    controls, with the string keys under which the time range and the type
    filter travel through `<select>` elements. */
module Types {

  datatype Option<+T> = None | Some(value: T)

  /** Whether a transaction takes money out or brings it in. */
  datatype TransactionType = Expense | Income

  /** A stored transaction. `date` is the instant in milliseconds, as
      `new Date(date).getTime()` reads it back; `project` and `notes` are
      optional. */
  datatype Transaction = Transaction(
    id: string,
    kind: TransactionType,
    amount: real,
    category: string,
    description: string,
    date: int,
    account: string,
    project: Option<string>,
    notes: Option<string>)

  /** A transaction before it is stored: no id yet, and a date object
      rather than a stored date string. */
  datatype Draft = Draft(
    kind: TransactionType,
    amount: real,
    category: string,
    description: string,
    date: int,
    account: string,
    project: Option<string>,
    notes: Option<string>)

  datatype TimeRange = All | MonthToDate | LastMonth | Last90Days | YearToDate | Custom

  /** The type filter: every transaction, or one type only. */
  datatype TypeFilter = AnyType | OnlyType(t: TransactionType)

  /** A view specification. `from` and `to` are `Date | null | undefined`
      in the source; the model folds null and undefined into `None`. */
  datatype Filters = Filters(
    timeRange: TimeRange,
    category: string,
    kind: TypeFilter,
    search: string,
    account: string,
    from: Option<int>,
    to: Option<int>)

  /** The string a time range is selected by. */
  function TimeRangeKey(r: TimeRange): string
  {
    match r
    case All => "ALL"
    case MonthToDate => "MONTH_TO_DATE"
    case LastMonth => "LAST_MONTH"
    case Last90Days => "LAST_90_DAYS"
    case YearToDate => "YEAR_TO_DATE"
    case Custom => "CUSTOM"
  }

  /** The time range a selected string names, if any. */
  function ParseTimeRange(s: string): Option<TimeRange>
  {
    if s == "ALL" then Some(All)
    else if s == "MONTH_TO_DATE" then Some(MonthToDate)
    else if s == "LAST_MONTH" then Some(LastMonth)
    else if s == "LAST_90_DAYS" then Some(Last90Days)
    else if s == "YEAR_TO_DATE" then Some(YearToDate)
    else if s == "CUSTOM" then Some(Custom)
    else None
  }

  /** The string a type filter is selected by. */
  function TypeFilterKey(f: TypeFilter): string
  {
    match f
    case AnyType => "all"
    case OnlyType(Expense) => "expense"
    case OnlyType(Income) => "income"
  }

  /** The type filter a selected string names, if any. */
  function ParseTypeFilter(s: string): Option<TypeFilter>
  {
    if s == "all" then Some(AnyType)
    else if s == "expense" then Some(OnlyType(Expense))
    else if s == "income" then Some(OnlyType(Income))
    else None
  }

  /** Parsing and printing a time-range key are inverse: a string parses to
      a range exactly when it is that range's key. */
  lemma TimeRangeKeyRoundTrip(s: string, r: TimeRange)
    ensures ParseTimeRange(s) == Some(r) <==> TimeRangeKey(r) == s
  {
  }

  /** Parsing and printing a type-filter key are inverse. */
  lemma TypeFilterKeyRoundTrip(s: string, f: TypeFilter)
    ensures ParseTypeFilter(s) == Some(f) <==> TypeFilterKey(f) == s
  {
  }
}
