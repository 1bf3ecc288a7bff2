/** The filter controls: each handler builds the next `Filters` record from
    the current one and a value read from an input, changing only the
    fields it is about. */
module ControlPanel {
  import opened Types

  /** The string-valued filters `handleChange` can be bound to. */
  datatype FilterField = TimeRangeField | CategoryField | TypeField | SearchField | AccountField

  /** The two date inputs of the custom range. */
  datatype DateField = FromDate | ToDate

  /** What a control shows for a filter: the key a select is set to, or the
      text of an input. */
  function FieldText(f: Filters, key: FilterField): string
  {
    match key
    case TimeRangeField => TimeRangeKey(f.timeRange)
    case CategoryField => f.category
    case TypeField => TypeFilterKey(f.kind)
    case SearchField => f.search
    case AccountField => f.account
  }

  /** The values a control can produce: the time-range and type selects
      only offer the keys of their options, the others take any text. */
  predicate Accepts(key: FilterField, value: string)
  {
    match key
    case TimeRangeField => ParseTimeRange(value).Some?
    case TypeField => ParseTypeFilter(value).Some?
    case _ => true
  }

  /** `g` agrees with `f` on every filter except `key`. */
  ghost predicate SameExcept(f: Filters, g: Filters, key: FilterField)
  {
    (key != TimeRangeField ==> g.timeRange == f.timeRange)
    && (key != CategoryField ==> g.category == f.category)
    && (key != TypeField ==> g.kind == f.kind)
    && (key != SearchField ==> g.search == f.search)
    && (key != AccountField ==> g.account == f.account)
    && g.from == f.from && g.to == f.to
  }

  /** Every value a control shows is one it accepts. */
  lemma ShownValuesAccepted(f: Filters, key: FilterField)
    ensures Accepts(key, FieldText(f, key))
  {
  }

  /** `handleChange(key)`: the filter `key` takes the input's value and no
      other filter changes. */
  function HandleChange(f: Filters, key: FilterField, value: string): (r: Filters)
    requires Accepts(key, value)
    ensures FieldText(r, key) == value
    ensures SameExcept(f, r, key)
  {
    match key
    case TimeRangeField =>
      var range := ParseTimeRange(value).value;
      TimeRangeKeyRoundTrip(value, range);
      f.(timeRange := range)
    case CategoryField => f.(category := value)
    case TypeField =>
      var kind := ParseTypeFilter(value).value;
      TypeFilterKeyRoundTrip(value, kind);
      f.(kind := kind)
    case SearchField => f.(search := value)
    case AccountField => f.(account := value)
  }

  /** Setting a filter back to the value it showed before undoes the change. */
  lemma HandleChangeUndo(f: Filters, key: FilterField, value: string)
    requires Accepts(key, value)
    ensures Accepts(key, FieldText(f, key))
    ensures HandleChange(HandleChange(f, key, value), key, FieldText(f, key)) == f
  {
  }

  /** Choosing the same value twice is choosing it once. */
  lemma HandleChangeIdempotent(f: Filters, key: FilterField, value: string)
    requires Accepts(key, value)
    ensures HandleChange(HandleChange(f, key, value), key, value) == HandleChange(f, key, value)
  {
  }

  /** `handleDateChange(key)`: an emptied date input clears the bound, any
      other value sets it to `date`, the instant `new Date(value)` gives;
      nothing else changes. */
  function HandleDateChange(f: Filters, key: DateField, value: string, date: int): (r: Filters)
    ensures key == FromDate ==> r.from == (if value == "" then None else Some(date)) && r.to == f.to
    ensures key == ToDate ==> r.to == (if value == "" then None else Some(date)) && r.from == f.from
    ensures r.(from := f.from, to := f.to) == f
  {
    var bound := if value == "" then None else Some(date);
    match key
    case FromDate => f.(from := bound)
    case ToDate => f.(to := bound)
  }

  /** The two date inputs are independent: setting one and then the other
      gives the same record in either order. */
  lemma DateChangesCommute(f: Filters, v1: string, d1: int, v2: string, d2: int)
    ensures HandleDateChange(HandleDateChange(f, FromDate, v1, d1), ToDate, v2, d2)
         == HandleDateChange(HandleDateChange(f, ToDate, v2, d2), FromDate, v1, d1)
  {
  }

  /** `handleSearch`: replaces the search text only. */
  function HandleSearch(f: Filters, value: string): (r: Filters)
    ensures r.search == value && r.(search := f.search) == f
  {
    f.(search := value)
  }

  /** The category select's handler: replaces the category only. */
  function SelectCategory(f: Filters, value: string): (r: Filters)
    ensures r.category == value && r.(category := f.category) == f
  {
    f.(category := value)
  }

  /** The search box and the category select do what `handleChange` does
      for those keys. */
  lemma DedicatedHandlersAgree(f: Filters, value: string)
    ensures HandleSearch(f, value) == HandleChange(f, SearchField, value)
    ensures SelectCategory(f, value) == HandleChange(f, CategoryField, value)
  {
  }

  /** The time-range select's handler: sets the range and keeps the custom
      bounds only when the range chosen is "CUSTOM"; every other range clears
      both bounds. */
  function SelectTimeRange(f: Filters, value: string): (r: Filters)
    requires ParseTimeRange(value).Some?
    ensures TimeRangeKey(r.timeRange) == value
    ensures value == "CUSTOM" ==> r.from == f.from && r.to == f.to
    ensures value != "CUSTOM" ==> r.from == None && r.to == None
    ensures r.(timeRange := f.timeRange, from := f.from, to := f.to) == f
  {
    var range := ParseTimeRange(value).value;
    TimeRangeKeyRoundTrip(value, range);
    f.(timeRange := range,
       from := if value == "CUSTOM" then f.from else None,
       to := if value == "CUSTOM" then f.to else None)
  }

  /** The range select does what a plain `handleChange("timeRange")` would do
      exactly when it chooses "CUSTOM" or there were no bounds to clear. */
  lemma TimeRangeSelectVersusHandleChange(f: Filters, value: string)
    requires ParseTimeRange(value).Some?
    ensures SelectTimeRange(f, value) == HandleChange(f, TimeRangeField, value)
        <==> value == "CUSTOM" || (f.from == None && f.to == None)
  {
  }

  /** Leaving a custom range for a preset and coming back to "CUSTOM" does
      not restore the old bounds: the custom range starts open. */
  lemma CustomAfterPresetIsOpen(f: Filters, preset: string)
    requires ParseTimeRange(preset).Some? && preset != "CUSTOM"
    ensures SelectTimeRange(SelectTimeRange(f, preset), "CUSTOM").from == None
    ensures SelectTimeRange(SelectTimeRange(f, preset), "CUSTOM").to == None
    ensures SelectTimeRange(SelectTimeRange(f, preset), "CUSTOM").timeRange == Custom
  {
  }
}
