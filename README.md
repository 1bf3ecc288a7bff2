# Expense tracker core in Dafny

This project models the state logic of a personal expense tracker, a
Next.js app.

- **Ledger.** The `useExpenses` hook keeps the ledger of transactions most
  recent first (`normalize`). It creates a stored transaction from a form
  draft, removes transactions by id, replaces the filters through an
  updater, and computes the paid / received / net totals of the filtered
  list.
- **Transaction form.** `TransactionForm` edits a draft field by field. It
  guards submission with `canSubmit`, and after a submission it resets the
  draft while keeping the type, category and account.
- **Filter controls.** Each `ControlPanel` handler builds the next filter
  record. It changes only the field it is bound to, except that choosing a
  preset time range clears the custom bounds.

Modules:

- `Types` (`types.dfy`): the records of `types/index.ts`, and the string
  keys under which the time range and the type filter travel through
  `<select>` elements. `type` is a Dafny keyword, so the field is called
  `kind`.
- `Ledger` (`ledger.dfy`): `hooks/use-expenses.ts`. The hook's state is the
  class `Ledger.Expenses`. `normalize` is a method that copies the ledger
  into a fresh array and sorts the copy in place. It is proved equal to
  `SortByDate`, a functional stable sort by descending date, and the
  properties of the order are proved about that function.
- `TransactionForm` (`form.dfy`): `components/transactions/TransactionForm.tsx`
  and the category lists of `constants/categories.ts`. Each `setDraft(prev => …)`
  updater is a pure function. The class `TransactionForm.Form` holds `draft`
  and `isSubmitting` and applies them.
- `ControlPanel` (`controls.dfy`): `components/filters/ControlPanel.tsx`.
  Every handler is a pure function from the current filters to the next.

Representation choices:

- Dates are integer millisecond instants, as `getTime()` reads them.
- Amounts are mathematical reals.
- `project`, `notes`, `from` and `to` are `Option`s.
- `String.prototype.trim` is modelled with ECMAScript's white-space and
  line-terminator set.

The ledger is not re-sorted after every change. Only `addTransaction` and
the parsed persisted ledger go through `normalize`. The seed list is used
as is, and `removeTransaction` only filters. So
`Expenses.RemoveTransaction` keeps the order only when the ledger was
already in order.

## Model

| member | source | states |
|---|---|---|
| Types.TimeRangeKeyRoundTrip | expense-tracker/src/types/index.ts:22-28 | a string parses to a time range exactly when it is that range's key |
| Types.TypeFilterKeyRoundTrip | expense-tracker/src/types/index.ts:33 | a string parses to a type filter ("all", "expense", "income") exactly when it is that filter's key |
| Ledger.Filter | expense-tracker/src/hooks/use-expenses.ts:76 | `Array.filter` never lengthens the list |
| Ledger.FilterSelected | expense-tracker/src/hooks/use-expenses.ts:76 | every transaction the filter keeps satisfies the predicate |
| Ledger.FilterMembers | expense-tracker/src/hooks/use-expenses.ts:76 | a transaction survives the filter exactly when it was in the list and is selected |
| Ledger.FilterCount | expense-tracker/src/hooks/use-expenses.ts:76 | the filter keeps every copy of a selected transaction and no copy of another |
| Ledger.FilterAppend | expense-tracker/src/hooks/use-expenses.ts:76 | filtering distributes over concatenation, so survivors keep their relative order |
| Ledger.FilterKeepsAll | expense-tracker/src/hooks/use-expenses.ts:76 | a filter that selects everything returns its input |
| Ledger.InsertByDate | expense-tracker/src/hooks/use-expenses.ts:12-15 | one insertion step of the stable sort adds one element and starts with the new element or the old head |
| Ledger.InsertPermutes | expense-tracker/src/hooks/use-expenses.ts:12-15 | an insertion step adds exactly the inserted transaction to the multiset |
| Ledger.InsertKeepsDescending | expense-tracker/src/hooks/use-expenses.ts:14 | inserting into a most-recent-first list keeps it most recent first |
| Ledger.SortByDate | expense-tracker/src/hooks/use-expenses.ts:12-15 | the sort keeps the length |
| Ledger.SortByDateDescending | expense-tracker/src/hooks/use-expenses.ts:14 | the sorted ledger is non-increasing by date (comparator `b.date - a.date`) |
| Ledger.SortByDatePermutes | expense-tracker/src/hooks/use-expenses.ts:13 | the sorted ledger is a permutation of the input |
| Ledger.ShiftLater | expense-tracker/src/hooks/use-expenses.ts:13 | shifting the later-dated part of the sorted prefix one place right leaves the gap where the new element belongs and keeps the rest of the array |
| Ledger.InsertInPlace | expense-tracker/src/hooks/use-expenses.ts:13 | one in-place insertion step turns the sorted prefix plus the next element into InsertByDate of them and leaves the tail alone |
| Ledger.Normalize | expense-tracker/src/hooks/use-expenses.ts:12-15 | `normalize` sorts a copy and returns SortByDate of its input; the caller's sequence is a value and is not changed |
| Ledger.SortKeepsDescending | expense-tracker/src/hooks/use-expenses.ts:12-15 | sorting a ledger already most recent first returns it unchanged |
| Ledger.SortIdempotent | expense-tracker/src/hooks/use-expenses.ts:12-15 | normalizing twice equals normalizing once |
| Ledger.FilterInsert | expense-tracker/src/hooks/use-expenses.ts:12-15 | filtering after an insertion step equals inserting into the filtered list, or not inserting when the filter drops the element |
| Ledger.SortCommutesWithFilter | expense-tracker/src/hooks/use-expenses.ts:12-15 | sorting then filtering equals filtering then sorting |
| Ledger.SortIsStable | expense-tracker/src/hooks/use-expenses.ts:13-14 | transactions with the same date keep their input order (`Array.sort` is stable) |
| Ledger.FilterKeepsDescending | expense-tracker/src/hooks/use-expenses.ts:76 | filtering a most-recent-first ledger keeps it most recent first |
| Ledger.CreateTransaction | expense-tracker/src/hooks/use-expenses.ts:35-46 | the new transaction carries every draft field, including the draft's date instant, and its id is "txn-" followed by the generated suffix |
| Ledger.CreatedIdsDiffer | expense-tracker/src/hooks/use-expenses.ts:43 | distinct suffixes give distinct ids |
| Ledger.RemoveById | expense-tracker/src/hooks/use-expenses.ts:76 | the filter of `removeTransaction` never lengthens the ledger and leaves no transaction with the removed id; exact membership, counts and order are in RemoveMembers, RemoveCounts and RemoveKeepsOrder |
| Ledger.RemoveMembers | expense-tracker/src/hooks/use-expenses.ts:75-77 | after removal a transaction is present exactly when it was there and has another id |
| Ledger.RemoveCounts | expense-tracker/src/hooks/use-expenses.ts:75-77 | removal drops every copy with that id and keeps every copy of all others, so nothing else changes |
| Ledger.RemoveKeepsOrder | expense-tracker/src/hooks/use-expenses.ts:76 | removal distributes over concatenation, so survivors keep their relative order |
| Ledger.RemoveAbsent | expense-tracker/src/hooks/use-expenses.ts:75-77 | removing an id no transaction has changes nothing |
| Ledger.RemoveIdempotent | expense-tracker/src/hooks/use-expenses.ts:75-77 | removing an id twice equals removing it once |
| Ledger.RemoveKeepsDescending | expense-tracker/src/hooks/use-expenses.ts:75-77 | removal keeps a most-recent-first ledger most recent first |
| Ledger.RemoveUndoesAdd | expense-tracker/src/hooks/use-expenses.ts:71-77 | adding a transaction with a fresh id to a sorted ledger and then removing that id gives back the ledger |
| Ledger.SumAmounts | expense-tracker/src/hooks/use-expenses.ts:96-100 | the `reduce` from 0 is 0 on an empty list and non-negative when every amount is; additivity and order independence are in SumAppend and SumPermutation |
| Ledger.SumAppend | expense-tracker/src/hooks/use-expenses.ts:96 | the `reduce` sum of a concatenation is the sum of the sums |
| Ledger.SumPermutation | expense-tracker/src/hooks/use-expenses.ts:96 | the sum does not depend on the order of the list |
| Ledger.SumSplitByType | expense-tracker/src/hooks/use-expenses.ts:94-100 | the expense sum plus the income sum is the sum of all amounts, since a type is one of the two |
| Ledger.ComputeTotals | expense-tracker/src/hooks/use-expenses.ts:93-107 | paid is the sum of the expense amounts, received the sum of the income amounts, net is received minus paid, paid plus received is the sum of every filtered amount, and an empty list has all three totals 0 |
| Ledger.TotalsOfExpensesOnly | expense-tracker/src/hooks/use-expenses.ts:93-107 | a list of expenses only has paid = its sum, received = 0 and net = minus its sum |
| Ledger.TotalsOfIncomesOnly | expense-tracker/src/hooks/use-expenses.ts:93-107 | a list of incomes only has paid = 0 and received = net = its sum |
| Ledger.TotalsAppend | expense-tracker/src/hooks/use-expenses.ts:93-100 | paid and received are additive over concatenation |
| Ledger.FilterPermutation | expense-tracker/src/hooks/use-expenses.ts:95 | filtering two lists holding the same transactions gives lists holding the same transactions |
| Ledger.TotalsIgnoreOrder | expense-tracker/src/hooks/use-expenses.ts:93-107 | lists holding the same transactions have the same totals, so normalizing never changes them |
| Ledger.Expenses.constructor | expense-tracker/src/hooks/use-expenses.ts:49-52 | the hook starts from the persisted (or seed) ledger and the default filters |
| Ledger.Expenses.AddTransaction | expense-tracker/src/hooks/use-expenses.ts:71-73 | the new ledger is the sort of the created transaction put in front of the old ledger; it is most recent first, holds the old transactions plus the new one, is one longer, and the filters are untouched |
| Ledger.Expenses.RemoveTransaction | expense-tracker/src/hooks/use-expenses.ts:75-77 | the new ledger is the old one without the id; membership is exact, order is kept when it held before, and the filters are untouched |
| Ledger.Expenses.UpdateFilters | expense-tracker/src/hooks/use-expenses.ts:79-81 | the filters become the updater applied to the previous filters and the ledger is untouched |
| TransactionForm.CategoryOptions | expense-tracker/src/components/transactions/TransactionForm.tsx:27-30 | each type offers the non-empty list of non-empty categories of `constants/categories.ts`, including "Other", the default category |
| TransactionForm.IsWhitespace | expense-tracker/src/components/transactions/TransactionForm.tsx:38 | no contract: it is the definition of the characters `trim()` removes (ECMAScript white space and line terminators); TrimStart, TrimEnd and TrimEmptyIff state what follows from it |
| TransactionForm.TrimStart | expense-tracker/src/components/transactions/TransactionForm.tsx:38 | the result is a suffix that does not start with white space, and only white space was dropped |
| TransactionForm.TrimEnd | expense-tracker/src/components/transactions/TransactionForm.tsx:38 | the result is a prefix that does not end with white space, and only white space was dropped |
| TransactionForm.Trim | expense-tracker/src/components/transactions/TransactionForm.tsx:38 | `trim()` never lengthens the string and returns a string without white space unchanged; TrimIsInnerStretch, TrimmedEnds and TrimIdempotent state the rest |
| TransactionForm.TrimIsInnerStretch | expense-tracker/src/components/transactions/TransactionForm.tsx:38 | `trim()` returns a contiguous stretch of the string, and everything cut off on either side is white space |
| TransactionForm.TrimmedEnds | expense-tracker/src/components/transactions/TransactionForm.tsx:38 | the trimmed string neither starts nor ends with white space |
| TransactionForm.TrimEmptyIff | expense-tracker/src/components/transactions/TransactionForm.tsx:38 | the trimmed description is non-empty exactly when the description has a non-white-space character |
| TransactionForm.TrimIdempotent | expense-tracker/src/components/transactions/TransactionForm.tsx:38 | trimming twice equals trimming once |
| TransactionForm.CanSubmit | expense-tracker/src/components/transactions/TransactionForm.tsx:36-42 | the draft may be submitted exactly when its description has a visible character, its amount is positive and its category is non-empty |
| TransactionForm.DefaultState | expense-tracker/src/components/transactions/TransactionForm.tsx:16-25 | the default draft is an expense whose category fits its type and whose account is an offered one, and it cannot be submitted |
| TransactionForm.AfterSubmit | expense-tracker/src/components/transactions/TransactionForm.tsx:49-55 | after a submission, type, category and account are kept; amount is 0, description, project and notes are empty, the date is now, and the draft cannot be submitted |
| TransactionForm.AfterSubmitKeepsFit | expense-tracker/src/components/transactions/TransactionForm.tsx:49-55 | the reset keeps a category that fits the type |
| TransactionForm.AfterSubmitSettles | expense-tracker/src/components/transactions/TransactionForm.tsx:49-55 | resetting a reset draft changes at most its date |
| TransactionForm.WithType | expense-tracker/src/components/transactions/TransactionForm.tsx:80-85 | the toggle sets the type and the first category of that type ("Housing" or "Salary"), which then fits the type; no other field changes |
| TransactionForm.WithAmount | expense-tracker/src/components/transactions/TransactionForm.tsx:109-113 | only the amount changes |
| TransactionForm.WithCategory | expense-tracker/src/components/transactions/TransactionForm.tsx:124-128 | only the category changes |
| TransactionForm.WithDate | expense-tracker/src/components/transactions/TransactionForm.tsx:146-151 | only the date changes |
| TransactionForm.WithDescription | expense-tracker/src/components/transactions/TransactionForm.tsx:164-168 | only the description changes |
| TransactionForm.WithAccount | expense-tracker/src/components/transactions/TransactionForm.tsx:179-183 | only the account changes |
| TransactionForm.WithProject | expense-tracker/src/components/transactions/TransactionForm.tsx:201-205 | only the project changes |
| TransactionForm.WithNotes | expense-tracker/src/components/transactions/TransactionForm.tsx:219-223 | only the notes change |
| TransactionForm.MetadataEditsKeepGuard | expense-tracker/src/components/transactions/TransactionForm.tsx:36-42 | editing date, account, project or notes never changes whether the draft may be submitted |
| TransactionForm.TypeToggleKeepsGuard | expense-tracker/src/components/transactions/TransactionForm.tsx:80-85 | a type toggle never disables a submittable draft, and enables one exactly when only the category was missing |
| TransactionForm.TypeToggleIdempotent | expense-tracker/src/components/transactions/TransactionForm.tsx:80-85 | toggling to the same type twice equals toggling once |
| TransactionForm.BlankDescriptionIsHeld | expense-tracker/src/components/transactions/TransactionForm.tsx:38 | a draft with a white-space-only description cannot be submitted |
| TransactionForm.Form.constructor | expense-tracker/src/components/transactions/TransactionForm.tsx:33-34 | a fresh form holds the default draft and is not submitting |
| TransactionForm.Form.HandleSubmit | expense-tracker/src/components/transactions/TransactionForm.tsx:44-55 | a blocked submit emits nothing and changes nothing; an allowed one emits the draft once, sets the submitting flag and resets the draft; the draft left behind is never submittable after an emission |
| TransactionForm.Form.SubmitSettled | expense-tracker/src/components/transactions/TransactionForm.tsx:56 | when the timer fires the submitting flag clears and the draft is untouched |
| TransactionForm.Form.SelectType | expense-tracker/src/components/transactions/TransactionForm.tsx:80-85 | the draft becomes WithType of the old draft, and its category then fits its type |
| TransactionForm.Form.EditAmount | expense-tracker/src/components/transactions/TransactionForm.tsx:109-113 | the draft becomes WithAmount of the old draft and the flag is kept |
| TransactionForm.Form.EditCategory | expense-tracker/src/components/transactions/TransactionForm.tsx:124-137 | the draft becomes WithCategory of the old draft; a category from the offered list fits the type |
| TransactionForm.Form.EditDate | expense-tracker/src/components/transactions/TransactionForm.tsx:146-151 | the draft becomes WithDate of the old draft |
| TransactionForm.Form.EditDescription | expense-tracker/src/components/transactions/TransactionForm.tsx:164-168 | the draft becomes WithDescription of the old draft |
| TransactionForm.Form.EditAccount | expense-tracker/src/components/transactions/TransactionForm.tsx:179-183 | the draft becomes WithAccount of the old draft |
| TransactionForm.Form.EditProject | expense-tracker/src/components/transactions/TransactionForm.tsx:201-205 | the draft becomes WithProject of the old draft |
| TransactionForm.Form.EditNotes | expense-tracker/src/components/transactions/TransactionForm.tsx:219-223 | the draft becomes WithNotes of the old draft |
| ControlPanel.ShownValuesAccepted | expense-tracker/src/components/filters/ControlPanel.tsx:82-115 | every key a select shows is one its handler accepts |
| ControlPanel.HandleChange | expense-tracker/src/components/filters/ControlPanel.tsx:23-37 | the bound filter afterwards shows the input's value, and every other filter (including the date bounds) is unchanged |
| ControlPanel.HandleChangeUndo | expense-tracker/src/components/filters/ControlPanel.tsx:23-37 | setting a filter back to the value it showed restores the original record |
| ControlPanel.HandleChangeIdempotent | expense-tracker/src/components/filters/ControlPanel.tsx:23-37 | choosing the same value twice equals choosing it once |
| ControlPanel.HandleDateChange | expense-tracker/src/components/filters/ControlPanel.tsx:39-45 | an empty input clears the bound, any other sets it to the parsed date, and nothing else changes |
| ControlPanel.DateChangesCommute | expense-tracker/src/components/filters/ControlPanel.tsx:39-45 | the from and to inputs are independent: their changes commute |
| ControlPanel.HandleSearch | expense-tracker/src/components/filters/ControlPanel.tsx:47-49 | only the search text changes |
| ControlPanel.SelectCategory | expense-tracker/src/components/filters/ControlPanel.tsx:124-128 | only the category changes |
| ControlPanel.DedicatedHandlersAgree | expense-tracker/src/components/filters/ControlPanel.tsx:47-49 | the search and category handlers agree with the generic handler for those keys |
| ControlPanel.SelectTimeRange | expense-tracker/src/components/filters/ControlPanel.tsx:85-91 | the range becomes the chosen one; "CUSTOM" keeps both bounds, any other range clears both; nothing else changes |
| ControlPanel.TimeRangeSelectVersusHandleChange | expense-tracker/src/components/filters/ControlPanel.tsx:23-91 | the range select acts like the generic handler exactly when it chooses "CUSTOM" or there were no bounds |
| ControlPanel.CustomAfterPresetIsOpen | expense-tracker/src/components/filters/ControlPanel.tsx:85-91 | leaving a custom range for a preset and coming back gives an open custom range |

## Left out

- Persistence: reading and writing `localStorage`, `JSON.parse`, and the seed fallback in `readPersistedTransactions` and the two effects (use-expenses.ts:17-33, 54-69). They are browser I/O. `Expenses.constructor` takes the initial ledger as a parameter.
- Id generation: `crypto.randomUUID` / `Math.random` (use-expenses.ts:36-39) is nondeterministic. `CreateTransaction` takes the generated suffix as a parameter.
- Clock: every `new Date()` reading (the default draft's date, the reset after submit) is a parameter (`loadedAt`, `now`).
- Date strings: the ISO string of `toISOString`, and the `Date` parsing of date inputs. The model keeps the instant the string stands for. An invalid date, for which `toISOString` throws and `getTime()` is NaN, is not modelled.
- `Number(value)` parsing of the amount input and NaN amounts: the amount arrives as a real.
- Float arithmetic: amounts are exact reals, so the rounding of JavaScript's `number` additions in `reduce` is not modelled.
- `applyFilters`, `getDefaultFilters`, `generateMetrics` (`lib/filters`, `lib/analytics`) are not part of this model. `ComputeTotals` therefore takes the filtered list as its parameter, and `Expenses.constructor` takes the default filters as a parameter. The `metrics` memo is not modelled.
- `setTimeout(…, 250)` in `handleSubmit`: the timer is the separate event `Form.SubmitSettled`, without timing.
- `from`/`to` being `undefined` versus `null`: both are `None`.
- The submit button's `disabled` attribute (TransactionForm.tsx:234), the labels (`TIME_RANGE_LABELS`, `formatCurrency`) and all rendering are not part of this model.
- ControlPanel.HandleChange: covers the string-valued keys only. `handleChange` is bound only to "type" and "account" (ControlPanel.tsx:108, 196); applied to `from`/`to` it would store a string in a date field, which no caller does. For the time-range and type keys, the `as` casts become the precondition that the value is one of the select's option keys.
- ControlPanel.SelectTimeRange: requires the value to be a time-range key. The `as` cast at ControlPanel.tsx:88 trusts the select, whose options are the keys of `TIME_RANGE_LABELS`; that file (`lib/filters`) is not part of this model.
- TransactionForm.Form.EditCategory: accepts any string. The select offers only the categories of the draft's type, so the fit to the type is stated only for such values.
- Ledger.Normalize: `Array.prototype.sort` is modelled as a stable insertion sort. Any stable sort gives the same result, which `SortByDate` defines.
