# Finance tracker bookkeeping, in Dafny

This project models the client-side bookkeeping of a small finance tracker. The tracker is a single-page dashboard of payable ("pagar") and receivable ("receber") transactions. Four parts of it are modelled, with their properties proved:

- **The dashboard's aggregation** (`Finances`, from `app/dashboard/finances.tsx`).
  - The visible list is chosen by tab, filtered by a date range, a single day or the current month, and sorted by date in place.
  - The list is reduced into paid, due, overdue and total.
  - On the "all" tab, inflow and outflow are computed.
  - `CurrentData` works on arrays. It returns the caller's own array, sorted in place, exactly when no filter runs on a single-list tab. Otherwise it returns a new array and leaves the caller's arrays untouched.
  - `ComputeSummary` is the reduce loop, proved against the fold `SummaryOf`. The fold is proved balanced (total = paid + due + overdue, with no negative bucket) and independent of order. Sorting therefore does not change the totals.
  - On the "all" tab, inflow + outflow equals paid + due.
- **The home page's two lists** (`Home.PaymentLists`, from `app/page.tsx`).
  - The fetched list is split by type.
  - The delete, add and update handlers are methods on the class, each stating the new lists in terms of the old ones.
  - Each method keeps the invariant that each list holds only its own type.
- **The add-payment dialog** (`AddPayment.AddForm`, from `app/dashboard/dialog.tsx`).
  - The form has eight fields.
  - The category options depend on the type.
  - On submit, the form validates the fields, emits a record whose sign follows its type, and resets.
- **The paid toggle** (`ToggleStatus.Store`, from `app/_actions/toggleStatus.ts`).
  - The transaction table is modelled as a map from id to record.
  - Toggling reports not-found for an unknown id. Otherwise it negates only that record's `paid`.
  - Toggling twice restores the table.

Conventions:

- Amounts are integers in cents.
- Dates are calendar dates `Date(year, month, day)`, ordered by year, then month, then day.
- The current day is a parameter `today`.
- The number parser of the form is a parameter, `parse: string -> Option<int>`.
- The fetched list is the argument of `Load`.

Files:

- `transactions.dfy`: the shared record, dates and kinds.
- `seqs.dfy`: `filter` on sequences.
- `finances.dfy`, `home.dfy`, `add_payment.dfy` and `toggle_status.dfy`: one per source file.

## Model

| member | source | states |
|---|---|---|
| `Transactions.Abs` | app/dashboard/finances.tsx:90 | `Math.abs` on an amount: a non-negative number equal to the value or its negation |
| `Seqs.Filter` | app/dashboard/finances.tsx:59-81 | `filter` keeps each element satisfying the predicate exactly as often as it occurs, drops every other element, and never lengthens the list |
| `Seqs.FilterConcat` | app/page.tsx:61-62 | filtering a concatenation is the concatenation of the filtered parts, so the kept elements keep their relative order |
| `Seqs.FilterKeepsAll` | app/page.tsx:61-62 | a filter that rejects nothing returns the list unchanged |
| `Finances.BaseList` | app/dashboard/finances.tsx:50-55 | "receber" selects the receivables and "pagar" the payables; "all" selects payables followed by receivables, in that order, with the elements of both |
| `Finances.DateFilter` | app/dashboard/finances.tsx:57-82 | a range with both ends keeps exactly the items with from <= date <= to, both ends included. A range with only `from` keeps exactly the items dated on that day. With no `from`, the filter keeps exactly the items of the current month and year, unless all months are shown, in which case nothing is removed. In every case an item is kept exactly when it is in the input and passes that filter |
| `Finances.Selected` | app/dashboard/finances.tsx:50-82 | `currentData` before the sort: an item is in it exactly when it is in the tab's base list and passes the date filter that applies |
| `Finances.SelectedByKind` | app/dashboard/finances.tsx:50-82 | when each list holds only its own type, an item is visible exactly when it is in one of the two lists, is of the tab's type on a single-type tab, and passes the date filter that applies |
| `Finances.SortByDate` | app/dashboard/finances.tsx:84 | the in-place sort leaves the array ordered by date and a permutation of what it held |
| `Finances.CurrentData` | app/dashboard/finances.tsx:49-85 | the visible array is sorted by date and is a permutation of the filtered base list. On a single-list tab with no range and all months shown, it is the caller's own array, reordered. Otherwise it is a new array, and both caller arrays are unchanged |
| `Finances.BucketOf` | app/dashboard/finances.tsx:91-93 | each item goes to exactly one bucket. It is overdue exactly when unpaid and dated strictly before today, due exactly when unpaid and dated today or later, and paid otherwise |
| `Finances.DatedTodayNotOverdue` | app/dashboard/finances.tsx:92 | an item dated today is never overdue and is eligible for inflow/outflow |
| `Finances.Step` | app/dashboard/finances.tsx:89-96 | the reducer callback adds the absolute value to the total and to the item's one bucket, and leaves the other two buckets as they were |
| `Finances.Reduce` | app/dashboard/finances.tsx:88-98 | reducing a list from an accumulator adds the sum of the list's magnitudes to the accumulator's total |
| `Finances.SummaryOf` | app/dashboard/finances.tsx:87-99 | the summary memo: the reduce from all zeros, whose total is the sum of the magnitudes of the list |
| `Finances.ComputeSummary` | app/dashboard/finances.tsx:87-99 | the reduce loop computes exactly the fold `SummaryOf` of the visible array |
| `Finances.ReduceKeepsBalance` | app/dashboard/finances.tsx:88-98 | each reducer step keeps total = paid + due + overdue and every bucket non-negative |
| `Finances.SummaryBalanced` | app/dashboard/finances.tsx:88-98 | for every list, total = paid + due + overdue and all are non-negative. The empty list gives all zeros |
| `Finances.ReduceAccumulates` | app/dashboard/finances.tsx:88-97 | reducing from an accumulator adds that accumulator to the reduction from zero |
| `Finances.SummaryOfConcat` | app/dashboard/finances.tsx:88-97 | the summary of a concatenation is the sum of the summaries of its parts |
| `Finances.SummaryPermutation` | app/dashboard/finances.tsx:84-99 | lists that are permutations of each other have the same summary, so sorting does not change the totals |
| `Finances.SumMagnitudes` | app/dashboard/finances.tsx:112 | a sum of absolute values is non-negative |
| `Finances.SumValues` | app/dashboard/finances.tsx:105 | the sum of the signed values lies between minus and plus the sum of the magnitudes |
| `Finances.SumOfPositives` | app/dashboard/finances.tsx:104-105 | a sum of positive values is non-negative |
| `Finances.Inflow` | app/dashboard/finances.tsx:101-106 | inflow is 0 unless the tab is "all", and is never negative; `InflowIsPositivePart` gives its value |
| `Finances.Outflow` | app/dashboard/finances.tsx:108-113 | outflow is 0 unless the tab is "all", and is never negative; `OutflowIsNegativePart` gives its value |
| `Finances.InflowIsPositivePart` | app/dashboard/finances.tsx:101-106 | for every list, inflow on the "all" tab is the paid plus due part of the summary of the items with value > 0: each such item counts when paid or dated today or later |
| `Finances.InflowOfOne` | app/dashboard/finances.tsx:104-105 | the one-item case: an item adds the same to inflow as to the paid plus due part of the positive items' summary |
| `Finances.OutflowIsNegativePart` | app/dashboard/finances.tsx:108-113 | for every list, outflow on the "all" tab is the paid plus due part of the summary of the items with value < 0: each such item counts its magnitude when paid or dated today or later |
| `Finances.OutflowOfOne` | app/dashboard/finances.tsx:111-112 | the one-item case: an item adds the same to outflow as to the paid plus due part of the negative items' summary |
| `Finances.SumValuesConcat` | app/dashboard/finances.tsx:105 | the sum of the values of a concatenation is the sum of the sums of its parts |
| `Finances.SumMagnitudesConcat` | app/dashboard/finances.tsx:112 | the sum of the magnitudes of a concatenation is the sum of the sums of its parts |
| `Finances.FlowsMatchSummary` | app/dashboard/finances.tsx:88-113 | on the "all" tab, inflow + outflow = paid + due. Each paid or not-yet-past item moves its amount one way, and a zero value counts toward neither |
| `Finances.OverdueScenario` | app/dashboard/finances.tsx:90-94 | an unpaid payable of 350.00 dated 2025-05-12, seen on 2025-05-20, adds 350.00 to overdue and total only |
| `Finances.FlowScenario` | app/dashboard/finances.tsx:101-113 | a paid payable of 100.00 and a paid receivable of 200.00 dated today give inflow 200.00, outflow 100.00 and total 300.00 |
| `Finances.BucketAsWritten` | app/dashboard/finances.tsx:91-93 | the bucket as written: overdue exactly when unpaid and the item's UTC midnight is before the current moment |
| `Finances.DatedTodayOverdueAsWritten` | app/dashboard/finances.tsx:92 | one millisecond into its own day, an unpaid item is overdue as written but due under the day comparison |
| `Finances.InflowAsWritten` | app/dashboard/finances.tsx:101-106 | inflow as written, with the item's UTC midnight compared against the current moment: 0 unless the tab is "all", and never negative |
| `Finances.OutflowAsWritten` | app/dashboard/finances.tsx:108-113 | outflow as written, with the item's UTC midnight compared against the current moment: 0 unless the tab is "all", and never negative |
| `Finances.UnpaidTodayAsWritten` | app/dashboard/finances.tsx:104-111 | past the first instant of the current UTC day, no unpaid item dated that day passes either as-written flow filter |
| `Finances.UnpaidTodayByDay` | app/dashboard/finances.tsx:101-113 | under the day comparison, a payable and a receivable dated today count toward outflow and inflow whether paid or not |
| `Finances.DatedTodayDroppedFromFlowsAsWritten` | app/dashboard/finances.tsx:104-111 | one millisecond into their own day, an unpaid receivable of 200.00 and an unpaid payable of 100.00 give inflow and outflow 0 as written, but 200.00 and 100.00 under the day comparison |
| `Home.OfKind` | app/page.tsx:51-52 | the items kept are exactly the fetched items of the given type, and only those |
| `Home.WithoutId` | app/page.tsx:61-62 | no item with the id is left, and every other item is kept |
| `Home.ReplaceById` | app/page.tsx:76-78 | length and the sequence of ids are kept. Every item with the id becomes the update, and every other item stays as it was |
| `Home.SplitPartitions` | app/page.tsx:51-52 | every fetched item lands in exactly one of the two lists |
| `Home.DeleteAbsent` | app/page.tsx:60-63 | deleting an id no item carries leaves the list unchanged |
| `Home.DeleteKeepsOrder` | app/page.tsx:60-63 | deleting from a concatenation deletes from each part, so the remaining items keep their order |
| `Home.DeleteKeepsKind` | app/page.tsx:60-63 | deleting keeps a single-type list of that type |
| `Home.UpdateAbsent` | app/page.tsx:73-87 | an update whose id is not in the chosen list leaves that list unchanged |
| `Home.UpdateIdempotent` | app/page.tsx:76-78 | applying the same update twice is applying it once |
| `Home.UpdateKeepsKind` | app/page.tsx:73-87 | an update of the list's own type keeps the list single-type |
| `Home.PaymentLists.constructor` | app/page.tsx:44-45 | both lists start empty |
| `Home.PaymentLists.Load` | app/page.tsx:50-52 | after loading, payables are exactly the fetched "pagar" items and receivables exactly the "receber" items, each in fetch order |
| `Home.PaymentLists.HandleDelete` | app/page.tsx:60-63 | both lists lose every item with the id and keep the rest in order. An absent id changes nothing. The type invariant is kept |
| `Home.PaymentLists.HandleAddPayment` | app/page.tsx:65-71 | the item is appended as the last element of the list of its type. The other list is unchanged and the type invariant is kept |
| `Home.PaymentLists.HandleUpdatePayment` | app/page.tsx:73-87 | matching items are replaced only in the list chosen by the update's type, and the other list is unchanged. If that list does not hold the id, both lists stay the same. The type invariant is kept |
| `AddPayment.Categories` | app/dashboard/dialog.tsx:47 | "pagar" offers the fixed expenses, in order, followed by the adverse expenses, in order, and nothing else; "receber" offers the revenues |
| `AddPayment.Signed` | app/dashboard/dialog.tsx:64 | the emitted value has the magnitude of the parsed value: non-positive for "pagar", non-negative for "receber" |
| `AddPayment.Submitted` | app/dashboard/dialog.tsx:51-66 | a record is emitted if and only if every text field is non-empty and the value parses. It carries the fields unchanged and a value whose sign agrees with its type |
| `AddPayment.AfterSubmit` | app/dashboard/dialog.tsx:51-75 | a rejected submit leaves the form unchanged. An accepted one resets every field to its initial value except the type |
| `AddPayment.ResubmitRejected` | app/dashboard/dialog.tsx:51-75 | a second submit straight after an accepted one emits nothing and changes nothing |
| `AddPayment.AddForm.constructor` | app/dashboard/dialog.tsx:38-45 | the form starts with type "pagar", installment "1/1", paid false and every other field empty |
| `AddPayment.AddForm.HandleSubmit` | app/dashboard/dialog.tsx:49-76 | the method emits what `Submitted` gives for the old fields and leaves the fields as `AfterSubmit` gives them |
| `ToggleStatus.Toggled` | app/_actions/toggleStatus.ts:15-18 | the same ids remain. The toggled record's `paid` is negated and its other fields are kept. Every other record is untouched |
| `ToggleStatus.ToggleTwice` | app/_actions/toggleStatus.ts:15-18 | toggling the same id twice restores the table |
| `ToggleStatus.Store.TogglePaymentStatus` | app/_actions/toggleStatus.ts:5-20 | an unknown id gives `Failure("Transação não encontrada")` with the table unchanged. A known id toggles that record and returns `Success` with the updated record |

## Left out

- Rendering: JSX, styling, the select, dialog and date-picker components, and `alert`.
- Field setters: the form's fields are public fields of `AddForm`, assigned directly, standing for the `onChange` handlers.
- Currency and date display (`toFixed(2)`, `toLocaleDateString`): formatting only.
- Floating point: amounts are integers in cents. `reduce` with `+` is therefore exact and associative here.
- `parseFloat`: its grammar is a parameter of `HandleSubmit` that returns `None` where it gives NaN. The model does not say that an empty value string fails to parse.
- JavaScript `Date` and time zones.
  - The source reads an item's "YYYY-MM-DD" string as UTC midnight but takes its month and day in local time. The date filters here compare calendar components directly.
  - West of UTC, the source's month and day filters see an item on the previous day.
  - East of UTC, the range's end, a local midnight, excludes items dated on that day.
  - West of UTC (the app's pt-BR users are at UTC-3), the range's start, a local midnight, falls after the item's UTC midnight, so items dated on the start day are excluded.
- Date strings.
  - Items carry the calendar date their ISO string denotes.
  - The sort compares dates by year, month and day. The source compares the strings with `localeCompare`.
  - The two orders agree for four-digit years. That agreement is assumed, not proved.
- `Finances.SortByDate`: the contract states sorted order and permutation but not stability. `Array.prototype.sort` keeps items with equal dates in their original order.
- Transaction type: `Kind` has only "pagar" and "receber", as the source's TypeScript type says.
  - A stored type outside those two is not representable.
  - On load, the source would put such an item in neither list.
- Creating, listing and deleting in the store (`app/_actions/createPayment.ts`, `app/_actions/getPayments.ts`, `app/_actions/delete.tsx`): their behaviour lives in the ORM, which is not part of this model.
- The failure branch of `togglePaymentStatus` (app/_actions/toggleStatus.ts:21-24): it depends on store exceptions.
- Fetching on mount (`useEffect`, async loading, the swallowed fetch error): `Load` takes the fetched list as its argument.
- React memoisation: each computation is a plain function or method here.
- Handler wiring: the page passes `onDelete`, `onAddPayment` and `onUpdatePayment` to a dashboard that does not accept them. The handlers are modelled on their own.
- The empty `handleAddTransaction` stub of the dashboard.
- The `onAddTransaction` callback: `HandleSubmit` returns the record it would pass.
- Concurrency between overlapping toggles or deletes.
- The current moment.
  - The dashboard reads it separately for the month filter, the summary and the flows. Here it is one calendar day, `today`.
  - The source compares against the exact moment. See the finding below.

## Findings

| source | as written | input that shows it | evidently intended | confidence | as-written member | corrected member |
|---|---|---|---|---|---|---|
| app/dashboard/finances.tsx:92 | `new Date(item.date) < new Date()` compares the item's UTC midnight with the current moment. An unpaid item is therefore overdue from the first millisecond of its own day, and earlier west of UTC. | unpaid item dated 2025-05-20, at 2025-05-20 00:00:00.001 UTC: counted as overdue | a day comparison: an item dated today is due, not overdue, and still counts toward inflow or outflow | not executed; medium | `Finances.DatedTodayOverdueAsWritten` | `Finances.BucketOf` |
| app/dashboard/finances.tsx:104-111 | `new Date(i.date) >= new Date()` compares the item's UTC midnight with the current moment, so an unpaid item leaves inflow and outflow from the first millisecond of its own day | unpaid receivable of 200.00 and unpaid payable of 100.00 dated 2025-05-20, at 2025-05-20 00:00:00.001 UTC: inflow and outflow 0 | a day comparison: an item dated today still counts toward inflow or outflow | not executed; medium | `Finances.DatedTodayDroppedFromFlowsAsWritten` | `Finances.Inflow` |
