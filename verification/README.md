# HomeHQ store and derived views, in Dafny

A model of the state core of the HomeHQ home-management dashboard: the
application context that holds seven in-memory collections (bills, tasks,
expenses, warranties, documents, budgets, vendors) with their `add`,
`update` and `delete` mutators, and the pure views computed from them on
the dashboard, warranty and maintenance pages.

Layout, one module per file:

- `optional.dfy` (`Optional`): `Option` and `ValueOr`, for optional fields and
  patch entries.
- `seqs.dfy` (`Seqs`): order-preserving `Filter`, `Count` and `Take`
  (`slice(0, n)`), with lemmas on length, concatenation, nested filters and
  partition.
- `dates.dfy` (`Dates`): calendar dates as (year, month, day), their day
  number since 1970-01-01, the clock reading `Now`, and `Math.ceil` of a
  millisecond difference divided by the length of a day.
- `store.dfy` (`Store`): the generic collection. A record is
  `Record(id, fields)` where `fields` is the entity's `Omit<E, 'id'>`; a
  `Partial<E>` is `Patch(id?, fieldPatch)`. `Add`, `Update`, `Delete` are the
  three mutators every entity shares.
- `types.dfy` (`Types`): the seven entity shapes, the closed status and type
  enumerations, and each updatable entity's patch and merge (object spread).
- `app_context.dfy` (`AppContext`): the seed collections, the state, one
  `Action` per context mutator, and `Apply`/`Run`. Expense has only an add
  action and Budget has no delete action, as in the context's interface.
- `dashboard.dfy` (`Dashboard`), `warranties.dfy` (`Warranties`),
  `maintenance.dfy` (`Maintenance`): the derived views.

Modelling choices:

- Amounts are integer cents and the vendor rating is a `real`.
- A date-only string stands for midnight UTC of its day. `new Date()` is a
  parameter `now`: the current date plus the milliseconds since its
  midnight. `Dates.DaysUntil` rounds the millisecond difference divided by
  the length of a day up to an integer, and its contract states that the
  result is the plain difference of day numbers.
- The ids come from the length of the collection. So after a delete, an
  add can reuse an id that a record still has. The model keeps this
  behaviour. `Store.DeleteThenAddDuplicatesId` and
  `AppContext.SeedDeleteThenAddDuplicatesId` exhibit it.
  `Store.AddFreshWhenIdsWithinLength` and `Store.AddKeepsDenseIds` give the
  conditions under which an added id is fresh.
- An update merges a `Partial<E>`, and a `Partial<E>` may carry an `id`. So
  an update can change a record's id, and `Store.Update` models this.
- Nothing keeps ids unique: a delete followed by an add can give two
  records the same id.

## Model

| member | source | states |
|---|---|---|
| Store.Add | src/context/AppContext.tsx:158-161 | the collection grows by one; the old records keep their positions; the new record is last, with id = old length + 1 and exactly the given fields; an id is in use afterwards iff it was before or is the new one |
| Store.Update | src/context/AppContext.tsx:163-165 | length and order are kept; a record with another id is unchanged; a record with the id gets the merged fields and keeps its id unless the patch supplies one |
| Store.Delete | src/context/AppContext.tsx:167-169 | the result holds exactly the records whose id differs, and no record with the id; its length drops by the number of records that had the id |
| Seqs.Filter | src/context/AppContext.tsx:168 | `Array.prototype.filter`: the result is no longer than the input, every element kept is from the input and passes the predicate, and every element that passes is kept |
| Seqs.FilterOfFilter | src/components/Maintenance.tsx:104-105 | filtering by one predicate and then another equals filtering once by their conjunction |
| Store.UpdateUnknownId | src/context/AppContext.tsx:164 | updating an id that no record has returns the collection unchanged |
| Store.UpdateEmptyPatch | src/context/AppContext.tsx:164 | a patch that supplies no field leaves the collection unchanged |
| Store.UpdateKeepsIds | src/context/AppContext.tsx:164 | a patch without an id keeps every id in place, so unique ids stay unique |
| Store.DeleteUnknownId | src/context/AppContext.tsx:168 | deleting an id that no record has returns the collection unchanged |
| Store.DeleteIdempotent | src/context/AppContext.tsx:167-169 | deleting the same id twice gives the same collection as deleting it once |
| Store.DeleteKeepsOrder | src/context/AppContext.tsx:168 | delete distributes over concatenation, so the surviving records keep their relative order |
| Store.DeleteKeepsUniqueIds | src/context/AppContext.tsx:168 | deleting records cannot create a duplicate id |
| Store.AddFreshWhenIdsWithinLength | src/context/AppContext.tsx:159 | if every id is at most the length, the new id is not in use, and adding keeps ids unique and within the new length |
| Store.AddKeepsDenseIds | src/context/AppContext.tsx:158-161 | a collection with ids 1..n keeps ids 1..n+1 after an add, which are unique |
| Store.AddTwiceDistinctIds | src/context/AppContext.tsx:159 | two adds of identical fields create two records with different ids |
| Store.DeleteThenAddDuplicatesId | src/context/AppContext.tsx:159-168 | from ids [1, 2], deleting 1 then adding gives ids [2, 2]: uniqueness is not preserved |
| Types.MergeBill | src/context/AppContext.tsx:164 | an empty bill patch returns the bill unchanged; a supplied status replaces the old one |
| Types.MergeTask | src/context/AppContext.tsx:177 | an empty task patch returns the task unchanged; a supplied status replaces the old one |
| Types.MergeWarranty | src/context/AppContext.tsx:194-198 | an empty warranty patch returns the warranty unchanged |
| Types.MergeDocument | src/context/AppContext.tsx:209-213 | an empty document patch returns the document unchanged |
| Types.MergeBudget | src/context/AppContext.tsx:224-228 | an empty budget patch returns the budget unchanged |
| Types.MergeVendor | src/context/AppContext.tsx:235-239 | an empty vendor patch returns the vendor unchanged; a supplied `lastUsed` or `notes` replaces the optional value |
| Types.MergeIdempotent | src/context/AppContext.tsx:164 | spreading the same partial twice equals spreading it once, for every updatable entity |
| AppContext.InitialIdsDense | src/context/AppContext.tsx:34-147 | each of the seven seed collections has two records with ids 1 and 2, so ids start unique |
| AppContext.Apply | src/context/AppContext.tsx:12-29 | a mutator call writes only to its own collection; the other six are unchanged |
| AppContext.BillsAfter | src/context/AppContext.tsx:158-169 | only bill actions change the bills; an add appends a bill with id length + 1; an update keeps the length and rewrites exactly the bills with the id; a delete leaves no bill with the id and keeps every other bill |
| AppContext.TasksAfter | src/context/AppContext.tsx:171-182 | only task actions change the tasks; an add appends a task with id length + 1; an update keeps the length and rewrites exactly the tasks with the id; a delete leaves no task with the id and keeps every other task |
| AppContext.ExpensesAfter | src/context/AppContext.tsx:184-187 | expenses can only be appended: the old expenses are a prefix of the new ones |
| AppContext.WarrantiesAfter | src/context/AppContext.tsx:189-202 | only warranty actions change the warranties; an add appends a warranty with id length + 1; an update keeps the length and rewrites exactly the warranties with the id; a delete leaves no warranty with the id and keeps every other warranty |
| AppContext.DocumentsAfter | src/context/AppContext.tsx:204-217 | only document actions change the documents; an add appends a document with id length + 1; an update keeps the length and rewrites exactly the documents with the id; a delete leaves no document with the id and keeps every other document |
| AppContext.BudgetsAfter | src/context/AppContext.tsx:219-228 | only budget actions change the budgets; budgets can be added and updated but the collection never shrinks |
| AppContext.VendorsAfter | src/context/AppContext.tsx:230-243 | only vendor actions change the vendors; an add appends a vendor with id length + 1; an update keeps the length and rewrites exactly the vendors with the id; a delete leaves no vendor with the id and keeps every other vendor |
| AppContext.SessionKeepsExpensesAndBudgets | src/context/AppContext.tsx:12-29 | over any sequence of mutator calls, the initial expenses stay a prefix and no budget is removed |
| AppContext.SessionFrame | src/context/AppContext.tsx:149-156 | a sequence of calls that never targets a collection leaves that collection unchanged, for each of the seven collections |
| AppContext.BillNoops | src/context/AppContext.tsx:163-169 | an empty bill patch, and an update or delete of an unknown bill id, leave the whole state unchanged |
| AppContext.DeleteBillIdempotent | src/context/AppContext.tsx:167-169 | calling `deleteBill(id)` twice gives the same state as calling it once |
| AppContext.SeedBillScenario | src/context/AppContext.tsx:34-53 | on the seed bills, marking bill 2 as paid changes nothing, and deleting bill 1 leaves exactly the electric bill |
| AppContext.SeedDeleteThenAddDuplicatesId | src/context/AppContext.tsx:158-169 | on the seed bills, deleting bill 1 then adding a bill gives two bills with id 2 |
| Dates.CeilDiv | src/components/Dashboard.tsx:13 | the result is the least integer whose multiple of the divisor reaches the dividend, i.e. the ceiling of the quotient |
| Dates.DaysUntil | src/components/Dashboard.tsx:10-13 | the ceiling of the millisecond difference over a day equals the difference of calendar day numbers, at any time of day |
| Dates.AfterNowIsLaterDay | src/components/Dashboard.tsx:8 | a date is after the current instant iff its day is later than today |
| Dates.DayNumberNextDate | src/components/Dashboard.tsx:10 | the calendar day after a valid date is a valid date whose day number is one more, across month ends, year ends and leap days |
| Dashboard.UpcomingTasks | src/components/Dashboard.tsx:8 | the result holds exactly the tasks dated on a later day than today, drawn from the task list, and its length is the number of such tasks |
| Dashboard.UpcomingTasksKeepOrder | src/components/Dashboard.tsx:8 | the upcoming view of a concatenation is the concatenation of the views, so tasks keep their collection order |
| Dashboard.DueSoonBills | src/components/Dashboard.tsx:9-15 | a bill is in the result iff it is pending and its due day is at most 7 days after today, past-due ones included; its length is the number of such bills |
| Dashboard.SettledBillsNotDueSoon | src/components/Dashboard.tsx:14 | a paid or overdue bill is never due soon, whatever its date |
| Dashboard.PastDuePendingBillIsDueSoon | src/components/Dashboard.tsx:13-14 | a pending bill whose due day has passed is due soon |
| Dashboard.DueSoonBoundary | src/components/Dashboard.tsx:13-14 | with today 2024-03-01, a pending bill due 03-08 is due soon, one due 03-09 is not, and a paid bill due 03-02 is not |
| Dashboard.MonthlyTotal | src/components/Dashboard.tsx:17-25 | the total is 0 when no expense falls in the current month, and is non-negative when all amounts are |
| Dashboard.MonthlyTotalIsSumOfMonth | src/components/Dashboard.tsx:17-25 | the fold equals the sum of amounts of exactly the expenses whose month and year are today's |
| Dashboard.MonthlyTotalAppend | src/components/Dashboard.tsx:20-24 | appending an expense adds its amount if it is in the current month and leaves the total unchanged otherwise |
| Seqs.Take | src/components/Dashboard.tsx:64 | `slice(0, n)` returns min(n, length) elements, each equal to the element at the same position |
| Dashboard.PreviewsArePrefixes | src/components/Dashboard.tsx:64-86 | the upcoming-task and recent-expense previews have length min(5, n) and are prefixes of their lists |
| Dashboard.Summarize | src/components/Dashboard.tsx:40-56 | the displayed counts are the numbers of upcoming tasks and due-soon bills, the total is the month's sum, the upcoming preview is the first min(5, count) upcoming tasks and the expense preview the first min(5, n) expenses |
| Warranties.Classify | src/components/Warranties.tsx:39-44 | d <= 0 iff "expired", 0 < d <= 30 iff "expiring soon", d > 30 iff "active" |
| Warranties.ClassifyMonotone | src/components/Warranties.tsx:34-45 | the label is monotone in the day difference: expired, then expiring soon, then active |
| Warranties.DisplayedStatus | src/components/Warranties.tsx:34-45 | the displayed label is the classification of the calendar-day difference between expiry and today |
| Warranties.DisplayedStatusIgnoresStoredStatus | src/components/Warranties.tsx:140 | two warranties with the same expiry date display the same label, whatever their stored status |
| Warranties.StoredStatusCanDisagree | src/types/index.ts:35 | no stored status means "expiring soon", and the seed HVAC warranty stored as active displays as expired on 2027-06-01 |
| Warranties.ClassifyBoundary | src/components/Warranties.tsx:37-42 | with today 2024-03-01, expiry 03-01 is expired, 03-31 expiring soon, 04-01 active |
| Warranties.NewWarranty | src/components/Warranties.tsx:9-17 | the submitted record carries the typed-in item, manufacturer, dates and coverage, no documents, and stored status active |
| Warranties.SubmitWarranty | src/components/Warranties.tsx:9-21 | the submitted warranty is appended with the next id, stored status active and no documents, and nothing else changes |
| Maintenance.Toggle | src/components/Maintenance.tsx:28-32 | the toggled status always differs from the current one |
| Maintenance.ToggleInvolution | src/components/Maintenance.tsx:30 | toggling twice restores the status |
| Maintenance.TogglePatch | src/components/Maintenance.tsx:29-31 | the patch supplies no id, and merging it into any task changes only the status, to the toggled one |
| Maintenance.ToggleTaskStatus | src/components/Maintenance.tsx:28-32 | tasks with the id get the flipped status and keep every other field and their id; all other tasks are unchanged |
| Maintenance.ToggleTwiceRestores | src/components/Maintenance.tsx:28-32 | clicking the toggle twice on a task gives back the original task list |
| Maintenance.MaintenanceTasks | src/components/Maintenance.tsx:34 | the result holds exactly the maintenance-typed tasks, so bill-typed tasks are excluded, and its length is their number |
| Maintenance.MaintenanceTasksKeepOrder | src/components/Maintenance.tsx:34 | the maintenance view of a concatenation is the concatenation of the views |
| Maintenance.PendingColumn | src/components/Maintenance.tsx:104-105 | the column holds exactly the pending maintenance tasks, and its length is their number |
| Maintenance.CompletedColumn | src/components/Maintenance.tsx:134-135 | the column holds exactly the completed maintenance tasks, and its length is their number |
| Maintenance.ColumnsPartition | src/components/Maintenance.tsx:104-135 | each maintenance task is in exactly one of the pending and completed columns, and their lengths sum to the number of maintenance tasks |
| Maintenance.NewMaintenanceTask | src/components/Maintenance.tsx:9-14 | the submitted task carries the typed-in title and date, type maintenance and status pending |
| Maintenance.SubmitTaskShowsAsPending | src/components/Maintenance.tsx:9-26 | a submitted task is maintenance and pending: it is appended with the next id and shows at the end of the pending column only |

## Left out

- Rendering, CSS classes, icons, and `toLocaleDateString`/`toFixed` formatting. These are presentation only.
- React plumbing is left out: `useState`, the provider, and the error `useApp` throws outside a provider. So is the stale closure when two mutations run in one render. The store is a pure state transformer over whole states.
- Time zones are left out. The source reads the month with the local-time `getMonth`, but the model takes every date and clock reading in UTC.
- Unparseable date strings are left out. In the source they give `NaN` and fail every comparison. The forms mark dates as required, and the model's dates are always calendar triples.
- Floating-point money is left out. Amounts are integer cents, so the fold has no rounding.
- A patch field given explicitly as `undefined` is not modelled. In JavaScript that overwrites the field. The model's patch either supplies a value or leaves the field alone, so `VendorPatch` cannot clear `lastUsed` or `notes`.
- Form editing state (`setNewTask`, `setNewWarranty`, the add/cancel toggles) is left out. Only the record a form submits is modelled.
- `src/App.tsx`, `src/components/Sidebar.tsx` and `src/components/Bills.tsx` are not part of this model. They hold routing, navigation and form state with no store logic beyond calling `addBill`.
- AppContext.BillNoops: the state-level no-op lemma is stated for bills only. The other five updatable entities get the same result from `Store.UpdateEmptyPatch`, `Store.UpdateUnknownId` and `Store.DeleteUnknownId`, applied with their merges' empty-patch contracts.
