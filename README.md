# A verified model of the BFT finance tracker's core

BFT is a browser application that keeps a household's expenses and incomes in
the browser's `localStorage`. It lets the user filter and bulk-edit them,
compare them with a monthly budget and forecast the months ahead, draw the
money flow as a Sankey diagram, import records from a bank's CSV export, and
fill a record from a photographed receipt. The receipt is read by OCR and its
text parsed, and the photo is kept, compressed, next to the records.

This project models that core in Dafny and proves what each part promises:

- **The data hooks** (`useExpenses`, `useBudget`, `useFilters`) are classes whose fields are the query cache and the storage. Their methods change them as the mutations do, and the pure updaters are functions with lemmas.
- **The expenses page** (`Expenses.tsx`) covers the filter chain, the category list, the selection and the bulk actions.
- **The budget page** (`Budget.tsx`) covers the month picker, the sorted recurring list, the totals, the cumulative forecast and the three forecast months.
- **The flow graph** (`Graph.tsx`, `SimpleSankeyChart.tsx`) covers the per-category fold, the node and link lists and their flow conservation, and the grouping of nodes into columns.
- **The recurrence generator** (`recurrenceGenerator.ts`) is modelled over a calendar with JavaScript's `Date` overflow rules.
- **The receipt parser** (`receiptParser.ts`) and **the receipt scanner** (`ReceiptScanner.tsx`): regular expressions become explicit scanners, and loops become methods proved against functions that state their result.
- **The CSV import dialog** (`CsvImportModal.tsx`).
- **The image store** (`imageStorage.ts`), over an ordered `localStorage`.

Shared modules model what the code takes from the JavaScript runtime:

- `Text`: `trim`, `split`, `join`, `includes`, `indexOf`, ASCII case mapping, `padStart` and string comparison.
- `JsNumber`: `parseFloat` and `Number.prototype.toString` on amounts in cents.
- `CivilDate`: the proleptic Gregorian calendar with `Date`'s carrying of months and days, and `YYYY-MM-DD` texts.
- `Seqs` and `Tallies`: filters, sums and first-seen key tallies.

Amounts are exact reals (receipt amounts are whole cents). The time, the
random part of an id, the OCR text, the file reader's result and the answers
to `confirm` dialogs are parameters.

Where a comment in the code or the application's description says otherwise,
the model follows the code. The one exception is the select-all toggle of the
expenses page: `ExpensesPage.Page.ToggleSelectAll` applies the corrected toggle
listed under "## Findings", and the code's size test is modelled beside it.
The points where the code and the description differ:

- The CSV auto-mapping keeps the last matching header for a field, because a later header overwrites an earlier one.
- The CSV date reader accepts `d/m/yyyy` with slashes only.
- `futureMonths` builds three months, although its comment announces six.
- A receipt line holding an ISO date such as `2025-12-04` is matched first by the day-first pattern. That pattern reads `25-12-04` inside it as 25 December 2004. The ISO pattern is tried only when the day-first reading fails its range checks.
- Records imported from a CSV file carry no `type`, so the budget page counts them in neither the income nor the expense total. The model gives them a third entry type for this.

## Model

| member | source | states |
|---|---|---|
| ExpenseFilters.Toggled | src/hooks/useFilters.ts:50-57 | after a toggle `c` is present exactly when it was absent before; every other category keeps its presence |
| ExpenseFilters.ToggleTwice | src/hooks/useFilters.ts:50-57 | toggling an absent category on and then off again gives back the original list |
| ExpenseFilters.CountSetBounds | src/hooks/useFilters.ts:116-123 | the count is at most the number of conditions, and 0 exactly when no condition holds |
| ExpenseFilters.ActiveCountMeaning | src/hooks/useFilters.ts:18-26 | at most six filters are active; the search text never counts; the count is 0 exactly when the filters equal the defaults apart from the search text |
| ExpenseFilters.CountActive | src/hooks/useFilters.ts:111-124 | 0 while the filters are not loaded, otherwise the number of the six active conditions |
| ExpenseFilters.FilterCache.constructor | src/hooks/useFilters.ts:28-37 | before any write the filters read back as the defaults |
| ExpenseFilters.FilterCache.SetSearchQuery | src/hooks/useFilters.ts:43-48 | the cached entry becomes the current filters with only the search text replaced |
| ExpenseFilters.FilterCache.ToggleCategory | src/hooks/useFilters.ts:50-57 | only the category list changes, and `c` is then listed exactly when it was not listed before |
| ExpenseFilters.FilterCache.SetRecurring | src/hooks/useFilters.ts:59-64 | only the recurring flag changes (`None` for `null`) |
| ExpenseFilters.FilterCache.SetDateFrom | src/hooks/useFilters.ts:66-71 | only the lower date bound changes |
| ExpenseFilters.FilterCache.SetDateTo | src/hooks/useFilters.ts:73-78 | only the upper date bound changes |
| ExpenseFilters.FilterCache.SetAmountMin | src/hooks/useFilters.ts:80-85 | only the lower amount bound changes |
| ExpenseFilters.FilterCache.SetAmountMax | src/hooks/useFilters.ts:87-92 | only the upper amount bound changes |
| ExpenseFilters.FilterCache.ClearFilters | src/hooks/useFilters.ts:94-96 | the entry becomes the defaults, after which no filter counts as active |
| Entities.Merge | src/hooks/useExpenses.ts:90-92 | for every one of the nine fields, a value present in the patch replaces the record's field and an absent one keeps it |
| Entities.MergeFullAndEmpty | src/hooks/useExpenses.ts:88-96 | merging a full patch yields the patch's record; merging the empty patch changes nothing |
| ExpenseStore.SeedShape | src/hooks/useExpenses.ts:27-66 | the seed has four expenses with ids 1 to 4, all distinct, and only Netflix is recurring |
| ExpenseStore.Updated | src/hooks/useExpenses.ts:88-96 | `updateExpense` keeps the length of the list |
| ExpenseStore.UpdatedMeaning | src/hooks/useExpenses.ts:88-96 | a record with another id is untouched; a record with the id gets the patch merged in and keeps its id unless the patch sets one |
| ExpenseStore.UpdatedPatches | src/hooks/useExpenses.ts:88-96 | the empty patch changes nothing; a full patch puts its record at every place that held the id |
| ExpenseStore.Deleted | src/hooks/useExpenses.ts:98-104 | `deleteExpense` never lengthens the list |
| ExpenseStore.DeletedMeaning | src/hooks/useExpenses.ts:98-104 | no record with the id remains, every other record remains, and deletion distributes over concatenation (order kept) |
| ExpenseStore.DeleteUndoesAdd | src/hooks/useExpenses.ts:80-104 | deleting the id of a record just added with a fresh id gives back the list before the add |
| ExpenseStore.DeleteAfterUpdate | src/hooks/useExpenses.ts:88-104 | deleting after an update that keeps ids equals deleting straight away |
| ExpenseStore.Store.constructor | src/hooks/useExpenses.ts:118-121 | a fresh load starts with nothing cached and the saved list in storage |
| ExpenseStore.Store.Load | src/hooks/useExpenses.ts:21-69 | the cached list, otherwise the saved one, otherwise the seed; the result is cached |
| ExpenseStore.Store.SetExpenses | src/hooks/useExpenses.ts:75-78 | cache and storage both hold the given list |
| ExpenseStore.Store.AddExpense | src/hooks/useExpenses.ts:80-86 | the record is appended after the cached list (an empty one when nothing is cached), and storage holds the same list |
| ExpenseStore.Store.UpdateExpense | src/hooks/useExpenses.ts:88-96 | cache and storage hold the updated list |
| ExpenseStore.Store.DeleteExpense | src/hooks/useExpenses.ts:98-104 | cache and storage hold the list without the id |
| Recurrence.NextDate | src/services/recurrenceGenerator.ts:43-62 | the next date is a valid calendar day |
| Recurrence.WeeklyDays | src/services/recurrenceGenerator.ts:50-52 | a week later is exactly seven days later |
| Recurrence.MonthlyDays | src/services/recurrenceGenerator.ts:53-55 | a month later is as many days later as the current month has |
| Recurrence.YearlyDays | src/services/recurrenceGenerator.ts:56-58 | a year later counts the same days from the first of the same month of the next year |
| Recurrence.NextDateLater | src/services/recurrenceGenerator.ts:43-62 | every frequency moves strictly forward in time, so the generator's loop ends |
| Recurrence.WeeklyInMonth | src/services/recurrenceGenerator.ts:50-52 | a week later inside the month keeps the month |
| Recurrence.WeeklyAcrossMonth | src/services/recurrenceGenerator.ts:50-52 | a week later past the month's end falls early in the next month, January after December |
| Recurrence.MonthlyKeepsDay | src/services/recurrenceGenerator.ts:53-55 | when the next month has the day, the day of the month is kept, and January follows December |
| Recurrence.MonthlyFromJanuary31 | src/services/recurrenceGenerator.ts:53-55 | a month after January 31st is March 3rd, or March 2nd in a leap year (`setMonth` overflow) |
| Recurrence.YearlyKeepsDay | src/services/recurrenceGenerator.ts:56-58 | a year later keeps month and day, except from February 29th |
| Recurrence.YearlyFromLeapDay | src/services/recurrenceGenerator.ts:56-58 | a year after February 29th is March 1st |
| Recurrence.FormatDateRoundTrip | src/services/recurrenceGenerator.ts:67-72 | for a four-digit year the text has the `YYYY-MM-DD` shape and reads back as the same day with a 1-based month |
| Recurrence.Occurrences | src/services/recurrenceGenerator.ts:18-35 | the visited days are empty exactly when `end` is before `start`, begin at `start` and are valid dates |
| Recurrence.OccurrencesSuccessive | src/services/recurrenceGenerator.ts:34 | each visited day after the first is the next date of the one before it |
| Recurrence.OccurrencesBounded | src/services/recurrenceGenerator.ts:21 | every visited day lies between `start` and `end` inclusive |
| Recurrence.OccurrencesIncrease | src/services/recurrenceGenerator.ts:21-35 | the visited days are strictly increasing |
| Recurrence.GenerateRecurringExpenses | src/services/recurrenceGenerator.ts:11-38 | one copy per visited day, copy `k` with id `base.id + 1 + k`, that day's formatted date, the generated flag and the parent id |
| Recurrence.CopyFields | src/services/recurrenceGenerator.ts:23-29 | a copy keeps every field of the base other than id, date, generated flag and parent link |
| Recurrence.NextExpenseId | src/services/recurrenceGenerator.ts:77-80 | 1 for an empty list; otherwise larger than every id and exactly one more than some id |
| Recurrence.MaxId | src/services/recurrenceGenerator.ts:79 | the largest id of a non-empty list: no id exceeds it and some record has it |
| BudgetStore.DefaultBudgetShape | src/hooks/useBudget.ts:22-36 | the default echoes the month, has amount 2000 and five categories whose budgets add up to that amount |
| BudgetStore.WithAmountMeaning | src/hooks/useBudget.ts:48-56 | an absent budget stays absent; otherwise only the amount changes |
| BudgetStore.SetCategoryMeaning | src/hooks/useBudget.ts:69-71 | length, order and names are kept; exactly the categories named `name` get the new budget |
| BudgetStore.SetCategoryTwice | src/hooks/useBudget.ts:69-71 | a name no category has changes nothing; a second update of the same name overrides the first |
| BudgetStore.SetCategoryTotal | src/hooks/useBudget.ts:69-71 | with one category of that name, the categories' total moves by the new budget minus the old |
| BudgetStore.UpdatedMeaning | src/hooks/useBudget.ts:48-75 | an update touches only its own month, and an absent month stays absent when the updater returns nothing |
| BudgetStore.BudgetCache.constructor | src/hooks/useBudget.ts:18-21 | no month is cached at first |
| BudgetStore.BudgetCache.Load | src/hooks/useBudget.ts:19-38 | a cached month is returned unchanged; an absent month gets the default, which is then cached |
| BudgetStore.BudgetCache.SetBudget | src/hooks/useBudget.ts:44-46 | only the month's entry is replaced |
| BudgetStore.BudgetCache.UpdateBudgetAmount | src/hooks/useBudget.ts:48-56 | the month's entry gets the new amount when present; nothing changes otherwise |
| BudgetStore.BudgetCache.UpdateCategoryBudget | src/hooks/useBudget.ts:58-75 | the month's categories named `categoryName` get the new budget when the month is present; nothing changes otherwise |
| ExpensesPage.KeepExpenseIff | src/pages/Expenses.tsx:102-148 | the early-return chain keeps a record exactly when every set filter accepts it: search text in description or category (lower-cased), listed category, recurring flag, date bounds as string comparisons, amount bounds parsed with `parseFloat` (NaN rejects nothing) |
| ExpensesPage.Filtered | src/pages/Expenses.tsx:101-158 | the filtered list is never longer than the list |
| ExpensesPage.FilteredMeaning | src/pages/Expenses.tsx:101-158 | every shown record is in the list and kept; every kept record is shown; filtering distributes over concatenation (order kept); the default filters show everything |
| ExpensesPage.UniqueCategoriesMeaning | src/pages/Expenses.tsx:97-99 | every record's category is listed, each category once, and only categories some record carries |
| ExpensesPage.UniqueCategoriesOrder | src/pages/Expenses.tsx:97-99 | the categories appear in the order of the records that first carry them, as a `Set` iterates in insertion order |
| ExpensesPage.SelectionToggled | src/pages/Expenses.tsx:87-95 | `id` is selected afterwards exactly when it was not; every other id keeps its state |
| ExpensesPage.SelectionToggledTwice | src/pages/Expenses.tsx:87-95 | clicking the same row box twice gives back the selection |
| ExpensesPage.IdSet | src/pages/Expenses.tsx:164 | exactly the ids of the listed records |
| ExpensesPage.SelectAllToggledBySize | src/pages/Expenses.tsx:160-166 | as written, a selection of one record hidden by the filter has the size of a one-record filtered list, so a click clears it instead of selecting the shown record |
| ExpensesPage.SelectAllIntendedMeaning | src/pages/Expenses.tsx:160-166 | the corrected toggle clears exactly when the shown ids are selected (or nothing is shown), otherwise selects exactly the shown ids; two clicks from an empty selection come back to it |
| ExpensesPage.WithoutSelected | src/pages/Expenses.tsx:174 | the bulk delete never lengthens the list |
| ExpensesPage.WithoutSelectedMeaning | src/pages/Expenses.tsx:168-178 | no selected record remains, every unselected one does, order is kept, an empty selection deletes nothing, and a single selected id deletes as `deleteExpense` does |
| ExpensesPage.EditSelected | src/pages/Expenses.tsx:186-190 | a bulk edit keeps the length of the list |
| ExpensesPage.CategoryAssignMeaning | src/pages/Expenses.tsx:180-194 | selected records get the category and nothing else changes; ids are kept; assigning twice equals assigning once; an empty selection changes nothing |
| ExpensesPage.RecurringToggleMeaning | src/pages/Expenses.tsx:196-202 | selected records get the flag and nothing else changes; afterwards a filter asking only for that flag keeps every selected record |
| ExpensesPage.Page.constructor | src/pages/Expenses.tsx:52-56 | nothing selected, no bulk category, the modal closed with no record in it |
| ExpensesPage.Page.HandleOpenModal | src/pages/Expenses.tsx:58-61 | the modal opens on the given record, or on none for a new one |
| ExpensesPage.Page.HandleCloseModal | src/pages/Expenses.tsx:63-66 | the modal closes and forgets its record |
| ExpensesPage.Page.HandleSaveExpense | src/pages/Expenses.tsx:68-74 | when editing, the record replaces every record with its id; otherwise it is appended; storage follows |
| ExpensesPage.Page.HandleDeleteExpense | src/pages/Expenses.tsx:76-80 | on confirmation the id is deleted everywhere; otherwise list and storage are unchanged |
| ExpensesPage.Page.HandleImportCsv | src/pages/Expenses.tsx:82-85 | the imported records go after the existing ones, in cache and storage |
| ExpensesPage.Page.ToggleSelection | src/pages/Expenses.tsx:87-95 | the selection becomes the toggled selection |
| ExpensesPage.Page.ToggleSelectAll | src/pages/Expenses.tsx:160-166 | the selection becomes the corrected select-all toggle over the shown records |
| ExpensesPage.Page.HandleBulkDelete | src/pages/Expenses.tsx:168-178 | on confirmation the selected records are removed and the selection cleared; otherwise nothing changes |
| ExpensesPage.Page.HandleBulkCategoryAssign | src/pages/Expenses.tsx:180-194 | a blank category alerts and changes nothing; otherwise the selected records get it, and selection and input are cleared |
| ExpensesPage.Page.HandleBulkRecurringToggle | src/pages/Expenses.tsx:196-202 | the selected records get the flag and the selection is cleared |
| BudgetForecast.FromIndex | src/pages/Budget.tsx:25-35 | `new Date(year, month)` with an out-of-range month lands on a month in 0..11 with the same month index |
| BudgetForecast.FromIndexOfMonthIndex | src/pages/Budget.tsx:25-35 | a year and a month in 0..11 are recovered unchanged from their month index |
| BudgetForecast.MonthPicker.constructor | src/pages/Budget.tsx:7 | the picker opens on today's month |
| BudgetForecast.MonthPicker.GoToPreviousMonth | src/pages/Budget.tsx:25-29 | the selected month index drops by one; January steps back to December of the year before |
| BudgetForecast.MonthPicker.GoToNextMonth | src/pages/Budget.tsx:31-35 | the selected month index grows by one; December steps to January of the next year |
| BudgetForecast.NextThenPrevious | src/pages/Budget.tsx:25-35 | a step forward then a step back returns to the same year and month |
| BudgetForecast.InsertDesc | src/pages/Budget.tsx:44 | insertion adds exactly the one record |
| BudgetForecast.InsertDescSorted | src/pages/Budget.tsx:44 | inserting into a list sorted by decreasing amount keeps it sorted |
| BudgetForecast.SortDesc | src/pages/Budget.tsx:44 | the result is sorted by decreasing amount and is a permutation of the input |
| BudgetForecast.MonthPicker.CurrentMonthName | src/pages/Budget.tsx:10-37 | the month shown is one of the twelve French names, and the name of no other month |
| BudgetForecast.RecurringSorted | src/pages/Budget.tsx:41-45 | exactly the recurring records, each as often as it occurs, largest amount first |
| BudgetForecast.SortedTotal | src/pages/Budget.tsx:48-58 | a total over the sorted recurring list equals the plain sum of the per-record shares over the whole list |
| BudgetForecast.TotalsMeaning | src/pages/Budget.tsx:48-63 | the recurring income and expense totals are the sums of the recurring records of each type, whatever the order; the monthly net is their difference |
| BudgetForecast.TotalsNonNegative | src/pages/Budget.tsx:48-58 | with non-negative amounts neither total is negative |
| BudgetForecast.Multiplier | src/pages/Budget.tsx:145 | the printed multiplier is 0 exactly for a past month |
| BudgetForecast.CumulativeIsNetTimesMultiplier | src/pages/Budget.tsx:75-82 | the total shown is the net times the printed multiplier, and each further month adds one net |
| BudgetForecast.ForecastAgreesWithSelection | src/pages/Budget.tsx:85-97 | forecast entry `i` names the month `i` months after today and holds the total shown when that month is selected |
| BudgetForecast.FutureMonths | src/pages/Budget.tsx:85-97 | three entries, entry `i` being the month `i` months after today with `i + 1` months of net |
| Tallies.KeysOf | src/pages/Graph.tsx:154 | one key per entry, in entry order |
| Tallies.BumpLookup | src/pages/Graph.tsx:141 | a bump adds `a` to the value read for `c` (0 when missing) and leaves every other key's value alone |
| Tallies.BumpSum | src/pages/Graph.tsx:140-148 | a bump adds exactly `a` to the sum of the values |
| Tallies.BumpKeys | src/pages/Graph.tsx:140-143 | a bump keeps the keys in order and appends `c` when it is new |
| Tallies.LookupAt | src/pages/Graph.tsx:162-166 | with distinct keys, the value read for an entry's key is the value stored in that entry |
| Tallies.BumpDistinct | src/components/SimpleSankeyChart.tsx:43-52 | a bump of a tally keyed by the distinct values of `xs` is keyed by the distinct values of `xs + [c]` |
| FlowGraph.KeysAreDistinctCategories | src/pages/Graph.tsx:140-143 | the category totals are keyed by the distinct categories in order of first appearance, each once |
| FlowGraph.TotalsLookup | src/pages/Graph.tsx:140-143 | the fold holds, for each category, the sum of the amounts of that category's records |
| FlowGraph.TotalsAgree | src/pages/Graph.tsx:140-143 | entry `i` of the fold holds the same total as the per-category summary below the diagram |
| FlowGraph.TotalExpensesIsSum | src/pages/Graph.tsx:145-148 | the total is the sum of every record's amount, income records included |
| FlowGraph.Nodes | src/pages/Graph.tsx:151-155 | two fixed nodes followed by one node per category |
| FlowGraph.LinksMeaning | src/pages/Graph.tsx:151-167 | one link fewer than nodes; every link joins listed nodes; the first runs from income to budget with the total; link `i` runs from the budget to node `i + 1` with that category's summary total |
| FlowGraph.BudgetLinksFlow | src/pages/Graph.tsx:162-166 | every category link leaves the budget node, none enters it, and together they carry the sum of the category totals |
| FlowGraph.LinksAtBudget | src/pages/Graph.tsx:158-167 | the links leaving the budget node are exactly the category links; the only link entering it is the income link |
| FlowGraph.FlowConservation | src/pages/Graph.tsx:140-167 | what flows out of the budget node equals what flows in, and both equal the sum of all amounts |
| SimpleSankey.EndpointsHas | src/components/SimpleSankeyChart.tsx:23-26 | a name is visited by the node loop exactly when some link starts or ends there |
| SimpleSankey.CollectNodes | src/components/SimpleSankeyChart.tsx:22-26 | the loop builds the node set in first-insertion order |
| SimpleSankey.NodeSetIsUnion | src/components/SimpleSankeyChart.tsx:22-26 | the node set holds exactly the names at either end of some link, each once |
| SimpleSankey.SourcesHas | src/components/SimpleSankeyChart.tsx:29-30 | the source set holds exactly the names some link starts at, the target set those some link ends at |
| SimpleSankey.Partition | src/components/SimpleSankeyChart.tsx:31-35 | a node is source-only when it never ends a link, target-only when it never starts one, middle when it does both, and every node is in one of the three groups |
| SimpleSankey.GroupsDisjoint | src/components/SimpleSankeyChart.tsx:31-35 | no node is in two groups |
| SimpleSankey.KeepNonEmpty | src/components/SimpleSankeyChart.tsx:37-39 | dropping empty columns keeps the others in their order |
| SimpleSankey.ColumnsMeaning | src/components/SimpleSankeyChart.tsx:37-39 | at most three non-empty columns, each one of the groups; source-only first and target-only last when present; a non-empty middle is present; no column exactly when there is no link |
| SimpleSankey.NodeValueMeaning | src/components/SimpleSankeyChart.tsx:42-52 | a node's value is the total of the links leaving it plus the total of those entering it |
| SimpleSankey.AddLinkAt | src/components/SimpleSankeyChart.tsx:44-51 | the two updates for one link add that link's share to every node's value |
| SimpleSankey.AddLinkKeys | src/components/SimpleSankeyChart.tsx:44-51 | the two updates for one link append its new ends to the map's keys |
| SimpleSankey.NodeValues | src/components/SimpleSankeyChart.tsx:42-52 | the map is keyed by the node set in insertion order, and each node's value is its total flow |
| SimpleSankey.Layout | src/components/SimpleSankeyChart.tsx:21-59 | the columns, the links as given, and the node values with the properties above |
| ImageStorage.KeysOfAt | src/services/imageStorage.ts:114 | `Object.keys(localStorage)`: key `i` is the key of stored item `i` |
| ImageStorage.GetAfterSet | src/services/imageStorage.ts:75 | after `setItem` the key reads back as the new value and every other key is unchanged; a new key is appended to the keys |
| ImageStorage.GetAfterRemove | src/services/imageStorage.ts:103 | after `removeItem` the key is absent and every other key is unchanged |
| ImageStorage.GetStored | src/services/imageStorage.ts:138 | with distinct keys, `getItem` of a stored key returns that item's value |
| ImageStorage.SetKeepsUnique | src/services/imageStorage.ts:75 | `setItem` keeps the keys distinct |
| ImageStorage.RemoveKeepsUnique | src/services/imageStorage.ts:103 | `removeItem` keeps the keys distinct |
| ImageStorage.LocalStorage.constructor | src/services/imageStorage.ts:114 | the storage starts with the given distinct-keyed items |
| ImageStorage.LocalStorage.Set | src/services/imageStorage.ts:75 | the items become the `setItem` update, and the keys stay distinct |
| ImageStorage.LocalStorage.Remove | src/services/imageStorage.ts:103 | the items become the `removeItem` update, and the keys stay distinct |
| ImageStorage.ImageKeyRoundTrip | src/services/imageStorage.ts:6 | an image key starts with `receipt_image_`, and stripping the prefix from it gives back the id; a prefixed key is the key of its id |
| ImageStorage.NewImageId | src/services/imageStorage.ts:71 | the id contains `_` and ends with the random part |
| ImageStorage.NewImageIdSplit | src/services/imageStorage.ts:71 | with an underscore-free random part, splitting the id on `_` gives exactly the time's decimal text, which reads back as the time, and the random part |
| ImageStorage.SaveGetDelete | src/services/imageStorage.ts:65-107 | a saved image reads back under its id and a deleted one reads as absent, while every other id reads as before |
| ImageStorage.SaveReceiptImage | src/services/imageStorage.ts:65-82 | the id is built from the time and the random part, and the compressed image is stored under the prefixed id |
| ImageStorage.DeleteReceiptImage | src/services/imageStorage.ts:100-107 | the prefixed key is removed |
| ImageStorage.CleanedMeaning | src/services/imageStorage.ts:112-126 | every image key left has an active id; orphan keys read as absent and every other key reads as before; cleaning twice equals cleaning once |
| ImageStorage.CleanupStep | src/services/imageStorage.ts:117-122 | one turn of the cleanup loop removes the key when its id is inactive and keeps the storage otherwise |
| ImageStorage.CleanupDone | src/services/imageStorage.ts:114-122 | after all the image keys have been visited the storage is the cleaned storage |
| ImageStorage.RemoveIfOrphan | src/services/imageStorage.ts:118-121 | the key is removed exactly when its id is not active |
| ImageStorage.CleanupOrphanedImages | src/services/imageStorage.ts:112-126 | the storage becomes the cleaned storage: orphan image items gone, everything else kept in order |
| ImageStorage.TextLengthConcat | src/services/imageStorage.ts:140 | the total length of two runs of items is the sum of their lengths |
| ImageStorage.TextLengthFilter | src/services/imageStorage.ts:140 | keeping some items never increases the total length |
| ImageStorage.CleanupShrinks | src/services/imageStorage.ts:112-149 | a cleanup never increases the images' size, and a cleanup with no active id brings it to 0 |
| ImageStorage.ImageKeysOfItems | src/services/imageStorage.ts:134-135 | the image keys are the keys of the image items, in order |
| ImageStorage.SizeStep | src/services/imageStorage.ts:137-142 | the `i`-th image key reads back as the `i`-th image item's value, so one turn adds that value's length |
| ImageStorage.GetImagesStorageSize | src/services/imageStorage.ts:131-149 | the total is the sum of the lengths of the values stored under image keys |
| ReceiptParser.OcrLinesAreClean | src/services/receiptParser.ts:13-16 | every line handed to the extractors is trimmed and non-empty |
| ReceiptParser.TrimAllOfTrimmed | src/services/receiptParser.ts:15 | trimming lines that are already trimmed changes nothing |
| ReceiptParser.OcrLinesOfCleanText | src/services/receiptParser.ts:13-16 | a text made of trimmed non-empty lines joined by newlines splits back into exactly those lines |
| ReceiptParser.AmountGroupIsRun | src/services/receiptParser.ts:119 | one to six digits, a comma or dot and two digits form a match of the amount pattern whose first group is the whole digit run |
| ReceiptParser.AmountUnits | src/services/receiptParser.ts:119 | the first capture group is one to six digits |
| ReceiptParser.AmountHundredths | src/services/receiptParser.ts:119 | the second capture group is two digits |
| ReceiptParser.AmountValue | src/services/receiptParser.ts:129 | `parseFloat` of the two groups joined by a dot is exactly the matched amount in cents divided by 100 |
| ReceiptParser.FindAmount | src/services/receiptParser.ts:127 | the match found is the leftmost position where the amount pattern matches; none means no position matches |
| ReceiptParser.DayFirstAt | src/services/receiptParser.ts:66 | a day-first match has groups of 1-2, 1-2 and 2-4 digits separated by `/`, `-` or `.` |
| ReceiptParser.YearFirstAt | src/services/receiptParser.ts:68 | a year-first match has groups of 4, 1-2 and 1-2 digits separated by `/`, `-` or `.` |
| ReceiptParser.DayFirstGroupsAreRuns | src/services/receiptParser.ts:66 | digit runs of the right lengths around two separators form a day-first match with those first two groups |
| ReceiptParser.DayFirstAtOfRuns | src/services/receiptParser.ts:66 | once the digit runs at a position are known, the day-first match there takes them as its groups |
| ReceiptParser.PatternAt | src/services/receiptParser.ts:64-69 | a match of either pattern has digit groups, and its first group has four digits exactly for the year-first pattern |
| ReceiptParser.FindDateIsLeftmost | src/services/receiptParser.ts:73 | `line.match` returns the leftmost match, and nothing only when the pattern matches nowhere |
| ReceiptParser.GroupsDate | src/services/receiptParser.ts:76-99 | an accepted date has a month in 1..12 and a day in 1..31 |
| ReceiptParser.LineDate | src/services/receiptParser.ts:72-104 | a date read from a line has a month in 1..12 and a day in 1..31 |
| ReceiptParser.IsoDateReadDayFirst | src/services/receiptParser.ts:64-99 | the day-first pattern is tried first and is not anchored, so `2025-12-04` is read as 25 December 2004 |
| ReceiptParser.FrenchDateRead | src/services/receiptParser.ts:64-99 | `04/12/2025` is read as 4 December 2025 |
| ReceiptParser.NameIndex | src/services/receiptParser.ts:46-50 | the index of the first matching chain, or the number of chains when none matches |
| ReceiptParser.FirstNamedIsFirst | src/services/receiptParser.ts:44-51 | the search returns the chain found in the first line holding one, and nothing only when no line holds one |
| ReceiptParser.NamedAtUnique | src/services/receiptParser.ts:44-51 | only one line can be the first to hold a chain name |
| ReceiptParser.MerchantOfDescribed | src/services/receiptParser.ts:32-55 | the merchant is the first known chain in the first of the top five lines that holds one, otherwise the first line or `Commerçant inconnu` |
| ReceiptParser.MerchantIsUnique | src/services/receiptParser.ts:32-55 | at most one merchant meets that description |
| ReceiptParser.MerchantIsKnownOrFirstLine | src/services/receiptParser.ts:32-55 | the merchant is always a known chain or the fallback |
| ReceiptParser.FirstNamedHit | src/services/receiptParser.ts:44-49 | a hit in the current line is what the search returns |
| ReceiptParser.FirstNamedMiss | src/services/receiptParser.ts:44-51 | a miss moves the search to the next line |
| ReceiptParser.ExtractMerchant | src/services/receiptParser.ts:32-55 | the nested loops return the described merchant |
| ReceiptParser.FirstDate | src/services/receiptParser.ts:71-105 | a date found has a month in 1..12 and a day in 1..31 |
| ReceiptParser.FirstDateIsFirst | src/services/receiptParser.ts:71-105 | the search returns the date of the first dated line, and nothing only when no line is dated |
| ReceiptParser.DatedAtShift | src/services/receiptParser.ts:71 | behind an undated line, the first dated line of the rest is the first dated line |
| ReceiptParser.DatedAtUnique | src/services/receiptParser.ts:71-105 | only one line can be the first dated line |
| ReceiptParser.DateOfDescribed | src/services/receiptParser.ts:60-109 | the date is that of the first dated line, formatted `YYYY-MM-DD`, otherwise today |
| ReceiptParser.DateIsUnique | src/services/receiptParser.ts:60-109 | at most one date meets that description |
| ReceiptParser.FirstDateHit | src/services/receiptParser.ts:96-99 | a dated current line gives the date |
| ReceiptParser.FirstDateMiss | src/services/receiptParser.ts:71-105 | an undated line moves the search to the next line |
| ReceiptParser.ExtractDate | src/services/receiptParser.ts:60-109 | the loop returns the described date |
| ReceiptParser.FirstTotalIsFirst | src/services/receiptParser.ts:122-132 | the keyword pass returns the amount of the first line with a keyword and an amount, and nothing only when there is none |
| ReceiptParser.TotalAtShift | src/services/receiptParser.ts:122-132 | behind a line that is not a total line, the first total line of the rest is the first one |
| ReceiptParser.MaxUnderLimitIsLargest | src/services/receiptParser.ts:135-146 | the running maximum ends below 10000, at least every amount under the limit, and 0 or one of them |
| ReceiptParser.MaxCandidateIsLargest | src/services/receiptParser.ts:135-146 | the fallback pass returns the largest first-amount of a line below 10000, or 0 |
| ReceiptParser.TotalAtUnique | src/services/receiptParser.ts:122-132 | only one line can be the first total line |
| ReceiptParser.TotalOfDescribed | src/services/receiptParser.ts:114-147 | the total is the first total line's amount, otherwise the largest amount below 10000, otherwise 0 |
| ReceiptParser.LargestCandidateIsUnique | src/services/receiptParser.ts:135-146 | at most one amount is the largest candidate |
| ReceiptParser.TotalIsUnique | src/services/receiptParser.ts:114-147 | at most one amount meets the description of the total |
| ReceiptParser.FirstTotalHit | src/services/receiptParser.ts:126-130 | a total line gives the total |
| ReceiptParser.FirstTotalMiss | src/services/receiptParser.ts:122-132 | a line that is not a total line moves the search on |
| ReceiptParser.MaxCandidateStep | src/services/receiptParser.ts:136-144 | one more line replaces a smaller maximum with its amount when that amount is below the limit |
| ReceiptParser.ExtractTotal | src/services/receiptParser.ts:114-147 | the two loops return the described total |
| ReceiptParser.LineItem | src/services/receiptParser.ts:162-182 | an article comes from a line exactly when it has no skip keyword, has an amount, the trimmed text before the first amount is non-empty and that amount is above 0 and below 1000; the article is that text and that amount |
| ReceiptParser.ItemsOf | src/services/receiptParser.ts:152-185 | at most one article per line, each with a trimmed non-empty description and an amount above 0 and below 1000 |
| ReceiptParser.ItemsOfAppend | src/services/receiptParser.ts:162-182 | the articles of two runs of lines are those of the first run followed by those of the second |
| ReceiptParser.SkippedLinesIgnored | src/services/receiptParser.ts:165-168 | a line with a skip keyword contributes nothing, wherever it stands |
| ReceiptParser.ExtractItems | src/services/receiptParser.ts:152-185 | the loop collects the articles of all lines in order |
| ReceiptParser.RuleFrom | src/services/receiptParser.ts:194-221 | the rule found lies between the starting rule and the end of the list |
| ReceiptParser.RuleFromIsFirst | src/services/receiptParser.ts:194-221 | the search stops at a matching rule and skips only rules that do not match |
| ReceiptParser.GuessCategoryIsFirstRule | src/services/receiptParser.ts:190-225 | the category is the label of the first keyword group found in the upper-cased joined text, otherwise `Divers` |
| ReceiptParser.ParseReceipt | src/services/receiptParser.ts:12-27 | each field of the result is what its extractor yields on the cleaned lines |
| ReceiptScanner.WithSelected | src/components/ReceiptScanner.tsx:155-158 | the spread update gives field `f` the new line and keeps the line of every other field |
| ReceiptScanner.AmountFromLineRead | src/components/ReceiptScanner.tsx:193-200 | with a match of the amount pattern, `parseFloat` of its two groups joined by a dot is the result in euros and no earlier position matches; with none, the result is 0 and no position matches |
| ReceiptScanner.DateFromLineAgreesWithParser | src/components/ReceiptScanner.tsx:203-234 | a line's date is read exactly as the receipt parser reads the date of a one-line receipt: the same two patterns, the same year pivot and the same month and day checks |
| ReceiptScanner.DateFromLineShape | src/components/ReceiptScanner.tsx:226-233 | the result is today's date or a `YYYY-MM-DD` text whose month is 1..12 and whose day is 1..31 |
| ReceiptScanner.DateFromLineRoundTrip | src/components/ReceiptScanner.tsx:227 | a found date with a four-digit year is read back unchanged from the padded text produced |
| ReceiptScanner.IndexContaining | src/components/ReceiptScanner.tsx:104-113 | `findIndex` with `-1` as no index: an index found is one of the lines |
| ReceiptScanner.IndexContainingIsFirst | src/components/ReceiptScanner.tsx:104-125 | the index found is that of the first line holding the text; no index means no line holds it |
| ReceiptScanner.SlashDateOfIso | src/components/ReceiptScanner.tsx:111 | splitting a `Y-M-D` text on dashes, reversing and joining with slashes gives `D/M/Y` |
| ReceiptScanner.JoinThree | src/components/ReceiptScanner.tsx:111 | joining three pieces puts the separator between each neighbouring pair |
| ReceiptScanner.Preselect | src/components/ReceiptScanner.tsx:103-126 | every preselected line is one of the OCR lines |
| ReceiptScanner.PreselectFindsFirst | src/components/ReceiptScanner.tsx:103-126 | the preselected description line holds the merchant and no earlier line does; no amount line is preselected only when no line holds the total's text |
| ReceiptScanner.ReadScan | src/components/ReceiptScanner.tsx:87-126 | the lines shown are the trimmed non-empty OCR lines and the preselection is the parser's reading located among them, every index in range |
| ReceiptScanner.ClickedToggles | src/components/ReceiptScanner.tsx:152-159 | a click flips whether the current field holds the line, leaves the other fields alone, and a second click undoes the first |
| ReceiptScanner.ValidatedDefaults | src/components/ReceiptScanner.tsx:161-181 | with nothing picked the receipt is `Inconnu`, today, 0, no items, `Divers`; the items are always empty and the date is today or a well-formed date text |
| ReceiptScanner.FirstLineKeepsValidateDisabled | src/components/ReceiptScanner.tsx:452 | picking the first OCR line as the description leaves the validate button disabled, because index 0 is falsy |
| ReceiptScanner.PickingEnablesValidate | src/components/ReceiptScanner.tsx:452 | under the intended rule, any click that picks a description or amount line enables validation |
| ReceiptScanner.Scanner.constructor | src/components/ReceiptScanner.tsx:19-35 | the component starts with no image, no error, progress 0, no lines, nothing picked, no current field, not scanning |
| ReceiptScanner.Scanner.SelectImage | src/components/ReceiptScanner.tsx:38-59 | a non-image type sets the type error; a failed read sets the read error; a read image becomes the selected image and clears the error; nothing else changes |
| ReceiptScanner.Scanner.ChooseField | src/components/ReceiptScanner.tsx:349-388 | a field button makes its field the current one and changes nothing else |
| ReceiptScanner.Scanner.ShowScan | src/components/ReceiptScanner.tsx:87-126 | the OCR lines and the preselection of a successful scan are shown, and every picked line is a shown line |
| ReceiptScanner.Scanner.HandleScan | src/components/ReceiptScanner.tsx:61-133 | without an image nothing changes; an OCR failure sets the scan error and keeps lines and selection; a success clears the error and shows the lines and the preselection; scanning ends in both cases |
| ReceiptScanner.Scanner.HandleCancel | src/components/ReceiptScanner.tsx:135-150 | image, error, progress, lines, selection and current field are all cleared |
| ReceiptScanner.Scanner.HandleLineClick | src/components/ReceiptScanner.tsx:152-159 | without a current field nothing changes; otherwise the click toggles the line for that field only |
| ReceiptScanner.Scanner.HandleValidateSelection | src/components/ReceiptScanner.tsx:161-190 | with an image, the receipt built from the picked lines is handed on with it; without one nothing is; the component is then cleared |
| CsvImport.StripQuotesShape | src/components/CsvImportModal.tsx:70 | at most one double quote goes at each end and nothing else changes; a cell without end quotes is kept; a quoted text loses exactly its two quotes |
| CsvImport.CellsOfJoin | src/components/CsvImportModal.tsx:65-71 | plain cells joined by `;` or `,` are read back as the same cells, the separator being detected from the line |
| CsvImport.ParseCsvRefuses | src/components/CsvImportModal.tsx:57-62 | the file is refused with the empty-file alert exactly when every line is blank |
| CsvImport.ParseCsvOfLines | src/components/CsvImportModal.tsx:57-77 | a file written as a header line and data lines of plain cells is read back as that header and those rows |
| CsvImport.AutoMappingIsLastMatch | src/components/CsvImportModal.tsx:81-112 | a field is mapped to the last header whose lower-cased text matches its words, tried in the order description, category, amount, date; a field no header matches stays unmapped |
| CsvImport.AutoMappingOneToOne | src/components/CsvImportModal.tsx:81-112 | the automatic mapping never gives one column to two fields, and every mapped column is a header position |
| CsvImport.AutoMap | src/components/CsvImportModal.tsx:88-112 | the `forEach` over the headers builds exactly the automatic mapping |
| CsvImport.ColumnClearedSpec | src/components/CsvImportModal.tsx:137-147 | afterwards no field holds the column, the fields that held it are emptied, the others are unchanged, and a one-to-one mapping stays one-to-one |
| CsvImport.MappingChangedSpec | src/components/CsvImportModal.tsx:120-132 | afterwards the field holds the column and no other field does, other fields keep any other column, and a one-to-one mapping stays one-to-one |
| CsvImport.ChangeMapping | src/components/CsvImportModal.tsx:121-131 | the loop over the keys followed by the assignment gives the changed mapping |
| CsvImport.ClearColumn | src/components/CsvImportModal.tsx:137-147 | the loop over the keys gives the mapping with the column cleared |
| CsvImport.PadStart2OfDigits | src/components/CsvImportModal.tsx:176 | one or two digits padded to two are two digits of the same value |
| CsvImport.ParseFrenchDateCases | src/components/CsvImportModal.tsx:164-189 | an empty text gives today; a `YYYY-MM-DD` text is kept; a `d/m/yyyy` text becomes a `YYYY-MM-DD` text that reads back as that year, month and day; anything else gives today |
| CsvImport.ParseFrenchDateIdempotent | src/components/CsvImportModal.tsx:164-189 | every result is today or a `YYYY-MM-DD` text, so with an ISO today a second pass changes nothing |
| CsvImport.NumberRows | src/components/CsvImportModal.tsx:193 | the `map` with its index yields one entry per data row |
| CsvImport.RowRecordShape | src/components/CsvImportModal.tsx:193-213 | a row yields a record exactly when its amount parses to a negative number, and the record has the id it was given |
| CsvImport.RecordMakerShape | src/components/CsvImportModal.tsx:193-213 | the same two facts for the `map` callback under a mapping |
| CsvImport.NumberedSomes | src/components/CsvImportModal.tsx:192-213 | records numbered by position keep their numbering through the filter: each id names the entry it came from, and ids increase |
| CsvImport.NumberedFilter | src/components/CsvImportModal.tsx:192-213 | for a callback that keeps its id and answers for exactly the rows a test passes, each record comes from a passing row, ids increase, and there are as many records as passing rows |
| CsvImport.ImportCountShown | src/components/CsvImportModal.tsx:490-495 | the import yields exactly as many records as the import button and the preview summary announce |
| CsvImport.ImportedIds | src/components/CsvImportModal.tsx:201 | the records' ids are `now` plus a row index and strictly increase |
| CsvImport.ImportedRecord | src/components/CsvImportModal.tsx:192-213 | each record is what the row named by its id makes, and that row has a negative amount |
| CsvImport.ImportedCoversRows | src/components/CsvImportModal.tsx:192-213 | every row with a negative amount is imported, with id `now` plus its index |
| CsvImport.RowRecordFields | src/components/CsvImportModal.tsx:200-210 | a record made from a row has a positive amount, is not recurring, has a description and a category, and a date that is today or a `YYYY-MM-DD` text |
| CsvImport.ImportedFields | src/components/CsvImportModal.tsx:191-213 | every imported record has those properties |
| CsvImport.PreviewRowsArePrefix | src/components/CsvImportModal.tsx:406-413 | the preview shows at most five rows, all with a negative amount, and they are the first of the rows the import keeps |
| CsvImport.TitleCountsIncomeRows | src/components/CsvImportModal.tsx:249 | the preview title counts every data row, so one income row makes it announce more records than the import yields |
| CsvImport.ImportDialog.constructor | src/components/CsvImportModal.tsx:39-47 | the dialog starts at the upload step with no rows, no headers and an empty mapping |
| CsvImport.ImportDialog.HandleFileUpload | src/components/CsvImportModal.tsx:50-118 | a file with only blank lines raises the alert and changes nothing; otherwise the headers and rows are the parsed file, the step is the mapping step and the mapping is the automatic one |
| CsvImport.ImportDialog.HandleMappingChange | src/components/CsvImportModal.tsx:120-132 | the mapping becomes the changed mapping and stays one-to-one |
| CsvImport.ImportDialog.HandleColumnSelect | src/components/CsvImportModal.tsx:134-154 | the "none" choice clears the column; a field choice gives the column to that field; the mapping stays one-to-one |
| CsvImport.ImportDialog.HandlePreview | src/components/CsvImportModal.tsx:156-162 | the alert is raised exactly when description, amount or date is unmapped, and the step moves to the preview otherwise |
| CsvImport.ImportDialog.BackToUpload | src/components/CsvImportModal.tsx:470-474 | the mapping step's back button returns to the upload step and drops rows and headers but keeps the mapping |
| CsvImport.ImportDialog.BackToMapping | src/components/CsvImportModal.tsx:484 | the preview's back button returns to the mapping step and changes nothing else |
| CsvImport.ImportDialog.HandleClose | src/components/CsvImportModal.tsx:219-228 | the dialog returns to the upload step with no rows, no headers and an empty mapping |
| CsvImport.ImportDialog.HandleImport | src/components/CsvImportModal.tsx:191-217 | the records handed on are the import of the rows under the mapping, and the dialog is then closed |
| Text.NatToStringRoundTrip | src/services/recurrenceGenerator.ts:71 | a number's decimal text is all digits and reads back as the number |
| Text.Pad2Digits | src/services/recurrenceGenerator.ts:69-70 | `String(n).padStart(2, "0")` for n below 100 is two digits of value n |
| Text.Trim | src/services/receiptParser.ts:15 | `trim()` removes at most the white space at both ends: the result is a piece of the input and starts and ends with no white space |
| Text.TrimOfTrimmed | src/components/CsvImportModal.tsx:70 | a text without white space at its ends is unchanged by `trim()` |
| Text.CaseMappingMeaning | src/services/receiptParser.ts:45 | `toUpperCase()`/`toLowerCase()` are idempotent, each undoes the other up to case, leave non-letters unchanged, and leave no letter of the other case |
| Text.ContainsLowered | src/pages/Expenses.tsx:104-111 | a text that contains a query still contains it once both are lower-cased, so the case-insensitive search never loses a case-sensitive match |
| Text.IndexFrom | src/components/CsvImportModal.tsx:91 | `indexOf` finds the first occurrence at or after the start, or -1 when there is none |
| Text.FirstContained | src/services/receiptParser.ts:45-52 | the first keyword the text contains, with no earlier keyword contained |
| Text.Split | src/services/receiptParser.ts:14 | `split` yields at least one piece and no piece holds the separator |
| Text.JoinSplit | src/services/receiptParser.ts:14 | joining the pieces of a split with the same separator gives the text back |
| Text.SplitJoin | src/components/CsvImportModal.tsx:69 | splitting pieces free of the separator after joining them gives the pieces back |
| Text.StrLessTotal | src/pages/Expenses.tsx:128-133 | string comparison is a strict total order: of two different texts exactly one is less |
| JsNumber.ParseFloat | src/components/CsvImportModal.tsx:194-196 | `parseFloat` of a blank text is NaN |
| JsNumber.ParseFloatNat | src/components/ReceiptScanner.tsx:197 | `parseFloat` reads a number's decimal text back as that number |
| JsNumber.ParseFloatNegated | src/components/CsvImportModal.tsx:194-209 | a leading minus sign negates what `parseFloat` reads, so NaN stays NaN |
| JsNumber.ParseFloatDecimal | src/components/ReceiptScanner.tsx:197 | digits, a dot and digits are read as the whole part plus the decimal fraction |
| JsNumber.CentsToStringRoundTrip | src/components/ReceiptScanner.tsx:108 | the `toString()` of an amount in euros is read back by `parseFloat` as that amount |
| CivilDate.DaysInMonth | src/services/recurrenceGenerator.ts:43-62 | a month has 28 to 31 days, and 29 exactly for February of a leap year |
| CivilDate.YearLength | src/services/recurrenceGenerator.ts:56-58 | a leap year has 366 days and any other 365 |
| CivilDate.Normalize | src/services/recurrenceGenerator.ts:47-58 | the `Date` constructor's carrying of months and days always yields a valid calendar date |
| CivilDate.NormalizeDayNumber | src/services/recurrenceGenerator.ts:51-54 | a day past the end of the month is carried into the following months, day for day |
| CivilDate.NormalizeValid | src/services/recurrenceGenerator.ts:47 | a valid date is left as it is |
| CivilDate.DayNumberOrder | src/services/recurrenceGenerator.ts:21 | comparing two dates by time value is comparing them in calendar order, and equal time values mean equal dates |
| CivilDate.IsoTextRoundTrip | src/services/recurrenceGenerator.ts:67-72 | the `YYYY-MM-DD` text of a date with a four-digit year reads back as that year, month and day |
| CivilDate.ParseIso | src/components/CsvImportModal.tsx:168 | a text is read as a date exactly when it has the `YYYY-MM-DD` shape |

## Left out

- Rendering, styling, routing, the dialogs' markup and the SVG layout and drawing of both Sankey charts are not modelled. Only the data the charts are given is modelled.
- `nodeValues` in `SimpleSankeyChart.tsx` is computed (SimpleSankey.NodeValues, SimpleSankey.Layout) but the drawing never reads it, so nothing downstream of it is modelled.
- `compressImage` is not modelled: it draws on a canvas and loops on a floating-point JPEG quality. `SaveReceiptImage` takes its output as a parameter.
- The `FileReader` calls and the file's MIME type are inputs. The data URL or CSV text the reader delivers is a parameter, and `None` stands for a failed read.
- Tesseract OCR is not modelled. Its recognised text is a parameter, and `None` stands for a failure.
- ReceiptScanner.Scanner.HandleScan: the progress reported by the OCR logger is not modelled. The model leaves `scanProgress` at 0 after a scan.
- ReceiptScanner.Scanner.SelectImage: the early return when no file is chosen is not a separate case. The method is called with a chosen file.
- CsvImport.ImportDialog.HandleFileUpload: the early return when no file is chosen is not a separate case, and the empty-file `alert` is returned as a flag.
- `Date.now()`, `Math.random()` and `new Date()` become parameters: `now`, the random text, and `today` as a `YYYY-MM-DD` text or a calendar date.
- `alert` and `confirm` become returned flags and boolean parameters.
- The `onClose`, `onImport` and `onScanComplete` callbacks are not modelled as calls. Their arguments are the methods' results.
- JSON serialisation to and from `localStorage` is taken to be the identity on records. Reading an unparsable entry is not modelled.
- react-query's refetching, `staleTime` and invalidation are not modelled. Cached entries never go stale, so a default is produced only for an absent entry.
- `Object.keys(localStorage)` is taken to list keys in insertion order. Browsers do not specify this order.
- FlowGraph.KeysAreDistinctCategories lists category keys in first-seen order. It does not model JavaScript's placing of integer-like object keys first (the `Set` in `Expenses.tsx` has no such reordering).
- Tallies.Lookup: the category totals in `Graph.tsx:141` are folded into a plain `{}` object, so a category named like an inherited property (`constructor`, `toString`) starts from that property instead of 0 and its total becomes a string, and `__proto__` never appears among the keys. The model reads every missing key as 0.
- Recurrence.GenerateRecurringExpenses: `recurrenceGenerator.ts:21` compares instants, the model compares calendar days. With start 1 January 2025 12:00, end 8 January 2025 08:00 and a weekly rhythm, the source produces 1 January only, the model 1 and 8 January; with start and end on the same day and the end earlier in the day, the source produces nothing and the model that one day. Recurrence.Occurrences shares this.
- `toLowerCase` and `toUpperCase` are modelled on ASCII letters only. The set of white-space characters `trim` removes is a finite list.
- `value.length` counts UTF-16 code units. The model counts characters, so `ImageStorage.GetImagesStorageSize` can differ on characters outside the Basic Multilingual Plane.
- Floating-point arithmetic is replaced by exact reals. `parseFloat`'s exponents, `Infinity` and hexadecimal forms are not modelled, and NaN is `None`.
- `toFixed(2)` display formatting is not modelled.
- The `try`/`catch` error paths of `imageStorage.ts` (a full storage quota, a failed read) are not modelled.
- ExpensesPage.Page.ToggleSelectAll: the page applies the corrected toggle `SelectAllIntended` rather than the size test of `Expenses.tsx:161` (`selectedIds.size === filteredExpenses.length`). The two differ when one selected record is hidden by a filter and one other record is shown: the code clears the selection, the model selects the shown record. The size test itself is `SelectAllToggled`, and `SelectAllToggledBySize` exhibits that input.
- BudgetForecast.SortDesc: the contract does not state that the sort is stable, which `Array.prototype.sort` guarantees, so the order among equal amounts is left open.
- Console logging is not modelled.

## Findings

| source | as written | input that shows it | evidently intended | confidence | as-written member | corrected member |
|---|---|---|---|---|---|---|
| src/components/ReceiptScanner.tsx:452 | the validate button is disabled while `!selectedLines.description && !selectedLines.amount`, which treats line index 0 as no line | pick only the first OCR line as the description | disabled only while neither field has a line picked | high, not executed | ReceiptScanner.FirstLineKeepsValidateDisabled | ReceiptScanner.PickingEnablesValidate |
| src/components/CsvImportModal.tsx:249 | the preview title announces `csvData.length` records, incomes included | a file with one income row and one expense row | the number of rows with a negative amount, as the import button shows | high, not executed | CsvImport.TitleCountsIncomeRows | CsvImport.ImportCountShown |
| src/pages/Expenses.tsx:160-166 | select-all clears the selection whenever its size equals the number of shown records | one selected record hidden by a filter, one other record shown: a click clears instead of selecting | clear only when the shown records are exactly the selection | high, not executed | ExpensesPage.SelectAllToggledBySize | ExpensesPage.SelectAllIntendedMeaning |
