# Bill ledger: a Dafny model

This project models the bill-record page of a small shared-expense app.
Three fixed users (Zohaib, Babar and Mustafa) record bills against five fixed
categories. The page keeps the ledger in memory and shows several things:

- a total per user;
- a total per category;
- a grand total;
- a searchable, date-filterable history, newest first.

A user may delete their own bills after a confirmation dialog.

All of this logic sits inside the `Home` component of `src/app/page.tsx`. The
model restates it as a state machine of pure functions over immutable data.
It has four modules:

- **`Model`** holds the `User`, `Category` and `Bill` records and the two
  rosters. It also defines `Filter`, the order-preserving selection that
  `Array.prototype.filter` performs, and `Host`. `Host` gathers the pieces of
  the JavaScript runtime the page relies on, as plain function values:
  - `Number` (with `None` for NaN);
  - `parseFloat`;
  - `Number.prototype.toString`;
  - `toLowerCase`;
  - `toDateString`.
- **`Aggregates`** covers `getUserTotal`, `getGrandTotal` and
  `getCategoryTotal`. Each is the left-to-right `reduce`; the per-user and
  per-category totals run it after a filter.
  Amounts are exact `real`s. The module proves the partition property: when
  every bill belongs to a rostered user, the three user cards add up to the
  grand total. The same holds for the five category cells.
- **`History`** covers `filteredBills`, the search and day filter followed by
  the newest-first comparator sort. The sort is modelled as a stable
  insertion sort, which is what JavaScript's stable `Array.prototype.sort`
  yields for that comparator.
- **`Ledger`** holds the page state and its handlers:
  - `handleUserSelect`, `logout`, `saveBill`, `confirmDelete` and
    `deleteBill`;
  - the dialog's `onOpenChange` cancel;
  - an `Event` type with `Step` and `Run` for arbitrary click sequences.

  It also defines an invariant and proves that every admissible event keeps
  it. Admissible means three things: users and categories come from the
  rosters, and a saved bill gets a fresh, non-empty id. The invariant says
  that ids are unique, every bill's owner and category are rostered, and the
  form's selection is rostered.

Three properties of the handlers shape the deletion part of the model:

- `deleteBill` (`src/app/page.tsx:152-159`) does not check ownership again.
  Only `confirmDelete` (`src/app/page.tsx:143-150`) checks it, when the
  deletion is requested. `deleteBill` then removes every bill carrying the
  pending id, and does so only when that id is truthy (a non-empty string).
- The `logout` handler (`src/app/page.tsx:99-105`) does not clear the pending
  id. As a statement about the handlers, a deletion requested before
  `logout` is still carried out by a later `deleteBill`, with nobody signed
  in (`Ledger.PendingDeleteOutlivesLogout`). On the page itself the
  confirmation dialog is modal while an id is pending, and every way out of
  it clears the id. "The pending bill belongs to the signed-in user" is
  therefore not an invariant of the handlers, and the model does not claim
  it.
- In every reachable state ids are unique and a pending id names a bill
  of the ledger, because `confirmDelete` sets it only after `find` located
  that bill (`src/app/page.tsx:144-146`). So confirming a pending deletion
  removes exactly one bill (`Ledger.ReachableDeleteRemovesExactlyOne`, built
  on `Ledger.DeleteRemovesExactlyOne`).

## Model

| member | source | states |
|---|---|---|
| Model.Filter | src/app/page.tsx:154 | `filter` returns no more elements than it was given, and every element it returns satisfies the predicate |
| Model.FilterMembers | src/app/page.tsx:154 | `filter` keeps a value exactly when it is in the input and satisfies the predicate |
| Model.FilterKeepsCount | src/app/page.tsx:163 | every value the predicate accepts is kept exactly as many times as it occurs in the input |
| Model.FilterAppend | src/app/page.tsx:154 | filtering distributes over concatenation, so the kept elements stay in their original order |
| Model.FilterKeepsAll | src/app/page.tsx:154 | a filter every element passes returns the input unchanged |
| Model.FilterDropsAll | src/app/page.tsx:182-193 | a filter no element passes returns the empty sequence |
| Aggregates.Reduce | src/app/page.tsx:169-170 | the loop `reduce((sum, bill) => sum + bill.amount, 0)` yields the sum of all the amounts |
| Aggregates.GetUserTotal | src/app/page.tsx:161-166 | a user's total is the sum of the amounts of exactly the bills whose `userId` is that user |
| Aggregates.GetGrandTotal | src/app/page.tsx:168-172 | the grand total is the sum of the amounts of every bill |
| Aggregates.GetCategoryTotal | src/app/page.tsx:174-179 | a category's total is the sum of the amounts of exactly the bills filed under that category id |
| Aggregates.TotalAppend | src/app/page.tsx:168-172 | the total of two ledgers joined is the sum of their totals |
| Aggregates.TotalForAppend | src/app/page.tsx:161-179 | appending a bill raises the total of its own user or category by its amount and leaves every other key's total unchanged |
| Aggregates.TotalIsOrderIndependent | src/app/page.tsx:168-172 | two ledgers holding the same bills, in any order, have the same grand total |
| Aggregates.TotalSplits | src/app/page.tsx:161-179 | the totals of a selection and of its complement add up to the grand total |
| Aggregates.KeyedTotalsPartition | src/app/page.tsx:161-179 | with distinct keys that cover every bill, the per-key totals add up to the grand total |
| Aggregates.RosterIdsAreDistinct | src/app/page.tsx:42-54 | the three user ids are pairwise distinct, and so are the five category ids |
| Aggregates.UserTotalsSumToGrandTotal | src/app/page.tsx:161-172 | when every bill belongs to a rostered user, the three user totals add up to the grand total |
| Aggregates.CategoryTotalsSumToGrandTotal | src/app/page.tsx:168-179 | when every bill has a listed category, the five category totals add up to the grand total |
| History.Contains | src/app/page.tsx:184-186 | `includes` holds exactly when the needle occurs in the haystack at some position |
| History.MatchesSearch | src/app/page.tsx:183-186 | the empty term matches every bill, and a bill without a description matches exactly through its owner's name (ignoring case) or its amount's text |
| History.MatchesDay | src/app/page.tsx:188-190 | with no day filter every bill matches, and a filter set to a bill's own instant keeps it |
| History.SameDayMatchesAlike | src/app/page.tsx:188-190 | two bills on the same calendar day are kept or dropped together by the day filter |
| History.Insert | src/app/page.tsx:194 | one step of the sort adds exactly one copy of the bill and removes nothing; the result starts with either the new bill or the previous first bill |
| History.SortNewestFirst | src/app/page.tsx:194 | the sort returns a permutation of its input ordered by non-increasing timestamp |
| History.InsertKeepsNewestFirst | src/app/page.tsx:194 | one step of the sort keeps the newest-first order |
| History.InsertKeepsEqualsInOrder | src/app/page.tsx:194 | one step of the sort places the new bill ahead of its equals and keeps the order among the other bills with the same timestamp |
| History.SortIsStable | src/app/page.tsx:194 | for every instant, the bills recorded at it appear in the sorted view in their ledger order |
| History.FilteredBills | src/app/page.tsx:181-194 | the view holds exactly the bills that match the search (name, description or amount text) and the day filter, each as often as in the ledger, newest first |
| History.FilteredBillsIsStable | src/app/page.tsx:181-194 | for every instant, the matching bills recorded at it appear in the view in their ledger order |
| History.EmptyTermOccursEverywhere | src/app/page.tsx:186 | `includes("")` holds of every string |
| History.EmptySearchShowsEverything | src/app/page.tsx:181-194 | with an empty search term and no day filter the view holds every bill of the ledger |
| History.OtherDayShowsNothing | src/app/page.tsx:188-190 | a day filter that no bill falls on empties the view, whatever the search term |
| Ledger.SelectUser | src/app/page.tsx:89-97 | the chosen user is always signed in; the form and message are wiped only when a different user was signed in, and everything else is kept |
| Ledger.Logout | src/app/page.tsx:99-105 | nobody is signed in and the form and message are blank; the ledger, the chosen date and the pending deletion are kept |
| Ledger.SaveBill | src/app/page.tsx:107-141 | the three checks fail in order (user, amount, category), each setting only its own message; on success one bill is appended, filled from the signed-in user and the form, the prior ledger is its prefix, and the form is wiped |
| Ledger.FindFrom | src/app/page.tsx:144 | `find` returns the first bill carrying the id, or reports that none does |
| Ledger.FoundIsFirst | src/app/page.tsx:144-145 | the search `confirmDelete` runs succeeds exactly when the first bill with the id belongs to the signed-in user |
| Ledger.ConfirmDelete | src/app/page.tsx:143-150 | the id becomes pending exactly when the first bill with it belongs to the signed-in user; otherwise only the ownership message is set; the ledger is never changed |
| Ledger.MayDeleteOwnBill | src/app/page.tsx:143-150 | with unique ids, a deletion may be requested exactly when the signed-in user owns some bill carrying the id |
| Ledger.ForeignBillIsRefused | src/app/page.tsx:143-150 | with Babar signed in, a request to delete Zohaib's bill sets the ownership message, and a following confirm deletes nothing |
| Ledger.DeleteBill | src/app/page.tsx:152-159 | with no (or an empty) pending id nothing changes; otherwise exactly the bills with other ids remain, the pending id is cleared and the rest of the state is kept |
| Ledger.CancelDelete | src/app/page.tsx:401 | closing the dialog clears the pending id and keeps everything else: the ledger, the signed-in user, the form, the chosen date and the message |
| Ledger.DeleteKeepsOthers | src/app/page.tsx:154 | a delete keeps every bill with another id exactly as many times as before |
| Ledger.DeleteOfAbsentIdKeepsLedger | src/app/page.tsx:152-159 | a pending id that no bill carries leaves the ledger as it is |
| Ledger.FilterOutUniqueId | src/app/page.tsx:154 | with unique ids, filtering out the id of the bill at position k yields the ledger without exactly that position |
| Ledger.FilterOutSplit | src/app/page.tsx:154 | filtering out an id carried by one bill alone returns the bills before and after it, in order |
| Ledger.DeleteRemovesExactlyOne | src/app/page.tsx:152-159 | with unique ids, deleting removes exactly the one bill carrying the pending id, keeps the others in order and shortens the ledger by one |
| Ledger.CancelThenConfirmDeletesNothing | src/app/page.tsx:401 | after a cancel, a confirm deletes nothing |
| Ledger.ConfirmThenDeleteRemovesOwnBill | src/app/page.tsx:143-159 | with unique ids, requesting and then confirming the deletion of one's own bill removes it and only it |
| Ledger.SavedBillMayBeDeleted | src/app/page.tsx:123-146 | the user who saved a bill under a fresh id may request its deletion |
| Ledger.SaveThenDeleteRestoresLedger | src/app/page.tsx:123-159 | saving a bill under a fresh id, then requesting and confirming its deletion, restores the ledger as it was |
| Ledger.SaveBillTotals | src/app/page.tsx:123-179 | a save adds the amount to the grand total, to the signed-in user's total and to the chosen category's total, and to no other |
| Ledger.DeleteBillTotal | src/app/page.tsx:152-172 | a delete lowers the grand total by exactly the amounts of the bills it removes |
| Ledger.Step | src/app/page.tsx:203-411 | only a save or a confirmed delete changes the ledger; only choosing a user or logging out changes who is signed in; only a delete request, its confirmation or the dialog closing changes the pending deletion; each form input (amount, description, category, date) sets its own field and leaves the other form fields and the message |
| Ledger.InitSatisfiesInv | src/app/page.tsx:71-80 | the initial state satisfies the invariant |
| Ledger.SaveKeepsInv | src/app/page.tsx:123-133 | a save under a fresh id keeps ids unique and owners and categories rostered |
| Ledger.DeleteKeepsDistinct | src/app/page.tsx:154 | the bills left by a delete still carry pairwise different ids |
| Ledger.FilterIsUnique | src/app/page.tsx:154 | a filter of a ledger with unique ids has unique ids |
| Ledger.DeleteKeepsInv | src/app/page.tsx:152-159 | a delete keeps the invariant |
| Ledger.StepPreservesInv | src/app/page.tsx:89-159 | every admissible event keeps the invariant: unique ids, rostered owners and categories, rostered selection |
| Ledger.RunPreservesInv | src/app/page.tsx:89-159 | every admissible sequence of events keeps the invariant |
| Ledger.StepKeepsPendingPresent | src/app/page.tsx:143-159 | every admissible event keeps a pending id pointing at a bill of the ledger |
| Ledger.RunKeepsPendingPresent | src/app/page.tsx:143-159 | every admissible sequence of events keeps a pending id pointing at a bill of the ledger |
| Ledger.ReachableDeleteRemovesExactlyOne | src/app/page.tsx:143-159 | in every reachable state with a pending deletion, confirming it shortens the ledger by exactly one bill |
| Ledger.ReachableTotalsPartition | src/app/page.tsx:290-325 | in every reachable state the three user cards add up to the grand total, and so do the five category cells |
| Ledger.PendingDeleteOutlivesLogout | src/app/page.tsx:99-159 | as a property of the handlers: `logout` keeps a pending deletion, which a later `deleteBill` carries out with nobody signed in |

## Left out

- Loading the ledger from browser storage and writing it back after each save and delete (`src/app/page.tsx:82-87`, 135, 156). This is browser I/O; the ledger is in-memory state only.
- `generateId` (`src/app/page.tsx:57-59`) reads the clock and a random source, and nothing guarantees its ids are unique. The new id is a parameter of `SaveBill`. Freshness and non-emptiness are conditions of an admissible save, not a promise of the page.
- Floating-point addition and `toFixed(2)`: amounts and sums are exact `real`s, so rounding is not modelled.
- `Number`, `parseFloat` and `Number.prototype.toString` are `Host` parameters. The page accepts an amount when `Number` does not give NaN, and then stores `parseFloat` of it. The two can disagree, for instance on blank or hexadecimal text. A NaN or infinite amount cannot be represented, because amounts are reals.
- Dates are integer millisecond timestamps and `toDateString` is the `Host` function `dayOf`. ISO strings, time zones and locale formatting (`formatDate`, `toLocaleDateString`) are not modelled.
- `toLowerCase` is the `Host` function `lower`; case folding itself is not modelled.
- The search box and the day filter (`src/app/page.tsx:339`, 354, 362) are plain parameters of `FilteredBills` rather than part of `State`: they never influence a handler.
- The page only shows the user buttons when nobody is signed in, the form only when someone is, and a bill's delete button only to its owner. The confirmation dialog is modal while a deletion is pending, so nothing but its cancel and confirm can be clicked, and every way out of it clears the pending id (`src/app/page.tsx:401`, 411). `Step` accepts every event in every state, so it describes more runs than the page allows.
- History.Insert states only that it adds one copy of the bill and what the head becomes. Its ordering and stability are separate lemmas (`History.InsertKeepsNewestFirst`, `History.InsertKeepsEqualsInOrder`).
- The rendered markup, the icons and the dialog's presentation (`src/app/page.tsx:196-419`, apart from the handlers it wires up).
