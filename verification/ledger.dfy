/**
 * The page's state and its event handlers, as pure transitions from one
 * state to the next: choosing a user, logging out, saving a bill, asking to
 * delete one, confirming and cancelling. Persisting the ledger to browser
 * storage after a save or a delete is not modelled.
 */
module Ledger {
  import opened Model
  import opened Aggregates

  const MissingUserError: string := "Please select a user"
  const InvalidAmountError: string := "Please enter a valid amount"
  const MissingCategoryError: string := "Please select a category"
  const NotOwnerError: string := "You can only delete your own bills"

  /**
   * The page state: the ledger, the signed-in user, the bill form (amount
   * and description as typed, the chosen category id, the chosen date), the
   * message shown to the user ("" for none) and the bill awaiting
   * confirmation of its deletion.
   */
  datatype State = State(
    bills: seq<Bill>,
    selectedUser: Option<User>,
    amount: string,
    description: string,
    category: string,
    error: string,
    selectedDate: Option<int>,
    billToDelete: Option<string>)

  /** The state on first render: no bills, nobody signed in, today's date chosen. */
  function Init(now: int): State {
    State([], None, "", "", "", "", Some(now), None)
  }

  /** The bill form is blank and no message is shown. */
  predicate FormCleared(s: State) {
    s.amount == "" && s.description == "" && s.category == "" && s.error == ""
  }

  function ClearForm(s: State): State {
    s.(amount := "", description := "", category := "", error := "")
  }

  /** A different user than the one signed in is being chosen. */
  predicate Switching(s: State, user: User) {
    s.selectedUser.Some? && s.selectedUser.value.id != user.id
  }

  /**
   * `handleUserSelect`: the chosen user is always signed in; the form and the
   * message are wiped only when another user was signed in before.
   */
  function SelectUser(s: State, user: User): (r: State)
    ensures r.selectedUser == Some(user)
    ensures r.bills == s.bills && r.selectedDate == s.selectedDate && r.billToDelete == s.billToDelete
    ensures Switching(s, user) ==> FormCleared(r)
    ensures !Switching(s, user) ==>
      r.amount == s.amount && r.description == s.description && r.category == s.category && r.error == s.error
  {
    if Switching(s, user) then ClearForm(s).(selectedUser := Some(user))
    else s.(selectedUser := Some(user))
  }

  /**
   * `logout`: nobody is signed in and the form is blank; the ledger, the
   * chosen date and any pending deletion are left as they were.
   */
  function Logout(s: State): (r: State)
    ensures r.selectedUser.None? && FormCleared(r)
    ensures r.bills == s.bills && r.selectedDate == s.selectedDate && r.billToDelete == s.billToDelete
  {
    ClearForm(s).(selectedUser := None)
  }

  /** `!amount || isNaN(Number(amount))` fails: the amount is non-empty and numeric. */
  predicate AmountAccepted(host: Host, amount: string) {
    amount != "" && host.number(amount).Some?
  }

  /** All three checks of `saveBill` pass. */
  predicate CanSave(s: State, host: Host) {
    s.selectedUser.Some? && AmountAccepted(host, s.amount) && s.category != ""
  }

  /** The instant a saved bill is stamped with: the chosen date, or the current time. */
  function StampOf(s: State, now: int): int {
    if s.selectedDate.Some? then s.selectedDate.value else now
  }

  /**
   * `saveBill`. The checks run in order (a signed-in user, a numeric amount,
   * a category) and the first that fails only sets its message. When all
   * pass, one bill is appended after the existing ones, owned by the signed-in
   * user and filled from the form, and the form is wiped.
   */
  function SaveBill(s: State, host: Host, newId: string, now: int): (r: State)
    ensures r.error == "" <==> CanSave(s, host)
    ensures s.selectedUser.None? ==> r == s.(error := MissingUserError)
    ensures s.selectedUser.Some? && !AmountAccepted(host, s.amount) ==> r == s.(error := InvalidAmountError)
    ensures s.selectedUser.Some? && AmountAccepted(host, s.amount) && s.category == "" ==>
      r == s.(error := MissingCategoryError)
    ensures CanSave(s, host) ==>
      && |r.bills| == |s.bills| + 1
      && r.bills[..|s.bills|] == s.bills
      && r.bills[|s.bills|].id == newId
      && r.bills[|s.bills|].userId == s.selectedUser.value.id
      && r.bills[|s.bills|].userName == s.selectedUser.value.name
      && r.bills[|s.bills|].amount == host.parseFloat(s.amount)
      && r.bills[|s.bills|].date == StampOf(s, now)
      && r.bills[|s.bills|].category == s.category
      && r.bills[|s.bills|].description == Some(s.description)
    ensures CanSave(s, host) ==>
      && FormCleared(r)
      && r.selectedUser == s.selectedUser
      && r.selectedDate == s.selectedDate
      && r.billToDelete == s.billToDelete
  {
    if s.selectedUser.None? then s.(error := MissingUserError)
    else if !AmountAccepted(host, s.amount) then s.(error := InvalidAmountError)
    else if s.category == "" then s.(error := MissingCategoryError)
    else
      var user := s.selectedUser.value;
      var bill := Bill(newId, user.id, user.name, host.parseFloat(s.amount), StampOf(s, now),
                       s.category, Some(s.description));
      ClearForm(s).(bills := s.bills + [bill])
  }

  /**
   * `bills.find(b => b.id === billId)`, as a position: the first bill at or
   * after `from` that carries `id`, if any.
   */
  function FindFrom(bills: seq<Bill>, id: string, from: nat): (r: Option<nat>)
    requires from <= |bills|
    ensures r.Some? ==>
      && from <= r.value < |bills|
      && bills[r.value].id == id
      && forall j :: from <= j < r.value ==> bills[j].id != id
    ensures r.None? ==> forall j :: from <= j < |bills| ==> bills[j].id != id
    decreases |bills| - from
  {
    if from == |bills| then None
    else if bills[from].id == id then Some(from)
    else FindFrom(bills, id, from + 1)
  }

  /** The first bill carrying `id` exists and belongs to the signed-in user. */
  ghost predicate MayDelete(s: State, id: string) {
    && s.selectedUser.Some?
    && exists i :: 0 <= i < |s.bills| && s.bills[i].id == id && s.bills[i].userId == s.selectedUser.value.id
                   && (forall j :: 0 <= j < i ==> s.bills[j].id != id)
  }

  /**
   * `confirmDelete`: the bill becomes the one awaiting confirmation when it
   * exists and belongs to the signed-in user; otherwise only the message is
   * set. The ledger is never touched.
   */
  function ConfirmDelete(s: State, id: string): (r: State)
    ensures r.bills == s.bills
    ensures MayDelete(s, id) ==> r == s.(billToDelete := Some(id))
    ensures !MayDelete(s, id) ==> r == s.(error := NotOwnerError)
  {
    FoundIsFirst(s, id);
    var found := FindFrom(s.bills, id, 0);
    if found.Some? && s.selectedUser.Some? && s.bills[found.value].userId == s.selectedUser.value.id then
      s.(billToDelete := Some(id))
    else
      s.(error := NotOwnerError)
  }

  /** The search `confirmDelete` runs decides `MayDelete`. */
  lemma FoundIsFirst(s: State, id: string)
    ensures MayDelete(s, id) <==>
      && FindFrom(s.bills, id, 0).Some?
      && s.selectedUser.Some?
      && s.bills[FindFrom(s.bills, id, 0).value].userId == s.selectedUser.value.id
  {
    var found := FindFrom(s.bills, id, 0);
    if MayDelete(s, id) {
      var i :| 0 <= i < |s.bills| && s.bills[i].id == id && s.bills[i].userId == s.selectedUser.value.id
               && (forall j :: 0 <= j < i ==> s.bills[j].id != id);
      assert found.Some? && found.value == i;
    }
  }

  /** `if (billToDelete)`: a deletion is pending, with a non-empty id. */
  predicate HasPending(s: State) {
    s.billToDelete.Some? && s.billToDelete.value != ""
  }

  /** Selects the bills that do not carry `id`. */
  function IdIsNot(id: string): Bill -> bool {
    (b: Bill) => b.id != id
  }

  /** Selects the bills that carry `id`. */
  function IdIs(id: string): Bill -> bool {
    (b: Bill) => b.id == id
  }

  /**
   * `deleteBill`: with a pending id, every bill carrying it leaves the ledger
   * and nothing else does, and the pending id is cleared. Ownership is not
   * checked again here. With nothing pending it does nothing.
   */
  function DeleteBill(s: State): (r: State)
    ensures !HasPending(s) ==> r == s
    ensures HasPending(s) ==>
      && r.billToDelete.None?
      && r.selectedUser == s.selectedUser && r.error == s.error && r.selectedDate == s.selectedDate
      && r.amount == s.amount && r.description == s.description && r.category == s.category
    ensures HasPending(s) ==> forall b :: b in r.bills <==> b in s.bills && b.id != s.billToDelete.value
  {
    if HasPending(s) then
      FilterMembers(s.bills, IdIsNot(s.billToDelete.value));
      s.(bills := Filter(s.bills, IdIsNot(s.billToDelete.value)), billToDelete := None)
    else s
  }

  /** The dialog closes without confirming: the pending id is dropped and the ledger kept. */
  function CancelDelete(s: State): (r: State)
    ensures r.billToDelete.None? && !HasPending(r)
    ensures r.bills == s.bills && r.selectedUser == s.selectedUser && r.error == s.error
    ensures r.amount == s.amount && r.description == s.description && r.category == s.category
    ensures r.selectedDate == s.selectedDate
  {
    s.(billToDelete := None)
  }

  /** Deleting a bill leaves every other bill in the ledger exactly as often as before. */
  lemma DeleteKeepsOthers(s: State, b: Bill)
    requires HasPending(s) && b.id != s.billToDelete.value
    ensures multiset(DeleteBill(s).bills)[b] == multiset(s.bills)[b]
  {
    FilterKeepsCount(s.bills, IdIsNot(s.billToDelete.value), b);
  }

  /** A pending id that no bill carries leaves the ledger as it is. */
  lemma DeleteOfAbsentIdKeepsLedger(s: State)
    requires HasPending(s)
    requires forall i :: 0 <= i < |s.bills| ==> s.bills[i].id != s.billToDelete.value
    ensures DeleteBill(s).bills == s.bills
  {
    FilterKeepsAll(s.bills, IdIsNot(s.billToDelete.value));
  }

  /**
   * With unique ids, filtering out the id of the bill at position k removes
   * that bill and nothing else, keeping the others in their order.
   */
  lemma FilterOutUniqueId(bills: seq<Bill>, k: nat)
    requires UniqueIds(bills) && k < |bills|
    ensures Filter(bills, IdIsNot(bills[k].id)) == bills[..k] + bills[k + 1..]
  {
    var before, after := bills[..k], bills[k + 1..];
    OthersCarryOtherIds(bills, k, before, after);
    SplitAt(bills, k);
    FilterOutSplit(before, bills[k], after);
  }

  /** A sequence is the part before position k, the element at k and the part after. */
  lemma SplitAt(s: seq<Bill>, k: nat)
    requires k < |s|
    ensures s == s[..k] + [s[k]] + s[k + 1..]
  {
  }

  /** Filtering out the id of `x` from `before + [x] + after`, where only `x` carries it. */
  lemma FilterOutSplit(before: seq<Bill>, x: Bill, after: seq<Bill>)
    requires forall i :: 0 <= i < |before| ==> before[i].id != x.id
    requires forall i :: 0 <= i < |after| ==> after[i].id != x.id
    ensures Filter(before + [x] + after, IdIsNot(x.id)) == before + after
  {
    var p := IdIsNot(x.id);
    assert before + [x] + after == before + ([x] + after);
    FilterOutHead(x, after);
    FilterKeepsAll(before, p);
    FilterAppend(before, [x] + after, p);
  }

  /** Filtering out the id of `x` from `[x] + after`, where no bill of `after` carries it. */
  lemma FilterOutHead(x: Bill, after: seq<Bill>)
    requires forall i :: 0 <= i < |after| ==> after[i].id != x.id
    ensures Filter([x] + after, IdIsNot(x.id)) == after
  {
    var p := IdIsNot(x.id);
    assert !p(x);
    FilterCons(x, after, p);
    FilterKeepsAll(after, p);
  }

  /** With unique ids, the bills before and after position k carry ids other than its own. */
  lemma OthersCarryOtherIds(bills: seq<Bill>, k: nat, before: seq<Bill>, after: seq<Bill>)
    requires UniqueIds(bills) && k < |bills|
    requires before == bills[..k] && after == bills[k + 1..]
    ensures forall i :: 0 <= i < |before| ==> before[i].id != bills[k].id
    ensures forall i :: 0 <= i < |after| ==> after[i].id != bills[k].id
  {
    forall i | 0 <= i < |before|
      ensures before[i].id != bills[k].id
    {
      assert before[i] == bills[i];
    }
    forall i | 0 <= i < |after|
      ensures after[i].id != bills[k].id
    {
      assert after[i] == bills[k + 1 + i];
    }
  }

  /**
   * With unique ids, deleting removes exactly the one bill that carries the
   * pending id and keeps the others in their order.
   */
  lemma DeleteRemovesExactlyOne(s: State, k: nat)
    requires UniqueIds(s.bills) && HasPending(s)
    requires k < |s.bills| && s.bills[k].id == s.billToDelete.value
    ensures DeleteBill(s).bills == s.bills[..k] + s.bills[k + 1..]
    ensures |DeleteBill(s).bills| == |s.bills| - 1
  {
    FilterOutUniqueId(s.bills, k);
  }

  /** The dialog's cancel leaves nothing for a later confirm to delete. */
  lemma CancelThenConfirmDeletesNothing(s: State)
    ensures DeleteBill(CancelDelete(s)) == CancelDelete(s)
    ensures DeleteBill(CancelDelete(s)).bills == s.bills
  {
  }

  /**
   * With unique ids, "the first bill with this id is mine" is the same as
   * "some bill with this id is mine".
   */
  lemma MayDeleteOwnBill(s: State, id: string)
    requires UniqueIds(s.bills)
    ensures MayDelete(s, id) <==>
      s.selectedUser.Some? &&
      exists i :: 0 <= i < |s.bills| && s.bills[i].id == id && s.bills[i].userId == s.selectedUser.value.id
  {
    if s.selectedUser.Some? {
      if i :| 0 <= i < |s.bills| && s.bills[i].id == id && s.bills[i].userId == s.selectedUser.value.id {
        assert forall j :: 0 <= j < i ==> s.bills[j].id != id;
      }
    }
  }

  /**
   * Confirming and then deleting one's own bill removes that bill and only
   * it, provided ids are unique.
   */
  lemma ConfirmThenDeleteRemovesOwnBill(s: State, id: string, k: nat)
    requires UniqueIds(s.bills) && id != ""
    requires k < |s.bills| && s.bills[k].id == id
    requires s.selectedUser.Some? && s.bills[k].userId == s.selectedUser.value.id
    ensures DeleteBill(ConfirmDelete(s, id)).bills == s.bills[..k] + s.bills[k + 1..]
  {
    MayDeleteOwnBill(s, id);
    DeleteRemovesExactlyOne(ConfirmDelete(s, id), k);
  }

  /**
   * Asking to delete a bill one does not own only sets the message: with
   * Babar signed in, Zohaib's bill cannot become the pending one, and a
   * confirm that follows deletes nothing.
   */
  lemma ForeignBillIsRefused()
    ensures
      var bill := Bill("a", 1, "Zohaib", 50.0, 0, "food", None);
      var s := State([bill], Some(Users[1]), "", "", "", "", None, None);
      var r := ConfirmDelete(s, "a");
      r == s.(error := NotOwnerError) && DeleteBill(r).bills == [bill]
  {
    var bill := Bill("a", 1, "Zohaib", 50.0, 0, "food", None);
    var s := State([bill], Some(Users[1]), "", "", "", "", None, None);
    MayDeleteOwnBill(s, "a");
  }

  /**
   * Save and delete are inverse: a bill saved under a fresh id can be
   * confirmed for deletion by the same user, and deleting it gives back the
   * ledger as it was before the save.
   */
  lemma SaveThenDeleteRestoresLedger(s: State, host: Host, newId: string, now: int)
    requires CanSave(s, host) && newId != ""
    requires forall i :: 0 <= i < |s.bills| ==> s.bills[i].id != newId
    ensures ConfirmDelete(SaveBill(s, host, newId, now), newId).billToDelete == Some(newId)
    ensures DeleteBill(ConfirmDelete(SaveBill(s, host, newId, now), newId)).bills == s.bills
  {
    var saved := SaveBill(s, host, newId, now);
    var bill := saved.bills[|s.bills|];
    SavedBillMayBeDeleted(s, host, newId, now);
    assert saved.bills == s.bills + [bill] + [];
    FilterOutSplit(s.bills, bill, []);
  }

  /** The user who saved a bill under a fresh id may ask to delete it. */
  lemma SavedBillMayBeDeleted(s: State, host: Host, newId: string, now: int)
    requires CanSave(s, host)
    requires forall i :: 0 <= i < |s.bills| ==> s.bills[i].id != newId
    ensures MayDelete(SaveBill(s, host, newId, now), newId)
  {
    var saved := SaveBill(s, host, newId, now);
    var n := |s.bills|;
    assert forall j :: 0 <= j < n ==> saved.bills[j] == s.bills[j];
    assert saved.bills[n].id == newId && saved.bills[n].userId == saved.selectedUser.value.id;
  }

  /**
   * A save adds the new amount to the grand total, to the signed-in user's
   * total and to the chosen category's total, and to no other total.
   */
  lemma SaveBillTotals(s: State, host: Host, newId: string, now: int, userId: int, category: string)
    requires CanSave(s, host)
    ensures Total(SaveBill(s, host, newId, now).bills) == Total(s.bills) + host.parseFloat(s.amount)
    ensures TotalFor(SaveBill(s, host, newId, now).bills, UserKey, userId)
         == TotalFor(s.bills, UserKey, userId)
            + (if userId == s.selectedUser.value.id then host.parseFloat(s.amount) else 0.0)
    ensures TotalFor(SaveBill(s, host, newId, now).bills, CategoryKey, category)
         == TotalFor(s.bills, CategoryKey, category)
            + (if category == s.category then host.parseFloat(s.amount) else 0.0)
  {
    var r := SaveBill(s, host, newId, now);
    var bill := r.bills[|s.bills|];
    assert r.bills == s.bills + [bill];
    TotalAppend(s.bills, [bill]);
    TotalForAppend(s.bills, bill, UserKey, userId);
    TotalForAppend(s.bills, bill, CategoryKey, category);
  }

  /** A delete lowers the grand total by exactly the amounts of the bills carrying the pending id. */
  lemma DeleteBillTotal(s: State)
    requires HasPending(s)
    ensures Total(s.bills) == Total(DeleteBill(s).bills) + Total(Filter(s.bills, IdIs(s.billToDelete.value)))
  {
    var id := s.billToDelete.value;
    TotalSplits(s.bills, IdIsNot(id), IdIs(id));
  }

  /** The user input the page can deliver in a given state. */
  datatype Event =
    | UserClicked(user: User)
    | LogoutClicked
    | AmountTyped(text: string)
    | DescriptionTyped(text: string)
    | CategoryChosen(categoryId: string)
    | DateChosen(date: Option<int>)
    | SaveClicked(newId: string, now: int)
    | DeleteClicked(billId: string)
    | DeleteConfirmed
    | DialogClosed

  /**
   * The handler each event runs; the form inputs write their field directly.
   * Only a save or a confirmed delete touches the ledger, only choosing a
   * user or logging out changes who is signed in, only the delete request,
   * its confirmation and the dialog's close change the pending deletion, and
   * each form input changes its own field.
   */
  function Step(s: State, host: Host, e: Event): (r: State)
    ensures r.bills != s.bills ==> e.SaveClicked? || e.DeleteConfirmed?
    ensures r.selectedUser != s.selectedUser ==> e.UserClicked? || e.LogoutClicked?
    ensures r.billToDelete != s.billToDelete ==> e.DeleteClicked? || e.DeleteConfirmed? || e.DialogClosed?
    ensures r.selectedDate != s.selectedDate ==> e.DateChosen?
    ensures e.AmountTyped? ==>
      && r.amount == e.text && r.description == s.description && r.category == s.category
      && r.error == s.error
    ensures e.DescriptionTyped? ==>
      && r.description == e.text && r.amount == s.amount && r.category == s.category
      && r.error == s.error
    ensures e.CategoryChosen? ==>
      && r.category == e.categoryId && r.amount == s.amount && r.description == s.description
      && r.error == s.error
    ensures e.DateChosen? ==>
      && r.selectedDate == e.date && r.error == s.error
      && r.amount == s.amount && r.description == s.description && r.category == s.category
  {
    match e
    case UserClicked(user) => SelectUser(s, user)
    case LogoutClicked => Logout(s)
    case AmountTyped(text) => s.(amount := text)
    case DescriptionTyped(text) => s.(description := text)
    case CategoryChosen(categoryId) => s.(category := categoryId)
    case DateChosen(date) => s.(selectedDate := date)
    case SaveClicked(newId, now) => SaveBill(s, host, newId, now)
    case DeleteClicked(billId) => ConfirmDelete(s, billId)
    case DeleteConfirmed => DeleteBill(s)
    case DialogClosed => CancelDelete(s)
  }

  /**
   * What the page can actually deliver: users and categories come from the
   * rosters, and a saved bill gets a non-empty id no bill carries yet.
   */
  ghost predicate Admissible(s: State, e: Event) {
    match e
    case UserClicked(user) => user in Users
    case CategoryChosen(categoryId) => categoryId in CategoryIds
    case SaveClicked(newId, _) => newId != "" && forall i :: 0 <= i < |s.bills| ==> s.bills[i].id != newId
    case _ => true
  }

  /**
   * Holds in every state the page can reach: ids are unique, every bill's
   * owner and owner name come from the roster, every bill's category is a
   * listed one, and so are the signed-in user and the chosen category.
   */
  ghost predicate Inv(s: State) {
    && UniqueIds(s.bills)
    && (forall i :: 0 <= i < |s.bills| ==> User(s.bills[i].userId, s.bills[i].userName) in Users)
    && (forall i :: 0 <= i < |s.bills| ==> s.bills[i].category in CategoryIds)
    && (s.selectedUser.None? || s.selectedUser.value in Users)
    && (s.category == "" || s.category in CategoryIds)
  }

  /** The state on first render satisfies the invariant. */
  lemma InitSatisfiesInv(now: int)
    ensures Inv(Init(now))
  {
  }

  /** Every admissible event keeps the invariant. */
  lemma StepPreservesInv(s: State, host: Host, e: Event)
    requires Inv(s) && Admissible(s, e)
    ensures Inv(Step(s, host, e))
  {
    match e
    case SaveClicked(newId, now) => SaveKeepsInv(s, host, newId, now);
    case DeleteConfirmed => DeleteKeepsInv(s);
    case _ =>
  }

  /** Saving a bill under a fresh id keeps the invariant. */
  lemma SaveKeepsInv(s: State, host: Host, newId: string, now: int)
    requires Inv(s)
    requires forall i :: 0 <= i < |s.bills| ==> s.bills[i].id != newId
    ensures Inv(SaveBill(s, host, newId, now))
  {
    var r := SaveBill(s, host, newId, now);
    if CanSave(s, host) {
      var n := |s.bills|;
      assert forall i :: 0 <= i < n ==> r.bills[i] == s.bills[i];
      assert r.bills[n].id == newId;
    }
  }

  /** Deleting keeps the invariant: what is left is part of what was there. */
  lemma DeleteKeepsInv(s: State)
    requires Inv(s)
    ensures Inv(DeleteBill(s))
  {
    if HasPending(s) {
      var r := DeleteBill(s);
      assert forall i :: 0 <= i < |r.bills| ==> r.bills[i] in s.bills;
      assert UniqueIds(r.bills) by {
        forall i, j | 0 <= i < j < |r.bills|
          ensures r.bills[i].id != r.bills[j].id
        {
          DeleteKeepsDistinct(s, i, j);
        }
      }
    }
  }

  /** Two positions of the ledger after a delete hold bills with different ids. */
  lemma DeleteKeepsDistinct(s: State, i: nat, j: nat)
    requires UniqueIds(s.bills) && HasPending(s)
    requires i < j < |DeleteBill(s).bills|
    ensures DeleteBill(s).bills[i].id != DeleteBill(s).bills[j].id
  {
    var id := s.billToDelete.value;
    FilterIsUnique(s.bills, IdIsNot(id), i, j);
  }

  /** A filter of a ledger with unique ids has unique ids. */
  lemma {:induction false} FilterIsUnique(bills: seq<Bill>, p: Bill -> bool, i: nat, j: nat)
    requires UniqueIds(bills)
    requires i < j < |Filter(bills, p)|
    ensures Filter(bills, p)[i].id != Filter(bills, p)[j].id
  {
    var rest := Filter(bills[1..], p);
    assert UniqueIds(bills[1..]) by {
      forall a, b | 0 <= a < b < |bills[1..]|
        ensures bills[1..][a].id != bills[1..][b].id
      {
        assert bills[1..][a] == bills[a + 1] && bills[1..][b] == bills[b + 1];
      }
    }
    if p(bills[0]) {
      assert Filter(bills, p) == [bills[0]] + rest;
      if i == 0 {
        FilterMembers(bills[1..], p);
        assert rest[j - 1] in bills[1..];
        var m :| 0 <= m < |bills[1..]| && bills[1..][m] == rest[j - 1];
        assert bills[m + 1] == rest[j - 1];
      } else {
        FilterIsUnique(bills[1..], p, i - 1, j - 1);
      }
    } else {
      assert Filter(bills, p) == rest;
      FilterIsUnique(bills[1..], p, i, j);
    }
  }

  /** The state after the events `es`, one handler after another. */
  function Run(s: State, host: Host, es: seq<Event>): State
    decreases |es|
  {
    if es == [] then s else Run(Step(s, host, es[0]), host, es[1..])
  }

  /** Every event of `es` is admissible in the state it arrives in. */
  ghost predicate AdmissibleRun(s: State, host: Host, es: seq<Event>)
    decreases |es|
  {
    es == [] || (Admissible(s, es[0]) && AdmissibleRun(Step(s, host, es[0]), host, es[1..]))
  }

  /** Every admissible sequence of events keeps the invariant. */
  lemma {:induction false} RunPreservesInv(s: State, host: Host, es: seq<Event>)
    requires Inv(s) && AdmissibleRun(s, host, es)
    ensures Inv(Run(s, host, es))
    decreases |es|
  {
    if es != [] {
      StepPreservesInv(s, host, es[0]);
      RunPreservesInv(Step(s, host, es[0]), host, es[1..]);
    }
  }

  /** A pending deletion names a bill that is in the ledger. */
  ghost predicate PendingPresent(s: State) {
    s.billToDelete.Some? ==> exists i :: 0 <= i < |s.bills| && s.bills[i].id == s.billToDelete.value
  }

  /**
   * Every admissible event keeps the pending id pointing at a bill: only a
   * request that found the bill sets it, a save keeps the old bills, and a
   * delete or a cancel clears it.
   */
  lemma StepKeepsPendingPresent(s: State, host: Host, e: Event)
    requires PendingPresent(s) && Admissible(s, e)
    ensures PendingPresent(Step(s, host, e))
  {
    match e
    case SaveClicked(newId, now) =>
      var r := SaveBill(s, host, newId, now);
      if CanSave(s, host) && s.billToDelete.Some? {
        var i :| 0 <= i < |s.bills| && s.bills[i].id == s.billToDelete.value;
        assert r.bills[i] == r.bills[..|s.bills|][i] == s.bills[i];
      }
    case DeleteClicked(billId) =>
      if MayDelete(s, billId) {
        var i :| 0 <= i < |s.bills| && s.bills[i].id == billId && s.bills[i].userId == s.selectedUser.value.id
                 && (forall j :: 0 <= j < i ==> s.bills[j].id != billId);
        assert ConfirmDelete(s, billId).bills[i].id == billId;
      }
    case _ =>
  }

  /** Every admissible sequence of events keeps the pending id pointing at a bill. */
  lemma {:induction false} RunKeepsPendingPresent(s: State, host: Host, es: seq<Event>)
    requires PendingPresent(s) && AdmissibleRun(s, host, es)
    ensures PendingPresent(Run(s, host, es))
    decreases |es|
  {
    if es != [] {
      StepKeepsPendingPresent(s, host, es[0]);
      RunKeepsPendingPresent(Step(s, host, es[0]), host, es[1..]);
    }
  }

  /**
   * In every state the page can reach, confirming a pending deletion removes
   * exactly one bill: ids are unique and the pending id names a bill.
   */
  lemma ReachableDeleteRemovesExactlyOne(now: int, host: Host, es: seq<Event>)
    requires AdmissibleRun(Init(now), host, es)
    ensures HasPending(Run(Init(now), host, es)) ==>
      |DeleteBill(Run(Init(now), host, es)).bills| == |Run(Init(now), host, es).bills| - 1
  {
    var s := Run(Init(now), host, es);
    InitSatisfiesInv(now);
    RunPreservesInv(Init(now), host, es);
    RunKeepsPendingPresent(Init(now), host, es);
    if HasPending(s) {
      var k :| 0 <= k < |s.bills| && s.bills[k].id == s.billToDelete.value;
      DeleteRemovesExactlyOne(s, k);
    }
  }

  /**
   * In every state the page can reach, the three user cards add up to the
   * grand total and so do the five category cells.
   */
  lemma ReachableTotalsPartition(now: int, host: Host, es: seq<Event>)
    requires AdmissibleRun(Init(now), host, es)
    ensures KeyedTotals(Run(Init(now), host, es).bills, UserKey, UserIds) == Total(Run(Init(now), host, es).bills)
    ensures KeyedTotals(Run(Init(now), host, es).bills, CategoryKey, CategoryIds) == Total(Run(Init(now), host, es).bills)
  {
    InitSatisfiesInv(now);
    RunPreservesInv(Init(now), host, es);
    var bills := Run(Init(now), host, es).bills;
    forall i | 0 <= i < |bills|
      ensures bills[i].userId in UserIds
    {
      var u := User(bills[i].userId, bills[i].userName);
      assert u in Users;
      assert u == Users[0] || u == Users[1] || u == Users[2];
    }
    UserTotalsSumToGrandTotal(bills);
    CategoryTotalsSumToGrandTotal(bills);
  }

  /**
   * The pending deletion is not tied to the signed-in user: after a confirmed
   * request, logging out keeps it, and the confirm then deletes the bill with
   * nobody signed in.
   */
  lemma PendingDeleteOutlivesLogout()
    ensures
      var bill := Bill("a", 1, "Zohaib", 50.0, 0, "food", Some(""));
      var s := State([bill], Some(Users[0]), "", "", "", "", None, None);
      var after := Logout(ConfirmDelete(s, "a"));
      after.selectedUser.None? && after.billToDelete == Some("a") && DeleteBill(after).bills == []
  {
    var bill := Bill("a", 1, "Zohaib", 50.0, 0, "food", Some(""));
    var s := State([bill], Some(Users[0]), "", "", "", "", None, None);
    assert MayDelete(s, "a") by {
      assert s.bills[0].id == "a" && s.bills[0].userId == s.selectedUser.value.id;
    }
  }
}
