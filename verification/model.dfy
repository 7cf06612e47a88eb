/**
 * Data model of the bill ledger: the user, category and bill records the
 * page declares, the two fixed rosters, the host capabilities the page
 * borrows from the JavaScript runtime, and `Filter`, the order-preserving
 * selection every query and the delete operation are built from.
 */
module Model {

  datatype Option<T> = None | Some(value: T)

  /** A person who can record bills; the roster below is fixed. */
  datatype User = User(id: int, name: string)

  /** A spending category; `id` is what a bill stores. */
  datatype Category = Category(id: string, name: string)

  /**
   * One recorded expense. `userName` is a copy of the owner's name taken
   * when the bill is saved, `date` is the instant as a millisecond timestamp
   * and `amount` is exact (no floating-point rounding).
   */
  datatype Bill = Bill(
    id: string,
    userId: int,
    userName: string,
    amount: real,
    date: int,
    category: string,
    description: Option<string>)

  const Users: seq<User> := [User(1, "Zohaib"), User(2, "Babar"), User(3, "Mustafa")]

  const Categories: seq<Category> := [
    Category("food", "Food"),
    Category("transport", "Transport"),
    Category("utilities", "Utilities"),
    Category("entertainment", "Entertainment"),
    Category("other", "Other")
  ]

  /** The ids of a roster of users, in roster order. */
  function IdsOfUsers(roster: seq<User>): seq<int> {
    if roster == [] then [] else [roster[0].id] + IdsOfUsers(roster[1..])
  }

  /** The ids of a list of categories, in list order. */
  function IdsOfCategories(list: seq<Category>): seq<string> {
    if list == [] then [] else [list[0].id] + IdsOfCategories(list[1..])
  }

  /** The user ids in roster order, as the per-user total cards list them. */
  const UserIds: seq<int> := IdsOfUsers(Users)

  /** The category ids in roster order, as the category breakdown lists them. */
  const CategoryIds: seq<string> := IdsOfCategories(Categories)

  /**
   * What the page takes from the JavaScript runtime, as plain functions.
   *  - number: `Number(s)`, with None standing for NaN;
   *  - parseFloat: `parseFloat(s)` on a string `Number` accepted;
   *  - render: `Number.prototype.toString`;
   *  - lower: `String.prototype.toLowerCase`;
   *  - dayOf: `new Date(t).toDateString()`, the local calendar day of an instant.
   */
  datatype Host = Host(
    number: string -> Option<real>,
    parseFloat: string -> real,
    render: real -> string,
    lower: string -> string,
    dayOf: int -> string)

  /** No value occurs twice. */
  ghost predicate Distinct<K>(keys: seq<K>) {
    forall i, j :: 0 <= i < j < |keys| ==> keys[i] != keys[j]
  }

  /** Every bill carries its own id: no two positions share one. */
  ghost predicate UniqueIds(bills: seq<Bill>) {
    forall i, j :: 0 <= i < j < |bills| ==> bills[i].id != bills[j].id
  }

  /**
   * `Array.prototype.filter`: the elements satisfying `p`, in their original
   * order, each with its original multiplicity.
   */
  function Filter<T(!new)>(s: seq<T>, p: T -> bool): (r: seq<T>)
    ensures |r| <= |s|
    ensures forall i :: 0 <= i < |r| ==> p(r[i])
  {
    if s == [] then []
    else
      assert s == [s[0]] + s[1..];
      (if p(s[0]) then [s[0]] else []) + Filter(s[1..], p)
  }

  /** The filter keeps exactly the elements that satisfy `p`. */
  lemma {:induction false} FilterMembers<T(!new)>(s: seq<T>, p: T -> bool)
    ensures forall x :: x in Filter(s, p) <==> x in s && p(x)
  {
    if s != [] {
      FilterMembers(s[1..], p);
      assert s == [s[0]] + s[1..];
    }
  }

  /** An element the filter selects is kept as many times as it occurs. */
  lemma {:induction false} FilterKeepsCount<T(!new)>(s: seq<T>, p: T -> bool, x: T)
    requires p(x)
    ensures multiset(Filter(s, p))[x] == multiset(s)[x]
  {
    if s != [] {
      assert s == [s[0]] + s[1..];
      FilterKeepsCount(s[1..], p, x);
    }
  }

  /** Filtering distributes over concatenation, which is how it keeps order. */
  lemma {:induction false} FilterAppend<T(!new)>(a: seq<T>, b: seq<T>, p: T -> bool)
    ensures Filter(a + b, p) == Filter(a, p) + Filter(b, p)
  {
    if a == [] {
      assert a + b == b;
    } else {
      assert (a + b)[0] == a[0];
      assert (a + b)[1..] == a[1..] + b;
      FilterAppend(a[1..], b, p);
    }
  }

  /** Filtering a single element keeps it exactly when it satisfies `p`. */
  lemma FilterSingle<T(!new)>(x: T, p: T -> bool)
    ensures Filter([x], p) == if p(x) then [x] else []
  {
    assert [x][1..] == [];
  }

  /** Filtering a sequence with a given head: the head's part, then the tail's. */
  lemma FilterCons<T(!new)>(x: T, s: seq<T>, p: T -> bool)
    ensures Filter([x] + s, p) == (if p(x) then [x] else []) + Filter(s, p)
  {
    FilterAppend([x], s, p);
    FilterSingle(x, p);
  }

  /** A filter that every element passes returns the sequence itself. */
  lemma {:induction false} FilterKeepsAll<T(!new)>(s: seq<T>, p: T -> bool)
    requires forall i :: 0 <= i < |s| ==> p(s[i])
    ensures Filter(s, p) == s
  {
    if s != [] {
      FilterKeepsAll(s[1..], p);
    }
  }

  /** A filter that no element passes returns the empty sequence. */
  lemma {:induction false} FilterDropsAll<T(!new)>(s: seq<T>, p: T -> bool)
    requires forall i :: 0 <= i < |s| ==> !p(s[i])
    ensures Filter(s, p) == []
  {
    if s != [] {
      FilterDropsAll(s[1..], p);
    }
  }
}
