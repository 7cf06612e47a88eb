/**
 * The bill history view: the bills that match the search term and the
 * optional day filter, newest first.
 */
module History {
  import opened Model

  /** `needle` occurs in `hay` starting at position `i`. */
  predicate OccursAt(hay: string, needle: string, i: nat) {
    i + |needle| <= |hay| && hay[i..i + |needle|] == needle
  }

  /**
   * `hay.includes(needle)`, scanning start positions from the left: true
   * exactly when `needle` occurs in `hay` at some position.
   */
  function Contains(hay: string, needle: string): (r: bool)
    ensures r <==> exists i: nat :: OccursAt(hay, needle, i)
    decreases |hay|
  {
    if needle <= hay then
      assert OccursAt(hay, needle, 0);
      true
    else if hay == [] then
      assert forall i: nat :: !OccursAt(hay, needle, i);
      false
    else
      assert !OccursAt(hay, needle, 0);
      assert forall i: nat :: OccursAt(hay, needle, i + 1) <==> OccursAt(hay[1..], needle, i) by {
        forall i: nat
          ensures OccursAt(hay, needle, i + 1) <==> OccursAt(hay[1..], needle, i)
        {
          if i + 1 + |needle| <= |hay| {
            assert hay[i + 1..i + 1 + |needle|] == hay[1..][i..i + |needle|];
          }
        }
      }
      assert (exists i: nat :: OccursAt(hay, needle, i)) ==> exists i: nat :: OccursAt(hay[1..], needle, i) by {
        if i: nat :| OccursAt(hay, needle, i) {
          assert i != 0;
          assert OccursAt(hay[1..], needle, i - 1);
        }
      }
      Contains(hay[1..], needle)
  }

  /**
   * The search half of the filter: the owner's name or the description
   * contains the term ignoring case, or the amount's decimal rendering
   * contains the term as typed. A bill without a description only matches
   * through the other two, and the empty term matches every bill.
   */
  function MatchesSearch(host: Host, b: Bill, term: string): (r: bool)
    ensures term == "" ==> r
    ensures b.description.None? ==>
      (r <==> Contains(host.lower(b.userName), host.lower(term)) || Contains(host.render(b.amount), term))
  {
    assert term == "" ==> OccursAt(host.render(b.amount), term, 0);
    || Contains(host.lower(b.userName), host.lower(term))
    || (b.description.Some? && Contains(host.lower(b.description.value), host.lower(term)))
    || Contains(host.render(b.amount), term)
  }

  /**
   * The day half of the filter: no filter, or the bill falls on the filter's
   * calendar day. A filter set to a bill's own instant always keeps it.
   */
  function MatchesDay(host: Host, b: Bill, dateFilter: Option<int>): (r: bool)
    ensures dateFilter.None? ==> r
    ensures dateFilter == Some(b.date) ==> r
  {
    dateFilter.None? || host.dayOf(b.date) == host.dayOf(dateFilter.value)
  }

  /** The day filter only looks at the calendar day: bills on the same day are kept or dropped together. */
  lemma SameDayMatchesAlike(host: Host, b: Bill, c: Bill, dateFilter: Option<int>)
    requires host.dayOf(b.date) == host.dayOf(c.date)
    ensures MatchesDay(host, b, dateFilter) <==> MatchesDay(host, c, dateFilter)
  {
  }

  /** The predicate the history view filters with. */
  function Shown(host: Host, term: string, dateFilter: Option<int>): Bill -> bool {
    b => MatchesSearch(host, b, term) && MatchesDay(host, b, dateFilter)
  }

  /** Non-increasing by timestamp: every bill is at least as recent as those after it. */
  ghost predicate NewestFirst(s: seq<Bill>) {
    forall i, j :: 0 <= i < j < |s| ==> s[i].date >= s[j].date
  }

  /**
   * Places `b` in front of the first bill that is not strictly more recent,
   * so that `b` lands ahead of its equals. Into a newest-first sequence this
   * is an ordered insertion (`InsertKeepsNewestFirst`).
   */
  function Insert(b: Bill, s: seq<Bill>): (r: seq<Bill>)
    ensures multiset(r) == multiset(s) + multiset{b}
    ensures |r| == |s| + 1 && (r[0] == b || (s != [] && r[0] == s[0]))
  {
    if s == [] || s[0].date <= b.date then
      [b] + s
    else
      assert s == [s[0]] + s[1..];
      [s[0]] + Insert(b, s[1..])
  }

  /** Inserting into a newest-first sequence keeps it newest first. */
  lemma {:induction false} InsertKeepsNewestFirst(b: Bill, s: seq<Bill>)
    requires NewestFirst(s)
    ensures NewestFirst(Insert(b, s))
  {
    if s == [] || s[0].date <= b.date {
      PrependKeepsNewestFirst(b, s);
    } else {
      InsertKeepsNewestFirst(b, s[1..]);
      PrependKeepsNewestFirst(s[0], Insert(b, s[1..]));
    }
  }

  /** A bill at least as recent as the head of a newest-first sequence can go in front of it. */
  lemma PrependKeepsNewestFirst(x: Bill, s: seq<Bill>)
    requires NewestFirst(s)
    requires s == [] || x.date >= s[0].date
    ensures NewestFirst([x] + s)
  {
    forall i, j | 0 <= i < j < |[x] + s|
      ensures ([x] + s)[i].date >= ([x] + s)[j].date
    {
      if i == 0 && j > 1 {
        assert s[0].date >= s[j - 1].date;
      }
    }
  }

  /**
   * The comparator sort `(a, b) => time(b) - time(a)`: newest first, and,
   * like JavaScript's stable `Array.prototype.sort`, bills with the same
   * timestamp keep their relative order.
   */
  function SortNewestFirst(s: seq<Bill>): (r: seq<Bill>)
    ensures NewestFirst(r)
    ensures multiset(r) == multiset(s)
  {
    if s == [] then []
    else
      assert s == [s[0]] + s[1..];
      InsertKeepsNewestFirst(s[0], SortNewestFirst(s[1..]));
      Insert(s[0], SortNewestFirst(s[1..]))
  }

  /**
   * `filteredBills`: exactly the bills that match the search and the day
   * filter, each as often as in the ledger, newest first.
   */
  function FilteredBills(host: Host, bills: seq<Bill>, term: string, dateFilter: Option<int>): (r: seq<Bill>)
    ensures NewestFirst(r)
    ensures multiset(r) == multiset(Filter(bills, Shown(host, term, dateFilter)))
    ensures forall b :: b in r <==> b in bills && MatchesSearch(host, b, term) && MatchesDay(host, b, dateFilter)
  {
    var kept := Filter(bills, Shown(host, term, dateFilter));
    var r := SortNewestFirst(kept);
    FilterMembers(bills, Shown(host, term, dateFilter));
    assert forall b :: b in r <==> b in multiset(r);
    assert forall b :: b in kept <==> b in multiset(kept);
    r
  }

  /** Selects the bills recorded at instant `t`. */
  function At(t: int): Bill -> bool {
    (b: Bill) => b.date == t
  }

  /** Inserting keeps the bills recorded at instant `t` in their order, with `b` ahead of its equals. */
  lemma {:induction false} InsertKeepsEqualsInOrder(b: Bill, s: seq<Bill>, t: int)
    ensures Filter(Insert(b, s), At(t)) == (if b.date == t then [b] else []) + Filter(s, At(t))
  {
    var p := At(t);
    if s == [] || s[0].date <= b.date {
      FilterCons(b, s, p);
    } else {
      InsertPassesNewer(b, s);
      InsertKeepsEqualsInOrder(b, s[1..], t);
      FilterCons(s[0], Insert(b, s[1..]), p);
      FilterCons(s[0], s[1..], p);
      PassingKeepsEqualsInOrder(s[0], b, Filter(s[1..], p), t);
    }
  }

  /** A bill strictly more recent than `b` stays in front of it. */
  lemma InsertPassesNewer(b: Bill, s: seq<Bill>)
    requires s != [] && s[0].date > b.date
    ensures Insert(b, s) == [s[0]] + Insert(b, s[1..])
    ensures s == [s[0]] + s[1..]
  {
  }

  /**
   * The bookkeeping step of `InsertKeepsEqualsInOrder`: when `x` is more
   * recent than `b`, at most one of them is recorded at `t`, so putting `x`
   * first or `b` first selects the same sequence.
   */
  lemma PassingKeepsEqualsInOrder(x: Bill, b: Bill, tail: seq<Bill>, t: int)
    requires x.date > b.date
    ensures (if At(t)(x) then [x] else []) + ((if b.date == t then [b] else []) + tail)
         == (if b.date == t then [b] else []) + ((if At(t)(x) then [x] else []) + tail)
  {
  }

  /**
   * The sort is stable: for every instant, the bills recorded at it appear
   * in the result in exactly the order they have in the input.
   */
  lemma {:induction false} SortIsStable(s: seq<Bill>, t: int)
    ensures Filter(SortNewestFirst(s), At(t)) == Filter(s, At(t))
  {
    if s != [] {
      SortIsStable(s[1..], t);
      InsertKeepsEqualsInOrder(s[0], SortNewestFirst(s[1..]), t);
      FilterAppend([s[0]], s[1..], At(t));
      assert s == [s[0]] + s[1..];
    }
  }

  /**
   * The view is stable: for every instant, the matching bills recorded at it
   * appear in the view in the order they have in the ledger.
   */
  lemma FilteredBillsIsStable(host: Host, bills: seq<Bill>, term: string, dateFilter: Option<int>, t: int)
    ensures Filter(FilteredBills(host, bills, term, dateFilter), At(t))
         == Filter(Filter(bills, Shown(host, term, dateFilter)), At(t))
  {
    SortIsStable(Filter(bills, Shown(host, term, dateFilter)), t);
  }

  /** The empty string occurs in every string. */
  lemma EmptyTermOccursEverywhere(hay: string)
    ensures Contains(hay, "")
  {
  }

  /** With an empty search box and no day filter the view lists every bill of the ledger. */
  lemma EmptySearchShowsEverything(host: Host, bills: seq<Bill>)
    ensures multiset(FilteredBills(host, bills, "", None)) == multiset(bills)
  {
    forall i | 0 <= i < |bills|
      ensures Shown(host, "", None)(bills[i])
    {
      EmptyTermOccursEverywhere(host.render(bills[i].amount));
    }
    FilterKeepsAll(bills, Shown(host, "", None));
  }

  /** A day filter that no bill falls on empties the view, whatever the search term. */
  lemma OtherDayShowsNothing(host: Host, bills: seq<Bill>, term: string, day: int)
    requires forall i :: 0 <= i < |bills| ==> host.dayOf(bills[i].date) != host.dayOf(day)
    ensures FilteredBills(host, bills, term, Some(day)) == []
  {
    FilterDropsAll(bills, Shown(host, term, Some(day)));
  }
}
