/**
 * The derived totals the page shows: one per user, one per category and a
 * grand total. Each is a filter followed by a sum, computed here in exact
 * arithmetic; the two-decimal formatting is not modelled.
 */
module Aggregates {
  import opened Model

  /** The sum of the amounts of `bills`: the value the page's `reduce` folds up. */
  function Total(bills: seq<Bill>): real {
    if bills == [] then 0.0 else bills[0].amount + Total(bills[1..])
  }

  /** The owner of a bill, used as a grouping key. */
  function UserKey(b: Bill): int { b.userId }

  /** The category of a bill, used as a grouping key. */
  function CategoryKey(b: Bill): string { b.category }

  /** Selects the bills whose `key` is `k`. */
  function KeyIs<K(==)>(key: Bill -> K, k: K): Bill -> bool {
    b => key(b) == k
  }

  /** The total of the bills whose `key` is `k`. */
  function TotalFor<K(==)>(bills: seq<Bill>, key: Bill -> K, k: K): real {
    Total(Filter(bills, KeyIs(key, k)))
  }

  /** The totals for each key of `keys`, added up: what the roster of cards adds to. */
  function KeyedTotals<K(==)>(bills: seq<Bill>, key: Bill -> K, keys: seq<K>): real {
    if keys == [] then 0.0 else TotalFor(bills, key, keys[0]) + KeyedTotals(bills, key, keys[1..])
  }

  /**
   * The left-to-right `reduce((sum, bill) => sum + bill.amount, 0)`; the
   * result is the sum of all the amounts.
   */
  method Reduce(bills: seq<Bill>) returns (sum: real)
    ensures sum == Total(bills)
  {
    sum := 0.0;
    var i := 0;
    while i < |bills|
      invariant 0 <= i <= |bills|
      invariant sum == Total(bills[..i])
    {
      assert bills[..i + 1] == bills[..i] + [bills[i]];
      TotalAppend(bills[..i], [bills[i]]);
      assert Total([bills[i]]) == bills[i].amount;
      sum := sum + bills[i].amount;
      i := i + 1;
    }
    assert bills[..i] == bills;
  }

  /** `getUserTotal`: the sum of the amounts of exactly the bills owned by `userId`. */
  method GetUserTotal(bills: seq<Bill>, userId: int) returns (total: real)
    ensures total == Total(Filter(bills, KeyIs(UserKey, userId)))
  {
    total := Reduce(Filter(bills, KeyIs(UserKey, userId)));
  }

  /** `getGrandTotal`: the sum of the amounts of every bill. */
  method GetGrandTotal(bills: seq<Bill>) returns (total: real)
    ensures total == Total(bills)
  {
    total := Reduce(bills);
  }

  /** `getCategoryTotal`: the sum of the amounts of exactly the bills filed under `category`. */
  method GetCategoryTotal(bills: seq<Bill>, category: string) returns (total: real)
    ensures total == Total(Filter(bills, KeyIs(CategoryKey, category)))
  {
    total := Reduce(Filter(bills, KeyIs(CategoryKey, category)));
  }

  /** The total of a concatenation is the sum of the totals. */
  lemma {:induction false} TotalAppend(a: seq<Bill>, b: seq<Bill>)
    ensures Total(a + b) == Total(a) + Total(b)
  {
    if a == [] {
      assert a + b == b;
    } else {
      assert (a + b)[0] == a[0];
      assert (a + b)[1..] == a[1..] + b;
      TotalAppend(a[1..], b);
    }
  }

  /** Appending a bill adds its amount to the total of its own key and to no other. */
  lemma TotalForAppend<K>(bills: seq<Bill>, bill: Bill, key: Bill -> K, k: K)
    ensures TotalFor(bills + [bill], key, k) == TotalFor(bills, key, k) + (if key(bill) == k then bill.amount else 0.0)
  {
    var p := KeyIs(key, k);
    FilterAppend(bills, [bill], p);
    FilterSingle(bill, p);
    TotalAppend(Filter(bills, p), Filter([bill], p));
  }

  /** Removing the element at position k takes exactly its amount off the total. */
  lemma TotalWithout(s: seq<Bill>, k: nat)
    requires k < |s|
    ensures Total(s) == s[k].amount + Total(s[..k] + s[k + 1..])
  {
    assert s == s[..k] + ([s[k]] + s[k + 1..]);
    TotalAppend(s[..k], [s[k]] + s[k + 1..]);
    TotalAppend([s[k]], s[k + 1..]);
    TotalAppend(s[..k], s[k + 1..]);
    assert Total([s[k]]) == s[k].amount;
  }

  /** Taking out the element at position k takes one copy of it out of the multiset. */
  lemma MultisetWithout(s: seq<Bill>, k: nat)
    requires k < |s|
    ensures multiset(s[..k] + s[k + 1..]) == multiset(s) - multiset{s[k]}
  {
    assert s == s[..k] + [s[k]] + s[k + 1..];
  }

  /** The grand total does not depend on the order of the bills. */
  lemma {:induction false} TotalIsOrderIndependent(a: seq<Bill>, b: seq<Bill>)
    requires multiset(a) == multiset(b)
    ensures Total(a) == Total(b)
    decreases |a|
  {
    if a == [] {
      assert |b| == |multiset(b)| == 0;
    } else {
      var k := PositionOf(b, a[0]);
      var rest := b[..k] + b[k + 1..];
      RestOfSameMultiset(a, b, k);
      TotalIsOrderIndependent(a[1..], rest);
      TotalWithout(b, k);
    }
  }

  /** A position at which `x` occurs in `s`. */
  lemma PositionOf(s: seq<Bill>, x: Bill) returns (k: nat)
    requires x in multiset(s)
    ensures k < |s| && s[k] == x
  {
    k :| 0 <= k < |s| && s[k] == x;
  }

  /** Taking the first of `a` and one copy of it out of `b` keeps the multisets equal. */
  lemma RestOfSameMultiset(a: seq<Bill>, b: seq<Bill>, k: nat)
    requires multiset(a) == multiset(b) && a != []
    requires k < |b| && b[k] == a[0]
    ensures multiset(a[1..]) == multiset(b[..k] + b[k + 1..])
  {
    assert a == [a[0]] + a[1..];
    assert multiset(a[1..]) == multiset(a) - multiset{a[0]};
    MultisetWithout(b, k);
  }

  /**
   * When `q` selects exactly the bills `p` does not, the two totals add up
   * to the whole.
   */
  lemma {:induction false} TotalSplits(bills: seq<Bill>, p: Bill -> bool, q: Bill -> bool)
    requires forall b :: q(b) <==> !p(b)
    ensures Total(bills) == Total(Filter(bills, p)) + Total(Filter(bills, q))
  {
    if bills != [] {
      TotalSplits(bills[1..], p, q);
      TotalAppend(if p(bills[0]) then [bills[0]] else [], Filter(bills[1..], p));
      TotalAppend(if q(bills[0]) then [bills[0]] else [], Filter(bills[1..], q));
    }
  }

  /** `x` counted once for every occurrence of `k` in `keys`. */
  function Share<K(==)>(keys: seq<K>, k: K, x: real): real {
    if keys == [] then 0.0 else (if keys[0] == k then x else 0.0) + Share(keys[1..], k, x)
  }

  /** With distinct keys, `x` is counted once when `k` is among them and not at all otherwise. */
  lemma {:induction false} ShareOfUniqueKey<K>(keys: seq<K>, k: K, x: real)
    requires Distinct(keys)
    ensures Share(keys, k, x) == if k in keys then x else 0.0
  {
    if keys != [] {
      assert Distinct(keys[1..]) by {
        forall i, j | 0 <= i < j < |keys[1..]|
          ensures keys[1..][i] != keys[1..][j]
        {
          assert keys[1..][i] == keys[i + 1] && keys[1..][j] == keys[j + 1];
        }
      }
      ShareOfUniqueKey(keys[1..], k, x);
      if keys[0] == k {
        assert forall j :: 0 <= j < |keys[1..]| ==> keys[1..][j] != k by {
          forall j | 0 <= j < |keys[1..]|
            ensures keys[1..][j] != k
          {
            assert keys[1..][j] == keys[j + 1];
          }
        }
      }
    }
  }

  /** Peeling the first bill off the keyed totals gives that bill's share. */
  lemma {:induction false} KeyedTotalsFirst<K>(bills: seq<Bill>, key: Bill -> K, keys: seq<K>)
    requires bills != []
    ensures KeyedTotals(bills, key, keys)
         == Share(keys, key(bills[0]), bills[0].amount) + KeyedTotals(bills[1..], key, keys)
  {
    if keys != [] {
      KeyedTotalsFirst(bills, key, keys[1..]);
      var p := KeyIs(key, keys[0]);
      TotalAppend(if p(bills[0]) then [bills[0]] else [], Filter(bills[1..], p));
    }
  }

  /** An empty ledger has a zero total for every key. */
  lemma {:induction false} KeyedTotalsOfNothing<K>(key: Bill -> K, keys: seq<K>)
    ensures KeyedTotals([], key, keys) == 0.0
  {
    if keys != [] {
      KeyedTotalsOfNothing(key, keys[1..]);
    }
  }

  /**
   * When the keys are distinct and every bill's key is among them, the
   * per-key totals add up to the grand total: the groups partition the ledger.
   */
  lemma {:induction false} KeyedTotalsPartition<K>(bills: seq<Bill>, key: Bill -> K, keys: seq<K>)
    requires Distinct(keys)
    requires forall i :: 0 <= i < |bills| ==> key(bills[i]) in keys
    ensures KeyedTotals(bills, key, keys) == Total(bills)
  {
    if bills == [] {
      KeyedTotalsOfNothing(key, keys);
    } else {
      KeyedTotalsFirst(bills, key, keys);
      ShareOfUniqueKey(keys, key(bills[0]), bills[0].amount);
      KeyedTotalsPartition(bills[1..], key, keys);
    }
  }

  /** No user id and no category id occurs twice in its roster. */
  lemma RosterIdsAreDistinct()
    ensures Distinct(UserIds) && Distinct(CategoryIds)
  {
  }

  /** The three user cards add up to the grand total when every bill belongs to a rostered user. */
  lemma UserTotalsSumToGrandTotal(bills: seq<Bill>)
    requires forall b :: b in bills ==> b.userId in UserIds
    ensures KeyedTotals(bills, UserKey, UserIds) == Total(bills)
  {
    RosterIdsAreDistinct();
    KeyedTotalsPartition(bills, UserKey, UserIds);
  }

  /** The five category cells add up to the grand total when every bill has a listed category. */
  lemma CategoryTotalsSumToGrandTotal(bills: seq<Bill>)
    requires forall b :: b in bills ==> b.category in CategoryIds
    ensures KeyedTotals(bills, CategoryKey, CategoryIds) == Total(bills)
  {
    RosterIdsAreDistinct();
    KeyedTotalsPartition(bills, CategoryKey, CategoryIds);
  }
}
