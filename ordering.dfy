/** Kotlin's `sortedByDescending { it.date }` on transactions: a stable sort that puts the
    newest transaction first and keeps the input order among transactions of equal date.
    Both the dashboard and the transaction list use it. */
module Ordering {
  import opened Model

  /** Dates never increase from left to right. */
  predicate NewestFirstOrder(s: seq<Transaction>) {
    forall i, j :: 0 <= i < j < |s| ==> s[i].date >= s[j].date
  }

  /** The transactions of `s` dated `d`, in their order in `s`. */
  function OnDate(s: seq<Transaction>, d: int): seq<Transaction> {
    if s == [] then []
    else (if s[0].date == d then [s[0]] else []) + OnDate(s[1..], d)
  }

  /** `r` keeps, for every date, the relative order that the same-dated transactions
      have in `s`: the defining property of a stable sort. */
  ghost predicate SameOrderOnEachDate(r: seq<Transaction>, s: seq<Transaction>) {
    forall d :: OnDate(r, d) == OnDate(s, d)
  }

  /** Put `x` in front of the first transaction of `s` that is not newer than it. */
  function InsertNewestFirst(x: Transaction, s: seq<Transaction>): (r: seq<Transaction>)
    ensures |r| == |s| + 1
  {
    if s == [] then [x]
    else if s[0].date <= x.date then [x] + s
    else [s[0]] + InsertNewestFirst(x, s[1..])
  }

  lemma OnDateCons(a: Transaction, t: seq<Transaction>, d: int)
    ensures OnDate([a] + t, d) == (if a.date == d then [a] else []) + OnDate(t, d)
  {
    assert ([a] + t)[1..] == t;
  }

  /** Inserting adds exactly `x`. */
  lemma {:induction false} InsertPermutes(x: Transaction, s: seq<Transaction>)
    ensures multiset(InsertNewestFirst(x, s)) == multiset(s) + multiset{x}
  {
    if s != [] && s[0].date > x.date {
      InsertPermutes(x, s[1..]);
      assert s == [s[0]] + s[1..];
    }
  }

  /** Inserting into a newest-first sequence gives a newest-first sequence. */
  lemma {:induction false} InsertKeepsOrder(x: Transaction, s: seq<Transaction>)
    requires NewestFirstOrder(s)
    ensures NewestFirstOrder(InsertNewestFirst(x, s))
  {
    if s != [] && s[0].date > x.date {
      var rest := InsertNewestFirst(x, s[1..]);
      InsertKeepsOrder(x, s[1..]);
      InsertPermutes(x, s[1..]);
      forall j | 0 <= j < |rest| ensures s[0].date >= rest[j].date {
        assert rest[j] in multiset(rest);
        if rest[j] != x {
          assert rest[j] in multiset(s[1..]);
          var k :| 0 <= k < |s[1..]| && s[1..][k] == rest[j];
          assert s[k + 1] == rest[j];
        }
      }
    }
  }

  /** Inserting `x` puts it first among the transactions of its date. */
  lemma {:induction false} InsertOnDate(x: Transaction, s: seq<Transaction>, d: int)
    ensures OnDate(InsertNewestFirst(x, s), d) == (if x.date == d then [x] else []) + OnDate(s, d)
  {
    if s == [] {
      OnDateCons(x, [], d);
    } else if s[0].date <= x.date {
      OnDateCons(x, s, d);
    } else {
      InsertOnDate(x, s[1..], d);
      OnDateCons(s[0], InsertNewestFirst(x, s[1..]), d);
      OnDateCons(s[0], s[1..], d);
      assert s == [s[0]] + s[1..];
    }
  }

  /** `transactions.sortedByDescending { it.date }`: a permutation of the input, newest
      first, with same-dated transactions in input order. */
  function NewestFirst(ts: seq<Transaction>): (r: seq<Transaction>)
    ensures |r| == |ts|
    ensures NewestFirstOrder(r)
    ensures multiset(r) == multiset(ts)
    ensures SameOrderOnEachDate(r, ts)
  {
    if ts == [] then []
    else
      var sorted := NewestFirst(ts[1..]);
      InsertKeepsOrder(ts[0], sorted);
      InsertPermutes(ts[0], sorted);
      assert ts == [ts[0]] + ts[1..];
      var r := InsertNewestFirst(ts[0], sorted);
      assert SameOrderOnEachDate(r, ts) by {
        forall d ensures OnDate(r, d) == OnDate(ts, d) {
          InsertOnDate(ts[0], sorted, d);
          OnDateCons(ts[0], ts[1..], d);
        }
      }
      r
  }

  /** The transactions of `s` dated `d` are exactly the elements of `s` with that date. */
  lemma {:induction false} OnDateMembers(s: seq<Transaction>, d: int, t: Transaction)
    ensures t in OnDate(s, d) <==> t in s && t.date == d
  {
    if s != [] {
      OnDateMembers(s[1..], d, t);
      assert s == [s[0]] + s[1..];
    }
  }

  /** In a newest-first sequence the first transaction is at least as new as every other. */
  lemma HeadIsNewest(s: seq<Transaction>, t: Transaction)
    requires NewestFirstOrder(s) && t in s
    ensures s[0].date >= t.date
  {
  }

  /** The sort is determined by its two properties: any newest-first sequence that keeps
      the input order on each date is the sorted list itself. */
  lemma {:induction false} StableSortIsUnique(r: seq<Transaction>, ts: seq<Transaction>)
    requires NewestFirstOrder(r) && SameOrderOnEachDate(r, ts)
    ensures r == NewestFirst(ts)
  {
    SameOrderUnique(r, NewestFirst(ts));
  }

  /** Two newest-first sequences that agree on every date are equal. */
  lemma {:induction false} SameOrderUnique(a: seq<Transaction>, b: seq<Transaction>)
    requires NewestFirstOrder(a) && NewestFirstOrder(b)
    requires SameOrderOnEachDate(a, b)
    ensures a == b
    decreases |a|
  {
    if a == [] || b == [] {
      var d := if a != [] then a[0].date else if b != [] then b[0].date else 0;
      assert OnDate(a, d) == OnDate(b, d);
    } else {
      var da, db := a[0].date, b[0].date;
      assert OnDate(a, da)[0] == a[0];
      OnDateMembers(b, da, a[0]);
      OnDateMembers(a, da, a[0]);
      HeadIsNewest(b, a[0]);
      OnDateMembers(a, db, b[0]);
      OnDateMembers(b, db, b[0]);
      HeadIsNewest(a, b[0]);
      assert da == db;
      assert OnDate(b, db)[0] == b[0];
      assert a[0] == b[0];
      forall d ensures OnDate(a[1..], d) == OnDate(b[1..], d) {
        var h := if a[0].date == d then [a[0]] else [];
        OnDateCons(a[0], a[1..], d);
        OnDateCons(b[0], b[1..], d);
        assert a == [a[0]] + a[1..] && b == [b[0]] + b[1..];
        assert OnDate(a, d) == OnDate(b, d);
        assert (h + OnDate(a[1..], d))[|h|..] == OnDate(a[1..], d);
        assert (h + OnDate(b[1..], d))[|h|..] == OnDate(b[1..], d);
      }
      SameOrderUnique(a[1..], b[1..]);
      assert a == [a[0]] + a[1..] && b == [b[0]] + b[1..];
    }
  }
}
