/** The dashboard: income and expense totals, the balance, and the five newest
    transactions, recomputed from every snapshot of the user's transactions and kept in
    the view model's UI state. */
module Dashboard {
  import opened Wrappers
  import opened Model
  import opened Ordering

  /** How many transactions the dashboard lists as recent (`take(5)`). */
  const RecentCount: nat := 5

  /** `filter { it.type == kind }`: the transactions of one kind, in input order. */
  function OfKind(ts: seq<Transaction>, kind: TransactionType): seq<Transaction> {
    if ts == [] then []
    else (if ts[0].kind == kind then [ts[0]] else []) + OfKind(ts[1..], kind)
  }

  /** `sumOf { it.amount }`, exact. */
  function SumOfAmounts(ts: seq<Transaction>): real {
    if ts == [] then 0.0 else ts[0].amount + SumOfAmounts(ts[1..])
  }

  /** Keeping the transactions of one kind keeps a list of only that kind whole and
      empties a list without it. */
  lemma {:induction false} OfKindOfUniform(ts: seq<Transaction>, kind: TransactionType)
    ensures (forall i :: 0 <= i < |ts| ==> ts[i].kind == kind) ==> OfKind(ts, kind) == ts
    ensures (forall i :: 0 <= i < |ts| ==> ts[i].kind != kind) ==> OfKind(ts, kind) == []
  {
    if ts != [] {
      OfKindOfUniform(ts[1..], kind);
      assert forall i :: 1 <= i < |ts| ==> ts[1..][i - 1] == ts[i];
    }
  }

  /** `filter { it.type == INCOME }.sumOf { it.amount }`: only income counts, so a list
      of income alone totals its amounts and a list of expenses alone totals nothing. */
  function TotalIncome(ts: seq<Transaction>): (r: real)
    ensures (forall i :: 0 <= i < |ts| ==> ts[i].kind == INCOME) ==> r == SumOfAmounts(ts)
    ensures (forall i :: 0 <= i < |ts| ==> ts[i].kind == EXPENSE) ==> r == 0.0
  {
    OfKindOfUniform(ts, INCOME);
    SumOfAmounts(OfKind(ts, INCOME))
  }

  /** `filter { it.type == EXPENSE }.sumOf { it.amount }`: only expenses count. */
  function TotalExpense(ts: seq<Transaction>): (r: real)
    ensures (forall i :: 0 <= i < |ts| ==> ts[i].kind == EXPENSE) ==> r == SumOfAmounts(ts)
    ensures (forall i :: 0 <= i < |ts| ==> ts[i].kind == INCOME) ==> r == 0.0
  {
    OfKindOfUniform(ts, EXPENSE);
    SumOfAmounts(OfKind(ts, EXPENSE))
  }

  /** `totalIncome - totalExpense`: income alone gives its sum, expenses alone its
      negated sum. */
  function TotalBalance(ts: seq<Transaction>): (r: real)
    ensures (forall i :: 0 <= i < |ts| ==> ts[i].kind == INCOME) ==> r == SumOfAmounts(ts)
    ensures (forall i :: 0 <= i < |ts| ==> ts[i].kind == EXPENSE) ==> r == -SumOfAmounts(ts)
  {
    TotalIncome(ts) - TotalExpense(ts)
  }

  /** `sortedByDescending { it.date }.take(5)`: the first min(5, n) transactions of the
      newest-first order. */
  function RecentTransactions(ts: seq<Transaction>): (r: seq<Transaction>)
    ensures |r| == if |ts| < RecentCount then |ts| else RecentCount
    ensures forall i :: 0 <= i < |r| ==> r[i] == NewestFirst(ts)[i]
  {
    var sorted := NewestFirst(ts);
    if |sorted| <= RecentCount then sorted else sorted[..RecentCount]
  }

  /** What one transaction adds to the balance: its amount as income, minus it as expense. */
  function SignedAmount(t: Transaction): real {
    match t.kind
    case INCOME => t.amount
    case EXPENSE => -t.amount
  }

  /** The balance computed in one pass, transaction by transaction. */
  function SignedSum(ts: seq<Transaction>): real {
    if ts == [] then 0.0 else SignedAmount(ts[0]) + SignedSum(ts[1..])
  }

  lemma OfKindCons(t: Transaction, ts: seq<Transaction>, kind: TransactionType)
    ensures OfKind([t] + ts, kind) == (if t.kind == kind then [t] else []) + OfKind(ts, kind)
  {
    assert ([t] + ts)[1..] == ts;
  }

  lemma {:induction false} SumOfConcat(a: seq<Transaction>, b: seq<Transaction>)
    ensures SumOfAmounts(a + b) == SumOfAmounts(a) + SumOfAmounts(b)
  {
    if a != [] {
      SumOfConcat(a[1..], b);
      assert (a + b)[1..] == a[1..] + b;
    } else {
      assert a + b == b;
    }
  }

  /** Since every transaction is income or expense, the two totals together are the sum
      of all amounts. */
  lemma {:induction false} IncomeAndExpenseCoverAll(ts: seq<Transaction>)
    ensures TotalIncome(ts) + TotalExpense(ts) == SumOfAmounts(ts)
  {
    if ts != [] {
      IncomeAndExpenseCoverAll(ts[1..]);
      assert ts == [ts[0]] + ts[1..];
      OfKindCons(ts[0], ts[1..], INCOME);
      OfKindCons(ts[0], ts[1..], EXPENSE);
      SumOfConcat(if ts[0].kind == INCOME then [ts[0]] else [], OfKind(ts[1..], INCOME));
      SumOfConcat(if ts[0].kind == EXPENSE then [ts[0]] else [], OfKind(ts[1..], EXPENSE));
    }
  }

  /** The balance is income minus expense, which is the sum of the signed amounts. */
  lemma {:induction false} BalanceIsSignedSum(ts: seq<Transaction>)
    ensures TotalBalance(ts) == SignedSum(ts)
  {
    if ts != [] {
      BalanceIsSignedSum(ts[1..]);
      assert ts == [ts[0]] + ts[1..];
      OfKindCons(ts[0], ts[1..], INCOME);
      OfKindCons(ts[0], ts[1..], EXPENSE);
      SumOfConcat(if ts[0].kind == INCOME then [ts[0]] else [], OfKind(ts[1..], INCOME));
      SumOfConcat(if ts[0].kind == EXPENSE then [ts[0]] else [], OfKind(ts[1..], EXPENSE));
    }
  }

  lemma {:induction false} OfKindConcat(a: seq<Transaction>, b: seq<Transaction>, kind: TransactionType)
    ensures OfKind(a + b, kind) == OfKind(a, kind) + OfKind(b, kind)
  {
    if a == [] {
      assert a + b == b;
    } else {
      OfKindConcat(a[1..], b, kind);
      assert a + b == [a[0]] + (a[1..] + b);
      OfKindCons(a[0], a[1..] + b, kind);
      OfKindCons(a[0], a[1..], kind);
      assert a == [a[0]] + a[1..];
    }
  }

  /** The totals of two lists joined are the totals of the parts added up. */
  lemma TotalsOfConcat(a: seq<Transaction>, b: seq<Transaction>)
    ensures TotalIncome(a + b) == TotalIncome(a) + TotalIncome(b)
    ensures TotalExpense(a + b) == TotalExpense(a) + TotalExpense(b)
  {
    OfKindConcat(a, b, INCOME);
    OfKindConcat(a, b, EXPENSE);
    SumOfConcat(OfKind(a, INCOME), OfKind(b, INCOME));
    SumOfConcat(OfKind(a, EXPENSE), OfKind(b, EXPENSE));
  }

  /** The amounts of one kind summed over `b`, split into the element at `i` and the rest. */
  lemma KindSumOfRemoval(b: seq<Transaction>, i: nat, kind: TransactionType)
    requires i < |b|
    ensures SumOfAmounts(OfKind(b, kind))
         == SumOfAmounts(OfKind([b[i]], kind)) + SumOfAmounts(OfKind(b[..i] + b[i + 1..], kind))
  {
    assert b == b[..i] + [b[i]] + b[i + 1..];
    OfKindConcat(b[..i] + [b[i]], b[i + 1..], kind);
    OfKindConcat(b[..i], [b[i]], kind);
    OfKindConcat(b[..i], b[i + 1..], kind);
    SumOfConcat(OfKind(b[..i] + [b[i]], kind), OfKind(b[i + 1..], kind));
    SumOfConcat(OfKind(b[..i], kind), OfKind([b[i]], kind));
    SumOfConcat(OfKind(b[..i], kind), OfKind(b[i + 1..], kind));
  }

  /** The amounts of one kind summed over `a`, split into the head and the tail. */
  lemma KindSumOfHead(a: seq<Transaction>, kind: TransactionType)
    requires a != []
    ensures SumOfAmounts(OfKind(a, kind)) == SumOfAmounts(OfKind([a[0]], kind)) + SumOfAmounts(OfKind(a[1..], kind))
  {
    assert a == [a[0]] + a[1..];
    OfKindConcat([a[0]], a[1..], kind);
    SumOfConcat(OfKind([a[0]], kind), OfKind(a[1..], kind));
  }

  /** The first element of `a` sits somewhere in a permutation `b` of `a`, and taking it
      out of both leaves permutations of each other. */
  lemma RemoveHead(a: seq<Transaction>, b: seq<Transaction>) returns (i: nat)
    requires a != [] && multiset(a) == multiset(b)
    ensures i < |b| && b[i] == a[0]
    ensures multiset(a[1..]) == multiset(b[..i] + b[i + 1..])
  {
    assert a[0] in multiset(b);
    i :| 0 <= i < |b| && b[i] == a[0];
    assert b == b[..i] + [b[i]] + b[i + 1..];
    assert a == [a[0]] + a[1..];
    assert multiset(a[1..]) == multiset(a) - multiset{a[0]};
    assert multiset(b[..i] + b[i + 1..]) == multiset(b) - multiset{b[i]};
  }

  /** The sum of one kind's amounts does not depend on the order of the list. */
  lemma {:induction false} KindSumIgnoresOrder(a: seq<Transaction>, b: seq<Transaction>, kind: TransactionType)
    requires multiset(a) == multiset(b)
    ensures SumOfAmounts(OfKind(a, kind)) == SumOfAmounts(OfKind(b, kind))
    decreases |a|
  {
    if a != [] {
      var i := RemoveHead(a, b);
      var rest := b[..i] + b[i + 1..];
      KindSumIgnoresOrder(a[1..], rest, kind);
      KindSumOfRemoval(b, i, kind);
      KindSumOfHead(a, kind);
      assert [a[0]] == [b[i]];
    } else {
      assert b == [];
    }
  }

  /** The totals do not depend on the order in which the snapshot lists the transactions. */
  lemma TotalsIgnoreOrder(a: seq<Transaction>, b: seq<Transaction>)
    requires multiset(a) == multiset(b)
    ensures TotalIncome(a) == TotalIncome(b) && TotalExpense(a) == TotalExpense(b)
  {
    KindSumIgnoresOrder(a, b, INCOME);
    KindSumIgnoresOrder(a, b, EXPENSE);
  }

  /** A default transaction (an expense of amount 0) changes no total. */
  lemma DefaultTransactionChangesNoTotal(ts: seq<Transaction>, id: string, now: int)
    ensures TotalIncome(ts + [NewTransaction(id, now)]) == TotalIncome(ts)
    ensures TotalExpense(ts + [NewTransaction(id, now)]) == TotalExpense(ts)
  {
    var t := NewTransaction(id, now);
    TotalsOfConcat(ts, [t]);
    assert [t] == [t] + [];
    OfKindCons(t, [], INCOME);
    OfKindCons(t, [], EXPENSE);
    assert OfKind([t], EXPENSE) == [t];
    assert [t][1..] == [];
  }

  lemma {:induction false} OnDateOfPrefix(s: seq<Transaction>, n: nat, d: int)
    requires n <= |s|
    ensures OnDate(s[..n], d) <= OnDate(s, d)
  {
    if n > 0 {
      OnDateOfPrefix(s[1..], n - 1, d);
      OnDateCons(s[0], s[1..][..n - 1], d);
      OnDateCons(s[0], s[1..], d);
      assert s[..n] == [s[0]] + s[1..][..n - 1];
      assert s == [s[0]] + s[1..];
    }
  }

  /** The recent list holds min(5, |ts|) transactions of the input, newest first. */
  lemma RecentTransactionsShape(ts: seq<Transaction>)
    ensures var r := RecentTransactions(ts);
      && |r| == (if |ts| < RecentCount then |ts| else RecentCount)
      && NewestFirstOrder(r)
      && multiset(r) <= multiset(ts)
  {
    var s := NewestFirst(ts);
    var r := RecentTransactions(ts);
    assert s == r + s[|r|..];
    assert multiset(s) == multiset(r) + multiset(s[|r|..]);
  }

  /** Among transactions of one date the recent list keeps the first ones of the input,
      in input order (the sort is stable). */
  lemma RecentTransactionsStable(ts: seq<Transaction>, d: int)
    ensures OnDate(RecentTransactions(ts), d) <= OnDate(ts, d)
  {
    var s := NewestFirst(ts);
    OnDateOfPrefix(s, |RecentTransactions(ts)|, d);
    assert s[..|s|] == s;
  }

  /** No transaction left out of the recent list is newer than one in it. */
  lemma RecentTransactionsNewest(ts: seq<Transaction>, t: Transaction, u: Transaction)
    requires t in multiset(ts) - multiset(RecentTransactions(ts))
    requires u in RecentTransactions(ts)
    ensures t.date <= u.date
  {
    var s := NewestFirst(ts);
    var r := RecentTransactions(ts);
    var n := |r|;
    assert s == r + s[n..];
    assert multiset(s) == multiset(r) + multiset(s[n..]);
    assert t in multiset(s[n..]);
    var i :| 0 <= i < |s[n..]| && s[n..][i] == t;
    var j :| 0 <= j < |r| && r[j] == u;
    assert s[n + i] == t && s[j] == u;
  }

  /** No transactions: zero totals and nothing recent. */
  lemma EmptyDashboard()
    ensures TotalIncome([]) == 0.0 && TotalExpense([]) == 0.0 && TotalBalance([]) == 0.0
    ensures RecentTransactions([]) == []
  {
  }

  /** Income 100, expenses 40 and 10: income 100, expense 50, balance 50. */
  lemma DashboardExample(a: Transaction, b: Transaction, c: Transaction)
    requires a.kind == INCOME && a.amount == 100.0
    requires b.kind == EXPENSE && b.amount == 40.0
    requires c.kind == EXPENSE && c.amount == 10.0
    ensures TotalIncome([a, b, c]) == 100.0
    ensures TotalExpense([a, b, c]) == 50.0
    ensures TotalBalance([a, b, c]) == 50.0
  {
    assert [a, b, c] == [a] + ([b] + [c]);
    OfKindCons(a, [b] + [c], INCOME);
    OfKindCons(b, [c], INCOME);
    OfKindCons(c, [], INCOME);
    OfKindCons(a, [b] + [c], EXPENSE);
    OfKindCons(b, [c], EXPENSE);
    OfKindCons(c, [], EXPENSE);
    assert OfKind([a, b, c], INCOME) == [a];
    assert OfKind([a, b, c], EXPENSE) == [b, c];
    assert [a][1..] == [] && [b, c][1..] == [c] && [c][1..] == [];
    assert SumOfAmounts([c]) == 10.0;
    assert SumOfAmounts([b, c]) == 50.0;
    assert SumOfAmounts([a]) == 100.0;
  }

  /** `DashboardUiState`; the totals are exact. */
  datatype DashboardUiState = DashboardUiState(
    username: string,
    totalBalance: real,
    totalIncome: real,
    totalExpense: real,
    recentTransactions: seq<Transaction>,
    isLoading: bool)

  /** `DashboardUiState()`: named "User", zero totals, nothing recent, loading. */
  const InitialDashboardState: DashboardUiState :=
    DashboardUiState("User", 0.0, 0.0, 0.0, [], true)

  /** The dashboard's state holder. `listening` records whether a snapshot listener on the
      user's transactions was registered; callbacks arrive only while it is. */
  class DashboardViewModel {
    var uiState: DashboardUiState
    var listening: bool

    /** `init { loadDashboardData() }` for the user signed in at that moment, if any. */
    constructor (currentUser: Option<string>)
      ensures uiState == InitialDashboardState
      ensures listening <==> currentUser.Some?
    {
      uiState := InitialDashboardState;
      listening := false;
      new;
      LoadDashboardData(currentUser);
    }

    /** Marks the state loading; with nobody signed in it stops there, otherwise it starts
        listening for the user document and the user's transactions. */
    method LoadDashboardData(currentUser: Option<string>)
      modifies this
      ensures uiState == old(uiState).(isLoading := true)
      ensures listening == (old(listening) || currentUser.Some?)
    {
      uiState := uiState.(isLoading := true);
      if currentUser.None? {
        return;
      }
      listening := true;
    }

    /** The user document arrived: show its `name`, or "User" when it has none. */
    method OnUserDocument(name: Option<string>)
      requires listening
      modifies this`uiState
      ensures uiState == old(uiState).(username := name.GetOr("User"))
    {
      uiState := uiState.(username := name.GetOr("User"));
    }

    /** A snapshot of the user's transactions arrived. Listener errors are ignored: a
        missing snapshot is processed as the empty list. */
    method OnTransactionsSnapshot(snapshot: Option<seq<Transaction>>)
      requires listening
      modifies this`uiState
      ensures uiState == old(uiState).(
        totalBalance := TotalBalance(snapshot.GetOr([])),
        totalIncome := TotalIncome(snapshot.GetOr([])),
        totalExpense := TotalExpense(snapshot.GetOr([])),
        recentTransactions := RecentTransactions(snapshot.GetOr([])),
        isLoading := false)
    {
      ProcessDashboardData(snapshot.GetOr([]));
    }

    /** Replaces the totals and the recent list by those of `ts` and ends loading; the
        user name is kept. */
    method ProcessDashboardData(ts: seq<Transaction>)
      modifies this`uiState
      ensures uiState == old(uiState).(
        totalBalance := TotalBalance(ts),
        totalIncome := TotalIncome(ts),
        totalExpense := TotalExpense(ts),
        recentTransactions := RecentTransactions(ts),
        isLoading := false)
      ensures uiState.totalBalance == uiState.totalIncome - uiState.totalExpense
    {
      var totalIncome := TotalIncome(ts);
      var totalExpense := TotalExpense(ts);
      var totalBalance := totalIncome - totalExpense;
      var recent := RecentTransactions(ts);
      uiState := uiState.(
        totalBalance := totalBalance,
        totalIncome := totalIncome,
        totalExpense := totalExpense,
        recentTransactions := recent,
        isLoading := false);
    }
  }
}
