/** The `transactions` collection of the remote document store, held as a map from
    document id to record. Every write either commits completely or throws (a batch is
    atomic), and whether the remote call throws is passed in as `fault`. */
module TransactionRepo {
  import opened Wrappers
  import opened Model

  /** Every document is stored under the id it carries, because every write is keyed by
      `transaction.id`. */
  ghost predicate KeyedById(docs: map<string, Transaction>) {
    forall k :: k in docs ==> docs[k].id == k
  }

  /** Every listed id names a stored document. */
  predicate AllStored(docs: map<string, Transaction>, ids: seq<string>) {
    forall i :: 0 <= i < |ids| ==> ids[i] in docs
  }

  /** `document(t.id).set(t)`: the whole record is written at its id, replacing any
      document already there. */
  function Put(docs: map<string, Transaction>, t: Transaction): (r: map<string, Transaction>)
    ensures r.Keys == docs.Keys + {t.id} && r[t.id] == t
    ensures forall k :: k in docs && k != t.id ==> r[k] == docs[k]
  {
    docs[t.id := t]
  }

  /** The documents left after deleting every listed id (a missing id is a no-op). */
  function WithoutIds(docs: map<string, Transaction>, ids: seq<string>): (r: map<string, Transaction>)
    ensures forall k :: k in r <==> k in docs && k !in ids
    ensures forall k :: k in r ==> r[k] == docs[k]
  {
    map k | k in docs && k !in ids :: docs[k]
  }

  /** The documents after setting the `categoryId` field of every listed document. */
  function WithCategory(docs: map<string, Transaction>, ids: seq<string>, categoryId: string)
    : (r: map<string, Transaction>)
    ensures r.Keys == docs.Keys
    ensures forall k :: k in r && k in ids ==> r[k] == docs[k].(categoryId := categoryId)
    ensures forall k :: k in r && k !in ids ==> r[k] == docs[k]
  {
    map k | k in docs :: if k in ids then docs[k].(categoryId := categoryId) else docs[k]
  }

  /** The error text of a batch whose `update` names a document that does not exist; the
      store's exact wording is not part of this model. */
  const NotFoundMessage: string := "NOT_FOUND: No document to update"

  /** A batch of field updates commits only if the call does not throw and every
      document it updates exists; otherwise the whole batch fails. */
  function UpdateBatchOutcome(docs: map<string, Transaction>, ids: seq<string>, fault: Option<Fault>)
    : (r: Outcome)
    ensures r.Done? <==> fault.None? && AllStored(docs, ids)
  {
    if fault.Some? then Failed(fault.value.message)
    else if !AllStored(docs, ids) then Failed(Some(NotFoundMessage))
    else Done
  }

  /** An upsert stores `t` at its id and leaves every other document as it was. */
  lemma PutIsUpsert(docs: map<string, Transaction>, t: Transaction)
    requires KeyedById(docs)
    ensures KeyedById(Put(docs, t))
    ensures Put(docs, t).Keys == docs.Keys + {t.id} && Put(docs, t)[t.id] == t
    ensures forall k :: k in docs && k != t.id ==> Put(docs, t)[k] == docs[k]
  {
  }

  /** Deleting a batch removes exactly the listed ids and changes no other document. */
  lemma WithoutIdsRemovesExactly(docs: map<string, Transaction>, ids: seq<string>)
    requires KeyedById(docs)
    ensures KeyedById(WithoutIds(docs, ids))
    ensures WithoutIds(docs, ids).Keys == docs.Keys - set i | i in ids
    ensures forall k :: k in WithoutIds(docs, ids) ==> WithoutIds(docs, ids)[k] == docs[k]
  {
  }

  /** Reassigning a batch changes only the `categoryId` of the listed documents. */
  lemma WithCategoryChangesOnlyCategory(docs: map<string, Transaction>, ids: seq<string>, c: string)
    requires KeyedById(docs)
    ensures KeyedById(WithCategory(docs, ids, c))
    ensures WithCategory(docs, ids, c).Keys == docs.Keys
    ensures forall k :: k in docs && k in ids ==> WithCategory(docs, ids, c)[k] == docs[k].(categoryId := c)
    ensures forall k :: k in docs && k !in ids ==> WithCategory(docs, ids, c)[k] == docs[k]
  {
  }

  /** Dates never decrease from left to right (`orderBy("date")`). */
  predicate OldestFirstOrder(s: seq<Transaction>) {
    forall i, j :: 0 <= i < j < |s| ==> s[i].date <= s[j].date
  }

  /** No document appears twice. */
  predicate DistinctIds(s: seq<Transaction>) {
    forall i, j :: 0 <= i < j < |s| ==> s[i].id != s[j].id
  }

  /** The query's filter: `whereEqualTo("userId", userId)` and, when a category is given,
      `whereEqualTo("categoryId", categoryId)`. */
  predicate Matches(t: Transaction, userId: string, categoryId: Option<string>) {
    t.userId == userId && (categoryId.Some? ==> t.categoryId == categoryId.value)
  }

  /** Put `x` after every transaction of `s` dated before it. */
  function InsertOldestFirst(x: Transaction, s: seq<Transaction>): (r: seq<Transaction>)
    ensures |r| == |s| + 1
  {
    if s == [] || x.date <= s[0].date then [x] + s
    else [s[0]] + InsertOldestFirst(x, s[1..])
  }

  lemma {:induction false} InsertOldestFirstMembers(x: Transaction, s: seq<Transaction>)
    ensures forall u :: u in InsertOldestFirst(x, s) <==> u == x || u in s
  {
    if s != [] && x.date > s[0].date {
      InsertOldestFirstMembers(x, s[1..]);
      assert s == [s[0]] + s[1..];
    }
  }

  lemma {:induction false} InsertOldestFirstOrdered(x: Transaction, s: seq<Transaction>)
    requires OldestFirstOrder(s)
    ensures OldestFirstOrder(InsertOldestFirst(x, s))
  {
    if s != [] && x.date > s[0].date {
      var tail := s[1..];
      var rest := InsertOldestFirst(x, tail);
      InsertOldestFirstOrdered(x, tail);
      InsertOldestFirstMembers(x, tail);
      forall j | 0 <= j < |rest| ensures s[0].date <= rest[j].date {
        assert rest[j] in rest;
        if rest[j] != x {
          var m :| 0 <= m < |tail| && tail[m] == rest[j];
          assert s[m + 1] == rest[j];
        }
      }
    }
  }

  lemma {:induction false} InsertOldestFirstDistinct(x: Transaction, s: seq<Transaction>)
    requires DistinctIds(s)
    requires forall j :: 0 <= j < |s| ==> s[j].id != x.id
    ensures DistinctIds(InsertOldestFirst(x, s))
  {
    if s != [] && x.date > s[0].date {
      var tail := s[1..];
      var rest := InsertOldestFirst(x, tail);
      InsertOldestFirstDistinct(x, tail);
      InsertOldestFirstMembers(x, tail);
      forall j | 0 <= j < |rest| ensures s[0].id != rest[j].id {
        assert rest[j] in rest;
        if rest[j] != x {
          var m :| 0 <= m < |tail| && tail[m] == rest[j];
          assert s[m + 1] == rest[j];
        }
      }
    }
  }

  /** The documents of the collection, as a store that is changed in place. */
  class TransactionRepository {
    var docs: map<string, Transaction>

    ghost predicate Valid()
      reads this
    {
      KeyedById(docs)
    }

    constructor (initial: map<string, Transaction>)
      requires KeyedById(initial)
      ensures Valid() && docs == initial
    {
      docs := initial;
    }

    /** `addTransaction`: the whole record is written at `transaction.id`. */
    method AddTransaction(transaction: Transaction, fault: Option<Fault>) returns (outcome: Outcome)
      requires Valid()
      modifies this
      ensures Valid()
      ensures outcome == CommitOutcome(fault)
      ensures docs == if fault.None? then Put(old(docs), transaction) else old(docs)
    {
      outcome := CommitOutcome(fault);
      if outcome.Done? {
        docs := docs[transaction.id := transaction];
      }
    }

    /** `updateTransaction`: the same write as `addTransaction`, so an upsert too. */
    method UpdateTransaction(transaction: Transaction, fault: Option<Fault>) returns (outcome: Outcome)
      requires Valid()
      modifies this
      ensures Valid()
      ensures outcome == CommitOutcome(fault)
      ensures docs == if fault.None? then Put(old(docs), transaction) else old(docs)
    {
      outcome := CommitOutcome(fault);
      if outcome.Done? {
        docs := docs[transaction.id := transaction];
      }
    }

    /** `deleteTransaction`: removes the one document (deleting a missing one succeeds). */
    method DeleteTransaction(transactionId: string, fault: Option<Fault>) returns (outcome: Outcome)
      requires Valid()
      modifies this
      ensures Valid()
      ensures outcome == CommitOutcome(fault)
      ensures docs == if fault.None? then old(docs) - {transactionId} else old(docs)
    {
      outcome := CommitOutcome(fault);
      if outcome.Done? {
        docs := docs - {transactionId};
      }
    }

    /** `updateCategoryForTransactions`: one `update` of the `categoryId` field per id is
        added to a batch, and the batch is committed as a unit. */
    method UpdateCategoryForTransactions(transactionIds: seq<string>, newCategoryId: string, fault: Option<Fault>)
      returns (outcome: Outcome)
      requires Valid()
      modifies this
      ensures Valid()
      ensures outcome == UpdateBatchOutcome(old(docs), transactionIds, fault)
      ensures docs == if outcome.Done? then WithCategory(old(docs), transactionIds, newCategoryId) else old(docs)
    {
      var staged := docs;
      var missing := false;
      var i := 0;
      while i < |transactionIds|
        invariant 0 <= i <= |transactionIds|
        invariant staged == WithCategory(docs, transactionIds[..i], newCategoryId)
        invariant missing <==> !AllStored(docs, transactionIds[..i])
      {
        var id := transactionIds[i];
        if id in staged {
          staged := staged[id := staged[id].(categoryId := newCategoryId)];
        } else {
          missing := true;
        }
        assert transactionIds[..i + 1] == transactionIds[..i] + [id];
        i := i + 1;
      }
      assert transactionIds[..i] == transactionIds;
      if fault.Some? {
        outcome := Failed(fault.value.message);
      } else if missing {
        outcome := Failed(Some(NotFoundMessage));
      } else {
        WithCategoryChangesOnlyCategory(docs, transactionIds, newCategoryId);
        docs := staged;
        outcome := Done;
      }
    }

    /** `deleteTransactions`: one `delete` per id is added to a batch, and the batch is
        committed as a unit. */
    method DeleteTransactions(transactionIds: seq<string>, fault: Option<Fault>) returns (outcome: Outcome)
      requires Valid()
      modifies this
      ensures Valid()
      ensures outcome == CommitOutcome(fault)
      ensures docs == if outcome.Done? then WithoutIds(old(docs), transactionIds) else old(docs)
    {
      var staged := docs;
      var i := 0;
      while i < |transactionIds|
        invariant 0 <= i <= |transactionIds|
        invariant staged == WithoutIds(docs, transactionIds[..i])
      {
        staged := staged - {transactionIds[i]};
        assert transactionIds[..i + 1] == transactionIds[..i] + [transactionIds[i]];
        i := i + 1;
      }
      assert transactionIds[..i] == transactionIds;
      outcome := CommitOutcome(fault);
      if outcome.Done? {
        docs := staged;
      }
    }

    /** The documents the query selects, oldest first; ties in `date` come in an order
        this model leaves open. */
    method Query(userId: string, categoryId: Option<string>) returns (r: seq<Transaction>)
      requires Valid()
      ensures OldestFirstOrder(r) && DistinctIds(r)
      ensures forall t :: t in r <==> t.id in docs && docs[t.id] == t && Matches(t, userId, categoryId)
    {
      r := [];
      var pending := docs.Keys;
      while pending != {}
        invariant pending <= docs.Keys
        invariant OldestFirstOrder(r) && DistinctIds(r)
        invariant forall t :: t in r <==>
          t.id in docs && t.id !in pending && docs[t.id] == t && Matches(t, userId, categoryId)
        decreases pending
      {
        var k :| k in pending;
        var t := docs[k];
        if Matches(t, userId, categoryId) {
          InsertOldestFirstMembers(t, r);
          InsertOldestFirstOrdered(t, r);
          InsertOldestFirstDistinct(t, r);
          r := InsertOldestFirst(t, r);
        }
        pending := pending - {k};
      }
    }

    /** `getTransactions(userId)`: the user's transactions, oldest first. */
    method GetTransactions(userId: string) returns (r: seq<Transaction>)
      requires Valid()
      ensures OldestFirstOrder(r) && DistinctIds(r)
      ensures forall t :: t in r <==> t.id in docs && docs[t.id] == t && t.userId == userId
    {
      r := Query(userId, None);
    }

    /** `getTransactionsByCategory(userId, categoryId)`: additionally only that category. */
    method GetTransactionsByCategory(userId: string, categoryId: string) returns (r: seq<Transaction>)
      requires Valid()
      ensures OldestFirstOrder(r) && DistinctIds(r)
      ensures forall t :: t in r <==>
        t.id in docs && docs[t.id] == t && t.userId == userId && t.categoryId == categoryId
    {
      r := Query(userId, Some(categoryId));
    }
  }
}
