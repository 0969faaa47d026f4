/** The state holder behind the transaction screens: it caches the latest snapshots of
    the user's transactions (newest first) and categories, tracks loading and the last
    error, and forwards add, update and delete to the repository. Snapshot listener
    callbacks are methods that the store calls; remote failures are passed in. */
module TransactionVM {
  import opened Wrappers
  import opened Model
  import opened Ordering
  import opened TransactionRepo

  /** `TransactionUiState`. */
  datatype TransactionUiState = TransactionUiState(
    transactions: seq<Transaction>,
    categories: seq<Category>,
    isLoading: bool,
    error: Option<string>)

  /** `TransactionUiState()`: empty lists, not loading, no error. */
  const InitialTransactionState: TransactionUiState := TransactionUiState([], [], false, None)

  const AddFailedMessage: string := "Failed to add transaction"
  const UpdateFailedMessage: string := "Failed to update transaction"
  const DeleteFailedMessage: string := "Failed to delete transaction"

  /** The error a failed mutation leaves: the exception's message, or the default text. */
  function FailureText(outcome: Outcome, default: string): Option<string>
    requires outcome.Failed?
  {
    Some(outcome.message.GetOr(default))
  }

  class TransactionViewModel {
    var uiState: TransactionUiState
    /** Whether the snapshot listeners were registered (a user was signed in). */
    var listening: bool
    /** The last transactions snapshot delivered, in the store's order. */
    ghost var lastSnapshot: seq<Transaction>
    const repository: TransactionRepository

    /** The cached transactions are always the last snapshot, newest first, with
        same-dated transactions in the snapshot's order. */
    ghost predicate Valid()
      reads this, repository
    {
      && repository.Valid()
      && NewestFirstOrder(uiState.transactions)
      && multiset(uiState.transactions) == multiset(lastSnapshot)
      && SameOrderOnEachDate(uiState.transactions, lastSnapshot)
    }

    /** `init`: the listeners start only when a user is signed in; otherwise the state
        stays at its defaults. */
    constructor (repository: TransactionRepository, currentUser: Option<string>)
      requires repository.Valid()
      ensures Valid() && this.repository == repository
      ensures uiState == if currentUser.Some? then InitialTransactionState.(isLoading := true)
                         else InitialTransactionState
      ensures listening <==> currentUser.Some?
    {
      this.repository := repository;
      uiState := InitialTransactionState;
      listening := false;
      lastSnapshot := [];
      new;
      if currentUser.Some? {
        LoadTransactions(currentUser.value);
        LoadCategories(currentUser.value);
      }
    }

    /** `loadTransactions`: loading starts before any snapshot arrives. */
    method LoadTransactions(userId: string)
      requires Valid()
      modifies this`uiState, this`listening
      ensures Valid()
      ensures uiState == old(uiState).(isLoading := true)
      ensures listening
    {
      uiState := uiState.(isLoading := true);
      listening := true;
    }

    /** `loadCategories`: registers the listener and changes no state. */
    method LoadCategories(userId: string)
      modifies this`listening
      ensures listening
    {
      listening := true;
    }

    /** A transactions snapshot replaces the cached list with its newest-first order and
        ends loading; a missing snapshot counts as the empty list. */
    method OnTransactionsSnapshot(snapshot: Option<seq<Transaction>>)
      requires Valid() && listening
      modifies this`uiState, this`lastSnapshot
      ensures Valid()
      ensures uiState == old(uiState).(transactions := NewestFirst(snapshot.GetOr([])), isLoading := false)
      ensures lastSnapshot == snapshot.GetOr([])
    {
      var transactions := snapshot.GetOr([]);
      uiState := uiState.(transactions := NewestFirst(transactions), isLoading := false);
      lastSnapshot := transactions;
    }

    /** A transactions listener error records the error's message (which may be null)
        and ends loading, keeping the cached lists. */
    method OnTransactionsError(message: Option<string>)
      requires Valid() && listening
      modifies this`uiState
      ensures Valid()
      ensures uiState == old(uiState).(error := message, isLoading := false)
    {
      uiState := uiState.(error := message, isLoading := false);
    }

    /** A categories snapshot replaces only the cached categories. */
    method OnCategoriesSnapshot(snapshot: Option<seq<Category>>)
      requires Valid() && listening
      modifies this`uiState
      ensures Valid()
      ensures uiState == old(uiState).(categories := snapshot.GetOr([]))
    {
      uiState := uiState.(categories := snapshot.GetOr([]));
    }

    /** A categories listener error records only the error. */
    method OnCategoriesError(message: Option<string>)
      requires Valid() && listening
      modifies this`uiState
      ensures Valid()
      ensures uiState == old(uiState).(error := message)
    {
      uiState := uiState.(error := message);
    }

    /** `addTransaction`: stores the record; a failure only sets the error. */
    method AddTransaction(transaction: Transaction, fault: Option<Fault>)
      requires Valid()
      modifies this`uiState, repository
      ensures Valid()
      ensures repository.docs == if fault.None? then Put(old(repository.docs), transaction)
                                 else old(repository.docs)
      ensures uiState == if fault.None? then old(uiState)
                         else old(uiState).(error := Some(fault.value.message.GetOr(AddFailedMessage)))
    {
      var outcome := repository.AddTransaction(transaction, fault);
      if outcome.Failed? {
        uiState := uiState.(error := FailureText(outcome, AddFailedMessage));
      }
    }

    /** `updateTransaction`: stores the record; a failure only sets the error. */
    method UpdateTransaction(transaction: Transaction, fault: Option<Fault>)
      requires Valid()
      modifies this`uiState, repository
      ensures Valid()
      ensures repository.docs == if fault.None? then Put(old(repository.docs), transaction)
                                 else old(repository.docs)
      ensures uiState == if fault.None? then old(uiState)
                         else old(uiState).(error := Some(fault.value.message.GetOr(UpdateFailedMessage)))
    {
      var outcome := repository.UpdateTransaction(transaction, fault);
      if outcome.Failed? {
        uiState := uiState.(error := FailureText(outcome, UpdateFailedMessage));
      }
    }

    /** `deleteTransaction`: removes the document; a failure only sets the error. */
    method DeleteTransaction(transactionId: string, fault: Option<Fault>)
      requires Valid()
      modifies this`uiState, repository
      ensures Valid()
      ensures repository.docs == if fault.None? then old(repository.docs) - {transactionId}
                                 else old(repository.docs)
      ensures uiState == if fault.None? then old(uiState)
                         else old(uiState).(error := Some(fault.value.message.GetOr(DeleteFailedMessage)))
    {
      var outcome := repository.DeleteTransaction(transactionId, fault);
      if outcome.Failed? {
        uiState := uiState.(error := FailureText(outcome, DeleteFailedMessage));
      }
    }
  }
}
