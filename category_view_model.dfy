/** The state holder behind category management: it caches the user's categories,
    validates and forwards add, update and delete, and runs the cascade that first deals
    with a deleted category's transactions and then deletes the category. Remote
    failures are passed in as faults; the signed-in user is passed in as an option. */
module CategoryVM {
  import opened Wrappers
  import opened Text
  import opened Model
  import opened TransactionRepo
  import opened CategoryRepo

  /** `CategoryUiState`. */
  datatype CategoryUiState = CategoryUiState(
    categories: seq<Category>,
    isLoading: bool,
    error: Option<string>)

  /** `CategoryUiState()`: no categories, not loading, no error. */
  const InitialCategoryState: CategoryUiState := CategoryUiState([], false, None)

  /** What happens to the transactions of a category that is being deleted. */
  datatype CascadeAction = DELETE_TRANSACTIONS | REASSIGN_TRANSACTIONS

  const NotLoggedInMessage: string := "User not logged in."
  const AddRejectedMessage: string := "User not logged in or category name is empty."
  const UpdateRejectedMessage: string := "Category name cannot be empty."
  const AddFailedMessage: string := "Failed to add category"
  const UpdateFailedMessage: string := "Failed to update category"
  const DeleteFailedMessage: string := "Failed to delete category"
  const CascadeFailedMessage: string := "Failed during cascade delete operation"

  /** The bulk store call a cascade issues before deleting the category. */
  datatype BulkStep = NoBulkStep | BatchDelete | BatchReassign(target: string)

  /** No batch is issued for an empty id list, nor for a reassignment without a target;
      a target equal to the deleted category is not rejected. */
  function BulkStepFor(ids: seq<string>, action: CascadeAction, newCategoryId: Option<string>): (r: BulkStep)
    ensures r.NoBulkStep? <==> ids == [] || (action == REASSIGN_TRANSACTIONS && newCategoryId.None?)
    ensures r.BatchDelete? <==> action == DELETE_TRANSACTIONS && ids != []
    ensures r.BatchReassign? ==> action == REASSIGN_TRANSACTIONS && r.target == newCategoryId.value
  {
    match action
    case DELETE_TRANSACTIONS => if ids != [] then BatchDelete else NoBulkStep
    case REASSIGN_TRANSACTIONS =>
      if newCategoryId.Some? && ids != [] then BatchReassign(newCategoryId.value) else NoBulkStep
  }

  /** How the bulk step ends: a skipped step cannot fail. */
  function BulkOutcome(docs: map<string, Transaction>, step: BulkStep, ids: seq<string>, fault: Option<Fault>)
    : Outcome
  {
    match step
    case NoBulkStep => Done
    case BatchDelete => CommitOutcome(fault)
    case BatchReassign(target) => UpdateBatchOutcome(docs, ids, fault)
  }

  /** The transactions after a bulk step that committed. */
  function BulkEffect(docs: map<string, Transaction>, step: BulkStep, ids: seq<string>): map<string, Transaction> {
    match step
    case NoBulkStep => docs
    case BatchDelete => WithoutIds(docs, ids)
    case BatchReassign(target) => WithCategory(docs, ids, target)
  }

  /** The two collections and the error after a cascade. */
  datatype CascadeResult = CascadeResult(
    docs: map<string, Transaction>,
    cats: map<string, Category>,
    error: Option<string>)

  /** `handleCascadeAction` over the store: the bulk step, then, only if it did not
      throw, the category delete, whose own failure is reported with its own text. */
  function Cascade(docs: map<string, Transaction>, cats: map<string, Category>, error: Option<string>,
                   categoryId: string, ids: seq<string>, action: CascadeAction,
                   newCategoryId: Option<string>, bulkFault: Option<Fault>, deleteFault: Option<Fault>)
    : (r: CascadeResult)
    ensures r.cats == cats || r.cats == cats - {categoryId}
    ensures deleteFault.Some? ==> r.cats == cats
    ensures r.cats != cats ==> r.docs == BulkEffect(docs, BulkStepFor(ids, action, newCategoryId), ids)
    ensures r.docs == docs || r.docs == BulkEffect(docs, BulkStepFor(ids, action, newCategoryId), ids)
    ensures r.cats != cats ==> r.error == error
    ensures r.error != error ==> r.error.Some?
  {
    var step := BulkStepFor(ids, action, newCategoryId);
    var bulk := BulkOutcome(docs, step, ids, bulkFault);
    if bulk.Failed? then
      CascadeResult(docs, cats, Some(bulk.message.GetOr(CascadeFailedMessage)))
    else if deleteFault.Some? then
      CascadeResult(BulkEffect(docs, step, ids), cats, Some(deleteFault.value.message.GetOr(DeleteFailedMessage)))
    else
      CascadeResult(BulkEffect(docs, step, ids), cats - {categoryId}, error)
  }

  /** Deleting the transactions removes exactly the listed ids, then the category. When
      that delete fails the transactions stay deleted, the category survives, and the
      error is the failure's message or "Failed to delete category". */
  lemma CascadeDeletesTransactions(docs: map<string, Transaction>, cats: map<string, Category>,
                                   error: Option<string>, categoryId: string, ids: seq<string>,
                                   newCategoryId: Option<string>, deleteFault: Option<Fault>)
    requires ids != []
    ensures var r := Cascade(docs, cats, error, categoryId, ids, DELETE_TRANSACTIONS, newCategoryId, None, deleteFault);
      && r.docs.Keys == docs.Keys - (set i | i in ids)
      && (forall k :: k in r.docs ==> r.docs[k] == docs[k])
      && r.cats == (if deleteFault.None? then cats - {categoryId} else cats)
      && r.error == (if deleteFault.None? then error
                     else Some(deleteFault.value.message.GetOr(DeleteFailedMessage)))
  {
  }

  /** Reassigning with a target sets the category of every listed transaction to it and
      changes nothing else, then deletes the category, with the same error as deleting
      when that delete fails; a listed id that is not stored fails the whole batch and
      leaves both collections as they were. */
  lemma CascadeReassignsTransactions(docs: map<string, Transaction>, cats: map<string, Category>,
                                     error: Option<string>, categoryId: string, ids: seq<string>,
                                     target: string, deleteFault: Option<Fault>)
    requires ids != []
    ensures var r := Cascade(docs, cats, error, categoryId, ids, REASSIGN_TRANSACTIONS, Some(target), None, deleteFault);
      if AllStored(docs, ids) then
        && r.docs.Keys == docs.Keys
        && (forall k :: k in docs && k in ids ==> r.docs[k] == docs[k].(categoryId := target))
        && (forall k :: k in docs && k !in ids ==> r.docs[k] == docs[k])
        && r.cats == (if deleteFault.None? then cats - {categoryId} else cats)
        && r.error == (if deleteFault.None? then error
                       else Some(deleteFault.value.message.GetOr(DeleteFailedMessage)))
      else
        r == CascadeResult(docs, cats, Some(NotFoundMessage))
  {
  }

  /** With no ids, or a reassignment without a target, no transaction changes and the
      category delete runs at once: it removes the category, or, when it fails, leaves
      it and reports the failure's message or "Failed to delete category". */
  lemma CascadeWithoutBulkStep(docs: map<string, Transaction>, cats: map<string, Category>,
                               error: Option<string>, categoryId: string, ids: seq<string>,
                               action: CascadeAction, newCategoryId: Option<string>,
                               bulkFault: Option<Fault>, deleteFault: Option<Fault>)
    requires ids == [] || (action == REASSIGN_TRANSACTIONS && newCategoryId.None?)
    ensures Cascade(docs, cats, error, categoryId, ids, action, newCategoryId, bulkFault, deleteFault)
         == if deleteFault.None? then CascadeResult(docs, cats - {categoryId}, error)
            else CascadeResult(docs, cats, Some(deleteFault.value.message.GetOr(DeleteFailedMessage)))
  {
  }

  /** A bulk step that throws leaves both collections untouched, so the category is not
      deleted, and reports the exception's message or the cascade's default text. */
  lemma CascadeBulkFailure(docs: map<string, Transaction>, cats: map<string, Category>,
                           error: Option<string>, categoryId: string, ids: seq<string>,
                           action: CascadeAction, newCategoryId: Option<string>,
                           fault: Fault, deleteFault: Option<Fault>)
    requires BulkStepFor(ids, action, newCategoryId) != NoBulkStep
    ensures Cascade(docs, cats, error, categoryId, ids, action, newCategoryId, Some(fault), deleteFault)
         == CascadeResult(docs, cats, Some(fault.message.GetOr(CascadeFailedMessage)))
  {
  }

  /** The cascade itself accepts the deleted category as the reassignment target: the
      listed transactions end up pointing at a category that no longer exists. */
  lemma CascadeAcceptsDeletedCategoryAsTarget(docs: map<string, Transaction>, cats: map<string, Category>,
                                              error: Option<string>, categoryId: string, ids: seq<string>)
    requires ids != [] && AllStored(docs, ids)
    ensures var r := Cascade(docs, cats, error, categoryId, ids, REASSIGN_TRANSACTIONS, Some(categoryId), None, None);
      && categoryId !in r.cats
      && forall i :: 0 <= i < |ids| ==> r.docs[ids[i]].categoryId == categoryId
  {
  }

  /** Referential integrity: when the ids cover every transaction filed under the
      category, and a reassignment always has a target other than the category itself,
      no remaining transaction refers to the category once it is gone, whichever step
      fails. */
  lemma {:induction false} CascadeLeavesNoDanglingReference(
    docs: map<string, Transaction>, cats: map<string, Category>, error: Option<string>,
    categoryId: string, ids: seq<string>, action: CascadeAction, newCategoryId: Option<string>,
    bulkFault: Option<Fault>, deleteFault: Option<Fault>)
    requires categoryId in cats
    requires forall k :: k in docs && docs[k].categoryId == categoryId ==> k in ids
    requires action == REASSIGN_TRANSACTIONS ==> newCategoryId.Some? && newCategoryId.value != categoryId
    ensures var r := Cascade(docs, cats, error, categoryId, ids, action, newCategoryId, bulkFault, deleteFault);
      categoryId !in r.cats ==> forall k :: k in r.docs ==> r.docs[k].categoryId != categoryId
  {
    var r := Cascade(docs, cats, error, categoryId, ids, action, newCategoryId, bulkFault, deleteFault);
    if categoryId !in r.cats {
      var step := BulkStepFor(ids, action, newCategoryId);
      forall k | k in r.docs ensures r.docs[k].categoryId != categoryId {
        if step == NoBulkStep {
          assert ids == [];
        }
      }
    }
  }

  class CategoryViewModel {
    var uiState: CategoryUiState
    /** Whether the categories stream is being collected. */
    var listening: bool
    const categoryRepository: CategoryRepository
    const transactionRepository: TransactionRepository

    ghost predicate Valid()
      reads this, categoryRepository, transactionRepository
    {
      categoryRepository.Valid() && transactionRepository.Valid()
    }

    /** `init`/`loadCategories`: loading starts; with nobody signed in it stops at once
        with an error and no stream is collected. */
    constructor (categoryRepository: CategoryRepository, transactionRepository: TransactionRepository,
                 currentUser: Option<string>)
      requires categoryRepository.Valid() && transactionRepository.Valid()
      ensures Valid()
      ensures this.categoryRepository == categoryRepository
      ensures this.transactionRepository == transactionRepository
      ensures uiState == if currentUser.Some? then InitialCategoryState.(isLoading := true)
                         else InitialCategoryState.(error := Some(NotLoggedInMessage))
      ensures listening <==> currentUser.Some?
    {
      this.categoryRepository := categoryRepository;
      this.transactionRepository := transactionRepository;
      uiState := InitialCategoryState.(isLoading := true);
      listening := currentUser.Some?;
      new;
      if currentUser.None? {
        uiState := uiState.(isLoading := false, error := Some(NotLoggedInMessage));
      }
    }

    /** Each list the stream delivers replaces the cached categories and ends loading; a
        missing snapshot counts as the empty list. */
    method OnCategoriesSnapshot(snapshot: Option<seq<Category>>)
      requires listening
      modifies this`uiState
      ensures uiState == old(uiState).(categories := snapshot.GetOr([]), isLoading := false)
    {
      uiState := uiState.(categories := snapshot.GetOr([]), isLoading := false);
    }

    /** A stream error records its message and ends loading, keeping the cached list; the
        stream then ends, so no further snapshot arrives. */
    method OnCategoriesError(message: Option<string>)
      requires listening
      modifies this`uiState, this`listening
      ensures uiState == old(uiState).(error := message, isLoading := false)
      ensures !listening
    {
      uiState := uiState.(error := message, isLoading := false);
      listening := false;
    }

    /** `addCategory`: with nobody signed in or a blank name only the error is set;
        otherwise a category with the trimmed name is written at `newId`. */
    method AddCategory(currentUser: Option<string>, name: string, color: int, newId: string,
                       fault: Option<Fault>)
      requires Valid()
      modifies this`uiState, categoryRepository
      ensures Valid()
      ensures currentUser.None? || IsBlank(name) ==>
        categoryRepository.cats == old(categoryRepository.cats)
        && uiState == old(uiState).(error := Some(AddRejectedMessage))
      ensures currentUser.Some? && !IsBlank(name) ==>
        var category := Category(newId, Trim(name), color, currentUser.value);
        && categoryRepository.cats == (if fault.None? then CategoryRepo.Put(old(categoryRepository.cats), category)
                                       else old(categoryRepository.cats))
        && uiState == (if fault.None? then old(uiState)
                       else old(uiState).(error := Some(fault.value.message.GetOr(AddFailedMessage))))
    {
      if currentUser.None? || IsBlank(name) {
        uiState := uiState.(error := Some(AddRejectedMessage));
        return;
      }
      var category := Category(newId, Trim(name), color, currentUser.value);
      var outcome := categoryRepository.AddCategory(category, fault);
      if outcome.Failed? {
        uiState := uiState.(error := Some(outcome.message.GetOr(AddFailedMessage)));
      }
    }

    /** `updateCategory`: a blank name only sets the error; otherwise the record is
        written at its id. */
    method UpdateCategory(category: Category, fault: Option<Fault>)
      requires Valid()
      modifies this`uiState, categoryRepository
      ensures Valid()
      ensures IsBlank(category.name) ==>
        categoryRepository.cats == old(categoryRepository.cats)
        && uiState == old(uiState).(error := Some(UpdateRejectedMessage))
      ensures !IsBlank(category.name) ==>
        && categoryRepository.cats == (if fault.None? then CategoryRepo.Put(old(categoryRepository.cats), category)
                                       else old(categoryRepository.cats))
        && uiState == (if fault.None? then old(uiState)
                       else old(uiState).(error := Some(fault.value.message.GetOr(UpdateFailedMessage))))
    {
      if IsBlank(category.name) {
        uiState := uiState.(error := Some(UpdateRejectedMessage));
        return;
      }
      var outcome := categoryRepository.UpdateCategory(category, fault);
      if outcome.Failed? {
        uiState := uiState.(error := Some(outcome.message.GetOr(UpdateFailedMessage)));
      }
    }

    /** `deleteCategory`: removes the category; a failure only sets the error. */
    method DeleteCategory(categoryId: string, fault: Option<Fault>)
      requires Valid()
      modifies this`uiState, categoryRepository
      ensures Valid()
      ensures categoryRepository.cats == if fault.None? then old(categoryRepository.cats) - {categoryId}
                                         else old(categoryRepository.cats)
      ensures uiState == if fault.None? then old(uiState)
                         else old(uiState).(error := Some(fault.value.message.GetOr(DeleteFailedMessage)))
    {
      var outcome := categoryRepository.DeleteCategory(categoryId, fault);
      if outcome.Failed? {
        uiState := uiState.(error := Some(outcome.message.GetOr(DeleteFailedMessage)));
      }
    }

    /** `handleCascadeAction`: the bulk step chosen by the action, then the category
        delete unless the bulk step threw. */
    method HandleCascadeAction(categoryId: string, transactionIds: seq<string>, action: CascadeAction,
                               newCategoryId: Option<string>, bulkFault: Option<Fault>,
                               deleteFault: Option<Fault>)
      requires Valid()
      modifies this`uiState, categoryRepository, transactionRepository
      ensures Valid()
      ensures var r := Cascade(old(transactionRepository.docs), old(categoryRepository.cats), old(uiState.error),
                               categoryId, transactionIds, action, newCategoryId, bulkFault, deleteFault);
        && transactionRepository.docs == r.docs
        && categoryRepository.cats == r.cats
        && uiState == old(uiState).(error := r.error)
    {
      var bulk: Outcome := Done;
      match action {
        case DELETE_TRANSACTIONS =>
          if transactionIds != [] {
            bulk := transactionRepository.DeleteTransactions(transactionIds, bulkFault);
          }
        case REASSIGN_TRANSACTIONS =>
          if newCategoryId.Some? && transactionIds != [] {
            bulk := transactionRepository.UpdateCategoryForTransactions(transactionIds, newCategoryId.value, bulkFault);
          }
      }
      if bulk.Failed? {
        uiState := uiState.(error := Some(bulk.message.GetOr(CascadeFailedMessage)));
      } else {
        DeleteCategory(categoryId, deleteFault);
      }
    }

    /** `clearError`: only the error is reset. */
    method ClearError()
      modifies this`uiState
      ensures uiState == old(uiState).(error := None)
    {
      uiState := uiState.(error := None);
    }
  }
}
