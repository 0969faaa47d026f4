/** The category management screen: the add and edit dialogs' enabling and record
    construction, and the delete dialog, which computes the cascade's inputs from the
    cached transactions and categories and hands them to the category view model. */
module CategoriesScreen {
  import opened Wrappers
  import opened Text
  import opened Model
  import opened TransactionRepo
  import opened CategoryVM

  /** The color every category added from this screen gets. */
  const NewCategoryColor: int := 0xFF6200EE

  /** The transactions filed under the category being deleted, in cached order. */
  function AssociatedTransactions(ts: seq<Transaction>, categoryId: string): (r: seq<Transaction>)
    ensures |r| <= |ts|
    ensures forall t :: t in r <==> t in ts && t.categoryId == categoryId
  {
    if ts == [] then []
    else (if ts[0].categoryId == categoryId then [ts[0]] else []) + AssociatedTransactions(ts[1..], categoryId)
  }

  /** The categories a deleted category's transactions may move to: every cached
      category except the one being deleted, in cached order. */
  function ReassignmentCandidates(cs: seq<Category>, categoryId: string): (r: seq<Category>)
    ensures |r| <= |cs|
    ensures forall c :: c in r <==> c in cs && c.id != categoryId
  {
    if cs == [] then []
    else (if cs[0].id != categoryId then [cs[0]] else []) + ReassignmentCandidates(cs[1..], categoryId)
  }

  /** `filter` keeps order and repetitions: filtering a concatenation filters each part,
      and a single transaction is kept exactly when it is filed under the category. */
  lemma {:induction false} AssociatedTransactionsIsFilter(a: seq<Transaction>, b: seq<Transaction>,
                                                          t: Transaction, categoryId: string)
    ensures AssociatedTransactions(a + b, categoryId)
            == AssociatedTransactions(a, categoryId) + AssociatedTransactions(b, categoryId)
    ensures AssociatedTransactions([t], categoryId) == if t.categoryId == categoryId then [t] else []
  {
    if a == [] {
      assert a + b == b;
    } else {
      assert (a + b)[1..] == a[1..] + b;
      AssociatedTransactionsIsFilter(a[1..], b, t, categoryId);
    }
    assert [t][1..] == [];
  }

  /** The candidates keep the cached order and repetitions in the same way. */
  lemma {:induction false} ReassignmentCandidatesIsFilter(a: seq<Category>, b: seq<Category>,
                                                          c: Category, categoryId: string)
    ensures ReassignmentCandidates(a + b, categoryId)
            == ReassignmentCandidates(a, categoryId) + ReassignmentCandidates(b, categoryId)
    ensures ReassignmentCandidates([c], categoryId) == if c.id != categoryId then [c] else []
  {
    if a == [] {
      assert a + b == b;
    } else {
      assert (a + b)[1..] == a[1..] + b;
      ReassignmentCandidatesIsFilter(a[1..], b, c, categoryId);
    }
    assert [c][1..] == [];
  }

  /** The dialog's default target, `firstOrNull()` of the candidates, is the first cached
      category other than the one being deleted. */
  lemma {:induction false} FirstCandidate(cs: seq<Category>, categoryId: string, i: nat)
    requires i < |cs| && cs[i].id != categoryId
    requires forall j :: 0 <= j < i ==> cs[j].id == categoryId
    ensures ReassignmentCandidates(cs, categoryId) != []
    ensures ReassignmentCandidates(cs, categoryId)[0] == cs[i]
  {
    if i > 0 {
      FirstCandidate(cs[1..], categoryId, i - 1);
    }
  }

  /** `associatedTransactions.map { it.id }`. */
  function TransactionIds(ts: seq<Transaction>): (r: seq<string>)
    ensures |r| == |ts|
    ensures forall i :: 0 <= i < |ts| ==> r[i] == ts[i].id
  {
    if ts == [] then [] else [ts[0].id] + TransactionIds(ts[1..])
  }

  /** `selectedReassignCategory?.id`. */
  function SelectedId(selected: Option<Category>): (r: Option<string>)
    ensures r.Some? <==> selected.Some?
    ensures r.Some? ==> r.value == selected.value.id
  {
    if selected.Some? then Some(selected.value.id) else None
  }

  /** Confirm is disabled exactly when reassignment is chosen and no target is selected,
      so an enabled Confirm always issues a bulk step for a non-empty id list. */
  predicate ConfirmEnabled(option: CascadeAction, selected: Option<Category>)
    ensures ConfirmEnabled(option, selected) <==> option == DELETE_TRANSACTIONS || selected.Some?
    ensures forall ids: seq<string> :: ConfirmEnabled(option, selected) && ids != [] ==>
              !BulkStepFor(ids, option, SelectedId(selected)).NoBulkStep?
  {
    !(option == REASSIGN_TRANSACTIONS && selected.None?)
  }

  /** The edit dialog's `category.copy(name = categoryName)`: the name is taken as typed,
      without trimming. */
  function EditedCategory(category: Category, name: string): (r: Category)
    ensures r.name == name
    ensures r.id == category.id && r.color == category.color && r.userId == category.userId
  {
    category.(name := name)
  }

  /** Every id the dialog passes belongs to a cached transaction of the category. */
  lemma {:induction false} TransactionIdsOfAssociated(ts: seq<Transaction>, categoryId: string, id: string)
    ensures id in TransactionIds(AssociatedTransactions(ts, categoryId)) <==>
            exists t :: t in ts && t.categoryId == categoryId && t.id == id
  {
    var assoc := AssociatedTransactions(ts, categoryId);
    var ids := TransactionIds(assoc);
    if id in ids {
      var i :| 0 <= i < |ids| && ids[i] == id;
      assert assoc[i] in assoc;
    }
    if exists t :: t in ts && t.categoryId == categoryId && t.id == id {
      var t :| t in ts && t.categoryId == categoryId && t.id == id;
      var i :| 0 <= i < |assoc| && assoc[i] == t;
      assert ids[i] == id;
    }
  }

  /** An enabled Add or Save never meets the view model's blank-name rejection, and an
      added name is stored trimmed while an edited name is stored as typed: the two
      dialogs store " Food " differently. */
  lemma EnabledNamesAreAccepted(category: Category, name: string)
    requires IsNotBlank(name)
    ensures !IsBlank(EditedCategory(category, name).name)
    ensures Trim(name) != [] && !IsBlank(Trim(name))
  {
    TrimKeepsBlankness(name);
  }

  /** Adding trims surrounding spaces but editing keeps them. */
  lemma AddAndEditTreatSpacesDifferently(category: Category)
    ensures Trim(" Food ") == "Food"
    ensures EditedCategory(category, " Food ").name == " Food "
  {
    var s := " Food ";
    assert !IsWhitespace(s[1]) && IsWhitespace(s[0]);
    assert LeadingSpace(s[1..]) == 0;
    assert LeadingSpace(s) == 1;
    var rest := s[1..];
    assert rest == "Food ";
    assert !IsWhitespace(rest[3]);
    assert TrailingSpace(rest[..4]) == 0;
    assert TrailingSpace(rest) == 1;
  }

  /** With the cached transactions complete for the category, a confirmed delete never
      leaves a transaction referring to a deleted category: the dialog's ids cover the
      category's transactions, Confirm requires a target when reassigning, and the
      target, once drawn from the candidates, is never the category itself. */
  lemma {:induction false} ConfirmedCascadeKeepsReferences(
    docs: map<string, Transaction>, cats: map<string, Category>, error: Option<string>,
    category: Category, cached: seq<Transaction>, option: CascadeAction, selected: Option<Category>,
    bulkFault: Option<Fault>, deleteFault: Option<Fault>)
    requires TransactionRepo.KeyedById(docs)
    requires category.id in cats
    requires forall k :: k in docs && docs[k].categoryId == category.id ==> docs[k] in cached
    requires ConfirmEnabled(option, selected)
    requires selected.Some? ==> selected.value.id != category.id
    ensures var r := Cascade(docs, cats, error, category.id,
                             TransactionIds(AssociatedTransactions(cached, category.id)),
                             option, SelectedId(selected), bulkFault, deleteFault);
      category.id !in r.cats ==> forall k :: k in r.docs ==> r.docs[k].categoryId != category.id
  {
    var ids := TransactionIds(AssociatedTransactions(cached, category.id));
    forall k | k in docs && docs[k].categoryId == category.id ensures k in ids {
      TransactionIdsOfAssociated(cached, category.id, k);
    }
    CascadeLeavesNoDanglingReference(docs, cats, error, category.id, ids, option,
                                     SelectedId(selected), bulkFault, deleteFault);
  }

  /** The add dialog's confirm: the typed name goes to `addCategory` with the screen's
      fixed color, so a signed-in user's new category is stored trimmed, in that color. */
  method ConfirmAddCategory(vm: CategoryViewModel, currentUser: Option<string>, name: string,
                            newId: string, fault: Option<Fault>)
    requires IsNotBlank(name) && vm.Valid()
    modifies vm`uiState, vm.categoryRepository
    ensures vm.Valid()
    ensures currentUser.None? ==>
      vm.categoryRepository.cats == old(vm.categoryRepository.cats)
      && vm.uiState == old(vm.uiState).(error := Some(AddRejectedMessage))
    ensures currentUser.Some? && fault.None? ==>
      var stored := Category(newId, Trim(name), NewCategoryColor, currentUser.value);
      && newId in vm.categoryRepository.cats
      && vm.categoryRepository.cats[newId] == stored
      && stored.name != [] && !IsBlank(stored.name)
      && vm.categoryRepository.cats == CategoryRepo.Put(old(vm.categoryRepository.cats), stored)
    ensures currentUser.Some? && fault.Some? ==>
      vm.categoryRepository.cats == old(vm.categoryRepository.cats)
      && vm.uiState == old(vm.uiState).(error := Some(fault.value.message.GetOr(AddFailedMessage)))
  {
    EnabledNamesAreAccepted(Category(newId, name, NewCategoryColor, ""), name);
    vm.AddCategory(currentUser, name, NewCategoryColor, newId, fault);
  }

  /** The edit dialog's Save: the copy with the typed name goes to `updateCategory`; it
      is never rejected, and only the name of the stored category changes. */
  method ConfirmEditCategory(vm: CategoryViewModel, category: Category, name: string, fault: Option<Fault>)
    requires IsNotBlank(name) && vm.Valid()
    modifies vm`uiState, vm.categoryRepository
    ensures vm.Valid()
    ensures vm.categoryRepository.cats ==
      if fault.None? then CategoryRepo.Put(old(vm.categoryRepository.cats), EditedCategory(category, name))
      else old(vm.categoryRepository.cats)
    ensures vm.uiState ==
      if fault.None? then old(vm.uiState)
      else old(vm.uiState).(error := Some(fault.value.message.GetOr(UpdateFailedMessage)))
  {
    EnabledNamesAreAccepted(category, name);
    vm.UpdateCategory(EditedCategory(category, name), fault);
  }

  /** The delete dialog for one category. Its two lists are recomputed from the screen's
      caches on every recomposition; the chosen option (initially deleting the
      transactions) and the chosen target (initially the first candidate, if any) are
      remembered across recompositions. */
  class DeleteDialog {
    const category: Category
    var associatedTransactions: seq<Transaction>
    var categoriesForReassignment: seq<Category>
    var selectedOption: CascadeAction
    var selectedReassignCategory: Option<Category>

    /** No candidate is the category being deleted, and neither is the selected target.
        The target need not be a current candidate: a snapshot may remove it while the
        dialog is open. */
    ghost predicate Valid()
      reads this
    {
      && (forall c :: c in categoriesForReassignment ==> c.id != category.id)
      && (selectedReassignCategory.Some? ==> selectedReassignCategory.value.id != category.id)
    }

    /** Opening the dialog on `category` with the screen's cached lists. */
    constructor (category: Category, transactions: seq<Transaction>, categories: seq<Category>)
      ensures Valid()
      ensures this.category == category
      ensures associatedTransactions == AssociatedTransactions(transactions, category.id)
      ensures categoriesForReassignment == ReassignmentCandidates(categories, category.id)
      ensures selectedOption == DELETE_TRANSACTIONS
      ensures selectedReassignCategory ==
        if categoriesForReassignment == [] then None else Some(categoriesForReassignment[0])
    {
      this.category := category;
      var candidates := ReassignmentCandidates(categories, category.id);
      associatedTransactions := AssociatedTransactions(transactions, category.id);
      categoriesForReassignment := candidates;
      selectedOption := DELETE_TRANSACTIONS;
      selectedReassignCategory := if candidates == [] then None else Some(candidates[0]);
    }

    /** A recomposition after a snapshot: both lists follow the new caches, while the
        remembered option and target stay as they were. */
    method OnCachesChanged(transactions: seq<Transaction>, categories: seq<Category>)
      requires Valid()
      modifies this`associatedTransactions, this`categoriesForReassignment
      ensures Valid()
      ensures associatedTransactions == AssociatedTransactions(transactions, category.id)
      ensures categoriesForReassignment == ReassignmentCandidates(categories, category.id)
    {
      associatedTransactions := AssociatedTransactions(transactions, category.id);
      categoriesForReassignment := ReassignmentCandidates(categories, category.id);
    }

    /** A radio button. */
    method SelectOption(option: CascadeAction)
      modifies this`selectedOption
      ensures selectedOption == option
    {
      selectedOption := option;
    }

    /** A dropdown item: only candidates are offered. */
    method SelectTarget(i: nat)
      requires Valid() && i < |categoriesForReassignment|
      modifies this`selectedReassignCategory
      ensures Valid()
      ensures selectedReassignCategory == Some(categoriesForReassignment[i])
    {
      selectedReassignCategory := Some(categoriesForReassignment[i]);
    }

    /** Confirm: the cascade runs on the ids of the latest associated transactions with
        the chosen option and the chosen target's id, which is never the deleted
        category's id. */
    method Confirm(vm: CategoryViewModel, bulkFault: Option<Fault>, deleteFault: Option<Fault>)
      returns (newCategoryId: Option<string>)
      requires Valid() && vm.Valid()
      requires ConfirmEnabled(selectedOption, selectedReassignCategory)
      modifies vm`uiState, vm.categoryRepository, vm.transactionRepository
      ensures vm.Valid()
      ensures newCategoryId == SelectedId(selectedReassignCategory)
      ensures newCategoryId.Some? ==> newCategoryId.value != category.id
      ensures selectedOption == REASSIGN_TRANSACTIONS ==> newCategoryId.Some?
      ensures var r := Cascade(old(vm.transactionRepository.docs), old(vm.categoryRepository.cats),
                               old(vm.uiState.error), category.id, TransactionIds(associatedTransactions),
                               selectedOption, newCategoryId, bulkFault, deleteFault);
        && vm.transactionRepository.docs == r.docs
        && vm.categoryRepository.cats == r.cats
        && vm.uiState == old(vm.uiState).(error := r.error)
    {
      newCategoryId := SelectedId(selectedReassignCategory);
      vm.HandleCascadeAction(category.id, TransactionIds(associatedTransactions), selectedOption,
                             newCategoryId, bulkFault, deleteFault);
    }
  }
}
