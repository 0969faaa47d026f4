/** The edit-transaction screen: the lookup of the edited transaction in the cached list on
    every recomposition, the initial category, the record Save writes and the id Delete
    removes. */
module EditTransactionScreen {
  import opened Wrappers
  import opened Numbers
  import opened Model
  import opened TransactionRepo
  import opened TransactionVM

  /** Kotlin's `find { key(it) == id }`: the first element whose key is `id`, or none. */
  function FindFirst<T>(xs: seq<T>, key: T -> string, id: string): (r: Option<T>)
    ensures r.None? <==> forall i :: 0 <= i < |xs| ==> key(xs[i]) != id
    ensures r.Some? ==> exists i :: 0 <= i < |xs| && xs[i] == r.value && key(r.value) == id
                                    && forall j :: 0 <= j < i ==> key(xs[j]) != id
  {
    if xs == [] then None
    else if key(xs[0]) == id then Some(xs[0])
    else
      var r := FindFirst(xs[1..], key, id);
      assert forall j :: 1 <= j < |xs| ==> xs[j] == xs[1..][j - 1];
      r
  }

  /** `transactions.find { it.id == transactionId }`. */
  function FindById(ts: seq<Transaction>, id: string): Option<Transaction> {
    FindFirst(ts, (t: Transaction) => t.id, id)
  }

  /** `categories.find { it.id == transaction.categoryId }`: none, for example, when that
      id is empty. */
  function FindCategory(cs: seq<Category>, id: string): Option<Category> {
    FindFirst(cs, (c: Category) => c.id, id)
  }

  /** `selectedCategory?.id ?: ""`. */
  function SelectedCategoryId(selected: Option<Category>): (r: string)
    ensures selected.None? ==> r == NoCategory
    ensures selected.Some? ==> r == selected.value.id
  {
    if selected.Some? then selected.value.id else NoCategory
  }

  /** The record Save writes: only the title, the amount, the category and the note
      change. An amount that does not parse keeps the old amount; one that parses is
      taken as it is, without a positivity check. */
  function EditedTransaction(t: Transaction, title: string, amountText: string,
                             selected: Option<Category>, note: string): (r: Transaction)
    ensures r.id == t.id && r.kind == t.kind && r.date == t.date && r.userId == t.userId
    ensures r.title == title && r.note == note
    ensures r.categoryId == SelectedCategoryId(selected)
    ensures selected.Some? ==> r.categoryId == selected.value.id
    ensures selected.None? ==> r.categoryId == NoCategory
    ensures ParseDouble(amountText).None? ==> r.amount == t.amount
    ensures ParseDouble(amountText).Some? ==> r.amount == ParseDouble(amountText).value
  {
    t.(title := title,
       amount := ParseDouble(amountText).GetOr(t.amount),
       categoryId := SelectedCategoryId(selected),
       note := note)
  }

  /** Saving without touching any field writes the transaction back as it was, provided
      its category is the initial selection and its amount text reads back as its
      amount. */
  lemma UntouchedSaveIsIdentity(t: Transaction, cs: seq<Category>, amountText: string)
    requires ParseDouble(amountText).GetOr(t.amount) == t.amount
    requires FindCategory(cs, t.categoryId).Some? || t.categoryId == NoCategory
    ensures EditedTransaction(t, t.title, amountText, FindCategory(cs, t.categoryId), t.note) == t
  {
  }

  /** A transaction whose category id is set but not among the cached categories starts
      with no selection, so saving the untouched form clears its category and changes
      nothing else. */
  lemma UntouchedSaveClearsDanglingCategory(t: Transaction, cs: seq<Category>, amountText: string)
    requires ParseDouble(amountText).GetOr(t.amount) == t.amount
    requires FindCategory(cs, t.categoryId).None?
    ensures EditedTransaction(t, t.title, amountText, FindCategory(cs, t.categoryId), t.note)
         == t.(categoryId := NoCategory)
    ensures t.categoryId != NoCategory ==>
              EditedTransaction(t, t.title, amountText, FindCategory(cs, t.categoryId), t.note) != t
  {
  }

  /** A saved edit stays keyed at the same id, so the update replaces the original
      document and adds none. */
  lemma EditReplacesOriginal(docs: map<string, Transaction>, t: Transaction, title: string,
                             amountText: string, selected: Option<Category>, note: string)
    requires KeyedById(docs) && t.id in docs
    ensures Put(docs, EditedTransaction(t, title, amountText, selected, note)).Keys == docs.Keys
  {
  }

  /** The edit form takes amounts the add form rejects: a negative amount is saved, an
      unparsable one keeps the old amount, and the "no category" choice clears it. */
  lemma EditAmountExamples(t: Transaction)
    ensures EditedTransaction(t, t.title, "-3", None, t.note).amount == -3.0
    ensures EditedTransaction(t, t.title, "abc", None, t.note).amount == t.amount
    ensures EditedTransaction(t, t.title, "abc", None, t.note).categoryId == ""
  {
    ParseExamples();
  }

  /** The screen's state for one transaction id. Every recomposition looks the id up
      again in the cached list; while it is found the form shows that transaction's
      current record and keeps its remembered fields, and while it is absent only the
      "not found or is loading" text is shown, with no Save or Delete. */
  class EditTransactionForm {
    const transactionId: string
    /** The record found at the last recomposition; Save edits this one. */
    var transaction: Transaction
    /** Whether the last recomposition found the transaction. */
    var present: bool
    /** The category the last recomposition found for the transaction's category id: the
        key of the effect that resets the selection. */
    var initialCategory: Option<Category>
    var title: string
    var amount: string
    var note: string
    var selectedCategory: Option<Category>

    ghost predicate Valid()
      reads this
    {
      transaction.id == transactionId
    }

    /** The first composition that finds the transaction: the form starts from its
        fields, with its category preselected when it is among the cached categories.
        `amountText` is the transaction's amount as the platform renders it. */
    constructor (transaction: Transaction, categories: seq<Category>, amountText: string)
      ensures Valid() && present
      ensures transactionId == transaction.id && this.transaction == transaction
      ensures title == transaction.title && amount == amountText && note == transaction.note
      ensures initialCategory == FindCategory(categories, transaction.categoryId)
      ensures selectedCategory == initialCategory
    {
      var initial := FindCategory(categories, transaction.categoryId);
      transactionId := transaction.id;
      this.transaction := transaction;
      present := true;
      title := transaction.title;
      amount := amountText;
      note := transaction.note;
      initialCategory := initial;
      selectedCategory := initial;
    }

    /** A recomposition after the cached lists change. The transaction is found again by
        id. When it is absent the screen returns before its remembered fields, which
        are forgotten. When it reappears they start afresh from the record found now.
        While it stays present the title, amount and note are kept, the record is
        replaced by the one found now, and the selection is reset to the category found
        for that record's category id only when that category differs from the one
        found before. `amountText` is the found amount as the platform renders it. */
    method Recompose(transactions: seq<Transaction>, categories: seq<Category>, amountText: string)
      requires Valid()
      modifies this
      ensures Valid()
      ensures present <==> FindById(transactions, transactionId).Some?
      ensures !present ==> transaction == old(transaction) && initialCategory == old(initialCategory)
                           && title == old(title) && amount == old(amount) && note == old(note)
                           && selectedCategory == old(selectedCategory)
      ensures present ==> transaction == FindById(transactions, transactionId).value
                          && initialCategory == FindCategory(categories, transaction.categoryId)
      ensures present && !old(present) ==>
                title == transaction.title && amount == amountText && note == transaction.note
                && selectedCategory == initialCategory
      ensures present && old(present) ==>
                title == old(title) && amount == old(amount) && note == old(note)
                && selectedCategory == (if initialCategory == old(initialCategory) then old(selectedCategory)
                                        else initialCategory)
    {
      var found := FindById(transactions, transactionId);
      if found.None? {
        present := false;
        return;
      }
      var t := found.value;
      var initial := FindCategory(categories, t.categoryId);
      transaction := t;
      if !present {
        title := t.title;
        amount := amountText;
        note := t.note;
        selectedCategory := initial;
      } else if initial != initialCategory {
        // LaunchedEffect(initialCategory) runs again for the new key.
        if selectedCategory != initial {
          selectedCategory := initial;
        }
      }
      present := true;
      initialCategory := initial;
    }

    method OnTitleChange(s: string)
      modifies this`title
      ensures title == s
    {
      title := s;
    }

    method OnAmountChange(s: string)
      modifies this`amount
      ensures amount == s
    {
      amount := s;
    }

    method OnNoteChange(s: string)
      modifies this`note
      ensures note == s
    {
      note := s;
    }

    /** A dropdown item: a category, or "No Category". */
    method OnCategorySelected(category: Option<Category>)
      modifies this`selectedCategory
      ensures selectedCategory == category
    {
      selectedCategory := category;
    }

    /** Save Changes: the edited copy goes to the view model's `updateTransaction`. */
    method Save(vm: TransactionViewModel, fault: Option<Fault>) returns (saved: Transaction)
      requires Valid() && present && vm.Valid()
      modifies vm`uiState, vm.repository
      ensures vm.Valid()
      ensures saved == EditedTransaction(transaction, title, amount, selectedCategory, note)
      ensures vm.repository.docs == if fault.None? then Put(old(vm.repository.docs), saved)
                                    else old(vm.repository.docs)
      ensures vm.uiState == if fault.None? then old(vm.uiState)
                            else old(vm.uiState).(error := Some(fault.value.message.GetOr(UpdateFailedMessage)))
    {
      saved := EditedTransaction(transaction, title, amount, selectedCategory, note);
      vm.UpdateTransaction(saved, fault);
    }

    /** The delete dialog's Delete: removes exactly the edited transaction's id. */
    method Delete(vm: TransactionViewModel, fault: Option<Fault>)
      requires Valid() && present && vm.Valid()
      modifies vm`uiState, vm.repository
      ensures vm.Valid()
      ensures vm.repository.docs == if fault.None? then old(vm.repository.docs) - {transactionId}
                                    else old(vm.repository.docs)
      ensures vm.uiState == if fault.None? then old(vm.uiState)
                            else old(vm.uiState).(error := Some(fault.value.message.GetOr(DeleteFailedMessage)))
    {
      vm.DeleteTransaction(transaction.id, fault);
    }
  }

  /** Opening the screen: the transaction is looked up by id in the cached list; when it
      is absent no form is produced. */
  method OpenEditForm(transactions: seq<Transaction>, categories: seq<Category>, transactionId: string,
                      amountText: string) returns (form: EditTransactionForm?)
    ensures form == null <==> FindById(transactions, transactionId).None?
    ensures form != null ==> fresh(form) && form.Valid() && form.present && form.transactionId == transactionId
    ensures form != null ==> form.transaction == FindById(transactions, transactionId).value
    ensures form != null ==> form.selectedCategory == FindCategory(categories, form.transaction.categoryId)
  {
    var found := FindById(transactions, transactionId);
    if found.None? {
      return null;
    }
    assert found.value.id == transactionId;
    form := new EditTransactionForm(found.value, categories, amountText);
  }
}
