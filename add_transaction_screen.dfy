/** The add-transaction form: the title and amount validators, the save enabling and
    guard, the default-category effect, and the record the Save button builds. The new
    id, the clock reading and the signed-in user are passed in. */
module AddTransactionScreen {
  import opened Wrappers
  import opened Text
  import opened Numbers
  import opened Model
  import opened TransactionRepo
  import opened TransactionVM

  /** Save is enabled only with a valid title, a valid amount and a selected category;
      the amount then parses to a positive number. */
  predicate SaveEnabled(title: string, amount: string, selected: Option<Category>)
    ensures SaveEnabled(title, amount, selected) ==>
      && Trim(title) != []
      && ParseDouble(amount).Some? && ParseDouble(amount).value > 0.0
      && selected.Some?
  {
    IsNotBlank(title) && IsAmountValid(amount) && selected.Some?
  }

  /** A field shows its error only when it is invalid and has been edited: an untouched
      field never shows one, and a valid field never does. */
  predicate FieldErrorShown(valid: bool, edited: bool)
    ensures FieldErrorShown(valid, edited) ==> edited && !valid
    ensures !edited || valid ==> !FieldErrorShown(valid, edited)
  {
    !valid && edited
  }

  /** The Save button's record: nothing when the user, the parsed amount or the category
      is missing; otherwise a transaction made of the form's fields. */
  function BuildTransaction(currentUser: Option<string>, title: string, amount: string, note: string,
                            kind: TransactionType, selected: Option<Category>, id: string, now: int)
    : (r: Option<Transaction>)
    ensures r.Some? <==> currentUser.Some? && ParseDouble(amount).Some? && selected.Some?
    ensures r.Some? ==> r.value.id == id && r.value.date == now && r.value.title == title && r.value.note == note
    ensures r.Some? ==> r.value.amount == ParseDouble(amount).value && r.value.kind == kind
    ensures r.Some? ==> r.value.categoryId == selected.value.id && r.value.userId == currentUser.value
  {
    var finalAmount := ParseDouble(amount);
    if currentUser.None? || finalAmount.None? || selected.None? then None
    else Some(Transaction(id, title, finalAmount.value, kind, selected.value.id, now, note, currentUser.value))
  }

  /** An enabled Save by a signed-in user always creates a transaction, and it has the
      typed amount, which is positive, a non-blank title, the selected type and category, and the user's
      id; without a user nothing is created. */
  lemma EnabledSaveBuildsValidTransaction(currentUser: Option<string>, title: string, amount: string,
                                          note: string, kind: TransactionType, selected: Option<Category>,
                                          id: string, now: int)
    requires SaveEnabled(title, amount, selected)
    ensures var r := BuildTransaction(currentUser, title, amount, note, kind, selected, id, now);
      && (r.Some? <==> currentUser.Some?)
      && (r.Some? ==>
            && r.value.amount == ParseDouble(amount).value
            && r.value.amount > 0.0
            && !IsBlank(r.value.title)
            && r.value.kind == kind
            && r.value.categoryId == selected.value.id
            && r.value.userId == currentUser.value)
  {
    PatternParses(amount);
  }

  /** The form's remembered state. */
  class AddTransactionForm {
    var title: string
    var amount: string
    var note: string
    var selectedType: TransactionType
    var selectedCategory: Option<Category>
    var hasTitleBeenFocused: bool
    var hasAmountBeenFocused: bool

    function TitleErrorShown(): bool
      reads this
    {
      FieldErrorShown(IsNotBlank(title), hasTitleBeenFocused)
    }

    function AmountErrorShown(): bool
      reads this
    {
      FieldErrorShown(IsAmountValid(amount), hasAmountBeenFocused)
    }

    /** A fresh form is empty, records an expense, has no category and shows no error
        although neither field is valid yet. */
    constructor ()
      ensures title == "" && amount == "" && note == ""
      ensures selectedType == EXPENSE && selectedCategory.None?
      ensures !hasTitleBeenFocused && !hasAmountBeenFocused
      ensures !IsNotBlank(title) && !IsAmountValid(amount)
      ensures !TitleErrorShown() && !AmountErrorShown()
    {
      title, amount, note := "", "", "";
      selectedType := EXPENSE;
      selectedCategory := None;
      hasTitleBeenFocused, hasAmountBeenFocused := false, false;
      AmountExamples();
    }

    /** Typing in the title field marks it as edited. */
    method OnTitleChange(s: string)
      modifies this`title, this`hasTitleBeenFocused
      ensures title == s && hasTitleBeenFocused
      ensures TitleErrorShown() <==> IsBlank(s)
    {
      title := s;
      hasTitleBeenFocused := true;
    }

    /** Typing in the amount field marks it as edited. */
    method OnAmountChange(s: string)
      modifies this`amount, this`hasAmountBeenFocused
      ensures amount == s && hasAmountBeenFocused
      ensures AmountErrorShown() <==> !IsAmountValid(s)
    {
      amount := s;
      hasAmountBeenFocused := true;
    }

    method OnNoteChange(s: string)
      modifies this`note
      ensures note == s
    {
      note := s;
    }

    /** The expense and income chips. */
    method OnTypeSelected(kind: TransactionType)
      modifies this`selectedType
      ensures selectedType == kind
    {
      selectedType := kind;
    }

    /** A dropdown item. */
    method OnCategorySelected(category: Category)
      modifies this`selectedCategory
      ensures selectedCategory == Some(category)
    {
      selectedCategory := Some(category);
    }

    /** The effect run whenever the cached categories change: the first category is
        selected only when nothing is selected yet and the list is not empty. */
    method OnCategoriesChanged(categories: seq<Category>)
      modifies this`selectedCategory
      ensures selectedCategory ==
        if old(selectedCategory).None? && categories != [] then Some(categories[0]) else old(selectedCategory)
    {
      if selectedCategory.None? && categories != [] {
        selectedCategory := Some(categories[0]);
      }
    }

    /** The Save button (clickable only when enabled): the built record, if any, is
        passed to the view model's `addTransaction`; otherwise nothing happens. */
    method Save(vm: TransactionViewModel, currentUser: Option<string>, id: string, now: int,
                fault: Option<Fault>) returns (saved: Option<Transaction>)
      requires SaveEnabled(title, amount, selectedCategory)
      requires vm.Valid()
      modifies vm`uiState, vm.repository
      ensures vm.Valid()
      ensures saved == BuildTransaction(currentUser, title, amount, note, selectedType, selectedCategory, id, now)
      ensures saved.Some? <==> currentUser.Some?
      ensures saved.None? ==> vm.repository.docs == old(vm.repository.docs) && vm.uiState == old(vm.uiState)
      ensures saved.Some? ==>
        && vm.repository.docs == (if fault.None? then Put(old(vm.repository.docs), saved.value)
                                  else old(vm.repository.docs))
        && vm.uiState == (if fault.None? then old(vm.uiState)
                          else old(vm.uiState).(error := Some(fault.value.message.GetOr(AddFailedMessage))))
    {
      EnabledSaveBuildsValidTransaction(currentUser, title, amount, note, selectedType, selectedCategory, id, now);
      saved := BuildTransaction(currentUser, title, amount, note, selectedType, selectedCategory, id, now);
      if saved.Some? {
        vm.AddTransaction(saved.value, fault);
      }
    }
  }
}
