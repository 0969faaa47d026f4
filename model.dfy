/** The two records the application stores: a money transaction and a user-defined
    category. Kotlin's default arguments become constructor functions whose random
    identifier and current time are passed in. */
module Model {

  /** The kind of a transaction; there are exactly these two. */
  datatype TransactionType = INCOME | EXPENSE

  /** A stored transaction. `amount` is exact (the source's `Double` is not modelled),
      `date` is milliseconds since the epoch, and `categoryId == ""` means "no category". */
  datatype Transaction = Transaction(
    id: string,
    title: string,
    amount: real,
    kind: TransactionType,
    categoryId: string,
    date: int,
    note: string,
    userId: string)

  /** A user-defined category; `color` is an ARGB value held in a 64-bit `Long`. */
  datatype Category = Category(id: string, name: string, color: int, userId: string)

  /** The category id a transaction carries when it belongs to no category. */
  const NoCategory: string := ""

  /** The colour of a category built without one (opaque material blue). */
  const DefaultCategoryColor: int := 0xFF2196F3

  /** `Transaction()` with only the generated `id` and the clock reading `now` supplied. */
  function NewTransaction(id: string, now: int): Transaction {
    Transaction(id, "", 0.0, EXPENSE, NoCategory, now, "", "")
  }

  /** `Category()` with only the generated `id` supplied. */
  function NewCategory(id: string): Category {
    Category(id, "", DefaultCategoryColor, "")
  }

  /** Every transaction type is income or expense, and the two differ. */
  lemma TransactionTypeHasTwoVariants(k: TransactionType)
    ensures k == INCOME || k == EXPENSE
    ensures INCOME != EXPENSE
  {
  }

  /** A default transaction is an uncategorised, empty expense of amount 0 whose key is
      the identifier it was given. */
  lemma NewTransactionDefaults(id: string, now: int)
    ensures var t := NewTransaction(id, now);
      && t.id == id && t.date == now
      && t.kind == EXPENSE && t.categoryId == NoCategory && t.amount == 0.0
      && t.title == "" && t.note == "" && t.userId == ""
  {
  }

  /** A default category is nameless, unowned and blue (ARGB 0xFF2196F3). */
  lemma NewCategoryDefaults(id: string)
    ensures var c := NewCategory(id);
      c.id == id && c.name == "" && c.color == 0xFF2196F3 && c.userId == ""
  {
  }
}
