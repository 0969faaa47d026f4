/** The `categories` collection of the remote document store, held as a map from
    document id to record; whether a remote call throws is passed in as `fault`. */
module CategoryRepo {
  import opened Wrappers
  import opened Model

  /** Every category is stored under its own id, so the store never holds two records
      with the same id. */
  ghost predicate KeyedById(cats: map<string, Category>) {
    forall k :: k in cats ==> cats[k].id == k
  }

  /** `document(category.id).set(category)`. */
  function Put(cats: map<string, Category>, c: Category): map<string, Category> {
    cats[c.id := c]
  }

  /** An upsert stores `c` at its id, keeps one record per id, and leaves every other
      category as it was. */
  lemma PutIsUpsert(cats: map<string, Category>, c: Category)
    requires KeyedById(cats)
    ensures KeyedById(Put(cats, c))
    ensures Put(cats, c).Keys == cats.Keys + {c.id} && Put(cats, c)[c.id] == c
    ensures forall k :: k in cats && k != c.id ==> Put(cats, c)[k] == cats[k]
  {
  }

  /** No category appears twice. */
  predicate DistinctIds(s: seq<Category>) {
    forall i, j :: 0 <= i < j < |s| ==> s[i].id != s[j].id
  }

  class CategoryRepository {
    var cats: map<string, Category>

    ghost predicate Valid()
      reads this
    {
      KeyedById(cats)
    }

    constructor (initial: map<string, Category>)
      requires KeyedById(initial)
      ensures Valid() && cats == initial
    {
      cats := initial;
    }

    /** `addCategory`: the whole record is written at `category.id`. */
    method AddCategory(category: Category, fault: Option<Fault>) returns (outcome: Outcome)
      requires Valid()
      modifies this
      ensures Valid()
      ensures outcome == CommitOutcome(fault)
      ensures cats == if fault.None? then Put(old(cats), category) else old(cats)
    {
      outcome := CommitOutcome(fault);
      if outcome.Done? {
        cats := cats[category.id := category];
      }
    }

    /** `updateCategory`: the same write as `addCategory`, so an upsert too. */
    method UpdateCategory(category: Category, fault: Option<Fault>) returns (outcome: Outcome)
      requires Valid()
      modifies this
      ensures Valid()
      ensures outcome == CommitOutcome(fault)
      ensures cats == if fault.None? then Put(old(cats), category) else old(cats)
    {
      outcome := CommitOutcome(fault);
      if outcome.Done? {
        cats := cats[category.id := category];
      }
    }

    /** `deleteCategory`: removes the one document (deleting a missing one succeeds). */
    method DeleteCategory(categoryId: string, fault: Option<Fault>) returns (outcome: Outcome)
      requires Valid()
      modifies this
      ensures Valid()
      ensures outcome == CommitOutcome(fault)
      ensures cats == if fault.None? then old(cats) - {categoryId} else old(cats)
    {
      outcome := CommitOutcome(fault);
      if outcome.Done? {
        cats := cats - {categoryId};
      }
    }

    /** `getCategories(userId)`: every category owned by the user, each once, in an order
        this model leaves open. */
    method GetCategories(userId: string) returns (r: seq<Category>)
      requires Valid()
      ensures DistinctIds(r)
      ensures forall c :: c in r <==> c.id in cats && cats[c.id] == c && c.userId == userId
    {
      r := [];
      var pending := cats.Keys;
      while pending != {}
        invariant pending <= cats.Keys
        invariant DistinctIds(r)
        invariant forall c :: c in r <==>
          c.id in cats && c.id !in pending && cats[c.id] == c && c.userId == userId
        decreases pending
      {
        var k :| k in pending;
        var c := cats[k];
        if c.userId == userId {
          r := r + [c];
        }
        pending := pending - {k};
      }
    }
  }
}
