/**
 * The IndexedDB tables behind the views, as the components use them: the
 * transactions and the categories, each kept in primary-key order. Records
 * are removed by primary key; the number of transactions filed under a
 * category name is what the category screen calls its usage.
 */
module Store {
  import opened Seqs
  import opened Records

  function IdIsNot(id: int): Transaction -> bool {
    (t: Transaction) => t.id != Some(id)
  }

  function CategoryIdIsNot(id: int): Category -> bool {
    (c: Category) => c.id != Some(id)
  }

  function CategoryIs(name: string): Transaction -> bool {
    (t: Transaction) => t.category == name
  }

  /** The table after `transactions.delete(id)`: every other record, in order. */
  function WithoutTransaction(ts: seq<Transaction>, id: int): (r: seq<Transaction>)
    ensures forall t <- r :: t in ts && t.id != Some(id)
    ensures forall t <- ts :: t.id != Some(id) ==> t in r
    ensures IsSubsequence(r, ts)
  {
    FilterIsSubsequence(ts, IdIsNot(id));
    Filter(ts, IdIsNot(id))
  }

  /** The table after `categories.delete(id)`. */
  function WithoutCategory(cs: seq<Category>, id: int): (r: seq<Category>)
    ensures forall c <- r :: c in cs && c.id != Some(id)
    ensures forall c <- cs :: c.id != Some(id) ==> c in r
    ensures IsSubsequence(r, cs)
  {
    FilterIsSubsequence(cs, CategoryIdIsNot(id));
    Filter(cs, CategoryIdIsNot(id))
  }

  /** The number of transactions filed under category `name`. */
  function UsageCount(ts: seq<Transaction>, name: string): (n: nat)
    ensures n == 0 <==> forall t <- ts :: t.category != name
    ensures n <= |ts|
  {
    var used := Filter(ts, CategoryIs(name));
    assert forall t <- ts :: CategoryIs(name)(t) <==> t.category == name;
    assert forall t <- used :: t.category == name;
    assert used != [] ==> used[0] in used;
    |used|
  }

  class RecordStore {
    var transactions: seq<Transaction>
    var categories: seq<Category>

    constructor(ts: seq<Transaction>, cs: seq<Category>)
      ensures transactions == ts && categories == cs
    {
      transactions := ts;
      categories := cs;
    }

    /** `deleteTransaction(id)`. */
    method DeleteTransaction(id: int)
      modifies this
      ensures transactions == WithoutTransaction(old(transactions), id)
      ensures categories == old(categories)
    {
      transactions := WithoutTransaction(transactions, id);
    }

    /** `deleteCategory(id)`. */
    method DeleteCategory(id: int)
      modifies this
      ensures categories == WithoutCategory(old(categories), id)
      ensures transactions == old(transactions)
    {
      categories := WithoutCategory(categories, id);
    }

    /** `getCategoryUsageCount(name)`. */
    method CategoryUsageCount(name: string) returns (n: nat)
      ensures n == UsageCount(transactions, name)
    {
      n := UsageCount(transactions, name);
    }
  }
}
