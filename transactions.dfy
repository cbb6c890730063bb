/**
 * The transaction list: the stored transactions and categories, each row tinted
 * with its category's colour, and deletion of a row after the user confirms.
 * The confirmation dialog's answer is a parameter, `confirmed`.
 */
module Transactions {
  import opened Seqs
  import opened Records
  import opened Colors
  import opened Store

  class TransactionsComponent {
    var transactions: seq<Transaction>
    var categories: seq<Category>

    constructor()
      ensures transactions == [] && categories == []
    {
      transactions, categories := [], [];
    }

    /** `loadData`: both tables, as the store holds them. */
    method LoadData(store: RecordStore)
      modifies this
      ensures transactions == store.transactions && categories == store.categories
    {
      transactions := store.transactions;
      categories := store.categories;
    }

    /** `getCategoryColor(name)`: the colour of the first loaded category with that
        name; the default when there is none or its colour is empty. */
    function GetCategoryColor(name: string): (r: string)
      reads this
      ensures r != ""
      ensures (forall c <- categories :: c.name != name) ==> r == DefaultColor
      ensures forall i :: (0 <= i < |categories| && categories[i].name == name &&
        (forall j :: 0 <= j < i ==> categories[j].name != name)) ==> r == OrDefault(categories[i].color)
    {
      CategoryColor(categories, name)
    }

    /** `deleteTransaction(id)`: nothing without an id (absent or 0) or without
        confirmation; otherwise the record goes from the store and both lists are
        reloaded. */
    method DeleteTransaction(id: Option<int>, confirmed: bool, store: RecordStore)
      modifies this, store
      ensures !HasId(id) || !confirmed ==>
        store.transactions == old(store.transactions) && store.categories == old(store.categories)
        && transactions == old(transactions) && categories == old(categories)
      ensures HasId(id) && confirmed ==>
        store.transactions == WithoutTransaction(old(store.transactions), id.value)
        && store.categories == old(store.categories)
        && transactions == store.transactions && categories == store.categories
    {
      if !HasId(id) {
        return;
      }
      if confirmed {
        store.DeleteTransaction(id.value);
        LoadData(store);
      }
    }
  }
}
