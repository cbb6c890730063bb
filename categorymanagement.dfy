/**
 * The category screen: the stored categories split into an income and an expense
 * list, the number of transactions filed under each category name, and deletion
 * of a category, which is refused while any transaction uses it. The user's
 * answer to the confirmation dialog and whether the store's delete throws are
 * parameters.
 */
module CategoryManagement {
  import opened Seqs
  import opened Records
  import opened Store

  function KindIsSome(kind: TxType): Category -> bool {
    (c: Category) => c.kind == Some(kind)
  }

  /** `allCategories.filter(c => c.type === kind)`. */
  function OfCategoryKind(cs: seq<Category>, kind: TxType): (r: seq<Category>)
    ensures forall c <- r :: c in cs && c.kind == Some(kind)
    ensures forall c <- cs :: c.kind == Some(kind) ==> c in r
    ensures IsSubsequence(r, cs)
  {
    FilterIsSubsequence(cs, KindIsSome(kind));
    Filter(cs, KindIsSome(kind))
  }

  function Untyped(c: Category): bool {
    c.kind.None?
  }

  /** Every category lands in exactly one of the two lists, or in neither when it
      has no type: the lists and the untyped ones together count the whole table. */
  lemma {:induction false} SplitCounts(cs: seq<Category>)
    ensures |OfCategoryKind(cs, Income)| + |OfCategoryKind(cs, Expense)| + |Filter(cs, Untyped)| == |cs|
  {
    if cs != [] {
      SplitCounts(cs[1..]);
      var inc, exp := KindIsSome(Income), KindIsSome(Expense);
      var a := |Filter(cs[1..], inc)|;
      var b := |Filter(cs[1..], exp)|;
      var u := |Filter(cs[1..], Untyped)|;
      assert a + b + u == |cs| - 1;
      FilterStep(cs, inc);
      FilterStep(cs, exp);
      FilterStep(cs, Untyped);
      match cs[0].kind
      case None =>
        assert !inc(cs[0]) && !exp(cs[0]) && Untyped(cs[0]);
      case Some(k) =>
        assert inc(cs[0]) == (k == Income) && exp(cs[0]) == (k == Expense) && !Untyped(cs[0]);
    }
  }

  /** One step of a filter, counted. */
  lemma FilterStep<T>(s: seq<T>, p: T -> bool)
    requires s != []
    ensures |Filter(s, p)| == (if p(s[0]) then 1 else 0) + |Filter(s[1..], p)|
  {
  }

  /** The usage record after the loop of `loadCategories` has visited `cats`, from
      the record `m` it started with. */
  function RecordUsage(m: map<string, int>, cats: seq<Category>, ts: seq<Transaction>): map<string, int> {
    if cats == [] then m
    else
      var last := cats[|cats| - 1];
      RecordUsage(m, cats[..|cats| - 1], ts)[last.name := UsageCount(ts, last.name)]
  }

  /** The loop records the store's count for every visited name and keeps the
      entries of every other name. */
  lemma RecordUsageSpec(m: map<string, int>, cats: seq<Category>, ts: seq<Transaction>, n: string)
    ensures n in RecordUsage(m, cats, ts) <==> n in m || exists c <- cats :: c.name == n
    ensures (exists c <- cats :: c.name == n) ==> RecordUsage(m, cats, ts)[n] == UsageCount(ts, n)
    ensures (forall c <- cats :: c.name != n) && n in m ==> RecordUsage(m, cats, ts)[n] == m[n]
  {
    HasNameIff(cats, n);
    RecordUsageKeys(m, cats, ts, n);
    RecordUsageValues(m, cats, ts, n);
  }

  /** Some category of `cats` is named `n`, looked for from the last one back, as
      `RecordUsage` visits them. */
  predicate HasName(cats: seq<Category>, n: string) {
    cats != [] && (cats[|cats| - 1].name == n || HasName(cats[..|cats| - 1], n))
  }

  lemma {:induction false} HasNameIff(cats: seq<Category>, n: string)
    ensures HasName(cats, n) <==> exists c <- cats :: c.name == n
  {
    if cats != [] {
      var init, last := cats[..|cats| - 1], cats[|cats| - 1];
      HasNameIff(init, n);
      assert cats == init + [last];
      assert (exists c <- cats :: c.name == n) <==> (exists c <- init :: c.name == n) || last.name == n;
    }
  }

  lemma {:induction false} RecordUsageKeys(m: map<string, int>, cats: seq<Category>, ts: seq<Transaction>, n: string)
    ensures n in RecordUsage(m, cats, ts) <==> n in m || HasName(cats, n)
  {
    if cats != [] {
      RecordUsageKeys(m, cats[..|cats| - 1], ts, n);
    }
  }

  lemma {:induction false} RecordUsageValues(m: map<string, int>, cats: seq<Category>, ts: seq<Transaction>, n: string)
    ensures HasName(cats, n) ==> n in RecordUsage(m, cats, ts) && RecordUsage(m, cats, ts)[n] == UsageCount(ts, n)
    ensures !HasName(cats, n) && n in m ==> n in RecordUsage(m, cats, ts) && RecordUsage(m, cats, ts)[n] == m[n]
  {
    if cats != [] {
      RecordUsageValues(m, cats[..|cats| - 1], ts, n);
    }
  }

  /** One more visited category records its count. */
  lemma RecordUsageStep(m: map<string, int>, cats: seq<Category>, i: nat, ts: seq<Transaction>)
    requires i < |cats|
    ensures RecordUsage(m, cats[..i + 1], ts) == RecordUsage(m, cats[..i], ts)[cats[i].name := UsageCount(ts, cats[i].name)]
  {
    assert cats[..i + 1][..i] == cats[..i];
  }

  /** The loop's record holds the store's count under every visited name, and its
      names are the names it started with and the visited ones. */
  lemma RecordUsageAll(m: map<string, int>, cats: seq<Category>, ts: seq<Transaction>)
    ensures forall c <- cats :: c.name in RecordUsage(m, cats, ts) && RecordUsage(m, cats, ts)[c.name] == UsageCount(ts, c.name)
    ensures forall n :: n in RecordUsage(m, cats, ts) <==> n in m || exists c <- cats :: c.name == n
  {
    forall c <- cats
      ensures c.name in RecordUsage(m, cats, ts) && RecordUsage(m, cats, ts)[c.name] == UsageCount(ts, c.name)
    {
      RecordUsageSpec(m, cats, ts, c.name);
    }
    forall n
      ensures n in RecordUsage(m, cats, ts) <==> n in m || exists c <- cats :: c.name == n
    {
      RecordUsageSpec(m, cats, ts, n);
    }
  }

  class CategoryManagementComponent {
    var incomeCategories: seq<Category>
    var expenseCategories: seq<Category>
    var categoryUsage: map<string, int>

    constructor()
      ensures incomeCategories == [] && expenseCategories == [] && categoryUsage == map[]
    {
      incomeCategories, expenseCategories, categoryUsage := [], [], map[];
    }

    /** `getCategoryUsage(name)`: the recorded count, 0 for a name without one. */
    function GetCategoryUsage(name: string): (n: int)
      reads this
      ensures name in categoryUsage ==> n == categoryUsage[name]
      ensures name !in categoryUsage ==> n == 0
    {
      if name in categoryUsage then categoryUsage[name] else 0
    }

    /** The delete button's `[disabled]` binding. */
    predicate DeleteDisabled(c: Category)
      reads this
    {
      GetCategoryUsage(c.name) > 0
    }

    /** `loadCategories`: the two lists, then the store's usage count of every
        category name, on top of the counts recorded before. */
    method LoadCategories(store: RecordStore)
      modifies this
      ensures incomeCategories == OfCategoryKind(store.categories, Income)
      ensures expenseCategories == OfCategoryKind(store.categories, Expense)
      ensures categoryUsage == RecordUsage(old(categoryUsage), store.categories, store.transactions)
      ensures forall c <- store.categories :: GetCategoryUsage(c.name) == UsageCount(store.transactions, c.name)
      ensures forall n :: n in categoryUsage <==> n in old(categoryUsage) || exists c <- store.categories :: c.name == n
    {
      var allCategories := store.categories;
      incomeCategories := OfCategoryKind(allCategories, Income);
      expenseCategories := OfCategoryKind(allCategories, Expense);
      for i := 0 to |allCategories|
        invariant categoryUsage == RecordUsage(old(categoryUsage), allCategories[..i], store.transactions)
        invariant incomeCategories == OfCategoryKind(allCategories, Income)
        invariant expenseCategories == OfCategoryKind(allCategories, Expense)
      {
        var count := store.CategoryUsageCount(allCategories[i].name);
        RecordUsageStep(old(categoryUsage), allCategories, i, store.transactions);
        categoryUsage := categoryUsage[allCategories[i].name := count];
      }
      assert allCategories[..|allCategories|] == allCategories;
      RecordUsageAll(old(categoryUsage), allCategories, store.transactions);
    }

    /** `deleteCategory(category)`: a category whose recorded usage is positive is
        never deleted; otherwise the store deletes it only when the user confirmed
        and it has an id, and the lists are reloaded after a delete that succeeds.
        A delete the store throws on leaves the store as it was. */
    method DeleteCategory(category: Category, confirmed: bool, storeFails: bool, store: RecordStore)
      modifies this, store
      ensures old(GetCategoryUsage(category.name)) > 0 ==>
        store.categories == old(store.categories) && store.transactions == old(store.transactions)
        && incomeCategories == old(incomeCategories) && expenseCategories == old(expenseCategories)
        && categoryUsage == old(categoryUsage)
      ensures store.categories != old(store.categories) ==>
        old(GetCategoryUsage(category.name)) <= 0 && confirmed && HasId(category.id) && !storeFails
      ensures store.transactions == old(store.transactions)
      ensures old(GetCategoryUsage(category.name)) <= 0 && confirmed && HasId(category.id) && !storeFails ==>
        store.categories == WithoutCategory(old(store.categories), category.id.value)
        && incomeCategories == OfCategoryKind(store.categories, Income)
        && expenseCategories == OfCategoryKind(store.categories, Expense)
        && categoryUsage == RecordUsage(old(categoryUsage), store.categories, store.transactions)
      ensures !(old(GetCategoryUsage(category.name)) <= 0 && confirmed && HasId(category.id) && !storeFails) ==>
        incomeCategories == old(incomeCategories) && expenseCategories == old(expenseCategories)
        && categoryUsage == old(categoryUsage)
    {
      var usageCount := GetCategoryUsage(category.name);
      if usageCount > 0 {
        return;
      }
      if confirmed && HasId(category.id) {
        if !storeFails {
          store.DeleteCategory(category.id.value);
          LoadCategories(store);
        }
      }
    }
  }

  /** After loading, a category that some stored transaction is filed under has its
      delete button disabled, and one that no transaction uses has it enabled. */
  lemma DisabledExactlyWhenUsed(ts: seq<Transaction>, cs: seq<Category>, c: Category, m: map<string, int>)
    requires c in cs
    ensures var usage := RecordUsage(m, cs, ts);
      (c.name in usage && usage[c.name] > 0) <==> exists t <- ts :: t.category == c.name
  {
    RecordUsageSpec(m, cs, ts, c.name);
  }
}
