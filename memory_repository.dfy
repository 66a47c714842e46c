/**
 * The in-memory reference store: a map from id to Item and a counter that
 * hands out ids. Saving assigns the next id; update overwrites the three
 * mutable fields of a stored item or fails when the id is unknown; findById
 * is a lookup; findAll keeps the items that pass both filters.
 */
module MemoryRepository {
  import opened Wrappers
  import opened Text
  import opened Domain

  /** Outcome of update: the Java method returns normally or throws
      NoSuchElementException from Optional.orElseThrow. */
  datatype UpdateResult = Updated | NoSuchElement

  // ---------------------------------------------------------------------
  // The two filters of findAll and the stream they are applied to
  // ---------------------------------------------------------------------

  /** First filter: a null or "" name (ObjectUtils.isEmpty) is no constraint;
      otherwise the item's name must contain it. */
  predicate NameMatches(itemName: Option<string>, item: Item)
  {
    IsEmpty(itemName) || Contains(item.itemName, itemName.value)
  }

  /** Second filter: a null bound is no constraint; otherwise price <= bound. */
  predicate PriceMatches(maxPrice: Option<int>, item: Item)
  {
    maxPrice.None? || item.price <= maxPrice.value
  }

  /** An item passes the search condition when it passes both filters. */
  predicate Matches(cond: ItemSearchCondition, item: Item)
  {
    NameMatches(cond.itemName, item) && PriceMatches(cond.maxPrice, item)
  }

  /** Stream.filter: the elements that satisfy `keep`, in their original order. */
  function Filter(items: seq<Item>, keep: Item -> bool): (r: seq<Item>)
    ensures |r| <= |items|
  {
    if items == [] then []
    else (if keep(items[0]) then [items[0]] else []) + Filter(items[1..], keep)
  }

  /** The stored values whose keys lie in 1..n, in ascending key order. */
  function ValuesUpTo(store: map<int, Item>, n: nat): seq<Item>
  {
    if n == 0 then []
    else ValuesUpTo(store, n - 1) + (if n in store then [store[n]] else [])
  }

  /** findAll over a store whose keys all lie in 1..n. */
  function FindAllIn(store: map<int, Item>, n: nat, cond: ItemSearchCondition): seq<Item>
  {
    var named := Filter(ValuesUpTo(store, n), item => NameMatches(cond.itemName, item));
    Filter(named, item => PriceMatches(cond.maxPrice, item))
  }

  /** The shape every stored entry has: key k in 1..n holds an item whose id is k. */
  ghost predicate WellKeyed(store: map<int, Item>, n: nat)
  {
    forall k :: k in store ==> 1 <= k <= n && store[k].id == Some(k)
  }

  /** `x` is the value of some entry of the store. */
  ghost predicate Stored(store: map<int, Item>, x: Item)
  {
    exists k :: k in store && store[k] == x
  }

  /** Every item carries an id, and ids strictly increase along the sequence. */
  ghost predicate StrictlyAscendingIds(items: seq<Item>)
  {
    && (forall i :: 0 <= i < |items| ==> items[i].id.Some?)
    && (forall i, j :: 0 <= i < j < |items| ==> items[i].id.value < items[j].id.value)
  }

  // ---------------------------------------------------------------------
  // Lemmas about the filters and the value stream
  // ---------------------------------------------------------------------

  lemma {:induction false} FilterMembers(items: seq<Item>, keep: Item -> bool, x: Item)
    ensures x in Filter(items, keep) <==> x in items && keep(x)
  {
    if items != [] {
      FilterMembers(items[1..], keep, x);
      assert items == [items[0]] + items[1..];
    }
  }

  /** A filter every element passes changes nothing. */
  lemma {:induction false} FilterKeepsAll(items: seq<Item>, keep: Item -> bool)
    requires forall x :: x in items ==> keep(x)
    ensures Filter(items, keep) == items
  {
    if items != [] {
      FilterKeepsAll(items[1..], keep);
      assert items == [items[0]] + items[1..];
    }
  }

  lemma {:induction false} FilterKeepsOrder(items: seq<Item>, keep: Item -> bool)
    requires StrictlyAscendingIds(items)
    ensures StrictlyAscendingIds(Filter(items, keep))
  {
    if items != [] {
      var rest := items[1..];
      FilterKeepsOrder(rest, keep);
      forall x | x in Filter(rest, keep) ensures x.id.Some? && items[0].id.value < x.id.value {
        FilterMembers(rest, keep, x);
      }
    }
  }

  lemma {:induction false} ValuesUpToMembers(store: map<int, Item>, n: nat, x: Item)
    ensures x in ValuesUpTo(store, n) <==> exists k :: 1 <= k <= n && k in store && store[k] == x
  {
    if n > 0 {
      ValuesUpToMembers(store, n - 1, x);
    }
  }

  /** With every key in 1..n, the stream holds exactly the stored values. */
  lemma ValuesUpToIsStore(store: map<int, Item>, n: nat, x: Item)
    requires WellKeyed(store, n)
    ensures x in ValuesUpTo(store, n) <==> Stored(store, x)
  {
    ValuesUpToMembers(store, n, x);
  }

  lemma {:induction false} ValuesUpToAscending(store: map<int, Item>, n: nat)
    requires WellKeyed(store, n)
    ensures StrictlyAscendingIds(ValuesUpTo(store, n))
  {
    if n > 0 {
      var below := map k | k in store && k < n :: store[k];
      assert ValuesUpTo(below, n - 1) == ValuesUpTo(store, n - 1) by {
        ValuesUpToAgree(below, store, n - 1);
      }
      ValuesUpToAscending(below, n - 1);
      forall x | x in ValuesUpTo(store, n - 1) ensures x.id.Some? && x.id.value < n {
        ValuesUpToMembers(store, n - 1, x);
      }
    }
  }

  /** Two stores that agree on the keys 1..n produce the same value stream. */
  lemma {:induction false} ValuesUpToAgree(s: map<int, Item>, t: map<int, Item>, n: nat)
    requires forall k :: 1 <= k <= n ==> (k in s <==> k in t)
    requires forall k :: 1 <= k <= n && k in s ==> s[k] == t[k]
    ensures ValuesUpTo(s, n) == ValuesUpTo(t, n)
  {
    if n > 0 {
      ValuesUpToAgree(s, t, n - 1);
    }
  }

  /** findAll keeps exactly the stored items that pass both filters (conjunction),
      and returns them in ascending id order. */
  lemma FindAllInSpec(store: map<int, Item>, n: nat, cond: ItemSearchCondition)
    requires WellKeyed(store, n)
    ensures forall x :: x in FindAllIn(store, n, cond) <==> Stored(store, x) && Matches(cond, x)
    ensures StrictlyAscendingIds(FindAllIn(store, n, cond))
  {
    var nameKeep := item => NameMatches(cond.itemName, item);
    var priceKeep := item => PriceMatches(cond.maxPrice, item);
    var all := ValuesUpTo(store, n);
    var named := Filter(all, nameKeep);
    assert FindAllIn(store, n, cond) == Filter(named, priceKeep);
    forall x ensures x in FindAllIn(store, n, cond) <==> Stored(store, x) && Matches(cond, x) {
      FilterMembers(named, priceKeep, x);
      FilterMembers(all, nameKeep, x);
      ValuesUpToMembers(store, n, x);
      ValuesUpToIsStore(store, n, x);
    }
    ValuesUpToAscending(store, n);
    FilterKeepsOrder(all, nameKeep);
    FilterKeepsOrder(named, priceKeep);
  }

  /** A null or "" name and a null bound filter nothing out: every stored item
      comes back, in key order. */
  lemma FindAllUnconstrained(store: map<int, Item>, n: nat, cond: ItemSearchCondition)
    requires IsEmpty(cond.itemName) && cond.maxPrice.None?
    ensures FindAllIn(store, n, cond) == ValuesUpTo(store, n)
  {
    var all := ValuesUpTo(store, n);
    FilterKeepsAll(all, item => NameMatches(cond.itemName, item));
    FilterKeepsAll(all, item => PriceMatches(cond.maxPrice, item));
  }

  // The repository test's data: three items saved into an empty store.
  const Item1 := Item(Some(1), "itemA-1", 10000, 10)
  const Item2 := Item(Some(2), "itemA-2", 20000, 20)
  const Item3 := Item(Some(3), "itemB-1", 30000, 30)
  const TestStore := map[1 := Item1, 2 := Item2, 3 := Item3]

  lemma TestStoreValues()
    ensures ValuesUpTo(TestStore, 3) == [Item1, Item2, Item3]
  {
    assert ValuesUpTo(TestStore, 1) == [Item1];
    assert ValuesUpTo(TestStore, 2) == [Item1, Item2];
  }

  /** Filter on a short literal sequence, one element at a time. */
  lemma FilterPair(a: Item, b: Item, keep: Item -> bool)
    ensures Filter([a, b], keep) == (if keep(a) then [a] else []) + (if keep(b) then [b] else [])
  {
    assert [a, b][1..] == [b];
    assert [b][1..] == [];
  }

  lemma FilterTriple(a: Item, b: Item, c: Item, keep: Item -> bool)
    ensures Filter([a, b, c], keep)
         == (if keep(a) then [a] else []) + (if keep(b) then [b] else []) + (if keep(c) then [c] else [])
  {
    assert [a, b, c][1..] == [b, c];
    FilterPair(b, c, keep);
  }

  /** No condition, or a "" name: all three items, in the order saved. */
  lemma FindItemsNoCondition()
    ensures FindAllIn(TestStore, 3, ItemSearchCondition(None, None)) == [Item1, Item2, Item3]
    ensures FindAllIn(TestStore, 3, ItemSearchCondition(Some(""), None)) == [Item1, Item2, Item3]
  {
    TestStoreValues();
    FindAllUnconstrained(TestStore, 3, ItemSearchCondition(None, None));
    FindAllUnconstrained(TestStore, 3, ItemSearchCondition(Some(""), None));
  }

  /** Name "itemA": the two itemA items; name "itemB": the itemB item. */
  lemma FindItemsByName()
    ensures FindAllIn(TestStore, 3, ItemSearchCondition(Some("itemA"), None)) == [Item1, Item2]
    ensures FindAllIn(TestStore, 3, ItemSearchCondition(Some("itemB"), None)) == [Item3]
  {
    TestStoreValues();
    assert OccursAt(Item1.itemName, "itemA", 0) && OccursAt(Item2.itemName, "itemA", 0);
    assert OccursAt(Item3.itemName, "itemB", 0);
    NotContainsMissingChar(Item3.itemName, "itemA", 'A');
    NotContainsMissingChar(Item1.itemName, "itemB", 'B');
    NotContainsMissingChar(Item2.itemName, "itemB", 'B');
    FilterTriple(Item1, Item2, Item3, item => NameMatches(Some("itemA"), item));
    FilterTriple(Item1, Item2, Item3, item => NameMatches(Some("itemB"), item));
    FilterKeepsAll([Item1, Item2], item => PriceMatches(None, item));
    FilterKeepsAll([Item3], item => PriceMatches(None, item));
  }

  /** Bound 10000: only the first item. */
  lemma FindItemsByPrice()
    ensures FindAllIn(TestStore, 3, ItemSearchCondition(None, Some(10000))) == [Item1]
  {
    TestStoreValues();
    FilterKeepsAll([Item1, Item2, Item3], item => NameMatches(None, item));
    FilterTriple(Item1, Item2, Item3, item => PriceMatches(Some(10000), item));
  }

  /** Name "itemA" and bound 10000: both filters apply, leaving the first item. */
  lemma FindItemsByNameAndPrice()
    ensures FindAllIn(TestStore, 3, ItemSearchCondition(Some("itemA"), Some(10000))) == [Item1]
  {
    TestStoreValues();
    assert OccursAt(Item1.itemName, "itemA", 0) && OccursAt(Item2.itemName, "itemA", 0);
    NotContainsMissingChar(Item3.itemName, "itemA", 'A');
    FilterTriple(Item1, Item2, Item3, item => NameMatches(Some("itemA"), item));
    assert Filter([Item1, Item2, Item3], item => NameMatches(Some("itemA"), item)) == [Item1, Item2];
    FilterPair(Item1, Item2, item => PriceMatches(Some(10000), item));
  }

  /** A blank name "  " is a real filter here (isEmpty is false) and matches
      none of the items, whose names have no space. */
  lemma FindItemsBlankName()
    ensures FindAllIn(TestStore, 3, ItemSearchCondition(Some("  "), None)) == []
  {
    TestStoreValues();
    NotContainsMissingChar(Item1.itemName, "  ", ' ');
    NotContainsMissingChar(Item2.itemName, "  ", ' ');
    NotContainsMissingChar(Item3.itemName, "  ", ' ');
    FilterTriple(Item1, Item2, Item3, item => NameMatches(Some("  "), item));
  }

  // ---------------------------------------------------------------------
  // The repository object
  // ---------------------------------------------------------------------

  class MemoryItemRepository {
    /** id -> Item; in the original a static HashMap shared by the process. */
    var store: map<int, Item>
    /** The last id handed out; never reset. */
    var sequence: nat

    /** Every key was handed out by save (1..sequence) and is the id of its item. */
    ghost predicate Valid()
      reads this
    {
      WellKeyed(store, sequence)
    }

    constructor ()
      ensures Valid()
      ensures store == map[] && sequence == 0
    {
      store := map[];
      sequence := 0;
    }

    /** save: the item gets id sequence + 1 (any id it had is overwritten), is
        stored under that key and returned; the key was not in use before. */
    method Save(item: Item) returns (saved: Item)
      requires Valid()
      modifies this
      ensures Valid()
      ensures sequence == old(sequence) + 1
      ensures saved == item.(id := Some(sequence))
      ensures sequence !in old(store)
      ensures store == old(store)[sequence := saved]
      ensures FindById(sequence) == Some(saved)
    {
      sequence := sequence + 1;
      saved := item.(id := Some(sequence));
      store := store[sequence := saved];
    }

    /** update: fails on an unknown id and then changes nothing; otherwise sets
        name, price and quantity of the stored item to the payload's, keeps its
        id, and leaves every other entry and the counter as they were. */
    method Update(itemId: int, updateParam: ItemUpdateDto) returns (result: UpdateResult)
      requires Valid()
      modifies this
      ensures Valid()
      ensures sequence == old(sequence)
      ensures result == NoSuchElement <==> itemId !in old(store)
      ensures result == NoSuchElement ==> store == old(store)
      ensures result == Updated ==>
                && store.Keys == old(store).Keys
                && store[itemId] == Item(Some(itemId), updateParam.itemName, updateParam.price, updateParam.quantity)
                && (forall k :: k in store && k != itemId ==> store[k] == old(store)[k])
    {
      var found := FindById(itemId);
      if found.None? {
        return NoSuchElement;
      }
      var findItem := found.value;
      findItem := findItem.(itemName := updateParam.itemName);
      findItem := findItem.(price := updateParam.price);
      findItem := findItem.(quantity := updateParam.quantity);
      store := store[itemId := findItem];
      result := Updated;
    }

    /** findById: the stored item, or None for an unknown id (never an error);
        a found item carries the id it was looked up by. */
    function FindById(id: int): (r: Option<Item>)
      reads this
      requires Valid()
      ensures r.None? <==> id !in store
      ensures r.Some? ==> Stored(store, r.value) && r.value.id == Some(id)
    {
      if id in store then Some(store[id]) else None
    }

    /** findAll: exactly the stored items that pass both filters, in ascending id order. */
    function FindAll(cond: ItemSearchCondition): (r: seq<Item>)
      reads this
      requires Valid()
      ensures forall x :: x in r <==> Stored(store, x) && Matches(cond, x)
      ensures StrictlyAscendingIds(r)
    {
      FindAllInSpec(store, sequence, cond);
      FindAllIn(store, sequence, cond)
    }

    /** clearStore (test-only): empties the map but keeps the counter. */
    method ClearStore()
      requires Valid()
      modifies this
      ensures Valid()
      ensures store == map[] && sequence == old(sequence)
    {
      store := map[];
    }
  }

  // ---------------------------------------------------------------------
  // The repository test's scenarios, stated on a fresh object
  // ---------------------------------------------------------------------

  /** save, then findById with the saved id: the saved item comes back. */
  method SaveScenario() returns (saved: Item, found: Option<Item>)
    ensures saved == Item(Some(1), "itemA", 10000, 10)
    ensures found == Some(saved)
  {
    var repo := new MemoryItemRepository();
    saved := repo.Save(NewItem("itemA", 10000, 10));
    found := repo.FindById(saved.id.value);
  }

  /** save, update with ("item2", 20000, 30), findById: the payload's values
      under the unchanged id. */
  method UpdateScenario() returns (result: UpdateResult, found: Option<Item>)
    ensures result == Updated
    ensures found == Some(Item(Some(1), "item2", 20000, 30))
  {
    var repo := new MemoryItemRepository();
    var saved := repo.Save(NewItem("item1", 10000, 10));
    result := repo.Update(saved.id.value, ItemUpdateDto("item2", 20000, 30));
    found := repo.FindById(saved.id.value);
  }

  /** Three saves, then findAll under the test's conditions. The ids of
      successive saves increase; the results come back in that order. */
  method FindItemsScenario() returns (all: seq<Item>, emptyName: seq<Item>, itemA: seq<Item>, itemB: seq<Item>,
                                      cheap: seq<Item>, itemACheap: seq<Item>)
    ensures all == [Item1, Item2, Item3] && emptyName == [Item1, Item2, Item3]
    ensures itemA == [Item1, Item2] && itemB == [Item3]
    ensures cheap == [Item1] && itemACheap == [Item1]
  {
    var repo := new MemoryItemRepository();
    var saved1 := repo.Save(NewItem("itemA-1", 10000, 10));
    var saved2 := repo.Save(NewItem("itemA-2", 20000, 20));
    var saved3 := repo.Save(NewItem("itemB-1", 30000, 30));
    assert repo.store == TestStore && repo.sequence == 3;
    FindItemsNoCondition();
    FindItemsByName();
    FindItemsByPrice();
    FindItemsByNameAndPrice();
    all := repo.FindAll(ItemSearchCondition(None, None));
    emptyName := repo.FindAll(ItemSearchCondition(Some(""), None));
    itemA := repo.FindAll(ItemSearchCondition(Some("itemA"), None));
    itemB := repo.FindAll(ItemSearchCondition(Some("itemB"), None));
    cheap := repo.FindAll(ItemSearchCondition(None, Some(10000)));
    itemACheap := repo.FindAll(ItemSearchCondition(Some("itemA"), Some(10000)));
  }

  /** clearStore after one save, then another save: the store holds only the
      new item, and its id continues from the old counter (2, not 1). */
  method ClearStoreScenario() returns (saved: Item, unknown: Option<Item>)
    ensures saved.id == Some(2)
    ensures unknown == None
  {
    var repo := new MemoryItemRepository();
    var first := repo.Save(NewItem("itemA", 10000, 10));
    repo.ClearStore();
    saved := repo.Save(NewItem("itemB", 20000, 20));
    unknown := repo.FindById(first.id.value);
  }

  /** update of an id that was never handed out fails and adds no entry. */
  method UpdateMissingScenario() returns (result: UpdateResult, found: Option<Item>)
    ensures result == NoSuchElement
    ensures found == None
  {
    var repo := new MemoryItemRepository();
    var saved := repo.Save(NewItem("itemA", 10000, 10));
    result := repo.Update(saved.id.value + 1, ItemUpdateDto("item2", 20000, 30));
    found := repo.FindById(saved.id.value + 1);
  }
}
