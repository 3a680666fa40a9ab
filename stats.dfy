/**
 * The statistics pass of `get_inventory_stats`: one sweep over every item of
 * every document of a user that counts the items, tallies them by category,
 * collects the documents' supplier names and sums the case prices.
 */
module Stats {
  import opened Wrappers
  import opened Inventory

  /** The category an item is counted under: its `Category`, or "Unknown" when absent. */
  function CategoryOf(item: Item): (r: string)
    ensures item.category.Some? ==> r == item.category.value
    ensures r == "Unknown" <==> item.category == None || item.category == Some("Unknown")
  {
    item.category.GetOr("Unknown")
  }

  /** The category tally after counting `items` in order. */
  function CategoryCounts(items: seq<Item>): map<string, nat> {
    if items == [] then map[]
    else
      var counts := CategoryCounts(items[..|items| - 1]);
      var category := CategoryOf(items[|items| - 1]);
      counts[category := (if category in counts then counts[category] else 0) + 1]
  }

  /** How many of `items` fall under `category`. */
  function CountCategory(items: seq<Item>, category: string): nat {
    if items == [] then 0
    else CountCategory(items[..|items| - 1], category) + if CategoryOf(items[|items| - 1]) == category then 1 else 0
  }

  /** The set of the documents' `supplier_name` values (absent is `None`). */
  function SupplierSet(docs: seq<Document>): set<Option<string>> {
    if docs == [] then {} else SupplierSet(docs[..|docs| - 1]) + {docs[|docs| - 1].supplierName}
  }

  /** What an item adds to the inventory value: its case price when numeric, else nothing. */
  function PriceOf(item: Item): (r: real)
    ensures item.casePrice.Numeric? ==> r == item.casePrice.value
    ensures !item.casePrice.Numeric? ==> r == 0.0
  {
    match item.casePrice
    case NoPrice => 0.0
    case Numeric(v) => v
    case NonNumeric => 0.0
  }

  /** The sum of the prices of `items`. */
  function InventoryValue(items: seq<Item>): real {
    if items == [] then 0.0 else InventoryValue(items[..|items| - 1]) + PriceOf(items[|items| - 1])
  }

  /** The sum of the values of `m` at `keys`. */
  ghost function SumOver(m: map<string, nat>, keys: set<string>): nat
    requires keys <= m.Keys
    decreases keys
  {
    if keys == {} then 0
    else
      var k :| k in keys;
      m[k] + SumOver(m, keys - {k})
  }

  /** The sum of all values of `m`. */
  ghost function SumValues(m: map<string, nat>): nat {
    SumOver(m, m.Keys)
  }

  /** Any key may be taken out of the sum first. */
  lemma {:induction false} SumOverRemove(m: map<string, nat>, keys: set<string>, k: string)
    requires keys <= m.Keys && k in keys
    ensures SumOver(m, keys) == m[k] + SumOver(m, keys - {k})
    decreases keys
  {
    var k' :| k' in keys && SumOver(m, keys) == m[k'] + SumOver(m, keys - {k'});
    if k' != k {
      SumOverRemove(m, keys - {k'}, k);
      SumOverRemove(m, keys - {k}, k');
      assert keys - {k'} - {k} == keys - {k} - {k'};
    }
  }

  /** The sum at `keys` depends only on the values at `keys`. */
  lemma {:induction false} SumOverAgree(m1: map<string, nat>, m2: map<string, nat>, keys: set<string>)
    requires keys <= m1.Keys && keys <= m2.Keys
    requires forall k :: k in keys ==> m1[k] == m2[k]
    ensures SumOver(m1, keys) == SumOver(m2, keys)
    decreases keys
  {
    if keys != {} {
      var k :| k in keys;
      SumOverRemove(m1, keys, k);
      SumOverRemove(m2, keys, k);
      SumOverAgree(m1, m2, keys - {k});
    }
  }

  /** Counting one more item under `key` adds one to the sum of the tally. */
  lemma SumValuesIncrement(m: map<string, nat>, key: string)
    ensures SumValues(m[key := (if key in m then m[key] else 0) + 1]) == SumValues(m) + 1
  {
    var m' := m[key := (if key in m then m[key] else 0) + 1];
    SumOverRemove(m', m'.Keys, key);
    SumOverAgree(m, m', m.Keys - {key});
    if key in m {
      assert m'.Keys == m.Keys;
      SumOverRemove(m, m.Keys, key);
    } else {
      assert m'.Keys - {key} == m.Keys == m.Keys - {key};
    }
  }

  /** The tally holds exactly the categories that occur, each with its number of items. */
  lemma {:induction false} CategoryCountsAt(items: seq<Item>, category: string)
    ensures category in CategoryCounts(items) <==> CountCategory(items, category) > 0
    ensures category in CategoryCounts(items) ==> CategoryCounts(items)[category] == CountCategory(items, category)
  {
    if items != [] {
      CategoryCountsAt(items[..|items| - 1], category);
    }
  }

  /** Every item is counted once: the tally sums to the number of items. */
  lemma {:induction false} CategoryCountsTotal(items: seq<Item>)
    ensures SumValues(CategoryCounts(items)) == |items|
  {
    if items != [] {
      var n := |items| - 1;
      CategoryCountsTotal(items[..n]);
      SumValuesIncrement(CategoryCounts(items[..n]), CategoryOf(items[n]));
    }
  }

  /** There are no more categories than items. */
  lemma {:induction false} CategoryCountsSize(items: seq<Item>)
    ensures |CategoryCounts(items)| <= |items|
  {
    if items != [] {
      var n := |items| - 1;
      CategoryCountsSize(items[..n]);
      var m := CategoryCounts(items[..n]);
      assert CategoryCounts(items).Keys == m.Keys + {CategoryOf(items[n])};
    }
  }

  /** An item without a `Category` is counted under "Unknown". */
  lemma {:induction false} MissingCategoryIsUnknown(items: seq<Item>, k: nat)
    requires k < |items| && items[k].category == None
    ensures "Unknown" in CategoryCounts(items)
    ensures CategoryCounts(items)["Unknown"] >= 1
  {
    CountCategoryPositive(items, k);
    CategoryCountsAt(items, "Unknown");
  }

  lemma {:induction false} CountCategoryPositive(items: seq<Item>, k: nat)
    requires k < |items|
    ensures CountCategory(items, CategoryOf(items[k])) > 0
  {
    var n := |items| - 1;
    if k < n {
      CountCategoryPositive(items[..n], k);
    }
  }

  /** The supplier set holds exactly the supplier names of the documents. */
  lemma {:induction false} SupplierSetMembers(docs: seq<Document>, name: Option<string>)
    ensures name in SupplierSet(docs) <==> exists i :: 0 <= i < |docs| && docs[i].supplierName == name
  {
    if docs != [] {
      var n := |docs| - 1;
      SupplierSetMembers(docs[..n], name);
      if i :| 0 <= i < n && docs[..n][i].supplierName == name {
        assert docs[i].supplierName == name;
      }
      if i :| 0 <= i < |docs| && docs[i].supplierName == name {
        if i < n {
          assert docs[..n][i].supplierName == name;
        }
      }
    }
  }

  /** There are no more suppliers than documents. */
  lemma {:induction false} SupplierSetSize(docs: seq<Document>)
    ensures |SupplierSet(docs)| <= |docs|
  {
    if docs != [] {
      SupplierSetSize(docs[..|docs| - 1]);
    }
  }

  /**
   * The figures of one statistics response agree: the tally sums to the item
   * count, there are no more categories than items and no more suppliers than
   * documents.
   */
  lemma StatsConsistent(docs: seq<Document>)
    ensures SumValues(CategoryCounts(AllItems(docs))) == TotalItems(docs)
    ensures |CategoryCounts(AllItems(docs))| <= TotalItems(docs)
    ensures |SupplierSet(docs)| <= |docs|
  {
    AllItemsLength(docs);
    CategoryCountsTotal(AllItems(docs));
    CategoryCountsSize(AllItems(docs));
    SupplierSetSize(docs);
  }

  /** An absent or non-numeric case price adds nothing; a numeric one adds its value. */
  lemma CasePriceExample(items: seq<Item>, item: Item)
    ensures item.casePrice == NoPrice ==> InventoryValue(items + [item]) == InventoryValue(items)
    ensures item.casePrice == NonNumeric ==> InventoryValue(items + [item]) == InventoryValue(items)
    ensures item.casePrice.Numeric? ==> InventoryValue(items + [item]) == InventoryValue(items) + item.casePrice.value
  {
    assert (items + [item])[..|items|] == items;
  }

  /** What counting one more item does to the tally and to the value. */
  lemma CountingOneMore(items: seq<Item>, item: Item)
    ensures CategoryCounts(items + [item]) == CategoryCounts(items)[CategoryOf(item) :=
      (if CategoryOf(item) in CategoryCounts(items) then CategoryCounts(items)[CategoryOf(item)] else 0) + 1]
    ensures InventoryValue(items + [item]) == InventoryValue(items) + PriceOf(item)
  {
    assert (items + [item])[..|items|] == items;
  }

  /**
   * The inner loop of `get_inventory_stats`: counts the items of one document
   * into the running item count, category tally and value, which so far
   * account for the items `seen`.
   */
  method TallyItems(items: seq<Item>, ghost seen: seq<Item>,
                    totalItems: nat, categories: map<string, nat>, totalValue: real)
    returns (totalItems': nat, categories': map<string, nat>, totalValue': real)
    requires categories == CategoryCounts(seen) && totalValue == InventoryValue(seen)
    ensures totalItems' == totalItems + |items|
    ensures categories' == CategoryCounts(seen + items)
    ensures totalValue' == InventoryValue(seen + items)
  {
    totalItems', categories', totalValue' := totalItems, categories, totalValue;
    ghost var counted := seen;
    for j := 0 to |items|
      invariant counted == seen + items[..j]
      invariant totalItems' == totalItems + j
      invariant categories' == CategoryCounts(counted)
      invariant totalValue' == InventoryValue(counted)
    {
      var item := items[j];
      CountingOneMore(counted, item);
      totalItems' := totalItems' + 1;
      var category := CategoryOf(item);
      if category !in categories' {
        categories' := categories'[category := 0];
      }
      categories' := categories'[category := categories'[category] + 1];
      var casePrice := if item.casePrice.NoPrice? then Numeric(0.0) else item.casePrice;
      if casePrice.Numeric? {
        totalValue' := totalValue' + casePrice.value;
      }
      counted := counted + [item];
      assert items[..j + 1] == items[..j] + [item];
    }
    assert items[..|items|] == items;
  }

  /** The aggregation loop of `get_inventory_stats`. */
  method AggregateStats(documents: seq<Document>)
    returns (totalItems: nat, categories: map<string, nat>, suppliers: set<Option<string>>, totalValue: real)
    ensures totalItems == TotalItems(documents)
    ensures categories == CategoryCounts(AllItems(documents))
    ensures suppliers == SupplierSet(documents)
    ensures totalValue == InventoryValue(AllItems(documents))
  {
    totalItems, categories, suppliers, totalValue := 0, map[], {}, 0.0;
    for i := 0 to |documents|
      invariant totalItems == TotalItems(documents[..i])
      invariant categories == CategoryCounts(AllItems(documents[..i]))
      invariant suppliers == SupplierSet(documents[..i])
      invariant totalValue == InventoryValue(AllItems(documents[..i]))
    {
      var doc := documents[i];
      assert documents[..i + 1][..i] == documents[..i];
      suppliers := suppliers + {doc.supplierName};
      totalItems, categories, totalValue :=
        TallyItems(doc.items, AllItems(documents[..i]), totalItems, categories, totalValue);
    }
    assert documents[..|documents|] == documents;
  }
}
