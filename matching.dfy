/**
 * The item matcher shared by the search and the plain inventory endpoints:
 * which items of a document a search term selects.
 */
module Matching {
  import opened Wrappers
  import opened Text
  import opened Inventory

  /**
   * An item matches the upper-cased search term when the term occurs in one of
   * its seven text fields, upper-cased, or in its document's `supplier_name`,
   * upper-cased. An absent field reads as the empty string.
   */
  predicate Matches(searchUpper: string, doc: Document, item: Item)
    ensures searchUpper == [] ==> Matches(searchUpper, doc, item)
    ensures Contains(searchUpper, Upper(TextOf(doc.supplierName))) ==> Matches(searchUpper, doc, item)
  {
    || Contains(searchUpper, Upper(TextOf(item.inventoryItemName)))
    || Contains(searchUpper, Upper(TextOf(item.itemName)))
    || Contains(searchUpper, Upper(TextOf(item.category)))
    || Contains(searchUpper, Upper(TextOf(item.itemNumber)))
    || Contains(searchUpper, Upper(TextOf(item.supplierName)))
    || Contains(searchUpper, Upper(TextOf(item.measuredIn)))
    || Contains(searchUpper, Upper(TextOf(item.unitOfMeasure)))
    || Contains(searchUpper, Upper(TextOf(doc.supplierName)))
  }

  /** The eight strings an item is matched against, in the order they are tested. */
  function MatchedTexts(doc: Document, item: Item): (texts: seq<string>)
    ensures |texts| == 8
  {
    [TextOf(item.inventoryItemName), TextOf(item.itemName), TextOf(item.category),
     TextOf(item.itemNumber), TextOf(item.supplierName), TextOf(item.measuredIn),
     TextOf(item.unitOfMeasure), TextOf(doc.supplierName)]
  }

  /** An item matches iff the term occurs, at some index, in one of its eight texts upper-cased. */
  lemma MatchesIff(searchUpper: string, doc: Document, item: Item)
    ensures Matches(searchUpper, doc, item) <==>
      exists k, i :: 0 <= k < 8 && OccursAt(searchUpper, Upper(MatchedTexts(doc, item)[k]), i)
  {
    var texts := MatchedTexts(doc, item);
    forall k | 0 <= k < 8
      ensures Contains(searchUpper, Upper(texts[k])) <==> exists i :: OccursAt(searchUpper, Upper(texts[k]), i)
    {
      ContainsIff(searchUpper, Upper(texts[k]));
    }
    if Matches(searchUpper, doc, item) {
      var k := if Contains(searchUpper, Upper(texts[0])) then 0
        else if Contains(searchUpper, Upper(texts[1])) then 1
        else if Contains(searchUpper, Upper(texts[2])) then 2
        else if Contains(searchUpper, Upper(texts[3])) then 3
        else if Contains(searchUpper, Upper(texts[4])) then 4
        else if Contains(searchUpper, Upper(texts[5])) then 5
        else if Contains(searchUpper, Upper(texts[6])) then 6
        else 7;
      var i :| OccursAt(searchUpper, Upper(texts[k]), i);
    }
  }

  /** The items of `items` that match (with `doc`'s supplier name), in their original order. */
  function MatchingItems(searchUpper: string, doc: Document, items: seq<Item>): (r: seq<Item>)
    ensures |r| <= |items|
  {
    if items == [] then []
    else
      var rest := MatchingItems(searchUpper, doc, items[..|items| - 1]);
      if Matches(searchUpper, doc, items[|items| - 1]) then rest + [items[|items| - 1]] else rest
  }

  /**
   * The matching items are exactly the items at the matching positions, taken
   * in increasing order: `idx` lists those positions.
   */
  lemma {:induction false} MatchingItemsPositions(searchUpper: string, doc: Document, items: seq<Item>)
    returns (idx: seq<nat>)
    ensures |idx| == |MatchingItems(searchUpper, doc, items)|
    ensures forall k :: 0 <= k < |idx| ==>
      idx[k] < |items| && MatchingItems(searchUpper, doc, items)[k] == items[idx[k]]
    ensures forall k, l :: 0 <= k < l < |idx| ==> idx[k] < idx[l]
    ensures forall j :: 0 <= j < |items| ==> (j in idx <==> Matches(searchUpper, doc, items[j]))
  {
    if items == [] {
      idx := [];
    } else {
      var n := |items| - 1;
      var idx' := MatchingItemsPositions(searchUpper, doc, items[..n]);
      if Matches(searchUpper, doc, items[n]) {
        idx := idx' + [n];
      } else {
        idx := idx';
      }
    }
  }

  /** Every matching item is kept, and nothing is kept when no item matches. */
  lemma {:induction false} MatchingItemsSound(searchUpper: string, doc: Document, items: seq<Item>)
    ensures forall k :: 0 <= k < |MatchingItems(searchUpper, doc, items)| ==>
      Matches(searchUpper, doc, MatchingItems(searchUpper, doc, items)[k])
    ensures MatchingItems(searchUpper, doc, items) == [] <==>
      forall j :: 0 <= j < |items| ==> !Matches(searchUpper, doc, items[j])
  {
    if items != [] {
      MatchingItemsSound(searchUpper, doc, items[..|items| - 1]);
    }
  }

  /** When the document's supplier name holds the term, every item matches. */
  lemma {:induction false} SupplierMatchKeepsAll(searchUpper: string, doc: Document, items: seq<Item>)
    requires Contains(searchUpper, Upper(TextOf(doc.supplierName)))
    ensures MatchingItems(searchUpper, doc, items) == items
  {
    if items != [] {
      var n := |items| - 1;
      SupplierMatchKeepsAll(searchUpper, doc, items[..n]);
      assert items[..n] + [items[n]] == items;
    }
  }

  /** The inner loop of both endpoints: collects the matching items of `doc`. */
  method CollectMatches(searchUpper: string, doc: Document) returns (matching: seq<Item>)
    ensures matching == MatchingItems(searchUpper, doc, doc.items)
  {
    matching := [];
    for j := 0 to |doc.items|
      invariant matching == MatchingItems(searchUpper, doc, doc.items[..j])
    {
      var item := doc.items[j];
      assert doc.items[..j + 1][..j] == doc.items[..j];
      if Matches(searchUpper, doc, item) {
        matching := matching + [item];
      }
    }
    assert doc.items[..|doc.items|] == doc.items;
  }

  /** "chicken", "CHICKEN" and "Chicken" all find an item named "Chicken Breast". */
  lemma CaseInsensitiveExample(doc: Document, item: Item)
    requires item.itemName == Some("Chicken Breast")
    ensures Matches(Upper("chicken"), doc, item)
    ensures Matches(Upper("CHICKEN"), doc, item)
    ensures Matches(Upper("Chicken"), doc, item)
  {
    assert Upper("chicken") == Upper("CHICKEN") == Upper("Chicken") == "CHICKEN";
    assert Upper("Chicken Breast") == "CHICKEN BREAST";
    assert "CHICKEN" <= Upper(TextOf(item.itemName));
  }
}
