/**
 * The filter-and-project pass of the two listing endpoints. `search_inventory`
 * and `get_inventory` run the same loop over the fetched documents and differ
 * only in the key names of the documents they report; each has its own result
 * type, its own specification and its own loop here, and EndpointsAgree shows
 * that they select the same documents and items.
 */
module Projection {
  import opened Wrappers
  import opened Text
  import opened Inventory
  import opened Matching
  import opened Seqs

  /** The item counts a reported document carries. */
  datatype ItemCounts =
    | Whole(totalItemsInDocument: nat)  // no search term: "total_items_in_document"
    | Matched(totalItemsInOriginalDocument: nat, matchedItemsCount: nat)
      // a search term: "total_items_in_original_document", "matched_items_count"

  /** A document as `search_inventory` reports it (keys "id", "userId"). */
  datatype SearchDocument = SearchDocument(
    id: Option<string>,
    userId: Option<string>,
    supplierName: Option<string>,
    timestamp: Option<string>,
    batchNumber: Option<string>,
    counts: ItemCounts,
    items: seq<Item>)

  /** A document as `get_inventory` reports it (keys "document_id", "user_id"). */
  datatype InventoryDocument = InventoryDocument(
    documentId: Option<string>,
    userId: Option<string>,
    supplierName: Option<string>,
    timestamp: Option<string>,
    batchNumber: Option<string>,
    counts: ItemCounts,
    items: seq<Item>)

  /**
   * What `search_inventory` reports for one fetched document: the whole
   * document when there is no term; otherwise the document cut down to its
   * matching items, or nothing when no item matches.
   */
  function SearchEntry(searchTerm: string, doc: Document): (r: seq<SearchDocument>)
    ensures |r| <= 1
  {
    if searchTerm != "" then
      var matching := MatchingItems(Upper(searchTerm), doc, doc.items);
      if matching != [] then
        [SearchDocument(doc.id, doc.userId, doc.supplierName, doc.timestamp, doc.batchNumber,
                        Matched(|doc.items|, |matching|), matching)]
      else
        []
    else
      [SearchDocument(doc.id, doc.userId, doc.supplierName, doc.timestamp, doc.batchNumber,
                      Whole(|doc.items|), doc.items)]
  }

  /** What `get_inventory` reports for one fetched document. */
  function InventoryEntry(searchTerm: string, doc: Document): seq<InventoryDocument> {
    if searchTerm != "" then
      var matching := MatchingItems(Upper(searchTerm), doc, doc.items);
      if matching != [] then
        [InventoryDocument(doc.id, doc.userId, doc.supplierName, doc.timestamp, doc.batchNumber,
                           Matched(|doc.items|, |matching|), matching)]
      else
        []
    else
      [InventoryDocument(doc.id, doc.userId, doc.supplierName, doc.timestamp, doc.batchNumber,
                         Whole(|doc.items|), doc.items)]
  }

  /**
   * A reported document keeps the fetched document's metadata. Without a term
   * it is the whole document. With a term it is reported exactly when some
   * item matches; it then holds the matching items, and its matched count lies
   * between 1 and its original count.
   */
  lemma SearchEntryShape(searchTerm: string, doc: Document)
    ensures forall e :: e in SearchEntry(searchTerm, doc) ==>
      && e.id == doc.id && e.userId == doc.userId && e.supplierName == doc.supplierName
      && e.timestamp == doc.timestamp && e.batchNumber == doc.batchNumber
    ensures searchTerm == "" ==>
      SearchEntry(searchTerm, doc) != [] && SearchEntry(searchTerm, doc)[0].counts == Whole(|doc.items|)
      && SearchEntry(searchTerm, doc)[0].items == doc.items
    ensures searchTerm != "" ==>
      (SearchEntry(searchTerm, doc) != [] <==>
        exists j :: 0 <= j < |doc.items| && Matches(Upper(searchTerm), doc, doc.items[j]))
    ensures searchTerm != "" ==> forall e :: e in SearchEntry(searchTerm, doc) ==>
      && e.items == MatchingItems(Upper(searchTerm), doc, doc.items)
      && e.counts == Matched(|doc.items|, |e.items|)
      && 1 <= e.counts.matchedItemsCount <= e.counts.totalItemsInOriginalDocument
  {
    MatchingItemsSound(Upper(searchTerm), doc, doc.items);
  }

  /** The documents `search_inventory` reports, in the order fetched. */
  function SearchResults(searchTerm: string, docs: seq<Document>): seq<SearchDocument> {
    FilterMap((doc: Document) => SearchEntry(searchTerm, doc), docs)
  }

  /** The documents `get_inventory` reports, in the order fetched. */
  function InventoryResults(searchTerm: string, docs: seq<Document>): seq<InventoryDocument> {
    FilterMap((doc: Document) => InventoryEntry(searchTerm, doc), docs)
  }

  /** The number of items in the reported documents ("total_items_found"). */
  function SearchItemsFound(results: seq<SearchDocument>): nat {
    if results == [] then 0
    else SearchItemsFound(results[..|results| - 1]) + |results[|results| - 1].items|
  }

  /** The number of items in the reported documents ("total_items"). */
  function InventoryItemsFound(results: seq<InventoryDocument>): nat {
    if results == [] then 0
    else InventoryItemsFound(results[..|results| - 1]) + |results[|results| - 1].items|
  }

  /** The loop of `search_inventory` over the fetched documents. */
  method FilterSearch(searchTerm: string, documents: seq<Document>)
    returns (results: seq<SearchDocument>, totalItemsFound: nat)
    ensures results == SearchResults(searchTerm, documents)
    ensures totalItemsFound == SearchItemsFound(results)
  {
    results, totalItemsFound := [], 0;
    for i := 0 to |documents|
      invariant results == SearchResults(searchTerm, documents[..i])
      invariant totalItemsFound == SearchItemsFound(results)
    {
      var doc := documents[i];
      assert documents[..i + 1][..i] == documents[..i];
      if searchTerm != "" {
        var searchUpper := Upper(searchTerm);
        var matching := CollectMatches(searchUpper, doc);
        if matching != [] {
          var resultDoc := SearchDocument(doc.id, doc.userId, doc.supplierName, doc.timestamp,
                                          doc.batchNumber, Matched(|doc.items|, |matching|), matching);
          assert (results + [resultDoc])[..|results|] == results;
          results := results + [resultDoc];
          totalItemsFound := totalItemsFound + |matching|;
        }
      } else {
        var resultDoc := SearchDocument(doc.id, doc.userId, doc.supplierName, doc.timestamp,
                                        doc.batchNumber, Whole(|doc.items|), doc.items);
        assert (results + [resultDoc])[..|results|] == results;
        results := results + [resultDoc];
        totalItemsFound := totalItemsFound + |doc.items|;
      }
    }
    assert documents[..|documents|] == documents;
  }

  /** The loop of `get_inventory` over the fetched documents. */
  method FilterInventory(searchTerm: string, documents: seq<Document>)
    returns (results: seq<InventoryDocument>, totalMatchingItems: nat)
    ensures results == InventoryResults(searchTerm, documents)
    ensures totalMatchingItems == InventoryItemsFound(results)
  {
    results, totalMatchingItems := [], 0;
    for i := 0 to |documents|
      invariant results == InventoryResults(searchTerm, documents[..i])
      invariant totalMatchingItems == InventoryItemsFound(results)
    {
      var doc := documents[i];
      assert documents[..i + 1][..i] == documents[..i];
      if searchTerm != "" {
        var searchUpper := Upper(searchTerm);
        var matching := CollectMatches(searchUpper, doc);
        if matching != [] {
          var resultDoc := InventoryDocument(doc.id, doc.userId, doc.supplierName, doc.timestamp,
                                             doc.batchNumber, Matched(|doc.items|, |matching|), matching);
          assert (results + [resultDoc])[..|results|] == results;
          results := results + [resultDoc];
          totalMatchingItems := totalMatchingItems + |matching|;
        }
      } else {
        var resultDoc := InventoryDocument(doc.id, doc.userId, doc.supplierName, doc.timestamp,
                                           doc.batchNumber, Whole(|doc.items|), doc.items);
        assert (results + [resultDoc])[..|results|] == results;
        results := results + [resultDoc];
        totalMatchingItems := totalMatchingItems + |doc.items|;
      }
    }
    assert documents[..|documents|] == documents;
  }

  /** Without a term every document is reported whole, in the order fetched. */
  lemma {:induction false} SearchWithoutTerm(docs: seq<Document>)
    ensures |SearchResults("", docs)| == |docs|
    ensures forall k :: 0 <= k < |docs| ==>
      SearchResults("", docs)[k] == SearchDocument(docs[k].id, docs[k].userId, docs[k].supplierName,
        docs[k].timestamp, docs[k].batchNumber, Whole(|docs[k].items|), docs[k].items)
  {
    if docs != [] {
      SearchWithoutTerm(docs[..|docs| - 1]);
    }
  }

  /**
   * With a term, the reported documents are the fetched documents that have a
   * matching item, each cut down to its matching items, in the order fetched:
   * `idx` lists the positions of the reported documents among the fetched ones.
   */
  lemma SearchWithTerm(searchTerm: string, docs: seq<Document>) returns (idx: seq<nat>)
    requires searchTerm != ""
    ensures |idx| == |SearchResults(searchTerm, docs)|
    ensures forall k :: 0 <= k < |idx| ==>
      idx[k] < |docs| && SearchEntry(searchTerm, docs[idx[k]]) == [SearchResults(searchTerm, docs)[k]]
    ensures forall k, l :: 0 <= k < l < |idx| ==> idx[k] < idx[l]
    ensures forall j :: 0 <= j < |docs| ==> (j in idx <==> SearchEntry(searchTerm, docs[j]) != [])
  {
    idx := FilterMapPositions((doc: Document) => SearchEntry(searchTerm, doc), docs);
  }

  /**
   * A document whose supplier name holds the term is reported with all its
   * items, so its matched count equals its original count.
   */
  lemma SupplierMatchReportsAll(searchTerm: string, doc: Document)
    requires searchTerm != "" && doc.items != []
    requires Contains(Upper(searchTerm), Upper(TextOf(doc.supplierName)))
    ensures |SearchEntry(searchTerm, doc)| == 1
    ensures SearchEntry(searchTerm, doc)[0].items == doc.items
    ensures SearchEntry(searchTerm, doc)[0].counts == Matched(|doc.items|, |doc.items|)
  {
    SupplierMatchKeepsAll(Upper(searchTerm), doc, doc.items);
  }

  /** A search document and an inventory document that differ only in key names. */
  predicate SameSelection(s: SearchDocument, v: InventoryDocument) {
    && s.id == v.documentId && s.userId == v.userId && s.supplierName == v.supplierName
    && s.timestamp == v.timestamp && s.batchNumber == v.batchNumber
    && s.counts == v.counts && s.items == v.items
  }

  /** For one fetched document the two endpoints report the same selection. */
  lemma EntriesAgree(searchTerm: string, doc: Document)
    ensures |SearchEntry(searchTerm, doc)| == |InventoryEntry(searchTerm, doc)|
    ensures SearchEntry(searchTerm, doc) != [] ==>
      SameSelection(SearchEntry(searchTerm, doc)[0], InventoryEntry(searchTerm, doc)[0])
  {
  }

  /**
   * `search_inventory` and `get_inventory` select the same documents and the
   * same items from the same fetched documents, and report the same total.
   */
  lemma {:induction false} EndpointsAgree(searchTerm: string, docs: seq<Document>)
    ensures |SearchResults(searchTerm, docs)| == |InventoryResults(searchTerm, docs)|
    ensures forall k :: 0 <= k < |SearchResults(searchTerm, docs)| ==>
      SameSelection(SearchResults(searchTerm, docs)[k], InventoryResults(searchTerm, docs)[k])
    ensures SearchItemsFound(SearchResults(searchTerm, docs))
         == InventoryItemsFound(InventoryResults(searchTerm, docs))
  {
    if docs != [] {
      var n := |docs| - 1;
      EndpointsAgree(searchTerm, docs[..n]);
      EntriesAgree(searchTerm, docs[n]);
      var s, v := SearchResults(searchTerm, docs[..n]), InventoryResults(searchTerm, docs[..n]);
      var se, ve := SearchEntry(searchTerm, docs[n]), InventoryEntry(searchTerm, docs[n]);
      assert SearchResults(searchTerm, docs) == s + se;
      assert InventoryResults(searchTerm, docs) == v + ve;
      if se != [] {
        assert (s + se)[..|s|] == s;
        assert (v + ve)[..|v|] == v;
      } else {
        assert s + se == s;
        assert v + ve == v;
      }
    }
  }

  /**
   * The items reported never outnumber the items fetched; without a term they
   * are exactly the items fetched.
   */
  lemma {:induction false} SearchItemsFoundBound(searchTerm: string, docs: seq<Document>)
    ensures SearchItemsFound(SearchResults(searchTerm, docs)) <= TotalItems(docs)
    ensures searchTerm == "" ==> SearchItemsFound(SearchResults(searchTerm, docs)) == TotalItems(docs)
  {
    if docs != [] {
      var n := |docs| - 1;
      SearchItemsFoundBound(searchTerm, docs[..n]);
      var s, se := SearchResults(searchTerm, docs[..n]), SearchEntry(searchTerm, docs[n]);
      if se != [] {
        assert (s + se)[..|s|] == s;
      } else {
        assert s + se == s;
      }
    }
  }

  /** "RICE" occurs in "WHITE RICE". */
  lemma WhiteRiceHoldsRice()
    ensures Contains("RICE", Upper("White Rice"))
  {
    var hay := Upper("White Rice");
    assert hay[6..10] == "RICE";
    OccursAtContains("RICE", hay, 6);
  }

  /** "RICE" occurs neither in "BEANS" nor in the empty string. */
  lemma BeansLacksRice()
    ensures !Contains("RICE", Upper("Beans")) && !Contains("RICE", "")
  {
    assert Upper("Beans") == "BEANS";
    if Contains("RICE", "ANS") {
      ContainsShorter("RICE", "ANS");
    }
    assert "EANS"[0] != "RICE"[0] && "BEANS"[0] != "RICE"[0];
    assert "BEANS"[1..] == "EANS" && "EANS"[1..] == "ANS";
  }

  /** Of the items "White Rice" and "Beans", only the first holds "rice". */
  lemma RiceMatches(doc: Document, rice: Item, beans: Item)
    requires rice == Item(None, Some("White Rice"), None, None, None, None, None, NoPrice)
    requires beans == Item(None, Some("Beans"), None, None, None, None, None, NoPrice)
    requires doc.supplierName == None && doc.items == [rice, beans]
    ensures MatchingItems(Upper("rice"), doc, doc.items) == [rice]
  {
    assert Upper("rice") == "RICE";
    WhiteRiceHoldsRice();
    BeansLacksRice();
    assert Matches("RICE", doc, rice) && !Matches("RICE", doc, beans);
    assert [rice, beans][..1] == [rice] && [rice][..0] == [];
    assert MatchingItems("RICE", doc, [rice]) == [rice];
  }

  /**
   * A search for "rice" over one document holding "White Rice" and "Beans"
   * reports that document with the one item "White Rice".
   */
  lemma RiceExample(doc: Document, rice: Item, beans: Item)
    requires rice == Item(None, Some("White Rice"), None, None, None, None, None, NoPrice)
    requires beans == Item(None, Some("Beans"), None, None, None, None, None, NoPrice)
    requires doc.supplierName == None && doc.items == [rice, beans]
    ensures SearchResults("rice", [doc]) == [SearchDocument(doc.id, doc.userId, None, doc.timestamp,
      doc.batchNumber, Matched(2, 1), [rice])]
    ensures SearchItemsFound(SearchResults("rice", [doc])) == 1
  {
    RiceMatches(doc, rice, beans);
    var expected := SearchDocument(doc.id, doc.userId, None, doc.timestamp, doc.batchNumber, Matched(2, 1), [rice]);
    assert SearchEntry("rice", doc) == [expected];
    var f := (d: Document) => SearchEntry("rice", d);
    assert [doc][..0] == [];
    assert FilterMap(f, [doc]) == FilterMap(f, []) + f(doc);
    assert SearchResults("rice", [doc]) == [expected];
    assert [expected][..0] == [];
  }
}
