/**
 * The three HTTP handlers: request validation, the store query each issues,
 * and the response each assembles from the in-memory passes.
 */
module Handlers {
  import opened Wrappers
  import opened Text
  import opened Inventory
  import opened Projection
  import opened Stats

  /** The message of the 400 response for a missing or empty `user_id`. */
  const UserIdRequired := "user_id parameter is required in URL path"

  /** An HTTP response: 200 with a JSON body, or 400 with an error message. */
  datatype Response<T> = Ok(body: T) | BadRequest(error: string) {
    function StatusCode(): nat {
      if Ok? then 200 else 400
    }
  }

  /** The queries the handlers put to the document store. */
  datatype StoreQuery =
    | UserDocuments(userId: string, newestFirst: bool)
      // every document of the user, optionally ordered by timestamp, newest first
    | UserDocumentsMatching(userId: string, searchTerm: string, testsUnits: bool)
      // the user's documents that the store's coarse text filter admits, newest first;
      // the filter tests the supplier name and five item fields, and also
      // `Measured In` and `Inventory Unit of Measure` when `testsUnits` holds

  /**
   * The document container. What it returns for each query is fixed by
   * `answer`; `issued` records the queries put to it, in order.
   */
  class DocumentStore {
    const answer: StoreQuery -> seq<Document>
    var issued: seq<StoreQuery>

    constructor (answer: StoreQuery -> seq<Document>)
      ensures this.answer == answer && issued == []
    {
      this.answer := answer;
      issued := [];
    }

    /** `container.query_items(...)`, collected into a list. */
    method QueryItems(query: StoreQuery) returns (documents: seq<Document>)
      modifies this
      ensures issued == old(issued) + [query]
      ensures documents == answer(query)
    {
      issued := issued + [query];
      documents := answer(query);
    }
  }

  /** Python's `not user_id` for the `user_id` route parameter. */
  predicate UserIdMissing(routeUserId: Option<string>)
    ensures UserIdMissing(routeUserId) <==> routeUserId.GetOr("") == ""
  {
    routeUserId == None || routeUserId == Some("")
  }

  /** The search term: the `q` parameter (empty when absent) with surrounding whitespace stripped. */
  function SearchTermOf(q: Option<string>): (term: string)
    ensures q == None ==> term == ""
    ensures |term| <= |q.GetOr("")|
    ensures term == [] || (!IsSpace(term[0]) && !IsSpace(term[|term| - 1]))
  {
    Strip(q.GetOr(""))
  }

  /** A blank `q` (empty or all whitespace) means no term, the same as an absent `q`. */
  lemma BlankQueryIsNoTerm(q: string)
    ensures SearchTermOf(Some(q)) == SearchTermOf(None) <==> forall k :: 0 <= k < |q| ==> IsSpace(q[k])
    ensures SearchTermOf(None) == ""
  {
    StripEmptyIff(q);
  }

  /**
   * The store query of a listing endpoint: `search_inventory` sends a coarse
   * filter without the two unit fields, `get_inventory` one with them.
   */
  function ListingQuery(userId: string, searchTerm: string, testsUnits: bool): (query: StoreQuery)
    ensures query.userId == userId
    ensures query.UserDocuments? <==> searchTerm == ""
    ensures query.UserDocuments? ==> query.newestFirst
    ensures query.UserDocumentsMatching? ==> query.searchTerm == searchTerm && query.testsUnits == testsUnits
  {
    if searchTerm == "" then UserDocuments(userId, true) else UserDocumentsMatching(userId, searchTerm, testsUnits)
  }

  /** The body of a `search_inventory` response. */
  datatype SearchPayload = SearchPayload(
    userId: string,
    searchTerm: string,       // the term, or "all" without one
    documentsFound: nat,
    totalItemsFound: nat,
    documents: seq<SearchDocument>)

  /** The "results_summary" of a `get_inventory` response. */
  datatype ResultsSummary = ResultsSummary(documentsFound: nat, totalItems: nat)

  /** The body of a `get_inventory` response. */
  datatype InventoryPayload = InventoryPayload(
    userId: string,
    searchQuery: string,      // the term, or "all inventory" without one
    resultsSummary: ResultsSummary,
    inventory: seq<InventoryDocument>)

  /** The body of a `get_inventory_stats` response. */
  datatype StatsPayload = StatsPayload(
    userId: string,
    totalDocuments: nat,
    totalItems: nat,
    totalCategories: nat,
    totalSuppliers: nat,
    totalInventoryValue: real,
    categories: map<string, nat>,
    suppliers: set<Option<string>>)

  /** The `search_inventory` body for the fetched documents. */
  function SearchPayloadFor(userId: string, searchTerm: string, docs: seq<Document>): SearchPayload {
    var results := SearchResults(searchTerm, docs);
    SearchPayload(userId, if searchTerm != "" then searchTerm else "all",
                  |results|, SearchItemsFound(results), results)
  }

  /** The `get_inventory` body for the fetched documents. */
  function InventoryPayloadFor(userId: string, searchTerm: string, docs: seq<Document>): InventoryPayload {
    var results := InventoryResults(searchTerm, docs);
    InventoryPayload(userId, if searchTerm != "" then searchTerm else "all inventory",
                     ResultsSummary(|results|, InventoryItemsFound(results)), results)
  }

  /** The `get_inventory_stats` body for the fetched documents. */
  function StatsPayloadFor(userId: string, docs: seq<Document>): StatsPayload {
    var categories := CategoryCounts(AllItems(docs));
    var suppliers := SupplierSet(docs);
    StatsPayload(userId, |docs|, TotalItems(docs), |categories|, |suppliers|,
                 InventoryValue(AllItems(docs)), categories, suppliers)
  }

  /** `GET inventory/{user_id}/search?q=...` */
  method SearchInventory(store: DocumentStore, routeUserId: Option<string>, q: Option<string>)
    returns (response: Response<SearchPayload>)
    modifies store
    ensures UserIdMissing(routeUserId) ==>
      response == BadRequest(UserIdRequired) && store.issued == old(store.issued)
    ensures response.StatusCode() == (if UserIdMissing(routeUserId) then 400 else 200)
    ensures !UserIdMissing(routeUserId) ==>
      var query := ListingQuery(routeUserId.value, SearchTermOf(q), false);
      && store.issued == old(store.issued) + [query]
      && response == Ok(SearchPayloadFor(routeUserId.value, SearchTermOf(q), store.answer(query)))
  {
    var searchTerm := SearchTermOf(q);
    if UserIdMissing(routeUserId) {
      return BadRequest(UserIdRequired);
    }
    var userId := routeUserId.value;
    var documents := store.QueryItems(ListingQuery(userId, searchTerm, false));
    var results, totalItemsFound := FilterSearch(searchTerm, documents);
    response := Ok(SearchPayload(userId, if searchTerm != "" then searchTerm else "all",
                                 |results|, totalItemsFound, results));
  }

  /** `GET inventory/{user_id}?q=...` */
  method GetInventory(store: DocumentStore, routeUserId: Option<string>, q: Option<string>)
    returns (response: Response<InventoryPayload>)
    modifies store
    ensures UserIdMissing(routeUserId) ==>
      response == BadRequest(UserIdRequired) && store.issued == old(store.issued)
    ensures response.StatusCode() == (if UserIdMissing(routeUserId) then 400 else 200)
    ensures !UserIdMissing(routeUserId) ==>
      var query := ListingQuery(routeUserId.value, SearchTermOf(q), true);
      && store.issued == old(store.issued) + [query]
      && response == Ok(InventoryPayloadFor(routeUserId.value, SearchTermOf(q), store.answer(query)))
  {
    var searchTerm := SearchTermOf(q);
    if UserIdMissing(routeUserId) {
      return BadRequest(UserIdRequired);
    }
    var userId := routeUserId.value;
    var documents := store.QueryItems(ListingQuery(userId, searchTerm, true));
    var results, totalMatchingItems := FilterInventory(searchTerm, documents);
    response := Ok(InventoryPayload(userId, if searchTerm != "" then searchTerm else "all inventory",
                                    ResultsSummary(|results|, totalMatchingItems), results));
  }

  /** `GET inventory/{user_id}/stats` */
  method GetInventoryStats(store: DocumentStore, routeUserId: Option<string>)
    returns (response: Response<StatsPayload>)
    modifies store
    ensures UserIdMissing(routeUserId) ==>
      response == BadRequest(UserIdRequired) && store.issued == old(store.issued)
    ensures response.StatusCode() == (if UserIdMissing(routeUserId) then 400 else 200)
    ensures !UserIdMissing(routeUserId) ==>
      var query := UserDocuments(routeUserId.value, false);
      && store.issued == old(store.issued) + [query]
      && response == Ok(StatsPayloadFor(routeUserId.value, store.answer(query)))
  {
    if UserIdMissing(routeUserId) {
      return BadRequest(UserIdRequired);
    }
    var userId := routeUserId.value;
    var documents := store.QueryItems(UserDocuments(userId, false));
    var totalItems, categories, suppliers, totalValue := AggregateStats(documents);
    response := Ok(StatsPayload(userId, |documents|, totalItems, |categories|, |suppliers|,
                                totalValue, categories, suppliers));
  }

  /**
   * Over the same fetched documents the two listing endpoints report the same
   * number of documents and items; without a term that item count is the
   * statistics endpoint's item count.
   */
  lemma ListingTotalsAgree(userId: string, searchTerm: string, docs: seq<Document>)
    ensures SearchPayloadFor(userId, searchTerm, docs).documentsFound
         == InventoryPayloadFor(userId, searchTerm, docs).resultsSummary.documentsFound
    ensures SearchPayloadFor(userId, searchTerm, docs).totalItemsFound
         == InventoryPayloadFor(userId, searchTerm, docs).resultsSummary.totalItems
    ensures SearchPayloadFor(userId, searchTerm, docs).totalItemsFound <= StatsPayloadFor(userId, docs).totalItems
    ensures searchTerm == "" ==>
      SearchPayloadFor(userId, searchTerm, docs).totalItemsFound == StatsPayloadFor(userId, docs).totalItems
  {
    EndpointsAgree(searchTerm, docs);
    SearchItemsFoundBound(searchTerm, docs);
  }
}
