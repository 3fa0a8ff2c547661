/** The inventory page: filter state read from the URL's search parameters,
    the query string it sends to `GET /api/parts`, and the low-stock badge.
    Search parameters are a key → value map; the fetch query is the list of
    pairs in the order they are appended. */
module Inventory {
  import opened Base
  import opened Parts
  import opened PartQuery

  type Params = map<string, string>

  /** `searchParams.get(key) || fallback`: a missing or empty value gives
      the fallback. */
  function ParamOr(params: Params, key: string, fallback: string): (r: string)
    ensures key in params && params[key] != "" ==> r == params[key]
    ensures !(key in params && params[key] != "") ==> r == fallback
  {
    if key in params && params[key] != "" then params[key] else fallback
  }

  /** The search term read from the URL: empty when absent. */
  function KeywordOf(params: Params): (r: string)
    ensures r != "" <==> "keyword" in params && params["keyword"] != ""
    ensures r != "" ==> r == params["keyword"]
  {
    ParamOr(params, "keyword", "")
  }

  /** The category read from the URL: 'All' when absent or empty, so it is
      never empty. */
  function CategoryOf(params: Params): (r: string)
    ensures r != ""
    ensures "category" in params && params["category"] != "" ==> r == params["category"]
    ensures !("category" in params && params["category"] != "") ==> r == "All"
  {
    ParamOr(params, "category", "All")
  }

  /** The sort read from the URL: 'newest' when absent or empty, so it is
      never empty. */
  function SortOf(params: Params): (r: string)
    ensures r != ""
    ensures "sort" in params && params["sort"] != "" ==> r == params["sort"]
    ensures !("sort" in params && params["sort"] != "") ==> r == "newest"
  {
    ParamOr(params, "sort", "newest")
  }

  /** The pairs of the fetch query: `keyword` when the term is non-empty,
      `category` unless it is 'All', and `sort` always, last. */
  function FetchQuery(term: string, category: string, sort: string): (q: seq<(string, string)>)
    ensures (exists i :: 0 <= i < |q| && q[i].0 == "keyword") <==> term != ""
    ensures (exists i :: 0 <= i < |q| && q[i].0 == "category") <==> category != "All"
    ensures forall i :: 0 <= i < |q| && q[i].0 == "keyword" ==> q[i].1 == term
    ensures forall i :: 0 <= i < |q| && q[i].0 == "category" ==> q[i].1 == category
    ensures forall i :: 0 <= i < |q| && q[i].0 == "sort" ==> q[i].1 == sort
    ensures |q| > 0 && q[|q| - 1] == ("sort", sort)
    ensures forall i :: 0 <= i < |q| ==> q[i].0 in {"keyword", "category", "sort"}
    ensures forall i, j :: 0 <= i < j < |q| ==> q[i].0 != q[j].0
  {
    var k := if term != "" then [("keyword", term)] else [];
    var c := if category != "All" then [("category", category)] else [];
    var q := k + c + [("sort", sort)];
    assert term != "" ==> q[0].0 == "keyword";
    assert category != "All" ==> q[|k|].0 == "category";
    q
  }

  /** The value paired with `key`: the first pair with that key. The fetch
      query never repeats a key, so this is the one value the server
      reads for it. */
  function Lookup(q: seq<(string, string)>, key: string): (r: Option<string>)
    ensures r.Some? <==> exists i :: 0 <= i < |q| && q[i].0 == key
    ensures r.Some? ==> (key, r.value) in q
  {
    if q == [] then None
    else if q[0].0 == key then Some(q[0].1)
    else Lookup(q[1..], key)
  }

  /** The list query the controller sees for a query string. */
  function ServerQuery(q: seq<(string, string)>): Query
  {
    Query(Lookup(q, "keyword"), Lookup(q, "category"), Lookup(q, "sort"))
  }

  /** What the page asks for is what the controller applies: the keyword
      filter is the non-empty search term, the category filter is the
      chosen category unless it is 'All' (or empty), and the order follows
      the sort value, newest first for anything but 'low' and 'high'. */
  lemma {:induction false} QueryReachesServer(term: string, category: string, sort: string)
    ensures KeywordFilter(ServerQuery(FetchQuery(term, category, sort))) ==
      if term != "" then Some(term) else None
    ensures CategoryFilter(ServerQuery(FetchQuery(term, category, sort))) ==
      if category != "All" && category != "" then Some(category) else None
    ensures OrderOf(ServerQuery(FetchQuery(term, category, sort))) ==
      if sort == "low" then PriceLowFirst else if sort == "high" then PriceHighFirst else NewestFirst
  {
  }

  /** The reply to the list request: an array, some other JSON value, or a
      failed request. */
  datatype FetchReply = ArrayData(parts: seq<Part>) | OtherData | Failed

  /** The LOW STOCK badge. */
  function LowStock(p: Part): (r: bool)
    ensures r ==> 1 <= p.countInStock <= 4
  {
    0 < p.countInStock < 5
  }

  /** The parameters after a filter change: a non-empty value other than
      'All' is set under `key`, anything else removes `key`; no other
      parameter changes. */
  function WithFilter(params: Params, key: string, value: string): (r: Params)
    ensures value != "" && value != "All" ==> key in r && r[key] == value
    ensures !(value != "" && value != "All") ==> key !in r
    ensures forall k :: k != key ==> (k in r <==> k in params)
    ensures forall k :: k != key && k in r ==> r[k] == params[k]
  {
    if value != "" && value != "All" then params[key := value] else params - {key}
  }

  /** Read back after a change, a category is the value given, or 'All'
      when it was cleared; a keyword is the value given, or empty when it
      was cleared. The value 'All' clears either key. Other filters read
      back unchanged. The page defines `handleFilterChange` but never calls
      it: the search box and the category buttons set their state
      directly. */
  lemma FilterReadBack(params: Params, value: string)
    ensures CategoryOf(WithFilter(params, "category", value)) == if value != "" && value != "All" then value else "All"
    ensures KeywordOf(WithFilter(params, "keyword", value)) == if value != "" && value != "All" then value else ""
    ensures KeywordOf(WithFilter(params, "category", value)) == KeywordOf(params)
    ensures SortOf(WithFilter(params, "category", value)) == SortOf(params)
    ensures SortOf(WithFilter(params, "keyword", value)) == SortOf(params)
  {
  }

  class InventoryPage {
    var searchParams: Params
    var searchTerm: string
    var selectedCategory: string
    var sortBy: string
    var parts: seq<Part>
    var loading: bool

    /** Mounting: the filter state starts from the URL, with defaults. */
    constructor (params: Params)
      ensures searchParams == params && parts == [] && loading
      ensures searchTerm == KeywordOf(params) && selectedCategory == CategoryOf(params) && sortBy == SortOf(params)
    {
      searchParams, parts, loading := params, [], true;
      searchTerm, selectedCategory, sortBy := KeywordOf(params), CategoryOf(params), SortOf(params);
    }

    /** The effect run when the URL changes: the filter state is read again. */
    method SyncFromParams()
      modifies this
      ensures searchTerm == KeywordOf(searchParams) && selectedCategory == CategoryOf(searchParams)
      ensures sortBy == SortOf(searchParams)
      ensures searchParams == old(searchParams) && parts == old(parts) && loading == old(loading)
    {
      searchTerm := KeywordOf(searchParams);
      selectedCategory := CategoryOf(searchParams);
      sortBy := SortOf(searchParams);
    }

    /** The fetch query, built by successive appends. */
    method BuildQuery() returns (q: seq<(string, string)>)
      ensures q == FetchQuery(searchTerm, selectedCategory, sortBy)
    {
      q := [];
      if searchTerm != "" {
        q := q + [("keyword", searchTerm)];
      }
      if selectedCategory != "All" {
        q := q + [("category", selectedCategory)];
      }
      q := q + [("sort", sortBy)];
    }

    /** `fetchParts`: the query sent and the reply's effect. An array
        replaces the list; any other value empties it; a failed request
        keeps it. Loading ends in every case. */
    method FetchParts(reply: FetchReply) returns (sent: seq<(string, string)>)
      modifies this
      ensures sent == FetchQuery(searchTerm, selectedCategory, sortBy)
      ensures !loading
      ensures parts == match reply
        case ArrayData(ps) => ps
        case OtherData => []
        case Failed => old(parts)
      ensures searchParams == old(searchParams) && searchTerm == old(searchTerm)
      ensures selectedCategory == old(selectedCategory) && sortBy == old(sortBy)
    {
      loading := true;
      sent := BuildQuery();
      match reply {
        case ArrayData(ps) => parts := ps;
        case OtherData => parts := [];
        case Failed =>
      }
      loading := false;
    }

    /** `handleFilterChange(key, value)`. */
    method HandleFilterChange(key: string, value: string)
      modifies this
      ensures searchParams == WithFilter(old(searchParams), key, value)
      ensures searchTerm == old(searchTerm) && selectedCategory == old(selectedCategory)
      ensures sortBy == old(sortBy) && parts == old(parts) && loading == old(loading)
    {
      if value != "" && value != "All" {
        searchParams := searchParams[key := value];
      } else {
        searchParams := searchParams - {key};
      }
    }

    /** The sort selector writes `sort` into the URL, whatever the value. */
    method HandleSortChange(value: string)
      modifies this
      ensures searchParams == old(searchParams)[("sort") := value]
      ensures searchTerm == old(searchTerm) && selectedCategory == old(selectedCategory)
      ensures sortBy == old(sortBy) && parts == old(parts) && loading == old(loading)
    {
      searchParams := searchParams["sort" := value];
    }

    /** Typing in the search box changes the term only, not the URL. */
    method SetSearchTerm(term: string)
      modifies this
      ensures searchTerm == term && searchParams == old(searchParams)
      ensures selectedCategory == old(selectedCategory) && sortBy == old(sortBy)
      ensures parts == old(parts) && loading == old(loading)
    {
      searchTerm := term;
    }

    /** A category button changes the category only, not the URL. */
    method SelectCategory(category: string)
      modifies this
      ensures selectedCategory == category && searchParams == old(searchParams)
      ensures searchTerm == old(searchTerm) && sortBy == old(sortBy)
      ensures parts == old(parts) && loading == old(loading)
    {
      selectedCategory := category;
    }

    /** "Clear Filters": no term and every category; the sort is kept. */
    method ClearFilters()
      modifies this
      ensures searchTerm == "" && selectedCategory == "All"
      ensures sortBy == old(sortBy) && searchParams == old(searchParams)
      ensures parts == old(parts) && loading == old(loading)
    {
      searchTerm, selectedCategory := "", "All";
    }
  }

  /** After Clear Filters the next fetch asks for every part, in the kept
      sort order. */
  lemma ClearedQueryListsAll(parts: seq<Part>, sort: string)
    ensures ServerQuery(FetchQuery("", "All", sort)) == Query(None, None, Some(sort))
    ensures multiset(ListParts(parts, ServerQuery(FetchQuery("", "All", sort)))) == multiset(parts)
  {
    var q := FetchQuery("", "All", sort);
    assert q == [("sort", sort)];
    assert q[1..] == [];
    NoFilterListsAll(parts, ServerQuery(q));
  }
}
