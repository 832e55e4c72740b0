/**
 * The client and the server together: the endpoints the client asks for
 * reach the intended handlers, a search request carries exactly the
 * filters the user filled in, and the page's summary lists exactly the
 * filters the server applied.
 */
module SearchFlow {
  import opened Js
  import opened Strings
  import Server
  import ApiClient
  import SearchPage

  /** The server's view of a query string: each entry's key bound to its value. */
  function AsQuery(ps: seq<ApiClient.Param>): (query: map<string, string>)
    ensures forall k :: k in query <==> k in ApiClient.KeysOf(ps)
  {
    if ps == [] then map[] else AsQuery(ps[1..])[ps[0].key := ps[0].value]
  }

  /** The key a server-side filter is read from. */
  function KeyName(k: Server.Filter): string
  {
    match k
    case DateFilter => "date"
    case CityFilter => "city"
    case CategoryFilter => "category"
  }

  /**
   * The server reads back exactly the truthy filters the client had, with
   * their values; every falsy one arrives as absent.
   */
  lemma RequestCarriesFilters(filters: map<string, Option<string>>)
    ensures Server.ReadFilters(AsQuery(ApiClient.SearchParams(filters)))
      == Server.SearchFilters(OrNull(Prop(filters, "date")), OrNull(Prop(filters, "city")), OrNull(Prop(filters, "category")))
  {
    var d := ApiClient.Entry(filters, "date");
    var c := ApiClient.Entry(filters, "city");
    var g := ApiClient.Entry(filters, "category");
    AsQueryConcat(d + c, g);
    AsQueryConcat(d, c);
  }

  /** The first entry for a key wins; the three search entries have distinct keys, so order does not matter here. */
  lemma {:induction false} AsQueryConcat(a: seq<ApiClient.Param>, b: seq<ApiClient.Param>)
    ensures AsQuery(a + b) == AsQuery(b) + AsQuery(a)
  {
    if a != [] {
      assert (a + b)[1..] == a[1..] + b;
      AsQueryConcat(a[1..], b);
      UpdateOfUnion(AsQuery(b), AsQuery(a[1..]), a[0].key, a[0].value);
    } else {
      assert a + b == b;
      assert AsQuery(b) + map[] == AsQuery(b);
    }
  }

  lemma UpdateOfUnion(m: map<string, string>, n: map<string, string>, k: string, v: string)
    ensures (m + n)[k := v] == m + n[k := v]
  {
  }

  /** The server applies exactly the filters the client sent, in the same order. */
  lemma SearchAppliesClientFilters(filters: map<string, Option<string>>)
    ensures var f := Server.ReadFilters(AsQuery(ApiClient.SearchParams(filters)));
      Names(Server.Applied(f)) == ApiClient.KeysOf(ApiClient.SearchParams(filters))
  {
    RequestCarriesFilters(filters);
    var f := Server.ReadFilters(AsQuery(ApiClient.SearchParams(filters)));
    NamesOfApplied(f);
    KeysOfParams(filters);
  }

  function Names(kinds: seq<Server.Filter>): (names: seq<string>)
    ensures |names| == |kinds|
  {
    if kinds == [] then [] else [KeyName(kinds[0])] + Names(kinds[1..])
  }

  lemma NamesOfApplied(f: Server.SearchFilters)
    ensures Names(Server.Applied(f))
      == (if Truthy(f.date) then ["date"] else [])
      + (if Truthy(f.city) then ["city"] else [])
      + (if Truthy(f.category) then ["category"] else [])
  {
    var d: seq<Server.Filter> := if Truthy(f.date) then [Server.DateFilter] else [];
    var c: seq<Server.Filter> := if Truthy(f.city) then [Server.CityFilter] else [];
    var g: seq<Server.Filter> := if Truthy(f.category) then [Server.CategoryFilter] else [];
    NamesConcat(d + c, g);
    NamesConcat(d, c);
  }

  lemma {:induction false} NamesConcat(a: seq<Server.Filter>, b: seq<Server.Filter>)
    ensures Names(a + b) == Names(a) + Names(b)
  {
    if a != [] {
      assert (a + b)[1..] == a[1..] + b;
      NamesConcat(a[1..], b);
    } else {
      assert a + b == b;
    }
  }

  lemma KeysOfParams(filters: map<string, Option<string>>)
    ensures ApiClient.KeysOf(ApiClient.SearchParams(filters))
      == (if Truthy(Prop(filters, "date")) then ["date"] else [])
      + (if Truthy(Prop(filters, "city")) then ["city"] else [])
      + (if Truthy(Prop(filters, "category")) then ["category"] else [])
  {
    var d := ApiClient.Entry(filters, "date");
    var c := ApiClient.Entry(filters, "city");
    var g := ApiClient.Entry(filters, "category");
    ApiClient.KeysOfConcat(d + c, g);
    ApiClient.KeysOfConcat(d, c);
  }

  /**
   * The page's summary of a search response lists exactly the filters the
   * server applied, in the server's order.
   */
  lemma SummaryListsAppliedFilters(f: Server.SearchFilters, formatDate: string -> string)
    ensures var texts := SearchPage.FilterTexts(Server.Echo(f), formatDate);
      && |texts| == |Server.Applied(f)|
      && forall i | 0 <= i < |texts| :: StartsWith(texts[i], SearchPage.Caption(KeyName(Server.Applied(f)[i])))
  {
    var echo := Server.Echo(f);
    SearchPage.SummaryOrder(echo, formatDate);
    KeysOfParams(echo);
    NamesOfApplied(f);
    assert Names(Server.Applied(f)) == ApiClient.KeysOf(ApiClient.SearchParams(echo));
    var ps := ApiClient.SearchParams(echo);
    forall i | 0 <= i < |ps|
      ensures ps[i].key == KeyName(Server.Applied(f)[i])
    {
      KeysOfIndex(ps, i);
      NamesIndex(Server.Applied(f), i);
    }
  }

  lemma {:induction false} KeysOfIndex(ps: seq<ApiClient.Param>, i: nat)
    requires i < |ps|
    ensures ApiClient.KeysOf(ps)[i] == ps[i].key
  {
    if i > 0 {
      KeysOfIndex(ps[1..], i - 1);
    }
  }

  lemma {:induction false} NamesIndex(kinds: seq<Server.Filter>, i: nat)
    requires i < |kinds|
    ensures Names(kinds)[i] == KeyName(kinds[i])
  {
    if i > 0 {
      NamesIndex(kinds[1..], i - 1);
    }
  }

  // ---------------------------------------------------------------------
  // Endpoints reach their handlers
  // ---------------------------------------------------------------------

  /**
   * An id that reaches the server as one path segment, unchanged. The URL
   * parser removes tab, LF and CR anywhere and trailing controls and spaces,
   * resolves dot segments and treats `\` like `/`; `?`, `#` and `%` start a
   * query, a fragment or an escape; and Express matches "search" in any case.
   */
  predicate SentUnchanged(id: string)
  {
    && id != "" && id != "." && id != ".."
    && AsciiLower(id) != "search"
    && id[|id| - 1] > ' '
    && forall i | 0 <= i < |id| :: id[i] !in "/\\?#%\t\n\r"
  }

  lemma NotSearch(id: string)
    requires AsciiLower(id) != "search"
    ensures id != "search"
  {
    LowerKeepsLowercase("search");
  }

  /** The detail request for an id reaches the detail handler with that id. */
  lemma DetailRequestReachesDetail(id: string)
    requires SentUnchanged(id)
    ensures Server.Resolve(ApiClient.ApiBase + ApiClient.EventEndpoint(id))
      == Some(Server.Dispatch(Server.EventByIdRoute, [id]))
  {
    NotSearch(id);
    assert ApiClient.ApiBase + ApiClient.EventEndpoint(id) == "/api/events/" + id;
    Server.IdPathResolvesToDetail(id);
  }

  /** The search request reaches the search handler (the path is what precedes `?`). */
  lemma SearchRequestReachesSearch()
    ensures Server.Resolve(ApiClient.ApiBase + ApiClient.SearchEndpointBase) == Some(Server.Dispatch(Server.SearchRoute, []))
  {
    assert ApiClient.ApiBase + ApiClient.SearchEndpointBase == "/api/events/search";
    Server.SearchPathResolvesToSearch();
  }

  /** The categories request reaches the categories handler. */
  lemma CategoriesRequestReachesCategories()
    ensures Server.Resolve(ApiClient.ApiBase + ApiClient.CategoriesEndpoint) == Some(Server.Dispatch(Server.CategoriesRoute, []))
  {
    assert ApiClient.ApiBase + ApiClient.CategoriesEndpoint == "/api/categories";
    Server.CategoriesPathResolvesToCategories();
  }

  /** The cities request reaches the cities handler. */
  lemma CitiesRequestReachesCities()
    ensures Server.Resolve(ApiClient.ApiBase + ApiClient.CitiesEndpoint) == Some(Server.Dispatch(Server.CitiesRoute, []))
  {
    assert ApiClient.ApiBase + ApiClient.CitiesEndpoint == "/api/cities";
    Server.CitiesPathResolvesToCities();
  }

  /** The listing request reaches the listing handler. */
  lemma ListRequestReachesList()
    ensures Server.Resolve(ApiClient.ApiBase + ApiClient.AllEventsEndpoint) == Some(Server.Dispatch(Server.ListEventsRoute, []))
  {
    assert ApiClient.ApiBase + ApiClient.AllEventsEndpoint == "/api/events";
    Server.ListPathResolvesToList();
  }
}
