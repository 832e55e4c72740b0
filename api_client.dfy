/**
 * The browser-side API wrapper: the endpoint each request asks for, the
 * query string of a search, and the small text helpers the pages share
 * (time of day, status label).
 */
module ApiClient {
  import opened Js
  import opened Strings

  /** The path every endpoint is appended to (the origin in front of it is left out). */
  const ApiBase: string := "/api"

  const AllEventsEndpoint: string := "/events"
  const CategoriesEndpoint: string := "/categories"
  const CitiesEndpoint: string := "/cities"
  const SearchEndpointBase: string := "/events/search"

  /** `/events/${eventId}`: the id is inserted as it is. */
  function EventEndpoint(id: string): (e: string)
    ensures StartsWith(e, AllEventsEndpoint + "/") && e[|AllEventsEndpoint| + 1..] == id
  {
    AllEventsEndpoint + "/" + id
  }

  // ---------------------------------------------------------------------
  // Search query string
  // ---------------------------------------------------------------------

  /** One `URLSearchParams` entry. */
  datatype Param = Param(key: string, value: string)

  /** The filter keys `searchEvents` reads, in the order it appends them. */
  const SearchKeys: seq<string> := ["date", "city", "category"]

  function KeyRank(key: string): nat
  {
    if key == "date" then 0 else if key == "city" then 1 else 2
  }

  /** `key=value` (values are not percent-encoded in this model). */
  function Pair(p: Param): string
  {
    p.key + "=" + p.value
  }

  function Pairs(ps: seq<Param>): (pairs: seq<string>)
    ensures |pairs| == |ps|
  {
    if ps == [] then [] else [Pair(ps[0])] + Pairs(ps[1..])
  }

  /** `params.toString()`: the entries as `key=value`, separated by `&`. */
  function QueryString(ps: seq<Param>): string
  {
    Join(Pairs(ps), "&")
  }

  function KeysOf(ps: seq<Param>): (keys: seq<string>)
    ensures |keys| == |ps|
  {
    if ps == [] then [] else [ps[0].key] + KeysOf(ps[1..])
  }

  /** What one filter key contributes: an entry when its value is truthy, nothing otherwise. */
  function Entry(filters: map<string, Option<string>>, key: string): seq<Param>
  {
    if Truthy(Prop(filters, key)) then [Param(key, Prop(filters, key).value)] else []
  }

  /** The entries `searchEvents` appends, filter by filter. */
  function SearchParams(filters: map<string, Option<string>>): (ps: seq<Param>)
    ensures |ps| <= 3
  {
    Entry(filters, "date") + Entry(filters, "city") + Entry(filters, "category")
  }

  /**
   * `searchEvents`: append an entry for each truthy filter in the order
   * date, city, category, then ask for the search endpoint, with `?` and the
   * query string only when the query string is not empty.
   */
  method SearchEvents(filters: map<string, Option<string>>) returns (endpoint: string)
    ensures SearchParams(filters) == [] ==> endpoint == SearchEndpointBase
    ensures SearchParams(filters) != [] ==>
      QueryString(SearchParams(filters)) != "" && endpoint == SearchEndpointBase + "?" + QueryString(SearchParams(filters))
  {
    var params: seq<Param> := [];
    if Truthy(Prop(filters, "date")) {
      params := params + [Param("date", Prop(filters, "date").value)];
    }
    if Truthy(Prop(filters, "city")) {
      params := params + [Param("city", Prop(filters, "city").value)];
    }
    if Truthy(Prop(filters, "category")) {
      params := params + [Param("category", Prop(filters, "category").value)];
    }
    assert params == SearchParams(filters);
    var queryString := QueryString(params);
    QueryStringEmpty(params);
    endpoint := if queryString != "" then SearchEndpointBase + "?" + queryString else SearchEndpointBase;
  }

  /** The query string is empty exactly when there are no entries. */
  lemma QueryStringEmpty(ps: seq<Param>)
    ensures QueryString(ps) == "" <==> ps == []
  {
  }

  /** An entry is made exactly for each truthy filter. */
  lemma SearchParamsKeys(filters: map<string, Option<string>>)
    ensures forall k :: k in KeysOf(SearchParams(filters)) <==> k in SearchKeys && Truthy(Prop(filters, k))
  {
    var d := Entry(filters, "date");
    var c := Entry(filters, "city");
    var g := Entry(filters, "category");
    KeysOfConcat(d + c, g);
    KeysOfConcat(d, c);
    var keys := KeysOf(d) + KeysOf(c) + KeysOf(g);
    assert KeysOf(SearchParams(filters)) == keys;
    forall k
      ensures k in keys <==> k in SearchKeys && Truthy(Prop(filters, k))
    {
      assert k in KeysOf(d) <==> k == "date" && Truthy(Prop(filters, "date"));
      assert k in KeysOf(c) <==> k == "city" && Truthy(Prop(filters, "city"));
      assert k in KeysOf(g) <==> k == "category" && Truthy(Prop(filters, "category"));
    }
  }

  /** Each entry carries the filter's own value. */
  lemma SearchParamsValues(filters: map<string, Option<string>>)
    ensures forall i | 0 <= i < |SearchParams(filters)| ::
      var p := SearchParams(filters)[i]; Truthy(Prop(filters, p.key)) && p.value == Prop(filters, p.key).value
  {
  }

  /** The entries keep the order date, city, category. */
  lemma SearchParamsOrder(filters: map<string, Option<string>>)
    ensures forall i, j | 0 <= i < j < |SearchParams(filters)| ::
      KeyRank(SearchParams(filters)[i].key) < KeyRank(SearchParams(filters)[j].key)
  {
  }

  lemma {:induction false} KeysOfConcat(a: seq<Param>, b: seq<Param>)
    ensures KeysOf(a + b) == KeysOf(a) + KeysOf(b)
  {
    if a != [] {
      assert (a + b)[1..] == a[1..] + b;
      KeysOfConcat(a[1..], b);
    } else {
      assert a + b == b;
    }
  }

  /**
   * Only truthiness and the truthy values matter: a missing key, `null`
   * and `''` all contribute nothing, so `{}` and `{date: '', city: '',
   * category: ''}` ask for the same endpoint.
   */
  lemma FalsyFiltersIgnored(f: map<string, Option<string>>, g: map<string, Option<string>>)
    requires forall k | k in SearchKeys :: OrNull(Prop(f, k)) == OrNull(Prop(g, k))
    ensures SearchParams(f) == SearchParams(g)
  {
  }

  lemma BlankFiltersAskForPlainSearch()
    ensures SearchParams(map[]) == []
    ensures SearchParams(map["date" := Some(""), "city" := Some(""), "category" := Some("")]) == []
  {
  }

  // ---------------------------------------------------------------------
  // Text helpers
  // ---------------------------------------------------------------------

  const NotSpecified: string := "Not specified"

  /**
   * `formatTime`: a missing or empty time is "Not specified"; otherwise the
   * first two `:`-separated segments joined by `:` (a text without `:` has
   * no second segment, which JavaScript renders as "undefined").
   */
  function FormatTime(time: Option<string>): (r: string)
    ensures !Truthy(time) ==> r == NotSpecified
  {
    if !Truthy(time) then NotSpecified
    else
      var parts := Split(time.value, ':');
      parts[0] + ":" + (if |parts| >= 2 then parts[1] else "undefined")
  }

  /** `HH:MM` followed by nothing or by further `:` fields formats as `HH:MM`. */
  lemma FormatTimeOfClock(hours: string, minutes: string, rest: string)
    requires ':' !in hours && ':' !in minutes
    requires rest == "" || rest[0] == ':'
    ensures FormatTime(Some(hours + ":" + minutes + rest)) == hours + ":" + minutes
  {
    var t := hours + ":" + minutes + rest;
    assert t == hours + [':'] + (minutes + rest);
    SplitAtFirst(hours, minutes + rest, ':');
    SplitPrefix(minutes, rest, ':');
    if rest == "" {
      assert minutes + rest == minutes;
      SplitWithoutSeparator(minutes, ':');
    } else {
      assert rest == [':'] + rest[1..];
      assert Split(rest, ':')[0] == "";
    }
    assert Split(t, ':')[1] == minutes + Split(rest, ':')[0];
  }

  /** A time without `:` gets the JavaScript rendering of a missing minutes field. */
  lemma FormatTimeWithoutColon(time: string)
    requires time != "" && ':' !in time
    ensures FormatTime(Some(time)) == time + ":undefined"
  {
    SplitWithoutSeparator(time, ':');
  }

  /** Formatting a formatted time changes nothing. */
  lemma FormatTimeIdempotent(time: Option<string>)
    requires Truthy(time)
    ensures FormatTime(Some(FormatTime(time))) == FormatTime(time)
  {
    var parts := Split(time.value, ':');
    SplitShape(time.value, ':');
    var minutes := if |parts| >= 2 then parts[1] else "undefined";
    assert ':' !in parts[0];
    assert ':' !in minutes;
    FormatTimeOfClock(parts[0], minutes, "");
    assert parts[0] + ":" + minutes + "" == parts[0] + ":" + minutes;
  }

  /** `s` with its first character in upper case (ASCII letters only). */
  function Capitalised(s: string): string
  {
    if s == [] then s
    else if 'a' <= s[0] <= 'z' then [(s[0] as int - 32) as char] + s[1..]
    else s
  }

  const KnownStatuses: set<string> := {"upcoming", "ongoing", "completed"}

  /** `getStatusText`: the label of a known status; any other status is shown as it is. */
  function GetStatusText(status: string): (text: string)
    ensures status in KnownStatuses ==> text == Capitalised(status)
    ensures status !in KnownStatuses ==> text == status
  {
    if status == "upcoming" then "Upcoming"
    else if status == "ongoing" then "Ongoing"
    else if status == "completed" then "Completed"
    else status
  }

  /** A label is never mistaken for a status: labelling twice is labelling once. */
  lemma StatusTextIdempotent(status: string)
    ensures GetStatusText(GetStatusText(status)) == GetStatusText(status)
  {
  }
}
