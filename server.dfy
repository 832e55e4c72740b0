/**
 * The REST server's request handling: the SQL text and positional parameters
 * each endpoint sends to the database, the JSON envelopes it answers with, and
 * the ordered route table that picks the handler for a path.
 *
 * The database is an oracle: a function from (query text, parameters) to
 * either a row sequence or a failure, standing for `db.query`.
 */
module Server {
  import opened Js
  import opened Strings

  // ---------------------------------------------------------------------
  // SQL text. Each query is held as its lines (leading indentation dropped,
  // the two long JOIN lines broken before ON); `Unlines` puts a newline in
  // front of every line, as the template literals do.
  // ---------------------------------------------------------------------

  function Unlines(lines: seq<string>): string
  {
    if lines == [] then "" else "\n" + lines[0] + Unlines(lines[1..])
  }

  predicate NoLineHolds(lines: seq<string>, c: char)
  {
    forall i | 0 <= i < |lines| :: c !in lines[i]
  }

  lemma {:induction false} UnlinesAvoids(lines: seq<string>, c: char)
    requires c != '\n' && NoLineHolds(lines, c)
    ensures c !in Unlines(lines)
  {
    if lines != [] {
      UnlinesAvoids(lines[1..], c);
    }
  }

  /** The columns the listing and the search return. */
  const EventColumns: seq<string> := [
    "SELECT",
    "ce.event_id,",
    "ce.event_name,",
    "ce.description,",
    "ce.event_date,",
    "ce.event_time,",
    "ce.location,",
    "ce.city,",
    "ce.ticket_price,",
    "ce.is_free,",
    "ce.image_url,",
    "ce.status,",
    "cat.category_name,",
    "org.organization_name"
  ]

  /** Every event joined with its category and its organisation. */
  const EventJoins: seq<string> := [
    "FROM charity_events ce",
    "JOIN event_categories cat",
    "ON ce.category_id = cat.category_id",
    "JOIN charity_organizations org",
    "ON ce.organization_id = org.organization_id"
  ]

  /** Public eligibility: not suspended, upcoming or ongoing, not in the past. */
  const Eligibility: seq<string> := [
    "WHERE ce.is_suspended = FALSE",
    "AND ce.status IN ('upcoming', 'ongoing')",
    "AND ce.event_date >= CURDATE()"
  ]

  const EligibleLines: seq<string> := EventColumns + EventJoins + Eligibility

  /** The listing of publicly eligible events, which the search extends. */
  const EligibleEvents: string := Unlines(EligibleLines)

  /** The suffix the search handler always appends last. */
  const OrderByDate: string := " ORDER BY ce.event_date ASC"

  /** GET /api/events: the eligible events, earliest first. */
  const ListEventsQuery: string := EligibleEvents + Unlines(["ORDER BY ce.event_date ASC"])

  /** The columns of the detail query: the whole event, its category's and its organisation's details. */
  const DetailColumns: seq<string> := [
    "SELECT",
    "ce.*,",
    "cat.category_name,",
    "cat.description as category_description,",
    "org.organization_name,",
    "org.description as organization_description,",
    "org.contact_email,",
    "org.contact_phone,",
    "org.website"
  ]

  /** The detail query's condition, up to its one placeholder. */
  const ById: string := "WHERE ce.event_id = "

  /** GET /api/events/:id: one event by id, whatever its eligibility. */
  const DetailSelect: string := Unlines(DetailColumns) + Unlines(EventJoins)
  const ByIdClause: string := Unlines([ById + "?"])
  const EventDetailQuery: string := DetailSelect + ByIdClause

  const CategoryLines: seq<string> :=
    ["SELECT", "category_id,", "category_name,", "description", "FROM event_categories", "ORDER BY category_name ASC"]

  /** GET /api/categories: every category, by name. */
  const CategoriesQuery: string := Unlines(CategoryLines)

  const CityLines: seq<string> :=
    ["SELECT DISTINCT city", "FROM charity_events", "WHERE is_suspended = FALSE", "ORDER BY city ASC"]

  /** GET /api/cities: the distinct cities of events that are not suspended, alphabetically. */
  const CitiesQuery: string := Unlines(CityLines)

  lemma EventColumnsHaveNoPlaceholder()
    ensures NoLineHolds(EventColumns, '?')
  {
  }

  lemma EventJoinsHaveNoPlaceholder()
    ensures NoLineHolds(EventJoins, '?')
  {
    assert '?' !in EventJoins[0] && '?' !in EventJoins[1] && '?' !in EventJoins[3];
    CategoryJoinHasNoPlaceholder();
    OrganizationJoinHasNoPlaceholder();
  }

  lemma CategoryJoinHasNoPlaceholder()
    ensures '?' !in EventJoins[2]
  {
  }

  lemma OrganizationJoinHasNoPlaceholder()
    ensures '?' !in EventJoins[4]
  {
  }

  lemma EligibilityHasNoPlaceholder()
    ensures NoLineHolds(Eligibility, '?')
  {
    assert '?' !in Eligibility[0] && '?' !in Eligibility[2];
    StatusLineHasNoPlaceholder();
  }

  lemma StatusLineHasNoPlaceholder()
    ensures '?' !in Eligibility[1]
  {
  }

  lemma DetailColumnsHaveNoPlaceholder()
    ensures NoLineHolds(DetailColumns, '?')
  {
    assert forall i | 0 <= i < 3 :: '?' !in DetailColumns[i];
    assert forall i | 6 <= i < 9 :: '?' !in DetailColumns[i];
    DetailDescriptionsHaveNoPlaceholder();
  }

  lemma DetailDescriptionsHaveNoPlaceholder()
    ensures '?' !in DetailColumns[3] && '?' !in DetailColumns[4] && '?' !in DetailColumns[5]
  {
    assert '?' !in DetailColumns[3];
    assert '?' !in DetailColumns[5];
  }

  lemma OrderByDateHasNoPlaceholder()
    ensures '?' !in OrderByDate
  {
  }

  lemma EligibleEventsHasNoPlaceholder()
    ensures '?' !in EligibleEvents
  {
    EventColumnsHaveNoPlaceholder();
    EventJoinsHaveNoPlaceholder();
    EligibilityHasNoPlaceholder();
    UnlinesAvoids(EligibleLines, '?');
  }

  // ---------------------------------------------------------------------
  // Search query builder
  // ---------------------------------------------------------------------

  /** The three optional search filters, in the order the handler applies them. */
  datatype Filter = DateFilter | CityFilter | CategoryFilter

  function Rank(f: Filter): nat
  {
    match f
    case DateFilter => 0
    case CityFilter => 1
    case CategoryFilter => 2
  }

  /** The comparison a filter ANDs onto the query, up to its placeholder. */
  function Condition(f: Filter): string
  {
    match f
    case DateFilter => " AND ce.event_date = "
    case CityFilter => " AND ce.city LIKE "
    case CategoryFilter => " AND ce.category_id = "
  }

  lemma ConditionHasNoPlaceholder(f: Filter)
    ensures '?' !in Condition(f)
  {
  }

  /** The filter values `req.query` carries (absent when the key is missing). */
  datatype SearchFilters = SearchFilters(date: Option<string>, city: Option<string>, category: Option<string>)

  /** `const { date, city, category } = req.query`: every other key is ignored. */
  function ReadFilters(query: map<string, string>): (f: SearchFilters)
    ensures f.date.Some? <==> "date" in query
    ensures f.city.Some? <==> "city" in query
    ensures f.category.Some? <==> "category" in query
    ensures "date" in query ==> f.date.value == query["date"]
    ensures "city" in query ==> f.city.value == query["city"]
    ensures "category" in query ==> f.category.value == query["category"]
  {
    SearchFilters(Field(query, "date"), Field(query, "city"), Field(query, "category"))
  }

  /** A query-string key other than date, city and category changes nothing the search reads. */
  lemma OtherKeysIgnored(query: map<string, string>, key: string, value: string)
    requires key !in FilterNames
    ensures ReadFilters(query[key := value]) == ReadFilters(query)
  {
  }

  function ValueOf(f: SearchFilters, k: Filter): Option<string>
  {
    match k
    case DateFilter => f.date
    case CityFilter => f.city
    case CategoryFilter => f.category
  }

  /** The filters that are present (truthy), in application order. */
  function Applied(f: SearchFilters): (kinds: seq<Filter>)
    ensures |kinds| <= 3
  {
    (if Truthy(f.date) then [DateFilter] else [])
    + (if Truthy(f.city) then [CityFilter] else [])
    + (if Truthy(f.category) then [CategoryFilter] else [])
  }

  /** A filter is applied exactly when its value is truthy, and the applied filters keep the handler's order. */
  lemma AppliedShape(f: SearchFilters)
    ensures forall k :: k in Applied(f) <==> Truthy(ValueOf(f, k))
    ensures forall i, j | 0 <= i < j < |Applied(f)| :: Rank(Applied(f)[i]) < Rank(Applied(f)[j])
  {
  }

  /** The parameter a present filter binds: the city is wrapped for a substring match, the others pass unchanged. */
  function Parameter(f: SearchFilters, k: Filter): string
    requires Truthy(ValueOf(f, k))
  {
    match k
    case CityFilter => "%" + f.city.value + "%"
    case _ => ValueOf(f, k).value
  }

  /** What one filter pushes onto the parameter list: its parameter when present, nothing otherwise. */
  function Binding(f: SearchFilters, k: Filter): seq<string>
  {
    if Truthy(ValueOf(f, k)) then [Parameter(f, k)] else []
  }

  /** The positional parameter list, pushed filter by filter in the handler's order. */
  function Parameters(f: SearchFilters): (params: seq<string>)
    ensures |params| == |Applied(f)|
  {
    Binding(f, DateFilter) + Binding(f, CityFilter) + Binding(f, CategoryFilter)
  }

  /** Parameter i is the value of the i-th applied filter. */
  lemma ParametersShape(f: SearchFilters)
    ensures forall i | 0 <= i < |Parameters(f)| ::
      Truthy(ValueOf(f, Applied(f)[i])) && Parameters(f)[i] == Parameter(f, Applied(f)[i])
  {
  }

  /** `Condition` of each filter, in order. */
  function Conditions(kinds: seq<Filter>): (conds: seq<string>)
    ensures |conds| == |kinds|
  {
    if kinds == [] then [] else [Condition(kinds[0])] + Conditions(kinds[1..])
  }

  lemma {:induction false} ConditionsShape(kinds: seq<Filter>)
    ensures forall i | 0 <= i < |kinds| :: Conditions(kinds)[i] == Condition(kinds[i])
    ensures forall i | 0 <= i < |kinds| :: '?' !in Conditions(kinds)[i]
  {
    if kinds != [] {
      ConditionHasNoPlaceholder(kinds[0]);
      ConditionsShape(kinds[1..]);
    }
  }

  /** Each condition followed by its placeholder, in order. */
  function Clauses(conds: seq<string>): string
  {
    if conds == [] then "" else conds[0] + "?" + Clauses(conds[1..])
  }

  /** The search query text for the given present filters; the values never reach it. */
  function SearchQuery(kinds: seq<Filter>): string
  {
    EligibleEvents + Clauses(Conditions(kinds)) + OrderByDate
  }

  /**
   * The search handler's query construction: start from the eligible-events
   * text and, for each present filter in turn, append its clause and push its
   * parameter; close with the ordering.
   */
  method BuildSearchQuery(f: SearchFilters) returns (query: string, params: seq<string>)
    ensures query == SearchQuery(Applied(f))
    ensures params == Parameters(f)
  {
    query := EligibleEvents;
    params := [];
    if Truthy(f.date) {
      query := query + " AND ce.event_date = ?";
      params := params + [f.date.value];
    }
    if Truthy(f.city) {
      query := query + " AND ce.city LIKE ?";
      params := params + ["%" + f.city.value + "%"];
    }
    if Truthy(f.category) {
      query := query + " AND ce.category_id = ?";
      params := params + [f.category.value];
    }
    query := query + " ORDER BY ce.event_date ASC";
    ClauseTexts();
    ConditionsOfApplied(f);
    ClausesInTurn(EligibleEvents, OrderByDate,
      Truthy(f.date), Condition(DateFilter), Truthy(f.city), Condition(CityFilter), Truthy(f.category), Condition(CategoryFilter));
    ParametersInTurn(f);
  }

  /** Appending a clause when its filter is present extends the clause list by its condition. */
  lemma ClauseStep(lead: string, conds: seq<string>, present: bool, c: string)
    ensures (if present then lead + Clauses(conds) + (c + "?") else lead + Clauses(conds))
      == lead + Clauses(conds + (if present then [c] else []))
  {
    if present {
      ClausesConcat(conds, [c]);
      assert Clauses([c]) == c + "?" + Clauses([]);
    } else {
      assert conds + [] == conds;
    }
  }

  /** Appending up to three clauses in turn gives the clauses of the present ones. */
  lemma ClausesInTurn(lead: string, tail: string, b1: bool, c1: string, b2: bool, c2: string, b3: bool, c3: string)
    ensures var q1 := if b1 then lead + (c1 + "?") else lead;
      var q2 := if b2 then q1 + (c2 + "?") else q1;
      var q3 := if b3 then q2 + (c3 + "?") else q2;
      q3 + tail == lead + Clauses((if b1 then [c1] else []) + (if b2 then [c2] else []) + (if b3 then [c3] else [])) + tail
  {
    var s1: seq<string> := if b1 then [c1] else [];
    var s2: seq<string> := if b2 then [c2] else [];
    assert lead + Clauses([]) == lead;
    ClauseStep(lead, [], b1, c1);
    assert [] + s1 == s1;
    ClauseStep(lead, s1, b2, c2);
    ClauseStep(lead, s1 + s2, b3, c3);
  }

  /** The parameter list, spelled out as the handler pushes it. */
  lemma ParametersInTurn(f: SearchFilters)
    ensures var p1: seq<string> := if Truthy(f.date) then [] + [f.date.value] else [];
      var p2 := if Truthy(f.city) then p1 + ["%" + f.city.value + "%"] else p1;
      var p3 := if Truthy(f.category) then p2 + [f.category.value] else p2;
      Parameters(f) == p3
  {
  }

  /** The clause texts the handler appends are the filters' comparisons, each closed by its placeholder. */
  lemma ClauseTexts()
    ensures Condition(DateFilter) + "?" == " AND ce.event_date = ?"
    ensures Condition(CityFilter) + "?" == " AND ce.city LIKE ?"
    ensures Condition(CategoryFilter) + "?" == " AND ce.category_id = ?"
  {
  }

  lemma {:induction false} ClausesConcat(a: seq<string>, b: seq<string>)
    ensures Clauses(a + b) == Clauses(a) + Clauses(b)
  {
    if a != [] {
      assert (a + b)[1..] == a[1..] + b;
      ClausesConcat(a[1..], b);
    } else {
      assert a + b == b;
    }
  }

  /** The conditions of the applied filters, filter by filter. */
  lemma ConditionsOfApplied(f: SearchFilters)
    ensures Conditions(Applied(f))
      == (if Truthy(f.date) then [Condition(DateFilter)] else [])
      + (if Truthy(f.city) then [Condition(CityFilter)] else [])
      + (if Truthy(f.category) then [Condition(CategoryFilter)] else [])
  {
    var date := if Truthy(f.date) then [DateFilter] else [];
    var city := if Truthy(f.city) then [CityFilter] else [];
    var category := if Truthy(f.category) then [CategoryFilter] else [];
    ConditionsConcat(date + city, category);
    ConditionsConcat(date, city);
  }

  lemma {:induction false} ConditionsConcat(a: seq<Filter>, b: seq<Filter>)
    ensures Conditions(a + b) == Conditions(a) + Conditions(b)
  {
    if a != [] {
      assert (a + b)[1..] == a[1..] + b;
      ConditionsConcat(a[1..], b);
    } else {
      assert a + b == b;
    }
  }

  /** With no filter present the search sends the plain eligible-events query, ordered by date, with no parameters. */
  lemma SearchWithoutFilters(f: SearchFilters)
    requires !Truthy(f.date) && !Truthy(f.city) && !Truthy(f.category)
    ensures SearchQuery(Applied(f)) == EligibleEvents + OrderByDate
    ensures Parameters(f) == []
  {
  }

  /** Two requests with the same filters present get the same query text, whatever the values. */
  lemma QueryIgnoresFilterValues(f: SearchFilters, g: SearchFilters)
    requires Truthy(f.date) == Truthy(g.date)
    requires Truthy(f.city) == Truthy(g.city)
    requires Truthy(f.category) == Truthy(g.category)
    ensures SearchQuery(Applied(f)) == SearchQuery(Applied(g))
  {
  }

  lemma {:induction false} ClausesPlaceholders(conds: seq<string>)
    requires forall i | 0 <= i < |conds| :: '?' !in conds[i]
    ensures Occurrences(Clauses(conds), '?') == |conds|
  {
    if conds != [] {
      ClausesPlaceholders(conds[1..]);
      OccurrencesAppend(conds[0], "?", '?');
      OccurrencesAppend(conds[0] + "?", Clauses(conds[1..]), '?');
    }
  }

  lemma {:induction false} TemplatePlaceholders(lead: string, conds: seq<string>, tail: string)
    requires '?' !in lead && '?' !in tail
    requires forall i | 0 <= i < |conds| :: '?' !in conds[i]
    ensures Occurrences(lead + Clauses(conds) + tail, '?') == |conds|
  {
    ClausesPlaceholders(conds);
    OccurrencesAppend(lead, Clauses(conds), '?');
    OccurrencesAppend(lead + Clauses(conds), tail, '?');
  }

  /** The query holds exactly as many placeholders as the parameter list has entries. */
  lemma PlaceholdersMatchParameters(f: SearchFilters)
    ensures Occurrences(SearchQuery(Applied(f)), '?') == |Parameters(f)|
  {
    EligibleEventsHasNoPlaceholder();
    OrderByDateHasNoPlaceholder();
    ConditionsShape(Applied(f));
    TemplatePlaceholders(EligibleEvents, Conditions(Applied(f)), OrderByDate);
  }

  /** The pieces of `lead + Clauses(conds) + tail` between placeholders. */
  function Pieces(lead: string, conds: seq<string>, tail: string): seq<string>
    decreases conds
  {
    if conds == [] then [lead + tail]
    else [lead + conds[0]] + Pieces("", conds[1..], tail)
  }

  lemma {:induction false} SplitClauses(lead: string, conds: seq<string>, tail: string)
    requires '?' !in lead && '?' !in tail
    requires forall i | 0 <= i < |conds| :: '?' !in conds[i]
    ensures Split(lead + Clauses(conds) + tail, '?') == Pieces(lead, conds, tail)
    decreases conds
  {
    if conds == [] {
      assert lead + Clauses(conds) + tail == lead + tail;
      SplitWithoutSeparator(lead + tail, '?');
    } else {
      var c := conds[0];
      var rest := Clauses(conds[1..]) + tail;
      assert Split(lead + Clauses(conds) + tail, '?') == [lead + c] + Split(rest, '?') by {
        assert lead + Clauses(conds) + tail == (lead + c) + ['?'] + rest;
        SplitAtFirst(lead + c, rest, '?');
      }
      assert Split(rest, '?') == Pieces("", conds[1..], tail) by {
        SplitClauses("", conds[1..], tail);
        assert "" + Clauses(conds[1..]) + tail == rest;
      }
    }
  }

  lemma {:induction false} PiecesShape(lead: string, conds: seq<string>, tail: string)
    ensures |Pieces(lead, conds, tail)| == |conds| + 1
    ensures forall i | 0 <= i < |conds| :: EndsWith(Pieces(lead, conds, tail)[i], conds[i])
    ensures conds != [] ==> Pieces(lead, conds, tail)[|conds|] == tail
    decreases conds
  {
    if conds != [] {
      PiecesShape("", conds[1..], tail);
      var p := Pieces(lead, conds, tail);
      assert EndsWith(p[0], conds[0]);
      forall i | 1 <= i < |conds|
        ensures EndsWith(p[i], conds[i])
      {
        assert p[i] == Pieces("", conds[1..], tail)[i - 1];
      }
      if |conds| == 1 {
        assert "" + tail == tail;
      }
    }
  }

  /**
   * Placeholder i binds parameter i: cutting the query at its placeholders
   * gives one piece per parameter plus one; piece i ends with the comparison of
   * the i-th present filter, whose value is parameter i; the piece after the
   * last placeholder is the ordering suffix.
   */
  lemma PlaceholderBindsParameter(f: SearchFilters)
    ensures var kinds := Applied(f);
      var pieces := Split(SearchQuery(kinds), '?');
      && |pieces| == |kinds| + 1
      && (forall i | 0 <= i < |kinds| :: EndsWith(pieces[i], Condition(kinds[i])))
      && (kinds != [] ==> pieces[|kinds|] == OrderByDate)
  {
    EligibleEventsHasNoPlaceholder();
    OrderByDateHasNoPlaceholder();
    TemplatePieces(EligibleEvents, Applied(f), OrderByDate);
  }

  /** The pieces between the placeholders of a query made of a lead, the clauses of `kinds`, and a tail. */
  lemma TemplatePieces(lead: string, kinds: seq<Filter>, tail: string)
    requires '?' !in lead && '?' !in tail
    ensures var pieces := Split(lead + Clauses(Conditions(kinds)) + tail, '?');
      && |pieces| == |kinds| + 1
      && (forall i | 0 <= i < |kinds| :: EndsWith(pieces[i], Condition(kinds[i])))
      && (kinds != [] ==> pieces[|kinds|] == tail)
  {
    var conds := Conditions(kinds);
    ConditionsShape(kinds);
    SplitClauses(lead, conds, tail);
    PiecesShape(lead, conds, tail);
  }

  /** The `filters` echo of a search response: all three keys, each the given value or null when it is falsy. */
  const FilterNames: set<string> := {"date", "city", "category"}

  function Echo(f: SearchFilters): (echo: map<string, Option<string>>)
    ensures echo.Keys == FilterNames
    ensures echo["date"].Some? <==> Truthy(f.date)
    ensures echo["city"].Some? <==> Truthy(f.city)
    ensures echo["category"].Some? <==> Truthy(f.category)
    ensures echo["date"].Some? ==> echo["date"] == f.date
    ensures echo["city"].Some? ==> echo["city"] == f.city
    ensures echo["category"].Some? ==> echo["category"] == f.category
  {
    map["date" := OrNull(f.date), "city" := OrNull(f.city), "category" := OrNull(f.category)]
  }

  // ---------------------------------------------------------------------
  // Responses
  // ---------------------------------------------------------------------

  /** What `db.query` yields: the rows, or the error it throws. */
  datatype DbResult = Rows(rows: seq<Row>) | DbFailure(message: string)

  type Database = (string, seq<string>) -> DbResult

  datatype Payload = Records(rows: seq<Row>) | Record(row: Row) | Values(values: seq<Cell>)

  /**
   * A response body: the `success: true` and `success: false` envelopes, or
   * the root's information object, which has no `success` key.
   */
  datatype Body =
    | Success(count: Option<nat>, filters: Option<map<string, Option<string>>>, data: Payload)
    | Failure(message: string, error: Option<string>)
    | Info(message: string, version: string)

  datatype Response = Response(status: nat, body: Body)

  /**
   * The envelope contract every API response keeps: status 200 exactly for
   * success; a list-shaped payload carries `count`, equal to its length; a
   * filters echo has all three keys; a failure is either a 404 without
   * diagnostic detail or a 500 with it. The root's information object is not
   * an envelope.
   */
  predicate WellFormed(r: Response)
  {
    match r.body
    case Success(count, filters, data) =>
      && r.status == 200
      && (count.Some? <==> (data.Records? || data.Values?))
      && (data.Records? && count.Some? ==> count.value == |data.rows|)
      && (data.Values? && count.Some? ==> count.value == |data.values|)
      && (filters.Some? ==> filters.value.Keys == FilterNames)
    case Failure(_, error) =>
      (r.status == 404 && error.None?) || (r.status == 500 && error.Some?)
    case Info(_, _) => false
  }

  /** A list of rows with their count. */
  function ListEnvelope(rows: seq<Row>): (r: Response)
    ensures WellFormed(r) && r.body.Success?
    ensures r.body.data == Records(rows) && r.body.count == Some(|rows|)
    ensures r.body.filters.None?
  {
    Response(200, Success(Some(|rows|), None, Records(rows)))
  }

  /** A search result: the rows, their count, and the echo of the filters. */
  function SearchEnvelope(f: SearchFilters, rows: seq<Row>): (r: Response)
    ensures WellFormed(r) && r.body.Success?
    ensures r.body.data == Records(rows) && r.body.count == Some(|rows|)
    ensures r.body.filters == Some(Echo(f))
  {
    Response(200, Success(Some(|rows|), Some(Echo(f)), Records(rows)))
  }

  /** A caught database failure. */
  function ServerError(message: string): (r: Response)
    ensures WellFormed(r) && r.status == 500
    ensures r.body == Failure("Server error", Some(message))
  {
    Response(500, Failure("Server error", Some(message)))
  }

  const EventNotFound: Response := Response(404, Failure("Event not found", None))

  /** A detail lookup: zero rows is "not found", otherwise the first row. */
  function DetailEnvelope(rows: seq<Row>): (r: Response)
    ensures WellFormed(r)
    ensures r.status == 404 <==> rows == []
    ensures rows == [] ==> r == EventNotFound
    ensures rows != [] ==> r.body.Success? && r.body.data == Record(rows[0]) && r.body.count.None? && r.body.filters.None?
  {
    if |rows| == 0 then EventNotFound else Response(200, Success(None, None, Record(rows[0])))
  }

  /** The cities list: the plain city values, one per row, in row order. */
  function CitiesEnvelope(rows: seq<Row>): (r: Response)
    ensures WellFormed(r) && r.body.Success? && r.body.data.Values?
    ensures r.body.count == Some(|rows|) && r.body.filters.None?
    ensures |r.body.data.values| == |rows|
    ensures forall i | 0 <= i < |rows| :: r.body.data.values[i] == Column(rows[i], "city")
  {
    Response(200, Success(Some(|rows|), None, Values(seq(|rows|, i requires 0 <= i < |rows| => Column(rows[i], "city")))))
  }

  const RouteNotFound: Response := Response(404, Failure("Requested resource not found", None))

  // ---------------------------------------------------------------------
  // Handlers: one query each, a caught failure becomes a server error
  // ---------------------------------------------------------------------

  /** GET /api/events: the eligible events, or the caught failure. */
  function ListEvents(db: Database): (r: Response)
    ensures WellFormed(r)
    ensures match db(ListEventsQuery, [])
      case Rows(rows) =>
        r.status == 200 && r.body.data == Records(rows) && r.body.count == Some(|rows|) && r.body.filters.None?
      case DbFailure(message) => r.status == 500 && r.body == Failure("Server error", Some(message))
  {
    match db(ListEventsQuery, [])
    case Rows(rows) => ListEnvelope(rows)
    case DbFailure(message) => ServerError(message)
  }

  /** The id is passed as the one parameter, unvalidated; the detail view ignores eligibility. */
  function EventById(id: string, db: Database): (r: Response)
    ensures WellFormed(r)
    ensures r.status == 404 <==> db(EventDetailQuery, [id]) == Rows([])
    ensures match db(EventDetailQuery, [id])
      case Rows(rows) =>
        (rows == [] ==> r == EventNotFound)
        && (rows != [] ==> r.status == 200 && r.body.data == Record(rows[0]) && r.body.count.None? && r.body.filters.None?)
      case DbFailure(message) => r.status == 500 && r.body == Failure("Server error", Some(message))
  {
    match db(EventDetailQuery, [id])
    case Rows(rows) => DetailEnvelope(rows)
    case DbFailure(message) => ServerError(message)
  }

  /** GET /api/categories: every category, or the caught failure. */
  function ListCategories(db: Database): (r: Response)
    ensures WellFormed(r)
    ensures match db(CategoriesQuery, [])
      case Rows(rows) =>
        r.status == 200 && r.body.data == Records(rows) && r.body.count == Some(|rows|) && r.body.filters.None?
      case DbFailure(message) => r.status == 500 && r.body == Failure("Server error", Some(message))
  {
    match db(CategoriesQuery, [])
    case Rows(rows) => ListEnvelope(rows)
    case DbFailure(message) => ServerError(message)
  }

  /** GET /api/cities: the city of each returned row, or the caught failure. */
  function ListCities(db: Database): (r: Response)
    ensures WellFormed(r)
    ensures match db(CitiesQuery, [])
      case Rows(rows) =>
        && r.status == 200 && r.body.data.Values? && r.body.count == Some(|rows|) && r.body.filters.None?
        && |r.body.data.values| == |rows|
        && (forall i | 0 <= i < |rows| :: r.body.data.values[i] == Column(rows[i], "city"))
      case DbFailure(message) => r.status == 500 && r.body == Failure("Server error", Some(message))
  {
    match db(CitiesQuery, [])
    case Rows(rows) => CitiesEnvelope(rows)
    case DbFailure(message) => ServerError(message)
  }

  /** The search handler's answer for the filters read from the query string. */
  function SearchResult(f: SearchFilters, db: Database): (r: Response)
    ensures WellFormed(r)
    ensures match db(SearchQuery(Applied(f)), Parameters(f))
      case Rows(rows) =>
        r.status == 200 && r.body.data == Records(rows) && r.body.count == Some(|rows|) && r.body.filters == Some(Echo(f))
      case DbFailure(message) => r.status == 500 && r.body == Failure("Server error", Some(message))
  {
    match db(SearchQuery(Applied(f)), Parameters(f))
    case Rows(rows) => SearchEnvelope(f, rows)
    case DbFailure(message) => ServerError(message)
  }

  /** GET /api/events/search: the query is built step by step and sent with its parameters. */
  method SearchEvents(query: map<string, string>, db: Database) returns (r: Response)
    ensures r == SearchResult(ReadFilters(query), db)
  {
    var f := ReadFilters(query);
    var sql, params := BuildSearchQuery(f);
    match db(sql, params)
    case Rows(rows) =>
      r := SearchEnvelope(f, rows);
    case DbFailure(message) =>
      r := ServerError(message);
  }

  // ---------------------------------------------------------------------
  // Routing: the first registered route whose pattern matches the path
  // ---------------------------------------------------------------------

  datatype Handler = ApiRoot | ListEventsRoute | SearchRoute | EventByIdRoute | CategoriesRoute | CitiesRoute

  /** A pattern segment: a literal, or a named parameter that matches any non-empty segment. */
  datatype Segment = Lit(text: string) | Param

  datatype Route = Route(pattern: seq<Segment>, handler: Handler)

  predicate SegmentMatches(s: Segment, part: string)
  {
    match s
    case Lit(text) => part == text
    case Param => part != ""
  }

  predicate Matches(pattern: seq<Segment>, parts: seq<string>)
  {
    |pattern| == |parts| && forall i | 0 <= i < |parts| :: SegmentMatches(pattern[i], parts[i])
  }

  /** The path segments captured by the pattern's parameters, in order. */
  function Captures(pattern: seq<Segment>, parts: seq<string>): seq<string>
    requires |pattern| == |parts|
  {
    if pattern == [] then []
    else (if pattern[0].Param? then [parts[0]] else []) + Captures(pattern[1..], parts[1..])
  }

  /** The routes in registration order: search is registered before `:id`. */
  const Routes: seq<Route> := [
    Route([Lit(""), Lit("")], ApiRoot),
    Route([Lit(""), Lit("api"), Lit("events")], ListEventsRoute),
    Route([Lit(""), Lit("api"), Lit("events"), Lit("search")], SearchRoute),
    Route([Lit(""), Lit("api"), Lit("events"), Param], EventByIdRoute),
    Route([Lit(""), Lit("api"), Lit("categories")], CategoriesRoute),
    Route([Lit(""), Lit("api"), Lit("cities")], CitiesRoute)
  ]

  /** The index of the first route at or after `from` that matches. */
  function FirstMatch(routes: seq<Route>, parts: seq<string>, from: nat): (r: Option<nat>)
    requires from <= |routes|
    ensures r.Some? ==> from <= r.value < |routes| && Matches(routes[r.value].pattern, parts)
    ensures r.Some? ==> forall j | from <= j < r.value :: !Matches(routes[j].pattern, parts)
    ensures r.None? ==> forall j | from <= j < |routes| :: !Matches(routes[j].pattern, parts)
    decreases |routes| - from
  {
    if from == |routes| then None
    else if Matches(routes[from].pattern, parts) then Some(from)
    else FirstMatch(routes, parts, from + 1)
  }

  datatype Dispatch = Dispatch(handler: Handler, args: seq<string>)

  /** The first matching route's handler, with the segments its parameters capture. */
  function Lookup(routes: seq<Route>, parts: seq<string>): (d: Option<Dispatch>)
    ensures d.None? <==> forall i | 0 <= i < |routes| :: !Matches(routes[i].pattern, parts)
    ensures d.Some? ==> exists i | 0 <= i < |routes| ::
      && Matches(routes[i].pattern, parts)
      && d.value == Dispatch(routes[i].handler, Captures(routes[i].pattern, parts))
      && forall j | 0 <= j < i :: !Matches(routes[j].pattern, parts)
  {
    match FirstMatch(routes, parts, 0)
    case None => None
    case Some(i) => Some(Dispatch(routes[i].handler, Captures(routes[i].pattern, parts)))
  }

  /** Route lookup of a request path (the part before any `?`) against a route table. */
  function ResolveIn(routes: seq<Route>, path: string): Option<Dispatch>
  {
    Lookup(routes, Split(path, '/'))
  }

  /** The detail handler always receives exactly one argument, the id segment. */
  function Resolve(path: string): (d: Option<Dispatch>)
    ensures d.Some? && d.value.handler == EventByIdRoute ==>
      |Split(path, '/')| == 4 && d.value.args == [Split(path, '/')[3]]
  {
    ResolveIn(Routes, path)
  }

  lemma {:induction false} CapturesOfFinalParam(pattern: seq<Segment>, parts: seq<string>)
    requires |pattern| == |parts| >= 1 && pattern[|pattern| - 1] == Param
    requires forall i | 0 <= i < |pattern| - 1 :: pattern[i].Lit?
    ensures Captures(pattern, parts) == [parts[|parts| - 1]]
  {
    if |pattern| > 1 {
      CapturesOfFinalParam(pattern[1..], parts[1..]);
    }
  }

  lemma EventsPathTail(id: string)
    requires '/' !in id
    ensures Split("api" + "/" + ("events" + "/" + id), '/') == ["api", "events", id]
  {
    assert '/' !in "events" && '/' !in "api";
    SplitWithoutSeparator(id, '/');
    SplitAtFirst("events", id, '/');
    SplitAtFirst("api", "events" + "/" + id, '/');
  }

  /** The segments of a path /api/events/<id>. */
  lemma EventsPathParts(id: string)
    requires '/' !in id
    ensures Split("/api/events/" + id, '/') == ["", "api", "events", id]
  {
    EventsPathTail(id);
    var t := "api" + "/" + ("events" + "/" + id);
    assert "/api/events/" + id == "" + "/" + t;
    SplitAtFirst("", t, '/');
  }

  lemma SearchPathParts()
    ensures Split("/api/events/search", '/') == ["", "api", "events", "search"]
  {
    EventsPathParts("search");
    assert "/api/events/" + "search" == "/api/events/search";
  }

  lemma SearchSegmentsLookup()
    ensures Lookup(Routes, ["", "api", "events", "search"]) == Some(Dispatch(SearchRoute, []))
  {
    var parts := ["", "api", "events", "search"];
    assert Matches(Routes[2].pattern, parts);
    assert FirstMatch(Routes, parts, 2) == Some(2);
    assert FirstMatch(Routes, parts, 0) == Some(2);
  }

  /** The literal search path reaches the search handler, never the detail handler. */
  lemma SearchPathResolvesToSearch()
    ensures Resolve("/api/events/search") == Some(Dispatch(SearchRoute, []))
  {
    SearchPathParts();
    SearchSegmentsLookup();
  }

  /** The listing path reaches the listing handler. */
  lemma ListPathResolvesToList()
    ensures Resolve("/api/events") == Some(Dispatch(ListEventsRoute, []))
  {
    ListPathParts();
    ListSegmentsLookup();
  }

  /** The categories path reaches the categories handler. */
  lemma CategoriesPathResolvesToCategories()
    ensures Resolve("/api/categories") == Some(Dispatch(CategoriesRoute, []))
  {
    ApiPathParts("categories");
    assert "/api/" + "categories" == "/api/categories";
    CategoriesSegmentsLookup();
  }

  lemma CategoriesSegmentsLookup()
    ensures Lookup(Routes, ["", "api", "categories"]) == Some(Dispatch(CategoriesRoute, []))
  {
    var parts := ["", "api", "categories"];
    assert !SegmentMatches(Routes[1].pattern[2], parts[2]);
    assert Matches(Routes[4].pattern, parts);
    assert FirstMatch(Routes, parts, 4) == Some(4);
    assert FirstMatch(Routes, parts, 1) == Some(4);
    assert FirstMatch(Routes, parts, 0) == Some(4);
  }

  /** The cities path reaches the cities handler. */
  lemma CitiesPathResolvesToCities()
    ensures Resolve("/api/cities") == Some(Dispatch(CitiesRoute, []))
  {
    ApiPathParts("cities");
    assert "/api/" + "cities" == "/api/cities";
    CitiesSegmentsLookup();
  }

  lemma CitiesSegmentsLookup()
    ensures Lookup(Routes, ["", "api", "cities"]) == Some(Dispatch(CitiesRoute, []))
  {
    var parts := ["", "api", "cities"];
    assert !SegmentMatches(Routes[1].pattern[2], parts[2]);
    assert !SegmentMatches(Routes[4].pattern[2], parts[2]);
    assert Matches(Routes[5].pattern, parts);
    assert Captures(Routes[5].pattern, parts) == [];
    assert FirstMatch(Routes, parts, 5) == Some(5);
    assert FirstMatch(Routes, parts, 4) == Some(5);
    assert FirstMatch(Routes, parts, 1) == Some(5);
    assert FirstMatch(Routes, parts, 0) == Some(5);
  }

  /** The segments of a path /api/<name>. */
  lemma ApiPathParts(name: string)
    requires '/' !in name
    ensures Split("/api/" + name, '/') == ["", "api", name]
  {
    assert '/' !in "api";
    TwoSegments("api", name);
    assert "/" + "api" + "/" + name == "/api/" + name;
  }

  lemma ListSegmentsLookup()
    ensures Lookup(Routes, ["", "api", "events"]) == Some(Dispatch(ListEventsRoute, []))
  {
    var parts := ["", "api", "events"];
    assert Matches(Routes[1].pattern, parts);
    assert FirstMatch(Routes, parts, 1) == Some(1);
    assert FirstMatch(Routes, parts, 0) == Some(1);
  }

  lemma ListPathParts()
    ensures Split("/api/events", '/') == ["", "api", "events"]
  {
    assert '/' !in "api" && '/' !in "events";
    TwoSegments("api", "events");
    assert "/" + "api" + "/" + "events" == "/api/events";
  }

  /** An absolute path of two segments splits into an empty lead and the two segments. */
  lemma TwoSegments(a: string, b: string)
    requires '/' !in a && '/' !in b
    ensures Split("/" + a + "/" + b, '/') == ["", a, b]
  {
    SplitWithoutSeparator(b, '/');
    SplitAtFirst(a, b, '/');
    assert "/" + a + "/" + b == "" + "/" + (a + "/" + b);
    SplitAtFirst("", a + "/" + b, '/');
  }

  lemma IdSegmentsLookup(id: string)
    requires id != "" && id != "search"
    ensures Lookup(Routes, ["", "api", "events", id]) == Some(Dispatch(EventByIdRoute, [id]))
  {
    var parts := ["", "api", "events", id];
    CapturesOfFinalParam(Routes[3].pattern, parts);
    assert !SegmentMatches(Routes[2].pattern[3], parts[3]);
    assert Matches(Routes[3].pattern, parts);
    assert FirstMatch(Routes, parts, 3) == Some(3);
    assert FirstMatch(Routes, parts, 2) == Some(3);
    assert FirstMatch(Routes, parts, 0) == Some(3);
  }

  /** Any other single segment under /api/events/ reaches the detail handler, with that segment as the id. */
  lemma IdPathResolvesToDetail(id: string)
    requires id != "" && id != "search" && '/' !in id
    ensures Resolve("/api/events/" + id) == Some(Dispatch(EventByIdRoute, [id]))
  {
    EventsPathParts(id);
    IdSegmentsLookup(id);
  }

  /** The route table with `:id` registered before search. */
  const IdFirstRoutes: seq<Route> := [Routes[0], Routes[1], Routes[3], Routes[2], Routes[4], Routes[5]]

  lemma IdFirstSegmentsLookup()
    ensures Lookup(IdFirstRoutes, ["", "api", "events", "search"]) == Some(Dispatch(EventByIdRoute, ["search"]))
  {
    var parts := ["", "api", "events", "search"];
    assert IdFirstRoutes[2] == Routes[3];
    CapturesOfFinalParam(Routes[3].pattern, parts);
    assert Matches(IdFirstRoutes[2].pattern, parts);
    assert FirstMatch(IdFirstRoutes, parts, 2) == Some(2);
    assert FirstMatch(IdFirstRoutes, parts, 0) == Some(2);
  }

  /** Were `:id` registered before search, the literal search path would be captured as an id. */
  lemma IdBeforeSearchCapturesSearch()
    ensures ResolveIn(IdFirstRoutes, "/api/events/search") == Some(Dispatch(EventByIdRoute, ["search"]))
  {
    SearchPathParts();
    IdFirstSegmentsLookup();
  }

  /** GET /: the API's name and version (the endpoint descriptions are left out). */
  const ApiInfoResponse: Response := Response(200, Info("Charity Events Management System API", "1.0.0"))

  /**
   * The answer of the handler a dispatch names; only the detail handler
   * takes an argument, the id.
   */
  function Answer(d: Dispatch, query: map<string, string>, db: Database): (r: Response)
    requires d.handler == EventByIdRoute ==> |d.args| == 1
    ensures d.handler != ApiRoot ==> WellFormed(r)
    ensures r.body.Info? <==> d.handler == ApiRoot
    ensures d.handler == ApiRoot ==> r == ApiInfoResponse
    ensures d.handler == ListEventsRoute ==> r == ListEvents(db)
    ensures d.handler == SearchRoute ==> r == SearchResult(ReadFilters(query), db)
    ensures d.handler == EventByIdRoute ==> r == EventById(d.args[0], db)
    ensures d.handler == CategoriesRoute ==> r == ListCategories(db)
    ensures d.handler == CitiesRoute ==> r == ListCities(db)
  {
    match d.handler
    case ApiRoot => ApiInfoResponse
    case ListEventsRoute => ListEvents(db)
    case SearchRoute => SearchResult(ReadFilters(query), db)
    case EventByIdRoute => EventById(d.args[0], db)
    case CategoriesRoute => ListCategories(db)
    case CitiesRoute => ListCities(db)
  }

  /** Only the search route answers with a filters echo. */
  lemma OnlySearchEchoesFilters(d: Dispatch, query: map<string, string>, db: Database)
    requires d.handler == EventByIdRoute ==> |d.args| == 1
    ensures Answer(d, query, db).body.Success? && Answer(d, query, db).body.filters.Some? ==> d.handler == SearchRoute
  {
    match d.handler
    case ApiRoot =>
    case ListEventsRoute =>
      NoEcho(ListEvents(db), db(ListEventsQuery, []));
    case SearchRoute =>
    case EventByIdRoute =>
      NoEcho(EventById(d.args[0], db), db(EventDetailQuery, [d.args[0]]));
    case CategoriesRoute =>
      NoEcho(ListCategories(db), db(CategoriesQuery, []));
    case CitiesRoute =>
      NoEcho(ListCities(db), db(CitiesQuery, []));
  }

  /** A response that is an error on failure and echo-free on rows carries no echo. */
  lemma NoEcho(r: Response, res: DbResult)
    requires res.DbFailure? ==> r.body.Failure?
    requires res.Rows? ==> !r.body.Success? || r.body.filters.None?
    ensures r.body.Success? ==> r.body.filters.None?
  {
  }

  /** The only 404 a matched route gives is a detail lookup that found no row. */
  lemma NotFoundOnlyForMissingEvent(d: Dispatch, query: map<string, string>, db: Database)
    requires d.handler == EventByIdRoute ==> |d.args| == 1
    ensures Answer(d, query, db).status == 404 <==> d.handler == EventByIdRoute && db(EventDetailQuery, d.args) == Rows([])
  {
    if d.handler == EventByIdRoute {
      assert d.args == [d.args[0]];
    }
  }

  /** Runs the handler a dispatch names. */
  method Serve(d: Dispatch, query: map<string, string>, db: Database) returns (r: Response)
    requires d.handler == EventByIdRoute ==> |d.args| == 1
    ensures r == Answer(d, query, db)
  {
    match d.handler
    case ApiRoot =>
      r := ApiInfoResponse;
    case ListEventsRoute =>
      r := ListEvents(db);
    case SearchRoute =>
      r := SearchEvents(query, db);
    case EventByIdRoute =>
      r := EventById(d.args[0], db);
    case CategoriesRoute =>
      r := ListCategories(db);
    case CitiesRoute =>
      r := ListCities(db);
  }

  /**
   * The server's answer to a GET of `path` with query-string values `query`:
   * an unknown path gets the route-not-found envelope, any other the answer of
   * the first matching route's handler.
   */
  method Handle(path: string, query: map<string, string>, db: Database) returns (r: Response)
    ensures r.body.Info? <==> Resolve(path).Some? && Resolve(path).value.handler == ApiRoot
    ensures !r.body.Info? ==> WellFormed(r)
    ensures Resolve(path).None? ==> r == RouteNotFound
    ensures Resolve(path).Some? ==> r == Answer(Resolve(path).value, query, db)
  {
    var d := Resolve(path);
    if d.None? {
      r := RouteNotFound;
    } else {
      r := Serve(d.value, query, db);
    }
  }

  /** Every fixed query the server sends carries as many placeholders as parameters. */
  lemma ListEventsQueryPlaceholders()
    ensures Occurrences(ListEventsQuery, '?') == 0
  {
    EligibleEventsHasNoPlaceholder();
    UnlinesAvoids(["ORDER BY ce.event_date ASC"], '?');
  }

  lemma EventDetailQueryPlaceholders()
    ensures Occurrences(EventDetailQuery, '?') == 1
  {
    DetailSelectHasNoPlaceholder();
    ByIdLine();
    OneAfterNone(DetailSelect, ByIdClause);
  }

  /** A text with no placeholder followed by one with a single placeholder has a single placeholder. */
  lemma OneAfterNone(head: string, tail: string)
    requires Occurrences(head, '?') == 0 && Occurrences(tail, '?') == 1
    ensures Occurrences(head + tail, '?') == 1
  {
    OccurrencesAppend(head, tail, '?');
  }

  lemma DetailSelectHasNoPlaceholder()
    ensures Occurrences(DetailSelect, '?') == 0
  {
    DetailColumnsHaveNoPlaceholder();
    EventJoinsHaveNoPlaceholder();
    UnlinesAvoids(DetailColumns, '?');
    UnlinesAvoids(EventJoins, '?');
    OccurrencesAppend(Unlines(DetailColumns), Unlines(EventJoins), '?');
  }

  lemma ByIdLine()
    ensures Occurrences(ByIdClause, '?') == 1
  {
    ByIdHasNoPlaceholder();
    assert Unlines([ById + "?"]) == "\n" + ById + "?";
    OccurrencesAppend("\n", ById, '?');
    OccurrencesAppend("\n" + ById, "?", '?');
  }

  lemma ByIdHasNoPlaceholder()
    ensures '?' !in ById
  {
  }
}
