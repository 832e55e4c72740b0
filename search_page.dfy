/**
 * The search page: the filters taken from the form (blank fields removed),
 * the result-count line with the summary of the filters the server applied,
 * and one card per returned event.
 */
module SearchPage {
  import opened Js
  import opened Strings
  import ApiClient

  // ---------------------------------------------------------------------
  // Form filters
  // ---------------------------------------------------------------------

  /** The filter object read from the form: a field's text, or null for a field the form lacks. */
  function FormFilters(date: Option<string>, city: Option<string>, category: Option<string>): (filters: map<string, Option<string>>)
    ensures filters.Keys == {"date", "city", "category"}
  {
    map["date" := date, "city" := city, "category" := category]
  }

  /** The entries that survive blank-stripping: the truthy ones, with their values. */
  function Stripped(filters: map<string, Option<string>>): map<string, Option<string>>
  {
    map k | k in filters && Truthy(filters[k]) :: filters[k]
  }

  /**
   * `handleSearch`'s clean-up: every key whose value is falsy is deleted
   * from the filter object, one key at a time.
   */
  method StripBlank(filters: map<string, Option<string>>) returns (kept: map<string, Option<string>>)
    ensures kept == Stripped(filters)
  {
    kept := filters;
    var keys := filters.Keys;
    while keys != {}
      invariant keys <= filters.Keys
      invariant kept == map k | k in filters && (k in keys || Truthy(filters[k])) :: filters[k]
      decreases keys
    {
      var key :| key in keys;
      if !Truthy(kept[key]) {
        kept := kept - {key};
      }
      keys := keys - {key};
    }
  }

  /**
   * Stripping removes exactly the falsy entries and keeps the others'
   * values; it never adds a key.
   */
  lemma StrippedShape(filters: map<string, Option<string>>)
    ensures Stripped(filters).Keys <= filters.Keys
    ensures forall k | k in filters :: k in Stripped(filters) <==> Truthy(filters[k])
    ensures forall k | k in Stripped(filters) :: Truthy(Stripped(filters)[k]) && Stripped(filters)[k] == filters[k]
  {
  }

  /** Stripping twice is stripping once. */
  lemma StripIdempotent(filters: map<string, Option<string>>)
    ensures Stripped(Stripped(filters)) == Stripped(filters)
  {
  }

  /** The form's filters, once stripped, hold only date, city and category, each non-empty. */
  lemma StrippedFormFilters(date: Option<string>, city: Option<string>, category: Option<string>)
    ensures var kept := Stripped(FormFilters(date, city, category));
      && kept.Keys <= {"date", "city", "category"}
      && forall k | k in kept :: kept[k].Some? && kept[k].value != ""
  {
  }

  /** Stripping does not change what is sent: the search request is the same with or without it. */
  lemma StripKeepsRequest(filters: map<string, Option<string>>)
    ensures ApiClient.SearchParams(Stripped(filters)) == ApiClient.SearchParams(filters)
  {
  }

  // ---------------------------------------------------------------------
  // Result count and applied-filter summary
  // ---------------------------------------------------------------------

  const NoEventsText: string := "Found 0 events"

  /** `Found ${count} event${count !== 1 ? 's' : ''}`. */
  function CountText(count: nat): string
  {
    "Found " + NatToString(count) + " event" + (if count != 1 then "s" else "")
  }

  /** The text opens with "Found ", then the count's digits, then " event" or " events". */
  lemma CountTextShape(count: nat)
    ensures StartsWith(CountText(count), "Found " + NatToString(count) + " ")
    ensures EndsWith(CountText(count), if count == 1 then " event" else " events")
  {
  }

  /** The word is plural exactly when the count is not one. */
  lemma CountTextPlural(count: nat)
    ensures EndsWith(CountText(count), "events") <==> count != 1
    ensures EndsWith(CountText(count), "event") <==> count == 1
  {
    var digits := NatToString(count);
    var t := CountText(count);
    if count == 1 {
      assert t == "Found 1 event";
    } else {
      assert t[|t| - 6..] == "events";
      assert t[|t| - 5..] == "vents";
    }
  }

  /** The count can be read back from its text: different counts give different texts. */
  lemma CountTextInjective(m: nat, n: nat)
    requires CountText(m) == CountText(n)
    ensures m == n
  {
    var a := NatToString(m);
    var b := NatToString(n);
    var x := " event" + (if m != 1 then "s" else "");
    var y := " event" + (if n != 1 then "s" else "");
    assert CountText(m) == "Found " + (a + x);
    assert CountText(n) == "Found " + (b + y);
    assert a + x == CountText(m)[6..];
    assert b + y == CountText(n)[6..];
    DigitsPrefixUnique(a, x, b, y);
    NatToStringInjective(m, n);
  }

  /** Two digit strings each followed by a text that starts with a space are equal when the wholes are. */
  lemma DigitsPrefixUnique(a: string, x: string, b: string, y: string)
    requires IsDigits(a) && IsDigits(b) && |x| >= 1 && |y| >= 1 && x[0] == ' ' && y[0] == ' '
    requires a + x == b + y
    ensures a == b
  {
    FirstSpace(a, x);
    FirstSpace(b, y);
    assert |a| == |b|;
    assert a == (a + x)[..|a|] && b == (b + y)[..|b|];
  }

  /** In digits followed by a space, the first space comes right after the digits. */
  lemma FirstSpace(a: string, x: string)
    requires IsDigits(a) && |x| >= 1 && x[0] == ' '
    ensures (a + x)[|a|] == ' '
    ensures forall i | 0 <= i < |a| :: (a + x)[i] != ' '
  {
  }

  /** The caption a filter key is listed under. */
  function Caption(key: string): string
  {
    if key == "date" then "Date: " else if key == "city" then "City: " else "Category ID: "
  }

  /** The summary entry of an echoed filter: its caption and its value, the date shown through `formatDate`. */
  function FilterText(p: ApiClient.Param, formatDate: string -> string): string
  {
    Caption(p.key) + (if p.key == "date" then formatDate(p.value) else p.value)
  }

  /** The texts pushed for the truthy echoed filters, in the order date, city, category. */
  function FilterTexts(echo: map<string, Option<string>>, formatDate: string -> string): (texts: seq<string>)
    ensures |texts| == |ApiClient.SearchParams(echo)|
    ensures forall i | 0 <= i < |texts| :: texts[i] == FilterText(ApiClient.SearchParams(echo)[i], formatDate)
  {
    TextsOf(ApiClient.SearchParams(echo), formatDate)
  }

  function TextsOf(ps: seq<ApiClient.Param>, formatDate: string -> string): (texts: seq<string>)
    ensures |texts| == |ps|
    ensures forall i | 0 <= i < |ps| :: texts[i] == FilterText(ps[i], formatDate)
  {
    if ps == [] then [] else [FilterText(ps[0], formatDate)] + TextsOf(ps[1..], formatDate)
  }

  /** The line added under the count, or nothing when no filter is listed. */
  function SummaryOf(texts: seq<string>): string
  {
    if texts == [] then "" else "<br><small>Filters: " + Join(texts, ", ") + "</small>"
  }

  /**
   * `performSearch`'s summary of the applied filters: when the response
   * echoes filters, one text per truthy filter in the order date, city,
   * category, joined with commas; omitted when there is none.
   */
  method AppliedFilterSummary(filters: Option<map<string, Option<string>>>, formatDate: string -> string)
    returns (summary: string)
    ensures filters.None? ==> summary == ""
    ensures filters.Some? ==> summary == SummaryOf(FilterTexts(filters.value, formatDate))
  {
    summary := "";
    if filters.Some? {
      var echo := filters.value;
      var filterTexts: seq<string> := [];
      if Truthy(Prop(echo, "date")) {
        filterTexts := filterTexts + ["Date: " + formatDate(Prop(echo, "date").value)];
      }
      if Truthy(Prop(echo, "city")) {
        filterTexts := filterTexts + ["City: " + Prop(echo, "city").value];
      }
      if Truthy(Prop(echo, "category")) {
        filterTexts := filterTexts + ["Category ID: " + Prop(echo, "category").value];
      }
      assert filterTexts == FilterTexts(echo, formatDate);
      if |filterTexts| > 0 {
        summary := "<br><small>Filters: " + Join(filterTexts, ", ") + "</small>";
      }
    }
  }

  /** The summary is omitted exactly when no echoed filter is truthy. */
  lemma SummaryOmitted(echo: map<string, Option<string>>, formatDate: string -> string)
    ensures SummaryOf(FilterTexts(echo, formatDate)) == "" <==>
      !Truthy(Prop(echo, "date")) && !Truthy(Prop(echo, "city")) && !Truthy(Prop(echo, "category"))
  {
  }

  /** Entry i of the summary names the i-th truthy filter, in the order date, city, category. */
  lemma SummaryOrder(echo: map<string, Option<string>>, formatDate: string -> string)
    ensures forall i | 0 <= i < |FilterTexts(echo, formatDate)| ::
      StartsWith(FilterTexts(echo, formatDate)[i], Caption(ApiClient.SearchParams(echo)[i].key))
    ensures forall i, j | 0 <= i < j < |FilterTexts(echo, formatDate)| ::
      ApiClient.KeyRank(ApiClient.SearchParams(echo)[i].key) < ApiClient.KeyRank(ApiClient.SearchParams(echo)[j].key)
  {
    ApiClient.SearchParamsOrder(echo);
    var texts := FilterTexts(echo, formatDate);
    forall i | 0 <= i < |texts|
      ensures StartsWith(texts[i], Caption(ApiClient.SearchParams(echo)[i].key))
    {
      var p := ApiClient.SearchParams(echo)[i];
      var value := if p.key == "date" then formatDate(p.value) else p.value;
      assert texts[i] == Caption(p.key) + value;
      assert (Caption(p.key) + value)[..|Caption(p.key)|] == Caption(p.key);
    }
  }

  // ---------------------------------------------------------------------
  // Result cards
  // ---------------------------------------------------------------------

  const PlaceholderImage: string := "https://via.placeholder.com/400x250?text=Charity+Event"

  /** What a card shows as its price: "Free" for a free event, otherwise the ticket price. */
  datatype Price = Free | Priced(ticketPrice: Cell)

  /** The parts of a result card that depend on the event. */
  datatype Card = Card(
    image: Cell,
    name: Cell,
    category: Cell,
    date: string,
    place: string,
    organization: Cell,
    description: Cell,
    price: Price,
    eventId: Cell)

  /**
   * `createSearchResultCard`: the image falls back to the placeholder, the
   * price to "Free" for a free event; the date goes through `formatDate`, and
   * the place is the city and the location separated by a comma.
   */
  function CardOf(event: Row, formatDate: string -> string): (card: Card)
    ensures card.image == (if Present(Column(event, "image_url")) then Column(event, "image_url") else Text(PlaceholderImage))
    ensures Present(card.image)
    ensures card.price.Free? <==> Present(Column(event, "is_free"))
    ensures card.price.Priced? ==> card.price.ticketPrice == Column(event, "ticket_price")
    ensures card.date == formatDate(Display(Column(event, "event_date")))
    ensures card.description == Column(event, "description")
  {
    Card(
      OrCell(Column(event, "image_url"), Text(PlaceholderImage)),
      Column(event, "event_name"),
      Column(event, "category_name"),
      formatDate(Display(Column(event, "event_date"))),
      Display(Column(event, "city")) + ", " + Display(Column(event, "location")),
      Column(event, "organization_name"),
      Column(event, "description"),
      if Present(Column(event, "is_free")) then Free else Priced(Column(event, "ticket_price")),
      Column(event, "event_id"))
  }

  /** A card's place line is the city, a comma, and the location. */
  lemma CardPlace(event: Row, formatDate: string -> string)
    ensures StartsWith(CardOf(event, formatDate).place, Display(Column(event, "city")) + ", ")
    ensures EndsWith(CardOf(event, formatDate).place, Display(Column(event, "location")))
  {
  }

  /** The cards of the events, one per event, in order. */
  function Cards(events: seq<Row>, formatDate: string -> string): (cards: seq<Card>)
    ensures |cards| == |events|
    ensures forall i | 0 <= i < |events| :: cards[i] == CardOf(events[i], formatDate)
  {
    if events == [] then [] else [CardOf(events[0], formatDate)] + Cards(events[1..], formatDate)
  }

  /** What the page's results area shows. */
  class ResultsView {
    var countText: string
    var noResults: bool
    var cards: seq<Card>

    constructor()
      ensures countText == "" && !noResults && cards == []
    {
      countText := "";
      noResults := false;
      cards := [];
    }

    /** `renderSearchResults`: append one card per event, in the order of the events. */
    method RenderSearchResults(events: seq<Row>, formatDate: string -> string)
      modifies this
      ensures cards == old(cards) + Cards(events, formatDate)
      ensures countText == old(countText) && noResults == old(noResults)
    {
      var i := 0;
      while i < |events|
        invariant 0 <= i <= |events|
        invariant cards == old(cards) + Cards(events[..i], formatDate)
        invariant countText == old(countText) && noResults == old(noResults)
      {
        CardsSnoc(events, i, formatDate);
        cards := cards + [CardOf(events[i], formatDate)];
        i := i + 1;
      }
      assert events[..|events|] == events;
    }

    /**
     * `performSearch` once the reply is in: an unsuccessful reply, or one
     * without events, shows "Found 0 events" and no card; otherwise the
     * pluralised count with the summary of the echoed filters, and the cards.
     */
    method ShowReply(reply: SearchReply, formatDate: string -> string)
      modifies this
      ensures Empty(reply) ==> noResults && countText == NoEventsText && cards == []
      ensures !Empty(reply) ==> !noResults && cards == Cards(reply.data.value, formatDate)
      ensures !Empty(reply) && reply.filters.None? ==> countText == CountText(reply.count)
      ensures !Empty(reply) && reply.filters.Some? ==>
        countText == CountText(reply.count) + SummaryOf(FilterTexts(reply.filters.value, formatDate))
    {
      noResults := false;
      cards := [];
      if !reply.success || reply.data.None? || |reply.data.value| == 0 {
        noResults := true;
        countText := NoEventsText;
        return;
      }
      countText := CountText(reply.count);
      var summary := AppliedFilterSummary(reply.filters, formatDate);
      countText := countText + summary;
      RenderSearchResults(reply.data.value, formatDate);
    }
  }

  lemma CardsSnoc(events: seq<Row>, i: nat, formatDate: string -> string)
    requires i < |events|
    ensures Cards(events[..i + 1], formatDate) == Cards(events[..i], formatDate) + [CardOf(events[i], formatDate)]
  {
    var longer := Cards(events[..i + 1], formatDate);
    var shorter := Cards(events[..i], formatDate);
    forall k | 0 <= k < i + 1
      ensures longer[k] == (shorter + [CardOf(events[i], formatDate)])[k]
    {
      assert events[..i + 1][k] == events[k];
      if k < i {
        assert events[..i][k] == events[k];
      }
    }
  }

  /** The part of a search reply the page reads. */
  datatype SearchReply = SearchReply(success: bool, count: nat, filters: Option<map<string, Option<string>>>, data: Option<seq<Row>>)

  predicate Empty(reply: SearchReply)
  {
    !reply.success || reply.data.None? || |reply.data.value| == 0
  }
}
