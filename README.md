# Charity events catalogue: search, envelopes and page derivations

A model of the decision logic in a small charity-events catalogue. The catalogue has two halves:

- **An Express server over MySQL.** It lists eligible events, searches them by date, city and category, returns one event by id, and lists categories and cities.
- **Browser pages.** They call that API and render what comes back.

The model covers:

- **`Server`.** The SQL text and positional parameters each endpoint sends to the database.
  - The search handler is modelled as a method that appends clauses and pushes parameters step by step.
  - Also modelled: the JSON envelopes for success, not-found and server errors, and the ordered route table with first-match lookup.
  - The database is an oracle parameter: a function from (query text, parameters) to rows or a failure.
- **`ApiClient`.** The endpoints the client requests.
  - `searchEvents` is a method that appends query entries step by step.
  - Also `formatTime` and `getStatusText`.
- **`SearchPage`.**
  - The in-place removal of blank filters is a loop method.
  - Also the pluralised count text and the applied-filters summary (a method pushing texts).
  - Result cards are rendered by a class whose method appends one card per event.
- **`DetailsPage`.**
  - The fundraising percentage (over `real`) and its colour tier.
  - The participants text and the normalised website link.
  - The `||` fallbacks and the status-badge classes.
- **`SearchFlow`.** Lemmas that connect the client and the server.
  - Each endpoint the client requests reaches the intended handler.
  - The server reads back exactly the filters the user filled in.
  - The page's summary lists exactly the filters the server applied.
- **`Js`, `Strings`.** Supporting definitions.
  - `Js`: JavaScript truthiness, `||`, property access, and row cells.
  - `Strings`: `split`, `join`, `startsWith` and decimal text.

The SQL text is held line by line. Leading indentation and trailing blanks are dropped, and the two long JOIN lines are broken before `ON`. Tokens and their order are as in the source. Placeholders are counted on this text.

A search result card shows the event's image, category, name, formatted date, city and location, organisation, full description, price and a link to its details. It does not show the event's time.

## Model

| member | source | states |
|---|---|---|
| Server.EligibleEventsHasNoPlaceholder | api/server.js:102-123 | the base search text holds no `?`, so every placeholder comes from a filter clause |
| Server.Applied | api/server.js:128-143 | at most three filters are applied |
| Server.AppliedShape | api/server.js:128-143 | a filter is applied iff its value is truthy; the applied filters are in the order date, city, category |
| Server.Parameters | api/server.js:125-143 | one parameter per applied filter |
| Server.ParametersShape | api/server.js:130-142 | parameter i is the value of the i-th applied filter, the city wrapped as `%city%`, date and category unchanged |
| Server.BuildSearchQuery | api/server.js:99-145 | the text built by appending clauses is the base text, one clause per present filter in order, then the ordering suffix; the parameters pushed are `Parameters` |
| Server.ReadFilters | api/server.js:99 | each filter is present iff its key is in the query string, and then it holds that key's value |
| Server.OtherKeysIgnored | api/server.js:99 | a query-string key other than date, city and category does not change the filters read |
| Server.SearchWithoutFilters | api/server.js:102-145 | with every filter absent or empty, the query is the base text followed by `ORDER BY ce.event_date ASC`, and there are no parameters |
| Server.QueryIgnoresFilterValues | api/server.js:128-145 | two requests with the same filters present get the same query text, whatever the values |
| Server.PlaceholdersMatchParameters | api/server.js:128-143 | the number of `?` in the query equals the number of parameters |
| Server.PlaceholderBindsParameter | api/server.js:128-145 | cutting the query at its `?` gives one piece per applied filter plus one; piece i ends with the i-th filter's comparison; the last piece is the ordering suffix |
| Server.Echo | api/server.js:152-156 | the echo has exactly the keys date, city and category; the date key holds a value iff the date filter is truthy, and then that filter's value; likewise city and category |
| Server.ListEnvelope | api/server.js:77-81 | success with the rows as data, `count` equal to their number, and no filters echo |
| Server.SearchEnvelope | api/server.js:149-158 | success with the rows, their count, and the filters echo |
| Server.ServerError | api/server.js:84-88 | status 500, `success: false`, message "Server error", the failure's message as `error` |
| Server.DetailEnvelope | api/server.js:195-205 | 404 "Event not found" iff there are no rows; otherwise success with the first row, no count and no filters echo |
| Server.CitiesEnvelope | api/server.js:263-267 | one value per row, in order, each the row's city column; the count equals the number of rows; no filters echo |
| Server.ListEvents | api/server.js:49-90 | when the query returns rows, status 200 with those rows as data, their count and no filters echo; when it fails, status 500 with "Server error" and the failure's message |
| Server.EventById | api/server.js:173-214 | the id is the one parameter of the detail query; no row gives the 404 "Event not found"; otherwise status 200 with the first row as data, no count and no filters echo; a failure gives 500 "Server error" with its message |
| Server.ListCategories | api/server.js:220-246 | when the query returns rows, status 200 with those rows as data, their count and no filters echo; when it fails, 500 "Server error" with the message |
| Server.ListCities | api/server.js:252-276 | when the query returns rows, status 200 with the city of each row, in order, their count and no filters echo; when it fails, 500 "Server error" with the message |
| Server.SearchEvents | api/server.js:97-167 | the query built step by step and its pushed parameters give exactly the answer `SearchResult` specifies for the filters read from the query string |
| Server.SearchResult | api/server.js:145-166 | for the query `SearchQuery(Applied(f))` with `Parameters(f)`: rows give status 200 with those rows, their count and the echo of the filters; a failure gives 500 "Server error" with the message |
| Server.FirstMatch | api/server.js:93-97 | returns the first route that matches the path, and none before it matches |
| Server.Lookup | api/server.js:31-252 | no route matches iff the lookup gives nothing; otherwise it gives the handler of a matching route, with its captures, and no route registered before that one matches |
| Server.Resolve | api/server.js:173 | a path resolved to the detail handler has four segments, and the handler's one argument is the last segment |
| Server.SearchPathResolvesToSearch | api/server.js:93-97 | `/api/events/search` reaches the search handler, not the detail handler |
| Server.IdPathResolvesToDetail | api/server.js:169-175 | any other non-empty segment under `/api/events/` reaches the detail handler with that segment as the id |
| Server.ListPathResolvesToList | api/server.js:44-49 | `/api/events` reaches the listing handler |
| Server.CategoriesPathResolvesToCategories | api/server.js:220 | `/api/categories` reaches the categories handler |
| Server.CitiesPathResolvesToCities | api/server.js:252 | `/api/cities` reaches the cities handler |
| Server.IdBeforeSearchCapturesSearch | api/server.js:92-93 | with `:id` registered before search, `/api/events/search` would be answered by the detail handler with id "search" |
| Server.Serve | api/server.js:31-276 | running the handler a dispatch names gives exactly `Answer` for that dispatch |
| Server.Answer | api/server.js:31-276 | only the root answers the information object, which has no `success` key; every other route's answer keeps the envelope contract and is its own handler's response (listing, search, detail by the captured id, categories, cities) |
| Server.NotFoundOnlyForMissingEvent | api/server.js:195-205 | a matched route answers 404 exactly when it is the detail route and the lookup found no row |
| Server.OnlySearchEchoesFilters | api/server.js:31-276 | a successful answer carries a filters echo only when it comes from the search route |
| Server.Handle | api/server.js:278-284 | an unknown path gets the "Requested resource not found" 404; any other path gets the `Answer` of the route it resolves to; the answer is the information object exactly for the root, and every other answer keeps the envelope contract |
| Server.ListEventsQueryPlaceholders | api/server.js:51-75 | the listing query has no placeholder, matching its empty parameter list |
| Server.EventDetailQueryPlaceholders | api/server.js:177-193 | the detail query has exactly one placeholder, matching its one parameter |
| ApiClient.EventEndpoint | client/js/api.js:49-51 | the endpoint is `/events/` followed by the id, unchanged |
| ApiClient.SearchEvents | client/js/api.js:71-89 | with no truthy filter the endpoint is exactly `/events/search`; otherwise `/events/search?` followed by the non-empty query string of the entries |
| ApiClient.QueryStringEmpty | client/js/api.js:85-86 | the query string is empty iff there are no entries |
| ApiClient.SearchParamsKeys | client/js/api.js:75-83 | there is an entry for a key iff it is date, city or category and its value is truthy |
| ApiClient.SearchParamsValues | client/js/api.js:75-83 | each entry carries the filter's own value |
| ApiClient.SearchParamsOrder | client/js/api.js:75-83 | the entries are in the order date, city, category |
| ApiClient.FalsyFiltersIgnored | client/js/api.js:71-86 | filters that agree on their truthy values give the same entries, whether the others are missing, null or empty |
| ApiClient.BlankFiltersAskForPlainSearch | client/js/api.js:71-86 | `{}` and `{date: '', city: '', category: ''}` both give no entries |
| ApiClient.FormatTime | client/js/api.js:104-108 | a missing or empty time gives "Not specified" |
| ApiClient.FormatTimeOfClock | client/js/api.js:106-107 | `HH:MM` or `HH:MM:SS…` gives `HH:MM` |
| ApiClient.FormatTimeWithoutColon | client/js/api.js:106-107 | a time without `:` gives the time followed by ":undefined" |
| ApiClient.FormatTimeIdempotent | client/js/api.js:104-108 | formatting the result for a non-empty time again changes nothing |
| ApiClient.GetStatusText | client/js/api.js:120-127 | upcoming, ongoing and completed get their capitalised label; any other status is returned unchanged |
| ApiClient.StatusTextIdempotent | client/js/api.js:120-127 | a label is never itself a status, so labelling twice is labelling once |
| SearchPage.FormFilters | client/js/search.js:90-95 | the filter object has exactly the keys date, city and category |
| SearchPage.StripBlank | client/js/search.js:97-102 | deleting the falsy keys one at a time leaves exactly `Stripped(filters)` |
| SearchPage.StrippedShape | client/js/search.js:98-102 | stripping removes exactly the falsy entries, keeps the others' values, and adds no key |
| SearchPage.StripIdempotent | client/js/search.js:98-102 | stripping twice is stripping once |
| SearchPage.StrippedFormFilters | client/js/search.js:91-102 | after stripping, only date, city and category remain, each non-empty |
| SearchPage.StripKeepsRequest | client/js/search.js:98-104 | stripping does not change the search request that is sent |
| SearchPage.CountTextPlural | client/js/search.js:145 | the text ends in "events" iff the count is not 1, and in "event" iff it is 1 |
| SearchPage.CountTextInjective | client/js/search.js:145 | different counts give different texts, so the number shown is the count |
| SearchPage.CountTextShape | client/js/search.js:145 | `CountText` starts with "Found ", the count's digits and a space, and ends with " event" for one and " events" otherwise |
| SearchPage.FilterTexts | client/js/search.js:149-158 | one text per truthy echoed filter, in the order date, city, category, each with that filter's caption and value |
| SearchPage.AppliedFilterSummary | client/js/search.js:148-162 | pushing texts gives the summary of `FilterTexts`; nothing when the reply has no filters |
| SearchPage.SummaryOmitted | client/js/search.js:160-162 | the summary line is omitted iff no echoed filter is truthy |
| SearchPage.SummaryOrder | client/js/search.js:149-158 | text i starts with the caption of the i-th present filter, in the order Date, City, Category |
| SearchPage.CardOf | client/js/search.js:189-232 | the image falls back to the placeholder and is always present; the price is "Free" iff the event is free, and otherwise the ticket price column; the date is `formatDate` of the event date; the description is the full description column |
| SearchPage.CardPlace | client/js/search.js:212 | the place line starts with the city and a comma and ends with the location |
| SearchPage.Cards | client/js/search.js:179-184 | one card per event, card i built from event i |
| SearchPage.ResultsView.RenderSearchResults | client/js/search.js:179-184 | appending in a loop adds exactly `Cards(events)` after the existing cards |
| SearchPage.ResultsView.ShowReply | client/js/search.js:126-166 | an unsuccessful or empty reply shows "Found 0 events" and no card; otherwise the count text, the filter summary and one card per event |
| DetailsPage.Percentage | client/js/details.js:137 | never above 100; 0 when the goal is ≤ 0; at or below the goal it is current/goal × 100; at or above the goal it is exactly 100 |
| DetailsPage.FullyFunded | client/js/details.js:137 | 150 raised of 100 gives exactly 100, 50 of 100 gives 50, any amount of a zero goal gives 0 |
| DetailsPage.PercentageMonotone | client/js/details.js:137 | raising more never lowers the percentage, which is never negative for a non-negative amount |
| DetailsPage.TierOf | client/js/details.js:148-154 | green iff ≥ 75, amber iff ≥ 50 and < 75, blue iff < 50 (exactly one applies) |
| DetailsPage.TierFollowsProgress | client/js/details.js:137-154 | a larger amount never gives a lower tier; a fully funded event is green; with no goal it is blue |
| DetailsPage.ParticipantsText | client/js/details.js:104-106 | the text starts with the current count; with a truthy maximum it ends with " / " and the maximum; otherwise it ends with " participants" |
| DetailsPage.ProgressColour | client/js/details.js:148-154 | the three tiers have three different colours; a fully funded event is painted `#28a745`, one without a goal `#007bff` |
| DetailsPage.ParticipantsTextShape | client/js/details.js:104-106 | for numeric or null columns, the text holds a `/` iff the maximum is truthy; with a maximum it is the current count, " / ", then the maximum; without one it is exactly the current count followed by " participants" |
| DetailsPage.WebsiteHref | client/js/details.js:116 | the link always starts with "http"; one already starting so is kept; any other gets "http://" in front |
| DetailsPage.WebsiteHrefIdempotent | client/js/details.js:116 | normalising twice is normalising once |
| DetailsPage.WebsiteHrefKeepsWebsite | client/js/details.js:116 | the website text is always the end of the link |
| DetailsPage.Fallback | client/js/details.js:88-93 | the first column when truthy, otherwise the second; the result is present iff either column is |
| DetailsPage.DetailFallbacks | client/js/details.js:88-93 | the detailed description falls back to the description and the address to the location; each is present iff either of its columns is |
| DetailsPage.Image | client/js/details.js:74 | the event image when truthy, otherwise the placeholder; never empty |
| DetailsPage.StatusClasses | client/js/details.js:165-174 | always "status-badge" first; plus exactly `status-<status>` for the three known statuses, and nothing else otherwise |
| DetailsPage.StatusBadge | client/js/details.js:160-174 | there are two classes iff the status is known, and a known status is shown by a label different from itself |
| Js.OrNull | api/server.js:153-155 | `v` or-else null is a value iff `v` is truthy, and then it is `v` |
| Js.OrCell | client/js/details.js:88-93 | the `or` fallback of `a` and `b` is `a` when it is truthy, else `b`; it is truthy iff either is |
| SearchFlow.RequestCarriesFilters | client/js/api.js:71-89 | the server reads back each filter's value when it was truthy on the client, and absent otherwise |
| SearchFlow.SearchAppliesClientFilters | api/server.js:99-143 | the server applies exactly the filters the client sent, in the same order |
| SearchFlow.SummaryListsAppliedFilters | client/js/search.js:148-158 | for a server echo, the summary has one text per applied filter, text i captioned by the i-th applied filter |
| SearchFlow.DetailRequestReachesDetail | client/js/api.js:49-51 | the client's detail request for an id reaches the detail handler with that id, for every id the browser sends unchanged: non-empty, not `.` or `..`, not "search" in any letter case, no trailing control or space, and no `/`, `\`, `?`, `#`, `%`, tab, LF or CR |
| SearchFlow.SearchRequestReachesSearch | client/js/api.js:85-88 | the client's search request reaches the search handler |
| SearchFlow.ListRequestReachesList | client/js/api.js:42-44 | the client's listing request reaches the listing handler |
| SearchFlow.CategoriesRequestReachesCategories | client/js/api.js:55-57 | the client's categories request reaches the categories handler |
| SearchFlow.CitiesRequestReachesCities | client/js/api.js:62-64 | the client's cities request reaches the cities handler |

## Left out

- The database layer (api/event_db.js) is left out: pool configuration, the connection probe and shutdown are I/O. `db.query` is an oracle parameter returning rows or a failure.
- The Express application, middleware, logging and `app.listen` are left out. The root's information object is modelled by its message and version only; its list of endpoint descriptions is left out.
- The error-handling middleware at api/server.js:287-294 is left out. Every handler catches its own database failure, so nothing reaches it in the model.
- SQL semantics (eligibility, `LIKE`, `DISTINCT`, ordering) are the database's. Only the text and parameters sent are modelled.
- SQL whitespace is normalised as described above. Statements are about the placeholders and about the order of the pieces, which whitespace does not affect.
- Route matching is modelled as an ordered table of literal and parameter segments with first-match lookup on the path before `?`. Express's matcher is left out: trailing slashes, case, URL decoding and the `/` path of the root route (two empty segments here). The browser's own normalisation of the request URL is left out too: removing tabs and line breaks and trailing controls and spaces, dot segments, backslashes and percent escapes. The detail-request lemma therefore requires an id that this normalisation and Express's case-insensitive matching leave unchanged.
- `req.query` is a map from key to string. Repeated keys, which Express turns into arrays, are left out.
- `URLSearchParams` percent-encoding is left out: the query string is `key=value` joined by `&`, unencoded. SearchFlow.AsQuery reads a list of entries directly, so it does not parse text.
- `CharityEventsAPI.request` is left out: fetch, HTTP status checking and JSON parsing are network I/O. A failed request's error text on the page is left out too.
- `formatDate` is left out because it depends on the clock and locale. The summary and the cards take it as a function parameter, applied to the text of the date column.
- `formatCurrency`, `toFixed(1)` and the progress-bar width are float formatting and are left out. A card's price keeps the raw ticket-price column.
- DetailsPage.Percentage: `parseFloat` is not modelled; goal and amount are already reals, with no NaN.
- client/js/home.js, the DOM work and the navigation are left out: `loadFilterOptions`, `clearFilters`, modals, `viewEventDetails` and `loadEventDetails`'s messages.
- Js.Column: a missing column reads as `null`, where JavaScript gives `undefined`. All columns used are selected by the queries.
- ApiClient.GetStatusText: inherited object properties such as `toString` are not modelled as keys of the status map. Statuses come from an enumerated column.
- DetailsPage.WebsiteHref is modelled on strings. A null website makes `startsWith` throw in the page.
- DetailsPage.ParticipantsTextShape is stated only for numeric or null participant columns, which is what the INT columns give. A text column containing `/` would break the "iff".
- SearchPage.CardOf keeps the event-dependent values of a card (image, name, category, date, city and location, organisation, description, price, id) as fields, not the HTML template around them, nor the image's `onerror` fallback.
