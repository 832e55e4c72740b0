/**
 * The values the event detail page derives from one event record: the
 * fundraising percentage and its colour, the participants line, the
 * organisation's link, the fallback texts and the status badge.
 */
module DetailsPage {
  import opened Js
  import opened Strings
  import ApiClient

  // ---------------------------------------------------------------------
  // Fundraising progress
  // ---------------------------------------------------------------------

  /** `goal > 0 ? Math.min((current / goal) * 100, 100) : 0`. */
  function Percentage(goal: real, current: real): (p: real)
    ensures p <= 100.0
    ensures goal <= 0.0 ==> p == 0.0
    ensures goal > 0.0 && current <= goal ==> p == current / goal * 100.0
    ensures goal > 0.0 && current >= goal ==> p == 100.0
  {
    if goal > 0.0 then Min(current / goal * 100.0, 100.0) else 0.0
  }

  function Min(a: real, b: real): real
  {
    if a <= b then a else b
  }

  /** A raised sum of at least the goal is exactly 100 percent; 150 raised of 100 shows 100. */
  lemma FullyFunded()
    ensures Percentage(100.0, 150.0) == 100.0
    ensures Percentage(100.0, 50.0) == 50.0
    ensures Percentage(0.0, 10.0) == 0.0
  {
  }

  /** The percentage never decreases as more is raised, and is never negative when nothing is owed. */
  lemma PercentageMonotone(goal: real, current: real, more: real)
    requires current <= more
    ensures Percentage(goal, current) <= Percentage(goal, more)
    ensures current >= 0.0 ==> Percentage(goal, current) >= 0.0
  {
    if goal > 0.0 {
      QuotientMonotone(current, more, goal);
    }
  }

  lemma QuotientMonotone(a: real, b: real, d: real)
    requires a <= b && d > 0.0
    ensures a / d * 100.0 <= b / d * 100.0
    ensures a >= 0.0 ==> a / d * 100.0 >= 0.0
  {
  }

  /** The three progress-bar colours. */
  datatype Tier = Green | Amber | Blue

  /** The tier chain: green from 75, amber from 50, blue below. */
  function TierOf(p: real): (t: Tier)
    ensures t == Green <==> p >= 75.0
    ensures t == Amber <==> 50.0 <= p < 75.0
    ensures t == Blue <==> p < 50.0
  {
    if p >= 75.0 then Green else if p >= 50.0 then Amber else Blue
  }

  /** The colour the progress bar is painted. */
  function Colour(t: Tier): string
  {
    match t
    case Green => "#28a745"
    case Amber => "#ffc107"
    case Blue => "#007bff"
  }

  /** Each tier has its own colour; a funded event is painted green and one without a goal blue. */
  lemma ProgressColour(goal: real, current: real)
    ensures forall t: Tier, u: Tier :: Colour(t) == Colour(u) ==> t == u
    ensures goal > 0.0 && current >= goal ==> Colour(TierOf(Percentage(goal, current))) == "#28a745"
    ensures goal <= 0.0 ==> Colour(TierOf(Percentage(goal, current))) == "#007bff"
  {
  }

  function TierRank(t: Tier): nat
  {
    match t
    case Blue => 0
    case Amber => 1
    case Green => 2
  }

  /** A higher percentage never gets a lower tier; full funding is green, no goal is blue. */
  lemma TierFollowsProgress(goal: real, current: real, more: real)
    requires current <= more
    ensures TierRank(TierOf(Percentage(goal, current))) <= TierRank(TierOf(Percentage(goal, more)))
    ensures goal > 0.0 && current >= goal ==> TierOf(Percentage(goal, current)) == Green
    ensures goal <= 0.0 ==> TierOf(Percentage(goal, current)) == Blue
  {
  }

  // ---------------------------------------------------------------------
  // Participants, website, fallbacks
  // ---------------------------------------------------------------------

  /** The participants line: current over max when a maximum is set, otherwise current with the word "participants". */
  function ParticipantsText(current: Cell, max: Cell): (text: string)
    ensures StartsWith(text, Display(current))
    ensures Present(max) ==> EndsWith(text, " / " + Display(max))
    ensures !Present(max) ==> EndsWith(text, " participants")
  {
    if Present(max) then Display(current) + " / " + Display(max) else Display(current) + " participants"
  }

  /**
   * For the numeric (or null) participant columns, the text is a ratio
   * exactly when a maximum is set, and otherwise ends with "participants".
   */
  lemma ParticipantsTextShape(current: Cell, max: Cell)
    requires !current.Text? && !max.Text?
    ensures '/' in ParticipantsText(current, max) <==> Present(max)
    ensures Present(max) ==> StartsWith(ParticipantsText(current, max), Display(current) + " / ")
    ensures Present(max) ==> EndsWith(ParticipantsText(current, max), Display(max))
    ensures !Present(max) ==> ParticipantsText(current, max) == Display(current) + " participants"
  {
  }

  /** The organisation link: a website already starting with "http" is kept, any other gets "http://" in front. */
  function WebsiteHref(website: string): (href: string)
    ensures StartsWith(href, "http")
    ensures StartsWith(website, "http") ==> href == website
    ensures !StartsWith(website, "http") ==> href == "http://" + website
  {
    if StartsWith(website, "http") then website else "http://" + website
  }

  /** Normalising a link twice is normalising it once. */
  lemma WebsiteHrefIdempotent(website: string)
    ensures WebsiteHref(WebsiteHref(website)) == WebsiteHref(website)
  {
  }

  /** The website text always survives as the end of the link. */
  lemma WebsiteHrefKeepsWebsite(website: string)
    ensures EndsWith(WebsiteHref(website), website)
  {
  }

  /** `event[primary] || event[secondary]`: the first column when truthy, otherwise the second. */
  function Fallback(event: Row, primary: string, secondary: string): (text: Cell)
    ensures Present(Column(event, primary)) ==> text == Column(event, primary)
    ensures !Present(Column(event, primary)) ==> text == Column(event, secondary)
    ensures Present(text) <==> Present(Column(event, primary)) || Present(Column(event, secondary))
  {
    OrCell(Column(event, primary), Column(event, secondary))
  }

  /** The page shows the detailed description, else the description, and the address, else the location. */
  lemma DetailFallbacks(event: Row)
    ensures Present(DetailedDescription(event)) <==>
      Present(Column(event, "detailed_description")) || Present(Column(event, "description"))
    ensures !Present(Column(event, "detailed_description")) ==> DetailedDescription(event) == Column(event, "description")
    ensures Present(Address(event)) <==> Present(Column(event, "address")) || Present(Column(event, "location"))
    ensures !Present(Column(event, "address")) ==> Address(event) == Column(event, "location")
  {
  }

  /** The long description, falling back to the short one. */
  function DetailedDescription(event: Row): Cell
  {
    Fallback(event, "detailed_description", "description")
  }

  /** The street address, falling back to the location. */
  function Address(event: Row): Cell
  {
    Fallback(event, "address", "location")
  }

  const PlaceholderImage: string := "https://via.placeholder.com/800x400?text=Charity+Event"

  /** The event image, or the placeholder when the event has none. */
  function Image(event: Row): (image: Cell)
    ensures Present(image)
    ensures Present(Column(event, "image_url")) ==> image == Column(event, "image_url")
    ensures !Present(Column(event, "image_url")) ==> image == Text(PlaceholderImage)
  {
    OrCell(Column(event, "image_url"), Text(PlaceholderImage))
  }

  // ---------------------------------------------------------------------
  // Status badge
  // ---------------------------------------------------------------------

  /** `displayEventStatus`: the badge's classes, base class first. */
  function StatusClasses(status: string): (classes: seq<string>)
    ensures |classes| >= 1 && classes[0] == "status-badge"
    ensures status in ApiClient.KnownStatuses ==> classes == ["status-badge", "status-" + status]
    ensures status !in ApiClient.KnownStatuses ==> classes == ["status-badge"]
  {
    StatusClassNames();
    ["status-badge"]
    + if status == "upcoming" then ["status-upcoming"]
      else if status == "ongoing" then ["status-ongoing"]
      else if status == "completed" then ["status-completed"]
      else []
  }

  lemma StatusClassNames()
    ensures "status-" + "upcoming" == "status-upcoming"
    ensures "status-" + "ongoing" == "status-ongoing"
    ensures "status-" + "completed" == "status-completed"
  {
  }

  /** The badge shows the status label and carries at most one status class, the one for its status. */
  lemma StatusBadge(status: string)
    ensures |StatusClasses(status)| == 2 <==> status in ApiClient.KnownStatuses
    ensures |StatusClasses(status)| <= 2
    ensures status in ApiClient.KnownStatuses ==> ApiClient.GetStatusText(status) != status
  {
  }
}
