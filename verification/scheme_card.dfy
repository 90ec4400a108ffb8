/** The scheme card's display rules: the application-status badge, the
    colour band of the match percentage, the deadline text and the
    "expiring soon" flag, the apply button's label and the eligibility
    badges. The day difference to the deadline (a clock reading rounded
    up to whole days) and the locale rendering of the date are inputs. */
module SchemeCard {
  import opened Wrappers
  import opened Entities
  import opened Text
  import Scorer

  // ---------------------------------------------------------------------
  // Status badge

  datatype Badge = Badge(color: string, text: string)

  /** `statusConfig`: the four statuses a badge exists for. */
  function StatusConfig(status: string): (r: Option<Badge>)
    ensures r.Some? <==> status in {"pending", "approved", "rejected", "completed"}
  {
    if status == "pending" then Some(Badge("bg-warning", "Pending"))
    else if status == "approved" then Some(Badge("bg-success", "Approved"))
    else if status == "rejected" then Some(Badge("bg-destructive", "Rejected"))
    else if status == "completed" then Some(Badge("bg-success", "Completed"))
    else None
  }

  /** `getStatusBadge`: nothing unless the scheme is applied for and its
      status is one of the four. */
  function StatusBadge(isApplied: bool, applicationStatus: Option<string>): (r: Option<Badge>)
    ensures r.Some? <==>
      isApplied && applicationStatus.Some? && applicationStatus.value in {"pending", "approved", "rejected", "completed"}
    ensures r.Some? ==> (r.value.color == "bg-success" <==> applicationStatus.value in {"approved", "completed"})
  {
    if !isApplied then None
    else
      match applicationStatus
      case None => None
      case Some(status) => StatusConfig(status)
  }

  // ---------------------------------------------------------------------
  // Match colour

  /** The four colour bands, best first. */
  datatype MatchColor = Success | Accent | Warning | Destructive

  /** The class name of a band. */
  function ColorClass(c: MatchColor): string
  {
    match c
    case Success => "bg-success"
    case Accent => "bg-accent"
    case Warning => "bg-warning"
    case Destructive => "bg-destructive"
  }

  /** How good a band is: 3 for the best. */
  function Grade(c: MatchColor): nat
  {
    match c
    case Success => 3
    case Accent => 2
    case Warning => 1
    case Destructive => 0
  }

  /** `getMatchPercentageColor`. */
  function MatchPercentageColor(percentage: int): (c: MatchColor)
    ensures c == Success <==> percentage >= 90
    ensures c == Accent <==> 75 <= percentage < 90
    ensures c == Warning <==> 60 <= percentage < 75
    ensures c == Destructive <==> percentage < 60
  {
    if percentage >= 90 then Success
    else if percentage >= 75 then Accent
    else if percentage >= 60 then Warning
    else Destructive
  }

  /** A higher percentage never gets a worse colour. */
  lemma MatchColorMonotone(p: int, q: int)
    requires p <= q
    ensures Grade(MatchPercentageColor(p)) <= Grade(MatchPercentageColor(q))
  {
  }

  /** Recommended schemes score at least 50, so every band can occur among
      them: 60 is a warning, 75 an accent, 80 an accent and 100 a success. */
  lemma RecommendedBands()
    ensures MatchPercentageColor(50) == Destructive
    ensures MatchPercentageColor(60) == Warning
    ensures MatchPercentageColor(75) == Accent && MatchPercentageColor(80) == Accent
    ensures MatchPercentageColor(100) == Success
  {
  }

  // ---------------------------------------------------------------------
  // Deadline

  /** A scheme's deadline as the card sees it: the whole days left
      (`Math.ceil` of the time difference) and the date in the browser's
      locale. */
  datatype Deadline = Deadline(daysLeft: int, localeDate: string)

  const DaysLeftSuffix := " days left"

  /** `formatDeadline`. */
  function FormatDeadline(deadline: Option<Deadline>): (r: string)
    ensures deadline.None? ==> r == "Ongoing"
    ensures deadline.Some? && deadline.value.daysLeft < 0 ==> r == "Expired"
    ensures deadline.Some? && deadline.value.daysLeft == 0 ==> r == "Today"
    ensures deadline.Some? && deadline.value.daysLeft == 1 ==> r == "Tomorrow"
    ensures deadline.Some? && 2 <= deadline.value.daysLeft <= 7 ==>
      r == NatToString(deadline.value.daysLeft) + DaysLeftSuffix
    ensures deadline.Some? && deadline.value.daysLeft > 7 ==> r == deadline.value.localeDate
  {
    match deadline
    case None => "Ongoing"
    case Some(Deadline(d, shown)) =>
      if d < 0 then "Expired"
      else if d == 0 then "Today"
      else if d == 1 then "Tomorrow"
      else if d <= 7 then NatToString(d) + DaysLeftSuffix
      else shown
  }

  /** `isExpiringSoon`. */
  function IsExpiringSoon(deadline: Option<Deadline>): (r: bool)
    ensures r <==> deadline.Some? && 0 < deadline.value.daysLeft <= 7
  {
    match deadline
    case None => false
    case Some(Deadline(d, _)) => d <= 7 && d > 0
  }

  /** A card flagged as expiring soon shows "Tomorrow" or a count of days
      between 2 and 7, never "Today", "Expired" or a date. */
  lemma ExpiringSoonText(deadline: Option<Deadline>)
    requires IsExpiringSoon(deadline)
    ensures FormatDeadline(deadline) == "Tomorrow" ||
      exists d: nat :: 2 <= d <= 7 && FormatDeadline(deadline) == NatToString(d) + DaysLeftSuffix
  {
    var d := deadline.value.daysLeft;
    if d != 1 {
      assert FormatDeadline(deadline) == NatToString(d) + DaysLeftSuffix;
    }
  }

  /** A deadline due today is not "expiring soon" although it has not
      expired. */
  lemma DueTodayIsNotExpiringSoon(shown: string)
    ensures !IsExpiringSoon(Some(Deadline(0, shown)))
    ensures FormatDeadline(Some(Deadline(0, shown))) == "Today"
  {
  }

  // ---------------------------------------------------------------------
  // Apply button

  /** The apply button's label; it is disabled exactly when applied. */
  function ApplyLabel(isApplied: bool, applicationStatus: Option<string>): (r: string)
    ensures !isApplied ==> r == "Apply Now"
    ensures isApplied && applicationStatus == Some("completed") ==> r == "Completed"
    ensures isApplied && applicationStatus != Some("completed") ==> r == "Applied"
  {
    if isApplied then (if applicationStatus == Some("completed") then "Completed" else "Applied")
    else "Apply Now"
  }

  /** A completed application is the one case where badge and label both
      read "Completed". */
  lemma CompletedBadgeAndLabel()
    ensures StatusBadge(true, Some("completed")) == Some(Badge("bg-success", "Completed"))
    ensures ApplyLabel(true, Some("completed")) == "Completed"
  {
  }

  // ---------------------------------------------------------------------
  // Eligibility badges

  /** The "Key Eligibility" block: the criteria shown, and how many more
      there are when some are hidden (the `+{n} more` badge). */
  datatype EligibilityView = Criteria(shown: seq<string>, hidden: Option<nat>) | SeeDetails

  /** The block is rendered for any truthy `eligibilityCriteria` (an array
      always is): an array shows its first three entries and, past three,
      the count of the rest; any other truthy value shows a note referring to the
      details. */
  function Eligibility(criteria: JsonList): (r: Option<EligibilityView>)
    ensures r.None? <==> Scorer.Unrestricted(criteria)
    ensures criteria.List? ==>
      var n := |criteria.items|;
      && r.Some? && r.value.Criteria?
      && |r.value.shown| == (if n < 3 then n else 3)
      && r.value.shown == criteria.items[..|r.value.shown|]
      && (r.value.hidden.Some? <==> n > 3)
      && (r.value.hidden.Some? ==> r.value.hidden.value + 3 == n)
    ensures criteria.NonList? && criteria.truthy ==> r == Some(SeeDetails)
  {
    match criteria
    case Absent => None
    case NonList(truthy) => if truthy then Some(SeeDetails) else None
    case List(items) =>
      var n := |items|;
      Some(Criteria(items[..if n < 3 then n else 3], if n > 3 then Some(n - 3) else None))
  }

  /** Shown and hidden criteria together account for the whole list. */
  lemma EligibilityAccountsForAll(items: seq<string>)
    ensures var v := Eligibility(List(items)).value;
            |v.shown| + v.hidden.GetOr(0) == |items|
  {
  }
}
