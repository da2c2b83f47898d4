/**
 * The booking list of the provider dashboard: the tab filters over the fetched bookings and the
 * status badge. Dates are day numbers; `today` is the caller's current day.
 */
module BookingTabs {
  import opened Seqs

  datatype Booking = Booking(date: int, status: string)

  /** The five statuses a booking can have on the backend. */
  const STATUSES: seq<string> := ["pending", "confirmed", "completed", "cancelled", "no_show"]

  predicate IsUpcoming(b: Booking, today: int) {
    b.date >= today && b.status in ["pending", "confirmed"]
  }

  predicate IsPast(b: Booking, today: int) {
    b.date < today || b.status in ["completed", "cancelled", "no_show"]
  }

  /** `filterBookings(tab)`: the bookings shown under a tab. */
  function FilterBookings(bookings: seq<Booking>, tab: string, today: int): seq<Booking> {
    match tab
    case "upcoming" => Filter(bookings, b => IsUpcoming(b, today))
    case "past" => Filter(bookings, b => IsPast(b, today))
    case "pending" => Filter(bookings, (b: Booking) => b.status == "pending")
    case _ => bookings
  }

  /** `getStatusBadge`: the badge class of a status, grey for any status not in the table. */
  function StatusBadge(status: string): (r: string)
  {
    "badge " + match status
      case "pending" => "bg-warning"
      case "confirmed" => "bg-info"
      case "completed" => "bg-success"
      case "cancelled" => "bg-danger"
      case "no_show" => "bg-secondary"
      case _ => "bg-secondary"
  }

  /** The upcoming tab holds exactly the bookings from today on that are pending or confirmed. */
  lemma UpcomingExactly(bookings: seq<Booking>, today: int)
    ensures forall b :: b in FilterBookings(bookings, "upcoming", today) <==>
              b in bookings && b.date >= today && (b.status == "pending" || b.status == "confirmed")
  {
  }

  /** The past tab holds exactly the bookings before today or in a finished status. */
  lemma PastExactly(bookings: seq<Booking>, today: int)
    ensures forall b :: b in FilterBookings(bookings, "past", today) <==>
              b in bookings
              && (b.date < today || b.status == "completed" || b.status == "cancelled" || b.status == "no_show")
  {
  }

  /** The pending tab ignores the date; any tab other than the three named shows everything. */
  lemma PendingAndDefault(bookings: seq<Booking>, today: int, tab: string)
    ensures forall b :: b in FilterBookings(bookings, "pending", today) <==> b in bookings && b.status == "pending"
    ensures tab != "upcoming" && tab != "past" && tab != "pending" ==> FilterBookings(bookings, tab, today) == bookings
  {
  }

  /** Every tab lists some of the bookings in their original order. */
  lemma TabsPreserveOrder(bookings: seq<Booking>, tab: string, today: int)
    ensures Subsequence(FilterBookings(bookings, tab, today), bookings)
  {
    SubsequenceSelf(bookings);
  }

  /** For a known status, a booking is upcoming or past, never both. */
  lemma KnownStatusInExactlyOne(b: Booking, today: int)
    requires b.status in STATUSES
    ensures IsUpcoming(b, today) != IsPast(b, today)
  {
  }

  /**
   * When every booking has a known status, the upcoming and past tabs split the list: each
   * booking appears in exactly one of them, as often as it appears in the list.
   */
  lemma UpcomingAndPastPartition(bookings: seq<Booking>, today: int)
    requires forall i :: 0 <= i < |bookings| ==> bookings[i].status in STATUSES
    ensures multiset(FilterBookings(bookings, "upcoming", today)) + multiset(FilterBookings(bookings, "past", today))
            == multiset(bookings)
    ensures |FilterBookings(bookings, "upcoming", today)| + |FilterBookings(bookings, "past", today)| == |bookings|
  {
    forall i | 0 <= i < |bookings|
      ensures IsUpcoming(bookings[i], today) != IsPast(bookings[i], today)
    {
      KnownStatusInExactlyOne(bookings[i], today);
    }
    ComplementaryFilters(bookings, b => IsUpcoming(b, today), b => IsPast(b, today));
  }

  /** A booking from today on with a status outside the five is on neither tab. */
  lemma UnknownFutureStatusOnNeitherTab(b: Booking, today: int)
    requires b.date >= today && b.status !in STATUSES
    ensures b !in FilterBookings([b], "upcoming", today) && b !in FilterBookings([b], "past", today)
  {
  }

  /** The five statuses get their own classes; every other status is grey. */
  lemma StatusBadgeTable(status: string)
    ensures StatusBadge("pending") == "badge bg-warning"
    ensures StatusBadge("confirmed") == "badge bg-info"
    ensures StatusBadge("completed") == "badge bg-success"
    ensures StatusBadge("cancelled") == "badge bg-danger"
    ensures StatusBadge("no_show") == "badge bg-secondary"
    ensures status !in STATUSES ==> StatusBadge(status) == "badge bg-secondary"
  {
  }
}
