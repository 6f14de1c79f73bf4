/** The customer's bookings page (`MyBookings`): the status badge, the two
    counters, which actions a booking card offers, and the confirm-gated
    cancel. */
module MyBookings {

  import opened Common
  import Seqs

  /** `getStatusBadge`: a lookup in a three-entry table with "badge-ghost"
      for any other status. */
  function StatusBadge(status: string): (c: string)
    ensures status == "pending" <==> c == "badge-warning"
    ensures status == "confirmed" <==> c == "badge-success"
    ensures status == "cancelled" <==> c == "badge-error"
    ensures c == "badge-ghost" <==> status !in {"pending", "confirmed", "cancelled"}
  {
    if status == "pending" then "badge-warning"
    else if status == "confirmed" then "badge-success"
    else if status == "cancelled" then "badge-error"
    else "badge-ghost"
  }

  predicate IsPending(b: Booking) {
    b.status == "pending"
  }

  predicate NotPending(b: Booking) {
    b.status != "pending"
  }

  predicate IsCompleted(b: Booking) {
    b.projectStatus == Some("completed")
  }

  /** The "Pending" counter: bookings whose status is "pending". */
  function PendingCount(bookings: seq<Booking>): (n: nat)
    ensures n <= |bookings|
    ensures n == 0 <==> forall i :: 0 <= i < |bookings| ==> !IsPending(bookings[i])
  {
    var f := Seqs.Filter(IsPending, bookings);
    assert f != [] ==> IsPending(f[0]) && f[0] in bookings;
    |f|
  }

  /** The "Completed" counter: bookings whose project status is
      "completed", whatever their booking status. */
  function CompletedCount(bookings: seq<Booking>): (n: nat)
    ensures n <= |bookings|
    ensures n == 0 <==> forall i :: 0 <= i < |bookings| ==> !IsCompleted(bookings[i])
  {
    var f := Seqs.Filter(IsCompleted, bookings);
    assert f != [] ==> IsCompleted(f[0]) && f[0] in bookings;
    |f|
  }

  /** The pending counter and the count of the other bookings add up to
      the total shown beside them. */
  lemma PendingAndRestMakeTotal(bookings: seq<Booking>)
    ensures PendingCount(bookings) + |Seqs.Filter(NotPending, bookings)| == |bookings|
  {
    Seqs.FilterPartition(IsPending, NotPending, bookings);
  }

  /** Both counters add up over a split of the list. */
  lemma CountsAdd(a: seq<Booking>, b: seq<Booking>)
    ensures PendingCount(a + b) == PendingCount(a) + PendingCount(b)
    ensures CompletedCount(a + b) == CompletedCount(a) + CompletedCount(b)
  {
    Seqs.FilterAppend(IsPending, a, b);
    Seqs.FilterAppend(IsCompleted, a, b);
  }

  /** "Pay Now": an unpaid pending booking. The button has no click handler. */
  function PayNowShown(b: Booking): (shown: bool)
    ensures shown <==> !b.paid && b.status == "pending"
  {
    !b.paid && IsPending(b)
  }

  /** "Cancel": any pending booking, paid or not. */
  function CancelShown(b: Booking): (shown: bool)
    ensures shown <==> b.status == "pending"
  {
    IsPending(b)
  }

  /** Every card that offers "Pay Now" also offers "Cancel"; whether it offers
      "Cancel" does not depend on payment, so a paid pending booking can still
      be cancelled from here. */
  lemma CancelIgnoresPayment(b: Booking)
    ensures PayNowShown(b) ==> CancelShown(b)
    ensures CancelShown(b) == CancelShown(b.(paid := !b.paid))
    ensures b.status == "pending" && b.paid ==> CancelShown(b) && !PayNowShown(b)
  {
  }

  /** `handleCancelBooking`: the DELETE of the booking goes out only after a
      yes to the confirm dialog. */
  function CancelRequest(bookingId: string, confirmed: bool): (r: Option<string>)
    ensures r.Some? <==> confirmed
    ensures r.Some? ==> r.value == bookingId
  {
    if confirmed then Some(bookingId) else None
  }

  /** The bookings query runs only for a user with an email. */
  function FetchEnabled(email: Option<string>): (enabled: bool)
    ensures enabled <==> email.Some? && email.value != ""
  {
    Truthy(email)
  }

  /** One card of the list: its badge and the two optional buttons. */
  datatype Card = Card(bookingId: string, badge: string, payNow: bool, cancel: bool)

  datatype BookingsView = Spinner | NoBookings | Cards(cards: seq<Card>)

  function CardFor(b: Booking): Card {
    Card(b.id, StatusBadge(b.status), PayNowShown(b), CancelShown(b))
  }

  function CardsFor(bookings: seq<Booking>): (cs: seq<Card>)
    ensures |cs| == |bookings|
    ensures forall i :: 0 <= i < |cs| ==> cs[i] == CardFor(bookings[i])
  {
    if bookings == [] then [] else [CardFor(bookings[0])] + CardsFor(bookings[1..])
  }

  /** The page: a spinner while loading, the "No Bookings Yet" panel for an
      empty list, else one card per booking in list order. */
  function View(isLoading: bool, bookings: seq<Booking>): (v: BookingsView)
    ensures v == Spinner <==> isLoading
    ensures v == NoBookings <==> !isLoading && bookings == []
    ensures v.Cards? ==> |v.cards| == |bookings| > 0 &&
                         forall i :: 0 <= i < |bookings| ==>
                           v.cards[i].bookingId == bookings[i].id &&
                           v.cards[i].badge == StatusBadge(bookings[i].status) &&
                           (v.cards[i].payNow <==> !bookings[i].paid && bookings[i].status == "pending") &&
                           (v.cards[i].cancel <==> bookings[i].status == "pending")
  {
    if isLoading then Spinner
    else if bookings == [] then NoBookings
    else Cards(CardsFor(bookings))
  }
}
