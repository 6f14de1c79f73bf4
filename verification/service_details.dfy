/** The service detail page (`ServiceDetails`): which view it shows for the
    fetched service, and the booking modal whose submit handler checks the
    user and the two fields, builds the booking record and posts it. */
module ServiceDetails {

  import opened Common
  import JsStrings

  /** The signed-in user as the auth context exposes it. */
  datatype User = User(email: string, displayName: Option<string>)

  /** The fields of `GET /services/{id}` that the booking copies. */
  datatype Service = Service(id: string, name: string, cost: int)

  /** The body of `POST /bookings`. */
  datatype NewBooking = NewBooking(
    userEmail: string,
    userName: Option<string>,
    serviceId: string,
    serviceName: string,
    bookingDate: string,
    location: string,
    totalCost: int,
    status: string,
    paymentStatus: string)

  datatype DetailsView = Spinner | NotFound | Details(service: Service)

  /** The page's three branches: loading, then a failed fetch or a missing
      service as "Service not found", then the details. */
  function View(isLoading: bool, isError: bool, service: Option<Service>): (v: DetailsView)
    ensures v == Spinner <==> isLoading
    ensures v == NotFound <==> !isLoading && (isError || service.None?)
    ensures v.Details? ==> !isError && service == Some(v.service)
  {
    if isLoading then Spinner
    else if isError || service.None? then NotFound
    else Details(service.value)
  }

  /** `new Date().toISOString().split("T")[0]`: the date part of the current
      instant's ISO string, used as the date input's `min`. */
  function MinBookingDate(isoNow: string): string {
    JsStrings.Split(isoNow, 'T')[0]
  }

  /** For an ISO timestamp `date + "T" + time` the lower bound is `date`, the
      current UTC calendar day. */
  lemma {:induction false} MinBookingDateIsToday(date: string, time: string)
    requires 'T' !in date
    ensures MinBookingDate(date + "T" + time) == date
  {
    JsStrings.SplitAtSeparator(date, 'T', time);
  }

  /** How the awaited `POST /bookings` ended: rejected (network error or a
      non-2xx status), or resolved with a truthy or falsy `res.data`. */
  datatype PostOutcome = Rejected | Resolved(dataTruthy: bool)

  /** The state fields of the booking modal. */
  class BookingModal {
    var showModal: bool
    var bookingDate: string
    var location: string
    var submitting: bool

    constructor ()
      ensures !showModal && bookingDate == "" && location == "" && !submitting
    {
      showModal, bookingDate, location, submitting := false, "", "", false;
    }

    /** "Book Now". */
    method Open()
      modifies this`showModal
      ensures showModal
    {
      showModal := true;
    }

    /** Typing into the date and location inputs. */
    method Edit(date: string, loc: string)
      modifies this`bookingDate, this`location
      ensures bookingDate == date && location == loc
    {
      bookingDate, location := date, loc;
    }

    /** The booking that the handler posts once both checks pass. */
    function PendingBooking(u: User, s: Service): (b: NewBooking)
      reads this
    {
      NewBooking(u.email, u.displayName, s.id, s.name, bookingDate, location, s.cost,
                 "pending", "pending")
    }

    /** `handleBookingSubmit` as written. The user check comes first (toast
        and navigate to /login), then the field check (toast only); neither
        posts. Otherwise the booking copies the user's email and name and the
        service's id, name and cost, starts "pending"/"pending", and is
        posted with `submitting` set. A truthy response closes the modal and
        navigates to the bookings list. Nothing catches a rejected post, so
        the final `setSubmitting(false)` never runs and `submitting` stays
        true: both modal buttons remain disabled. */
    method HandleBookingSubmitAsWritten(user: Option<User>, service: Service, post: PostOutcome)
      returns (posted: Option<NewBooking>, toast: Option<Toast>, nav: Option<Nav>)
      modifies this`showModal, this`submitting
      ensures user.None? ==> posted.None? && nav == Some(Navigate("/login", false))
                             && toast == Some(ErrorToast("Please login to book a service"))
      ensures user.Some? && (bookingDate == "" || location == "") ==>
                posted.None? && nav.None? && toast == Some(ErrorToast("Please fill in all fields"))
      ensures posted.None? ==> showModal == old(showModal) && submitting == old(submitting)
      ensures posted.Some? <==> user.Some? && bookingDate != "" && location != ""
      ensures posted.Some? ==>
                var b := posted.value;
                b == PendingBooking(user.value, service) &&
                b.userEmail == user.value.email && b.serviceId == service.id &&
                b.totalCost == service.cost && b.status == "pending" && b.paymentStatus == "pending"
      ensures posted.Some? && post == Resolved(true) ==>
                !showModal && !submitting && nav == Some(Navigate("/dashboard/my-bookings", false))
                && toast == Some(SuccessToast("Booking created successfully! Please complete payment."))
      ensures posted.Some? && post == Resolved(false) ==>
                showModal == old(showModal) && !submitting && nav.None? && toast.None?
      ensures posted.Some? && post == Rejected ==>
                showModal == old(showModal) && submitting && nav.None? && toast.None?
    {
      posted, toast, nav := None, None, None;
      if user.None? {
        toast := Some(ErrorToast("Please login to book a service"));
        nav := Some(Navigate("/login", false));
        return;
      }
      if bookingDate == "" || location == "" {
        toast := Some(ErrorToast("Please fill in all fields"));
        return;
      }
      submitting := true;
      posted := Some(PendingBooking(user.value, service));
      if post.Rejected? {
        return;
      }
      if post.dataTruthy {
        toast := Some(SuccessToast("Booking created successfully! Please complete payment."));
        showModal := false;
        nav := Some(Navigate("/dashboard/my-bookings", false));
      }
      submitting := false;
    }

    /** `handleBookingSubmit` with the reset of `submitting` done whatever the
        post's outcome, as the disabled buttons evidently intend. Identical to
        the handler as written on every other path. */
    method HandleBookingSubmit(user: Option<User>, service: Service, post: PostOutcome)
      returns (posted: Option<NewBooking>, toast: Option<Toast>, nav: Option<Nav>)
      modifies this`showModal, this`submitting
      ensures user.None? ==> posted.None? && nav == Some(Navigate("/login", false))
                             && toast == Some(ErrorToast("Please login to book a service"))
      ensures user.Some? && (bookingDate == "" || location == "") ==>
                posted.None? && nav.None? && toast == Some(ErrorToast("Please fill in all fields"))
      ensures posted.None? ==> showModal == old(showModal) && submitting == old(submitting)
      ensures posted.Some? <==> user.Some? && bookingDate != "" && location != ""
      ensures posted.Some? ==> posted.value == PendingBooking(user.value, service) && !submitting
      ensures posted.Some? && post == Resolved(true) ==>
                !showModal && nav == Some(Navigate("/dashboard/my-bookings", false))
                && toast == Some(SuccessToast("Booking created successfully! Please complete payment."))
      ensures posted.Some? && post != Resolved(true) ==>
                showModal == old(showModal) && nav.None? && toast.None?
    {
      posted, toast, nav := None, None, None;
      if user.None? {
        toast := Some(ErrorToast("Please login to book a service"));
        nav := Some(Navigate("/login", false));
        return;
      }
      if bookingDate == "" || location == "" {
        toast := Some(ErrorToast("Please fill in all fields"));
        return;
      }
      submitting := true;
      posted := Some(PendingBooking(user.value, service));
      if post == Resolved(true) {
        toast := Some(SuccessToast("Booking created successfully! Please complete payment."));
        showModal := false;
        nav := Some(Navigate("/dashboard/my-bookings", false));
      }
      submitting := false;
    }

    /** The Cancel button (disabled while submitting). */
    method Cancel()
      requires !submitting
      modifies this`showModal
      ensures !showModal
    {
      showModal := false;
    }
  }

  /** The counterexample for the handler as written: a signed-in user with
      both fields filled in whose post is rejected is left with a modal whose
      buttons stay disabled. */
  method RejectedPostLocksModal() returns (locked: bool)
    ensures locked
  {
    var m := new BookingModal();
    m.Open();
    m.Edit("2026-10-12", "Dhaka");
    var posted, toast, nav := m.HandleBookingSubmitAsWritten(
      Some(User("a@b.c", None)), Service("s1", "Wedding Stage", 5000), Rejected);
    locked := m.showModal && m.submitting && posted.Some?;
  }

  /** With the corrected handler the same run leaves the modal usable. */
  method RejectedPostLeavesModalUsable() returns (usable: bool)
    ensures usable
  {
    var m := new BookingModal();
    m.Open();
    m.Edit("2026-10-12", "Dhaka");
    var posted, toast, nav := m.HandleBookingSubmit(
      Some(User("a@b.c", None)), Service("s1", "Wedding Stage", 5000), Rejected);
    usable := m.showModal && !m.submitting && posted.Some?;
  }
}
