/** The page the payment provider returns to (`PaymentSuccess`): its one-shot
    effect, which either sends the customer back to the bookings list or
    asks the backend to verify the payment, the `verifying` flag the verify
    callbacks clear, and what the page shows. */
module PaymentSuccess {

  import opened Common

  const BookingsPath: string := "/dashboard/my-bookings"

  /** The body of `POST /verify-payment`. */
  datatype VerifyRequest = VerifyRequest(sessionId: string, bookingId: string)

  /** What one run of the effect does. */
  datatype EffectAction = RedirectToBookings | Verify(request: VerifyRequest)

  /** The effect's decision on the two query parameters, each `null` when
      absent: without a truthy `session_id` and a truthy `booking_id` there
      is nothing to verify. */
  function Decide(sessionId: Option<string>, bookingId: Option<string>): (a: EffectAction)
    ensures a.Verify? <==> Truthy(sessionId) && Truthy(bookingId)
    ensures a.Verify? ==> a.request == VerifyRequest(sessionId.value, bookingId.value)
  {
    if !Truthy(sessionId) || !Truthy(bookingId) then RedirectToBookings
    else Verify(VerifyRequest(sessionId.value, bookingId.value))
  }

  /** What the card shows. */
  datatype Panel = VerifyingPanel | SuccessPanel | FailurePanel

  /** The page state. `verifying` is the source's state field; `failed` is
      the one field the corrected page adds. The rest records the effects:
      navigations, verify requests sent, toasts, verify requests still
      awaiting their answer, and redirect timers still to fire. */
  class PaymentReturn {
    var verifying: bool
    var failed: bool
    var navigations: seq<string>
    var requests: seq<VerifyRequest>
    var toasts: seq<Toast>
    var inFlight: nat
    var timers: nat
    /** Whether some verify request has been answered with success. */
    ghost var confirmed: bool

    /** The card as written: the spinner while verifying, then the success
        panel, whichever way verification ended. */
    function PanelAsWritten(): (p: Panel)
      reads this
      ensures p == VerifyingPanel <==> verifying
      ensures p != FailurePanel
    {
      if verifying then VerifyingPanel else SuccessPanel
    }

    /** The card of the corrected page. */
    function Shown(): (p: Panel)
      reads this
      ensures p == VerifyingPanel <==> verifying
      ensures p == FailurePanel <==> !verifying && failed
    {
      if verifying then VerifyingPanel else if failed then FailurePanel else SuccessPanel
    }

    /** The corrected page shows success only once the backend confirmed. */
    ghost predicate Valid()
      reads this
    {
      Shown() == SuccessPanel ==> confirmed
    }

    /** The page as mounted, before its effect runs. */
    constructor ()
      ensures Valid() && verifying && !failed && !confirmed
      ensures navigations == [] && requests == [] && toasts == [] && inFlight == 0 && timers == 0
    {
      verifying, failed := true, false;
      navigations, requests, toasts := [], [], [];
      inFlight, timers := 0, 0;
      confirmed := false;
    }

    /** One run of the effect: a navigation to the bookings list and no
        request, or exactly one verify request carrying both ids. */
    method RunEffect(sessionId: Option<string>, bookingId: Option<string>)
      requires Valid()
      modifies this
      ensures Valid()
      ensures Decide(sessionId, bookingId) == RedirectToBookings ==>
                navigations == old(navigations) + [BookingsPath] &&
                requests == old(requests) && inFlight == old(inFlight)
      ensures Decide(sessionId, bookingId).Verify? ==>
                navigations == old(navigations) &&
                requests == old(requests) + [Decide(sessionId, bookingId).request] &&
                inFlight == old(inFlight) + 1
      ensures verifying == old(verifying) && failed == old(failed) && confirmed == old(confirmed)
      ensures toasts == old(toasts) && timers == old(timers)
    {
      var action := Decide(sessionId, bookingId);
      if action.RedirectToBookings? {
        navigations := navigations + [BookingsPath];
        return;
      }
      requests := requests + [action.request];
      inFlight := inFlight + 1;
    }

    /** A verify request resolves: success toast, `verifying` cleared, and a
        3-second redirect to the bookings list scheduled. */
    method OnVerifyResolved()
      requires inFlight > 0
      modifies this
      ensures Valid()
      ensures !verifying && confirmed && failed == old(failed)
      ensures toasts == old(toasts) + [SuccessToast("Payment successful!")]
      ensures timers == old(timers) + 1 && inFlight == old(inFlight) - 1
      ensures navigations == old(navigations) && requests == old(requests)
    {
      toasts := toasts + [SuccessToast("Payment successful!")];
      verifying := false;
      timers := timers + 1;
      inFlight := inFlight - 1;
      confirmed := true;
    }

    /** A verify request is rejected, as written: error toast and `verifying`
        cleared, with no redirect scheduled and nothing recorded of the
        failure. */
    method OnVerifyRejectedAsWritten()
      requires inFlight > 0
      modifies this
      ensures !verifying && failed == old(failed) && confirmed == old(confirmed)
      ensures toasts == old(toasts) + [ErrorToast("Payment verification failed")]
      ensures timers == old(timers) && inFlight == old(inFlight) - 1
      ensures navigations == old(navigations) && requests == old(requests)
    {
      toasts := toasts + [ErrorToast("Payment verification failed")];
      verifying := false;
      inFlight := inFlight - 1;
    }

    /** The corrected rejection handler: the same, and the failure is kept
        so that the card can report it. */
    method OnVerifyRejected()
      requires Valid() && inFlight > 0
      modifies this
      ensures Valid()
      ensures !verifying && failed && confirmed == old(confirmed)
      ensures Shown() == FailurePanel
      ensures toasts == old(toasts) + [ErrorToast("Payment verification failed")]
      ensures timers == old(timers) && inFlight == old(inFlight) - 1
      ensures navigations == old(navigations) && requests == old(requests)
    {
      toasts := toasts + [ErrorToast("Payment verification failed")];
      verifying := false;
      failed := true;
      inFlight := inFlight - 1;
    }

    /** A scheduled redirect fires. */
    method OnRedirectTimer()
      requires timers > 0
      modifies this`navigations, this`timers
      ensures navigations == old(navigations) + [BookingsPath] && timers == old(timers) - 1
    {
      navigations := navigations + [BookingsPath];
      timers := timers - 1;
    }
  }

  /** The counterexample for the page as written: both ids present, the
      backend rejects the verification, and the card says "Payment
      Successful!" beside the "Payment verification failed" toast, with no
      redirect pending. */
  method FailedVerificationShowsSuccess() returns (contradictory: bool)
    ensures contradictory
  {
    var page := new PaymentReturn();
    page.RunEffect(Some("cs_test_1"), Some("b1"));
    page.OnVerifyRejectedAsWritten();
    contradictory := page.PanelAsWritten() == SuccessPanel &&
                     page.toasts == [ErrorToast("Payment verification failed")] &&
                     page.timers == 0;
  }

  /** The same run on the corrected page reports the failure. */
  method FailedVerificationShowsFailure() returns (reported: bool)
    ensures reported
  {
    var page := new PaymentReturn();
    page.RunEffect(Some("cs_test_1"), Some("b1"));
    page.OnVerifyRejected();
    reported := page.Shown() == FailurePanel && page.timers == 0;
  }

  /** Missing ids: the effect goes back to the bookings list, and with no
      request in flight the card stays on its spinner. */
  method MissingIdsRedirect(sessionId: Option<string>, bookingId: Option<string>)
    returns (navigations: seq<string>, requests: seq<VerifyRequest>, panel: Panel)
    requires !Truthy(sessionId) || !Truthy(bookingId)
    ensures navigations == [BookingsPath] && requests == [] && panel == VerifyingPanel
  {
    var page := new PaymentReturn();
    page.RunEffect(sessionId, bookingId);
    navigations, requests, panel := page.navigations, page.requests, page.Shown();
  }

  /** A successful verification: one request with both ids, the success
      panel, and the redirect to the bookings list once its timer fires. */
  method SuccessfulVerification(sessionId: string, bookingId: string)
    returns (requests: seq<VerifyRequest>, panel: Panel, navigations: seq<string>)
    requires sessionId != "" && bookingId != ""
    ensures requests == [VerifyRequest(sessionId, bookingId)]
    ensures panel == SuccessPanel
    ensures navigations == [BookingsPath]
  {
    var page := new PaymentReturn();
    page.RunEffect(Some(sessionId), Some(bookingId));
    page.OnVerifyResolved();
    panel := page.Shown();
    page.OnRedirectTimer();
    requests, navigations := page.requests, page.navigations;
  }
}
