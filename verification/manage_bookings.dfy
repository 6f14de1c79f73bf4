/** The admin bookings page (`ManageBookings`): its two list filters, the
    per-row assign action, and the assign-decorator modal, which only ever
    holds a paid booking. */
module ManageBookings {

  import opened Common

  /** An entry of `GET /admin/decorators/active`. */
  datatype Decorator = Decorator(email: string, name: string)

  /** The query of `GET /admin/bookings`: `status` and `paid` are sent only
      when their filter is not "all", in that order. */
  function BookingsQuery(statusFilter: string, paidFilter: string): (ps: Params)
    ensures "status" in Names(ps) <==> statusFilter != "all"
    ensures "paid" in Names(ps) <==> paidFilter != "all"
    ensures |ps| == (if statusFilter != "all" then 1 else 0) + (if paidFilter != "all" then 1 else 0)
    ensures statusFilter != "all" ==> ps[0] == ("status", statusFilter)
    ensures paidFilter != "all" ==> ps[|ps| - 1] == ("paid", paidFilter)
  {
    AppendIf(AppendIf([], statusFilter != "all", "status", statusFilter),
             paidFilter != "all", "paid", paidFilter)
  }

  /** `decorators.find(d => d.email === email)`: the first entry with that
      email, if any. */
  function FindByEmail(ds: seq<Decorator>, email: string): (r: Option<Decorator>)
    ensures r.Some? ==> r.value in ds && r.value.email == email
    ensures r.Some? ==> exists i :: 0 <= i < |ds| && ds[i] == r.value &&
                                    forall j :: 0 <= j < i ==> ds[j].email != email
    ensures r.None? <==> forall i :: 0 <= i < |ds| ==> ds[i].email != email
  {
    if ds == [] then None
    else if ds[0].email == email then Some(ds[0])
    else
      var r := FindByEmail(ds[1..], email);
      if r.Some? then
        ghost var i :| 0 <= i < |ds[1..]| && ds[1..][i] == r.value &&
                       forall j :: 0 <= j < i ==> ds[1..][j].email != email;
        assert ds[i + 1] == r.value;
        r
      else r
  }

  /** The action cell of a row: the assign button (disabled for an unpaid
      booking) while no decorator is assigned, else the "Assigned" mark. */
  datatype AssignCell = AssignButton(enabled: bool) | AssignedMark

  function AssignCellFor(b: Booking): (c: AssignCell)
    ensures c.AssignButton? <==> !Truthy(b.assignedDecoratorEmail)
    ensures c.AssignButton? ==> (c.enabled <==> b.paid)
  {
    if !Truthy(b.assignedDecoratorEmail) then AssignButton(b.paid) else AssignedMark
  }

  /** The modal's submit button is disabled while a mutation is pending or
      when there is no active decorator to choose. */
  function SubmitDisabled(isPending: bool, decorators: seq<Decorator>): (d: bool)
    ensures |decorators| == 0 ==> d
    ensures !d <==> !isPending && |decorators| > 0
  {
    isPending || |decorators| == 0
  }

  /** The body of `PATCH /admin/bookings/{id}/assign-decorator`. */
  datatype Assignment = Assignment(bookingId: string, decoratorEmail: string, decoratorName: string)

  /** What submitting the modal does: a toast for an empty selection, the
      mutation, or a `TypeError` when the selection is not in the list (the
      handler reads `.email` of `undefined`). */
  datatype SubmitResult = NoSelection(toast: Toast) | Dispatch(request: Assignment) | TypeError

  /** The modal fields of the page. */
  class AssignModal {
    var showAssignModal: bool
    var selectedBooking: Option<Booking>
    var selectedDecorator: string

    /** The modal only ever holds a paid booking, and is only open with one. */
    ghost predicate Valid()
      reads this
    {
      (selectedBooking.Some? ==> selectedBooking.value.paid) &&
      (showAssignModal ==> selectedBooking.Some?)
    }

    constructor ()
      ensures Valid()
      ensures !showAssignModal && selectedBooking.None? && selectedDecorator == ""
    {
      showAssignModal, selectedBooking, selectedDecorator := false, None, "";
    }

    /** `handleAssignClick`: an unpaid booking gets an error toast and the
        modal stays as it was; a paid one is selected and the modal opens. */
    method HandleAssignClick(b: Booking) returns (toast: Option<Toast>)
      requires Valid()
      modifies this`showAssignModal, this`selectedBooking
      ensures Valid()
      ensures !b.paid ==> toast == Some(ErrorToast("Cannot assign decorator. Payment not completed yet."))
                          && showAssignModal == old(showAssignModal)
                          && selectedBooking == old(selectedBooking)
      ensures b.paid ==> toast.None? && showAssignModal && selectedBooking == Some(b)
    {
      if !b.paid {
        toast := Some(ErrorToast("Cannot assign decorator. Payment not completed yet."));
        return;
      }
      toast := None;
      selectedBooking := Some(b);
      showAssignModal := true;
    }

    /** Choosing an entry of the select. */
    method SelectDecorator(email: string)
      modifies this`selectedDecorator
      ensures selectedDecorator == email
    {
      selectedDecorator := email;
    }

    /** `handleAssignSubmit`, reachable only through the open modal. It
        changes no state: the mutation's callbacks do. A dispatched
        assignment names the selected (hence paid) booking and the first
        active decorator whose email is the selection. */
    method HandleAssignSubmit(decorators: seq<Decorator>) returns (r: SubmitResult)
      requires Valid() && showAssignModal
      ensures selectedDecorator == "" <==> r.NoSelection?
      ensures r.NoSelection? ==> r.toast == ErrorToast("Please select a decorator")
      ensures r.Dispatch? ==> selectedBooking.value.paid
                              && r.request.bookingId == selectedBooking.value.id
                              && r.request.decoratorEmail == selectedDecorator
                              && Decorator(selectedDecorator, r.request.decoratorName) in decorators
      ensures r.Dispatch? <==> selectedDecorator != "" && FindByEmail(decorators, selectedDecorator).Some?
    {
      if selectedDecorator == "" {
        return NoSelection(ErrorToast("Please select a decorator"));
      }
      var d := FindByEmail(decorators, selectedDecorator);
      if d.None? {
        return TypeError;
      }
      r := Dispatch(Assignment(selectedBooking.value.id, d.value.email, d.value.name));
    }

    /** The Cancel button, and the mutation's `onSuccess` after its query
        invalidation and toast: the modal closes and both selections clear. */
    method CloseAssignModal()
      modifies this`showAssignModal, this`selectedBooking, this`selectedDecorator
      ensures Valid()
      ensures !showAssignModal && selectedBooking.None? && selectedDecorator == ""
    {
      showAssignModal, selectedBooking, selectedDecorator := false, None, "";
    }
  }
}
