/** Values shared by the page models: JavaScript's optional values and
    truthiness, the navigation and toast side effects every page performs,
    the booking record as the pages read it, and URLSearchParams lists. */
module Common {

  /** A value that may be `null`/`undefined` in the source. */
  datatype Option<T> = None | Some(value: T)

  /** JavaScript truthiness of an optional string: present and non-empty. */
  predicate Truthy(s: Option<string>) {
    s.Some? && s.value != ""
  }

  /** The source's `s || fallback` on an optional string. */
  function OrElse(s: Option<string>, fallback: string): (r: string)
    ensures Truthy(s) ==> r == s.value
    ensures !Truthy(s) ==> r == fallback
  {
    if Truthy(s) then s.value else fallback
  }

  /** A call of react-router's `navigate(path, { replace })`. */
  datatype Nav = Navigate(path: string, replace: bool)

  /** A react-hot-toast notification. */
  datatype Toast = SuccessToast(message: string) | ErrorToast(message: string)

  /** A booking as the dashboards receive it from the backend. A field the
      record may lack is an `Option`; `paid` is read for its truthiness. */
  datatype Booking = Booking(
    id: string,
    userEmail: string,
    userName: string,
    serviceName: string,
    bookingDate: string,
    location: string,
    totalCost: int,
    status: string,
    paid: bool,
    assignedDecoratorEmail: Option<string>,
    assignedDecoratorName: Option<string>,
    projectStatus: Option<string>)

  /** The name/value pairs appended to a `URLSearchParams`, in order. Their
      percent-encoded serialisation is not part of this model. */
  type Params = seq<(string, string)>

  /** The names present in a parameter list, in order. */
  function Names(ps: Params): (r: seq<string>)
    ensures |r| == |ps|
    ensures forall i :: 0 <= i < |ps| ==> r[i] == ps[i].0
  {
    if ps == [] then [] else [ps[0].0] + Names(ps[1..])
  }

  /** `if (cond) params.append(name, value)`. */
  function AppendIf(ps: Params, cond: bool, name: string, value: string): (r: Params)
    ensures cond ==> r == ps + [(name, value)]
    ensures !cond ==> r == ps
  {
    if cond then ps + [(name, value)] else ps
  }

}
