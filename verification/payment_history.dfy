/** The customer's payment history (`PaymentHistory`): the table rows with
    their numbers, shortened ids and status, the empty-list placeholder, and
    the summary with the total amount paid. */
module PaymentHistory {

  import opened Common
  import JsStrings

  /** A payment record as the backend returns it. Any field but the id may
      be missing; an amount is a whole number of taka here. */
  datatype Payment = Payment(
    id: string,
    serviceName: string,
    bookingId: Option<string>,
    transactionId: Option<string>,
    amount: Option<int>,
    currency: string,
    createdAt: string,
    status: Option<string>)

  /** `p.amount || 0`: a missing amount counts as 0 (and 0 stays 0). */
  function AmountOrZero(amount: Option<int>): (a: int)
    ensures amount.Some? ==> a == amount.value
    ensures amount.None? ==> a == 0
  {
    if amount.Some? then amount.value else 0
  }

  /** The reference sum of the amounts, element by element. */
  function Sum(ps: seq<Payment>): int {
    if ps == [] then 0 else AmountOrZero(ps[0].amount) + Sum(ps[1..])
  }

  /** `reduce((sum, p) => sum + (p.amount || 0), acc)`: the left fold the page
      performs, from the front of the list. */
  function Reduce(ps: seq<Payment>, acc: int): int {
    if ps == [] then acc else Reduce(ps[1..], acc + AmountOrZero(ps[0].amount))
  }

  /** The fold computes the sum: whatever it starts from, it adds the sum of
      the amounts. */
  lemma {:induction false} ReduceIsSum(ps: seq<Payment>, acc: int)
    ensures Reduce(ps, acc) == acc + Sum(ps)
  {
    if ps != [] {
      ReduceIsSum(ps[1..], acc + AmountOrZero(ps[0].amount));
    }
  }

  /** The sum over two halves of a list is the sum of their sums. */
  lemma {:induction false} SumAppend(a: seq<Payment>, b: seq<Payment>)
    ensures Sum(a + b) == Sum(a) + Sum(b)
  {
    if a == [] {
      assert a + b == b;
    } else {
      assert (a + b)[1..] == a[1..] + b;
      SumAppend(a[1..], b);
    }
  }

  /** "Total Amount Paid". */
  function TotalPaid(ps: seq<Payment>): (total: int)
    ensures total == Sum(ps)
    ensures (forall i :: 0 <= i < |ps| ==> AmountOrZero(ps[i].amount) >= 0) ==> total >= 0
  {
    ReduceIsSum(ps, 0);
    NonNegativeSum(ps);
    Reduce(ps, 0)
  }

  /** Non-negative amounts have a non-negative sum. */
  lemma {:induction false} NonNegativeSum(ps: seq<Payment>)
    ensures (forall i :: 0 <= i < |ps| ==> AmountOrZero(ps[i].amount) >= 0) ==> Sum(ps) >= 0
  {
    if ps != [] {
      NonNegativeSum(ps[1..]);
      if forall i :: 0 <= i < |ps| ==> AmountOrZero(ps[i].amount) >= 0 {
        assert forall i :: 0 <= i < |ps[1..]| ==> AmountOrZero(ps[1..][i].amount) >= 0 by {
          forall i | 0 <= i < |ps[1..]| ensures AmountOrZero(ps[1..][i].amount) >= 0 {
            assert ps[1..][i] == ps[i + 1];
          }
        }
      }
    }
  }

  /** `id?.slice(-n)`: nothing for a missing id, else its last `n`
      characters (all of it when shorter). */
  function IdSuffix(id: Option<string>, n: nat): (r: Option<string>)
    requires n > 0
    ensures r.None? <==> id.None?
    ensures r.Some? ==> |r.value| == (if |id.value| < n then |id.value| else n)
    ensures r.Some? ==> exists k :: 0 <= k <= |id.value| && id.value[k..] == r.value
  {
    if id.None? then None
    else
      var s := JsStrings.TakeLast(id.value, n);
      assert id.value[|id.value| - |s|..] == s;
      Some(s)
  }

  /** `payment.status || 'Completed'`. */
  function StatusText(status: Option<string>): (t: string)
    ensures t != ""
    ensures Truthy(status) ==> t == status.value
    ensures !Truthy(status) ==> t == "Completed"
  {
    OrElse(status, "Completed")
  }

  /** One table row as displayed. */
  datatype Row = Row(
    number: int,
    serviceName: string,
    bookingIdSuffix: Option<string>,
    transactionIdSuffix: Option<string>,
    amount: Option<int>,
    status: string)

  function RowFor(p: Payment, number: int): Row {
    Row(number, p.serviceName, IdSuffix(p.bookingId, 6), IdSuffix(p.transactionId, 12),
        p.amount, StatusText(p.status))
  }

  /** `payments.map((payment, index) => ...)` from position `start` on. */
  function RowsFrom(ps: seq<Payment>, start: int): (rows: seq<Row>)
    ensures |rows| == |ps|
    ensures forall i :: 0 <= i < |ps| ==> rows[i] == RowFor(ps[i], start + i + 1)
  {
    if ps == [] then [] else [RowFor(ps[0], start + 1)] + RowsFrom(ps[1..], start + 1)
  }

  /** The table's rows: one per payment in list order, numbered 1 to n, with
      the last 6 characters of the booking id, the last 12 of the
      transaction id, and "Completed" for a missing status. */
  function Rows(ps: seq<Payment>): (rows: seq<Row>)
    ensures |rows| == |ps|
    ensures forall i :: 0 <= i < |ps| ==>
              rows[i].number == i + 1 &&
              rows[i].serviceName == ps[i].serviceName &&
              rows[i].bookingIdSuffix == IdSuffix(ps[i].bookingId, 6) &&
              rows[i].transactionIdSuffix == IdSuffix(ps[i].transactionId, 12) &&
              rows[i].status == StatusText(ps[i].status)
  {
    RowsFrom(ps, 0)
  }

  /** The summary under the table. "Latest Payment" is the first record's
      date, whatever order the backend sent. */
  datatype Summary = Summary(count: nat, total: int, latestCreatedAt: string)

  datatype HistoryView = Spinner | NoPayments | Table(rows: seq<Row>, summary: Summary)

  /** The page: a spinner while loading, the "No Payments Yet" placeholder
      for an empty list, else the table with the summary under it. */
  function View(isLoading: bool, ps: seq<Payment>): (v: HistoryView)
    ensures v == Spinner <==> isLoading
    ensures v == NoPayments <==> !isLoading && ps == []
    ensures v.Table? ==> |ps| > 0 && v.rows == Rows(ps) &&
                         v.summary == Summary(|ps|, Sum(ps), ps[0].createdAt)
  {
    if isLoading then Spinner
    else if ps == [] then NoPayments
    else Table(Rows(ps), Summary(|ps|, TotalPaid(ps), ps[0].createdAt))
  }
}
