/** The payments page (src/pages/PaymentsPage.js): the fetched payment list
    with a refund button per row. */
module Payments {
  import opened Outcomes
  import opened JsValue
  import opened ListFilter

  /** The property both the refund filter and the row's button use. */
  const PaymentKey := "payment_id"

  /** The refund button passes the same key the filter compares, so a
      successful refund removes the clicked payment, and with it every other
      payment carrying the same `payment_id`. */
  lemma RefundRemovesClickedRow(xs: seq<Value>, payment: Value, x: Value)
    requires payment in xs
    ensures payment !in Reject(xs, PaymentKey, Prop(payment, PaymentKey))
    ensures x in Reject(xs, PaymentKey, Prop(payment, PaymentKey)) <==> x in xs && Prop(x, PaymentKey) != Prop(payment, PaymentKey)
  {
    ClickedRowKept(xs, payment, PaymentKey, PaymentKey);
    RejectMembership(xs, PaymentKey, Prop(payment, PaymentKey), x);
  }

  /** A refund shortens the list by the number of payments carrying the id. */
  lemma RefundCount(xs: seq<Value>, id: Value)
    requires Readable(xs)
    ensures var r := FilterOut(Arr(xs), PaymentKey, id);
            r.Some? && |r.value.items| == |xs| - Matches(xs, PaymentKey, id)
  {
    RejectCount(xs, PaymentKey, id);
  }

  class PaymentsPage {
    var payments: Value

    constructor ()
      ensures payments == Arr([])
    {
      payments := Arr([]);
    }

    /** The mount effect: the fetched list replaces the empty one; a failed
        fetch rejects the effect and changes nothing. */
    method LoadPayments(fetched: Outcome<Value>)
      modifies this
      ensures payments == if fetched.Ok? then fetched.value else old(payments)
    {
      if fetched.Ok? {
        payments := fetched.value;
      }
    }

    /** handleRefund: refund on the backend first; then keep the payments
        whose `payment_id` differs from the argument. A failed refund, or a
        list that cannot be filtered, throws before the list changes. */
    method HandleRefund(paymentId: Value, refunded: Outcome<Value>) returns (request: Value)
      modifies this
      ensures request == paymentId
      ensures var kept := FilterOut(old(payments), PaymentKey, paymentId);
              payments == if refunded.Ok? && kept.Some? then kept.value else old(payments)
    {
      request := paymentId;
      if refunded.Ok? {
        var kept := FilterOut(payments, PaymentKey, paymentId);
        if kept.Some? {
          payments := kept.value;
        }
      }
    }
  }
}
