/** The payment document of backend/models/paymentModel.js. */
module PaymentModel {
  import opened Common

  datatype PaymentStatus = Created | Attempted | Paid | Failed

  function StatusName(s: PaymentStatus): string {
    match s
    case Created => "created"
    case Attempted => "attempted"
    case Paid => "paid"
    case Failed => "failed"
  }

  /** The schema's enum check on `status`; a missing status takes the default
      `created`. */
  function ParseStatus(s: Option<string>): (r: Option<PaymentStatus>)
    ensures s.None? ==> r == Some(Created)
    ensures s.Some? ==> (r.Some? <==> s.value in {"created", "attempted", "paid", "failed"})
    ensures s.Some? && r.Some? ==> StatusName(r.value) == s.value
  {
    match s
    case None => Some(Created)
    case Some(t) =>
      if t == "created" then Some(Created)
      else if t == "attempted" then Some(Attempted)
      else if t == "paid" then Some(Paid)
      else if t == "failed" then Some(Failed)
      else None
  }

  const DefaultCurrency: string := "INR"

  datatype PaymentDoc = PaymentDoc(
    id: string,
    userId: string,
    orderId: string,
    razorpayOrderId: string,
    razorpayPaymentId: Option<string>,
    razorpaySignature: Option<string>,
    amount: int,
    currency: string,
    status: PaymentStatus)

  /** A payment document. The gateway's payment id and signature stay absent
      until a verification fills them in. */
  class Payment {
    const id: string
    const userId: string
    const orderId: string
    const razorpayOrderId: string
    var razorpayPaymentId: Option<string>
    var razorpaySignature: Option<string>
    const amount: int
    const currency: string
    var status: PaymentStatus

    /** A new document with the given status (`created` unless stated) and the
        gateway's payment id and signature absent. */
    constructor (id: string, userId: string, orderId: string, razorpayOrderId: string,
                 amount: int, currency: string, status: PaymentStatus)
      ensures Doc() == PaymentDoc(id, userId, orderId, razorpayOrderId, None, None, amount, currency, status)
    {
      this.id := id;
      this.userId := userId;
      this.orderId := orderId;
      this.razorpayOrderId := razorpayOrderId;
      this.razorpayPaymentId := None;
      this.razorpaySignature := None;
      this.amount := amount;
      this.currency := currency;
      this.status := status;
    }

    function Doc(): PaymentDoc
      reads this
    {
      PaymentDoc(id, userId, orderId, razorpayOrderId, razorpayPaymentId, razorpaySignature, amount, currency, status)
    }
  }

  function PaymentDocs(ps: seq<Payment>): (r: seq<PaymentDoc>)
    reads ps
    ensures |r| == |ps| && forall i :: 0 <= i < |ps| ==> r[i] == ps[i].Doc()
  {
    seq(|ps|, i requires 0 <= i < |ps| reads ps => ps[i].Doc())
  }
}
