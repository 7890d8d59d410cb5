/** backend/controllers/paymentController.js: creating a gateway order,
    verifying the gateway's signature (which settles the payment and upgrades
    the user), and the subscription status. The gateway and HMAC-SHA256 (RFC
    2104 over SHA-256) are parameters. */
module PaymentController {
  import opened Common
  import opened PaymentModel
  import opened Store

  /** Rupees to paise, the unit the gateway expects: an exact multiple of 100
      that converts back to the amount. */
  function ToPaise(rupees: int): (paise: int)
    ensures paise % 100 == 0 && paise / 100 == rupees
  {
    rupees * 100
  }

  /** `order_<now>_<user>`: the receipt and the store's order id. */
  function OrderId(now: nat, user: string): string {
    "order_" + NatToString(now) + "_" + user
  }

  /** Two orders of the same user made at different times get different ids. */
  lemma OrderIdsDiffer(now1: nat, now2: nat, user: string)
    requires now1 != now2
    ensures OrderId(now1, user) != OrderId(now2, user)
  {
    var a := NatToString(now1);
    var b := NatToString(now2);
    if OrderId(now1, user) == OrderId(now2, user) {
      DecimalTextsOfDistinctNumbers(now1, now2);
      PrefixesBeforeSeparator(a, b, user);
    }
  }

  /** Distinct numbers have distinct decimal texts. */
  lemma DecimalTextsOfDistinctNumbers(m: nat, n: nat)
    requires m != n
    ensures NatToString(m) != NatToString(n)
  {
    NatToStringRoundTrip(m);
    NatToStringRoundTrip(n);
  }

  /** A digit string followed by `_` is determined by the text it starts. */
  lemma PrefixesBeforeSeparator(a: string, b: string, user: string)
    requires forall i :: 0 <= i < |a| ==> IsDigit(a[i])
    requires forall i :: 0 <= i < |b| ==> IsDigit(b[i])
    requires "order_" + a + "_" + user == "order_" + b + "_" + user
    ensures a == b
  {
    var s := "order_" + a + "_" + user;
    assert forall i :: 6 <= i < 6 + |a| ==> s[i] == a[i - 6];
    assert forall i :: 6 <= i < 6 + |b| ==> s[i] == b[i - 6];
    assert s[6 + |a|] == '_' && s[6 + |b|] == '_';
    assert |a| == |b|;
    assert s[6..6 + |a|] == a;
    assert s[6..6 + |b|] == b;
  }

  /** What the gateway's order endpoint answers. */
  datatype GatewayOrder = GatewayOrder(id: string, currency: string, amount: int)

  /** The reply to a created order. */
  datatype OrderReply = OrderReply(id: string, currency: string, amount: int, orderId: string, paymentId: string)

  const OrderFailed: string := "Error creating payment order"

  /** `createOrder`. `gateway(paise, currency, receipt)` stands for the gateway's
      order endpoint (None when it throws); `newId` is the new document's id. A
      missing or zero amount is refused before the gateway is called; a gateway
      failure, or an order without an id or a currency that is the empty text
      (the schema requires both, and `required` refuses ""), gives 500.
      Otherwise one payment in status `created` is appended. */
  method CreateOrder(db: Db, user: string, amount: Option<int>, currency: Option<string>, now: nat,
                     gateway: (int, string, string) -> Option<GatewayOrder>, newId: string)
    returns (r: Response<OrderReply>)
    requires db.Valid()
    modifies db
    ensures db.Valid() && db.interviews == old(db.interviews) && db.users == old(db.users)
    ensures amount.None? || amount.value == 0 ==>
              r == Err(400, "Please provide an amount") && db.payments == old(db.payments)
    ensures amount.Some? && amount.value != 0 ==>
      var cur := if currency.Some? then currency.value else DefaultCurrency;
      var receipt := OrderId(now, user);
      match gateway(ToPaise(amount.value), cur, receipt)
      case None => r == Err(500, OrderFailed) && db.payments == old(db.payments)
      case Some(order) =>
        if order.id == "" || cur == "" then r == Err(500, OrderFailed) && db.payments == old(db.payments)
        else
          r == Ok(200, OrderReply(order.id, order.currency, order.amount, receipt, newId))
          && |db.payments| == |old(db.payments)| + 1
          && db.payments[..|old(db.payments)|] == old(db.payments)
          && fresh(db.payments[|old(db.payments)|])
          && PaymentDocs(db.payments) == old(PaymentDocs(db.payments))
               + [PaymentDoc(newId, user, receipt, order.id, None, None, amount.value, cur, Created)]
  {
    if amount.None? || amount.value == 0 {
      return Err(400, "Please provide an amount");
    }
    var cur := if currency.Some? then currency.value else DefaultCurrency;
    var receipt := OrderId(now, user);
    var order := gateway(ToPaise(amount.value), cur, receipt);
    if order.None? || order.value.id == "" || cur == "" {
      return Err(500, OrderFailed);
    }
    var p := new Payment(newId, user, receipt, order.value.id, amount.value, cur, Created);
    db.payments := db.payments + [p];
    r := Ok(200, OrderReply(order.value.id, order.value.currency, order.value.amount, receipt, newId));
  }

  /** The payment after a signature check: a valid signature stores the
      gateway's payment id and signature and marks it paid; an invalid one only
      marks it failed. */
  function Settle(p: PaymentDoc, paymentId: string, signature: string, valid: bool): PaymentDoc {
    if valid then p.(razorpayPaymentId := Some(paymentId), razorpaySignature := Some(signature), status := Paid)
    else p.(status := Failed)
  }

  /** Settling ends in `paid` exactly for a valid signature and in `failed`
      otherwise, keeps the order, user and amount, and records the gateway's ids
      only when paid. A repeated valid verification changes nothing more. */
  lemma SettleOutcome(p: PaymentDoc, paymentId: string, signature: string, valid: bool)
    ensures var q := Settle(p, paymentId, signature, valid);
            (q.status == Paid <==> valid) && (q.status == Failed <==> !valid)
            && q.id == p.id && q.userId == p.userId && q.orderId == p.orderId
            && q.razorpayOrderId == p.razorpayOrderId && q.amount == p.amount && q.currency == p.currency
            && (valid ==> q.razorpayPaymentId == Some(paymentId) && q.razorpaySignature == Some(signature))
            && (!valid ==> q.razorpayPaymentId == p.razorpayPaymentId && q.razorpaySignature == p.razorpaySignature)
    ensures valid ==> Settle(Settle(p, paymentId, signature, true), paymentId, signature, true)
                      == Settle(p, paymentId, signature, true)
  {
  }

  /** The text HMAC-SHA256 is computed over. */
  function SignedText(orderId: string, paymentId: string): string {
    orderId + "|" + paymentId
  }

  datatype Verification = Verification(success: bool, message: string, payment: PaymentDoc)

  /** The users after `findByIdAndUpdate(user, { role: 'paid' })`: the first user
      with that id, if any, becomes paid. */
  function Upgraded(users: seq<UserDoc>, user: string): (r: seq<UserDoc>)
    ensures |r| == |users|
    ensures forall j :: 0 <= j < |users| ==>
              r[j] == (if Some(j) == FirstWhere(users, (u: UserDoc) => u.id == user)
                       then users[j].(role := "paid") else users[j])
  {
    match FirstWhere(users, (u: UserDoc) => u.id == user)
    case None => users
    case Some(j) => users[j := users[j].(role := "paid")]
  }

  /** Settles the `k`-th payment in place; no other payment changes. */
  method SettlePayment(ps: seq<Payment>, k: nat, paymentId: string, signature: string, valid: bool)
    requires k < |ps| && Distinct(ps)
    modifies ps[k]
    ensures PaymentDocs(ps) == old(PaymentDocs(ps))[k := Settle(old(ps[k].Doc()), paymentId, signature, valid)]
  {
    if valid {
      ps[k].razorpayPaymentId := Some(paymentId);
      ps[k].razorpaySignature := Some(signature);
      ps[k].status := Paid;
    } else {
      ps[k].status := Failed;
    }
  }

  /** `User.findByIdAndUpdate(user, { role: 'paid' })`. */
  method UpgradeUser(us: seq<User>, user: string)
    requires Distinct(us)
    modifies us
    ensures UserDocs(us) == Upgraded(old(UserDocs(us)), user)
  {
    var owner := FirstWhere(UserDocs(us), (u: UserDoc) => u.id == user);
    if owner.Some? {
      us[owner.value].role := "paid";
    }
  }

  /** `verifyPayment`. `hmacHex` is HMAC-SHA256 under the gateway secret, as hex.
      Missing ids give 400 and an unknown order 404, changing nothing. A
      signature that does not match marks the payment failed and answers 400; a
      matching one settles it as paid and upgrades the requesting user. */
  method VerifyPayment(db: Db, user: string, orderId: Option<string>, paymentId: Option<string>,
                       signature: Option<string>, hmacHex: string -> string)
    returns (r: Response<Verification>)
    requires db.Valid()
    modifies db.payments, db.users
    ensures db.payments == old(db.payments) && db.users == old(db.users)
    ensures !Truthy(orderId) || !Truthy(paymentId) || !Truthy(signature) ==>
              r == Err(400, "Missing payment verification details")
              && PaymentDocs(db.payments) == old(PaymentDocs(db.payments))
              && UserDocs(db.users) == old(UserDocs(db.users))
    ensures Truthy(orderId) && Truthy(paymentId) && Truthy(signature) ==>
      match old(FirstWhere(PaymentDocs(db.payments), (p: PaymentDoc) => p.razorpayOrderId == orderId.value))
      case None =>
        r == Err(404, "Payment not found")
        && PaymentDocs(db.payments) == old(PaymentDocs(db.payments))
        && UserDocs(db.users) == old(UserDocs(db.users))
      case Some(k) =>
        var valid := hmacHex(SignedText(orderId.value, paymentId.value)) == signature.value;
        var settled := Settle(old(PaymentDocs(db.payments))[k], paymentId.value, signature.value, valid);
        PaymentDocs(db.payments) == old(PaymentDocs(db.payments))[k := settled]
        && (!valid ==> r == Err(400, "Invalid payment signature") && UserDocs(db.users) == old(UserDocs(db.users)))
        && (valid ==> r == Ok(200, Verification(true, "Payment verified successfully", settled))
                      && UserDocs(db.users) == Upgraded(old(UserDocs(db.users)), user))
  {
    if !Truthy(orderId) || !Truthy(paymentId) || !Truthy(signature) {
      return Err(400, "Missing payment verification details");
    }
    var found := FirstWhere(PaymentDocs(db.payments), (p: PaymentDoc) => p.razorpayOrderId == orderId.value);
    if found.None? {
      return Err(404, "Payment not found");
    }
    var valid := hmacHex(SignedText(orderId.value, paymentId.value)) == signature.value;
    SettlePayment(db.payments, found.value, paymentId.value, signature.value, valid);
    if !valid {
      return Err(400, "Invalid payment signature");
    }
    UpgradeUser(db.users, user);
    r := Ok(200, Verification(true, "Payment verified successfully", db.payments[found.value].Doc()));
  }

  const DayMs: int := 86400000

  datatype Subscription = Subscription(isPaid: bool, isActive: bool, subscriptionEnd: Option<int>, daysRemaining: int)

  /** The subscription as `getSubscriptionStatus` reports it at time `now`. */
  function SubscriptionOf(u: UserDoc, now: int): (s: Subscription)
    ensures s.isPaid <==> u.role == "paid"
    ensures s.subscriptionEnd == u.subscriptionEnd
    ensures s.isActive <==> s.isPaid && u.subscriptionEnd.Some? && u.subscriptionEnd.value > now
    ensures !s.isActive ==> s.daysRemaining == 0
    ensures s.isActive ==> s.daysRemaining >= 1
                           && (s.daysRemaining - 1) * DayMs < u.subscriptionEnd.value - now <= s.daysRemaining * DayMs
  {
    var isPaid := u.role == "paid";
    var isActive := isPaid && u.subscriptionEnd.Some? && u.subscriptionEnd.value > now;
    Subscription(isPaid, isActive, u.subscriptionEnd,
                 if isActive then CeilDiv(u.subscriptionEnd.value - now, DayMs) else 0)
  }

  /** `getSubscriptionStatus` for the requesting user. */
  function GetSubscriptionStatus(db: Db, user: string, now: int): (r: Response<Subscription>)
    reads db, db.users
    ensures r.Err? <==> forall j :: 0 <= j < |db.users| ==> db.users[j].id != user
    ensures r.Err? ==> r == Err(404, "User not found")
    ensures r.Ok? ==> r.status == 200 && exists j :: 0 <= j < |db.users| && db.users[j].id == user
                                             && r.body == SubscriptionOf(db.users[j].Doc(), now)
  {
    match FirstWhere(UserDocs(db.users), (u: UserDoc) => u.id == user)
    case None => Err(404, "User not found")
    case Some(j) => Ok(200, SubscriptionOf(UserDocs(db.users)[j], now))
  }

  /** After a valid verification, the upgraded user reports a paid role; the
      subscription is active only if an end date later than now is on record. */
  lemma UpgradedUserIsPaid(users: seq<UserDoc>, user: string, now: int)
    requires exists j :: 0 <= j < |users| && users[j].id == user
    ensures var j := FirstWhere(users, (u: UserDoc) => u.id == user).value;
            SubscriptionOf(Upgraded(users, user)[j], now).isPaid
            && (SubscriptionOf(Upgraded(users, user)[j], now).isActive <==>
                users[j].subscriptionEnd.Some? && users[j].subscriptionEnd.value > now)
  {
  }
}
