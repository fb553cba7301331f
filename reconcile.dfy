/**
 * Verifying a checkout session: turn a paid payment session into exactly one
 * stored order, keyed by the session id, and credit the ordering user's
 * loyalty ledger with one point per whole currency unit.
 *
 * The order store and the user records are the two map fields of a
 * `Backend`; the payment gateway's record of sessions is a map given to each
 * call. Money is an integer number of cents; timestamps are integers given
 * by the caller.
 */
module Reconcile {
  import opened Wrappers

  /** A postal address as the gateway reports it. */
  datatype Address = Address(line1: string, line2: string, city: string, state: string, postalCode: string, country: string)

  /** Customer details a session may carry; each part may be null. */
  datatype CustomerDetails = CustomerDetails(email: Option<string>, name: Option<string>)

  /** Shipping details a session may carry; the address may be null. */
  datatype ShippingDetails = ShippingDetails(address: Option<Address>)

  /** One line item of a gateway session; `amountTotal` in cents. */
  datatype GatewayLineItem = GatewayLineItem(description: string, quantity: int, amountTotal: int, currency: string)

  /** A session as the gateway returns it, with its line items expanded. */
  datatype GatewaySession = GatewaySession(
    paymentIntent: string,
    paymentStatus: string,
    amountTotal: int,
    currency: string,
    customerDetails: Option<CustomerDetails>,
    shippingDetails: Option<ShippingDetails>,
    lineItems: seq<GatewayLineItem>,
    metadataUserId: Option<string>)

  /** One item of an order snapshot; `amountTotal` in cents. */
  datatype OrderItem = OrderItem(name: string, quantity: int, amountTotal: int, currency: string)

  /** The order document stored under its session id. */
  datatype Order = Order(
    sessionId: string,
    paymentIntent: string,
    customerEmail: string,
    customerName: string,
    shippingAddress: Option<Address>,
    items: seq<OrderItem>,
    totalAmount: int,
    currency: string,
    paymentStatus: string,
    status: string,
    userId: Option<string>,
    createdAt: int)

  /** One entry of a user's points history. */
  datatype HistoryEntry = HistoryEntry(kind: string, amount: int, description: string, date: int)

  /** The loyalty fields of a user record. */
  datatype Account = Account(points: int, totalEarned: int, pointsHistory: seq<HistoryEntry>)

  /**
   * What the handler answers: the order (with the points just earned, if
   * any, next to it), or one of its three errors.
   */
  datatype VerifyResult =
    | Verified(order: Order, pointsEarned: Option<int>)
    | MissingSessionId
    | PaymentNotCompleted
    | VerifyFailed

  /** The error text of each failure. */
  function Message(r: VerifyResult): (m: string)
    requires !r.Verified?
    ensures r.MissingSessionId? ==> m == "Missing session_id"
    ensures r.PaymentNotCompleted? ==> m == "Payment not completed"
    ensures r.VerifyFailed? ==> m == "Failed to verify session"
  {
    match r
    case MissingSessionId => "Missing session_id"
    case PaymentNotCompleted => "Payment not completed"
    case VerifyFailed => "Failed to verify session"
  }

  /** A session id that is present and not empty. */
  predicate HasId(sessionId: Option<string>) {
    sessionId.Some? && sessionId.value != ""
  }

  /** A present id with no stored order, whose gateway session is paid. */
  predicate PaidAndNew(sessionId: Option<string>, orders: map<string, Order>, gateway: map<string, GatewaySession>) {
    HasId(sessionId) && sessionId.value !in orders && sessionId.value in gateway &&
    gateway[sessionId.value].paymentStatus == "paid"
  }

  /** `x || ''` on a string that may be null. */
  function OrEmpty(x: Option<string>): (r: string)
    ensures x.Some? ==> r == x.value
    ensures x.None? ==> r == ""
  {
    x.GetOr("")
  }

  /** The snapshot of one gateway line item. */
  function ToOrderItem(li: GatewayLineItem): (o: OrderItem)
    ensures o.name == li.description && o.quantity == li.quantity
    ensures o.amountTotal == li.amountTotal && o.currency == li.currency
  {
    OrderItem(li.description, li.quantity, li.amountTotal, li.currency)
  }

  /** The snapshot of a session's line items, one per item, in order. */
  function OrderItems(lis: seq<GatewayLineItem>): (r: seq<OrderItem>)
    ensures |r| == |lis|
    ensures forall i :: 0 <= i < |lis| ==>
              r[i].name == lis[i].description && r[i].quantity == lis[i].quantity &&
              r[i].amountTotal == lis[i].amountTotal && r[i].currency == lis[i].currency
  {
    if lis == [] then [] else [ToOrderItem(lis[0])] + OrderItems(lis[1..])
  }

  /** The user id of the session's metadata, if it is present and not empty. */
  function SessionUser(s: GatewaySession): (r: Option<string>)
    ensures r.Some? <==> s.metadataUserId.Some? && s.metadataUserId.value != ""
    ensures r.Some? ==> r == s.metadataUserId
  {
    if s.metadataUserId.Some? && s.metadataUserId.value != "" then s.metadataUserId else None
  }

  /** The order built from a paid session, stored under `sessionId`. */
  function BuildOrder(sessionId: string, s: GatewaySession, now: int): (o: Order)
    ensures o.sessionId == sessionId && o.paymentIntent == s.paymentIntent
    ensures |o.items| == |s.lineItems|
    ensures forall i :: 0 <= i < |s.lineItems| ==>
              o.items[i].name == s.lineItems[i].description && o.items[i].quantity == s.lineItems[i].quantity &&
              o.items[i].amountTotal == s.lineItems[i].amountTotal && o.items[i].currency == s.lineItems[i].currency
    ensures o.totalAmount == s.amountTotal && o.currency == s.currency
    ensures o.status == "confirmed" && o.paymentStatus == s.paymentStatus
    ensures o.userId == SessionUser(s)
    ensures s.customerDetails.None? ==> o.customerEmail == "" && o.customerName == ""
    ensures s.customerDetails.Some? && s.customerDetails.value.email.Some? ==>
              o.customerEmail == s.customerDetails.value.email.value
    ensures s.customerDetails.Some? && s.customerDetails.value.email.None? ==> o.customerEmail == ""
    ensures s.customerDetails.Some? && s.customerDetails.value.name.Some? ==>
              o.customerName == s.customerDetails.value.name.value
    ensures s.customerDetails.Some? && s.customerDetails.value.name.None? ==> o.customerName == ""
    ensures s.shippingDetails.None? ==> o.shippingAddress.None?
    ensures s.shippingDetails.Some? ==> o.shippingAddress == s.shippingDetails.value.address
    ensures o.createdAt == now
  {
    Order(
      sessionId := sessionId,
      paymentIntent := s.paymentIntent,
      customerEmail := if s.customerDetails.Some? then OrEmpty(s.customerDetails.value.email) else "",
      customerName := if s.customerDetails.Some? then OrEmpty(s.customerDetails.value.name) else "",
      shippingAddress := if s.shippingDetails.Some? then s.shippingDetails.value.address else None,
      items := OrderItems(s.lineItems),
      totalAmount := s.amountTotal,
      currency := s.currency,
      paymentStatus := s.paymentStatus,
      status := "confirmed",
      userId := SessionUser(s),
      createdAt := now)
  }

  /** One point per whole currency unit: the floor of the amount in cents over 100. */
  function PointsFor(amountTotal: int): (p: int)
    ensures p * 100 <= amountTotal < p * 100 + 100
    ensures amountTotal >= 0 ==> p >= 0
    ensures p > 0 <==> amountTotal >= 100
  {
    amountTotal / 100
  }

  /** `s.slice(-8)`: the last eight characters, or all of a shorter string. */
  function Last8(s: string): (r: string)
    ensures |r| == if |s| < 8 then |s| else 8
    ensures s == s[..|s| - |r|] + r
  {
    if |s| <= 8 then s else s[|s| - 8..]
  }

  /** The history description of the credit for a session. */
  function CreditDescription(sessionId: string): (d: string)
    ensures |d| == 7 + (if |sessionId| < 8 then |sessionId| else 8) && d[..7] == "Order #"
    ensures sessionId == sessionId[..|sessionId| - (|d| - 7)] + d[7..]
  {
    "Order #" + Last8(sessionId)
  }

  /** A user's loyalty fields after earning `points`. */
  function Credit(a: Account, points: int, description: string, date: int): (b: Account)
    ensures b.points - a.points == points && b.totalEarned - a.totalEarned == points
    ensures |b.pointsHistory| == |a.pointsHistory| + 1
    ensures b.pointsHistory[..|a.pointsHistory|] == a.pointsHistory
    ensures b.pointsHistory[|a.pointsHistory|] == HistoryEntry("earn", points, description, date)
  {
    Account(a.points + points, a.totalEarned + points,
            a.pointsHistory + [HistoryEntry("earn", points, description, date)])
  }

  /** Whether verifying a paid session touches the ledger at all. */
  predicate EarnsPoints(s: GatewaySession)
    ensures EarnsPoints(s) <==> SessionUser(s).Some? && s.amountTotal >= 100
  {
    SessionUser(s).Some? && PointsFor(s.amountTotal) > 0
  }

  /** The order store and the user records. */
  class Backend {
    var orders: map<string, Order>
    var users: map<string, Account>

    constructor (orders0: map<string, Order>, users0: map<string, Account>)
      ensures orders == orders0 && users == users0
    {
      orders := orders0;
      users := users0;
    }

    /**
     * The ledger update of one user record: both counters rise by `points`
     * and one "earn" entry is appended. It fails, changing nothing, when
     * there is no record for `uid`.
     */
    method UpdateUser(uid: string, points: int, description: string, date: int) returns (ok: bool)
      modifies this
      ensures ok <==> uid in old(users)
      ensures ok ==> users == old(users)[uid := Credit(old(users)[uid], points, description, date)]
      ensures !ok ==> users == old(users)
      ensures orders == old(orders)
    {
      if uid !in users {
        return false;
      }
      users := users[uid := Credit(users[uid], points, description, date)];
      return true;
    }

    /**
     * The paid, new path: store the order snapshot under the session id,
     * then award the points to the session's user, if any are due. The
     * points are reported next to the order, never stored in it.
     */
    method RecordPaid(id: string, session: GatewaySession, now: int) returns (r: VerifyResult)
      modifies this
      ensures orders == old(orders)[id := BuildOrder(id, session, now)]
      ensures !EarnsPoints(session) ==> r == Verified(BuildOrder(id, session, now), None) && users == old(users)
      ensures EarnsPoints(session) && SessionUser(session).value in old(users) ==>
                var u := SessionUser(session).value;
                var points := PointsFor(session.amountTotal);
                r == Verified(BuildOrder(id, session, now), Some(points)) &&
                users == old(users)[u := Credit(old(users)[u], points, CreditDescription(id), now)]
      ensures EarnsPoints(session) && SessionUser(session).value !in old(users) ==>
                r == VerifyFailed && users == old(users)
    {
      var order := BuildOrder(id, session, now);
      orders := orders[id := order];
      var pointsEarned: Option<int> := None;
      if session.metadataUserId.Some? && session.metadataUserId.value != "" {
        var points := PointsFor(session.amountTotal);
        if points > 0 {
          var ok := UpdateUser(session.metadataUserId.value, points, CreditDescription(id), now);
          if !ok {
            return VerifyFailed;
          }
          pointsEarned := Some(points);
        }
      }
      return Verified(order, pointsEarned);
    }

    /**
     * The verify-session handler. Checks the id, replays a stored order,
     * asks the gateway, refuses an unpaid session, stores the new order and
     * then credits the user. A failing credit (no such user record) is
     * reported as the generic failure, with the order already stored.
     */
    method VerifySession(sessionId: Option<string>, gateway: map<string, GatewaySession>, now: int)
      returns (r: VerifyResult)
      modifies this
      // a missing or empty id: an error, nothing read or written
      ensures !HasId(sessionId) ==>
                r == MissingSessionId && orders == old(orders) && users == old(users)
      // an order already stored: returned verbatim, nothing written
      ensures HasId(sessionId) && sessionId.value in old(orders) ==>
                r == Verified(old(orders)[sessionId.value], None) &&
                orders == old(orders) && users == old(users)
      // the gateway does not know the session: the generic failure, nothing written
      ensures HasId(sessionId) && sessionId.value !in old(orders) && sessionId.value !in gateway ==>
                r == VerifyFailed && orders == old(orders) && users == old(users)
      // not paid: an error, nothing written
      ensures HasId(sessionId) && sessionId.value !in old(orders) && sessionId.value in gateway &&
              gateway[sessionId.value].paymentStatus != "paid" ==>
                r == PaymentNotCompleted && orders == old(orders) && users == old(users)
      // paid and new: the order is stored under the id and under no other key
      ensures PaidAndNew(sessionId, old(orders), gateway) ==>
                var id := sessionId.value;
                orders == old(orders)[id := BuildOrder(id, gateway[id], now)]
      // ... with no credit due, the ledger is untouched
      ensures PaidAndNew(sessionId, old(orders), gateway) && !EarnsPoints(gateway[sessionId.value]) ==>
                var id := sessionId.value;
                r == Verified(BuildOrder(id, gateway[id], now), None) && users == old(users)
      // ... with a credit due to a known user, only that user changes
      ensures PaidAndNew(sessionId, old(orders), gateway) && EarnsPoints(gateway[sessionId.value]) &&
              SessionUser(gateway[sessionId.value]).value in old(users) ==>
                var id := sessionId.value;
                var s := gateway[id];
                var u := SessionUser(s).value;
                var points := PointsFor(s.amountTotal);
                r == Verified(BuildOrder(id, s, now), Some(points)) &&
                users == old(users)[u := Credit(old(users)[u], points, CreditDescription(id), now)]
      // ... with a credit due to an unknown user, the failure comes after the order write
      ensures PaidAndNew(sessionId, old(orders), gateway) && EarnsPoints(gateway[sessionId.value]) &&
              SessionUser(gateway[sessionId.value]).value !in old(users) ==>
                r == VerifyFailed && users == old(users)
      // a stored order is never overwritten or removed
      ensures forall k :: k in old(orders) ==> k in orders && orders[k] == old(orders)[k]
      // an order is only ever written for this session id, and only once it is paid
      ensures orders == old(orders) || PaidAndNew(sessionId, old(orders), gateway)
      // the ledger changes only together with a fresh order write
      ensures users.Keys == old(users).Keys
      ensures users != old(users) ==> HasId(sessionId) && sessionId.value !in old(orders) && sessionId.value in orders
    {
      if !HasId(sessionId) {
        return MissingSessionId;
      }
      var id := sessionId.value;
      if id in orders {
        return Verified(orders[id], None);
      }
      if id !in gateway {
        return VerifyFailed;
      }
      var session := gateway[id];
      if session.paymentStatus != "paid" {
        return PaymentNotCompleted;
      }
      r := RecordPaid(id, session, now);
    }

    /**
     * Two sequential calls with the same id. Whenever the first call stored
     * an order, the second returns exactly that stored order and changes
     * nothing, so a session credits the ledger at most once.
     */
    method VerifyTwice(sessionId: Option<string>, gateway: map<string, GatewaySession>, now1: int, now2: int)
      returns (first: VerifyResult, second: VerifyResult,
               ghost ordersBetween: map<string, Order>, ghost usersBetween: map<string, Account>)
      modifies this
      ensures first.Verified? ==> HasId(sessionId) && sessionId.value in ordersBetween &&
                                  ordersBetween[sessionId.value] == first.order
      ensures HasId(sessionId) && sessionId.value in ordersBetween ==>
                second == Verified(ordersBetween[sessionId.value], None) &&
                orders == ordersBetween && users == usersBetween
      ensures first.Verified? ==> second == Verified(first.order, None)
    {
      first := VerifySession(sessionId, gateway, now1);
      ordersBetween, usersBetween := orders, users;
      second := VerifySession(sessionId, gateway, now2);
    }
  }
}
