// The payment-status state machine of the payment service
// (backend/src/services/payment/payment.service.ts): `initiatePayment`,
// `verifyPayment` and `processWebhook` over the `payments` and `trip_users`
// tables. A payment starts pending and moves at most once, to confirmed or
// to failed; a confirmed payment is the student's booking.
module Payment {
  import opened Wrappers
  import opened Sequences

  datatype PaymentStatus = Pending | Confirmed | Failed

  function StatusName(s: PaymentStatus): string {
    match s
    case Pending => "pending"
    case Confirmed => "confirmed"
    case Failed => "failed"
  }

  /** `PAYMENT_TIMEOUT_MINUTES` at its default, in milliseconds. */
  const TimeoutMs: int := 15 * 60 * 1000

  /** The bookable part of a `trips` row; the fare is in paise. */
  datatype TripOffer = TripOffer(title: string, amountPaise: int, bookingStart: int, bookingEnd: int)

  /** A `payments` row; amounts are in paise. */
  datatype PaymentRecord = PaymentRecord(
    id: string, userId: string, tripId: string, hall: string, amountPaise: int,
    status: PaymentStatus, orderId: Option<string>, expiresAt: int,
    gatewayPaymentId: Option<string>, signature: Option<string>, paymentMethod: Option<string>,
    fee: Option<int>, tax: Option<int>, netAmount: Option<int>,
    failureReason: Option<string>, webhookVerified: bool)

  /** A `trip_users` row: the booking of one student on one trip. */
  datatype TripUserRow = TripUserRow(id: string, tripId: string, userId: string, hall: string, paymentId: string)

  /** The tables. `order` lists the payment ids in creation order; booking
      rows are keyed by (trip, student), of which there is at most one row. */
  datatype Ledger = Ledger(
    trips: map<string, TripOffer>,
    payments: map<string, PaymentRecord>,
    order: seq<string>,
    tripUsers: map<(string, string), TripUserRow>)

  /** The integrity of the tables: payments are stored under their own ids
      and listed once each in `order`; a booking row is stored under its own
      trip and student, and its payment is a payment of that student for
      that trip. */
  ghost predicate Valid(l: Ledger) {
    && (forall i :: 0 <= i < |l.order| ==> l.order[i] in l.payments)
    && (forall id :: id in l.payments ==> id in l.order && l.payments[id].id == id)
    && (forall i, j :: 0 <= i < j < |l.order| ==> l.order[i] != l.order[j])
    && (forall key :: key in l.tripUsers ==>
          && l.tripUsers[key].tripId == key.0 && l.tripUsers[key].userId == key.1
          && l.tripUsers[key].paymentId in l.payments
          && l.payments[l.tripUsers[key].paymentId].tripId == key.0
          && l.payments[l.tripUsers[key].paymentId].userId == key.1)
  }

  /** JavaScript's `value || fallback` on an optional text. */
  function OrElse(s: Option<string>, fallback: string): string {
    if s.Some? && s.value != "" then s.value else fallback
  }

  /** `value || 0` on an optional amount. */
  function OrZero(n: Option<int>): int {
    if n.Some? then n.value else 0
  }

  /** A status change the state machine allows: none, or out of pending. */
  predicate Allowed(before: PaymentStatus, after: PaymentStatus) {
    before == after || before == Pending
  }

  /** Every existing payment keeps its id, student and trip and changes
      status only as allowed; a failed payment is not touched at all; new
      payments start pending. */
  ghost predicate Advances(before: map<string, PaymentRecord>, after: map<string, PaymentRecord>) {
    && before.Keys <= after.Keys
    && (forall id :: id in before ==>
          && after[id].id == before[id].id && after[id].tripId == before[id].tripId
          && after[id].userId == before[id].userId
          && Allowed(before[id].status, after[id].status)
          && (before[id].status == Failed ==> after[id] == before[id]))
    && (forall id :: id in after && id !in before ==> after[id].status == Pending)
  }

  /** Rewriting one payment under its own id, trip and student keeps the
      tables valid. */
  lemma UpdatePaymentKeepsValid(l: Ledger, id: string, p: PaymentRecord)
    requires Valid(l) && id in l.payments
    requires p.id == id && p.tripId == l.payments[id].tripId && p.userId == l.payments[id].userId
    ensures Valid(l.(payments := l.payments[id := p]))
  {
  }

  /** Adding a payment under a new id, at the end of the creation order,
      keeps the tables valid. */
  lemma AddPaymentKeepsValid(l: Ledger, p: PaymentRecord)
    requires Valid(l) && p.id !in l.payments
    ensures Valid(l.(payments := l.payments[p.id := p], order := l.order + [p.id]))
  {
    var order := l.order + [p.id];
    forall i, j | 0 <= i < j < |order|
      ensures order[i] != order[j]
    {
      if j == |l.order| {
        assert l.order[i] in l.payments;
      }
    }
  }

  /** Storing a booking row under its own trip and student, pointing at a
      payment of that student for that trip, keeps the tables valid. */
  lemma PutBookingKeepsValid(l: Ledger, row: TripUserRow)
    requires Valid(l) && row.paymentId in l.payments
    requires l.payments[row.paymentId].tripId == row.tripId && l.payments[row.paymentId].userId == row.userId
    ensures Valid(l.(tripUsers := l.tripUsers[(row.tripId, row.userId) := row]))
  {
  }

  /** A single allowed rewrite of one payment, out of pending or keeping
      a status other than failed, advances the table. */
  lemma UpdateAdvances(payments: map<string, PaymentRecord>, id: string, p: PaymentRecord)
    requires id in payments
    requires p.id == payments[id].id && p.tripId == payments[id].tripId && p.userId == payments[id].userId
    requires payments[id].status == Pending || (payments[id].status == p.status && p.status != Failed)
    ensures Advances(payments, payments[id := p])
  {
  }

  // ---------------------------------------------------------------------
  // initiatePayment
  // ---------------------------------------------------------------------

  datatype Checkout = Checkout(paymentId: string, orderId: string, amountPaise: int, description: string)

  /** The trip is bookable at `now`: it exists and `now` is within its
      booking window, both ends included. */
  predicate Bookable(l: Ledger, tripId: string, now: int) {
    tripId in l.trips && l.trips[tripId].bookingStart <= now <= l.trips[tripId].bookingEnd
  }

  /** The student already holds a booking on the trip whose payment is confirmed. */
  predicate HasConfirmedBooking(l: Ledger, tripId: string, userId: string) {
    var key := (tripId, userId);
    key in l.tripUsers && l.tripUsers[key].paymentId in l.payments
    && l.payments[l.tripUsers[key].paymentId].status == Confirmed
  }

  function PendingFor(l: Ledger, tripId: string, userId: string, hall: string): string -> bool {
    (id: string) => id in l.payments && l.payments[id].tripId == tripId && l.payments[id].userId == userId
      && l.payments[id].status == Pending && l.payments[id].hall == hall
  }

  /** The newest pending payment of the student for this trip and hall. */
  function LatestPending(l: Ledger, tripId: string, userId: string, hall: string): (r: Option<string>)
    ensures r.Some? ==>
      r.value in l.payments && l.payments[r.value].status == Pending
      && l.payments[r.value].tripId == tripId && l.payments[r.value].userId == userId && l.payments[r.value].hall == hall
  {
    FindLast(l.order, PendingFor(l, tripId, userId, hall))
  }

  /** The pending payment can be handed out again: unexpired, with an order. */
  predicate Reusable(p: PaymentRecord, now: int) {
    p.expiresAt > now && p.orderId.Some? && p.orderId.value != ""
  }

  /** The newest pending payment of the same hall can be handed out again. */
  predicate ReusesPending(l: Ledger, tripId: string, userId: string, hall: string, now: int) {
    var pending := LatestPending(l, tripId, userId, hall);
    pending.Some? && Reusable(l.payments[pending.value], now)
  }

  /** `initiatePayment`; `newPaymentId` is the id the database assigns and
      `gatewayOrder` the gateway's `createOrder`: the order id it returns, or
      the message of the error it throws, after which the transaction is
      rolled back. */
  function Initiate(l: Ledger, userId: string, tripId: string, hall: string, now: int,
                    newPaymentId: string, gatewayOrder: Result<string, string>): (Result<Checkout, string>, Ledger)
  {
    if !Bookable(l, tripId, now) then (Failure("Trip not found or booking window is closed"), l)
    else if HasConfirmedBooking(l, tripId, userId) then (Failure("You have already booked this trip"), l)
    else
      var trip := l.trips[tripId];
      var description := "Booking for " + trip.title;
      var pending := LatestPending(l, tripId, userId, hall);
      if pending.Some? && Reusable(l.payments[pending.value], now) then
        var p := l.payments[pending.value];
        (Success(Checkout(p.id, p.orderId.value, trip.amountPaise, description)), l)
      else
        match gatewayOrder
        case Failure(message) => (Failure(message), l)
        case Success(orderId) =>
          var payments :=
            if pending.Some? then
              l.payments[pending.value := l.payments[pending.value].(status := Failed, failureReason := Some("Expired"))]
            else l.payments;
          var created := PaymentRecord(newPaymentId, userId, tripId, hall, trip.amountPaise, Pending, Some(orderId),
                                     now + TimeoutMs, None, None, None, None, None, None, None, false);
          (Success(Checkout(newPaymentId, orderId, trip.amountPaise, description)),
           l.(payments := payments[newPaymentId := created], order := l.order + [newPaymentId]))
  }

  /** `initiatePayment` answers with checkout data exactly when the trip
      is open for booking, the student has not paid for it yet, and either a
      pending order is reused or the gateway creates one; always at the
      trip's fare, and it never touches the bookings. */
  lemma InitiateOutcome(l: Ledger, userId: string, tripId: string, hall: string, now: int,
                        newPaymentId: string, gatewayOrder: Result<string, string>)
    ensures var r := Initiate(l, userId, tripId, hall, now, newPaymentId, gatewayOrder);
      && (r.0.Success? <==> Bookable(l, tripId, now) && !HasConfirmedBooking(l, tripId, userId)
                            && (ReusesPending(l, tripId, userId, hall, now) || gatewayOrder.Success?))
      && (r.0.Success? ==> r.0.value.amountPaise == l.trips[tripId].amountPaise)
      && (r.0.Failure? ==> r.1 == l)
      && r.1.tripUsers == l.tripUsers && r.1.trips == l.trips
  {
  }

  /** The newest pending order of the same hall is handed out again, with
      nothing written, when it has not expired and has an order id. */
  lemma InitiateReuses(l: Ledger, userId: string, tripId: string, hall: string, now: int,
                       newPaymentId: string, gatewayOrder: Result<string, string>)
    requires Bookable(l, tripId, now) && !HasConfirmedBooking(l, tripId, userId)
    requires LatestPending(l, tripId, userId, hall).Some?
    requires Reusable(l.payments[LatestPending(l, tripId, userId, hall).value], now)
    ensures var p := l.payments[LatestPending(l, tripId, userId, hall).value];
      Initiate(l, userId, tripId, hall, now, newPaymentId, gatewayOrder)
      == (Success(Checkout(p.id, p.orderId.value, l.trips[tripId].amountPaise, "Booking for " + l.trips[tripId].title)), l)
  {
  }

  /** Otherwise that stale pending payment, if any, is failed as expired, and
      a new pending payment is opened for the gateway's order, expiring after
      the timeout; every other payment stays as it was. */
  lemma InitiateOpens(l: Ledger, userId: string, tripId: string, hall: string, now: int,
                      newPaymentId: string, gatewayOrder: Result<string, string>)
    requires newPaymentId !in l.payments
    requires Bookable(l, tripId, now) && !HasConfirmedBooking(l, tripId, userId)
    requires !ReusesPending(l, tripId, userId, hall, now) && gatewayOrder.Success?
    ensures var r := Initiate(l, userId, tripId, hall, now, newPaymentId, gatewayOrder);
      var pending := LatestPending(l, tripId, userId, hall);
      && r.0 == Success(Checkout(newPaymentId, gatewayOrder.value, l.trips[tripId].amountPaise, "Booking for " + l.trips[tripId].title))
      && r.1.payments.Keys == l.payments.Keys + {newPaymentId}
      && r.1.payments[newPaymentId].status == Pending
      && r.1.payments[newPaymentId].orderId == Some(gatewayOrder.value)
      && r.1.payments[newPaymentId].expiresAt == now + TimeoutMs
      && (pending.Some? ==>
            r.1.payments[pending.value].status == Failed && r.1.payments[pending.value].failureReason == Some("Expired"))
      && (forall id :: id in l.payments && Some(id) != pending ==> r.1.payments[id] == l.payments[id])
  {
    var pending := LatestPending(l, tripId, userId, hall);
    if pending.Some? {
      assert pending.value != newPaymentId;
    }
  }

  /** When the gateway throws while a new order is opened, the transaction
      is rolled back: the error's message is the answer, the stale pending
      payment is not expired and no payment is added. */
  lemma InitiateGatewayFails(l: Ledger, userId: string, tripId: string, hall: string, now: int,
                             newPaymentId: string, gatewayOrder: Result<string, string>)
    requires Bookable(l, tripId, now) && !HasConfirmedBooking(l, tripId, userId)
    requires !ReusesPending(l, tripId, userId, hall, now) && gatewayOrder.Failure?
    ensures Initiate(l, userId, tripId, hall, now, newPaymentId, gatewayOrder) == (Failure(gatewayOrder.error), l)
  {
  }

  /** Adding a new pending payment advances the table. */
  lemma AddPendingAdvances(payments: map<string, PaymentRecord>, p: PaymentRecord)
    requires p.id !in payments && p.status == Pending
    ensures Advances(payments, payments[p.id := p])
  {
  }

  /** Failing a pending payment and adding a new pending one advances the table. */
  lemma ExpireAndAddAdvances(payments: map<string, PaymentRecord>, id: string, stale: PaymentRecord, p: PaymentRecord)
    requires id in payments && payments[id].status == Pending && p.id !in payments && p.status == Pending
    requires stale.id == payments[id].id && stale.tripId == payments[id].tripId && stale.userId == payments[id].userId
    ensures Advances(payments, payments[id := stale][p.id := p])
  {
    var after := payments[id := stale][p.id := p];
    forall k | k in payments
      ensures after[k].id == payments[k].id && after[k].tripId == payments[k].tripId && after[k].userId == payments[k].userId
      ensures Allowed(payments[k].status, after[k].status)
      ensures payments[k].status == Failed ==> after[k] == payments[k]
    {
      assert k != p.id;
    }
  }

  /** `initiatePayment` only advances statuses. */
  lemma InitiateAdvances(l: Ledger, userId: string, tripId: string, hall: string, now: int,
                         newPaymentId: string, gatewayOrder: Result<string, string>)
    requires newPaymentId !in l.payments
    ensures Advances(l.payments, Initiate(l, userId, tripId, hall, now, newPaymentId, gatewayOrder).1.payments)
  {
    var pending := LatestPending(l, tripId, userId, hall);
    var r := Initiate(l, userId, tripId, hall, now, newPaymentId, gatewayOrder);
    if Bookable(l, tripId, now) && !HasConfirmedBooking(l, tripId, userId) && !ReusesPending(l, tripId, userId, hall, now)
       && gatewayOrder.Success? {
      var trip := l.trips[tripId];
      var created := PaymentRecord(newPaymentId, userId, tripId, hall, trip.amountPaise, Pending, Some(gatewayOrder.value),
                                   now + TimeoutMs, None, None, None, None, None, None, None, false);
      if pending.Some? {
        var stale := l.payments[pending.value].(status := Failed, failureReason := Some("Expired"));
        ExpireAndAddAdvances(l.payments, pending.value, stale, created);
        assert r.1.payments == l.payments[pending.value := stale][newPaymentId := created];
      } else {
        AddPendingAdvances(l.payments, created);
        assert r.1.payments == l.payments[newPaymentId := created];
      }
    } else {
      assert r.1 == l;
    }
  }

  /** `initiatePayment` keeps the tables valid. */
  lemma InitiateKeepsValid(l: Ledger, userId: string, tripId: string, hall: string, now: int,
                           newPaymentId: string, gatewayOrder: Result<string, string>)
    requires Valid(l) && newPaymentId !in l.payments
    ensures Valid(Initiate(l, userId, tripId, hall, now, newPaymentId, gatewayOrder).1)
  {
    var pending := LatestPending(l, tripId, userId, hall);
    var r := Initiate(l, userId, tripId, hall, now, newPaymentId, gatewayOrder);
    if Bookable(l, tripId, now) && !HasConfirmedBooking(l, tripId, userId) && !ReusesPending(l, tripId, userId, hall, now)
       && gatewayOrder.Success? {
      var trip := l.trips[tripId];
      var created := PaymentRecord(newPaymentId, userId, tripId, hall, trip.amountPaise, Pending, Some(gatewayOrder.value),
                                   now + TimeoutMs, None, None, None, None, None, None, None, false);
      if pending.Some? {
        var stale := l.payments[pending.value].(status := Failed, failureReason := Some("Expired"));
        UpdatePaymentKeepsValid(l, pending.value, stale);
        var l1 := l.(payments := l.payments[pending.value := stale]);
        AddPaymentKeepsValid(l1, created);
        assert r.1 == l1.(payments := l1.payments[newPaymentId := created], order := l1.order + [newPaymentId]);
      } else {
        AddPaymentKeepsValid(l, created);
        assert r.1 == l.(payments := l.payments[newPaymentId := created], order := l.order + [newPaymentId]);
      }
    } else {
      assert r.1 == l;
    }
  }

  // ---------------------------------------------------------------------
  // verifyPayment
  // ---------------------------------------------------------------------

  /** The gateway's answer to a signature check. */
  datatype Verdict = Verdict(isValid: bool, error: Option<string>, fee: Option<int>, tax: Option<int>, paymentMethod: Option<string>)

  datatype VerifyResult = Verified(bookingId: Option<string>) | NotVerified(error: string)

  /** The booking row that `SELECT id FROM trip_users WHERE payment_id = $1`
      finds: in a valid ledger the only row that can reference a payment is
      the one of the payment's own trip and student (`BookingOfPaymentUnique`). */
  function BookingOfPayment(l: Ledger, p: PaymentRecord): Option<string> {
    var key := (p.tripId, p.userId);
    if key in l.tripUsers && l.tripUsers[key].paymentId == p.id then Some(l.tripUsers[key].id) else None
  }

  lemma BookingOfPaymentUnique(l: Ledger, p: PaymentRecord, key: (string, string))
    requires Valid(l) && p.id in l.payments && l.payments[p.id] == p
    requires key in l.tripUsers && l.tripUsers[key].paymentId == p.id
    ensures BookingOfPayment(l, p) == Some(l.tripUsers[key].id)
  {
  }

  /** The payment row confirmed with the gateway's fee and tax:
      `net_amount = amount − fee − tax`, a missing fee or tax counting as 0. */
  function ConfirmedBySignature(p: PaymentRecord, gatewayPaymentId: string, signature: string, v: Verdict): PaymentRecord {
    var fee, tax := OrZero(v.fee), OrZero(v.tax);
    p.(status := Confirmed, gatewayPaymentId := Some(gatewayPaymentId), signature := Some(signature),
       paymentMethod := Some(OrElse(v.paymentMethod, "unknown")), fee := Some(fee), tax := Some(tax),
       netAmount := Some(p.amountPaise - fee - tax))
  }

  /** Point the student's booking row for the trip at the payment, or insert
      one; the booking id either way. */
  function UpsertBooking(l: Ledger, p: PaymentRecord, newBookingId: string): (map<(string, string), TripUserRow>, string) {
    var key := (p.tripId, p.userId);
    if key in l.tripUsers then
      (l.tripUsers[key := l.tripUsers[key].(paymentId := p.id)], l.tripUsers[key].id)
    else
      (l.tripUsers[key := TripUserRow(newBookingId, p.tripId, p.userId, p.hall, p.id)], newBookingId)
  }

  /** The writes of a verified signature: the payment is confirmed and the
      student's booking row points at it; the booking id. */
  function ApplyConfirmation(l: Ledger, paymentId: string, gatewayPaymentId: string, signature: string,
                             v: Verdict, newBookingId: string): (string, Ledger)
    requires paymentId in l.payments
  {
    var confirmed := ConfirmedBySignature(l.payments[paymentId], gatewayPaymentId, signature, v);
    var (tripUsers, bookingId) := UpsertBooking(l, confirmed, newBookingId);
    (bookingId, l.(payments := l.payments[paymentId := confirmed], tripUsers := tripUsers))
  }

  /** `verifyPayment`; `v` is the gateway's verdict on the signature and
      `newBookingId` the id the database assigns to an inserted booking. */
  function Verify(l: Ledger, paymentId: string, orderId: string, gatewayPaymentId: string, signature: string,
                  v: Verdict, newBookingId: string): (VerifyResult, Ledger)
  {
    if paymentId !in l.payments then (NotVerified("Payment not found"), l)
    else
      var p := l.payments[paymentId];
      if p.status == Confirmed then (Verified(BookingOfPayment(l, p)), l)
      else if p.status != Pending then (NotVerified("Payment is already " + StatusName(p.status)), l)
      else if p.orderId != Some(orderId) then (NotVerified("Order ID mismatch"), l)
      else if !v.isValid then
        var failed := p.(status := Failed, failureReason := Some(OrElse(v.error, "Signature verification failed")));
        (NotVerified("Payment verification failed"), l.(payments := l.payments[paymentId := failed]))
      else
        var (bookingId, l') := ApplyConfirmation(l, paymentId, gatewayPaymentId, signature, v, newBookingId);
        (Verified(Some(bookingId)), l')
  }

  /** `verifyPayment` writes nothing for an unknown payment, a confirmed
      one (answered with its booking), a failed one, or a wrong order id. */
  lemma VerifyNoWrite(l: Ledger, paymentId: string, orderId: string, gatewayPaymentId: string, signature: string,
                      v: Verdict, newBookingId: string)
    requires paymentId !in l.payments || l.payments[paymentId].status != Pending
             || l.payments[paymentId].orderId != Some(orderId)
    ensures var r := Verify(l, paymentId, orderId, gatewayPaymentId, signature, v, newBookingId);
      && r.1 == l
      && (r.0.Verified? <==> paymentId in l.payments && l.payments[paymentId].status == Confirmed)
      && (r.0.Verified? ==> r.0.bookingId == BookingOfPayment(l, l.payments[paymentId]))
  {
  }

  /** A bad signature fails the pending payment and changes nothing else. */
  lemma VerifyRejects(l: Ledger, paymentId: string, orderId: string, gatewayPaymentId: string, signature: string,
                      v: Verdict, newBookingId: string)
    requires paymentId in l.payments && l.payments[paymentId].status == Pending
    requires l.payments[paymentId].orderId == Some(orderId) && !v.isValid
    ensures var r := Verify(l, paymentId, orderId, gatewayPaymentId, signature, v, newBookingId);
      && r.0 == NotVerified("Payment verification failed")
      && r.1 == l.(payments := r.1.payments)
      && r.1.payments == l.payments[paymentId := l.payments[paymentId].(status := Failed,
           failureReason := Some(OrElse(v.error, "Signature verification failed")))]
  {
  }

  /** A good signature confirms the pending payment with
      `net = amount − fee − tax` and leaves the student's booking row for the
      trip pointing at this payment, its id the answer. */
  lemma VerifyConfirms(l: Ledger, paymentId: string, orderId: string, gatewayPaymentId: string, signature: string,
                       v: Verdict, newBookingId: string)
    requires paymentId in l.payments && l.payments[paymentId].status == Pending
    requires l.payments[paymentId].id == paymentId
    requires l.payments[paymentId].orderId == Some(orderId) && v.isValid
    ensures var r := Verify(l, paymentId, orderId, gatewayPaymentId, signature, v, newBookingId);
      var p := l.payments[paymentId];
      var key := (p.tripId, p.userId);
      && r.1.payments == l.payments[paymentId := r.1.payments[paymentId]]
      && r.1.payments[paymentId].status == Confirmed
      && r.1.payments[paymentId].netAmount == Some(p.amountPaise - OrZero(v.fee) - OrZero(v.tax))
      && r.1.tripUsers.Keys == l.tripUsers.Keys + {key}
      && r.1.tripUsers[key].paymentId == paymentId
      && (key in l.tripUsers ==> r.1.tripUsers[key] == l.tripUsers[key].(paymentId := paymentId))
      && (forall k :: k in l.tripUsers && k != key ==> r.1.tripUsers[k] == l.tripUsers[k])
      && r.0 == Verified(Some(r.1.tripUsers[key].id))
  {
  }

  /** `verifyPayment` only advances statuses. */
  lemma VerifyAdvances(l: Ledger, paymentId: string, orderId: string, gatewayPaymentId: string, signature: string,
                       v: Verdict, newBookingId: string)
    ensures Advances(l.payments, Verify(l, paymentId, orderId, gatewayPaymentId, signature, v, newBookingId).1.payments)
  {
    var r := Verify(l, paymentId, orderId, gatewayPaymentId, signature, v, newBookingId);
    if paymentId in l.payments && l.payments[paymentId].status == Pending && l.payments[paymentId].orderId == Some(orderId) {
      var p := l.payments[paymentId];
      var p' := if v.isValid then ConfirmedBySignature(p, gatewayPaymentId, signature, v)
        else p.(status := Failed, failureReason := Some(OrElse(v.error, "Signature verification failed")));
      UpdateAdvances(l.payments, paymentId, p');
      assert r.1.payments == l.payments[paymentId := p'];
    } else {
      assert r.1 == l;
    }
  }

  /** `verifyPayment` keeps the tables valid. */
  lemma VerifyKeepsValid(l: Ledger, paymentId: string, orderId: string, gatewayPaymentId: string, signature: string,
                         v: Verdict, newBookingId: string)
    requires Valid(l)
    ensures Valid(Verify(l, paymentId, orderId, gatewayPaymentId, signature, v, newBookingId).1)
  {
    if paymentId in l.payments && l.payments[paymentId].status == Pending && l.payments[paymentId].orderId == Some(orderId) {
      var p := l.payments[paymentId];
      if !v.isValid {
        var failed := p.(status := Failed, failureReason := Some(OrElse(v.error, "Signature verification failed")));
        UpdatePaymentKeepsValid(l, paymentId, failed);
      } else {
        var confirmed := ConfirmedBySignature(p, gatewayPaymentId, signature, v);
        UpdatePaymentKeepsValid(l, paymentId, confirmed);
        var l1 := l.(payments := l.payments[paymentId := confirmed]);
        var key := (p.tripId, p.userId);
        var row := if key in l.tripUsers then l.tripUsers[key].(paymentId := p.id)
          else TripUserRow(newBookingId, p.tripId, p.userId, p.hall, p.id);
        PutBookingKeepsValid(l1, row);
        assert l1.(tripUsers := l1.tripUsers[key := row]) == Verify(l, paymentId, orderId, gatewayPaymentId, signature, v, newBookingId).1;
      }
    }
  }

  /** Verifying a payment again after a successful verification answers
      with the same booking and writes nothing. */
  lemma VerifyIdempotent(l: Ledger, paymentId: string, orderId: string, gatewayPaymentId: string, signature: string,
                         v: Verdict, newBookingId: string,
                         orderId2: string, gatewayPaymentId2: string, signature2: string, v2: Verdict, newBookingId2: string)
    requires Valid(l)
    requires Verify(l, paymentId, orderId, gatewayPaymentId, signature, v, newBookingId).0.Verified?
    ensures var (r, l') := Verify(l, paymentId, orderId, gatewayPaymentId, signature, v, newBookingId);
      Verify(l', paymentId, orderId2, gatewayPaymentId2, signature2, v2, newBookingId2) == (r, l')
  {
    var (r, l') := Verify(l, paymentId, orderId, gatewayPaymentId, signature, v, newBookingId);
    var p := l.payments[paymentId];
    if p.status == Pending {
      VerifyConfirms(l, paymentId, orderId, gatewayPaymentId, signature, v, newBookingId);
      VerifyNoWrite(l', paymentId, orderId2, gatewayPaymentId2, signature2, v2, newBookingId2);
    } else {
      VerifyNoWrite(l, paymentId, orderId, gatewayPaymentId, signature, v, newBookingId);
      VerifyNoWrite(l', paymentId, orderId2, gatewayPaymentId2, signature2, v2, newBookingId2);
    }
  }

  // ---------------------------------------------------------------------
  // processWebhook
  // ---------------------------------------------------------------------

  /** A webhook event whose signature the gateway accepted. */
  datatype WebhookEvent = WebhookEvent(
    event: string, orderId: string, paymentId: string, amount: int,
    fee: Option<int>, tax: Option<int>, paymentMethod: Option<string>)

  /** The gateway's reading of a webhook body and signature. */
  datatype WebhookCheck = Rejected(error: Option<string>) | Accepted(event: WebhookEvent)

  datatype WebhookResult = WebhookResult(success: bool, message: string)

  function WithOrder(l: Ledger, orderId: string): string -> bool {
    (id: string) => id in l.payments && l.payments[id].orderId == Some(orderId)
  }

  /** A pending payment confirmed by the `payment.captured` event. */
  function ConfirmedByWebhook(p: PaymentRecord, e: WebhookEvent): PaymentRecord {
    var fee, tax := OrZero(e.fee), OrZero(e.tax);
    p.(status := Confirmed, gatewayPaymentId := Some(e.paymentId), paymentMethod := Some(OrElse(e.paymentMethod, "unknown")),
       fee := Some(fee), tax := Some(tax), netAmount := Some(e.amount - fee - tax), webhookVerified := true)
  }

  /** A confirmed payment completed from the event: `COALESCE` keeps what
      is already recorded. */
  function CompletedByWebhook(p: PaymentRecord, e: WebhookEvent): PaymentRecord {
    var fee, tax := OrZero(e.fee), OrZero(e.tax);
    p.(webhookVerified := true,
       fee := if p.fee.Some? then p.fee else Some(fee),
       tax := if p.tax.Some? then p.tax else Some(tax),
       netAmount := if p.netAmount.Some? then p.netAmount else Some(e.amount - fee - tax))
  }

  /** `SELECT * FROM payments WHERE gateway_order_id = $1`, first row. */
  function PaymentForOrder(l: Ledger, orderId: string): (r: Option<string>)
    ensures r.Some? ==> r.value in l.payments && l.payments[r.value].orderId == Some(orderId)
  {
    Find(l.order, WithOrder(l, orderId))
  }

  /** The writes of a `payment.captured` event for the payment `id`. */
  function ApplyCapture(l: Ledger, id: string, e: WebhookEvent, newBookingId: string): Ledger
    requires id in l.payments
  {
    var p := l.payments[id];
    if p.status == Pending then
      var key := (p.tripId, p.userId);
      var tripUsers := if key in l.tripUsers then l.tripUsers
        else l.tripUsers[key := TripUserRow(newBookingId, p.tripId, p.userId, p.hall, p.id)];
      l.(payments := l.payments[id := ConfirmedByWebhook(p, e)], tripUsers := tripUsers)
    else if p.status == Confirmed then
      l.(payments := l.payments[id := CompletedByWebhook(p, e)])
    else l
  }

  /** `processWebhook` */
  function Webhook(l: Ledger, check: WebhookCheck, newBookingId: string): (WebhookResult, Ledger) {
    match check
    case Rejected(error) => (WebhookResult(false, OrElse(error, "Invalid webhook")), l)
    case Accepted(e) =>
      if e.event != "payment.captured" then (WebhookResult(true, "Ignored event: " + e.event), l)
      else match PaymentForOrder(l, e.orderId)
        case None => (WebhookResult(false, "Payment not found for order"), l)
        case Some(id) => (WebhookResult(true, "Webhook processed successfully"), ApplyCapture(l, id, e, newBookingId))
  }

  /** Only an accepted `payment.captured` event for a known order writes
      anything. */
  lemma WebhookIgnores(l: Ledger, check: WebhookCheck, newBookingId: string)
    requires !(check.Accepted? && check.event.event == "payment.captured"
               && PaymentForOrder(l, check.event.orderId).Some?)
    ensures Webhook(l, check, newBookingId).1 == l
    ensures Webhook(l, check, newBookingId).0.success <==> check.Accepted? && check.event.event != "payment.captured"
  {
  }

  /** A known order's `payment.captured` event succeeds with the writes of
      `ApplyCapture`, which touch only that payment and never an existing
      booking row. */
  lemma WebhookCaptured(l: Ledger, e: WebhookEvent, newBookingId: string)
    requires e.event == "payment.captured" && PaymentForOrder(l, e.orderId).Some?
    ensures var id := PaymentForOrder(l, e.orderId).value;
      var r := Webhook(l, Accepted(e), newBookingId);
      && r == (WebhookResult(true, "Webhook processed successfully"), ApplyCapture(l, id, e, newBookingId))
      && r.1.payments == l.payments[id := r.1.payments[id]] && r.1.order == l.order
      && l.tripUsers.Keys <= r.1.tripUsers.Keys
      && (forall key :: key in l.tripUsers ==> r.1.tripUsers[key] == l.tripUsers[key])
  {
  }

  /** A pending payment is confirmed with `net = amount − fee − tax`, and a
      booking row is added only when the student has none for the trip. */
  lemma CaptureConfirmsPending(l: Ledger, id: string, e: WebhookEvent, newBookingId: string)
    requires id in l.payments && l.payments[id].status == Pending
    ensures var p := l.payments[id];
      var l' := ApplyCapture(l, id, e, newBookingId);
      && l'.payments[id].status == Confirmed
      && l'.payments[id].netAmount == Some(e.amount - OrZero(e.fee) - OrZero(e.tax))
      && l'.tripUsers.Keys == l.tripUsers.Keys + {(p.tripId, p.userId)}
  {
  }

  /** A confirmed payment only gets its missing fee, tax and net filled in. */
  lemma CaptureCompletesConfirmed(l: Ledger, id: string, e: WebhookEvent, newBookingId: string)
    requires id in l.payments && l.payments[id].status == Confirmed
    ensures var p := l.payments[id];
      var l' := ApplyCapture(l, id, e, newBookingId);
      && l'.tripUsers == l.tripUsers
      && l'.payments[id].status == Confirmed
      && (p.fee.Some? ==> l'.payments[id].fee == p.fee)
      && (p.tax.Some? ==> l'.payments[id].tax == p.tax)
      && (p.netAmount.Some? ==> l'.payments[id].netAmount == p.netAmount)
      && l'.payments[id].fee.Some? && l'.payments[id].tax.Some? && l'.payments[id].netAmount.Some?
  {
  }

  /** A failed payment is never changed. */
  lemma CaptureLeavesFailed(l: Ledger, id: string, e: WebhookEvent, newBookingId: string)
    requires id in l.payments && l.payments[id].status == Failed
    ensures ApplyCapture(l, id, e, newBookingId) == l
  {
  }

  /** `processWebhook` only advances statuses. */
  lemma WebhookAdvances(l: Ledger, check: WebhookCheck, newBookingId: string)
    ensures Advances(l.payments, Webhook(l, check, newBookingId).1.payments)
  {
    if check.Accepted? && check.event.event == "payment.captured" && PaymentForOrder(l, check.event.orderId).Some? {
      var e := check.event;
      var id := PaymentForOrder(l, e.orderId).value;
      var p := l.payments[id];
      var r := Webhook(l, check, newBookingId);
      assert r.1 == ApplyCapture(l, id, e, newBookingId);
      if p.status == Pending {
        UpdateAdvances(l.payments, id, ConfirmedByWebhook(p, e));
        assert r.1.payments == l.payments[id := ConfirmedByWebhook(p, e)];
      } else if p.status == Confirmed {
        UpdateAdvances(l.payments, id, CompletedByWebhook(p, e));
        assert r.1.payments == l.payments[id := CompletedByWebhook(p, e)];
      }
    }
  }

  /** `processWebhook` keeps the tables valid. */
  lemma WebhookKeepsValid(l: Ledger, check: WebhookCheck, newBookingId: string)
    requires Valid(l)
    ensures Valid(Webhook(l, check, newBookingId).1)
  {
    if check.Accepted? && check.event.event == "payment.captured" && PaymentForOrder(l, check.event.orderId).Some? {
      var e := check.event;
      var id := PaymentForOrder(l, e.orderId).value;
      var p := l.payments[id];
      if p.status == Pending {
        var confirmed := ConfirmedByWebhook(p, e);
        UpdatePaymentKeepsValid(l, id, confirmed);
        var l1 := l.(payments := l.payments[id := confirmed]);
        var key := (p.tripId, p.userId);
        if key !in l.tripUsers {
          PutBookingKeepsValid(l1, TripUserRow(newBookingId, p.tripId, p.userId, p.hall, p.id));
        }
      } else if p.status == Confirmed {
        UpdatePaymentKeepsValid(l, id, CompletedByWebhook(p, e));
      }
    }
  }

  /** The payment and booking tables of the service. */
  class PaymentService {
    var trips: map<string, TripOffer>
    var payments: map<string, PaymentRecord>
    var order: seq<string>
    var tripUsers: map<(string, string), TripUserRow>

    function Tables(): Ledger
      reads this
    {
      Ledger(trips, payments, order, tripUsers)
    }

    constructor(trips: map<string, TripOffer>)
      ensures Tables() == Ledger(trips, map[], [], map[]) && Valid(Tables())
    {
      this.trips := trips;
      payments := map[];
      order := [];
      tripUsers := map[];
    }

    /** `initiatePayment` */
    method InitiatePayment(userId: string, tripId: string, hall: string, now: int,
                           newPaymentId: string, gatewayOrder: Result<string, string>) returns (r: Result<Checkout, string>)
      requires Valid(Tables()) && newPaymentId !in payments
      modifies this
      ensures Valid(Tables())
      ensures (r, Tables()) == Initiate(old(Tables()), userId, tripId, hall, now, newPaymentId, gatewayOrder)
    {
      ghost var before := Tables();
      ghost var spec := Initiate(before, userId, tripId, hall, now, newPaymentId, gatewayOrder);
      InitiateKeepsValid(before, userId, tripId, hall, now, newPaymentId, gatewayOrder);
      if !Bookable(Tables(), tripId, now) {
        return Failure("Trip not found or booking window is closed");
      }
      if HasConfirmedBooking(Tables(), tripId, userId) {
        return Failure("You have already booked this trip");
      }
      var trip := trips[tripId];
      var pending := LatestPending(Tables(), tripId, userId, hall);
      var savedPayments, savedOrder := payments, order;
      if pending.Some? {
        var p := payments[pending.value];
        if Reusable(p, now) {
          return Success(Checkout(p.id, p.orderId.value, trip.amountPaise, "Booking for " + trip.title));
        }
        payments := payments[pending.value := p.(status := Failed, failureReason := Some("Expired"))];
      }
      var expired := payments;
      var row := PaymentRecord(newPaymentId, userId, tripId, hall, trip.amountPaise, Pending,
        None, now + TimeoutMs, None, None, None, None, None, None, None, false);
      payments := expired[newPaymentId := row];
      order := order + [newPaymentId];
      if gatewayOrder.Failure? {
        // ROLLBACK
        payments, order := savedPayments, savedOrder;
        assert Tables() == before == spec.1;
        return Failure(gatewayOrder.error);
      }
      var orderId := gatewayOrder.value;
      row := row.(orderId := Some(orderId));
      payments := expired[newPaymentId := row];
      assert Tables() == spec.1;
      return Success(Checkout(newPaymentId, orderId, trip.amountPaise, "Booking for " + trip.title));
    }

    /** `verifyPayment` */
    method VerifyPayment(paymentId: string, orderId: string, gatewayPaymentId: string, signature: string,
                         v: Verdict, newBookingId: string) returns (r: VerifyResult)
      requires Valid(Tables())
      modifies this
      ensures Valid(Tables())
      ensures (r, Tables()) == Verify(old(Tables()), paymentId, orderId, gatewayPaymentId, signature, v, newBookingId)
    {
      VerifyKeepsValid(Tables(), paymentId, orderId, gatewayPaymentId, signature, v, newBookingId);
      if paymentId !in payments {
        return NotVerified("Payment not found");
      }
      var p := payments[paymentId];
      if p.status == Confirmed {
        return Verified(BookingOfPayment(Tables(), p));
      }
      if p.status != Pending {
        return NotVerified("Payment is already " + StatusName(p.status));
      }
      if p.orderId != Some(orderId) {
        return NotVerified("Order ID mismatch");
      }
      if !v.isValid {
        payments := payments[paymentId := p.(status := Failed, failureReason := Some(OrElse(v.error, "Signature verification failed")))];
        return NotVerified("Payment verification failed");
      }
      var bookingId := Confirm(paymentId, gatewayPaymentId, signature, v, newBookingId);
      return Verified(Some(bookingId));
    }

    /** The writes of `verifyPayment` for a verified signature. */
    method Confirm(paymentId: string, gatewayPaymentId: string, signature: string, v: Verdict, newBookingId: string)
      returns (bookingId: string)
      requires paymentId in payments
      modifies this
      ensures (bookingId, Tables()) == ApplyConfirmation(old(Tables()), paymentId, gatewayPaymentId, signature, v, newBookingId)
    {
      var p := payments[paymentId];
      var confirmed := ConfirmedBySignature(p, gatewayPaymentId, signature, v);
      payments := payments[paymentId := confirmed];
      var key := (p.tripId, p.userId);
      if key in tripUsers {
        bookingId := tripUsers[key].id;
        tripUsers := tripUsers[key := tripUsers[key].(paymentId := p.id)];
      } else {
        bookingId := newBookingId;
        tripUsers := tripUsers[key := TripUserRow(newBookingId, p.tripId, p.userId, p.hall, p.id)];
      }
    }

    /** The writes of `processWebhook` for the event's payment. */
    method Capture(id: string, e: WebhookEvent, newBookingId: string)
      requires id in payments
      modifies this
      ensures Tables() == ApplyCapture(old(Tables()), id, e, newBookingId)
    {
      var p := payments[id];
      if p.status == Pending {
        payments := payments[id := ConfirmedByWebhook(p, e)];
        var key := (p.tripId, p.userId);
        if key !in tripUsers {
          tripUsers := tripUsers[key := TripUserRow(newBookingId, p.tripId, p.userId, p.hall, p.id)];
        }
      } else if p.status == Confirmed {
        payments := payments[id := CompletedByWebhook(p, e)];
      }
    }

    /** `processWebhook` */
    method ProcessWebhook(check: WebhookCheck, newBookingId: string) returns (r: WebhookResult)
      requires Valid(Tables())
      modifies this
      ensures Valid(Tables())
      ensures (r, Tables()) == Webhook(old(Tables()), check, newBookingId)
    {
      ghost var before := Tables();
      WebhookKeepsValid(before, check, newBookingId);
      if check.Rejected? {
        r := WebhookResult(false, OrElse(check.error, "Invalid webhook"));
      } else if check.event.event != "payment.captured" {
        r := WebhookResult(true, "Ignored event: " + check.event.event);
      } else {
        var e := check.event;
        var found := PaymentForOrder(Tables(), e.orderId);
        if found.None? {
          r := WebhookResult(false, "Payment not found for order");
        } else {
          Capture(found.value, e, newBookingId);
          r := WebhookResult(true, "Webhook processed successfully");
        }
      }
      assert (r, Tables()) == Webhook(before, check, newBookingId);
    }
  }
}
