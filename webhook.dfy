/** The payment processor's webhook: reconciles the store's enrollments and
    facility rentals with a payment outcome, and appends payment, invoice,
    refund and purchased-package records. Signature checking is an oracle
    (the event arrives already verified, or the check failed); the store's
    replies to the payment and invoice mutations are parameters. */
module PaymentWebhook {
  import opened Common

  /** Status of an enrollment or facility rental. */
  datatype BookingStatus = Pending | Confirmed | Cancelled

  /** The options of the store's payment status, plus `Completed`, the value
      the handler writes on success although the options do not list it. */
  datatype PaymentStatus = PaymentPending | PaymentSucceeded | PaymentFailed | PaymentRefunded | PaymentCompleted

  /** The options of the store's invoice status. */
  datatype InvoiceStatus = Draft | Open | Paid | Uncollectible | Void

  /** The options of the store's refund status, plus `RefundCompleted`,
      the value the handler writes although the options do not list it. */
  datatype RefundStatus = RefundPending | RefundSucceeded | RefundFailed | RefundCompleted

  /** Records the handler creates; amounts are in minor units. */
  datatype Payment = Payment(id: string, amount: int, status: PaymentStatus, intentId: string, customer: Option<string>)
  datatype Invoice = Invoice(id: string, amount: int, status: InvoiceStatus, payment: string, customer: Option<string>)
  datatype Refund = Refund(amount: int, status: RefundStatus, chargeId: string, customer: Option<string>)
  datatype PurchasedPackage = PurchasedPackage(package: string, customer: Option<string>,
                                               sessionsRemaining: int, sessionsUsed: int)

  /** A metadata id list: absent or empty (falsy), a parsed JSON array of
      ids, or a value whose `JSON.parse` or iteration throws. */
  datatype IdList = Absent | Ids(ids: seq<string>) | Malformed

  /** The correlation metadata the checkout attached to the payment intent. */
  datatype Metadata = Metadata(userId: Option<string>, enrollmentIds: IdList, rentalIds: IdList,
                               trainingPackageIds: IdList)

  datatype Event =
    | IntentSucceeded(intentId: string, amount: int, metadata: Metadata)
    | IntentPaymentFailed(intentId: string, amount: int, metadata: Metadata)
    | ChargeRefunded(chargeId: string, amountRefunded: int, metadata: Metadata)
    | Unhandled(kind: string)

  /** The outcome of signature verification. */
  datatype Verification = Verified(event: Event) | SignatureRejected

  /** Why the handler's `try` block threw; the exception's own text is not
      modelled. */
  datatype Cause = BadSignature | MalformedIds | NoPaymentRecord | UnknownPackage

  datatype Reason = Message(text: string) | Thrown(cause: Cause)

  datatype Response = Received | Rejected(status: int, reason: Reason)

  /** The store's replies to the payment, invoice and refund create
      mutations; a record exists afterwards exactly when its reply is
      `Created`. */
  datatype Replies = Replies(payment: Reply, invoice: Reply, refund: Reply)

  /** The part of the store the handler reads and writes; `sessionCounts`
      is the training-package catalogue, which it only reads. */
  datatype State = State(
    enrollments: map<string, BookingStatus>,
    rentals: map<string, BookingStatus>,
    payments: seq<Payment>,
    invoices: seq<Invoice>,
    refunds: seq<Refund>,
    purchased: seq<PurchasedPackage>,
    sessionCounts: map<string, int>)

  // ---------------------------------------------------------------------
  // Specification

  /** One update mutation per id, in order; an id the store does not know
      is rejected by the store and changes nothing. */
  function SetAll(m: map<string, BookingStatus>, ids: seq<string>, status: BookingStatus): (r: map<string, BookingStatus>)
    ensures r.Keys == m.Keys
  {
    if ids == [] then m
    else
      var prev := SetAll(m, ids[..|ids| - 1], status);
      var id := ids[|ids| - 1];
      if id in prev then prev[id := status] else prev
  }

  /** The position of the first package id missing from the catalogue, where
      reading its `sessionCount` throws; `|ids|` when there is none. */
  function FirstUnknown(ids: seq<string>, counts: map<string, int>): (r: nat)
    ensures r <= |ids|
    ensures forall k :: 0 <= k < r ==> ids[k] in counts
    ensures r < |ids| ==> ids[r] !in counts
  {
    if ids == [] then 0
    else if ids[0] !in counts then 0
    else 1 + FirstUnknown(ids[1..], counts)
  }

  /** The purchased packages created for `ids`, all of them in the catalogue. */
  function Grants(ids: seq<string>, customer: Option<string>, counts: map<string, int>): seq<PurchasedPackage>
    requires forall k :: 0 <= k < |ids| ==> ids[k] in counts
  {
    if ids == [] then []
    else
      var id := ids[|ids| - 1];
      Grants(ids[..|ids| - 1], customer, counts) + [PurchasedPackage(id, customer, counts[id], 0)]
  }

  /** An intermediate point of the handler: still running, or returned. */
  datatype Step = Running(state: State) | Returned(state: State, response: Response)

  /** What every step of the handler keeps: the catalogue, which bookings
      exist, and every record created before, to which it only appends. */
  predicate Extends(s: State, t: State)
  {
    && t.sessionCounts == s.sessionCounts
    && t.enrollments.Keys == s.enrollments.Keys && t.rentals.Keys == s.rentals.Keys
    && s.payments <= t.payments && s.invoices <= t.invoices
    && s.refunds <= t.refunds && s.purchased <= t.purchased
  }

  function SetEnrollments(s: State, list: IdList, status: BookingStatus): (r: Step)
    ensures r.state == s.(enrollments := r.state.enrollments) && r.state.enrollments.Keys == s.enrollments.Keys
  {
    match list
    case Absent => Running(s)
    case Malformed => Returned(s, Rejected(400, Thrown(MalformedIds)))
    case Ids(ids) => Running(s.(enrollments := SetAll(s.enrollments, ids, status)))
  }

  function SetRentals(s: State, list: IdList, status: BookingStatus): (r: Step)
    ensures r.state == s.(rentals := r.state.rentals) && r.state.rentals.Keys == s.rentals.Keys
  {
    match list
    case Absent => Running(s)
    case Malformed => Returned(s, Rejected(400, Thrown(MalformedIds)))
    case Ids(ids) => Running(s.(rentals := SetAll(s.rentals, ids, status)))
  }

  function GrantPackages(s: State, list: IdList, customer: Option<string>): (r: Step)
    ensures r.state == s.(purchased := r.state.purchased) && s.purchased <= r.state.purchased
  {
    match list
    case Absent => Running(s)
    case Malformed => Returned(s, Rejected(400, Thrown(MalformedIds)))
    case Ids(ids) =>
      var n := FirstUnknown(ids, s.sessionCounts);
      var s' := s.(purchased := s.purchased + Grants(ids[..n], customer, s.sessionCounts));
      if n < |ids| then Returned(s', Rejected(400, Thrown(UnknownPackage))) else Running(s')
  }

  /** Sets the statuses of both kinds of booking in turn. */
  function SetBookings(s: State, md: Metadata, status: BookingStatus): (r: Step)
    ensures r.state == s.(enrollments := r.state.enrollments, rentals := r.state.rentals)
    ensures r.state.enrollments.Keys == s.enrollments.Keys && r.state.rentals.Keys == s.rentals.Keys
  {
    var a := SetEnrollments(s, md.enrollmentIds, status);
    if a.Returned? then a else SetRentals(a.state, md.rentalIds, status)
  }

  function OnSucceeded(s: State, intentId: string, amount: int, md: Metadata, replies: Replies): (r: Step)
    ensures Extends(s, r.state) && r.state.refunds == s.refunds
    ensures |r.state.payments| <= |s.payments| + 1 && |r.state.invoices| <= |s.invoices| + 1
  {
    match replies.payment
    case Errors(_) => Returned(s, Rejected(500, Message("Failed to create payment record")))
    case NoData => Returned(s, Rejected(400, Thrown(NoPaymentRecord)))
    case Created(paymentId) =>
      var s1 := s.(payments := s.payments + [Payment(paymentId, amount, PaymentCompleted, intentId, md.userId)]);
      if replies.invoice.Errors? then Returned(s1, Rejected(500, Message("Failed to create invoice record")))
      else
        var s2 := if replies.invoice.Created?
                  then s1.(invoices := s1.invoices + [Invoice(replies.invoice.id, amount, Paid, paymentId, md.userId)])
                  else s1;
        var b := SetBookings(s2, md, Confirmed);
        if b.Returned? then b else GrantPackages(b.state, md.trainingPackageIds, md.userId)
  }

  function OnPaymentFailed(s: State, intentId: string, amount: int, md: Metadata, replies: Replies): (r: Step)
    ensures Extends(s, r.state) && r.state.invoices == s.invoices && r.state.refunds == s.refunds
    ensures |r.state.payments| <= |s.payments| + 1 && r.state.purchased == s.purchased
  {
    var s1 := if replies.payment.Created?
              then s.(payments := s.payments + [Payment(replies.payment.id, amount, PaymentFailed, intentId, md.userId)])
              else s;
    SetBookings(s1, md, Cancelled)
  }

  /** The whole handler: the new store state and the response. */
  function Handle(s: State, signature: Option<string>, verification: Verification, replies: Replies): (r: (State, Response))
    ensures Extends(s, r.0)
    ensures |r.0.payments| <= |s.payments| + 1 && |r.0.invoices| <= |s.invoices| + 1
    ensures |r.0.refunds| <= |s.refunds| + 1
    ensures r.1.Rejected? ==> r.1.status == 400 || r.1.status == 500
  {
    if !Truthy(signature) then (s, Rejected(400, Message("Missing stripe-signature header")))
    else if verification.SignatureRejected? then (s, Rejected(400, Thrown(BadSignature)))
    else
      var step := match verification.event
        case IntentSucceeded(id, amount, md) => OnSucceeded(s, id, amount, md, replies)
        case IntentPaymentFailed(id, amount, md) => OnPaymentFailed(s, id, amount, md, replies)
        case ChargeRefunded(id, refunded, md) =>
          Running(if replies.refund.Created?
                  then s.(refunds := s.refunds + [Refund(refunded, RefundCompleted, id, md.userId)])
                  else s)
        case Unhandled(_) => Running(s);
      if step.Running? then (step.state, Received) else (step.state, step.response)
  }

  // ---------------------------------------------------------------------
  // Properties

  /** Setting statuses touches only listed ids the store knows, and gives
      each of them the new status; no record appears or disappears. */
  lemma {:induction false} SetAllEffect(m: map<string, BookingStatus>, ids: seq<string>, status: BookingStatus)
    ensures SetAll(m, ids, status).Keys == m.Keys
    ensures forall id :: id in m ==> SetAll(m, ids, status)[id] == if id in ids then status else m[id]
  {
    if ids != [] {
      var init := ids[..|ids| - 1];
      SetAllEffect(m, init, status);
      assert forall id :: id in ids <==> id in init || id == ids[|ids| - 1];
    }
  }

  /** Applying the same status list twice is applying it once. */
  lemma SetAllTwice(m: map<string, BookingStatus>, ids: seq<string>, status: BookingStatus)
    ensures SetAll(SetAll(m, ids, status), ids, status) == SetAll(m, ids, status)
  {
    SetAllEffect(m, ids, status);
    SetAllEffect(SetAll(m, ids, status), ids, status);
  }

  /** Each known package id yields one purchased package with all of the
      package's sessions remaining and none used, in list order. */
  lemma {:induction false} GrantsShape(ids: seq<string>, customer: Option<string>, counts: map<string, int>)
    requires forall k :: 0 <= k < |ids| ==> ids[k] in counts
    ensures |Grants(ids, customer, counts)| == |ids|
    ensures forall k :: 0 <= k < |ids| ==>
      Grants(ids, customer, counts)[k] == PurchasedPackage(ids[k], customer, counts[ids[k]], 0)
  {
    if ids != [] {
      GrantsShape(ids[..|ids| - 1], customer, counts);
    }
  }

  /** A request without a signature header, or whose signature fails
      verification, is answered 400 and changes nothing. */
  lemma RejectedSignatureChangesNothing(s: State, signature: Option<string>, verification: Verification, replies: Replies)
    requires !Truthy(signature) || verification.SignatureRejected?
    ensures Handle(s, signature, verification, replies).0 == s
    ensures Handle(s, signature, verification, replies).1.Rejected?
    ensures Handle(s, signature, verification, replies).1.status == 400
  {
  }

  /** On success, a payment-record error answers 500 and changes nothing; an
      invoice-record error answers 500 after the payment record only. */
  lemma SucceededRecordErrors(s: State, sig: string, intentId: string, amount: int, md: Metadata, replies: Replies)
    requires sig != ""
    ensures var (s', r) := Handle(s, Some(sig), Verified(IntentSucceeded(intentId, amount, md)), replies);
      && (replies.payment.Errors? ==> s' == s && r == Rejected(500, Message("Failed to create payment record")))
      && (replies.payment.Created? && replies.invoice.Errors? ==>
            && s' == s.(payments := s.payments + [Payment(replies.payment.id, amount, PaymentCompleted, intentId, md.userId)])
            && r == Rejected(500, Message("Failed to create invoice record")))
  {
  }

  /** On success with the payment recorded and the invoice not refused, every
      listed enrollment and rental the store knows becomes confirmed, the
      others keep their status, and each listed package is granted. */
  lemma SucceededConfirms(s: State, sig: string, intentId: string, amount: int, md: Metadata, replies: Replies,
                          enrollmentIds: seq<string>, rentalIds: seq<string>, packageIds: seq<string>)
    requires sig != "" && replies.payment.Created? && !replies.invoice.Errors?
    requires md.enrollmentIds == Ids(enrollmentIds) && md.rentalIds == Ids(rentalIds)
    requires md.trainingPackageIds == Ids(packageIds)
    requires forall k :: 0 <= k < |packageIds| ==> packageIds[k] in s.sessionCounts
    ensures var (s', r) := Handle(s, Some(sig), Verified(IntentSucceeded(intentId, amount, md)), replies);
      && r == Received
      && s'.enrollments.Keys == s.enrollments.Keys && s'.rentals.Keys == s.rentals.Keys
      && (forall id :: id in s.enrollments ==>
            s'.enrollments[id] == if id in enrollmentIds then Confirmed else s.enrollments[id])
      && (forall id :: id in s.rentals ==>
            s'.rentals[id] == if id in rentalIds then Confirmed else s.rentals[id])
      && s'.payments == s.payments + [Payment(replies.payment.id, amount, PaymentCompleted, intentId, md.userId)]
      && |s'.invoices| == |s.invoices| + (if replies.invoice.Created? then 1 else 0)
      && s'.refunds == s.refunds
      && s'.sessionCounts == s.sessionCounts
      && s'.purchased[..|s.purchased|] == s.purchased
      && |s'.purchased| == |s.purchased| + |packageIds|
      && (forall k :: 0 <= k < |packageIds| ==>
            s'.purchased[|s.purchased| + k]
              == PurchasedPackage(packageIds[k], md.userId, s.sessionCounts[packageIds[k]], 0))
  {
    var paymentId := replies.payment.id;
    var s1 := s.(payments := s.payments + [Payment(paymentId, amount, PaymentCompleted, intentId, md.userId)]);
    var s2 := if replies.invoice.Created?
              then s1.(invoices := s1.invoices + [Invoice(replies.invoice.id, amount, Paid, paymentId, md.userId)])
              else s1;
    var s3 := s2.(enrollments := SetAll(s.enrollments, enrollmentIds, Confirmed),
                  rentals := SetAll(s.rentals, rentalIds, Confirmed));
    assert SetBookings(s2, md, Confirmed) == Running(s3);
    var n := FirstUnknown(packageIds, s.sessionCounts);
    assert n == |packageIds|;
    assert packageIds[..n] == packageIds;
    var grants := Grants(packageIds, md.userId, s.sessionCounts);
    var s4 := s3.(purchased := s.purchased + grants);
    assert GrantPackages(s3, md.trainingPackageIds, md.userId) == Running(s4);
    assert OnSucceeded(s, intentId, amount, md, replies) == Running(s4);
    SetAllEffect(s.enrollments, enrollmentIds, Confirmed);
    SetAllEffect(s.rentals, rentalIds, Confirmed);
    GrantsShape(packageIds, md.userId, s.sessionCounts);
  }

  /** On payment failure, whatever the store answers to the payment record,
      every listed enrollment and rental the store knows becomes cancelled,
      the others keep their status, and no invoice, refund or package is
      created. */
  lemma FailedCancels(s: State, sig: string, intentId: string, amount: int, md: Metadata, replies: Replies,
                      enrollmentIds: seq<string>, rentalIds: seq<string>)
    requires sig != ""
    requires md.enrollmentIds == Ids(enrollmentIds) && md.rentalIds == Ids(rentalIds)
    ensures var (s', r) := Handle(s, Some(sig), Verified(IntentPaymentFailed(intentId, amount, md)), replies);
      && r == Received
      && s'.enrollments.Keys == s.enrollments.Keys && s'.rentals.Keys == s.rentals.Keys
      && (forall id :: id in s.enrollments ==>
            s'.enrollments[id] == if id in enrollmentIds then Cancelled else s.enrollments[id])
      && (forall id :: id in s.rentals ==>
            s'.rentals[id] == if id in rentalIds then Cancelled else s.rentals[id])
      && s'.payments == s.payments + (if replies.payment.Created?
                                      then [Payment(replies.payment.id, amount, PaymentFailed, intentId, md.userId)]
                                      else [])
      && s'.invoices == s.invoices && s'.refunds == s.refunds && s'.purchased == s.purchased
  {
    SetAllEffect(s.enrollments, enrollmentIds, Cancelled);
    SetAllEffect(s.rentals, rentalIds, Cancelled);
  }

  /** A refund adds at most one record, a completed refund of the refunded
      amount, and changes no booking; an event of any other type changes
      nothing. Both are acknowledged whatever the store answers. */
  lemma RefundAndUnhandled(s: State, sig: string, chargeId: string, refunded: int, md: Metadata, kind: string, replies: Replies)
    requires sig != ""
    ensures Handle(s, Some(sig), Verified(ChargeRefunded(chargeId, refunded, md)), replies)
         == (s.(refunds := s.refunds + (if replies.refund.Created?
                                        then [Refund(refunded, RefundCompleted, chargeId, md.userId)]
                                        else [])), Received)
    ensures Handle(s, Some(sig), Verified(Unhandled(kind)), replies) == (s, Received)
  {
    assert s.refunds + [] == s.refunds;
  }

  /** A success event delivered twice sets the same statuses as once, but
      records a second payment, a second invoice when the store creates one,
      and grants every listed package a second time. */
  lemma SucceededRedelivery(s: State, sig: string, intentId: string, amount: int, md: Metadata,
                            replies1: Replies, replies2: Replies,
                            enrollmentIds: seq<string>, rentalIds: seq<string>, packageIds: seq<string>)
    requires sig != "" && replies1.payment.Created? && !replies1.invoice.Errors?
    requires replies2.payment.Created? && !replies2.invoice.Errors?
    requires md.enrollmentIds == Ids(enrollmentIds) && md.rentalIds == Ids(rentalIds)
    requires md.trainingPackageIds == Ids(packageIds)
    requires forall k :: 0 <= k < |packageIds| ==> packageIds[k] in s.sessionCounts
    ensures var e := Verified(IntentSucceeded(intentId, amount, md));
      var once := Handle(s, Some(sig), e, replies1).0;
      var twice := Handle(once, Some(sig), e, replies2).0;
      && twice.enrollments == once.enrollments
      && twice.rentals == once.rentals
      && |twice.payments| == |s.payments| + 2
      && |twice.invoices| == |s.invoices| + (if replies1.invoice.Created? then 1 else 0)
                                          + (if replies2.invoice.Created? then 1 else 0)
      && |once.purchased| == |s.purchased| + |packageIds|
      && |twice.purchased| == |s.purchased| + 2 * |packageIds|
      && twice.purchased[|once.purchased|..] == once.purchased[|s.purchased|..]
  {
    var e := Verified(IntentSucceeded(intentId, amount, md));
    SucceededConfirms(s, sig, intentId, amount, md, replies1, enrollmentIds, rentalIds, packageIds);
    var once := Handle(s, Some(sig), e, replies1).0;
    SucceededConfirms(once, sig, intentId, amount, md, replies2, enrollmentIds, rentalIds, packageIds);
    var twice := Handle(once, Some(sig), e, replies2).0;
    assert twice.enrollments == once.enrollments;
    assert twice.rentals == once.rentals;
  }

  // ---------------------------------------------------------------------
  // The store, updated in place

  class Store {
    var enrollments: map<string, BookingStatus>
    var rentals: map<string, BookingStatus>
    var payments: seq<Payment>
    var invoices: seq<Invoice>
    var refunds: seq<Refund>
    var purchased: seq<PurchasedPackage>
    const sessionCounts: map<string, int>

    function Contents(): State
      reads this
    {
      State(enrollments, rentals, payments, invoices, refunds, purchased, sessionCounts)
    }

    constructor (enrollments: map<string, BookingStatus>, rentals: map<string, BookingStatus>,
                 sessionCounts: map<string, int>)
      ensures Contents() == State(enrollments, rentals, [], [], [], [], sessionCounts)
    {
      this.enrollments := enrollments;
      this.rentals := rentals;
      this.sessionCounts := sessionCounts;
      payments, invoices, refunds, purchased := [], [], [], [];
    }

    /** The update loop over enrollment ids. */
    method UpdateEnrollments(ids: seq<string>, status: BookingStatus)
      modifies this
      ensures Contents() == old(Contents()).(enrollments := SetAll(old(enrollments), ids, status))
    {
      for i := 0 to |ids|
        invariant Contents() == old(Contents()).(enrollments := SetAll(old(enrollments), ids[..i], status))
      {
        assert ids[..i + 1][..i] == ids[..i];
        if ids[i] in enrollments {
          enrollments := enrollments[ids[i] := status];
        }
      }
      assert ids[..|ids|] == ids;
    }

    /** The update loop over rental ids. */
    method UpdateRentals(ids: seq<string>, status: BookingStatus)
      modifies this
      ensures Contents() == old(Contents()).(rentals := SetAll(old(rentals), ids, status))
    {
      for i := 0 to |ids|
        invariant Contents() == old(Contents()).(rentals := SetAll(old(rentals), ids[..i], status))
      {
        assert ids[..i + 1][..i] == ids[..i];
        if ids[i] in rentals {
          rentals := rentals[ids[i] := status];
        }
      }
      assert ids[..|ids|] == ids;
    }

    /** The purchased-package loop; stops at the first package whose lookup
      finds nothing. */
    method CreatePackages(ids: seq<string>, customer: Option<string>) returns (ok: bool)
      modifies this
      ensures var n := FirstUnknown(ids, sessionCounts);
        && ok == (n == |ids|)
        && Contents() == old(Contents()).(purchased := old(purchased) + Grants(ids[..n], customer, sessionCounts))
    {
      var n := FirstUnknown(ids, sessionCounts);
      ok := true;
      var i := 0;
      while i < |ids|
        invariant 0 <= i <= n
        invariant Contents() == old(Contents()).(purchased := old(purchased) + Grants(ids[..i], customer, sessionCounts))
      {
        if ids[i] !in sessionCounts {
          ok := false;
          break;
        }
        assert ids[..i + 1][..i] == ids[..i];
        purchased := purchased + [PurchasedPackage(ids[i], customer, sessionCounts[ids[i]], 0)];
        i := i + 1;
      }
      assert ok ==> i == |ids|;
      assert i == n;
    }

    /** Applies one id list to one kind of booking; false when it is malformed. */
    method ApplyList(list: IdList, rentalKind: bool, status: BookingStatus) returns (ok: bool)
      modifies this
      ensures var step := if rentalKind then SetRentals(old(Contents()), list, status)
                          else SetEnrollments(old(Contents()), list, status);
        && ok == step.Running?
        && Contents() == step.state
    {
      match list
      case Absent => ok := true;
      case Malformed => ok := false;
      case Ids(ids) =>
        if rentalKind {
          UpdateRentals(ids, status);
        } else {
          UpdateEnrollments(ids, status);
        }
        ok := true;
    }

    /** The webhook route handler. */
    method Post(signature: Option<string>, verification: Verification, replies: Replies) returns (response: Response)
      modifies this
      ensures (Contents(), response) == Handle(old(Contents()), signature, verification, replies)
    {
      if !Truthy(signature) {
        return Rejected(400, Message("Missing stripe-signature header"));
      }
      if verification.SignatureRejected? {
        return Rejected(400, Thrown(BadSignature));
      }
      match verification.event
      case IntentSucceeded(intentId, amount, md) =>
        if replies.payment.Errors? {
          return Rejected(500, Message("Failed to create payment record"));
        }
        if replies.payment.NoData? {
          return Rejected(400, Thrown(NoPaymentRecord));
        }
        var paymentId := replies.payment.id;
        payments := payments + [Payment(paymentId, amount, PaymentCompleted, intentId, md.userId)];
        if replies.invoice.Errors? {
          return Rejected(500, Message("Failed to create invoice record"));
        }
        if replies.invoice.Created? {
          invoices := invoices + [Invoice(replies.invoice.id, amount, Paid, paymentId, md.userId)];
        }
        response := Received;
        var ok := ApplyList(md.enrollmentIds, false, Confirmed);
        if ok {
          ok := ApplyList(md.rentalIds, true, Confirmed);
        }
        if ok {
          match md.trainingPackageIds
          case Absent =>
          case Malformed => ok := false;
          case Ids(ids) =>
            ok := CreatePackages(ids, md.userId);
            if !ok {
              response := Rejected(400, Thrown(UnknownPackage));
            }
        }
        if !ok && response == Received {
          response := Rejected(400, Thrown(MalformedIds));
        }
      case IntentPaymentFailed(intentId, amount, md) =>
        if replies.payment.Created? {
          payments := payments + [Payment(replies.payment.id, amount, PaymentFailed, intentId, md.userId)];
        }
        var ok := ApplyList(md.enrollmentIds, false, Cancelled);
        if ok {
          ok := ApplyList(md.rentalIds, true, Cancelled);
        }
        response := if ok then Received else Rejected(400, Thrown(MalformedIds));
      case ChargeRefunded(chargeId, refunded, md) =>
        if replies.refund.Created? {
          refunds := refunds + [Refund(refunded, RefundCompleted, chargeId, md.userId)];
        }
        response := Received;
      case Unhandled(_) =>
        response := Received;
    }
  }
}
