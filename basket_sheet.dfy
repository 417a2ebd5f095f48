/** The basket sheet: participant assignment for program and drop-in items,
    the add-a-dependent form, and checkout, which posts the basket to the
    booking route and asks the payment processor for a payment intent
    carrying the created record ids. Both remote calls are oracles: the
    booking route's JSON reply and the payment-intent route's reply are
    parameters. */
module BasketSheet {
  import opened Common
  import opened BasketContext
  import opened BookingsRoute

  // ---------------------------------------------------------------------
  // Whitespace and `String.prototype.trim`

  /** The characters `trim` removes: white space and line terminators. */
  predicate IsSpace(c: char)
  {
    || c == ' ' || c == '\t' || c == '\n' || c == '\r'
    || c == '\U{000B}' || c == '\U{000C}' || c == '\U{00A0}' || c == '\U{FEFF}'
    || c == '\U{1680}' || ('\U{2000}' <= c <= '\U{200A}')
    || c == '\U{2028}' || c == '\U{2029}' || c == '\U{202F}' || c == '\U{205F}' || c == '\U{3000}'
  }

  predicate IsBlank(s: string)
  {
    forall k :: 0 <= k < |s| ==> IsSpace(s[k])
  }

  /** Drops leading white space: the result is a suffix of `s` that starts
      with a non-space, and everything dropped is white space. */
  function TrimStart(s: string): (r: string)
    ensures |r| <= |s| && r == s[|s| - |r|..]
    ensures forall k :: 0 <= k < |s| - |r| ==> IsSpace(s[k])
    ensures r != [] ==> !IsSpace(r[0])
  {
    if s != [] && IsSpace(s[0]) then TrimStart(s[1..]) else s
  }

  /** Drops trailing white space: the result is a prefix of `s` that ends
      with a non-space, and everything dropped is white space. */
  function TrimEnd(s: string): (r: string)
    ensures |r| <= |s| && r == s[..|r|]
    ensures forall k :: |r| <= k < |s| ==> IsSpace(s[k])
    ensures r != [] ==> !IsSpace(r[|r| - 1])
  {
    if s != [] && IsSpace(s[|s| - 1]) then TrimEnd(s[..|s| - 1]) else s
  }

  function Trim(s: string): string
  {
    TrimEnd(TrimStart(s))
  }

  /** `name.trim()` is falsy exactly when the name is all white space, and a
      non-blank name is sent without its surrounding white space. */
  lemma TrimBlank(s: string)
    ensures Trim(s) == "" <==> IsBlank(s)
    ensures Trim(s) != "" ==> !IsSpace(Trim(s)[0]) && !IsSpace(Trim(s)[|Trim(s)| - 1])
    ensures exists i, j :: 0 <= i <= j <= |s| && Trim(s) == s[i..j]
  {
    var t := TrimStart(s);
    var r := TrimEnd(t);
    var i := |s| - |t|;
    var j := i + |r|;
    assert t == s[i..];
    assert r == s[i..j];
    if r == [] {
      // a non-empty `t` starts with a non-space, yet trims to nothing
      assert |t| == 0;
      assert IsBlank(s);
    } else {
      assert r[0] == s[i];
      assert !IsBlank(s);
    }
  }

  // ---------------------------------------------------------------------
  // Participants

  /** The participants an item can be assigned to: the signed-in user
      followed by their dependents, or nobody when no one is signed in. */
  function AllParticipants(user: Option<Participant>, dependents: seq<Participant>): seq<Participant>
  {
    if user.Some? then [user.value] + dependents else []
  }

  /** The item with `p` as its participant, every other field kept. */
  function WithParticipant(item: Item, p: Participant): Item
  {
    item.(participantId := Some(p.id), participantName := Some(p.name))
  }

  /** Reassigning an item: every item under its id is removed, then a copy
      carrying the new participant is appended. */
  function Reassigned(items: seq<Item>, item: Item, p: Participant): seq<Item>
  {
    Without(items, item.id) + [WithParticipant(item, p)]
  }

  /** Reassignment replaces every item under the edited item's id by one
      copy with the new participant, moved to the end; the other items keep
      their order and the total changes by the removed and added prices. */
  lemma ReassignedShape(items: seq<Item>, item: Item, p: Participant)
    ensures var r := Reassigned(items, item, p);
      && |r| > 0
      && r[|r| - 1].id == item.id
      && r[|r| - 1].participantId == Some(p.id)
      && r[|r| - 1].participantName == Some(p.name)
      && r[|r| - 1].(participantId := item.participantId, participantName := item.participantName) == item
      && Only(r, item.id) == [r[|r| - 1]]
      && r[..|r| - 1] == Without(items, item.id)
      && Sum(r) == Sum(items) - Sum(Only(items, item.id)) + item.price
  {
    var r := Reassigned(items, item, p);
    var copy := WithParticipant(item, p);
    WithoutIdempotent(items, item.id);
    WithoutAppend(Without(items, item.id), [copy], item.id);
    forall k | 0 <= k < |Without(items, item.id)| ensures Without(items, item.id)[k].id != item.id {
      WithoutMembership(items, item.id, Without(items, item.id)[k]);
    }
    WithoutAbsent(Without(items, item.id), item.id);
    assert Only([copy], item.id) == [copy];
    RemovalPartition(items, item.id);
    SumAppend(Without(items, item.id), [copy]);
  }

  /** The dropdown's selected value: the item's participant when set, else
      the account holder when there are no dependents, else the disabled
      "Select participant" placeholder "". */
  function SelectedParticipantId(item: Item, user: Participant, dependents: seq<Participant>): (r: string)
    ensures Truthy(item.participantId) ==> r == item.participantId.value
    ensures !Truthy(item.participantId) ==> (r == "" <==> |dependents| > 0 || user.id == "")
    ensures !Truthy(item.participantId) && |dependents| == 0 ==> r == user.id
  {
    OrElse(item.participantId, if |dependents| == 0 then user.id else "")
  }

  // ---------------------------------------------------------------------
  // Validation

  /** A program or drop-in item that has no participant yet. */
  predicate NeedsParticipant(item: Item)
  {
    (item.kind == Program || item.kind == DropIn) && !Truthy(item.participantId)
  }

  /** `missingParticipant`, which disables the checkout button. */
  function MissingParticipant(items: seq<Item>): (r: bool)
    ensures r <==> exists k :: 0 <= k < |items| && NeedsParticipant(items[k])
  {
    if items == [] then false
    else NeedsParticipant(items[0]) || MissingParticipant(items[1..])
  }

  /** The `missing` list of checkout: program items only. */
  function ProgramsWithoutParticipant(items: seq<Item>): (r: seq<Item>)
    ensures forall x :: x in r <==> x in items && x.kind == Program && !Truthy(x.participantId)
  {
    if items == [] then []
    else
      (if items[0].kind == Program && !Truthy(items[0].participantId) then [items[0]] else [])
        + ProgramsWithoutParticipant(items[1..])
  }

  // ---------------------------------------------------------------------
  // Checkout

  /** The ids of the created enrollments among the booking results, in order. */
  function EnrollmentIds(results: seq<ResultEntry>): (ids: seq<string>)
    ensures |ids| <= |results|
    ensures forall id :: id in ids <==> Enrolled(id) in results
  {
    if results == [] then []
    else (if results[0].Enrolled? then [results[0].enrollmentId] else []) + EnrollmentIds(results[1..])
  }

  /** The ids of the created rentals among the booking results, in order. */
  function RentalIds(results: seq<ResultEntry>): (ids: seq<string>)
    ensures |ids| <= |results|
    ensures forall id :: id in ids <==> Rented(id) in results
  {
    if results == [] then []
    else (if results[0].Rented? then [results[0].rentalId] else []) + RentalIds(results[1..])
  }

  /** The non-empty `trainingPackageId`s of the training-package items. */
  function TrainingPackageIds(items: seq<Item>): (ids: seq<string>)
    ensures |ids| <= |items|
    ensures forall id :: id in ids <==>
      exists x :: x in items && x.kind == TrainingPackage && x.trainingPackageId == Some(id) && id != ""
  {
    if items == [] then []
    else
      var x := items[0];
      assert forall y :: y in items <==> y == x || y in items[1..];
      (if x.kind == TrainingPackage && Truthy(x.trainingPackageId) then [x.trainingPackageId.value] else [])
        + TrainingPackageIds(items[1..])
  }

  /** The enrollment id list follows result order: collecting over a
      concatenation concatenates the collections. */
  lemma {:induction false} EnrollmentIdsFollowOrder(a: seq<ResultEntry>, b: seq<ResultEntry>)
    ensures EnrollmentIds(a + b) == EnrollmentIds(a) + EnrollmentIds(b)
  {
    if a == [] {
      assert a + b == b;
    } else {
      var ab := a + b;
      assert ab[0] == a[0] && ab[1..] == a[1..] + b;
      EnrollmentIdsFollowOrder(a[1..], b);
      var head := if a[0].Enrolled? then [a[0].enrollmentId] else [];
      assert EnrollmentIds(ab) == head + EnrollmentIds(ab[1..]);
      assert EnrollmentIds(a) == head + EnrollmentIds(a[1..]);
    }
  }

  /** The rental id list follows result order. */
  lemma {:induction false} RentalIdsFollowOrder(a: seq<ResultEntry>, b: seq<ResultEntry>)
    ensures RentalIds(a + b) == RentalIds(a) + RentalIds(b)
  {
    if a == [] {
      assert a + b == b;
    } else {
      var ab := a + b;
      assert ab[0] == a[0] && ab[1..] == a[1..] + b;
      RentalIdsFollowOrder(a[1..], b);
      var head := if a[0].Rented? then [a[0].rentalId] else [];
      assert RentalIds(ab) == head + RentalIds(ab[1..]);
      assert RentalIds(a) == head + RentalIds(a[1..]);
    }
  }

  /** The training-package ids follow basket order. */
  lemma {:induction false} PackageIdsFollowOrder(x: seq<Item>, y: seq<Item>)
    ensures TrainingPackageIds(x + y) == TrainingPackageIds(x) + TrainingPackageIds(y)
  {
    if x == [] {
      assert x + y == y;
    } else {
      assert (x + y)[0] == x[0];
      assert (x + y)[1..] == x[1..] + y;
      PackageIdsFollowOrder(x[1..], y);
    }
  }

  /** The correlation metadata attached to the payment intent. */
  datatype PaymentMetadata = PaymentMetadata(userId: string, enrollmentIds: seq<string>,
                                             rentalIds: seq<string>, trainingPackageIds: seq<string>)

  /** The payment-intent request: the amount in minor units and the metadata. */
  datatype IntentRequest = IntentRequest(amount: int, metadata: PaymentMetadata)

  /** The booking route's reply as the sheet reads it (`results` may be
      missing, e.g. on a 401), or the request failing outright. */
  datatype BookingReply = BookingJson(results: Option<seq<ResultEntry>>) | BookingUnreachable(message: string)

  datatype IntentReply =
    | IntentOk(clientSecret: string)
    | IntentRefused(error: Option<string>)
    | IntentUnreachable(message: string)

  /** What a checkout attempt did: the requests it made and how it ended. */
  datatype CheckoutOutcome =
    | SentToLogin
    | ParticipantMissing
    | BookingFailed(posted: seq<Item>, message: string)
    | IntentFailed(posted: seq<Item>, intent: IntentRequest, message: string)
    | PaymentFormShown(posted: seq<Item>, intent: IntentRequest, clientSecret: string)

  /** The payment-intent request checkout builds from the basket and the
      booking results. */
  function IntentFor(user: Participant, items: seq<Item>, results: Option<seq<ResultEntry>>): IntentRequest
  {
    var rs := if results.Some? then results.value else [];
    IntentRequest(Sum(items), PaymentMetadata(user.id, EnrollmentIds(rs), RentalIds(rs), TrainingPackageIds(items)))
  }

  /** `handleCheckout` as a function of the user, the basket and the two
      remote replies. */
  function Checkout(user: Option<Participant>, items: seq<Item>, booking: BookingReply, intent: IntentReply): (o: CheckoutOutcome)
    ensures o.SentToLogin? <==> user.None?
    ensures o.BookingFailed? || o.IntentFailed? || o.PaymentFormShown? ==> o.posted == items
    ensures o.PaymentFormShown? <==>
              user.Some? && ProgramsWithoutParticipant(items) == [] && booking.BookingJson? && intent.IntentOk?
    ensures o.PaymentFormShown? ==> o.clientSecret == intent.clientSecret
  {
    if user.None? then SentToLogin
    else if ProgramsWithoutParticipant(items) != [] then ParticipantMissing
    else
      match booking
      case BookingUnreachable(message) => BookingFailed(items, message)
      case BookingJson(results) =>
        var req := IntentFor(user.value, items, results);
        match intent
        case IntentOk(secret) => PaymentFormShown(items, req, secret)
        case IntentRefused(error) => IntentFailed(items, req, OrElse(error, "Failed to create payment intent"))
        case IntentUnreachable(message) => IntentFailed(items, req, message)
  }

  /** Checkout makes no request at all exactly when there is no user or a
      program item lacks a participant; drop-in items are not checked here. */
  lemma CheckoutGuards(user: Option<Participant>, items: seq<Item>, booking: BookingReply, intent: IntentReply)
    ensures var o := Checkout(user, items, booking, intent);
      (o.SentToLogin? || o.ParticipantMissing?)
        <==> user.None? || exists x :: x in items && x.kind == Program && !Truthy(x.participantId)
    ensures user.None? ==> Checkout(user, items, booking, intent) == SentToLogin
    ensures (forall x :: x in items && NeedsParticipant(x) ==> x.kind == DropIn) && user.Some? ==>
              !Checkout(user, items, booking, intent).ParticipantMissing?
  {
    var missing := ProgramsWithoutParticipant(items);
    if missing != [] {
      assert missing[0] in missing;
    }
  }

  /** A payment intent, once requested, asks for the basket total and
      carries the ids of the created enrollments and rentals in result
      order and the basket's training-package ids, for the current user. */
  lemma CheckoutIntent(user: Option<Participant>, items: seq<Item>, booking: BookingReply, intent: IntentReply)
    ensures var o := Checkout(user, items, booking, intent);
      (o.IntentFailed? || o.PaymentFormShown?) ==>
        && user.Some? && booking.BookingJson?
        && o.posted == items
        && o.intent.amount == Sum(items)
        && o.intent.metadata.userId == user.value.id
        && (forall id :: id in o.intent.metadata.enrollmentIds <==>
              booking.results.Some? && Enrolled(id) in booking.results.value)
        && (forall id :: id in o.intent.metadata.rentalIds <==>
              booking.results.Some? && Rented(id) in booking.results.value)
        && o.intent.metadata.trainingPackageIds == TrainingPackageIds(items)
  {
  }

  // ---------------------------------------------------------------------
  // The component's state

  /** The dependents list as re-fetched from the account route:
      `data.dependents || []`, or the request failing. */
  datatype Fetched = Listed(dependents: Option<seq<Participant>>) | FetchFailed

  /** The reply to creating a dependent. */
  datatype DependentReply = DependentCreated(dependent: Participant) | DependentRefused(error: Option<string>)

  const AddNew := "__add_new__"

  class Sheet {
    const basket: Basket
    const user: Option<Participant>
    var dependents: seq<Participant>
    /** The item whose "add a person" form is open (`addDepFor`), if any. */
    var addDepFor: Option<Option<string>>
    var newDepName: string
    var showPaymentForm: bool
    var clientSecret: Option<string>

    constructor (basket: Basket, user: Option<Participant>)
      ensures this.basket == basket && this.user == user
      ensures dependents == [] && addDepFor == None && newDepName == ""
      ensures !showPaymentForm && clientSecret == None
    {
      this.basket := basket;
      this.user := user;
      dependents := [];
      addDepFor := None;
      newDepName := "";
      showPaymentForm := false;
      clientSecret := None;
    }

    /** The effect that loads the user's dependents. */
    method LoadDependents(fetched: Fetched)
      modifies this
      ensures dependents == (if user.None? || fetched.FetchFailed? || fetched.dependents.None? then []
                             else fetched.dependents.value)
      ensures addDepFor == old(addDepFor) && newDepName == old(newDepName)
      ensures showPaymentForm == old(showPaymentForm) && clientSecret == old(clientSecret)
    {
      if user.None? || fetched.FetchFailed? || fetched.dependents.None? {
        dependents := [];
      } else {
        dependents := fetched.dependents.value;
      }
    }

    /** `handleParticipantChange`: reassign only when the id names the user
      or one of their dependents. */
    method HandleParticipantChange(item: Item, participantId: string)
      modifies basket
      ensures var found := Find(AllParticipants(user, dependents), participantId);
        basket.items == if found.Some? then Reassigned(old(basket.items), item, found.value) else old(basket.items)
    {
      var found := Find(AllParticipants(user, dependents), participantId);
      if found.Some? {
        basket.RemoveItem(item.id);
        basket.AddItem(WithParticipant(item, found.value));
      }
    }

    /** The participant dropdown's change handler. */
    method OnSelectChange(item: Item, value: string)
      modifies this, basket
      ensures dependents == old(dependents)
      ensures showPaymentForm == old(showPaymentForm) && clientSecret == old(clientSecret)
      ensures value == AddNew ==>
        addDepFor == Some(item.id) && newDepName == "" && basket.items == old(basket.items)
      ensures value != AddNew ==>
        && addDepFor == None && newDepName == old(newDepName)
        && var found := Find(AllParticipants(user, dependents), value);
           basket.items == if found.Some? then Reassigned(old(basket.items), item, found.value) else old(basket.items)
    {
      if value == AddNew {
        addDepFor := Some(item.id);
        newDepName := "";
      } else {
        HandleParticipantChange(item, value);
        addDepFor := None;
      }
    }

    /** `handleAddDependent`: a blank name does nothing; otherwise the
      trimmed name is posted and, once the dependent exists and the list is
      re-fetched, the item is reassigned to the new dependent. Returns the
      name posted, if any. */
    method HandleAddDependent(item: Item, created: DependentReply, refetched: Fetched) returns (posted: Option<string>)
      modifies this, basket
      ensures posted == if IsBlank(old(newDepName)) then None else Some(Trim(old(newDepName)))
      ensures showPaymentForm == old(showPaymentForm) && clientSecret == old(clientSecret)
      ensures posted.None? || created.DependentRefused? || refetched.FetchFailed? ==>
        && dependents == old(dependents) && addDepFor == old(addDepFor) && newDepName == old(newDepName)
        && basket.items == old(basket.items)
      ensures posted.Some? && created.DependentCreated? && refetched.Listed? ==>
        && dependents == (if refetched.dependents.Some? then refetched.dependents.value else [])
        && addDepFor == None && newDepName == ""
        && basket.items == Reassigned(old(basket.items), item, created.dependent)
    {
      TrimBlank(newDepName);
      if Trim(newDepName) == "" {
        return None;
      }
      posted := Some(Trim(newDepName));
      if created.DependentRefused? || refetched.FetchFailed? {
        return;
      }
      dependents := if refetched.dependents.Some? then refetched.dependents.value else [];
      addDepFor := None;
      newDepName := "";
      basket.RemoveItem(item.id);
      basket.AddItem(WithParticipant(item, created.dependent));
    }

    /** `handleCheckout`: on success the payment form opens with the
      processor's client secret; every other outcome leaves the state as it
      was. The basket is not changed by checkout. */
    method HandleCheckout(booking: BookingReply, intent: IntentReply) returns (outcome: CheckoutOutcome)
      modifies this
      ensures outcome == Checkout(user, basket.items, booking, intent)
      ensures dependents == old(dependents) && addDepFor == old(addDepFor) && newDepName == old(newDepName)
      ensures outcome.PaymentFormShown? ==> showPaymentForm && clientSecret == Some(outcome.clientSecret)
      ensures !outcome.PaymentFormShown? ==>
        showPaymentForm == old(showPaymentForm) && clientSecret == old(clientSecret)
    {
      outcome := Checkout(user, basket.items, booking, intent);
      if outcome.PaymentFormShown? {
        clientSecret := Some(outcome.clientSecret);
        showPaymentForm := true;
      }
    }
  }
}
