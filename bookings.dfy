/** The booking submission route: turns the posted basket into enrollments
    and facility rentals in the remote store, one result entry per bookable
    item. The store is an oracle: `whoAmI` is its answer to the
    authenticated-user query, `lookup(k, id)` its answer to the user lookup
    made for the item at position `k`, and `reply(k, m)` its answer to mutation `m` issued for the
    item at position `k`. */
module BookingsRoute {
  import opened Common
  import opened BasketContext

  /** Who an enrollment is for: exactly one of participant or dependent. */
  datatype Link = AsParticipant(id: Option<string>) | AsDependent(id: Option<string>)

  /** The create mutations the route sends, with the data it connects. */
  datatype Mutation =
    | CreateProgramEnrollment(program: Option<string>, customer: string, status: string, link: Link)
    | CreateDropInEnrollment(program: Option<string>, session: Option<string>, customer: string, status: string, link: Link)
    | CreateRental(facility: Option<string>, customer: string, start: Option<string>, end: Option<string>, status: string)

  /** Every call the route makes to the store, in order. */
  datatype StoreCall = WhoAmI | LookupUser(id: Option<string>) | Mutate(mutation: Mutation)

  /** One entry of the `results` array. */
  datatype ResultEntry = Enrolled(enrollmentId: string) | Rented(rentalId: string) | Failed(message: string)

  /** `Crashed` is the uncaught exception, which the framework answers with
      its own server error and no `results`. */
  datatype Response = Refused(status: int, error: string) | Results(results: seq<ResultEntry>) | Crashed

  const ProgramDefault := "Failed to create enrollment"
  const DropInDefault := "Failed to create drop-in enrollment"
  const RentalDefault := "Failed to create rental"

  /** Program, drop-in and rental items produce a result entry; others do not. */
  predicate Bookable(item: Item)
  {
    item.kind == Program || item.kind == DropIn || item.kind == Rental
  }

  predicate Enrolls(item: Item)
  {
    item.kind == Program || item.kind == DropIn
  }

  /** `isUser`: the participant is the current user, or the lookup's answer
      names a user. */
  function LinkFor(item: Item, k: nat, userId: string, lookup: (nat, Option<string>) -> Parsed<bool>): (l: Link)
    ensures l.id == item.participantId
    ensures l.AsParticipant? <==> item.participantId == Some(userId) || lookup(k, item.participantId) == Parsed(true)
  {
    if item.participantId == Some(userId) || lookup(k, item.participantId) == Parsed(true)
    then AsParticipant(item.participantId)
    else AsDependent(item.participantId)
  }

  /** The lookup is made only when the participant id is not the user's own. */
  function LookupCalls(item: Item, userId: string): seq<StoreCall>
  {
    if Enrolls(item) && item.participantId != Some(userId) then [LookupUser(item.participantId)] else []
  }

  /** The lookup is made and its answer cannot be read. */
  predicate LookupThrows(item: Item, k: nat, userId: string, lookup: (nat, Option<string>) -> Parsed<bool>)
  {
    LookupCalls(item, userId) != [] && lookup(k, item.participantId).Unreadable?
  }

  /** The mutation a bookable item sends: created for the current user,
      already "confirmed"; an enrollment connects the item's participant as
      the user or as a dependent, a drop-in also its session. */
  function MutationFor(item: Item, k: nat, userId: string, lookup: (nat, Option<string>) -> Parsed<bool>): (m: Mutation)
    requires Bookable(item)
    ensures m.customer == userId && m.status == "confirmed"
    ensures item.kind == Program <==> m.CreateProgramEnrollment?
    ensures item.kind == DropIn <==> m.CreateDropInEnrollment?
    ensures m.CreateRental? ==> m.facility == item.facilityId && m.start == item.start && m.end == item.end
    ensures !m.CreateRental? ==> m.program == item.programId && m.link == LinkFor(item, k, userId, lookup)
    ensures m.CreateDropInEnrollment? ==> m.session == item.sessionId
  {
    match item.kind
    case Program =>
      CreateProgramEnrollment(item.programId, userId, "confirmed", LinkFor(item, k, userId, lookup))
    case DropIn =>
      CreateDropInEnrollment(item.programId, item.sessionId, userId, "confirmed", LinkFor(item, k, userId, lookup))
    case Rental =>
      CreateRental(item.facilityId, userId, item.start, item.end, "confirmed")
  }

  /** Reading one of the bookable item's answers throws: the lookup's, or
      (when the lookup could be read) the mutation's. */
  predicate ItemThrows(item: Item, k: nat, userId: string, lookup: (nat, Option<string>) -> Parsed<bool>,
                       reply: (nat, Mutation) -> Parsed<Reply>)
  {
    Bookable(item) && (LookupThrows(item, k, userId, lookup) || reply(k, MutationFor(item, k, userId, lookup)).Unreadable?)
  }

  /** The message an item's error entry falls back to. */
  function DefaultMessage(item: Item): string
    requires Bookable(item)
  {
    match item.kind
    case Program => ProgramDefault
    case DropIn => DropInDefault
    case _ => RentalDefault
  }

  /** The result entry derived from the store's reply to an item's mutation:
      an enrollment only for program and drop-in items and a rental only for
      rental items, each carrying the created id; otherwise an error with the
      first error message, or the kind's default message when it has none. */
  function EntryFor(item: Item, r: Reply): (e: ResultEntry)
    requires Bookable(item)
    ensures e.Enrolled? ==> Enrolls(item) && r == Created(e.enrollmentId)
    ensures e.Rented? ==> item.kind == Rental && r == Created(e.rentalId)
    ensures e.Failed? <==> !r.Created?
    ensures e.Failed? ==> e.message != ""
    ensures r.Errors? && |r.messages| > 0 && r.messages[0] != "" ==> e == Failed(r.messages[0])
    ensures (r.Errors? && (|r.messages| == 0 || r.messages[0] == "")) || r.NoData? ==>
              e == Failed(DefaultMessage(item))
  {
    match r
    case Errors(messages) => Failed(FirstMessage(messages, DefaultMessage(item)))
    case NoData => Failed(DefaultMessage(item))
    case Created(id) => if item.kind == Rental then Rented(id) else Enrolled(id)
  }

  /** The store calls the loop makes for one item; a lookup that throws
      ends the item before its mutation. */
  function ItemCalls(item: Item, k: nat, userId: string, lookup: (nat, Option<string>) -> Parsed<bool>): seq<StoreCall>
  {
    if !Bookable(item) then []
    else if LookupThrows(item, k, userId, lookup) then LookupCalls(item, userId)
    else LookupCalls(item, userId) + [Mutate(MutationFor(item, k, userId, lookup))]
  }

  /** Some item among the first `n` throws. */
  predicate ThrowsBefore(items: seq<Item>, n: nat, userId: string, lookup: (nat, Option<string>) -> Parsed<bool>,
                         reply: (nat, Mutation) -> Parsed<Reply>)
    requires n <= |items|
  {
    n > 0 && (ThrowsBefore(items, n - 1, userId, lookup, reply) || ItemThrows(items[n - 1], n - 1, userId, lookup, reply))
  }

  /** The entries pushed for the first `n` items, none of which throws. */
  function ResultsUpTo(items: seq<Item>, n: nat, userId: string, lookup: (nat, Option<string>) -> Parsed<bool>,
                       reply: (nat, Mutation) -> Parsed<Reply>): seq<ResultEntry>
    requires n <= |items| && !ThrowsBefore(items, n, userId, lookup, reply)
  {
    if n == 0 then []
    else
      var item := items[n - 1];
      ResultsUpTo(items, n - 1, userId, lookup, reply)
        + (if Bookable(item) then [EntryFor(item, reply(n - 1, MutationFor(item, n - 1, userId, lookup)).value)] else [])
  }

  /** The store calls made for the first `n` items: none after the first
      item that throws. */
  function CallsUpTo(items: seq<Item>, n: nat, userId: string, lookup: (nat, Option<string>) -> Parsed<bool>,
                     reply: (nat, Mutation) -> Parsed<Reply>): seq<StoreCall>
    requires n <= |items|
  {
    if n == 0 then []
    else if ThrowsBefore(items, n - 1, userId, lookup, reply) then CallsUpTo(items, n - 1, userId, lookup, reply)
    else CallsUpTo(items, n - 1, userId, lookup, reply) + ItemCalls(items[n - 1], n - 1, userId, lookup)
  }

  /** The positions of the bookable items among the first `n`, in order. */
  function BookableIndices(items: seq<Item>, n: nat): seq<nat>
    requires n <= |items|
  {
    if n == 0 then []
    else BookableIndices(items, n - 1) + (if Bookable(items[n - 1]) then [n - 1] else [])
  }

  /** One pass of the loop: the lookup when needed, the item's mutation, and
      the entry built from the store's answer; `threw` when an answer cannot
      be read, after the calls made up to it. */
  method BookItem(item: Item, k: nat, userId: string, lookup: (nat, Option<string>) -> Parsed<bool>,
                  reply: (nat, Mutation) -> Parsed<Reply>)
    returns (entries: seq<ResultEntry>, made: seq<StoreCall>, threw: bool)
    ensures threw == ItemThrows(item, k, userId, lookup, reply)
    ensures made == ItemCalls(item, k, userId, lookup)
    ensures !threw ==> entries == if Bookable(item) then [EntryFor(item, reply(k, MutationFor(item, k, userId, lookup)).value)] else []
  {
    entries, made, threw := [], [], false;
    if Enrolls(item) {
      var isUser := item.participantId == Some(userId);
      if !isUser {
        made := made + [LookupUser(item.participantId)];
        var found := lookup(k, item.participantId);
        if found.Unreadable? {
          return [], made, true;
        }
        isUser := found.value;
      }
      var link := if isUser then AsParticipant(item.participantId) else AsDependent(item.participantId);
      var m := if item.kind == Program
               then CreateProgramEnrollment(item.programId, userId, "confirmed", link)
               else CreateDropInEnrollment(item.programId, item.sessionId, userId, "confirmed", link);
      made := made + [Mutate(m)];
      var answer := reply(k, m);
      if answer.Unreadable? {
        return [], made, true;
      }
      var fallback := if item.kind == Program then ProgramDefault else DropInDefault;
      var r := answer.value;
      if r.Errors? {
        entries := [Failed(FirstMessage(r.messages, fallback))];
      } else if r.NoData? {
        entries := [Failed(fallback)];
      } else {
        entries := [Enrolled(r.id)];
      }
    } else if item.kind == Rental {
      var m := CreateRental(item.facilityId, userId, item.start, item.end, "confirmed");
      made := [Mutate(m)];
      var answer := reply(k, m);
      if answer.Unreadable? {
        return [], made, true;
      }
      var r := answer.value;
      if r.Errors? {
        entries := [Failed(FirstMessage(r.messages, RentalDefault))];
      } else if r.NoData? {
        entries := [Failed(RentalDefault)];
      } else {
        entries := [Rented(r.id)];
      }
    }
  }

  /** The route handler: guards first, then one pass over the items, which
      an unreadable store answer ends with the calls made so far. */
  method Post(session: Option<string>, items: Option<seq<Item>>, whoAmI: Parsed<Option<string>>,
              lookup: (nat, Option<string>) -> Parsed<bool>, reply: (nat, Mutation) -> Parsed<Reply>)
    returns (response: Response, calls: seq<StoreCall>)
    ensures !Truthy(session) ==> response == Refused(401, "Not authenticated") && calls == []
    ensures Truthy(session) && (items.None? || items.value == []) ==>
              response == Refused(400, "No items to book") && calls == []
    ensures Truthy(session) && items.Some? && items.value != [] && whoAmI.Unreadable? ==>
              response == Crashed && calls == [WhoAmI]
    ensures Truthy(session) && items.Some? && items.value != [] && whoAmI.Parsed? && !Truthy(whoAmI.value) ==>
              response == Refused(401, "User not found") && calls == [WhoAmI]
    ensures Truthy(session) && items.Some? && items.value != [] && whoAmI.Parsed? && Truthy(whoAmI.value) ==>
              var all, userId := items.value, whoAmI.value.value;
              && calls == [WhoAmI] + CallsUpTo(all, |all|, userId, lookup, reply)
              && (ThrowsBefore(all, |all|, userId, lookup, reply) ==> response == Crashed)
              && (!ThrowsBefore(all, |all|, userId, lookup, reply) ==>
                    response == Results(ResultsUpTo(all, |all|, userId, lookup, reply)))
  {
    if !Truthy(session) {
      return Refused(401, "Not authenticated"), [];
    }
    if items.None? || items.value == [] {
      return Refused(400, "No items to book"), [];
    }
    calls := [WhoAmI];
    if whoAmI.Unreadable? {
      return Crashed, calls;
    }
    if !Truthy(whoAmI.value) {
      return Refused(401, "User not found"), calls;
    }
    var userId := whoAmI.value.value;
    var all := items.value;
    var results: seq<ResultEntry> := [];
    for k := 0 to |all|
      invariant !ThrowsBefore(all, k, userId, lookup, reply)
      invariant results == ResultsUpTo(all, k, userId, lookup, reply)
      invariant calls == [WhoAmI] + CallsUpTo(all, k, userId, lookup, reply)
    {
      var entries, made, threw := BookItem(all[k], k, userId, lookup, reply);
      calls := calls + made;
      if threw {
        StopsAtFirstUnreadable(all, k, userId, lookup, reply);
        return Crashed, calls;
      }
      results := results + entries;
    }
    response := Results(results);
  }

  // ---------------------------------------------------------------------
  // Properties of the per-item pass

  /** An answer the route cannot read ends the route at that item: its calls
      are those of the earlier items followed by that item's calls up to the
      unreadable answer, and no later item is looked at. */
  lemma {:induction false} StopsAtFirstUnreadable(items: seq<Item>, k: nat, userId: string,
                                                  lookup: (nat, Option<string>) -> Parsed<bool>,
                                                  reply: (nat, Mutation) -> Parsed<Reply>)
    requires k < |items|
    requires !ThrowsBefore(items, k, userId, lookup, reply) && ItemThrows(items[k], k, userId, lookup, reply)
    ensures ThrowsBefore(items, |items|, userId, lookup, reply)
    ensures CallsUpTo(items, |items|, userId, lookup, reply)
              == CallsUpTo(items, k, userId, lookup, reply) + ItemCalls(items[k], k, userId, lookup)
  {
    StopsAfter(items, k, |items|, userId, lookup, reply);
  }

  lemma {:induction false} StopsAfter(items: seq<Item>, k: nat, n: nat, userId: string,
                                      lookup: (nat, Option<string>) -> Parsed<bool>, reply: (nat, Mutation) -> Parsed<Reply>)
    requires k < n <= |items|
    requires !ThrowsBefore(items, k, userId, lookup, reply) && ItemThrows(items[k], k, userId, lookup, reply)
    ensures ThrowsBefore(items, n, userId, lookup, reply)
    ensures CallsUpTo(items, n, userId, lookup, reply)
              == CallsUpTo(items, k, userId, lookup, reply) + ItemCalls(items[k], k, userId, lookup)
  {
    if n > k + 1 {
      StopsAfter(items, k, n - 1, userId, lookup, reply);
    }
  }

  /** Until something throws, every bookable item has had its mutation sent,
      so the bookings made before an abort stay in the store, "confirmed". */
  lemma {:induction false} EarlierMutationsSent(items: seq<Item>, n: nat, userId: string,
                                                lookup: (nat, Option<string>) -> Parsed<bool>,
                                                reply: (nat, Mutation) -> Parsed<Reply>)
    requires n <= |items| && !ThrowsBefore(items, n, userId, lookup, reply)
    ensures forall j :: 0 <= j < n && Bookable(items[j]) ==>
              Mutate(MutationFor(items[j], j, userId, lookup)) in CallsUpTo(items, n, userId, lookup, reply)
  {
    if n > 0 {
      EarlierMutationsSent(items, n - 1, userId, lookup, reply);
      var prev := CallsUpTo(items, n - 1, userId, lookup, reply);
      assert CallsUpTo(items, n, userId, lookup, reply) == prev + ItemCalls(items[n - 1], n - 1, userId, lookup);
      forall j | 0 <= j < n && Bookable(items[j])
        ensures Mutate(MutationFor(items[j], j, userId, lookup)) in CallsUpTo(items, n, userId, lookup, reply)
      {
        if j == n - 1 {
          assert ItemCalls(items[j], j, userId, lookup)[|ItemCalls(items[j], j, userId, lookup)| - 1]
              == Mutate(MutationFor(items[j], j, userId, lookup));
        } else {
          assert Mutate(MutationFor(items[j], j, userId, lookup)) in prev;
        }
      }
    }
  }

  /** The bookable positions are exactly the program, drop-in and rental
      items, listed once each in increasing order. */
  lemma {:induction false} BookableIndicesExact(items: seq<Item>, n: nat)
    requires n <= |items|
    ensures forall j :: 0 <= j < |BookableIndices(items, n)| ==> BookableIndices(items, n)[j] < n
    ensures forall i, j :: 0 <= i < j < |BookableIndices(items, n)| ==>
              BookableIndices(items, n)[i] < BookableIndices(items, n)[j]
    ensures forall k :: 0 <= k < n ==> (k in BookableIndices(items, n) <==> Bookable(items[k]))
  {
    if n > 0 {
      BookableIndicesExact(items, n - 1);
      var prev := BookableIndices(items, n - 1);
      if Bookable(items[n - 1]) {
        var cur := prev + [n - 1];
        assert BookableIndices(items, n) == cur;
        assert forall j :: 0 <= j < |prev| ==> cur[j] == prev[j];
        assert n - 1 in cur && n - 1 !in prev;
      } else {
        assert BookableIndices(items, n) == prev;
        assert n - 1 !in prev;
      }
    }
  }

  /** Entry `j` of the results is the entry for the `j`-th bookable item,
      built from the store's reply to that item's own mutation. */
  lemma {:induction false} ResultsAligned(items: seq<Item>, n: nat, userId: string,
                                          lookup: (nat, Option<string>) -> Parsed<bool>, reply: (nat, Mutation) -> Parsed<Reply>)
    requires n <= |items| && !ThrowsBefore(items, n, userId, lookup, reply)
    ensures |ResultsUpTo(items, n, userId, lookup, reply)| == |BookableIndices(items, n)|
    ensures forall j :: 0 <= j < |BookableIndices(items, n)| ==>
              var k := BookableIndices(items, n)[j];
              k < |items| && Bookable(items[k]) && reply(k, MutationFor(items[k], k, userId, lookup)).Parsed? &&
              ResultsUpTo(items, n, userId, lookup, reply)[j]
                == EntryFor(items[k], reply(k, MutationFor(items[k], k, userId, lookup)).value)
  {
    if n > 0 {
      ResultsAligned(items, n - 1, userId, lookup, reply);
      BookableIndicesExact(items, n - 1);
    }
  }

  /** Whether the route aborts depends only on which answers are unreadable,
      not on what a readable answer says. */
  lemma {:induction false} ThrowsAgree(items: seq<Item>, n: nat, userId: string, lookup: (nat, Option<string>) -> Parsed<bool>,
                                       reply1: (nat, Mutation) -> Parsed<Reply>, reply2: (nat, Mutation) -> Parsed<Reply>, k: nat)
    requires n <= |items|
    requires forall i: nat, m :: i != k ==> reply1(i, m) == reply2(i, m)
    requires forall m :: reply1(k, m).Unreadable? <==> reply2(k, m).Unreadable?
    ensures ThrowsBefore(items, n, userId, lookup, reply1) == ThrowsBefore(items, n, userId, lookup, reply2)
  {
    if n > 0 {
      ThrowsAgree(items, n - 1, userId, lookup, reply1, reply2, k);
      if Bookable(items[n - 1]) {
        var m := MutationFor(items[n - 1], n - 1, userId, lookup);
        assert reply1(n - 1, m).Unreadable? == reply2(n - 1, m).Unreadable?;
      }
    }
  }

  /** A store error on one item does not stop later items: when the answer
      for one position is readable either way, changing it changes at most
      the entry of that position. */
  lemma FailureIsLocal(items: seq<Item>, userId: string, lookup: (nat, Option<string>) -> Parsed<bool>,
                       reply1: (nat, Mutation) -> Parsed<Reply>, reply2: (nat, Mutation) -> Parsed<Reply>, k: nat)
    requires forall i: nat, m :: i != k ==> reply1(i, m) == reply2(i, m)
    requires forall m :: reply1(k, m).Parsed? && reply2(k, m).Parsed?
    ensures ThrowsBefore(items, |items|, userId, lookup, reply1) == ThrowsBefore(items, |items|, userId, lookup, reply2)
    ensures !ThrowsBefore(items, |items|, userId, lookup, reply1) ==>
              && |ResultsUpTo(items, |items|, userId, lookup, reply1)| == |BookableIndices(items, |items|)|
              && |ResultsUpTo(items, |items|, userId, lookup, reply2)| == |BookableIndices(items, |items|)|
              && forall j :: 0 <= j < |BookableIndices(items, |items|)| && BookableIndices(items, |items|)[j] != k ==>
                   ResultsUpTo(items, |items|, userId, lookup, reply1)[j]
                     == ResultsUpTo(items, |items|, userId, lookup, reply2)[j]
  {
    ThrowsAgree(items, |items|, userId, lookup, reply1, reply2, k);
    if !ThrowsBefore(items, |items|, userId, lookup, reply1) {
      ResultsAligned(items, |items|, userId, lookup, reply1);
      ResultsAligned(items, |items|, userId, lookup, reply2);
    }
  }

  /** Every mutation the route sends creates a record for the current user
      with status "confirmed". */
  lemma {:induction false} MutationsAreConfirmedForUser(items: seq<Item>, n: nat, userId: string,
                                                        lookup: (nat, Option<string>) -> Parsed<bool>,
                                                        reply: (nat, Mutation) -> Parsed<Reply>)
    requires n <= |items|
    ensures forall c :: c in CallsUpTo(items, n, userId, lookup, reply) && c.Mutate? ==>
              c.mutation.customer == userId && c.mutation.status == "confirmed"
  {
    if n > 0 {
      MutationsAreConfirmedForUser(items, n - 1, userId, lookup, reply);
    }
  }

  /** A basket of only training packages (or unknown kinds) books nothing:
      nothing throws, and there is no entry and no mutation. */
  lemma {:induction false} NothingBookableNoCalls(items: seq<Item>, n: nat, userId: string,
                                                  lookup: (nat, Option<string>) -> Parsed<bool>,
                                                  reply: (nat, Mutation) -> Parsed<Reply>)
    requires n <= |items|
    requires forall k :: 0 <= k < n ==> !Bookable(items[k])
    ensures !ThrowsBefore(items, n, userId, lookup, reply)
    ensures ResultsUpTo(items, n, userId, lookup, reply) == []
    ensures CallsUpTo(items, n, userId, lookup, reply) == []
  {
    if n > 0 {
      NothingBookableNoCalls(items, n - 1, userId, lookup, reply);
    }
  }
}
