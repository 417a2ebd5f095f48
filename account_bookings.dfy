/** The account's bookings route: the signed-in user's own enrollments,
    tagged as participant enrollments, and their facility rentals. The store
    is an oracle whose replies are parameters. */
module AccountBookings {
  import opened Common

  /** An enrollment as the store returns it; `participantType` is the tag
      the route adds. */
  datatype Enrollment = Enrollment(
    id: string,
    programId: string,
    participantId: Option<string>,
    dependentId: Option<string>,
    status: string,
    participantType: Option<string>)

  datatype Rental = Rental(id: string, facilityId: string, status: string)

  /** The `user` part of the main query's data; any field may be missing. */
  datatype UserRecord = UserRecord(dependents: Option<seq<Participant>>, participantEnrollments: Option<seq<Enrollment>>)

  /** Reply to the main query: an `errors` array, or `data` (which holds the
      user, if found, and the rentals list, if any); `MainNoData` is an
      answer the route cannot read that far (a failed request, a body that
      is not JSON, or a reply with neither part), on which the route throws. */
  datatype MainReply = MainErrors | MainData(user: Option<UserRecord>, rentals: Option<seq<Rental>>) | MainNoData

  /** Reply to the dependents' enrollments query, in the same three forms. */
  datatype DependentReply = DependentErrors | DependentData(enrollments: Option<seq<Enrollment>>) | DependentNoData

  /** The store queries the route makes, in order. */
  datatype Query = WhoAmI | UserBookings(userId: string) | DependentEnrollments(dependentIds: seq<string>)

  /** `Crashed` is an exception the route does not catch; the framework
      answers it with its own server error. */
  datatype Response = Refused(status: int, error: string) | Bookings(enrollments: seq<Enrollment>, rentals: seq<Rental>) | Crashed

  /** One entry of the dependents' grouping. */
  datatype DependentEnrollments = DependentEntry(id: string, name: string, enrollments: seq<Enrollment>)

  /** The enrollments linked to the dependent `id`, in their list order. */
  function OfDependent(es: seq<Enrollment>, id: string): seq<Enrollment>
  {
    if es == [] then []
    else (if es[0].dependentId == Some(id) then [es[0]] else []) + OfDependent(es[1..], id)
  }

  /** The enrollments of one dependent are exactly those linked to it. */
  lemma {:induction false} OfDependentMembership(es: seq<Enrollment>, id: string, e: Enrollment)
    ensures e in OfDependent(es, id) <==> e in es && e.dependentId == Some(id)
    ensures |OfDependent(es, id)| <= |es|
  {
    if es != [] {
      OfDependentMembership(es[1..], id, e);
      assert es == [es[0]] + es[1..];
    }
  }

  /** The grouping of the dependents' enrollments by dependent. */
  function GroupByDependent(deps: seq<Participant>, es: seq<Enrollment>): (r: seq<DependentEnrollments>)
    ensures |r| == |deps|
    ensures forall k :: 0 <= k < |deps| ==> r[k].id == deps[k].id && r[k].name == deps[k].name
  {
    if deps == [] then []
    else [DependentEntry(deps[0].id, deps[0].name, OfDependent(es, deps[0].id))] + GroupByDependent(deps[1..], es)
  }

  /** Each dependent's entry holds exactly the enrollments linked to it. */
  lemma {:induction false} GroupByDependentExact(deps: seq<Participant>, es: seq<Enrollment>, k: nat, e: Enrollment)
    requires k < |deps|
    ensures e in GroupByDependent(deps, es)[k].enrollments <==> e in es && e.dependentId == Some(deps[k].id)
  {
    if k == 0 {
      OfDependentMembership(es, deps[0].id, e);
    } else {
      GroupByDependentExact(deps[1..], es, k - 1, e);
    }
  }

  /** Every enrollment marked as the user's own participant enrollment,
      otherwise unchanged. */
  function Tag(es: seq<Enrollment>): (r: seq<Enrollment>)
    ensures |r| == |es|
    ensures forall k :: 0 <= k < |es| ==> r[k] == es[k].(participantType := Some("participant"))
  {
    if es == [] then [] else [es[0].(participantType := Some("participant"))] + Tag(es[1..])
  }

  /** The user's dependents, `[]` when the user or the list is missing. */
  function DependentsOf(user: Option<UserRecord>): seq<Participant>
  {
    if user.Some? && user.value.dependents.Some? then user.value.dependents.value else []
  }

  function Ids(ps: seq<Participant>): (ids: seq<string>)
    ensures |ids| == |ps| && forall k :: 0 <= k < |ps| ==> ids[k] == ps[k].id
  {
    if ps == [] then [] else [ps[0].id] + Ids(ps[1..])
  }

  /** The route: its response and the store queries it makes. */
  function Get(session: Option<string>, whoAmI: Parsed<Option<string>>, main: MainReply, dep: DependentReply): (r: (Response, seq<Query>))
    ensures r.0.Bookings? ==> Truthy(session) && whoAmI.Parsed? && Truthy(whoAmI.value) && main.MainData?
    ensures r.0.Refused? ==> r.0.status == 401 || r.0.status == 500
    ensures |r.1| <= 3 && (r.1 != [] ==> r.1[0] == WhoAmI)
    ensures r.1 == [] <==> !Truthy(session)
  {
    if !Truthy(session) then (Refused(401, "Not authenticated"), [])
    else if whoAmI.Unreadable? then (Crashed, [WhoAmI])
    else if !Truthy(whoAmI.value) then (Refused(401, "User not found"), [WhoAmI])
    else
      var userId := whoAmI.value.value;
      var asked := [WhoAmI, UserBookings(userId)];
      match main
      case MainErrors => (Refused(500, "Failed to fetch bookings"), asked)
      case MainNoData => (Crashed, asked)
      case MainData(user, rentals) =>
        var deps := DependentsOf(user);
        var asked := asked + (if |deps| > 0 then [DependentEnrollments(Ids(deps))] else []);
        if |deps| > 0 && dep.DependentErrors? then (Refused(500, "Failed to fetch dependent enrollments"), asked)
        else if |deps| > 0 && dep.DependentNoData? then (Crashed, asked)
        else
          var own := if user.Some? && user.value.participantEnrollments.Some? then user.value.participantEnrollments.value else [];
          (Bookings(Tag(own), if rentals.Some? then rentals.value else []), asked)
  }

  /** Without a session, or when the session names no user, the route answers
      401; the first makes no query and the second only the identity one. An
      identity answer that cannot be read throws after that one query. */
  lemma GetGuards(session: Option<string>, whoAmI: Parsed<Option<string>>, main: MainReply, dep: DependentReply)
    ensures !Truthy(session) ==> Get(session, whoAmI, main, dep) == (Refused(401, "Not authenticated"), [])
    ensures Truthy(session) && whoAmI.Unreadable? ==> Get(session, whoAmI, main, dep) == (Crashed, [WhoAmI])
    ensures Truthy(session) && whoAmI.Parsed? && !Truthy(whoAmI.value) ==>
              Get(session, whoAmI, main, dep) == (Refused(401, "User not found"), [WhoAmI])
    ensures Truthy(session) && whoAmI.Parsed? && Truthy(whoAmI.value) && main.MainErrors? ==>
              Get(session, whoAmI, main, dep).0 == Refused(500, "Failed to fetch bookings")
  {
  }

  /** The dependents' query is made exactly when the user has a dependent, and
      asks for exactly the dependents' ids. */
  lemma DependentQueryOnlyWithDependents(session: string, userId: string, user: Option<UserRecord>,
                                         rentals: Option<seq<Rental>>, dep: DependentReply)
    requires session != "" && userId != ""
    ensures var queries := Get(Some(session), Parsed(Some(userId)), MainData(user, rentals), dep).1;
      && (|DependentsOf(user)| == 0 <==> queries == [WhoAmI, UserBookings(userId)])
      && (|DependentsOf(user)| > 0 ==> queries == [WhoAmI, UserBookings(userId), DependentEnrollments(Ids(DependentsOf(user)))])
  {
  }

  /** A successful response holds the user's participant enrollments, each
      tagged and otherwise unchanged, and the rentals, `[]` when missing; it
      does not depend on what the dependents' query returned. */
  lemma SuccessShape(session: string, userId: string, user: Option<UserRecord>, rentals: Option<seq<Rental>>,
                     dep1: DependentReply, dep2: DependentReply)
    requires session != "" && userId != ""
    requires dep1.DependentData? && dep2.DependentData?
    ensures var r := Get(Some(session), Parsed(Some(userId)), MainData(user, rentals), dep1).0;
      && r == Get(Some(session), Parsed(Some(userId)), MainData(user, rentals), dep2).0
      && r.Bookings?
      && r.rentals == (if rentals.Some? then rentals.value else [])
      && var own := if user.Some? && user.value.participantEnrollments.Some? then user.value.participantEnrollments.value else [];
         |r.enrollments| == |own|
         && forall k :: 0 <= k < |own| ==>
              r.enrollments[k].participantType == Some("participant")
              && r.enrollments[k].(participantType := own[k].participantType) == own[k]
  {
  }
}
