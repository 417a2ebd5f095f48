/** The programs route: the active programs that run on a given calendar
    day, reshaped for the storefront. The store evaluates the route's filter
    over its catalogue; its reply is a parameter. Instants are milliseconds
    since the epoch in UTC, days are whole days since the epoch. */
module ProgramsRoute {
  import opened Common

  const DayMs := 86400000

  datatype FacilityRef = FacilityRef(id: string, name: string)

  /** A program row as the store holds it. */
  datatype RawProgram = RawProgram(
    id: string,
    name: string,
    description: string,
    price: int,
    startMs: int,
    endMs: int,
    isActive: bool,
    facility: Option<FacilityRef>)

  /** A program as the route returns it. */
  datatype Program = Program(
    id: string,
    name: string,
    description: string,
    price: int,
    startMs: int,
    endMs: int,
    facilityId: string,
    facilityName: string)

  /** The store's reply: a non-2xx status with its body text, an `errors`
      array, `data` (whose `programs` may be missing), a reply with neither,
      or a fetch that throws. */
  datatype StoreReply =
    | HttpFailure(text: string)
    | GraphQLErrors
    | Answered(catalogue: Option<seq<RawProgram>>)
    | AnsweredNoData
    | Unreachable

  datatype Response = Refused(status: int, error: string) | Listed(programs: seq<Program>)

  /** The first and the last millisecond of a UTC calendar day. */
  function DayStart(day: int): int { day * DayMs }
  function DayEnd(day: int): int { day * DayMs + DayMs - 1 }

  predicate InDay(t: int, day: int) { DayStart(day) <= t <= DayEnd(day) }
  predicate Within(t: int, p: RawProgram) { p.startMs <= t <= p.endMs }

  /** The route's filter: active, starting by the end of the day and ending
      no earlier than its start. */
  predicate Selected(p: RawProgram, day: int)
  {
    p.isActive && p.startMs <= DayEnd(day) && p.endMs >= DayStart(day)
  }

  /** The filter selects an active program exactly when some instant of the
      day falls within it; a program that ends before it starts is selected
      whenever its bounds straddle the day. */
  lemma SelectedMeansOverlap(p: RawProgram, day: int)
    ensures (p.isActive && exists t :: InDay(t, day) && Within(t, p)) ==> Selected(p, day)
    ensures p.startMs <= p.endMs ==> (Selected(p, day) ==> exists t :: InDay(t, day) && Within(t, p))
  {
    if p.startMs <= p.endMs && Selected(p, day) {
      var t := if p.startMs < DayStart(day) then DayStart(day) else p.startMs;
      assert InDay(t, day) && Within(t, p);
    }
  }

  /** The programs the store returns for `day`, in catalogue order. */
  function Select(ps: seq<RawProgram>, day: int): seq<RawProgram>
  {
    if ps == [] then []
    else (if Selected(ps[0], day) then [ps[0]] else []) + Select(ps[1..], day)
  }

  lemma {:induction false} SelectMembership(ps: seq<RawProgram>, day: int, p: RawProgram)
    ensures p in Select(ps, day) <==> p in ps && Selected(p, day)
    ensures |Select(ps, day)| <= |ps|
  {
    if ps != [] {
      SelectMembership(ps[1..], day, p);
      assert ps == [ps[0]] + ps[1..];
    }
  }

  /** The row mapping, with `""` for a missing facility. */
  function ToProgram(p: RawProgram): Program
  {
    Program(p.id, p.name, p.description, p.price, p.startMs, p.endMs,
            if p.facility.Some? then p.facility.value.id else "",
            if p.facility.Some? then p.facility.value.name else "")
  }

  function Programs(ps: seq<RawProgram>): (r: seq<Program>)
    ensures |r| == |ps|
    ensures forall k :: 0 <= k < |ps| ==> r[k] == ToProgram(ps[k])
  {
    if ps == [] then [] else [ToProgram(ps[0])] + Programs(ps[1..])
  }

  /** The mapping keeps count and order, copies every shared field, and
      reads the facility's id and name, or `""` when there is no facility. */
  lemma ProgramsCopyFields(ps: seq<RawProgram>, k: nat)
    requires k < |ps|
    ensures var q, p := Programs(ps)[k], ps[k];
      && q.id == p.id && q.name == p.name && q.description == p.description && q.price == p.price
      && q.startMs == p.startMs && q.endMs == p.endMs
      && (p.facility.None? ==> q.facilityId == "" && q.facilityName == "")
      && (p.facility.Some? ==> q.facilityId == p.facility.value.id && q.facilityName == p.facility.value.name)
  {
  }

  /** The route: its response and whether it queried the store. `day` is the
      date parameter, `None` when it is missing or empty. */
  function Get(day: Option<int>, urlConfigured: bool, reply: StoreReply): (r: (Response, bool))
    ensures r.1 <==> day.Some? && urlConfigured
    ensures r.0.Listed? <==> day.Some? && urlConfigured && reply.Answered?
    ensures r.0.Refused? ==> r.0.status == 400 || r.0.status == 500
  {
    if day.None? then (Refused(400, "Date parameter is required"), false)
    else if !urlConfigured then (Refused(500, "Keystone API URL is not configured."), false)
    else
      var r := match reply
        case HttpFailure(text) => Refused(500, "Failed to fetch programs: " + text)
        case GraphQLErrors => Refused(500, "GraphQL error")
        case AnsweredNoData => Refused(500, "Unexpected error fetching programs.")
        case Unreachable => Refused(500, "Unexpected error fetching programs.")
        case Answered(catalogue) =>
          Listed(Programs(if catalogue.Some? then Select(catalogue.value, day.value) else []));
      (r, true)
  }

  /** No date means 400 and no store call; no store URL means 500 and no
      store call; every store failure is a 500. */
  lemma GetGuards(day: Option<int>, urlConfigured: bool, reply: StoreReply)
    ensures day.None? ==> Get(day, urlConfigured, reply) == (Refused(400, "Date parameter is required"), false)
    ensures day.Some? && !urlConfigured ==> Get(day, urlConfigured, reply) == (Refused(500, "Keystone API URL is not configured."), false)
    ensures day.Some? && urlConfigured ==> Get(day, urlConfigured, reply).1
    ensures day.Some? && urlConfigured && !reply.Answered? ==>
      Get(day, urlConfigured, reply).0.Refused? && Get(day, urlConfigured, reply).0.status == 500
  {
  }

  /** Every listed program is the reshaping of an active catalogue program
      that runs on the day, and every such program is listed. */
  lemma ListedAreThoseOnTheDay(day: int, catalogue: seq<RawProgram>)
    ensures var r := Get(Some(day), true, Answered(Some(catalogue))).0;
      && r.Listed?
      && (forall q :: q in r.programs ==> exists p :: p in catalogue && Selected(p, day) && q == ToProgram(p))
      && (forall p :: p in catalogue && Selected(p, day) ==> ToProgram(p) in r.programs)
  {
    var sel := Select(catalogue, day);
    var r := Get(Some(day), true, Answered(Some(catalogue))).0;
    assert r.programs == Programs(sel);
    forall q | q in r.programs
      ensures exists p :: p in catalogue && Selected(p, day) && q == ToProgram(p)
    {
      var k :| 0 <= k < |r.programs| && r.programs[k] == q;
      SelectMembership(catalogue, day, sel[k]);
    }
    forall p | p in catalogue && Selected(p, day)
      ensures ToProgram(p) in r.programs
    {
      SelectMembership(catalogue, day, p);
      var k :| 0 <= k < |sel| && sel[k] == p;
      assert r.programs[k] == ToProgram(p);
    }
  }
}
