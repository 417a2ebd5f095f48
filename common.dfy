/** Vocabulary shared by the storefront's client components and API routes. */
module Common {

  datatype Option<+T> = None | Some(value: T)

  /** JavaScript truthiness of an optional string: present and not empty. */
  predicate Truthy(s: Option<string>)
  {
    s.Some? && s.value != ""
  }

  /** The expression `s || fallback` on an optional string. */
  function OrElse(s: Option<string>, fallback: string): string
  {
    if Truthy(s) then s.value else fallback
  }

  /** The reply of the remote store to a create mutation: `data.createX`
      holding a record id, an `errors` array (each entry's `message`,
      "" where it has none), or neither. */
  datatype Reply = Created(id: string) | Errors(messages: seq<string>) | NoData

  /** A store answer as a route reads it: `Parsed(v)` when the route can
      take the body apart, `Unreadable` when reading it throws (the request
      fails, the body is not JSON, or it is the JSON value `null` where the
      route reads a field of it). */
  datatype Parsed<+T> = Parsed(value: T) | Unreadable

  /** The first error's message when there is one and it is not empty,
      otherwise the fallback. */
  function FirstMessage(messages: seq<string>, fallback: string): (m: string)
    ensures fallback != "" ==> m != ""
  {
    if |messages| > 0 && messages[0] != "" then messages[0] else fallback
  }

  /** The account holder or one of their dependents. */
  datatype Participant = Participant(id: string, name: string)

  /** The first participant in the list with the given id, if any. */
  function Find(ps: seq<Participant>, id: string): (r: Option<Participant>)
    ensures r.None? <==> forall p :: p in ps ==> p.id != id
    ensures r.Some? ==> exists k :: 0 <= k < |ps| && ps[k] == r.value && r.value.id == id
                                   && forall j :: 0 <= j < k ==> ps[j].id != id
  {
    if |ps| == 0 then None
    else if ps[0].id == id then Some(ps[0])
    else Find(ps[1..], id)
  }
}
