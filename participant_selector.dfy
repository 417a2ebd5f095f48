/** The participant-selection dialog: one selection per program item, seeded
    from the item's current participant (or the account holder), changed
    one item at a time, and resolved to participants on save. */
module ParticipantSelector {
  import opened Common

  /** A program line item as the dialog sees it. */
  datatype ProgramItem = ProgramItem(id: string, participantId: Option<string>)

  /** The ids of `items`. */
  function ItemIds(items: seq<ProgramItem>): set<string>
  {
    set k | 0 <= k < |items| :: items[k].id
  }

  /** The position of the last item with id `id`; -1 when there is none. */
  function LastIndex(items: seq<ProgramItem>, id: string): (k: int)
    ensures -1 <= k < |items|
    ensures k >= 0 ==> items[k].id == id
    ensures forall j :: k < j < |items| ==> items[j].id != id
  {
    if items == [] then -1
    else if items[|items| - 1].id == id then |items| - 1
    else LastIndex(items[..|items| - 1], id)
  }

  /** The initial selections: each item id mapped to the item's participant,
      or to the account holder when it has none; when ids repeat, the last
      item wins, as with `Object.fromEntries`. */
  function InitialSelections(items: seq<ProgramItem>, userId: string): (r: map<string, string>)
    ensures r.Keys == ItemIds(items)
    ensures items != [] ==> r[items[|items| - 1].id] == OrElse(items[|items| - 1].participantId, userId)
  {
    if items == [] then map[]
    else
      var last := items[|items| - 1];
      assert ItemIds(items) == ItemIds(items[..|items| - 1]) + {last.id};
      InitialSelections(items[..|items| - 1], userId)[last.id := OrElse(last.participantId, userId)]
  }

  /** Every item id has an initial selection and nothing else has one; it is
      the last such item's participant, or the account holder's id. */
  lemma {:induction false} InitialSelectionsMeaning(items: seq<ProgramItem>, userId: string)
    ensures forall id :: id in ItemIds(items) ==> LastIndex(items, id) >= 0
    ensures forall id :: id in ItemIds(items) ==>
      InitialSelections(items, userId)[id] == OrElse(items[LastIndex(items, id)].participantId, userId)
  {
    if items != [] {
      var n := |items| - 1;
      var init := items[..n];
      InitialSelectionsMeaning(init, userId);
      forall id | id in ItemIds(items)
        ensures LastIndex(items, id) >= 0
        ensures InitialSelections(items, userId)[id] == OrElse(items[LastIndex(items, id)].participantId, userId)
      {
        if id != items[n].id {
          var k :| 0 <= k < |items| && items[k].id == id;
          assert init[k].id == id;
          assert id in ItemIds(init);
          var j := LastIndex(init, id);
          assert LastIndex(items, id) == j;
          assert items[j] == init[j];
        }
      }
    }
  }

  class Selector {
    const items: seq<ProgramItem>
    const user: Participant
    const dependents: seq<Participant>
    var selections: map<string, string>

    /** The account holder first, then the dependents. */
    function Everyone(): (ps: seq<Participant>)
      ensures |ps| == |dependents| + 1 && ps[0] == user && ps[1..] == dependents
    {
      [user] + dependents
    }

    /** The participant the current selection for `itemId` names, if any. */
    function Resolve(itemId: string): Option<Participant>
      reads this
    {
      if itemId in selections then Find(Everyone(), selections[itemId]) else None
    }

    constructor (items: seq<ProgramItem>, user: Participant, dependents: seq<Participant>)
      ensures this.items == items && this.user == user && this.dependents == dependents
      ensures selections == InitialSelections(items, user.id)
    {
      this.items := items;
      this.user := user;
      this.dependents := dependents;
      selections := InitialSelections(items, user.id);
    }

    method HandleSelect(itemId: string, participantId: string)
      modifies this
      ensures selections == old(selections)[itemId := participantId]
    {
      selections := selections[itemId := participantId];
    }

    /** Resolves every item's selection; items whose selection names nobody
        are left out of the result. */
    method HandleSave() returns (result: map<string, Participant>)
      ensures forall id :: id in result <==> id in ItemIds(items) && Resolve(id).Some?
      ensures forall id :: id in result ==> result[id] == Resolve(id).value && result[id].id == selections[id]
    {
      result := map[];
      for i := 0 to |items|
        invariant forall id :: id in result <==> id in ItemIds(items[..i]) && Resolve(id).Some?
        invariant forall id :: id in result ==> result[id] == Resolve(id).value && result[id].id == selections[id]
      {
        assert ItemIds(items[..i + 1]) == ItemIds(items[..i]) + {items[i].id};
        var id := items[i].id;
        var participant := if id in selections then Find(Everyone(), selections[id]) else None;
        if participant.Some? {
          result := result[id := participant.value];
        }
      }
      assert items[..|items|] == items;
    }

    /** Saving straight after opening gives every item whose id is its own a
        participant: its own one when it names someone in the list, and the
        account holder when it named nobody. */
    lemma SaveAfterOpen(k: nat)
      requires selections == InitialSelections(items, user.id)
      requires k < |items|
      requires forall j :: 0 <= j < |items| && j != k ==> items[j].id != items[k].id
      ensures !Truthy(items[k].participantId) ==> Resolve(items[k].id) == Some(user)
      ensures Truthy(items[k].participantId) ==> Resolve(items[k].id) == Find(Everyone(), items[k].participantId.value)
    {
      InitialSelectionsMeaning(items, user.id);
      assert items[k].id in ItemIds(items);
      assert Everyone()[0] == user;
    }
  }
}
