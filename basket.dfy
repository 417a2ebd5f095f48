/** The client-held booking basket: an ordered list of line items that the
    storefront's pages append to and the basket sheet removes from. */
module BasketContext {
  import opened Common

  /** The `type` of a line item; `OtherKind` stands for any other string a
      request body may carry. */
  datatype Kind = Rental | Program | DropIn | TrainingPackage | OtherKind(name: string)

  /** A line item. Ids are chosen by the caller and may be absent or repeated;
      prices are in minor currency units. Display-only fields (names, dates)
      are not part of the model. */
  datatype Item = Item(
    id: Option<string>,
    kind: Kind,
    facilityId: Option<string>,
    programId: Option<string>,
    sessionId: Option<string>,
    start: Option<string>,
    end: Option<string>,
    price: int,
    participantId: Option<string>,
    participantName: Option<string>,
    trainingPackageId: Option<string>)

  /** The basket total: the prices of all items added up, 0 when empty. */
  function Sum(items: seq<Item>): (total: int)
    ensures items == [] ==> total == 0
    ensures (forall k :: 0 <= k < |items| ==> items[k].price >= 0) ==> total >= 0
  {
    if items == [] then 0 else items[0].price + Sum(items[1..])
  }

  /** The items whose id differs from `id`, in their basket order. */
  function Without(items: seq<Item>, id: Option<string>): seq<Item>
  {
    if items == [] then []
    else if items[0].id == id then Without(items[1..], id)
    else [items[0]] + Without(items[1..], id)
  }

  /** The items a removal of `id` takes away. */
  function Only(items: seq<Item>, id: Option<string>): seq<Item>
  {
    if items == [] then []
    else if items[0].id == id then [items[0]] + Only(items[1..], id)
    else Only(items[1..], id)
  }

  lemma {:induction false} SumAppend(a: seq<Item>, b: seq<Item>)
    ensures Sum(a + b) == Sum(a) + Sum(b)
  {
    if a == [] {
      assert a + b == b;
    } else {
      assert (a + b)[1..] == a[1..] + b;
      SumAppend(a[1..], b);
    }
  }

  /** Taking out the item at `k` takes its price off the total. */
  lemma SumRemoveAt(b: seq<Item>, k: nat)
    requires k < |b|
    ensures Sum(b) == b[k].price + Sum(b[..k] + b[k + 1..])
  {
    var pre, post := b[..k], b[k + 1..];
    var tail := [b[k]] + post;
    assert b == pre + tail;
    assert tail[0] == b[k] && tail[1..] == post;
    assert Sum(tail) == b[k].price + Sum(post);
    SumAppend(pre, tail);
    SumAppend(pre, post);
  }

  /** Taking out the item at `k` takes it out of the basket's multiset. */
  lemma MultisetRemoveAt(b: seq<Item>, k: nat)
    requires k < |b|
    ensures multiset(b) == multiset(b[..k] + b[k + 1..]) + multiset{b[k]}
  {
    var pre, post := b[..k], b[k + 1..];
    assert b == pre + [b[k]] + post;
    assert multiset(b) == multiset(pre) + multiset([b[k]]) + multiset(post);
    assert multiset(pre + post) == multiset(pre) + multiset(post);
  }

  /** The total does not depend on the order in which items were added. */
  lemma {:induction false} SumPermutation(a: seq<Item>, b: seq<Item>)
    requires multiset(a) == multiset(b)
    ensures Sum(a) == Sum(b)
  {
    if a == [] {
      assert |b| == |multiset(b)| == 0;
    } else {
      assert a[0] in multiset(b);
      var k :| 0 <= k < |b| && b[k] == a[0];
      var rest := b[..k] + b[k + 1..];
      SumRemoveAt(b, k);
      MultisetRemoveAt(b, k);
      assert a == [a[0]] + a[1..];
      assert multiset(a) == multiset{a[0]} + multiset(a[1..]);
      forall y ensures multiset(a[1..])[y] == multiset(rest)[y] {
        assert multiset(a)[y] == multiset(b)[y];
      }
      assert multiset(a[1..]) == multiset(rest);
      SumPermutation(a[1..], rest);
    }
  }

  lemma {:induction false} RemovalMultiset(items: seq<Item>, id: Option<string>)
    ensures multiset(Without(items, id)) + multiset(Only(items, id)) == multiset(items)
  {
    if items != [] {
      var x, rest := items[0], items[1..];
      RemovalMultiset(rest, id);
      assert items == [x] + rest;
      assert multiset(items) == multiset{x} + multiset(rest);
      if x.id == id {
        assert multiset(Only(items, id)) == multiset{x} + multiset(Only(rest, id));
        assert Without(items, id) == Without(rest, id);
      } else {
        assert multiset(Without(items, id)) == multiset{x} + multiset(Without(rest, id));
        assert Only(items, id) == Only(rest, id);
      }
    }
  }

  lemma {:induction false} RemovalSum(items: seq<Item>, id: Option<string>)
    ensures Sum(Without(items, id)) + Sum(Only(items, id)) == Sum(items)
  {
    if items != [] {
      var x, rest := items[0], items[1..];
      RemovalSum(rest, id);
      var single := [x];
      assert Sum(single) == x.price;
      if x.id == id {
        SumAppend(single, Only(rest, id));
      } else {
        SumAppend(single, Without(rest, id));
      }
    }
  }

  /** An item is removed by a removal of `id` exactly when it is in the
      basket under `id`. */
  lemma {:induction false} OnlyMembership(items: seq<Item>, id: Option<string>, x: Item)
    ensures x in Only(items, id) <==> x in items && x.id == id
  {
    if items != [] {
      OnlyMembership(items[1..], id, x);
      assert items == [items[0]] + items[1..];
    }
  }

  /** Removal splits the basket: what stays plus what goes is the old basket,
      item for item, and the total drops by exactly the removed prices. */
  lemma RemovalPartition(items: seq<Item>, id: Option<string>)
    ensures multiset(Without(items, id)) + multiset(Only(items, id)) == multiset(items)
    ensures Sum(Without(items, id)) + Sum(Only(items, id)) == Sum(items)
    ensures forall x :: x in Only(items, id) ==> x.id == id
  {
    RemovalMultiset(items, id);
    RemovalSum(items, id);
    forall x | x in Only(items, id) ensures x.id == id {
      OnlyMembership(items, id, x);
    }
  }

  /** An item survives removal of `id` exactly when it is in the basket under
      another id. */
  lemma {:induction false} WithoutMembership(items: seq<Item>, id: Option<string>, x: Item)
    ensures x in Without(items, id) <==> x in items && x.id != id
  {
    if items != [] {
      WithoutMembership(items[1..], id, x);
      assert items == [items[0]] + items[1..];
    }
  }

  /** Removal works piecewise, so the survivors keep their relative order. */
  lemma {:induction false} WithoutAppend(a: seq<Item>, b: seq<Item>, id: Option<string>)
    ensures Without(a + b, id) == Without(a, id) + Without(b, id)
    ensures Only(a + b, id) == Only(a, id) + Only(b, id)
  {
    if a == [] {
      assert a + b == b;
    } else {
      assert (a + b)[1..] == a[1..] + b;
      WithoutAppend(a[1..], b, id);
    }
  }

  /** Removing an id that no item carries leaves the basket as it was. */
  lemma {:induction false} WithoutAbsent(items: seq<Item>, id: Option<string>)
    requires forall k :: 0 <= k < |items| ==> items[k].id != id
    ensures Without(items, id) == items
    ensures Only(items, id) == []
  {
    if items != [] {
      WithoutAbsent(items[1..], id);
    }
  }

  /** Removing twice is removing once. */
  lemma WithoutIdempotent(items: seq<Item>, id: Option<string>)
    ensures Without(Without(items, id), id) == Without(items, id)
  {
    forall k | 0 <= k < |Without(items, id)|
      ensures Without(items, id)[k].id != id
    {
      WithoutMembership(items, id, Without(items, id)[k]);
    }
    WithoutAbsent(Without(items, id), id);
  }

  /** Appending neither assigns nor checks ids: after adding `x`, the basket
      holds one more item under `x.id`, next to any it already had. */
  lemma AddKeepsDuplicateIds(items: seq<Item>, x: Item)
    ensures Only(items + [x], x.id) == Only(items, x.id) + [x]
  {
    WithoutAppend(items, [x], x.id);
  }

  /** The basket held by the basket provider; every method replaces `items`
      as the provider's `setItems` does. */
  class Basket {
    var items: seq<Item>

    constructor ()
      ensures items == []
    {
      items := [];
    }

    function GetTotal(): int
      reads this
    {
      Sum(items)
    }

    method AddItem(item: Item)
      modifies this
      ensures items == old(items) + [item]
      ensures GetTotal() == old(GetTotal()) + item.price
    {
      SumAppend(items, [item]);
      items := items + [item];
    }

    method RemoveItem(id: Option<string>)
      modifies this
      ensures items == Without(old(items), id)
      ensures GetTotal() == old(GetTotal()) - Sum(Only(old(items), id))
    {
      RemovalPartition(items, id);
      items := Without(items, id);
    }

    method ClearBasket()
      modifies this
      ensures items == [] && GetTotal() == 0
    {
      items := [];
    }
  }
}
