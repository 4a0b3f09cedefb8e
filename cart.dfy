/** The shopping cart of app/context/cartContext.tsx: a list of line items
    keyed by variant id, changed by pure updaters of the previous list, with a
    toast message set as a side effect of adding. */
module Cart {
  import opened Wrappers

  /** `price` is an integer amount; `available` is the stock cap. */
  datatype CartItem = CartItem(
    id: string, title: string, variantTitle: Option<string>, price: int,
    quantity: int, image: Option<string>, available: int)

  /** No two entries share an id. */
  ghost predicate UniqueIds(items: seq<CartItem>) {
    forall i, j :: 0 <= i < j < |items| ==> items[i].id != items[j].id
  }

  ghost predicate HasId(items: seq<CartItem>, id: string) {
    exists i :: 0 <= i < |items| && items[i].id == id
  }

  /** `prev.find(i => i.id === id)`: the first entry with that id. */
  function Find(items: seq<CartItem>, id: string): (r: Option<CartItem>)
    ensures r.Some? <==> HasId(items, id)
    ensures r.Some? ==> exists i :: 0 <= i < |items| && items[i] == r.value && r.value.id == id
                                    && forall j :: 0 <= j < i ==> items[j].id != id
  {
    if |items| == 0 then None
    else if items[0].id == id then Some(items[0])
    else
      var r := Find(items[1..], id);
      assert HasId(items, id) ==> HasId(items[1..], id) by {
        if HasId(items, id) {
          var i :| 0 <= i < |items| && items[i].id == id;
          assert i > 0 && items[1..][i - 1].id == id;
        }
      }
      assert r.Some? ==> HasId(items, id) by {
        if r.Some? {
          var i :| 0 <= i < |items[1..]| && items[1..][i].id == id;
          assert items[i + 1].id == id;
        }
      }
      if r.Some? then
        assert exists i :: 0 <= i < |items| && items[i] == r.value && r.value.id == id
                           && forall j :: 0 <= j < i ==> items[j].id != id by {
          var i :| 0 <= i < |items[1..]| && items[1..][i] == r.value && r.value.id == id
                   && forall j :: 0 <= j < i ==> items[1..][j].id != id;
          assert items[i + 1] == r.value;
          forall j | 0 <= j < i + 1 ensures items[j].id != id {
            if j > 0 { assert items[j] == items[1..][j - 1]; }
          }
        }
        r
      else r
  }

  /** `prev.map(i => i.id === id ? { ...i, quantity } : i)`. */
  function SetQuantity(items: seq<CartItem>, id: string, quantity: int): (r: seq<CartItem>)
    ensures |r| == |items|
    ensures forall i :: 0 <= i < |items| ==> r[i] == if items[i].id == id then items[i].(quantity := quantity) else items[i]
  {
    seq(|items|, i requires 0 <= i < |items| => if items[i].id == id then items[i].(quantity := quantity) else items[i])
  }

  function Min(a: int, b: int): int {
    if a < b then a else b
  }

  /** The list `addToCart(item)` leaves: a known id has its quantity raised by
      the item's, capped at the stock of the entry already in the cart; an
      unknown one is appended as it is. */
  function Added(prev: seq<CartItem>, item: CartItem): seq<CartItem> {
    match Find(prev, item.id)
    case Some(existing) => SetQuantity(prev, item.id, Min(existing.quantity + item.quantity, existing.available))
    case None => prev + [item]
  }

  /** The toast `addToCart(item)` shows. */
  function AddedToast(prev: seq<CartItem>, item: CartItem): (t: string)
    ensures HasId(prev, item.id) ==> t == item.title + " actualizado en el carrito"
    ensures !HasId(prev, item.id) ==> t == item.title + " agregado al carrito"
  {
    if Find(prev, item.id).Some? then item.title + " actualizado en el carrito"
    else item.title + " agregado al carrito"
  }

  /** `prev.filter(i => i.id !== id)`. */
  function Removed(items: seq<CartItem>, id: string): (r: seq<CartItem>)
    ensures |r| <= |items|
    decreases |items|
  {
    if |items| == 0 then []
    else if items[0].id == id then Removed(items[1..], id)
    else [items[0]] + Removed(items[1..], id)
  }

  /** Adding a known id changes only that entry's quantity, to the capped sum;
      with unique ids the entry found is the only one changed. */
  lemma AddExisting(prev: seq<CartItem>, item: CartItem, k: nat)
    requires UniqueIds(prev) && k < |prev| && prev[k].id == item.id
    ensures |Added(prev, item)| == |prev|
    ensures Added(prev, item)[k] == prev[k].(quantity := Min(prev[k].quantity + item.quantity, prev[k].available))
    ensures Added(prev, item)[k].quantity <= prev[k].available
    ensures forall i :: 0 <= i < |prev| && i != k ==> Added(prev, item)[i] == prev[i]
  {
    var f := Find(prev, item.id);
    var i :| 0 <= i < |prev| && prev[i] == f.value && f.value.id == item.id
             && forall j :: 0 <= j < i ==> prev[j].id != item.id;
    assert i == k;
  }

  /** Adding an unknown id appends the item with no cap applied. */
  lemma AddAbsent(prev: seq<CartItem>, item: CartItem)
    requires !HasId(prev, item.id)
    ensures Added(prev, item) == prev + [item]
  {
  }

  lemma AddKeepsUnique(prev: seq<CartItem>, item: CartItem)
    requires UniqueIds(prev)
    ensures UniqueIds(Added(prev, item))
  {
    var r := Added(prev, item);
    if !HasId(prev, item.id) {
      forall i, j | 0 <= i < j < |r| ensures r[i].id != r[j].id {
        if j == |prev| {
          assert r[j] == item && r[i] == prev[i];
        }
      }
    }
  }

  /** `updateQuantity` keeps every id in place and leaves other entries untouched. */
  lemma UpdateKeepsUnique(items: seq<CartItem>, id: string, quantity: int)
    requires UniqueIds(items)
    ensures UniqueIds(SetQuantity(items, id, quantity))
    ensures forall i :: 0 <= i < |items| && items[i].id != id ==> SetQuantity(items, id, quantity)[i] == items[i]
    ensures forall i :: 0 <= i < |items| ==> SetQuantity(items, id, quantity)[i].id == items[i].id
  {
  }

  /** Removing drops exactly the entries with that id. */
  lemma {:induction false} RemovedMembers(items: seq<CartItem>, id: string)
    ensures forall x :: x in Removed(items, id) <==> x in items && x.id != id
    decreases |items|
  {
    if |items| > 0 {
      RemovedMembers(items[1..], id);
      assert items == [items[0]] + items[1..];
    }
  }

  /** Filtering a concatenation filters each part: the order of the kept entries is unchanged. */
  lemma {:induction false} RemovedConcat(a: seq<CartItem>, b: seq<CartItem>, id: string)
    ensures Removed(a + b, id) == Removed(a, id) + Removed(b, id)
    decreases |a|
  {
    if |a| == 0 {
      assert a + b == b;
    } else {
      assert (a + b)[1..] == a[1..] + b;
      RemovedConcat(a[1..], b, id);
    }
  }

  lemma {:induction false} RemoveKeepsUnique(items: seq<CartItem>, id: string)
    requires UniqueIds(items)
    ensures UniqueIds(Removed(items, id))
    decreases |items|
  {
    if |items| > 0 {
      RemoveKeepsUnique(items[1..], id);
      RemovedMembers(items[1..], id);
      var r := Removed(items, id);
      if items[0].id != id {
        forall x | x in Removed(items[1..], id) ensures x.id != items[0].id {
          var j :| 0 <= j < |items[1..]| && items[1..][j] == x;
          assert items[j + 1] == x;
        }
        forall i, j | 0 <= i < j < |r| ensures r[i].id != r[j].id {
          if i == 0 {
            assert r[j] == Removed(items[1..], id)[j - 1];
            assert r[j] in Removed(items[1..], id);
          } else {
            assert r[i] == Removed(items[1..], id)[i - 1] && r[j] == Removed(items[1..], id)[j - 1];
          }
        }
      }
    }
  }

  /** Removing an id that is not there changes nothing. */
  lemma {:induction false} RemoveAbsent(items: seq<CartItem>, id: string)
    requires !HasId(items, id)
    ensures Removed(items, id) == items
    decreases |items|
  {
    if |items| > 0 {
      assert items[0].id != id;
      forall i | 0 <= i < |items[1..]| ensures items[1..][i].id != id {
        assert items[1..][i] == items[i + 1];
      }
      RemoveAbsent(items[1..], id);
      assert items == [items[0]] + items[1..];
    }
  }

  /** A removed id is no longer in the cart, and removing twice changes nothing more. */
  lemma RemoveIdempotent(items: seq<CartItem>, id: string)
    ensures !HasId(Removed(items, id), id)
    ensures Removed(Removed(items, id), id) == Removed(items, id)
  {
    var r := Removed(items, id);
    RemovedMembers(items, id);
    forall i | 0 <= i < |r| ensures r[i].id != id {
      assert r[i] in r;
    }
    RemoveAbsent(r, id);
  }

  /** The provider's state: the list and the toast text (empty when hidden). */
  class CartProvider {
    var items: seq<CartItem>
    var toastMessage: string

    /** The list read from `localStorage` (`None` on the server or when nothing is stored). */
    constructor(stored: Option<seq<CartItem>>)
      ensures items == stored.GetOr([]) && toastMessage == ""
    {
      items := stored.GetOr([]);
      toastMessage := "";
    }

    ghost predicate Valid()
      reads this
    {
      UniqueIds(items)
    }

    method AddToCart(item: CartItem)
      modifies this
      ensures items == Added(old(items), item)
      ensures toastMessage == AddedToast(old(items), item)
      ensures old(Valid()) ==> Valid()
    {
      if Valid() {
        AddKeepsUnique(items, item);
      }
      var existing := Find(items, item.id);
      match existing
      case Some(e) =>
        var updatedQty := Min(e.quantity + item.quantity, e.available);
        toastMessage := item.title + " actualizado en el carrito";
        items := SetQuantity(items, item.id, updatedQty);
      case None =>
        toastMessage := item.title + " agregado al carrito";
        items := items + [item];
    }

    method UpdateQuantity(id: string, quantity: int)
      modifies this
      ensures items == SetQuantity(old(items), id, quantity) && toastMessage == old(toastMessage)
      ensures old(Valid()) ==> Valid()
    {
      items := SetQuantity(items, id, quantity);
    }

    method RemoveFromCart(id: string)
      modifies this
      ensures items == Removed(old(items), id) && toastMessage == old(toastMessage)
      ensures old(Valid()) ==> Valid()
    {
      if old(Valid()) {
        RemoveKeepsUnique(items, id);
      }
      items := Removed(items, id);
    }

    method ClearCart()
      modifies this
      ensures items == [] && toastMessage == old(toastMessage)
      ensures Valid()
    {
      items := [];
    }

    /** The toast's `onClose`. */
    method CloseToast()
      modifies this
      ensures toastMessage == "" && items == old(items)
    {
      toastMessage := "";
    }
  }
}
