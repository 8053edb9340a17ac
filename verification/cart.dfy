/** The shopping cart: a reducer over cart actions, the getters derived from
    the cart's lines, and the cart's persistence as a stored `{items}` value. */
module Cart {
  import opened Common
  import Catalog

  type Product = Catalog.Product

  /** A cart line: the product's fields spread into the line, plus a quantity. */
  datatype LineItem = LineItem(product: Product, quantity: int)

  datatype CartState = CartState(items: seq<LineItem>)

  const InitialState: CartState := CartState([])

  /** The actions the reducer understands, and any other action type. */
  datatype Action =
    | AddItem(product: Product, amount: Option<int>)
    | RemoveItem(id: string)
    | UpdateQuantity(lineId: string, quantity: int)
    | ClearCart
    | LoadCart(payload: Option<seq<LineItem>>)
    | OtherAction(actionType: string)

  function Id(item: LineItem): string { item.product.id }

  // ---------------------------------------------------------------------------
  // Invariants

  /** No two lines share a product id. */
  ghost predicate UniqueIds(items: seq<LineItem>) {
    forall i, j :: 0 <= i < j < |items| ==> Id(items[i]) != Id(items[j])
  }

  predicate PositiveQuantities(items: seq<LineItem>) {
    forall i :: 0 <= i < |items| ==> items[i].quantity >= 1
  }

  ghost predicate Valid(s: CartState) {
    UniqueIds(s.items) && PositiveQuantities(s.items)
  }

  // ---------------------------------------------------------------------------
  // Getters

  /** `isInCart`: some line has the id. */
  function IsInCart(items: seq<LineItem>, id: string): (r: bool)
    ensures r <==> exists i :: 0 <= i < |items| && Id(items[i]) == id
    decreases |items|
  {
    if items == [] then false
    else
      assert forall i :: 0 < i < |items| ==> items[i] == items[1..][i - 1];
      Id(items[0]) == id || IsInCart(items[1..], id)
  }

  /** `getCartItem`: the first line with the id, if any. */
  function GetCartItem(items: seq<LineItem>, id: string): (r: Option<LineItem>)
    ensures r.None? <==> !IsInCart(items, id)
    ensures r.Some? ==> exists i :: (0 <= i < |items| && items[i] == r.value && Id(r.value) == id
                                     && forall j :: 0 <= j < i ==> Id(items[j]) != id)
    decreases |items|
  {
    if items == [] then None
    else if Id(items[0]) == id then Some(items[0])
    else
      var r := GetCartItem(items[1..], id);
      assert forall i :: 0 < i < |items| ==> items[i] == items[1..][i - 1];
      r
  }

  /** `getItemQuantity`: the first matching line's quantity, or 0. */
  function GetItemQuantity(items: seq<LineItem>, id: string): (r: int)
    ensures !IsInCart(items, id) ==> r == 0
    ensures IsInCart(items, id) ==> exists i :: (0 <= i < |items| && Id(items[i]) == id && r == items[i].quantity
                                                 && forall j :: 0 <= j < i ==> Id(items[j]) != id)
  {
    match GetCartItem(items, id)
    case Some(item) => item.quantity
    case None => 0
  }

  /** With unique ids the quantity reported is that of the one matching line. */
  lemma GetItemQuantityUnique(items: seq<LineItem>, i: int)
    requires UniqueIds(items)
    requires 0 <= i < |items|
    ensures GetItemQuantity(items, Id(items[i])) == items[i].quantity
  {
    var id := Id(items[i]);
    var k :| 0 <= k < |items| && Id(items[k]) == id && GetItemQuantity(items, id) == items[k].quantity
             && forall j :: 0 <= j < k ==> Id(items[j]) != id;
    assert k == i;
  }

  /** `getItemCount`: the sum of the lines' quantities. */
  function ItemCount(items: seq<LineItem>): (r: int)
    ensures PositiveQuantities(items) ==> r >= |items|
    ensures items == [] ==> r == 0
  {
    if items == [] then 0
    else items[0].quantity + ItemCount(items[1..])
  }

  /** A line's price times its quantity. */
  function LineTotal(item: LineItem): (r: real)
    ensures item.product.price >= 0.0 && item.quantity >= 0 ==> r >= 0.0
  {
    item.product.price * item.quantity as real
  }

  /** `getSubtotal`: the sum of price times quantity over the lines. */
  function Subtotal(items: seq<LineItem>): (r: real)
    ensures (forall i :: 0 <= i < |items| ==> items[i].product.price >= 0.0 && items[i].quantity >= 0)
            ==> r >= 0.0
    ensures items == [] ==> r == 0.0
  {
    if items == [] then 0.0
    else LineTotal(items[0]) + Subtotal(items[1..])
  }

  lemma {:induction false} ItemCountAppend(a: seq<LineItem>, b: seq<LineItem>)
    ensures ItemCount(a + b) == ItemCount(a) + ItemCount(b)
    decreases |a|
  {
    if a == [] {
      assert a + b == b;
    } else {
      assert (a + b)[1..] == a[1..] + b;
      ItemCountAppend(a[1..], b);
    }
  }

  lemma {:induction false} SubtotalAppend(a: seq<LineItem>, b: seq<LineItem>)
    ensures Subtotal(a + b) == Subtotal(a) + Subtotal(b)
    decreases |a|
  {
    if a == [] {
      assert a + b == b;
    } else {
      assert (a + b)[1..] == a[1..] + b;
      SubtotalAppend(a[1..], b);
    }
  }

  // ---------------------------------------------------------------------------
  // Line updates used by the reducer

  /** The quantity an add action carries; it defaults to 1. */
  function AmountOf(amount: Option<int>): int {
    if amount.Some? then amount.value else 1
  }

  /** Every line with the id gets `delta` more; all other lines are kept. */
  function Bump(items: seq<LineItem>, id: string, delta: int): (r: seq<LineItem>)
    ensures |r| == |items|
    ensures forall i :: 0 <= i < |items| ==> r[i].product == items[i].product
    decreases |items|
  {
    if items == [] then []
    else
      var head := if Id(items[0]) == id then items[0].(quantity := items[0].quantity + delta) else items[0];
      [head] + Bump(items[1..], id, delta)
  }

  /** Every line with the id gets quantity `q`; all other lines are kept. */
  function Reset(items: seq<LineItem>, id: string, q: int): (r: seq<LineItem>)
    ensures |r| == |items|
    ensures forall i :: 0 <= i < |items| ==> r[i].product == items[i].product
    decreases |items|
  {
    if items == [] then []
    else
      var head := if Id(items[0]) == id then items[0].(quantity := q) else items[0];
      [head] + Reset(items[1..], id, q)
  }

  lemma {:induction false} BumpLines(items: seq<LineItem>, id: string, delta: int)
    ensures forall i :: 0 <= i < |items| ==>
              Bump(items, id, delta)[i].quantity
                == (if Id(items[i]) == id then items[i].quantity + delta else items[i].quantity)
    decreases |items|
  {
    if items != [] {
      BumpLines(items[1..], id, delta);
    }
  }

  lemma {:induction false} ResetLines(items: seq<LineItem>, id: string, q: int)
    ensures forall i :: 0 <= i < |items| ==>
              Reset(items, id, q)[i].quantity == (if Id(items[i]) == id then q else items[i].quantity)
    decreases |items|
  {
    if items != [] {
      ResetLines(items[1..], id, q);
    }
  }

  function KeepsOtherIds(id: string): LineItem -> bool {
    item => Id(item) != id
  }

  /** The lines whose id differs from `id`, in their original order. */
  function Without(items: seq<LineItem>, id: string): seq<LineItem> {
    Filter(KeepsOtherIds(id), items)
  }

  lemma AbsentIdKeepsAll(items: seq<LineItem>, id: string)
    ensures !IsInCart(items, id) ==> Without(items, id) == items
  {
    if !IsInCart(items, id) {
      FilterAll(KeepsOtherIds(id), items);
    }
  }

  /** A line kept in place of the old one keeps the id in the cart. */
  lemma StillInCart(before: seq<LineItem>, after: seq<LineItem>, id: string)
    requires |after| == |before|
    requires forall i :: 0 <= i < |before| ==> after[i].product == before[i].product
    requires IsInCart(before, id)
    ensures IsInCart(after, id)
  {
    var k :| 0 <= k < |before| && Id(before[k]) == id;
    assert Id(after[k]) == id;
  }

  // ---------------------------------------------------------------------------
  // The reducer

  /** ADD_ITEM: merge into an existing line with the product's id, or append a new line. */
  function Add(state: CartState, product: Product, amount: Option<int>): (r: CartState)
    ensures IsInCart(r.items, product.id)
    ensures IsInCart(state.items, product.id) ==>
              |r.items| == |state.items|
              && (forall i :: 0 <= i < |state.items| ==> r.items[i].product == state.items[i].product)
              && (forall i :: 0 <= i < |state.items| && Id(state.items[i]) == product.id ==>
                    r.items[i].quantity == state.items[i].quantity + AmountOf(amount))
              && (forall i :: 0 <= i < |state.items| && Id(state.items[i]) != product.id ==>
                    r.items[i] == state.items[i])
    ensures !IsInCart(state.items, product.id) ==>
              r.items == state.items + [LineItem(product, AmountOf(amount))]
  {
    var q := AmountOf(amount);
    if IsInCart(state.items, product.id) then
      BumpLines(state.items, product.id, q);
      StillInCart(state.items, Bump(state.items, product.id, q), product.id);
      CartState(Bump(state.items, product.id, q))
    else
      var items := state.items + [LineItem(product, q)];
      assert Id(items[|state.items|]) == product.id;
      CartState(items)
  }

  /** REMOVE_ITEM: drop every line with the id, keeping the order of the rest. */
  function Remove(state: CartState, id: string): (r: CartState)
    ensures !IsInCart(r.items, id)
    ensures Subsequence(r.items, state.items)
    ensures forall i :: 0 <= i < |state.items| && Id(state.items[i]) != id ==> state.items[i] in r.items
    ensures !IsInCart(state.items, id) ==> r == state
  {
    FilterMembers(KeepsOtherIds(id), state.items);
    FilterSubsequence(KeepsOtherIds(id), state.items);
    AbsentIdKeepsAll(state.items, id);
    CartState(Without(state.items, id))
  }

  /** REMOVE_ITEM keeps every copy of each line with another id, so duplicate
      lines installed by LOAD survive a remove as often as they occurred. */
  lemma RemoveKeepsCopies(state: CartState, id: string)
    ensures forall l :: multiset(Remove(state, id).items)[l] ==
                        if Id(l) != id then multiset(state.items)[l] else 0
  {
    FilterCounts(KeepsOtherIds(id), state.items);
  }

  /** UPDATE_QUANTITY: a quantity of zero or less removes the id; otherwise
      every line with the id takes the new quantity. */
  function Update(state: CartState, id: string, q: int): (r: CartState)
    ensures q <= 0 ==> r == Remove(state, id)
    ensures q > 0 ==>
              |r.items| == |state.items|
              && (forall i :: 0 <= i < |state.items| ==> r.items[i].product == state.items[i].product)
              && (forall i :: 0 <= i < |state.items| && Id(state.items[i]) == id ==> r.items[i].quantity == q)
              && (forall i :: 0 <= i < |state.items| && Id(state.items[i]) != id ==> r.items[i] == state.items[i])
    ensures !IsInCart(state.items, id) ==> r == state
  {
    if q <= 0 then Remove(state, id)
    else
      ResetLines(state.items, id, q);
      CartState(Reset(state.items, id, q))
  }

  /** `cartReducer`. */
  function Reduce(state: CartState, action: Action): (r: CartState)
    ensures action.ClearCart? ==> r.items == []
    ensures action.LoadCart? ==> r.items == (if action.payload.Some? then action.payload.value else [])
    ensures action.OtherAction? ==> r == state
    ensures action.AddItem? ==> IsInCart(r.items, action.product.id)
    ensures action.RemoveItem? ==> !IsInCart(r.items, action.id)
    ensures action.UpdateQuantity? && action.quantity <= 0 ==> !IsInCart(r.items, action.lineId)
    ensures action.UpdateQuantity? && action.quantity > 0 ==> |r.items| == |state.items|
  {
    match action
    case AddItem(product, amount) => Add(state, product, amount)
    case RemoveItem(id) => Remove(state, id)
    case UpdateQuantity(id, q) => Update(state, id, q)
    case ClearCart => CartState([])
    case LoadCart(payload) => CartState(if payload.Some? then payload.value else [])
    case OtherAction(_) => state
  }

  // ---------------------------------------------------------------------------
  // Invariants under the reducer

  lemma WithoutPositive(items: seq<LineItem>, id: string)
    requires PositiveQuantities(items)
    ensures PositiveQuantities(Without(items, id))
  {
    var r := Without(items, id);
    FilterMembers(KeepsOtherIds(id), items);
    forall i | 0 <= i < |r| ensures r[i].quantity >= 1 {
      var k :| 0 <= k < |items| && items[k] == r[i];
    }
  }

  lemma UniqueTail(items: seq<LineItem>)
    requires items != [] && UniqueIds(items)
    ensures UniqueIds(items[1..])
    ensures forall k :: 0 <= k < |items[1..]| ==> Id(items[1..][k]) != Id(items[0])
  {
    var rest := items[1..];
    forall i, j | 0 <= i < j < |rest| ensures Id(rest[i]) != Id(rest[j]) {
      assert rest[i] == items[i + 1] && rest[j] == items[j + 1];
    }
    forall k | 0 <= k < |rest| ensures Id(rest[k]) != Id(items[0]) {
      assert rest[k] == items[k + 1];
    }
  }

  lemma UniqueCons(x: LineItem, tail: seq<LineItem>)
    requires UniqueIds(tail)
    requires forall k :: 0 <= k < |tail| ==> Id(tail[k]) != Id(x)
    ensures UniqueIds([x] + tail)
  {
    var s := [x] + tail;
    forall i, j | 0 <= i < j < |s| ensures Id(s[i]) != Id(s[j]) {
      assert s[j] == tail[j - 1];
      if i > 0 {
        assert s[i] == tail[i - 1];
      }
    }
  }

  lemma {:induction false} WithoutUnique(items: seq<LineItem>, id: string)
    requires UniqueIds(items)
    ensures UniqueIds(Without(items, id))
    decreases |items|
  {
    if items != [] {
      var x, rest := items[0], items[1..];
      UniqueTail(items);
      WithoutUnique(rest, id);
      assert items == [x] + rest;
      FilterCons(KeepsOtherIds(id), x, rest);
      var tail := Without(rest, id);
      if Id(x) != id {
        FilterMembers(KeepsOtherIds(id), rest);
        forall j | 0 <= j < |tail| ensures Id(tail[j]) != Id(x) {
          var k :| 0 <= k < |rest| && rest[k] == tail[j];
        }
        UniqueCons(x, tail);
      }
    }
  }

  lemma WithoutValid(items: seq<LineItem>, id: string)
    requires UniqueIds(items) && PositiveQuantities(items)
    ensures UniqueIds(Without(items, id)) && PositiveQuantities(Without(items, id))
  {
    WithoutUnique(items, id);
    WithoutPositive(items, id);
  }

  lemma {:induction false} BumpValid(items: seq<LineItem>, id: string, delta: int)
    requires UniqueIds(items) && PositiveQuantities(items)
    requires delta >= 1
    ensures UniqueIds(Bump(items, id, delta)) && PositiveQuantities(Bump(items, id, delta))
  {
    BumpLines(items, id, delta);
  }

  lemma {:induction false} ResetValid(items: seq<LineItem>, id: string, q: int)
    requires UniqueIds(items) && PositiveQuantities(items)
    requires q >= 1
    ensures UniqueIds(Reset(items, id, q)) && PositiveQuantities(Reset(items, id, q))
  {
    ResetLines(items, id, q);
  }

  /** Unique ids and positive quantities survive every action except a load,
      and an add whose amount is below 1. */
  lemma ReducePreservesValid(state: CartState, action: Action)
    requires Valid(state)
    requires !action.LoadCart?
    requires action.AddItem? ==> AmountOf(action.amount) >= 1
    ensures Valid(Reduce(state, action))
  {
    match action
    case AddItem(product, amount) =>
      if IsInCart(state.items, product.id) {
        BumpValid(state.items, product.id, AmountOf(amount));
      }
    case RemoveItem(id) =>
      WithoutValid(state.items, id);
    case UpdateQuantity(id, q) =>
      if q <= 0 {
        WithoutValid(state.items, id);
      } else {
        ResetValid(state.items, id, q);
      }
    case ClearCart =>
    case LoadCart(_) =>
    case OtherAction(_) =>
  }

  /** A load installs whatever lines it carries, so it can break the invariants. */
  lemma LoadDoesNotRevalidate(product: Product)
    ensures exists s :: Valid(s) && !Valid(Reduce(s, LoadCart(Some([LineItem(product, 0)]))))
  {
    var bad := Reduce(InitialState, LoadCart(Some([LineItem(product, 0)])));
    assert bad.items[0].quantity == 0;
    assert Valid(InitialState) && !Valid(bad);
  }

  /** An add of zero appends a zero-quantity line to a cart without the product. */
  lemma AddZeroDoesNotRevalidate(product: Product)
    ensures exists s :: Valid(s) && !Valid(Reduce(s, AddItem(product, Some(0))))
  {
    var bad := Reduce(InitialState, AddItem(product, Some(0)));
    assert bad.items[0].quantity == 0;
    assert Valid(InitialState) && !Valid(bad);
  }

  // ---------------------------------------------------------------------------
  // The item count under the reducer

  lemma {:induction false} BumpCount(items: seq<LineItem>, id: string, delta: int)
    requires UniqueIds(items)
    ensures ItemCount(Bump(items, id, delta)) == ItemCount(items) + (if IsInCart(items, id) then delta else 0)
    decreases |items|
  {
    if items != [] {
      var rest := items[1..];
      UniqueTail(items);
      BumpCount(rest, id, delta);
      var r := Bump(items, id, delta);
      assert r[1..] == Bump(rest, id, delta);
      if Id(items[0]) == id {
      }
    }
  }

  lemma {:induction false} ResetCount(items: seq<LineItem>, id: string, q: int)
    requires UniqueIds(items)
    ensures ItemCount(Reset(items, id, q))
            == ItemCount(items) + (if IsInCart(items, id) then q - GetItemQuantity(items, id) else 0)
    decreases |items|
  {
    if items != [] {
      var rest := items[1..];
      UniqueTail(items);
      ResetCount(rest, id, q);
      var r := Reset(items, id, q);
      assert r[1..] == Reset(rest, id, q);
      if Id(items[0]) == id {
        assert GetCartItem(items, id) == Some(items[0]);
      } else {
        assert GetCartItem(items, id) == GetCartItem(rest, id);
      }
    }
  }

  lemma {:induction false} WithoutCount(items: seq<LineItem>, id: string)
    requires UniqueIds(items)
    ensures ItemCount(Without(items, id)) == ItemCount(items) - GetItemQuantity(items, id)
    decreases |items|
  {
    if items != [] {
      var rest := items[1..];
      UniqueTail(items);
      WithoutCount(rest, id);
      FilterCons(KeepsOtherIds(id), items[0], rest);
      assert items == [items[0]] + rest;
      var tail := Without(rest, id);
      if Id(items[0]) == id {
        assert GetCartItem(items, id) == Some(items[0]);
        assert Without(items, id) == tail;
      } else {
        assert GetCartItem(items, id) == GetCartItem(rest, id);
        assert Without(items, id) == [items[0]] + tail;
        assert ([items[0]] + tail)[1..] == tail;
      }
    }
  }

  /** Adding `q` of a product raises the item count by `q`, whether the line is new or merged. */
  lemma AddItemCount(state: CartState, product: Product, amount: Option<int>)
    requires UniqueIds(state.items)
    ensures ItemCount(Reduce(state, AddItem(product, amount)).items) == ItemCount(state.items) + AmountOf(amount)
  {
    if IsInCart(state.items, product.id) {
      BumpCount(state.items, product.id, AmountOf(amount));
    } else {
      ItemCountAppend(state.items, [LineItem(product, AmountOf(amount))]);
    }
  }

  /** Removing an id lowers the item count by that id's quantity. */
  lemma RemoveItemCount(state: CartState, id: string)
    requires UniqueIds(state.items)
    ensures ItemCount(Reduce(state, RemoveItem(id)).items) == ItemCount(state.items) - GetItemQuantity(state.items, id)
  {
    WithoutCount(state.items, id);
  }

  /** Setting a line's quantity moves the item count from the old quantity to the new one,
      and a non-positive quantity removes the line's whole quantity. */
  lemma UpdateItemCount(state: CartState, id: string, q: int)
    requires UniqueIds(state.items)
    ensures ItemCount(Reduce(state, UpdateQuantity(id, q)).items)
            == ItemCount(state.items) - GetItemQuantity(state.items, id)
               + (if q > 0 && IsInCart(state.items, id) then q else 0)
  {
    if q <= 0 {
      WithoutCount(state.items, id);
    } else {
      ResetCount(state.items, id, q);
    }
  }

  // ---------------------------------------------------------------------------
  // Persistence

  /** What the store holds under the cart's key: nothing, text that does not
      parse, or a parsed object whose `items` may be missing. */
  datatype Stored = Missing | Unreadable | Saved(items: Option<seq<LineItem>>)

  /** The state after mounting: a parsed saved cart is loaded; otherwise the cart stays empty. */
  function Hydrate(stored: Stored): (r: CartState)
    ensures stored.Missing? || stored.Unreadable? ==> r == InitialState
    ensures stored.Saved? ==> r == Reduce(InitialState, LoadCart(stored.items))
    ensures r.items == (if stored.Saved? && stored.items.Some? then stored.items.value else [])
  {
    match stored
    case Saved(items) => Reduce(InitialState, LoadCart(items))
    case _ => InitialState
  }

  /** Every state change is written back as `{items}`; hydrating it gives the state back. */
  function Save(state: CartState): (r: Stored)
    ensures Hydrate(r) == state
  {
    Saved(Some(state.items))
  }
}
