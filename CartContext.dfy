/** The cart state container (src/context/CartContext.tsx): the cart lines
    and cart id the storefront shows, and the local updates it applies after
    each cart request. Requests are not made here: each method receives the
    server's reply as a parameter and returns the request it would have sent. */
module CartContext {
  import opened Types
  import opened Sequences

  /** The requests the container sends to the cart endpoints. */
  datatype CartRequest =
    | FetchCart
    | AddItem(productId: string, quantity: int)
    | RemoveItem(itemId: int)
    | UpdateItem(userId: string, itemId: int, quantity: int)
    | ClearAll

  /** The reference to the server cart carried by some replies. */
  datatype CartRef = CartRef(publicId: string)

  /** The body of `GET /carts/user/cart`: `cart` when the user has one. */
  datatype CartBody = CartBody(cart: Option<ServerCart>)
  datatype ServerCart = ServerCart(items: seq<CartItem>, publicId: string)

  /** The body of `POST /carts/add`. */
  datatype AddBody = AddBody(error: bool, cartItem: Option<CartItem>, cart: Option<CartRef>)

  // ---------------------------------------------------------------------
  // Specification of the list updates

  /** `items.findIndex(item => item.id === id)`: the first index holding `id`, or -1. */
  function IndexOfId(items: seq<CartItem>, id: int): (r: int)
    ensures -1 <= r < |items|
    ensures r >= 0 ==> items[r].id == id && forall j :: 0 <= j < r ==> items[j].id != id
    ensures r == -1 ==> forall j :: 0 <= j < |items| ==> items[j].id != id
  {
    if items == [] then -1
    else if items[0].id == id then 0
    else
      var k := IndexOfId(items[1..], id);
      if k == -1 then -1 else k + 1
  }

  /** No two lines share an id. */
  ghost predicate UniqueIds(items: seq<CartItem>)
  {
    forall i, j :: 0 <= i < j < |items| ==> items[i].id != items[j].id
  }

  /** The upsert applied by `addToCart`: the line returned by the server
      replaces the first line with its id, or is appended when there is none. */
  function Upsert(items: seq<CartItem>, item: CartItem): (r: seq<CartItem>)
    ensures |r| == |items| || |r| == |items| + 1
    ensures item in r
    ensures forall x :: x in r ==> x == item || x in items
    ensures forall x :: x in items && x.id != item.id ==> x in r
  {
    var k := IndexOfId(items, item.id);
    if k >= 0 then
      var r := items[k := item];
      assert r[k] == item;
      assert forall x :: x in items && x.id != item.id ==> x in r by {
        forall x | x in items && x.id != item.id ensures x in r {
          var i :| 0 <= i < |items| && items[i] == x;
          assert r[i] == x;
        }
      }
      r
    else items + [item]
  }

  /** `items.filter(item => item.id !== id)`. */
  function RemoveId(items: seq<CartItem>, id: int): (r: seq<CartItem>)
    ensures forall x :: x in r ==> x in items && x.id != id
    ensures forall x :: x in items && x.id != id ==> x in r
  {
    if items == [] then []
    else if items[0].id != id then [items[0]] + RemoveId(items[1..], id)
    else RemoveId(items[1..], id)
  }

  /** `items.map(item => item.id === id ? { ...item, quantity } : item)`. */
  function SetQuantity(items: seq<CartItem>, id: int, quantity: int): (r: seq<CartItem>)
    ensures |r| == |items|
    ensures forall i :: 0 <= i < |items| ==>
      r[i] == if items[i].id == id then items[i].(quantity := quantity) else items[i]
  {
    if items == [] then []
    else
      var head := if items[0].id == id then items[0].(quantity := quantity) else items[0];
      [head] + SetQuantity(items[1..], id, quantity)
  }

  /** `cart.reduce((sum, item) => sum + item.quantity, 0)`, folded from the left. */
  function TotalItems(items: seq<CartItem>): (n: int)
    ensures (forall i :: 0 <= i < |items| ==> items[i].quantity >= 0) ==> n >= 0
  {
    if items == [] then 0 else TotalItems(items[..|items| - 1]) + items[|items| - 1].quantity
  }

  /** `cart.reduce((sum, item) => sum + item.product.price * item.quantity, 0)`. */
  function Subtotal(items: seq<CartItem>): (n: int)
    ensures (forall i :: 0 <= i < |items| ==> items[i].product.price >= 0 && items[i].quantity >= 0) ==> n >= 0
  {
    if items == [] then 0
    else Subtotal(items[..|items| - 1]) + items[|items| - 1].product.price * items[|items| - 1].quantity
  }

  // ---------------------------------------------------------------------
  // Properties of the list updates

  /** When a line with the returned id exists, the upsert replaces the first
      such line in place: same length, and every other line is untouched. */
  lemma UpsertReplaces(items: seq<CartItem>, item: CartItem, k: int)
    requires 0 <= k < |items| && items[k].id == item.id
    requires forall j :: 0 <= j < k ==> items[j].id != item.id
    ensures |Upsert(items, item)| == |items|
    ensures Upsert(items, item)[k] == item
    ensures forall j :: 0 <= j < |items| && j != k ==> Upsert(items, item)[j] == items[j]
  {
    assert IndexOfId(items, item.id) == k;
  }

  /** When no line has the returned id, the upsert appends the line at the end. */
  lemma UpsertAppends(items: seq<CartItem>, item: CartItem)
    requires forall j :: 0 <= j < |items| ==> items[j].id != item.id
    ensures Upsert(items, item) == items + [item]
  {
    assert IndexOfId(items, item.id) == -1;
  }

  /** Upserting never introduces a second line with the same id. */
  lemma UpsertKeepsIdsUnique(items: seq<CartItem>, item: CartItem)
    requires UniqueIds(items)
    ensures UniqueIds(Upsert(items, item))
  {
    var r := Upsert(items, item);
    var k := IndexOfId(items, item.id);
    if k >= 0 {
      forall i, j | 0 <= i < j < |r| ensures r[i].id != r[j].id {
        if i == k { assert r[j] == items[j]; }
        else if j == k { assert r[i] == items[i]; }
        else { assert r[i] == items[i] && r[j] == items[j]; }
      }
    } else {
      forall i, j | 0 <= i < j < |r| ensures r[i].id != r[j].id {
        if j == |items| { assert r[i] == items[i]; }
        else { assert r[i] == items[i] && r[j] == items[j]; }
      }
    }
  }

  /** The removal keeps the surviving lines in their original order. */
  lemma {:induction false} RemoveIdKeepsOrder(items: seq<CartItem>, id: int)
    ensures IsSubsequence(RemoveId(items, id), items)
  {
    if items != [] {
      RemoveIdKeepsOrder(items[1..], id);
      var rest := RemoveId(items[1..], id);
      if items[0].id != id {
        assert ([items[0]] + rest)[1..] == rest;
      }
    }
  }

  /** Removal drops exactly the lines with the id: every other line survives
      as often as it occurred. */
  lemma {:induction false} RemoveIdCounts(items: seq<CartItem>, id: int, x: CartItem)
    ensures multiset(RemoveId(items, id))[x] == if x.id == id then 0 else multiset(items)[x]
  {
    if items != [] {
      RemoveIdCounts(items[1..], id, x);
      assert items == [items[0]] + items[1..];
    }
  }

  /** The item count of a concatenation is the sum of the parts' counts. */
  lemma {:induction false} TotalItemsAppend(a: seq<CartItem>, b: seq<CartItem>)
    ensures TotalItems(a + b) == TotalItems(a) + TotalItems(b)
    decreases |b|
  {
    if b == [] {
      assert a + b == a;
    } else {
      var b' := b[..|b| - 1];
      assert (a + b)[..|a + b| - 1] == a + b';
      TotalItemsAppend(a, b');
    }
  }

  /** The subtotal of a concatenation is the sum of the parts' subtotals. */
  lemma {:induction false} SubtotalAppend(a: seq<CartItem>, b: seq<CartItem>)
    ensures Subtotal(a + b) == Subtotal(a) + Subtotal(b)
    decreases |b|
  {
    if b == [] {
      assert a + b == a;
    } else {
      var b' := b[..|b| - 1];
      assert (a + b)[..|a + b| - 1] == a + b';
      SubtotalAppend(a, b');
    }
  }

  /** Replacing line `k` changes the item count by the difference in quantity. */
  lemma TotalItemsReplace(items: seq<CartItem>, k: int, item: CartItem)
    requires 0 <= k < |items|
    ensures TotalItems(items[k := item]) == TotalItems(items) - items[k].quantity + item.quantity
  {
    assert items == items[..k] + [items[k]] + items[k + 1..];
    assert items[k := item] == items[..k] + [item] + items[k + 1..];
    TotalItemsAppend(items[..k] + [items[k]], items[k + 1..]);
    TotalItemsAppend(items[..k] + [item], items[k + 1..]);
    TotalItemsAppend(items[..k], [items[k]]);
    TotalItemsAppend(items[..k], [item]);
  }

  /** After an upsert, the item count has gained the returned line's quantity
      and lost the quantity of the line it replaced, if any. */
  lemma TotalItemsAfterUpsert(items: seq<CartItem>, item: CartItem)
    ensures var k := IndexOfId(items, item.id);
      TotalItems(Upsert(items, item))
        == TotalItems(items) - (if k >= 0 then items[k].quantity else 0) + item.quantity
  {
    var k := IndexOfId(items, item.id);
    if k >= 0 {
      TotalItemsReplace(items, k, item);
    } else {
      TotalItemsAppend(items, [item]);
    }
  }

  /** With unique ids, setting the quantity of the line at `k` changes the
      item count by exactly that line's change. */
  lemma TotalItemsAfterSetQuantity(items: seq<CartItem>, k: int, quantity: int)
    requires UniqueIds(items) && 0 <= k < |items|
    ensures TotalItems(SetQuantity(items, items[k].id, quantity))
         == TotalItems(items) - items[k].quantity + quantity
  {
    var r := SetQuantity(items, items[k].id, quantity);
    assert r == items[k := items[k].(quantity := quantity)];
    TotalItemsReplace(items, k, items[k].(quantity := quantity));
  }

  /** Setting a quantity keeps every line's id, so unique ids stay unique. */
  lemma SetQuantityKeepsIds(items: seq<CartItem>, id: int, quantity: int)
    ensures forall i :: 0 <= i < |items| ==> SetQuantity(items, id, quantity)[i].id == items[i].id
    ensures UniqueIds(items) ==> UniqueIds(SetQuantity(items, id, quantity))
  {
  }

  // ---------------------------------------------------------------------
  // The container

  class CartStore {
    var cart: seq<CartItem>
    var cartId: Option<string>

    constructor ()
      ensures cart == [] && cartId == None
    {
      cart := [];
      cartId := None;
    }

    /** `findIndex` over the held cart, as the upsert performs it. */
    method FindLine(id: int) returns (index: int)
      ensures index == IndexOfId(cart, id)
      ensures index >= 0 ==> cart[index].id == id
    {
      index := 0;
      while index < |cart|
        invariant 0 <= index <= |cart|
        invariant forall j :: 0 <= j < index ==> cart[j].id != id
      {
        if cart[index].id == id {
          return;
        }
        index := index + 1;
      }
      index := -1;
    }

    /** `getUserCart`: clears the cart without a user; otherwise fetches it and
        replaces both fields when the reply carries a cart. A rejected fetch
        leaves both fields as they were. */
    method GetUserCart(user: Option<User>, reply: Response<CartBody>) returns (request: Option<CartRequest>)
      modifies this
      ensures user.None? ==> request == None && cart == [] && cartId == None
      ensures user.Some? ==> request == Some(FetchCart)
      ensures user.Some? && reply.Ok? && reply.body.cart.Some? ==>
        cart == reply.body.cart.value.items && cartId == Some(reply.body.cart.value.publicId)
      ensures user.Some? && !(reply.Ok? && reply.body.cart.Some?) ==>
        cart == old(cart) && cartId == old(cartId)
    {
      if user.None? {
        cart := [];
        cartId := None;
        return None;
      }
      request := Some(FetchCart);
      if reply.Ok? && reply.body.cart.Some? {
        cart := reply.body.cart.value.items;
        cartId := Some(reply.body.cart.value.publicId);
      }
    }

    /** `addToCart`: upserts the line the server returns. A reply with `error`
        set, without `cart_item`, or a rejected request changes nothing; so
        does a reply whose line names a cart (`cart_id` truthy) but that
        carries no `cart`, since reading its `public_id` throws. */
    method AddToCart(user: Option<User>, product: Product, quantity: int, reply: Response<AddBody>)
      returns (request: Option<CartRequest>)
      modifies this
      ensures user.None? ==> request == None
      ensures user.Some? ==> request == Some(AddItem(product.id, quantity))
      ensures
        var applies := user.Some? && reply.Ok? && !reply.body.error && reply.body.cartItem.Some?
          && !(NamesCart(reply.body.cartItem.value) && reply.body.cart.None?);
        if applies then
          cart == Upsert(old(cart), reply.body.cartItem.value)
          && cartId == (if NamesCart(reply.body.cartItem.value)
                        then Some(reply.body.cart.value.publicId) else old(cartId))
        else
          cart == old(cart) && cartId == old(cartId)
    {
      if user.None? {
        return None;
      }
      request := Some(AddItem(product.id, quantity));
      if reply.Threw? {
        return;
      }
      var body := reply.body;
      if !body.error && body.cartItem.Some? {
        var item := body.cartItem.value;
        if NamesCart(item) {
          if body.cart.None? {
            return;
          }
          cartId := Some(body.cart.value.publicId);
        }
        var k := FindLine(item.id);
        if k >= 0 {
          cart := cart[k := item];
        } else {
          cart := cart + [item];
        }
      }
    }

    /** `removeFromCart`: after the server accepts the removal, drops the lines
        with that id. Without a user, or when the request is rejected, the
        cart is unchanged. */
    method RemoveFromCart(user: Option<User>, itemId: int, accepted: bool) returns (request: Option<CartRequest>)
      modifies this`cart
      ensures user.None? ==> request == None
      ensures user.Some? ==> request == Some(RemoveItem(itemId))
      ensures cart == if user.Some? && accepted then RemoveId(old(cart), itemId) else old(cart)
    {
      if user.None? {
        return None;
      }
      request := Some(RemoveItem(itemId));
      if accepted {
        cart := RemoveId(cart, itemId);
      }
    }

    /** `updateQuantity`: after the server accepts the update, sets the quantity
        of the lines with that id. */
    method UpdateQuantity(user: Option<User>, itemId: int, quantity: int, accepted: bool)
      returns (request: Option<CartRequest>)
      modifies this`cart
      ensures user.None? ==> request == None
      ensures user.Some? ==> request == Some(UpdateItem(user.value.publicId, itemId, quantity))
      ensures cart == if user.Some? && accepted then SetQuantity(old(cart), itemId, quantity) else old(cart)
    {
      if user.None? {
        return None;
      }
      request := Some(UpdateItem(user.value.publicId, itemId, quantity));
      if accepted {
        cart := SetQuantity(cart, itemId, quantity);
      }
    }

    /** `clearCart`: no user check; empties the cart once the server accepts. */
    method ClearCart(accepted: bool) returns (request: CartRequest)
      modifies this
      ensures request == ClearAll
      ensures accepted ==> cart == [] && cartId == None
      ensures !accepted ==> cart == old(cart) && cartId == old(cartId)
    {
      request := ClearAll;
      if accepted {
        cartId := None;
        cart := [];
      }
    }

    function ItemCount(): (n: int)
      reads this
      ensures cart == [] ==> n == 0
    {
      TotalItems(cart)
    }

    function CartSubtotal(): (n: int)
      reads this
      ensures cart == [] ==> n == 0
    {
      Subtotal(cart)
    }
  }

  /** `response.cart_item.cart_id` is truthy: present and non-zero. */
  predicate NamesCart(item: CartItem)
  {
    item.cartId.Some? && item.cartId.value != 0
  }
}
