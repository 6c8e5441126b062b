/**
 * The client-side cart: `addToCart` (frontend/src/components/Home.jsx) and
 * `updateQuantity`, `removeItem`, `calculateTotal`
 * (frontend/src/components/Cart.jsx). A cart entry is the product as the
 * catalog sent it, `_id` included, plus a quantity. Prices are integer cents.
 */
module Cart {
  import opened Common
  import opened Catalog

  datatype CartItem = CartItem(id: ProductId, name: string, price: int, imageUrl: string, quantity: int)

  /** `calculateTotal`: price times quantity, summed; 0 for an empty cart. */
  function CartTotal(cart: seq<CartItem>): int {
    if |cart| == 0 then 0 else cart[0].price * cart[0].quantity + CartTotal(cart[1..])
  }

  /** The `reduce` itself: a left fold that adds each entry's amount to the running total. */
  function ReduceTotal(acc: int, cart: seq<CartItem>): int
    decreases |cart|
  {
    if |cart| == 0 then acc else ReduceTotal(acc + cart[0].price * cart[0].quantity, cart[1..])
  }

  /** Folding from any running total adds exactly the cart's total; from 0 it is `calculateTotal`. */
  lemma {:induction false} CartTotalIsReduce(acc: int, cart: seq<CartItem>)
    ensures ReduceTotal(acc, cart) == acc + CartTotal(cart)
    decreases |cart|
  {
    if |cart| > 0 {
      CartTotalIsReduce(acc + cart[0].price * cart[0].quantity, cart[1..]);
    }
  }

  /** The total of a concatenation is the sum of the totals. */
  lemma {:induction false} CartTotalAppend(a: seq<CartItem>, b: seq<CartItem>)
    ensures CartTotal(a + b) == CartTotal(a) + CartTotal(b)
  {
    if |a| == 0 {
      assert a + b == b;
    } else {
      assert (a + b)[0] == a[0] && (a + b)[1..] == a[1..] + b;
      CartTotalAppend(a[1..], b);
    }
  }

  /** Replacing one entry changes the total by exactly that entry's difference. */
  lemma CartTotalUpdate(cart: seq<CartItem>, i: nat, x: CartItem)
    requires i < |cart|
    ensures CartTotal(cart[i := x]) == CartTotal(cart) - cart[i].price * cart[i].quantity + x.price * x.quantity
  {
    assert cart == cart[..i] + [cart[i]] + cart[i + 1..];
    assert cart[i := x] == cart[..i] + [x] + cart[i + 1..];
    CartTotalAppend(cart[..i] + [cart[i]], cart[i + 1..]);
    CartTotalAppend(cart[..i], [cart[i]]);
    CartTotalAppend(cart[..i] + [x], cart[i + 1..]);
    CartTotalAppend(cart[..i], [x]);
  }

  /** No two entries share an `_id`. */
  predicate UniqueIds(cart: seq<CartItem>) {
    forall i, j :: 0 <= i < j < |cart| ==> cart[i].id != cart[j].id
  }

  /** `findIndex`: the first entry with the given `_id`, if any. */
  function FindIndex(cart: seq<CartItem>, id: ProductId): (r: Option<nat>)
    ensures r.Some? ==> r.value < |cart| && cart[r.value].id == id
                        && forall j :: 0 <= j < r.value ==> cart[j].id != id
    ensures r.None? <==> forall j :: 0 <= j < |cart| ==> cart[j].id != id
  {
    if |cart| == 0 then None
    else if cart[0].id == id then Some(0)
    else
      match FindIndex(cart[1..], id)
      case None => None
      case Some(i) => Some(i + 1)
  }

  /** The entry `addToCart` appends for a product not yet in the cart. */
  function NewEntry(id: ProductId, p: Product): CartItem {
    CartItem(id, p.name, p.price, p.imageUrl, 1)
  }

  /** `addToCart`: bump the first entry with the product's `_id`, or append the product with quantity 1. */
  function AddToCart(cart: seq<CartItem>, id: ProductId, p: Product): (r: seq<CartItem>)
    ensures FindIndex(cart, id).Some? ==>
              var i := FindIndex(cart, id).value;
              && |r| == |cart|
              && r[i] == cart[i].(quantity := cart[i].quantity + 1)
              && forall j :: 0 <= j < |cart| && j != i ==> r[j] == cart[j]
    ensures FindIndex(cart, id).None? ==> r == cart + [NewEntry(id, p)]
  {
    match FindIndex(cart, id)
    case Some(i) => cart[i := cart[i].(quantity := cart[i].quantity + 1)]
    case None => cart + [NewEntry(id, p)]
  }

  /** Adding never creates a second entry for the same product. */
  lemma AddToCartKeepsIdsUnique(cart: seq<CartItem>, id: ProductId, p: Product)
    requires UniqueIds(cart)
    ensures UniqueIds(AddToCart(cart, id, p))
    ensures exists i :: 0 <= i < |AddToCart(cart, id, p)| && AddToCart(cart, id, p)[i].id == id
  {
    var r := AddToCart(cart, id, p);
    if FindIndex(cart, id).Some? {
      assert forall j :: 0 <= j < |r| ==> r[j].id == cart[j].id;
      assert r[FindIndex(cart, id).value].id == id;
    } else {
      assert r[|cart|].id == id;
    }
  }

  /** Adding raises the total by one unit price: the stored entry's price, or the product's when it is new. */
  lemma AddToCartTotal(cart: seq<CartItem>, id: ProductId, p: Product)
    ensures FindIndex(cart, id).Some? ==>
              CartTotal(AddToCart(cart, id, p)) == CartTotal(cart) + cart[FindIndex(cart, id).value].price
    ensures FindIndex(cart, id).None? ==> CartTotal(AddToCart(cart, id, p)) == CartTotal(cart) + p.price
  {
    match FindIndex(cart, id)
    case Some(i) =>
      CartTotalUpdate(cart, i, cart[i].(quantity := cart[i].quantity + 1));
    case None =>
      CartTotalAppend(cart, [NewEntry(id, p)]);
  }

  /** The quantity `updateQuantity` gives a matching entry: `Math.max(1, quantity + change)`. */
  function Adjusted(item: CartItem, change: int): (r: CartItem)
    ensures r.quantity >= 1
    ensures r.quantity == (if item.quantity + change >= 1 then item.quantity + change else 1)
    ensures r == item.(quantity := r.quantity)
  {
    item.(quantity := Max(1, item.quantity + change))
  }

  /** `updateQuantity`: every entry with the `_id` gets the adjusted quantity; the others are left alone. */
  function UpdateQuantity(cart: seq<CartItem>, id: ProductId, change: int): (r: seq<CartItem>)
    ensures |r| == |cart|
    ensures forall i :: 0 <= i < |cart| && cart[i].id == id ==>
              && r[i].quantity == (if cart[i].quantity + change >= 1 then cart[i].quantity + change else 1)
              && r[i] == cart[i].(quantity := r[i].quantity)
    ensures forall i :: 0 <= i < |cart| && cart[i].id != id ==> r[i] == cart[i]
  {
    seq(|cart|, i requires 0 <= i < |cart| => if cart[i].id == id then Adjusted(cart[i], change) else cart[i])
  }

  /** Every entry with the `_id` has quantity at least 1. */
  predicate PositiveFor(cart: seq<CartItem>, id: ProductId) {
    forall i :: 0 <= i < |cart| && cart[i].id == id ==> cart[i].quantity >= 1
  }

  /** `+` then `-` restores the cart when its quantities are already at least 1. */
  lemma IncrementThenDecrement(cart: seq<CartItem>, id: ProductId)
    requires PositiveFor(cart, id)
    ensures UpdateQuantity(UpdateQuantity(cart, id, 1), id, -1) == cart
  {
    var r := UpdateQuantity(UpdateQuantity(cart, id, 1), id, -1);
    forall i | 0 <= i < |cart|
      ensures r[i] == cart[i]
    {
    }
  }

  /** Decrementing stops at 1: from quantity 1 a `-` leaves the cart as it is. */
  lemma DecrementAtOneIsNoOp(cart: seq<CartItem>, id: ProductId)
    requires forall i :: 0 <= i < |cart| && cart[i].id == id ==> cart[i].quantity == 1
    ensures UpdateQuantity(cart, id, -1) == cart
  {
    var r := UpdateQuantity(cart, id, -1);
    forall i | 0 <= i < |cart|
      ensures r[i] == cart[i]
    {
    }
  }

  /** The sequence of `_id`s is unchanged, so uniqueness and order are kept. */
  lemma UpdateQuantityKeepsIds(cart: seq<CartItem>, id: ProductId, change: int)
    ensures forall i :: 0 <= i < |cart| ==> UpdateQuantity(cart, id, change)[i].id == cart[i].id
    ensures UniqueIds(cart) ==> UniqueIds(UpdateQuantity(cart, id, change))
  {
  }

  /** `removeItem`: keep the entries whose `_id` differs, in their order. */
  function RemoveItem(cart: seq<CartItem>, id: ProductId): (r: seq<CartItem>)
    ensures |r| <= |cart|
  {
    if |cart| == 0 then []
    else (if cart[0].id == id then [] else [cart[0]]) + RemoveItem(cart[1..], id)
  }

  /** Exactly the entries with another `_id` survive. */
  lemma {:induction false} RemoveItemMembers(cart: seq<CartItem>, id: ProductId)
    ensures forall x :: x in RemoveItem(cart, id) <==> x in cart && x.id != id
  {
    if |cart| > 0 {
      RemoveItemMembers(cart[1..], id);
      assert cart == [cart[0]] + cart[1..];
    }
  }

  /** Removal works piecewise: the kept entries of a concatenation are the kept entries of each part, in order. */
  lemma {:induction false} RemoveItemDistributes(a: seq<CartItem>, b: seq<CartItem>, id: ProductId)
    ensures RemoveItem(a + b, id) == RemoveItem(a, id) + RemoveItem(b, id)
  {
    if |a| == 0 {
      assert a + b == b;
    } else {
      assert (a + b)[0] == a[0] && (a + b)[1..] == a[1..] + b;
      RemoveItemDistributes(a[1..], b, id);
    }
  }

  /** A cart without the `_id` is returned as it is; so removing twice is removing once. */
  lemma {:induction false} RemoveAbsentIsIdentity(cart: seq<CartItem>, id: ProductId)
    requires forall i :: 0 <= i < |cart| ==> cart[i].id != id
    ensures RemoveItem(cart, id) == cart
  {
    if |cart| > 0 {
      RemoveAbsentIsIdentity(cart[1..], id);
    }
  }

  lemma RemoveItemIdempotent(cart: seq<CartItem>, id: ProductId)
    ensures RemoveItem(RemoveItem(cart, id), id) == RemoveItem(cart, id)
  {
    var r := RemoveItem(cart, id);
    RemoveItemMembers(cart, id);
    assert forall i :: 0 <= i < |r| ==> r[i].id != id by {
      forall i | 0 <= i < |r|
        ensures r[i].id != id
      {
        assert r[i] in r;
      }
    }
    RemoveAbsentIsIdentity(r, id);
  }

  /** Removing the `_id` of the one entry that carries it leaves the entries around it. */
  lemma RemoveSingleEntry(pre: seq<CartItem>, x: CartItem, post: seq<CartItem>)
    requires forall j :: 0 <= j < |pre| ==> pre[j].id != x.id
    requires forall j :: 0 <= j < |post| ==> post[j].id != x.id
    ensures RemoveItem(pre + [x] + post, x.id) == pre + post
  {
    var id := x.id;
    var left := pre + [x];
    var a := RemoveItem(left, id);
    var b := RemoveItem(post, id);
    RemoveItemDistributes(left, post, id);
    assert RemoveItem(left + post, id) == a + b;
    RemoveItemDistributes(pre, [x], id);
    RemoveSelf(x);
    RemoveAbsentIsIdentity(pre, id);
    assert a == pre;
    RemoveAbsentIsIdentity(post, id);
    assert b == post;
  }

  lemma RemoveSelf(x: CartItem)
    ensures RemoveItem([x], x.id) == []
  {
    assert [x][1..] == [];
  }

  /** With unique ids, removing an entry lowers the total by exactly that entry's amount. */
  lemma RemoveItemTotal(cart: seq<CartItem>, i: nat)
    requires UniqueIds(cart) && i < |cart|
    ensures CartTotal(RemoveItem(cart, cart[i].id)) == CartTotal(cart) - cart[i].price * cart[i].quantity
  {
    var x := cart[i];
    var pre, post := cart[..i], cart[i + 1..];
    assert cart == pre + [x] + post;
    assert forall j :: 0 <= j < |pre| ==> pre[j].id != x.id by {
      forall j | 0 <= j < |pre|
        ensures pre[j].id != x.id
      {
        assert pre[j] == cart[j];
      }
    }
    assert forall j :: 0 <= j < |post| ==> post[j].id != x.id by {
      forall j | 0 <= j < |post|
        ensures post[j].id != x.id
      {
        assert post[j] == cart[i + 1 + j];
      }
    }
    RemoveSingleEntry(pre, x, post);
    CartTotalAppend(pre + [x], post);
    CartTotalAppend(pre, [x]);
    CartTotalAppend(pre, post);
    assert CartTotal([x]) == x.price * x.quantity;
  }
}
