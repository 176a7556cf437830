/**
 * The cart as a value: its items, the merge-by-name add, the positional
 * remove, and the two ways the page adds up the total (a reduce in loadCart,
 * an accumulating forEach in loadProductSummary). Prices are whole paise, so
 * every sum is exact.
 */
module Carts {
  import opened Options
  import opened Strings

  /** One cart entry. `price` is in paise; `qty` counts how many were added. */
  datatype CartItem = CartItem(name: string, price: nat, images: seq<string>, qty: nat)

  predicate HasName(cart: seq<CartItem>, name: string) {
    exists k :: 0 <= k < |cart| && cart[k].name == name
  }

  /** At most one entry per name. */
  predicate UniqueNames(cart: seq<CartItem>) {
    forall i, j :: 0 <= i < j < |cart| ==> cart[i].name != cart[j].name
  }

  predicate PositiveQuantities(cart: seq<CartItem>) {
    forall k :: 0 <= k < |cart| ==> cart[k].qty >= 1
  }

  /** The invariant the add and remove operations keep. */
  predicate ValidCart(cart: seq<CartItem>) {
    UniqueNames(cart) && PositiveQuantities(cart)
  }

  // ---------------------------------------------------------------------
  // Adding and removing
  // ---------------------------------------------------------------------

  /** Array.prototype.find on the name: the first entry with that name. */
  function FindByName(cart: seq<CartItem>, name: string): (r: Option<nat>)
    ensures r.None? <==> !HasName(cart, name)
    ensures r.Some? ==>
      r.value < |cart| && cart[r.value].name == name
      && forall k :: 0 <= k < r.value ==> cart[k].name != name
  {
    if cart == [] then None
    else if cart[0].name == name then Some(0)
    else match FindByName(cart[1..], name)
      case None => None
      case Some(i) => Some(i + 1)
  }

  /** addToCart on the loaded cart: the first entry with the name gets one
      more, otherwise a new entry with quantity 1 goes at the end. The price
      and images passed in are ignored when the name is already there. */
  function AddItem(cart: seq<CartItem>, name: string, price: nat, images: seq<string>): (r: seq<CartItem>)
    ensures HasName(r, name)
    ensures match FindByName(cart, name)
      case Some(i) =>
        |r| == |cart| && r[i] == cart[i].(qty := cart[i].qty + 1)
        && forall k :: 0 <= k < |r| && k != i ==> r[k] == cart[k]
      case None =>
        |r| == |cart| + 1 && r[..|cart|] == cart && r[|cart|] == CartItem(name, price, images, 1)
  {
    match FindByName(cart, name)
    case Some(i) =>
      var r := cart[i := cart[i].(qty := cart[i].qty + 1)];
      assert r[i].name == name;
      r
    case None =>
      var r := cart + [CartItem(name, price, images, 1)];
      assert r[|cart|].name == name;
      r
  }

  /** Array.prototype.splice(index, 1): entry i goes, the others keep their order. */
  function RemoveAt(cart: seq<CartItem>, i: nat): (r: seq<CartItem>)
    requires i < |cart|
    ensures |r| == |cart| - 1
    ensures forall k :: 0 <= k < i ==> r[k] == cart[k]
    ensures forall k :: i <= k < |r| ==> r[k] == cart[k + 1]
  {
    cart[..i] + cart[i + 1..]
  }

  lemma AddItemKeepsValid(cart: seq<CartItem>, name: string, price: nat, images: seq<string>)
    requires ValidCart(cart)
    ensures ValidCart(AddItem(cart, name, price, images))
  {
    var r := AddItem(cart, name, price, images);
    match FindByName(cart, name)
    case Some(i) =>
      forall a, b | 0 <= a < b < |r| ensures r[a].name != r[b].name {
        assert r[a].name == cart[a].name && r[b].name == cart[b].name;
      }
    case None =>
      forall a, b | 0 <= a < b < |r| ensures r[a].name != r[b].name {
        if b == |cart| {
          assert r[a] == cart[a];
        } else {
          assert r[a] == cart[a] && r[b] == cart[b];
        }
      }
  }

  lemma RemoveAtKeepsValid(cart: seq<CartItem>, i: nat)
    requires i < |cart| && ValidCart(cart)
    ensures ValidCart(RemoveAt(cart, i))
  {
    var r := RemoveAt(cart, i);
    forall a, b | 0 <= a < b < |r| ensures r[a].name != r[b].name {
      var a' := if a < i then a else a + 1;
      var b' := if b < i then b else b + 1;
      assert r[a] == cart[a'] && r[b] == cart[b'] && a' < b';
    }
    forall k | 0 <= k < |r| ensures r[k].qty >= 1 {
      assert r[k] == cart[if k < i then k else k + 1];
    }
  }

  /** Adding a name that is not in the cart twice gives one entry with
      quantity 2, not two entries. */
  lemma AddTwiceMerges(cart: seq<CartItem>, name: string, price: nat, images: seq<string>, price': nat, images': seq<string>)
    requires !HasName(cart, name)
    ensures AddItem(AddItem(cart, name, price, images), name, price', images')
      == cart + [CartItem(name, price, images, 2)]
  {
    var once := AddItem(cart, name, price, images);
    assert once == cart + [CartItem(name, price, images, 1)];
    assert FindByName(once, name) == Some(|cart|) by {
      assert forall k :: 0 <= k < |cart| ==> once[k] == cart[k];
    }
  }

  // ---------------------------------------------------------------------
  // Sums over the cart
  // ---------------------------------------------------------------------

  /** The sum of f over the entries, first to last. */
  function SumBy(cart: seq<CartItem>, f: CartItem -> nat): (r: nat) {
    if cart == [] then 0 else f(cart[0]) + SumBy(cart[1..], f)
  }

  lemma {:induction false} SumByConcat(a: seq<CartItem>, b: seq<CartItem>, f: CartItem -> nat)
    ensures SumBy(a + b, f) == SumBy(a, f) + SumBy(b, f)
  {
    if a == [] {
      assert a + b == b;
    } else {
      assert (a + b)[0] == a[0] && (a + b)[1..] == a[1..] + b;
      SumByConcat(a[1..], b, f);
    }
  }

  lemma SumBySingle(x: CartItem, f: CartItem -> nat)
    ensures SumBy([x], f) == f(x)
  {
    assert [x][1..] == [];
  }

  /** A sequence split around entry i. */
  lemma SplitAround(cart: seq<CartItem>, i: nat)
    requires i < |cart|
    ensures cart == cart[..i] + ([cart[i]] + cart[i + 1..])
  {
  }

  lemma SumByUpdate(cart: seq<CartItem>, i: nat, x: CartItem, f: CartItem -> nat)
    requires i < |cart|
    ensures SumBy(cart[i := x], f) + f(cart[i]) == SumBy(cart, f) + f(x)
  {
    var pre, post := cart[..i], cart[i + 1..];
    SplitAround(cart, i);
    SplitAround(cart[i := x], i);
    assert cart[i := x][..i] == pre && cart[i := x][i + 1..] == post;
    SumByConcat(pre, [cart[i]] + post, f);
    SumByConcat(pre, [x] + post, f);
    SumByConcat([cart[i]], post, f);
    SumByConcat([x], post, f);
    SumBySingle(cart[i], f);
    SumBySingle(x, f);
  }

  lemma SumByRemove(cart: seq<CartItem>, i: nat, f: CartItem -> nat)
    requires i < |cart|
    ensures SumBy(RemoveAt(cart, i), f) + f(cart[i]) == SumBy(cart, f)
  {
    var pre, post := cart[..i], cart[i + 1..];
    SplitAround(cart, i);
    assert RemoveAt(cart, i) == pre + post;
    SumByConcat(pre, [cart[i]] + post, f);
    SumByConcat([cart[i]], post, f);
    SumByConcat(pre, post, f);
    SumBySingle(cart[i], f);
  }

  /** The line amount, price times quantity. */
  function Subtotal(item: CartItem): (r: nat) {
    item.price * item.qty
  }

  /** One more unit adds the unit price to the line amount. */
  lemma SubtotalOneMore(item: CartItem)
    ensures Subtotal(item.(qty := item.qty + 1)) == Subtotal(item) + item.price
  {
    assert item.price * (item.qty + 1) == item.price * item.qty + item.price;
  }

  /** The cart total: the sum of price times quantity over every entry. */
  function Total(cart: seq<CartItem>): (r: nat) {
    SumBy(cart, Subtotal)
  }

  /** How many units of `name` the cart holds, wherever they sit. */
  function NameQty(name: string): (r: CartItem -> nat) {
    (item: CartItem) => if item.name == name then item.qty else 0
  }

  function QtyOf(cart: seq<CartItem>, name: string): (r: nat) {
    SumBy(cart, NameQty(name))
  }

  /** Adding one unit of `name` adds exactly one to its count and leaves
      every other name's count alone. */
  lemma AddItemQty(cart: seq<CartItem>, name: string, price: nat, images: seq<string>, other: string)
    ensures QtyOf(AddItem(cart, name, price, images), other)
      == QtyOf(cart, other) + (if other == name then 1 else 0)
  {
    var r := AddItem(cart, name, price, images);
    match FindByName(cart, name)
    case Some(i) =>
      assert r == cart[i := cart[i].(qty := cart[i].qty + 1)];
      SumByUpdate(cart, i, r[i], NameQty(other));
    case None =>
      assert r == cart + [CartItem(name, price, images, 1)];
      SumByConcat(cart, [CartItem(name, price, images, 1)], NameQty(other));
      SumBySingle(CartItem(name, price, images, 1), NameQty(other));
  }

  /** Adding one unit raises the total by that entry's unit price: the stored
      price when the name was there, the given price otherwise. */
  lemma AddItemTotal(cart: seq<CartItem>, name: string, price: nat, images: seq<string>)
    ensures Total(AddItem(cart, name, price, images))
      == Total(cart) + match FindByName(cart, name) case Some(i) => cart[i].price case None => price
  {
    var r := AddItem(cart, name, price, images);
    match FindByName(cart, name)
    case Some(i) =>
      var item := cart[i].(qty := cart[i].qty + 1);
      assert r == cart[i := item];
      SumByUpdate(cart, i, item, Subtotal);
      SubtotalOneMore(cart[i]);
      assert Total(r) + Subtotal(cart[i]) == Total(cart) + Subtotal(cart[i]) + cart[i].price;
    case None =>
      assert r == cart + [CartItem(name, price, images, 1)];
      SumByConcat(cart, [CartItem(name, price, images, 1)], Subtotal);
      SumBySingle(CartItem(name, price, images, 1), Subtotal);
      assert Total(r) == Total(cart) + price;
  }

  /** Removing entry i takes exactly its line amount off the total and its
      quantity off its name's count. */
  lemma RemoveAtTotalAndQty(cart: seq<CartItem>, i: nat, other: string)
    requires i < |cart|
    ensures Total(RemoveAt(cart, i)) == Total(cart) - Subtotal(cart[i])
    ensures QtyOf(RemoveAt(cart, i), other)
      == QtyOf(cart, other) - (if cart[i].name == other then cart[i].qty else 0)
  {
    SumByRemove(cart, i, Subtotal);
    SumByRemove(cart, i, NameQty(other));
  }

  // ---------------------------------------------------------------------
  // The two total computations of the page
  // ---------------------------------------------------------------------

  /** cart.reduce((sum, item) => sum + item.price * item.qty, acc). */
  function ReduceTotal(cart: seq<CartItem>, acc: nat): (r: nat) {
    if cart == [] then acc else ReduceTotal(cart[1..], acc + Subtotal(cart[0]))
  }

  /** The reduce in loadCart computes the cart total. */
  lemma {:induction false} ReduceTotalIsTotal(cart: seq<CartItem>, acc: nat)
    ensures ReduceTotal(cart, acc) == acc + Total(cart)
  {
    if cart != [] {
      ReduceTotalIsTotal(cart[1..], acc + Subtotal(cart[0]));
    }
  }

  /** The forEach of loadProductSummary: totalAmount starts at 0 and each
      entry's price times quantity is added to it in turn. */
  method AccumulateTotal(cart: seq<CartItem>) returns (totalAmount: nat)
    ensures totalAmount == Total(cart)
    ensures totalAmount == ReduceTotal(cart, 0)
  {
    totalAmount := 0;
    var i := 0;
    while i < |cart|
      invariant 0 <= i <= |cart|
      invariant totalAmount == Total(cart[..i])
    {
      var itemTotal := cart[i].price * cart[i].qty;
      assert cart[..i + 1] == cart[..i] + [cart[i]];
      SumByConcat(cart[..i], [cart[i]], Subtotal);
      totalAmount := totalAmount + itemTotal;
      i := i + 1;
    }
    assert cart[..i] == cart;
    ReduceTotalIsTotal(cart, 0);
  }

  /** What loadCart writes into the total element: nothing for an empty
      cart, otherwise "Total: ₹" and the reduce's result to two decimals. */
  function TotalLabel(cart: seq<CartItem>): (r: string) {
    if |cart| == 0 then "" else "Total: ₹" + FormatAmount(ReduceTotal(cart, 0))
  }

  /** The label is empty exactly for the empty cart, and otherwise shows the
      cart total. */
  lemma TotalLabelShowsTotal(cart: seq<CartItem>)
    ensures TotalLabel(cart) == "" <==> cart == []
    ensures cart != [] ==> TotalLabel(cart) == "Total: ₹" + FormatAmount(Total(cart))
  {
    ReduceTotalIsTotal(cart, 0);
    if cart != [] {
      var amount := ReduceTotal(cart, 0);
      assert amount == Total(cart);
      assert TotalLabel(cart) == "Total: ₹" + FormatAmount(amount);
      assert |TotalLabel(cart)| > 0;
    }
  }
}
