/**
 * The browser storage the script reads and writes: the key `cart` holding
 * the cart and the key `khozzaOrders` holding the placed orders, with the
 * cart-page operations (addToCart, removeItem, goToCheckout, loadCart,
 * loadProductSummary) and confirmOrder's storage update.
 */
module Storage {
  import opened Options
  import opened Strings
  import opened Carts
  import opened Orders

  /** What a storage key holds: nothing, non-empty text that JSON.parse
      rejects, the JSON value null, or a list. */
  datatype Slot<T> = Missing | Corrupt | Null | Saved(items: seq<T>)

  /** JSON.parse(localStorage.getItem(key) || '[]') used as a list: a missing
      key reads as the empty list; corrupt text makes the parse throw, and
      null makes the first list operation on it throw. */
  function Load<T>(slot: Slot<T>): (r: Option<seq<T>>) {
    match slot
    case Missing => Some([])
    case Corrupt => None
    case Null => None
    case Saved(items) => Some(items)
  }

  /** The parse alone, before any list operation: None when it throws,
      Some(None) for null, Some(Some(list)) for a list. */
  function Parse<T>(slot: Slot<T>): (r: Option<Option<seq<T>>>)
    ensures r.Some? && r.value.Some? <==> Load(slot).Some?
    ensures Load(slot).Some? ==> r.value.value == Load(slot).value
    ensures r == Some(None) <==> slot == Null
  {
    match slot
    case Missing => Some(Some([]))
    case Corrupt => None
    case Null => Some(None)
    case Saved(items) => Some(Some(items))
  }

  /** How loadProductSummary ends: the "Error loading cart" message (the
      cart could not be read), the "No items in cart" guidance, or the list
      with the accumulated total. */
  datatype SummaryView = SummaryFailed | NoItems | Summary(totalAmount: nat)

  /** How confirmOrder ends: the reference is refused; storage could not be
      read and nothing was written (the catch block's notice); the order is
      placed; or the order is placed from a null cart, after which reading
      the null cart's length throws and the catch block's notice follows
      the confirmation. */
  datatype ConfirmOutcome =
    | BadReference
    | StorageFailed
    | Placed(order: Order)
    | PlacedThenFailed(order: Order)
  {
    /** The order was written and the cart key removed. */
    predicate Written() {
      Placed? || PlacedThenFailed?
    }
  }

  class Store {
    var cart: Slot<CartItem>
    var orders: Slot<Order>

    /** A browser that has never stored either key. */
    constructor ()
      ensures cart == Missing && orders == Missing
    {
      cart := Missing;
      orders := Missing;
    }

    function CartItems(): (r: Option<seq<CartItem>>)
      reads this
    {
      Load(cart)
    }

    function PlacedOrders(): (r: Option<seq<Order>>)
      reads this
    {
      Load(orders)
    }

    /** addToCart: merge the item into the loaded cart and write it back.
        When the stored cart cannot be read the error notice is shown and
        nothing is written. */
    method AddToCart(name: string, price: nat, images: seq<string>) returns (added: bool)
      modifies this
      ensures added <==> old(CartItems()).Some?
      ensures added ==> cart == Saved(AddItem(old(CartItems()).value, name, price, images))
      ensures !added ==> cart == old(cart)
      ensures added && ValidCart(old(CartItems()).value) ==> ValidCart(CartItems().value)
      ensures orders == old(orders)
    {
      match Load(cart) {
        case None =>
          added := false;
        case Some(items) =>
          if ValidCart(items) {
            AddItemKeepsValid(items, name, price, images);
          }
          cart := Saved(AddItem(items, name, price, images));
          added := true;
      }
    }

    /** removeItem: delete entry `index` only when it is in bounds; any other
        index writes nothing at all. */
    method RemoveItem(index: int) returns (removed: bool)
      modifies this
      ensures removed <==> old(CartItems()).Some? && 0 <= index < |old(CartItems()).value|
      ensures removed ==> cart == Saved(RemoveAt(old(CartItems()).value, index))
      ensures !removed ==> cart == old(cart)
      ensures removed && ValidCart(old(CartItems()).value) ==> ValidCart(CartItems().value)
      ensures orders == old(orders)
    {
      removed := false;
      match Load(cart) {
        case None =>
        case Some(items) =>
          if 0 <= index < |items| {
            if ValidCart(items) {
              RemoveAtKeepsValid(items, index);
            }
            cart := Saved(RemoveAt(items, index));
            removed := true;
          }
      }
    }

    /** goToCheckout: navigate to the checkout page exactly when the stored
        cart reads as a non-empty list. */
    method GoToCheckout() returns (navigate: bool)
      ensures navigate <==> CartItems().Some? && CartItems().value != []
    {
      match Load(cart) {
        case None =>
          navigate := false;
        case Some(items) =>
          navigate := |items| > 0;
      }
    }

    /** loadCart's total element: None when the cart cannot be read, the
        empty string for an empty cart, otherwise the formatted total. */
    method LoadCart() returns (totalLabel: Option<string>)
      ensures totalLabel.None? <==> CartItems().None?
      ensures totalLabel == Some("") <==> CartItems() == Some([])
      ensures CartItems().Some? && CartItems().value != [] ==>
        totalLabel == Some("Total: ₹" + FormatAmount(Total(CartItems().value)))
    {
      match Load(cart) {
        case None =>
          totalLabel := None;
        case Some(items) =>
          TotalLabelShowsTotal(items);
          totalLabel := Some(TotalLabel(items));
      }
    }

    /** loadProductSummary: the accumulated total of a non-empty cart. */
    method LoadProductSummary() returns (view: SummaryView)
      ensures view == SummaryFailed <==> CartItems().None?
      ensures view == NoItems <==> CartItems() == Some([])
      ensures view.Summary? ==> CartItems().Some? && view.totalAmount == Total(CartItems().value)
    {
      match Load(cart) {
        case None =>
          view := SummaryFailed;
        case Some(items) =>
          if |items| > 0 {
            var totalAmount := AccumulateTotal(items);
            view := Summary(totalAmount);
          } else {
            view := NoItems;
          }
      }
    }

    /** confirmOrder's storage part. A reference that is not exactly twelve
        digits after trimming changes nothing. Otherwise the cart is parsed
        and the order record built; if the orders then read as a list, the
        order is appended and the cart key is removed. A cart holding null
        is recorded as null items, and the later `cart.length` throws. */
    method ConfirmOrder(upiInput: string, contact: Option<Contact>, amount: nat,
                        year: nat, month: nat, day: nat, draw: real)
      returns (outcome: ConfirmOutcome)
      requires 0.0 <= draw < 1.0
      modifies this
      ensures outcome == BadReference <==> !IsUpiRef(Trim(upiInput))
      ensures outcome.Placed? <==>
        IsUpiRef(Trim(upiInput)) && old(CartItems()).Some? && old(PlacedOrders()).Some?
      ensures outcome.PlacedThenFailed? <==>
        IsUpiRef(Trim(upiInput)) && old(cart) == Null && old(PlacedOrders()).Some?
      ensures outcome.Written() ==>
        old(PlacedOrders()).Some?
        && outcome.order == Order(contact, if old(cart) == Null then None else old(CartItems()),
                                  amount, GenerateOrderId(year, month, day, draw),
                                  ConfirmedStatus, Trim(upiInput))
        && orders == Saved(old(PlacedOrders()).value + [outcome.order])
        && cart == Missing && CartItems() == Some([])
      ensures !outcome.Written() ==> cart == old(cart) && orders == old(orders)
    {
      var upiRef := Trim(upiInput);
      if !IsUpiRef(upiRef) {
        return BadReference;
      }
      var parsed := Parse(cart);
      if parsed.None? {
        return StorageFailed;
      }
      var orderId := GenerateOrderId(year, month, day, draw);
      var order := Order(contact, parsed.value, amount, orderId, ConfirmedStatus, upiRef);
      var placed := Load(orders);
      if placed.None? {
        return StorageFailed;
      }
      orders := Saved(placed.value + [order]);
      cart := Missing;
      if parsed.value.None? {
        outcome := PlacedThenFailed(order);
      } else {
        outcome := Placed(order);
      }
    }
  }
}
