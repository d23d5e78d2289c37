/** The shared cart store: an ordered list of lines, its own copy of the
    price table, and the two totals it publishes. */
module CartContext {
  import opened PriceTable
  import Folds

  /** One cart line. The product type, size and finish are the labels the
      selector offers; the store accepts any text. */
  datatype CartItem = CartItem(productType: string, quantity: int, size: string, color: string)

  type Cart = seq<CartItem>

  predicate IsStainlessSteel(color: string) {
    color == "Polished Stainless Steel" || color == "Matte Stainless Steel"
  }

  /** This store's copy of the unit price: judged on the finish and on the
      line's own quantity, nothing else. */
  function UnitPrice(color: string, quantity: int): (r: int)
    ensures IsStainlessSteel(color) ==> r == TablePrice(Stainless, BandOf(quantity))
    ensures !IsStainlessSteel(color) ==> r == TablePrice(OtherFinish, BandOf(quantity))
  {
    var isBoxQuantity := quantity >= 18;
    if IsStainlessSteel(color) then
      (if isBoxQuantity then 80 else 110)
    else
      (if isBoxQuantity then 100 else 130)
  }

  /** Price of a whole line: the unit price times the quantity, bounded by
      the table's cheapest and dearest unit prices. */
  function TotalPrice(color: string, quantity: int): (r: int)
    ensures r == UnitPrice(color, quantity) * quantity
    ensures quantity >= 0 ==> MinUnitPrice * quantity <= r <= MaxUnitPrice * quantity
  {
    UnitPrice(color, quantity) * quantity
  }

  function ItemQuantity(item: CartItem): int { item.quantity }

  function ItemTotal(item: CartItem): int { TotalPrice(item.color, item.quantity) }

  /** Number of units in the cart. */
  function CartTotal(cart: Cart): int { Folds.Sum(cart, ItemQuantity) }

  /** Dollar value of the cart. */
  function CartValue(cart: Cart): int { Folds.Sum(cart, ItemTotal) }

  /** Adding appends the item at the end; the lines already there stay. */
  function AddToCart(cart: Cart, item: CartItem): (r: Cart)
    ensures |r| == |cart| + 1
    ensures r[..|cart|] == cart
    ensures r[|cart|] == item
  {
    cart + [item]
  }

  /** Keeps every line whose position differs from `index`, the way a filter
      over (item, position) pairs does. */
  function RemoveFromCart(cart: Cart, index: int): (r: Cart)
    ensures 0 <= index < |cart| ==> r == cart[..index] + cart[index + 1..]
    ensures !(0 <= index < |cart|) ==> r == cart
    decreases |cart|
  {
    if |cart| == 0 then []
    else
      var last := |cart| - 1;
      var kept := RemoveFromCart(cart[..last], index);
      assert cart == cart[..last] + [cart[last]];
      if index == last then kept else kept + [cart[last]]
  }

  function ClearCart(): (r: Cart)
    ensures |r| == 0
  {
    []
  }

  /** The totals published by the store, computed by the same running-total
      loops the store performs. */
  method Totals(cart: Cart) returns (cartTotal: int, cartValue: int)
    ensures cartTotal == CartTotal(cart)
    ensures cartValue == CartValue(cart)
  {
    cartTotal := Folds.Reduce(cart, ItemQuantity);
    cartValue := Folds.Reduce(cart, ItemTotal);
  }

  /** Adding a line grows the unit count by its quantity and the value by
      its own line price. */
  lemma AddToCartTotals(cart: Cart, item: CartItem)
    ensures CartTotal(AddToCart(cart, item)) == CartTotal(cart) + item.quantity
    ensures CartValue(AddToCart(cart, item)) == CartValue(cart) + TotalPrice(item.color, item.quantity)
  {
    Folds.SumAppend(cart, item, ItemQuantity);
    Folds.SumAppend(cart, item, ItemTotal);
  }

  /** Removing an existing line takes exactly that line's units and price
      out of the totals; removing a position that does not exist changes
      nothing. */
  lemma RemoveFromCartTotals(cart: Cart, index: int)
    ensures 0 <= index < |cart| ==>
      && CartTotal(RemoveFromCart(cart, index)) == CartTotal(cart) - cart[index].quantity
      && CartValue(RemoveFromCart(cart, index)) == CartValue(cart) - TotalPrice(cart[index].color, cart[index].quantity)
    ensures !(0 <= index < |cart|) ==>
      && CartTotal(RemoveFromCart(cart, index)) == CartTotal(cart)
      && CartValue(RemoveFromCart(cart, index)) == CartValue(cart)
  {
    if 0 <= index < |cart| {
      Folds.SumRemoveAt(cart, index, ItemQuantity);
      Folds.SumRemoveAt(cart, index, ItemTotal);
    }
  }

  /** The empty cart holds no units and is worth nothing. */
  lemma ClearCartTotals()
    ensures CartTotal(ClearCart()) == 0 && CartValue(ClearCart()) == 0
  {
  }

  /** Each line is priced from its own quantity: changing one line moves
      the cart value by that line's change in price and no other line's. */
  lemma LinePricingIsLocal(cart: Cart, index: int, item: CartItem)
    requires 0 <= index < |cart|
    ensures CartValue(cart[index := item]) - CartValue(cart)
         == TotalPrice(item.color, item.quantity) - TotalPrice(cart[index].color, cart[index].quantity)
    ensures CartTotal(cart[index := item]) - CartTotal(cart) == item.quantity - cart[index].quantity
  {
    Folds.SumUpdate(cart, index, item, ItemTotal);
    Folds.SumUpdate(cart, index, item, ItemQuantity);
  }

  /** With non-negative quantities neither total can be negative. */
  lemma TotalsNonNegative(cart: Cart)
    requires forall i :: 0 <= i < |cart| ==> cart[i].quantity >= 0
    ensures CartTotal(cart) >= 0 && CartValue(cart) >= 0
  {
    Folds.SumNonNegative(cart, ItemQuantity);
    Folds.SumNonNegative(cart, ItemTotal);
  }

  /** The threshold is not pooled across lines: 17 units and then 1 more
      unit of the same finish, as two lines, are both priced below the
      threshold, 17 * 130 + 1 * 130. */
  lemma NoCartWideThreshold(productType: string, size: string)
    ensures var cart := AddToCart(AddToCart([], CartItem(productType, 17, size, "Black Stainless Steel")),
                                  CartItem(productType, 1, size, "Black Stainless Steel"));
      CartTotal(cart) == 18 && CartValue(cart) == 2340
  {
    var a := CartItem(productType, 17, size, "Black Stainless Steel");
    var b := CartItem(productType, 1, size, "Black Stainless Steel");
    AddToCartTotals([], a);
    AddToCartTotals([a], b);
  }
}
