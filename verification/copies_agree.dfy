/** The configurator and the cart store each carry their own copy of the
    pricing code. This module shows the two copies never disagree. */
module CopiesAgree {
  import Folds
  import ProductSelector
  import CartContext

  /** Both copies quote the same unit and line price for every finish label
      and quantity, and judge the same finishes stainless. */
  lemma PricesAgree(color: string, quantity: int)
    ensures ProductSelector.IsStainlessSteel(color) <==> CartContext.IsStainlessSteel(color)
    ensures ProductSelector.UnitPrice(color, quantity) == CartContext.UnitPrice(color, quantity)
    ensures ProductSelector.TotalPrice(color, quantity) == CartContext.TotalPrice(color, quantity)
  {
  }

  /** A configurator line as a store line: the postcode is not kept. */
  function ToCartItem(s: ProductSelector.Selection): CartContext.CartItem {
    CartContext.CartItem(s.productType, s.quantity, s.size, s.color)
  }

  function ToCart(cart: seq<ProductSelector.Selection>): (r: CartContext.Cart)
    ensures |r| == |cart|
    ensures forall i :: 0 <= i < |cart| ==> r[i] == ToCartItem(cart[i])
  {
    seq(|cart|, i requires 0 <= i < |cart| => ToCartItem(cart[i]))
  }

  /** The configurator's local cart and the store, holding the same lines,
      report the same unit count and the same value. */
  lemma {:induction false} CartTotalsAgree(cart: seq<ProductSelector.Selection>)
    ensures ProductSelector.CartTotal(cart) == CartContext.CartTotal(ToCart(cart))
    ensures ProductSelector.CartValue(cart) == CartContext.CartValue(ToCart(cart))
    decreases |cart|
  {
    if |cart| > 0 {
      var init, last := cart[..|cart| - 1], cart[|cart| - 1];
      CartTotalsAgree(init);
      assert cart == init + [last];
      assert ToCart(cart) == ToCart(init) + [ToCartItem(last)];
      Folds.SumAppend(init, last, ProductSelector.LineQuantity);
      Folds.SumAppend(init, last, ProductSelector.LineTotal);
      Folds.SumAppend(ToCart(init), ToCartItem(last), CartContext.ItemQuantity);
      Folds.SumAppend(ToCart(init), ToCartItem(last), CartContext.ItemTotal);
      PricesAgree(last.color, last.quantity);
    }
  }
}
