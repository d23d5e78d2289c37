/** The order configurator: an in-progress selection, a live quote with its
    own copy of the price table, and a local cart the selection is added to. */
module ProductSelector {
  import opened PriceTable
  import Folds

  /** The six finishes the configurator offers, in menu order. */
  datatype Finish =
    | PolishedStainless | MatteStainless | BlackStainless
    | GoldStainless | RoseStainless | GunMetalStainless

  /** The label the menu shows and stores in the selection. */
  function FinishName(f: Finish): string {
    match f
    case PolishedStainless => "Polished Stainless Steel"
    case MatteStainless => "Matte Stainless Steel"
    case BlackStainless => "Black Stainless Steel"
    case GoldStainless => "Gold Stainless Steel"
    case RoseStainless => "Rose Stainless Steel"
    case GunMetalStainless => "Gun Metal Stainless Steel"
  }

  const ProductTypes: seq<string> := [
    "Tile Insert Kit with Push In Rubber Ring Seal",
    "Tile Insert Kit with Tail/Suit Kit with O-ring",
    "Tile Insert Kit with Solvent Weld Adapter"
  ]

  const Sizes: seq<string> := ["50mm", "80mm", "100mm"]

  /** The in-progress order line. Text fields are empty until chosen. */
  datatype Selection = Selection(productType: string, quantity: int, size: string, color: string, postcode: string)

  /** The configurator's whole state: the selection and its local cart. */
  datatype Selector = Selector(selection: Selection, cart: seq<Selection>)

  const InitialSelection: Selection := Selection("", 1, "", "", "")

  const Initial: Selector := Selector(InitialSelection, [])

  /** One edit of a selection field, as the form issues it. */
  datatype Edit =
    | SetType(text: string)
    | SetQuantity(count: int)
    | SetSize(text: string)
    | SetColor(text: string)
    | SetPostcode(text: string)

  /** Sets the one field the edit names; the others keep their values. */
  function UpdateSelection(s: Selection, e: Edit): (r: Selection)
    ensures r.productType == (if e.SetType? then e.text else s.productType)
    ensures r.quantity == (if e.SetQuantity? then e.count else s.quantity)
    ensures r.size == (if e.SetSize? then e.text else s.size)
    ensures r.color == (if e.SetColor? then e.text else s.color)
    ensures r.postcode == (if e.SetPostcode? then e.text else s.postcode)
  {
    match e
    case SetType(t) => s.(productType := t)
    case SetQuantity(n) => s.(quantity := n)
    case SetSize(t) => s.(size := t)
    case SetColor(t) => s.(color := t)
    case SetPostcode(t) => s.(postcode := t)
  }

  /** The plus and minus buttons: one step up or down, never below 1. */
  function AdjustQuantity(s: Selection, increment: bool): (r: Selection)
    ensures r.quantity >= 1
    ensures increment && s.quantity >= 0 ==> r.quantity == s.quantity + 1
    ensures increment && s.quantity < 0 ==> r.quantity == 1
    ensures !increment && s.quantity >= 2 ==> r.quantity == s.quantity - 1
    ensures !increment && s.quantity <= 2 ==> r.quantity == 1
    ensures r.(quantity := s.quantity) == s
  {
    var q := s.quantity + (if increment then 1 else -1);
    s.(quantity := if q > 1 then q else 1)
  }

  predicate IsStainlessSteel(color: string) {
    color == "Polished Stainless Steel" || color == "Matte Stainless Steel"
  }

  /** The premium tier is exactly polished and matte among the offered finishes. */
  lemma StainlessFinishes(f: Finish)
    ensures IsStainlessSteel(FinishName(f)) <==> (f == PolishedStainless || f == MatteStainless)
  {
    match f
    case BlackStainless => assert FinishName(f)[0] == 'B';
    case GoldStainless => assert FinishName(f)[0] == 'G';
    case RoseStainless => assert FinishName(f)[0] == 'R';
    case GunMetalStainless => assert FinishName(f)[0] == 'G';
    case _ =>
  }

  /** The selector's copy of the unit price, judged on the finish and on
      the line's own quantity. */
  function UnitPrice(color: string, quantity: int): (r: int)
    ensures IsStainlessSteel(color) ==> r == TablePrice(Stainless, BandOf(quantity))
    ensures !IsStainlessSteel(color) ==> r == TablePrice(OtherFinish, BandOf(quantity))
  {
    var isBoxQuantity := quantity >= 18;
    if IsStainlessSteel(color) then
      (if isBoxQuantity then 80 else 110)
    else
      (if isBoxQuantity then 100 else 130)
  }

  /** Price of a whole line: the unit price times the quantity, so the
      quoted unit price is what each unit of the line costs. */
  function TotalPrice(color: string, quantity: int): (r: int)
    ensures r == UnitPrice(color, quantity) * quantity
    ensures quantity >= 0 ==> MinUnitPrice * quantity <= r <= MaxUnitPrice * quantity
  {
    UnitPrice(color, quantity) * quantity
  }

  /** Every offered finish, priced at every quantity, as the table reads. */
  lemma FinishPrices(f: Finish, quantity: int)
    ensures (f == PolishedStainless || f == MatteStainless) ==>
      UnitPrice(FinishName(f), quantity) == (if quantity >= 18 then 80 else 110)
    ensures !(f == PolishedStainless || f == MatteStainless) ==>
      UnitPrice(FinishName(f), quantity) == (if quantity >= 18 then 100 else 130)
  {
    StainlessFinishes(f);
  }

  /** The threshold is inclusive: 18 units get the box price, 17 do not. */
  lemma ThresholdInclusive(color: string)
    ensures UnitPrice(color, 18) < UnitPrice(color, 17)
    ensures forall q :: q >= 18 ==> UnitPrice(color, q) == UnitPrice(color, 18)
    ensures forall q :: q < 18 ==> UnitPrice(color, q) == UnitPrice(color, 17)
  {
  }

  /** The unit price never rises as the line's quantity grows. */
  lemma UnitPriceMonotone(color: string, q1: int, q2: int)
    requires q1 <= q2
    ensures UnitPrice(color, q2) <= UnitPrice(color, q1)
  {
    BandMonotone(q1, q2, if IsStainlessSteel(color) then Stainless else OtherFinish);
  }

  /** The line price is not monotone: at the threshold, 18 units cost less
      in total than 17. */
  lemma BoxPriceCliff(color: string)
    ensures TotalPrice(color, 18) < TotalPrice(color, 17)
  {
  }

  /** The "Box pricing applies" notice under the quantity buttons. */
  predicate ShowsBoxNotice(s: Selection) {
    s.quantity >= 18
  }

  /** The notice is shown exactly when the quoted unit price is below the
      single-unit price. */
  lemma QuoteMatchesNotice(s: Selection)
    ensures ShowsBoxNotice(s) <==> UnitPrice(s.color, s.quantity) < UnitPrice(s.color, 1)
  {
  }

  /** The box price the quote advertises below the threshold, read off the
      hint text for the chosen finish. */
  function AdvertisedBoxPrice(color: string): int {
    if IsStainlessSteel(color) then 80 else 100
  }

  /** The advertised box price is what every quantity at or above the
      threshold is charged. */
  lemma AdvertisedBoxPriceIsCharged(color: string, quantity: int)
    requires quantity >= BoxThreshold
    ensures UnitPrice(color, quantity) == AdvertisedBoxPrice(color)
  {
  }

  /** Type, size, finish and postcode have all been filled in. */
  predicate IsSelectionComplete(s: Selection) {
    s.productType != [] && s.size != [] && s.color != [] && s.postcode != []
  }

  /** Every label the menus offer is non-empty, so a selection whose type,
      size and finish were picked from the menus is complete as soon as a
      postcode is typed, whatever the quantity. */
  lemma MenuSelectionComplete(productType: string, size: string, f: Finish, quantity: int, postcode: string)
    requires productType in ProductTypes && size in Sizes
    ensures IsSelectionComplete(Selection(productType, quantity, size, FinishName(f), postcode)) <==> postcode != []
  {
  }

  /** Adding an incomplete selection does nothing. A complete one is copied
      onto the end of the cart and the quantity goes back to 1; the chosen
      type, size, finish and postcode stay selected. */
  function AddToCart(st: Selector): (r: Selector)
    ensures !IsSelectionComplete(st.selection) ==> r == st
    ensures IsSelectionComplete(st.selection) ==>
      && |r.cart| == |st.cart| + 1
      && r.cart[..|st.cart|] == st.cart
      && r.cart[|st.cart|] == st.selection
      && r.selection.quantity == 1
      && r.selection.(quantity := st.selection.quantity) == st.selection
  {
    if IsSelectionComplete(st.selection) then
      Selector(st.selection.(quantity := 1), st.cart + [st.selection])
    else
      st
  }

  function LineQuantity(s: Selection): int { s.quantity }

  function LineTotal(s: Selection): int { TotalPrice(s.color, s.quantity) }

  /** Number of units in the local cart. */
  function CartTotal(cart: seq<Selection>): int { Folds.Sum(cart, LineQuantity) }

  /** Dollar value of the local cart. */
  function CartValue(cart: seq<Selection>): int { Folds.Sum(cart, LineTotal) }

  /** A successful add raises the cart's units by the selected quantity and
      its value by the quoted total; a refused add changes neither. */
  lemma AddToCartTotals(st: Selector)
    ensures IsSelectionComplete(st.selection) ==>
      && CartTotal(AddToCart(st).cart) == CartTotal(st.cart) + st.selection.quantity
      && CartValue(AddToCart(st).cart) == CartValue(st.cart) + TotalPrice(st.selection.color, st.selection.quantity)
    ensures !IsSelectionComplete(st.selection) ==>
      CartTotal(AddToCart(st).cart) == CartTotal(st.cart) && CartValue(AddToCart(st).cart) == CartValue(st.cart)
  {
    Folds.SumAppend(st.cart, st.selection, LineQuantity);
    Folds.SumAppend(st.cart, st.selection, LineTotal);
  }

  /** What the form can do: press plus or minus, edit a field, or add. */
  datatype Action = Adjust(increment: bool) | Update(edit: Edit) | Add

  /** The form edits only the text fields; the quantity moves only by the
      plus and minus buttons. */
  predicate IssuedByForm(a: Action) {
    !(a.Update? && a.edit.SetQuantity?)
  }

  function Step(st: Selector, a: Action): Selector {
    match a
    case Adjust(inc) => st.(selection := AdjustQuantity(st.selection, inc))
    case Update(e) => st.(selection := UpdateSelection(st.selection, e))
    case Add => AddToCart(st)
  }

  function Run(st: Selector, actions: seq<Action>): Selector
    decreases |actions|
  {
    if |actions| == 0 then st else Run(Step(st, actions[0]), actions[1..])
  }

  /** From the initial quantity of 1, no sequence of form actions brings the
      quantity below 1, and every line in the cart has at least one unit. */
  lemma {:induction false} QuantityStaysPositive(st: Selector, actions: seq<Action>)
    requires st.selection.quantity >= 1
    requires forall i :: 0 <= i < |st.cart| ==> st.cart[i].quantity >= 1
    requires forall i :: 0 <= i < |actions| ==> IssuedByForm(actions[i])
    ensures Run(st, actions).selection.quantity >= 1
    ensures forall i :: 0 <= i < |Run(st, actions).cart| ==> Run(st, actions).cart[i].quantity >= 1
    decreases |actions|
  {
    if |actions| > 0 {
      var next := Step(st, actions[0]);
      assert IssuedByForm(actions[0]);
      assert forall i :: 0 <= i < |next.cart| ==> next.cart[i].quantity >= 1;
      QuantityStaysPositive(next, actions[1..]);
    }
  }

  /** In particular, starting from a fresh configurator. */
  lemma InitialQuantityStaysPositive(actions: seq<Action>)
    requires forall i :: 0 <= i < |actions| ==> IssuedByForm(actions[i])
    ensures Run(Initial, actions).selection.quantity >= 1
  {
    QuantityStaysPositive(Initial, actions);
  }
}
