/** The box-pricing table that both pricing copies in the storefront follow,
    written once as data: a finish tier, a quantity band, and the whole-dollar
    price of one unit in that cell. */
module PriceTable {

  /** Quantity of a single line at or above which box pricing applies. */
  const BoxThreshold: int := 18

  /** Polished and matte stainless form the premium tier; every other finish
      is priced in the other tier. */
  datatype Tier = Stainless | OtherFinish

  /** Below the box threshold a line is priced per single unit. */
  datatype Band = Single | Box

  function BandOf(quantity: int): Band {
    if quantity >= BoxThreshold then Box else Single
  }

  /** Unit price, in dollars, for one cell of the table. */
  function TablePrice(tier: Tier, band: Band): nat {
    match (tier, band)
    case (Stainless, Single) => 110
    case (Stainless, Box) => 80
    case (OtherFinish, Single) => 130
    case (OtherFinish, Box) => 100
  }

  /** The cheapest and dearest cells of the table. */
  const MinUnitPrice: nat := 80
  const MaxUnitPrice: nat := 130

  /** Box pricing is a discount in both tiers, and every cell lies between
      the cheapest and dearest price. */
  lemma TableShape(tier: Tier, band: Band)
    ensures TablePrice(tier, Box) < TablePrice(tier, Single)
    ensures MinUnitPrice <= TablePrice(tier, band) <= MaxUnitPrice
  {
  }

  /** A larger quantity never falls into a dearer band. */
  lemma BandMonotone(q1: int, q2: int, tier: Tier)
    requires q1 <= q2
    ensures TablePrice(tier, BandOf(q2)) <= TablePrice(tier, BandOf(q1))
  {
  }
}
