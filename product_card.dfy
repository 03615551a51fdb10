/**
 * The product card: the shown price and the struck-through list price, the
 * add-to-cart button and its state, and the stock indicator (a coloured dot
 * and a label) with its three levels.
 */
module ProductCard {
  import opened Wrappers
  import Text
  import Pricing
  import CartContext

  /** hasDiscount: a discount is given and parses to more than zero. */
  predicate HasDiscount(p: CartContext.ShopProduct, parse: string -> real)
  {
    Truthy(p.discountPercent) && parse(p.discountPercent.value) > 0.0
  }

  /** The price shown in large type: `calculateDiscountedPrice(price, discountPercent)`. */
  function ShownPrice(p: CartContext.ShopProduct, parse: string -> real): real
  {
    Pricing.ClientDiscountedPrice(p.price, p.discountPercent, parse)
  }

  /**
   * The struck-through list price, drawn only when there is a discount; with a
   * positive list price and a discount of at most 100 percent it lies above the
   * shown price, which is not negative.
   */
  function StruckPrice(p: CartContext.ShopProduct, parse: string -> real): (r: Option<real>)
    ensures r.Some? <==> HasDiscount(p, parse)
    ensures r.Some? ==> r.value == parse(p.price)
    ensures HasDiscount(p, parse) && parse(p.price) > 0.0 && parse(p.discountPercent.value) <= 100.0 ==>
              0.0 <= ShownPrice(p, parse) < r.value
  {
    if HasDiscount(p, parse) then
      DiscountBelowList(p, parse);
      Some(parse(p.price))
    else None
  }

  /** Without a discount text the shown price is the list price. */
  lemma NoDiscountShowsListPrice(p: CartContext.ShopProduct, parse: string -> real)
    requires !Truthy(p.discountPercent)
    ensures StruckPrice(p, parse).None? && ShownPrice(p, parse) == parse(p.price)
  {
    Pricing.ClientPriceIsDiscountedPrice(p.price, p.discountPercent, parse);
  }

  /**
   * With a positive list price and a positive discount of at most 100 percent
   * the shown price is at least 0 and below the list price.
   */
  lemma DiscountBelowList(p: CartContext.ShopProduct, parse: string -> real)
    ensures HasDiscount(p, parse) && parse(p.price) > 0.0 && parse(p.discountPercent.value) <= 100.0 ==>
              0.0 <= ShownPrice(p, parse) < parse(p.price)
  {
    if HasDiscount(p, parse) && parse(p.price) > 0.0 && parse(p.discountPercent.value) <= 100.0 {
      var price, d := parse(p.price), parse(p.discountPercent.value);
      Pricing.ClientPriceIsDiscountedPrice(p.price, p.discountPercent, parse);
      assert ShownPrice(p, parse) == Pricing.DiscountedPrice(price, Some(d)) == price * (1.0 - d / 100.0);
      Pricing.DiscountWithinPrice(price, d);
      Pricing.MulNegative(price, -(d / 100.0));
      assert price * (1.0 - d / 100.0) == price + price * (-(d / 100.0));
      assert ShownPrice(p, parse) < price;
    }
  }

  /** `disabled={product.stock === 0}`. */
  predicate AddDisabled(stock: int)
  {
    stock == 0
  }

  /** The three stock levels the indicator distinguishes. */
  datatype StockLevel = Plenty | Limited | SoldOut

  const PLENTY_ABOVE := 10

  /** More than ten is plenty, one to ten is limited, anything else is sold out. */
  function Level(stock: int): (r: StockLevel)
    ensures r == Plenty <==> stock > PLENTY_ABOVE
    ensures r == Limited <==> 0 < stock <= PLENTY_ABOVE
    ensures r == SoldOut <==> stock <= 0
  {
    if stock > PLENTY_ABOVE then Plenty else if stock > 0 then Limited else SoldOut
  }

  const AVAILABLE := "Available"
  const SOLD_OUT := "Sold Out"

  /** The indicator's label. */
  function StockLabel(stock: int): string
  {
    match Level(stock)
    case Plenty => AVAILABLE
    case Limited => "Limited (" + Text.IntText(stock) + ")"
    case SoldOut => SOLD_OUT
  }

  /** The indicator dot's colour class, by the same thresholds. */
  function DotColour(stock: int): string
  {
    match Level(stock)
    case Plenty => "bg-emerald-500"
    case Limited => "bg-amber-500"
    case SoldOut => "bg-rose-500"
  }

  /**
   * The label tells the level apart, and within the limited level the exact
   * stock: two stocks with the same label have the same level (so the same
   * dot), and two limited stocks with the same label are equal.
   */
  lemma StockLabelDeterminesLevel(a: int, b: int)
    requires StockLabel(a) == StockLabel(b)
    ensures Level(a) == Level(b) && DotColour(a) == DotColour(b)
    ensures Level(a) == Limited ==> a == b
  {
    if Level(a) == Limited || Level(b) == Limited {
      var la, lb := StockLabel(a), StockLabel(b);
      assert |la| >= 11 || |lb| >= 11;
      assert Level(a) == Limited && Level(b) == Limited;
      var ta, tb := Text.IntText(a), Text.IntText(b);
      assert ta == la[9..|la| - 1];
      assert tb == lb[9..|lb| - 1];
      Text.NatTextInjective(a, b);
    }
  }

  /**
   * A negative stock reads 'Sold Out' while the add button stays enabled. The
   * product validator refuses a negative stock; one arises only from an order
   * that names a product on two lines (`OrderRoutes.DuplicateLineOversell`).
   */
  lemma NegativeStockSoldOutButEnabled(stock: int)
    requires stock < 0
    ensures StockLabel(stock) == SOLD_OUT && DotColour(stock) == "bg-rose-500" && !AddDisabled(stock)
  {
  }

  /** The add button's look: in the cart, disabled, or ready. */
  datatype ButtonStyle = InCartStyle | DisabledStyle | ReadyStyle

  function Style(inCart: bool, stock: int): (r: ButtonStyle)
    ensures r == DisabledStyle <==> !inCart && AddDisabled(stock)
    ensures r == InCartStyle <==> inCart
  {
    if inCart then InCartStyle else if stock == 0 then DisabledStyle else ReadyStyle
  }

  /** What pressing the add button does to a guest cart: `addItem(product)` with the default quantity, unless disabled. */
  method PressAdd(cart: CartContext.GuestCart, p: CartContext.ShopProduct)
    requires cart.Valid()
    modifies cart
    ensures cart.Valid()
    ensures AddDisabled(p.stock) ==> cart.items == old(cart.items)
    ensures !AddDisabled(p.stock) ==> cart.items == CartContext.AddTo(old(cart.items), p, CartContext.DEFAULT_QUANTITY)
  {
    if !AddDisabled(p.stock) {
      cart.AddItem(p, None);
    }
  }
}
