/** The product detail page: the lookup of the product named by the route, the quantity
    stepper, the quantity box's display fallback and the add-to-cart request. */
module ProductDetail {
  import opened Wrappers
  import opened Catalog
  import JsParseInt

  /** The stepper's value when the page first renders. */
  const InitialQuantity: int := 1

  /** Viewports wider than this many pixels also ask for the cart overlay on add-to-cart. */
  const WideViewportWidth: int := 991

  /** What the page renders: the loader, or the details of one product. */
  datatype Page = Loader | Details(product: Product)

  /** What a click on "Add to Cart" asks of the outside world, in order: possibly a request to
      open the cart overlay, then the add-to-cart action sent to the cart store. */
  datatype Effect = RequestCartOpen | DispatchAddToCart(payload: Product)

  /** The position of the first product whose id is `id`, as `Array.prototype.find` picks it. */
  function FirstIndexWithId(products: seq<Product>, id: int): (r: Option<nat>)
    ensures r.Some? ==> r.value < |products| && products[r.value].id == id
    ensures r.Some? ==> forall j | 0 <= j < r.value :: products[j].id != id
    ensures r.None? ==> forall j | 0 <= j < |products| :: products[j].id != id
  {
    if products == [] then None
    else if products[0].id == id then Some(0)
    else match FirstIndexWithId(products[1..], id)
      case None => None
      case Some(k) => Some(k + 1)
  }

  /** The page for the route's product id. `products` is absent until the catalog query has
      data; `routeId` is the route parameter converted to a number, absent when the
      conversion gives `NaN` (which equals no id). */
  function DetailPage(isLoading: bool, products: Option<seq<Product>>, routeId: Option<int>): (page: Page)
    ensures page.Details? <==>
      !isLoading && products.Some? && routeId.Some? &&
      exists i | 0 <= i < |products.value| :: products.value[i].id == routeId.value
    ensures page.Details? ==>
      exists i | 0 <= i < |products.value| ::
        products.value[i] == page.product && page.product.id == routeId.value &&
        forall j | 0 <= j < i :: products.value[j].id != routeId.value
  {
    if isLoading || products.None? || routeId.None? then Loader
    else match FirstIndexWithId(products.value, routeId.value)
      case None => Loader
      case Some(i) => Details(products.value[i])
  }

  /** The record sent to the cart store: the product with its `quantity` set to the stepper's. */
  function CartPayload(product: Product, quantity: int): (payload: Product)
    ensures payload.quantity == Some(quantity)
    ensures payload.(quantity := product.quantity) == product
  {
    product.(quantity := Some(quantity))
  }

  /** The number the quantity box shows: a zero quantity (left by clearing the box) shows as 1. */
  function DisplayedQuantity(quantity: int): (shown: int)
    ensures shown != 0
    ensures quantity != 0 ==> shown == quantity
    ensures quantity == 0 ==> shown == 1
  {
    if quantity == 0 then 1 else quantity
  }

  /** The page's quantity state and the handlers that change it. */
  class QuantityStepper {
    var quantity: int

    constructor()
      ensures quantity == InitialQuantity
    {
      quantity := InitialQuantity;
    }

    /** The minus button: lowers the quantity by one, but only while it is above 1. */
    method Decrease()
      modifies this
      ensures old(quantity) > 1 ==> quantity == old(quantity) - 1
      ensures old(quantity) <= 1 ==> quantity == old(quantity)
      ensures old(quantity) >= 1 ==> quantity >= 1
    {
      if quantity > 1 {
        quantity := quantity - 1;
      }
    }

    /** The plus button. */
    method Increase()
      modifies this
      ensures quantity == old(quantity) + 1
    {
      quantity := quantity + 1;
    }

    /** Typing in the quantity box: clearing it stores 0, otherwise the box's text is parsed
        as a base-10 integer. */
    method Input(text: string)
      requires text == "" || JsParseInt.HasLeadingInteger(text)
      modifies this
      ensures text == "" ==> quantity == 0
      ensures text != "" ==> quantity == JsParseInt.ParseInt(text)
    {
      if text == "" {
        quantity := 0;
      } else {
        quantity := JsParseInt.ParseInt(text);
      }
    }

    /** Typing in the quantity box with the result kept at 1 or more: the behaviour that the
        display fallback and the cart's positive quantities call for. A cleared box or a
        parse below 1 stores 1, which is also what the box shows. */
    method InputAtLeastOne(text: string)
      requires text == "" || JsParseInt.HasLeadingInteger(text)
      modifies this
      ensures quantity >= 1
      ensures text == "" ==> quantity == ClampQuantity(0)
      ensures text != "" ==> quantity == ClampQuantity(JsParseInt.ParseInt(text))
    {
      var typed := if text == "" then 0 else JsParseInt.ParseInt(text);
      quantity := ClampQuantity(typed);
    }

    /** "Add to Cart": on a wide viewport first request the cart overlay, then dispatch the
        product with the current quantity. */
    method AddToCart(product: Product, windowWidth: int) returns (effects: seq<Effect>)
      ensures |effects| > 0 && effects[|effects| - 1] == DispatchAddToCart(CartPayload(product, quantity))
      ensures RequestCartOpen in effects <==> windowWidth > WideViewportWidth
      ensures forall i | 0 <= i < |effects| - 1 :: effects[i] == RequestCartOpen
      ensures |effects| <= 2
    {
      effects := [];
      if windowWidth > WideViewportWidth {
        effects := effects + [RequestCartOpen];
      }
      effects := effects + [DispatchAddToCart(CartPayload(product, quantity))];
    }
  }

  /** The nearest quantity of at least 1: values of 1 and more are kept, anything lower
      becomes 1. */
  function ClampQuantity(quantity: int): (clamped: int)
    ensures clamped >= 1
    ensures quantity >= 1 ==> clamped == quantity
    ensures quantity < 1 ==> clamped == 1
    ensures quantity >= 0 ==> clamped == DisplayedQuantity(quantity)
  {
    if quantity < 1 then 1 else quantity
  }

  /** As written, clearing the box and adding to the cart dispatches a quantity of 0, while
      the box shows 1. */
  method ClearedBoxDispatchesZero(stepper: QuantityStepper, product: Product, windowWidth: int)
    returns (effects: seq<Effect>)
    modifies stepper
    ensures |effects| > 0 && effects[|effects| - 1] == DispatchAddToCart(CartPayload(product, 0))
    ensures DisplayedQuantity(stepper.quantity) == 1
  {
    stepper.Input("");
    effects := stepper.AddToCart(product, windowWidth);
  }

  /** As written, the text `-3` is stored as a quantity of -3, which the minus button cannot
      raise and which add-to-cart dispatches unchanged. */
  lemma NegativeTextParsesBelowOne()
    ensures JsParseInt.HasLeadingInteger("-3") && JsParseInt.ParseInt("-3") == -3
  {
  }

  /** With the input kept at 1 or more, whatever is typed, add-to-cart dispatches a quantity of
      at least 1, and it is the quantity the box shows. */
  method CorrectedInputThenAdd(stepper: QuantityStepper, text: string, product: Product, windowWidth: int)
    returns (effects: seq<Effect>)
    requires text == "" || JsParseInt.HasLeadingInteger(text)
    modifies stepper
    ensures |effects| > 0 && effects[|effects| - 1].DispatchAddToCart?
    ensures effects[|effects| - 1].payload.quantity.Some?
    ensures effects[|effects| - 1].payload.quantity.value >= 1
    ensures effects[|effects| - 1].payload.quantity.value == DisplayedQuantity(stepper.quantity)
  {
    stepper.InputAtLeastOne(text);
    effects := stepper.AddToCart(product, windowWidth);
  }

  /** Typing back the numeral the box shows for a non-zero quantity restores that quantity. */
  method RetypeDisplayed(stepper: QuantityStepper)
    modifies stepper
    ensures old(stepper.quantity) != 0 ==> stepper.quantity == old(stepper.quantity)
    ensures old(stepper.quantity) == 0 ==> stepper.quantity == 1
  {
    var text := JsParseInt.Numeral(DisplayedQuantity(stepper.quantity));
    JsParseInt.ParseIntNumeral(DisplayedQuantity(stepper.quantity), []);
    assert text + [] == text;
    stepper.Input(text);
  }
}
