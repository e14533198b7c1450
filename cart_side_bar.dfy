/** The cart overlay: its visibility flag and the transitions that close it, and the choice
    of what the open overlay's body shows. */
module CartSideBar {
  import opened Catalog

  /** The route "view cart" navigates to. */
  const CartsRoute: string := "/carts"

  /** The overlay's user actions: a click outside the panel, the close button, "view cart". */
  datatype Action = ClickOutside | CloseButton | ViewCart

  /** The shared visibility flag, and the navigations requested so far (oldest first). */
  datatype OverlayState = OverlayState(isCartOpen: bool, navigations: seq<string>)

  /** The effect of one action: every action closes the overlay; only "view cart" navigates.
      The model admits every action in every state, while the page offers the close button
      and "view cart" only inside the open panel, so it allows more sequences than the page. */
  function Step(s: OverlayState, a: Action): (t: OverlayState)
    ensures !t.isCartOpen
    ensures a == ViewCart ==> t.navigations == s.navigations + [CartsRoute]
    ensures a != ViewCart ==> t.navigations == s.navigations
  {
    match a
    case ViewCart => OverlayState(false, s.navigations + [CartsRoute])
    case _ => s.(isCartOpen := false)
  }

  /** The state after a sequence of actions, applied first to last. */
  function Run(s: OverlayState, actions: seq<Action>): (t: OverlayState)
    decreases |actions|
  {
    if actions == [] then s else Run(Step(s, actions[0]), actions[1..])
  }

  function ViewCartCount(actions: seq<Action>): (n: nat)
    decreases |actions|
  {
    if actions == [] then 0
    else (if actions[0] == ViewCart then 1 else 0) + ViewCartCount(actions[1..])
  }

  /** `n` copies of `route`. */
  function Repeated(route: string, n: nat): (r: seq<string>)
    ensures |r| == n && forall i | 0 <= i < n :: r[i] == route
  {
    if n == 0 then [] else [route] + Repeated(route, n - 1)
  }

  /** No action of the overlay opens it: after any actions it is open only if it was open
      and nothing happened. */
  lemma {:induction false} RunNeverOpens(s: OverlayState, actions: seq<Action>)
    ensures Run(s, actions).isCartOpen <==> s.isCartOpen && actions == []
    decreases |actions|
  {
    if actions != [] {
      RunNeverOpens(Step(s, actions[0]), actions[1..]);
    }
  }

  /** The actions add exactly one navigation to the cart route per "view cart", and nothing else. */
  lemma {:induction false} RunNavigations(s: OverlayState, actions: seq<Action>)
    ensures Run(s, actions).navigations == s.navigations + Repeated(CartsRoute, ViewCartCount(actions))
    decreases |actions|
  {
    if actions != [] {
      var t := Step(s, actions[0]);
      var rest := ViewCartCount(actions[1..]);
      RunNavigations(t, actions[1..]);
      if actions[0] == ViewCart {
        assert Repeated(CartsRoute, rest + 1) == [CartsRoute] + Repeated(CartsRoute, rest);
      }
    }
  }

  /** A click outside an overlay that is already closed leaves it as it is. */
  lemma ClickOutsideIdempotent(s: OverlayState)
    ensures Step(Step(s, ClickOutside), ClickOutside) == Step(s, ClickOutside)
  {
  }

  /** The visibility flag, the setter calls of the overlay's handlers, and the navigation log. */
  class CartVisibility {
    var isCartOpen: bool
    var navigations: seq<string>

    function State(): OverlayState
      reads this
    {
      OverlayState(isCartOpen, navigations)
    }

    constructor(open: bool)
      ensures State() == OverlayState(open, [])
    {
      isCartOpen := open;
      navigations := [];
    }

    /** The click-outside callback. */
    method HandleOutside()
      modifies this
      ensures State() == Step(old(State()), ClickOutside)
    {
      isCartOpen := false;
    }

    /** The close button in the panel's header. */
    method Close()
      modifies this
      ensures State() == Step(old(State()), CloseButton)
    {
      isCartOpen := false;
    }

    /** "View cart": close the overlay, then navigate to the full cart page. */
    method HandleViewCart()
      modifies this
      ensures State() == Step(old(State()), ViewCart)
    {
      isCartOpen := false;
      navigations := navigations + [CartsRoute];
    }
  }

  /** One rendered cart line: the list key and the item it shows. */
  datatype ItemEntry = ItemEntry(key: int, product: Product)

  /** The item list: one entry per cart item, keyed by its id, in list order. */
  function ItemEntries(items: seq<Product>): (entries: seq<ItemEntry>)
    ensures |entries| == |items|
    ensures forall i | 0 <= i < |items| :: entries[i] == ItemEntry(items[i].id, items[i])
  {
    if items == [] then [] else [ItemEntry(items[0].id, items[0])] + ItemEntries(items[1..])
  }

  /** What the open panel shows below its close button. `total` is the cart total as the
      totals hook supplies it. */
  datatype Body = LoaderBody | CartData(entries: seq<ItemEntry>, total: int) | NoItem

  /** The panel body, by strict priority: loading, then a non-empty list, then "no item". */
  function SideBarBody(isLoading: bool, items: seq<Product>, total: int): (body: Body)
    ensures body.LoaderBody? <==> isLoading
    ensures body.NoItem? <==> !isLoading && |items| == 0
    ensures body.CartData? <==> !isLoading && |items| > 0
    ensures body.CartData? ==> body.entries == ItemEntries(items) && body.total == total
  {
    if !isLoading then
      (if |items| > 0 then CartData(ItemEntries(items), total) else NoItem)
    else LoaderBody
  }

  /** The overlay: nothing while the flag is false, otherwise the panel with its body. */
  datatype Overlay = Hidden | Panel(body: Body)

  function RenderOverlay(isCartOpen: bool, isLoading: bool, items: seq<Product>, total: int): (overlay: Overlay)
    ensures overlay.Hidden? <==> !isCartOpen
    ensures overlay.Panel? ==> overlay.body == SideBarBody(isLoading, items, total)
  {
    if isCartOpen then Panel(SideBarBody(isLoading, items, total)) else Hidden
  }
}
