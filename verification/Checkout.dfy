/** From a cart to an order (services/orders/app/checkout.py and the creation half of
    services/orders/app/service.py): the order costs what the cart showed. */
module Checkout {
  import opened Prelude
  import opened Orders
  import opened Inventory
  import opened StockProofs
  import opened Cart

  datatype CheckoutRequest = CheckoutRequest(fingerprint: seq<(int, int)>, paymentMethod: PaymentMethod)

  datatype CheckoutError =
    | CartIsEmpty | PricesChanged | AddressUnknown | RestaurantMissing | Turned(code: Code) | Unavailable

  datatype ValidatedOrder = ValidatedOrder(restaurantId: int, items: seq<ValidatedLine>, subtotal: int)

  /** An order together with the lines it was created with. */
  datatype Placed = Placed(order: Order, items: seq<ValidatedLine>)

  /** The checks made before anything is asked of the restaurants service. */
  function LocalProblem(view: CartView, request: CheckoutRequest, addressOwner: Option<int>, customer: int)
    : Option<CheckoutError>
  {
    if view.items == [] || view.restaurantId.None? then Some(CartIsEmpty)
    else if request.fingerprint != view.fingerprint then Some(PricesChanged)
    else if addressOwner != Some(customer) then Some(AddressUnknown)
    else None
  }

  function RequestLines(items: seq<ValidatedLine>): seq<LineRequest> {
    seq(|items|, i requires 0 <= i < |items| => LineRequest(items[i].itemId, items[i].quantity, items[i].unitPrice))
  }

  function ReadVerdict(verdict: Verdict): Result<ValidatedOrder, CheckoutError> {
    match verdict
    case NoSuchRestaurant => Err(RestaurantMissing)
    case Declined(code) => Err(Turned(code))
    case Accepted(id, items, subtotal) => Ok(ValidatedOrder(id, items, subtotal))
  }

  function KitchenOf(kitchens: map<int, Kitchen>, id: int): Option<Kitchen> {
    if id in kitchens then Some(kitchens[id]) else None
  }

  /** The bill repeats the view: same items in the same order, same quantities, prices and totals. */
  predicate SameBill(shown: seq<ValidatedLine>, billed: seq<ValidatedLine>) {
    && |shown| == |billed|
    && forall i :: 0 <= i < |shown| ==>
         (shown[i].itemId, shown[i].quantity, shown[i].unitPrice, shown[i].lineTotal)
         == (billed[i].itemId, billed[i].quantity, billed[i].unitPrice, billed[i].lineTotal)
  }

  lemma {:induction false} SameBillSameSum(shown: seq<ValidatedLine>, billed: seq<ValidatedLine>)
    requires SameBill(shown, billed)
    ensures SumOf(shown) == SumOf(billed)
  {
    if shown != [] {
      SameBillSameSum(shown[..|shown| - 1], billed[..|billed| - 1]);
    }
  }

  /** If the restaurants service accepts what the view asks for, it bills exactly what the view shows,
      at least the minimum, and takes exactly those portions from the shelf. */
  lemma {:induction false} PriceShownIsCharged(
      menu: Menu, kitchen: Option<Kitchen>, restaurantId: Option<int>, lines: map<int, CartLine>, view: CartView,
      q: Request)
    requires IsView(restaurantId, lines, view) && q.lines == RequestLines(view.items)
    requires Validate(menu, kitchen, q).Accepted?
    ensures var v := Validate(menu, kitchen, q);
            && SameBill(view.items, v.items)
            && v.subtotal == view.subtotal == SumOf(v.items)
            && kitchen.Some? && v.restaurantId == kitchen.value.id && v.subtotal >= kitchen.value.minOrder
            && OneLinePerItem(Portions(v.items))
  {
    AcceptedWhen(menu, kitchen, q);
    var v := Validate(menu, kitchen, q);
    forall i | 0 <= i < |view.items|
      ensures AsShown(q.lines[i], v.items[i]) && view.items[i] == ItemView(view.items[i].itemId, lines[view.items[i].itemId])
    {
    }
    SameBillSameSum(view.items, v.items);
  }

  /** No tracked shelf is clamped: it goes down by exactly what was billed. */
  ghost predicate ShelfTaken(before: Menu, after: Menu, items: seq<ValidatedLine>) {
    && after.Keys == before.Keys
    && (forall id :: id in before && !Tracked(before, id) ==> after[id] == before[id])
    && forall id :: Tracked(before, id) ==>
         after[id] == before[id].(stock := Some(before[id].stock.value - Quantity(Portions(items), id)))
  }

  lemma {:induction false} ReservationTakes(menu: Menu, kitchen: Option<Kitchen>, q: Request)
    requires Validate(menu, kitchen, q).Accepted? && q.reserve && StockNonNegative(menu)
    requires OneLinePerItem(Portions(Validate(menu, kitchen, q).items))
    ensures ShelfTaken(menu, Reserved(menu, kitchen, q), Validate(menu, kitchen, q).items)
  {
    var items := Validate(menu, kitchen, q).items;
    forall id | Tracked(menu, id)
      ensures Reserved(menu, kitchen, q)[id]
              == menu[id].(stock := Some(menu[id].stock.value - Quantity(Portions(items), id)))
    {
      ValidatedFits(menu, kitchen, q, id);
      if !Names(Portions(items), id) {
        NotNamedIsZero(Portions(items), id);
      }
    }
  }

  /** What else a checkout sees: the customer's address copy, the restaurants service's kitchens, zone
      answer and clock, whether it can be reached, the next order id and the order's environment. */
  datatype Scene = Scene(
    customer: int, addressOwner: Option<int>, kitchens: map<int, Kitchen>, serviceable: bool, at: int,
    reachable: bool, orderId: int, env: Env)

  function ValidationRequest(shown: CartView, scene: Scene): Request {
    Request(RequestLines(shown.items), scene.serviceable, true, scene.at)
  }

  /** Whether and how a checkout fails. */
  function RefusalOf(menu: Menu, shown: CartView, request: CheckoutRequest, scene: Scene): Option<CheckoutError> {
    var problem := LocalProblem(shown, request, scene.addressOwner, scene.customer);
    if problem.Some? then problem
    else if !scene.reachable then Some(Unavailable)
    else
      var kitchen := KitchenOf(scene.kitchens, shown.restaurantId.value);
      match ReadVerdict(Validate(menu, kitchen, ValidationRequest(shown, scene)))
      case Err(e) => Some(e)
      case Ok(_) => None
  }

  /** A checkout from start to finish, the customer's lease already held. */
  method PlaceOrder(cart: Basket, shop: Stockroom, request: CheckoutRequest, scene: Scene)
    returns (r: Result<Placed, CheckoutError>, shown: CartView)
    requires cart.Valid() && StockNonNegative(shop.menu)
    modifies cart, shop
    ensures cart.Valid() && IsView(old(cart.restaurantId), old(cart.lines), shown)
    ensures r.Err? ==> cart.lines == old(cart.lines) && cart.restaurantId == old(cart.restaurantId)
    ensures r.Err? ==> shop.menu == old(shop.menu)
    ensures RefusalOf(old(shop.menu), shown, request, scene) == if r.Err? then Some(r.error) else None
    ensures r.Ok? ==> Charged(shown, request, scene, r.value)
    ensures r.Ok? ==> cart.lines == map[] && ShelfTaken(old(shop.menu), shop.menu, r.value.items)
  {
    shown := cart.View();
    var problem := LocalProblem(shown, request, scene.addressOwner, scene.customer);
    if problem.Some? {
      return Err(problem.value), shown;
    }
    if !scene.reachable {
      return Err(Unavailable), shown;
    }
    var kitchen := KitchenOf(scene.kitchens, shown.restaurantId.value);
    var q := ValidationRequest(shown, scene);
    var verdict := shop.ValidateOrder(kitchen, q);
    var answer := ReadVerdict(verdict);
    if answer.Err? {
      return Err(answer.error), shown;
    }
    var validated := answer.value;
    PriceShownIsCharged(old(shop.menu), kitchen, cart.restaurantId, cart.lines, shown, q);
    ReservationTakes(old(shop.menu), kitchen, q);
    var order := Create(scene.orderId, scene.customer, validated.restaurantId, request.paymentMethod,
                        validated.subtotal, scene.env);
    cart.Clear();
    return Ok(Placed(order, validated.items)), shown;
  }

  /** The order is the cart's: its total is the subtotal shown and the sum of its own lines, which are
      the lines shown, under the prices the customer confirmed, at least the kitchen's minimum. */
  predicate Charged(shown: CartView, request: CheckoutRequest, scene: Scene, placed: Placed) {
    && placed.order.total == shown.subtotal == SumOf(placed.items)
    && SameBill(shown.items, placed.items)
    && request.fingerprint == shown.fingerprint
    && shown.restaurantId.Some?
    && shown.restaurantId.value in scene.kitchens
    && placed.order.total >= scene.kitchens[shown.restaurantId.value].minOrder
    && placed.order.restaurantId == scene.kitchens[shown.restaurantId.value].id
    && placed.order.customerId == scene.customer && placed.order.paymentMethod == request.paymentMethod
  }

  /** A checkout succeeds exactly when the cart holds something, its items and prices are those the customer
      confirmed, the address is the customer's own, the restaurants service answers, knows the kitchen and
      finds it taking orders, every line can be sold as shown, the address is served and the subtotal
      reaches the minimum. */
  lemma {:induction false} CheckoutSucceedsIff(menu: Menu, shown: CartView, request: CheckoutRequest, scene: Scene)
    requires shown.restaurantId.Some? ==> OneRowADay(KitchenOf(scene.kitchens, shown.restaurantId.value))
    ensures RefusalOf(menu, shown, request, scene).None? <==>
            && shown.items != [] && shown.restaurantId.Some? && request.fingerprint == shown.fingerprint
            && scene.addressOwner == Some(scene.customer) && scene.reachable
            && shown.restaurantId.value in scene.kitchens
            && var kitchen := scene.kitchens[shown.restaurantId.value];
               && TakesOrders(kitchen, scene.at) && scene.serviceable
               && (forall i :: 0 <= i < |shown.items| ==>
                     Sellable(menu, kitchen.id, RequestLines(shown.items)[i]))
               && Shown(RequestLines(shown.items)) >= kitchen.minOrder
  {
    if shown.restaurantId.Some? {
      AcceptedIff(menu, KitchenOf(scene.kitchens, shown.restaurantId.value), ValidationRequest(shown, scene));
    }
  }

  /** What is refused before the restaurants service is asked, and in which order. */
  lemma LocalRefusals(view: CartView, request: CheckoutRequest, addressOwner: Option<int>, customer: int)
    ensures var p := LocalProblem(view, request, addressOwner, customer);
            && (p == Some(CartIsEmpty) <==> view.items == [] || view.restaurantId.None?)
            && (p == Some(PricesChanged) <==>
                  view.items != [] && view.restaurantId.Some? && request.fingerprint != view.fingerprint)
            && (p == Some(AddressUnknown) <==>
                  view.items != [] && view.restaurantId.Some? && request.fingerprint == view.fingerprint
                  && (addressOwner.None? || addressOwner.value != customer))
            && (p.Some? ==> p.value in {CartIsEmpty, PricesChanged, AddressUnknown})
  {
  }

  /** Past the local checks, the customer hears that the service is away, that the restaurant is unknown, or
      the very code the restaurants service declined with. */
  lemma RemoteRefusals(menu: Menu, shown: CartView, request: CheckoutRequest, scene: Scene)
    requires LocalProblem(shown, request, scene.addressOwner, scene.customer).None?
    ensures var r := RefusalOf(menu, shown, request, scene);
            var id := shown.restaurantId.value;
            && (r == Some(Unavailable) <==> !scene.reachable)
            && (r == Some(RestaurantMissing) <==> scene.reachable && id !in scene.kitchens)
            && forall code :: r == Some(Turned(code)) <==>
                 && scene.reachable && id in scene.kitchens
                 && Validate(menu, Some(scene.kitchens[id]), ValidationRequest(shown, scene)) == Declined(code)
  {
  }

  // ---------------------------------------------------------------- what the fingerprint protects

  /** Two views have the same fingerprint exactly when they list the same items at the same prices. */
  lemma {:induction false} FingerprintIff(a: seq<ValidatedLine>, b: seq<ValidatedLine>)
    ensures Fingerprint(a) == Fingerprint(b) <==>
            && |a| == |b|
            && forall i :: 0 <= i < |a| ==> a[i].itemId == b[i].itemId && a[i].unitPrice == b[i].unitPrice
  {
    var fa, fb := Fingerprint(a), Fingerprint(b);
    if fa == fb {
      assert |fa| == |a| && |fb| == |b|;
      forall i | 0 <= i < |a|
        ensures a[i].itemId == b[i].itemId && a[i].unitPrice == b[i].unitPrice
      {
        assert fa[i] == fb[i];
      }
    }
  }

  /** Quantities are not part of it: a cart whose quantity changed after the customer looked still
      checks out, for a different amount. */
  lemma FingerprintIgnoresQuantity()
    ensures var one := CartView(Some(1), [ItemView(7, CartLine("dosa", 100, 1))], 100, [(7, 100)]);
            var two := CartView(Some(1), [ItemView(7, CartLine("dosa", 100, 2))], 200, [(7, 100)]);
            && IsView(Some(1), map[7 := CartLine("dosa", 100, 1)], one)
            && IsView(Some(1), map[7 := CartLine("dosa", 100, 2)], two)
            && one.fingerprint == two.fingerprint && one.subtotal != two.subtotal
  {
    var x, y := ItemView(7, CartLine("dosa", 100, 1)), ItemView(7, CartLine("dosa", 100, 2));
    assert [x][..0] == [] && [y][..0] == [];
    assert SumOf([x]) == 100 && SumOf([y]) == 200;
    assert Fingerprint([x]) == [(7, 100)] && Fingerprint([y]) == [(7, 100)];
    assert x in [x] && y in [y];
  }
}
