/** Where portions go: validation decides what is taken, and nothing is lost or made up on the way out
    and back. */
module StockProofs {
  import opened Prelude
  import opened Hours
  import opened Inventory

  // ---------------------------------------------------------------- what validation answers

  /** A line that can be sold: on this kitchen's menu, available, in stock, at the price shown. */
  predicate Sellable(menu: Menu, restaurantId: int, line: LineRequest) {
    && line.itemId in menu
    && var item := menu[line.itemId];
       && item.restaurantId == restaurantId && item.available
       && (item.stock.Some? ==> line.quantity <= item.stock.value)
       && item.price == line.unitPrice
  }

  function Shown(lines: seq<LineRequest>): int {
    if lines == [] then 0
    else Shown(lines[..|lines| - 1]) + lines[|lines| - 1].unitPrice * lines[|lines| - 1].quantity
  }

  lemma {:induction false} PricedAsShown(menu: Menu, restaurantId: int, lines: seq<LineRequest>)
    requires AllOnMenu(menu, lines)
    requires forall i :: 0 <= i < |lines| ==> Sellable(menu, restaurantId, lines[i])
    ensures SumOf(PricedLines(menu, lines)) == Shown(lines)
  {
    if lines != [] {
      var init := lines[..|lines| - 1];
      PricedAsShown(menu, restaurantId, init);
      assert PricedLines(menu, lines)[..|lines| - 1] == PricedLines(menu, init);
    }
  }

  /** As AcceptedIff, for any schedule rows whatever. */
  lemma {:induction false} AcceptedWhen(menu: Menu, kitchen: Option<Kitchen>, q: Request)
    ensures Validate(menu, kitchen, q).Accepted? <==>
            && kitchen.Some? && OpenFor(kitchen.value, q) && q.lines != [] && q.serviceable
            && (forall i :: 0 <= i < |q.lines| ==> Sellable(menu, kitchen.value.id, q.lines[i]))
            && Shown(q.lines) >= kitchen.value.minOrder
    ensures var v := Validate(menu, kitchen, q);
            v.Accepted? ==> && v.restaurantId == kitchen.value.id && v.subtotal == Shown(q.lines) == SumOf(v.items)
                            && |v.items| == |q.lines|
                            && forall i :: 0 <= i < |q.lines| ==>
                                 AsShown(q.lines[i], v.items[i]) && NamedAs(menu, v.items[i])
  {
    if kitchen.Some? {
      if NoProblem(menu, kitchen.value.id, q.lines) {
        forall i | 0 <= i < |q.lines|
          ensures Sellable(menu, kitchen.value.id, q.lines[i])
        {
          assert LineProblem(menu, kitchen.value.id, q.lines[i]).None?;
        }
        PricedAsShown(menu, kitchen.value.id, q.lines);
      } else {
        var i :| 0 <= i < |q.lines| && LineProblem(menu, kitchen.value.id, q.lines[i]).Some?;
        assert !Sellable(menu, kitchen.value.id, q.lines[i]);
      }
    }
  }

  predicate NamedAs(menu: Menu, billed: ValidatedLine) {
    billed.itemId in menu && billed.name == menu[billed.itemId].name
  }

  /** The bill's line is the line shown: same item, quantity and price. */
  predicate AsShown(line: LineRequest, billed: ValidatedLine) {
    && (billed.itemId, billed.quantity, billed.unitPrice) == (line.itemId, line.quantity, line.unitPrice)
    && billed.lineTotal == line.unitPrice * line.quantity
  }

  /** The kitchen is switched on and, if it keeps a schedule, this minute of the week is in one of its
      windows. */
  predicate TakesOrders(kitchen: Kitchen, at: int) {
    kitchen.isOpen && (kitchen.schedule == [] || SomeActive(kitchen.schedule, at))
  }

  predicate OneRowADay(kitchen: Option<Kitchen>) {
    kitchen.Some? ==> UniqueDays(kitchen.value.schedule)
  }

  lemma OpenForIff(kitchen: Kitchen, q: Request)
    requires UniqueDays(kitchen.schedule)
    ensures OpenFor(kitchen, q) <==> TakesOrders(kitchen, q.at)
  {
    AcceptsAtIff(kitchen.isOpen, kitchen.schedule, q.at);
  }

  /** An order goes through exactly when the kitchen is on and within its hours, every line can be sold, the
      address is served and what was shown reaches the minimum; the bill is then what was shown. */
  lemma {:induction false} AcceptedIff(menu: Menu, kitchen: Option<Kitchen>, q: Request)
    requires OneRowADay(kitchen)
    ensures Validate(menu, kitchen, q).Accepted? <==>
            && kitchen.Some? && TakesOrders(kitchen.value, q.at) && q.lines != [] && q.serviceable
            && (forall i :: 0 <= i < |q.lines| ==> Sellable(menu, kitchen.value.id, q.lines[i]))
            && Shown(q.lines) >= kitchen.value.minOrder
    ensures var v := Validate(menu, kitchen, q);
            v.Accepted? ==> && v.restaurantId == kitchen.value.id && v.subtotal == Shown(q.lines) == SumOf(v.items)
                            && |v.items| == |q.lines|
                            && forall i :: 0 <= i < |q.lines| ==>
                                 AsShown(q.lines[i], v.items[i]) && NamedAs(menu, v.items[i])
  {
    AcceptedWhen(menu, kitchen, q);
    if kitchen.Some? {
      OpenForIff(kitchen.value, q);
    }
  }

  /** All of Sellable but the price. */
  predicate OnTheShelf(menu: Menu, restaurantId: int, line: LineRequest) {
    && line.itemId in menu
    && var item := menu[line.itemId];
       && item.restaurantId == restaurantId && item.available
       && (item.stock.Some? ==> line.quantity <= item.stock.value)
  }

  /** The first line that cannot be sold. */
  predicate FirstUnsellable(menu: Menu, restaurantId: int, lines: seq<LineRequest>, i: nat) {
    && i < |lines| && !Sellable(menu, restaurantId, lines[i])
    && forall j :: 0 <= j < i ==> Sellable(menu, restaurantId, lines[j])
  }

  lemma {:induction false} LineVerdict(menu: Menu, restaurantId: int, lines: seq<LineRequest>)
    ensures FirstProblem(menu, restaurantId, lines).None? <==>
            forall i :: 0 <= i < |lines| ==> Sellable(menu, restaurantId, lines[i])
    ensures FirstProblem(menu, restaurantId, lines).Some? ==>
              exists i: nat :: && FirstUnsellable(menu, restaurantId, lines, i)
                               && FirstProblem(menu, restaurantId, lines).value
                                  == if OnTheShelf(menu, restaurantId, lines[i]) then PriceMismatch else ItemOutOfStock
  {
    forall i | 0 <= i < |lines|
      ensures LineProblem(menu, restaurantId, lines[i]).None? <==> Sellable(menu, restaurantId, lines[i])
    {
    }
    if FirstProblem(menu, restaurantId, lines).Some? {
      FirstProblemIsFirst(menu, restaurantId, lines);
      var i :| && 0 <= i < |lines|
               && LineProblem(menu, restaurantId, lines[i]) == FirstProblem(menu, restaurantId, lines)
               && NoProblem(menu, restaurantId, lines[..i]);
      forall j | 0 <= j < i
        ensures Sellable(menu, restaurantId, lines[j])
      {
        assert lines[..i][j] == lines[j];
      }
      assert FirstUnsellable(menu, restaurantId, lines, i);
    }
  }

  /** Each refusal means one thing, in this order: no such restaurant, closed, nothing asked for, the first
      line that cannot be sold and why, not served there, too little. */
  lemma {:induction false} DeclinedIff(menu: Menu, kitchen: Option<Kitchen>, q: Request)
    requires OneRowADay(kitchen)
    ensures var v := Validate(menu, kitchen, q);
            && (v.NoSuchRestaurant? <==> kitchen.None?)
            && (kitchen.Some? ==>
                  var k := kitchen.value;
                  var open, fine := TakesOrders(k, q.at), forall i :: 0 <= i < |q.lines| ==> Sellable(menu, k.id, q.lines[i]);
                  && (v == Declined(RestaurantClosed) <==> !open)
                  && (v == Declined(EmptyCart) <==> open && q.lines == [])
                  && (open && !fine ==>
                        exists i: nat :: && FirstUnsellable(menu, k.id, q.lines, i)
                                         && v == Declined(if OnTheShelf(menu, k.id, q.lines[i]) then PriceMismatch
                                                          else ItemOutOfStock))
                  && (v == Declined(AddressOutOfZone) <==> open && q.lines != [] && fine && !q.serviceable)
                  && (v == Declined(MinOrderNotMet) <==>
                        open && q.lines != [] && fine && q.serviceable && Shown(q.lines) < k.minOrder))
  {
    AcceptedIff(menu, kitchen, q);
    if kitchen.Some? {
      OpenForIff(kitchen.value, q);
      LineVerdict(menu, kitchen.value.id, q.lines);
    }
  }

  /** Only an accepted request that reserves touches the menu. */
  lemma ProbeTakesNothing(menu: Menu, kitchen: Option<Kitchen>, q: Request)
    requires !q.reserve || !Validate(menu, kitchen, q).Accepted?
    ensures Reserved(menu, kitchen, q) == menu
  {
  }

  /** The customer hears about the first line that fails. */
  lemma {:induction false} FirstProblemIsFirst(menu: Menu, restaurantId: int, lines: seq<LineRequest>)
    requires FirstProblem(menu, restaurantId, lines).Some?
    ensures exists i :: && 0 <= i < |lines|
                        && LineProblem(menu, restaurantId, lines[i]) == FirstProblem(menu, restaurantId, lines)
                        && NoProblem(menu, restaurantId, lines[..i])
  {
    if LineProblem(menu, restaurantId, lines[0]).Some? {
      assert NoProblem(menu, restaurantId, lines[..0]);
    } else {
      FirstProblemIsFirst(menu, restaurantId, lines[1..]);
      var i :| && 0 <= i < |lines[1..]|
               && LineProblem(menu, restaurantId, lines[1..][i]) == FirstProblem(menu, restaurantId, lines[1..])
               && NoProblem(menu, restaurantId, lines[1..][..i]);
      assert lines[..i + 1] == [lines[0]] + lines[1..][..i];
      assert lines[1..][i] == lines[i + 1];
    }
  }

  // ---------------------------------------------------------------- out and back

  predicate PositiveLines(lines: seq<Portion>) {
    forall i :: 0 <= i < |lines| ==> lines[i].quantity >= 1
  }

  predicate OneLinePerItem(lines: seq<Portion>) {
    forall i, j :: 0 <= i < j < |lines| ==> lines[i].itemId != lines[j].itemId
  }

  /** Portions of an item the menu counts. */
  predicate Tracked(menu: Menu, id: int) {
    id in menu && menu[id].stock.Some?
  }

  ghost predicate StockNonNegative(menu: Menu) {
    forall id :: Tracked(menu, id) ==> menu[id].stock.value >= 0
  }

  lemma {:induction false} QuantityNonNegative(lines: seq<Portion>, id: int)
    requires PositiveLines(lines)
    ensures Quantity(lines, id) >= 0
    ensures Names(lines, id) <==> Quantity(lines, id) >= 1
  {
    if lines != [] {
      var init := lines[..|lines| - 1];
      QuantityNonNegative(init, id);
      if Names(lines, id) && lines[|lines| - 1].itemId != id {
        var i :| 0 <= i < |lines| && lines[i].itemId == id;
        assert init[i].itemId == id;
      }
      if Names(init, id) {
        var i :| 0 <= i < |init| && init[i].itemId == id;
        assert lines[i].itemId == id;
      }
    }
  }

  lemma {:induction false} OneLineIsTheQuantity(lines: seq<Portion>, k: nat)
    requires OneLinePerItem(lines) && k < |lines|
    ensures Quantity(lines, lines[k].itemId) == lines[k].quantity
  {
    var init, id := lines[..|lines| - 1], lines[k].itemId;
    if k < |init| {
      OneLineIsTheQuantity(init, k);
    } else {
      NotNamedIsZero(init, id);
    }
  }

  lemma {:induction false} NotNamedIsZero(lines: seq<Portion>, id: int)
    requires !Names(lines, id)
    ensures Quantity(lines, id) == 0
  {
    if lines != [] {
      var init := lines[..|lines| - 1];
      assert lines[|lines| - 1].itemId != id;
      NotNamedIsZero(init, id);
    }
  }

  /** What is not named or not counted stays as it is; a counted item that is named moves by all its lines
      together and never below zero; nothing but the count changes. */
  lemma MoveLaw(menu: Menu, lines: seq<Portion>, sign: int, id: int)
    requires id in menu
    ensures var n := Moved(menu, lines, sign);
            && n.Keys == menu.Keys && n[id].(stock := None) == menu[id].(stock := None)
            && (menu[id].stock.None? || (forall i :: 0 <= i < |lines| ==> lines[i].itemId != id) ==> n[id] == menu[id])
            && (menu[id].stock.Some? && Names(lines, id) ==>
                  n[id].stock.Some? && n[id].stock.value >= 0
                  && n[id].stock.value >= menu[id].stock.value + sign * Quantity(lines, id)
                  && (n[id].stock.value == 0 || n[id].stock.value == menu[id].stock.value + sign * Quantity(lines, id)))
  {
  }

  /** Reserving and releasing the same lines is the identity exactly when no counted item is asked for
      beyond its stock, all its lines together: the clamp at zero is what would not come back. */
  lemma {:induction false} RoundTripIff(menu: Menu, lines: seq<Portion>)
    requires PositiveLines(lines) && StockNonNegative(menu)
    ensures Moved(Moved(menu, lines, -1), lines, 1) == menu
            <==> forall id :: Tracked(menu, id) ==> Quantity(lines, id) <= menu[id].stock.value
  {
    var back := Moved(Moved(menu, lines, -1), lines, 1);
    forall id | id in menu
      ensures back[id] == menu[id] <==> (Tracked(menu, id) ==> Quantity(lines, id) <= menu[id].stock.value)
    {
      QuantityNonNegative(lines, id);
    }
    if back == menu {
      forall id | Tracked(menu, id)
        ensures Quantity(lines, id) <= menu[id].stock.value
      {
        assert back[id] == menu[id];
      }
    }
  }

  /** Lines that a cart can hold, one per item, are never clamped once validated. */
  lemma {:induction false} ValidatedFits(menu: Menu, kitchen: Option<Kitchen>, q: Request, id: int)
    requires Validate(menu, kitchen, q).Accepted? && StockNonNegative(menu) && Tracked(menu, id)
    requires OneLinePerItem(Portions(Validate(menu, kitchen, q).items))
    ensures Quantity(Portions(Validate(menu, kitchen, q).items), id) <= menu[id].stock.value
  {
    AcceptedWhen(menu, kitchen, q);
    var items := Validate(menu, kitchen, q).items;
    var lines := Portions(items);
    if Names(lines, id) {
      var k :| 0 <= k < |lines| && lines[k].itemId == id;
      OneLineIsTheQuantity(lines, k);
      assert Sellable(menu, kitchen.value.id, q.lines[k]);
      assert AsShown(q.lines[k], items[k]);
    } else {
      NotNamedIsZero(lines, id);
    }
  }

  // ---------------------------------------------------------------- whole runs

  /** An order's portions, and whether its one release has happened. */
  datatype Reservation = Reservation(lines: seq<Portion>, released: bool)

  datatype Shop = Shop(menu: Menu, orders: seq<Reservation>)

  /** Owners may edit anything but the count; a release may be lost, but is not repeated. */
  datatype ShopStep =
    | Reserve(kitchen: Option<Kitchen>, request: Request)
    | Release(order: nat)
    | Edit(id: int, name: string, price: int, available: bool)

  function After(s: Shop, step: ShopStep): Shop {
    match step
    case Reserve(kitchen, q) =>
      var v := Validate(s.menu, kitchen, q);
      if v.Accepted? && q.reserve then
        Shop(Reserved(s.menu, kitchen, q), s.orders + [Reservation(Portions(v.items), false)])
      else s
    case Release(k) =>
      if k < |s.orders| && !s.orders[k].released then
        Shop(Moved(s.menu, s.orders[k].lines, 1), s.orders[k := s.orders[k].(released := true)])
      else s
    case Edit(id, name, price, available) =>
      if id in s.menu then
        s.(menu := s.menu[id := s.menu[id].(name := name, price := price, available := available)])
      else s
  }

  function AfterAll(s: Shop, steps: seq<ShopStep>): Shop {
    if steps == [] then s else After(AfterAll(s, steps[..|steps| - 1]), steps[|steps| - 1])
  }

  /** Portions of an item reserved and not released. */
  function Out(orders: seq<Reservation>, id: int): int {
    if orders == [] then 0
    else
      var last := orders[|orders| - 1];
      Out(orders[..|orders| - 1], id) + if last.released then 0 else Quantity(last.lines, id)
  }

  /** Portions a step hands out that were not there: what the clamp swallows. */
  function OversoldBy(s: Shop, step: ShopStep, id: int): nat {
    match step
    case Reserve(kitchen, q) =>
      var v := Validate(s.menu, kitchen, q);
      if v.Accepted? && q.reserve && Tracked(s.menu, id) then
        AtLeastZero(Quantity(Portions(v.items), id) - s.menu[id].stock.value)
      else 0
    case _ => 0
  }

  function Oversold(s: Shop, steps: seq<ShopStep>, id: int): nat {
    if steps == [] then 0
    else
      var init := steps[..|steps| - 1];
      Oversold(s, init, id) + OversoldBy(AfterAll(s, init), steps[|steps| - 1], id)
  }

  predicate PositiveStep(step: ShopStep) {
    step.Reserve? ==> forall i :: 0 <= i < |step.request.lines| ==> step.request.lines[i].quantity >= 1
  }

  predicate PositiveOrders(orders: seq<Reservation>) {
    forall k :: 0 <= k < |orders| ==> PositiveLines(orders[k].lines)
  }

  ghost predicate ShopValid(s: Shop) {
    StockNonNegative(s.menu) && PositiveOrders(s.orders)
  }

  lemma {:induction false} OutReleased(orders: seq<Reservation>, k: nat, id: int)
    requires k < |orders| && !orders[k].released
    ensures Out(orders[k := orders[k].(released := true)], id) == Out(orders, id) - Quantity(orders[k].lines, id)
  {
    var after := orders[k := orders[k].(released := true)];
    if k == |orders| - 1 {
      assert after[..k] == orders[..k];
    } else {
      OutReleased(orders[..|orders| - 1], k, id);
      assert after[..|orders| - 1] == orders[..|orders| - 1][k := orders[k].(released := true)];
    }
  }

  lemma {:induction false} MoveBalance(menu: Menu, lines: seq<Portion>, sign: int, id: int)
    requires PositiveLines(lines) && StockNonNegative(menu) && (sign == 1 || sign == -1)
    ensures StockNonNegative(Moved(menu, lines, sign))
    ensures Tracked(Moved(menu, lines, sign), id) <==> Tracked(menu, id)
    ensures Tracked(menu, id) ==>
              Moved(menu, lines, sign)[id].stock.value == AtLeastZero(menu[id].stock.value + sign * Quantity(lines, id))
  {
    QuantityNonNegative(lines, id);
  }

  /** What one step does to an item's books. */
  ghost predicate Balances(s: Shop, step: ShopStep, id: int) {
    var n := After(s, step);
    && (Tracked(n.menu, id) <==> Tracked(s.menu, id))
    && (Tracked(s.menu, id) ==>
          n.menu[id].stock.value + Out(n.orders, id)
          == s.menu[id].stock.value + Out(s.orders, id) + OversoldBy(s, step, id))
  }

  lemma {:induction false} AcceptedPositive(menu: Menu, kitchen: Option<Kitchen>, q: Request)
    requires Validate(menu, kitchen, q).Accepted?
    requires forall i :: 0 <= i < |q.lines| ==> q.lines[i].quantity >= 1
    ensures PositiveLines(Portions(Validate(menu, kitchen, q).items))
  {
    AcceptedWhen(menu, kitchen, q);
    var items := Validate(menu, kitchen, q).items;
    forall i | 0 <= i < |items|
      ensures Portions(items)[i].quantity >= 1
    {
      assert AsShown(q.lines[i], items[i]);
    }
  }

  lemma {:induction false} OutReserved(orders: seq<Reservation>, lines: seq<Portion>, id: int)
    ensures Out(orders + [Reservation(lines, false)], id) == Out(orders, id) + Quantity(lines, id)
  {
    assert (orders + [Reservation(lines, false)])[..|orders|] == orders;
  }

  lemma {:induction false} ReserveBalances(s: Shop, step: ShopStep, id: int)
    requires ShopValid(s) && PositiveStep(step) && step.Reserve?
    ensures ShopValid(After(s, step)) && Balances(s, step, id)
  {
    var v := Validate(s.menu, step.kitchen, step.request);
    if v.Accepted? && step.request.reserve {
      AcceptedPositive(s.menu, step.kitchen, step.request);
      MoveBalance(s.menu, Portions(v.items), -1, id);
      OutReserved(s.orders, Portions(v.items), id);
    }
  }

  lemma {:induction false} ReleaseBalances(s: Shop, k: nat, id: int)
    requires ShopValid(s)
    ensures ShopValid(After(s, Release(k))) && Balances(s, Release(k), id)
  {
    if k < |s.orders| && !s.orders[k].released {
      MoveBalance(s.menu, s.orders[k].lines, 1, id);
      QuantityNonNegative(s.orders[k].lines, id);
      OutReleased(s.orders, k, id);
    }
  }

  lemma {:induction false} StepBalances(s: Shop, step: ShopStep, id: int)
    requires ShopValid(s) && PositiveStep(step)
    ensures ShopValid(After(s, step)) && Balances(s, step, id)
  {
    match step
    case Reserve(_, _) => ReserveBalances(s, step, id);
    case Release(k) => ReleaseBalances(s, k, id);
    case Edit(_, _, _, _) =>
  }

  /** The books of every run, from any menu and with no orders yet: what is on the shelf and what is
      reserved add up to the opening stock plus what was oversold, and the shelf is never negative. */
  lemma {:induction false} StockLedger(menu: Menu, steps: seq<ShopStep>, id: int)
    requires StockNonNegative(menu) && Tracked(menu, id)
    requires forall i :: 0 <= i < |steps| ==> PositiveStep(steps[i])
    ensures var s := AfterAll(Shop(menu, []), steps);
            && ShopValid(s) && Tracked(s.menu, id) && s.menu[id].stock.value >= 0
            && s.menu[id].stock.value + Out(s.orders, id)
               == menu[id].stock.value + Oversold(Shop(menu, []), steps, id)
  {
    if steps != [] {
      var init := steps[..|steps| - 1];
      StockLedger(menu, init, id);
      StepBalances(AfterAll(Shop(menu, []), init), steps[|steps| - 1], id);
    }
  }

  /** A request the cart can build. */
  predicate CartBuilt(step: ShopStep) {
    step.Reserve? ==>
      forall i, j :: 0 <= i < j < |step.request.lines| ==> step.request.lines[i].itemId != step.request.lines[j].itemId
  }

  lemma {:induction false} CartBuiltNotOversold(s: Shop, step: ShopStep, id: int)
    requires ShopValid(s) && CartBuilt(step)
    ensures OversoldBy(s, step, id) == 0
  {
    if step.Reserve? {
      var v := Validate(s.menu, step.kitchen, step.request);
      if v.Accepted? && Tracked(s.menu, id) {
        AcceptedWhen(s.menu, step.kitchen, step.request);
        forall i, j | 0 <= i < j < |v.items|
          ensures Portions(v.items)[i].itemId != Portions(v.items)[j].itemId
        {
          assert AsShown(step.request.lines[i], v.items[i]) && AsShown(step.request.lines[j], v.items[j]);
        }
        ValidatedFits(s.menu, step.kitchen, step.request, id);
      }
    }
  }

  /** Conservation: with cart-built requests nothing is ever oversold, so shelf and reservations always
      add up to the opening stock. */
  lemma {:induction false} StockConserved(menu: Menu, steps: seq<ShopStep>, id: int)
    requires StockNonNegative(menu) && Tracked(menu, id)
    requires forall i :: 0 <= i < |steps| ==> PositiveStep(steps[i]) && CartBuilt(steps[i])
    ensures var s := AfterAll(Shop(menu, []), steps);
            && Tracked(s.menu, id) && s.menu[id].stock.value >= 0
            && s.menu[id].stock.value + Out(s.orders, id) == menu[id].stock.value
  {
    StockLedger(menu, steps, id);
    NothingOversold(menu, steps, id);
  }

  lemma {:induction false} NothingOversold(menu: Menu, steps: seq<ShopStep>, id: int)
    requires StockNonNegative(menu) && Tracked(menu, id)
    requires forall i :: 0 <= i < |steps| ==> PositiveStep(steps[i]) && CartBuilt(steps[i])
    ensures Oversold(Shop(menu, []), steps, id) == 0
  {
    if steps != [] {
      var init := steps[..|steps| - 1];
      NothingOversold(menu, init, id);
      StockLedger(menu, init, id);
      CartBuiltNotOversold(AfterAll(Shop(menu, []), init), steps[|steps| - 1], id);
    }
  }

  lemma TwoLines(a: Portion, b: Portion, id: int)
    requires a.itemId == id && b.itemId == id
    ensures Quantity([a, b], id) == a.quantity + b.quantity && Names([a, b], id)
  {
    assert [a, b][..1] == [a] && [a][..0] == [];
    assert Quantity([a], id) == a.quantity;
    assert [a, b][0].itemId == id;
  }

  /** Without that, two lines of one item each pass the check on their own: five portions are sold as
      six, and the release puts six back. */
  lemma SplitLinesOversell()
    ensures var menu := map[7 := MenuItem(1, "dosa", 100, true, Some(5))];
            var lines := [LineRequest(7, 3, 100), LineRequest(7, 3, 100)];
            var s := Shop(menu, []);
            var step := Reserve(Some(Kitchen(1, true, [], 0)), Request(lines, true, true, 0));
            && OversoldBy(s, step, 7) == 1
            && After(s, step).menu[7].stock == Some(0)
            && After(After(s, step), Release(0)).menu[7].stock == Some(6)
  {
    var menu := map[7 := MenuItem(1, "dosa", 100, true, Some(5))];
    var lines := [LineRequest(7, 3, 100), LineRequest(7, 3, 100)];
    SplitLinesAccepted(menu, Some(Kitchen(1, true, [], 0)), lines);
    TwoLines(Portion(7, 3), Portion(7, 3), 7);
  }

  lemma SplitLinesAccepted(menu: Menu, kitchen: Option<Kitchen>, lines: seq<LineRequest>)
    requires menu == map[7 := MenuItem(1, "dosa", 100, true, Some(5))] && kitchen == Some(Kitchen(1, true, [], 0))
    requires lines == [LineRequest(7, 3, 100), LineRequest(7, 3, 100)]
    ensures var v := Validate(menu, kitchen, Request(lines, true, true, 0));
            v.Accepted? && Portions(v.items) == [Portion(7, 3), Portion(7, 3)]
  {
    assert forall i :: 0 <= i < |lines| ==> Sellable(menu, 1, lines[i]);
    var one := [LineRequest(7, 3, 100)];
    assert one[..0] == [] && Shown(one[..0]) == 0;
    assert Shown(one) == 300;
    assert lines[..1] == one;
    assert Shown(lines) == 600;
    var q := Request(lines, true, true, 0);
    AcceptedWhen(menu, kitchen, q);
    var items := Validate(menu, kitchen, q).items;
    assert AsShown(lines[0], items[0]) && AsShown(lines[1], items[1]);
  }
}
