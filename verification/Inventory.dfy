/** Menu stock and the one call that validates an order and reserves it
    (services/restaurants/app/inventory.py, services/restaurants/app/internal.py). */
module Inventory {
  import opened Prelude
  import opened Hours

  /** No stock count means the item is not tracked. */
  datatype MenuItem = MenuItem(restaurantId: int, name: string, price: int, available: bool, stock: Option<int>)

  type Menu = map<int, MenuItem>

  datatype Portion = Portion(itemId: int, quantity: int)

  datatype LineRequest = LineRequest(itemId: int, quantity: int, unitPrice: int)

  datatype ValidatedLine = ValidatedLine(itemId: int, name: string, unitPrice: int, quantity: int, lineTotal: int)

  datatype Kitchen = Kitchen(id: int, isOpen: bool, schedule: seq<DayRow>, minOrder: int)

  /** A validation request, with the minute of the week it arrives at and whether the kitchen serves
      the address. */
  datatype Request = Request(lines: seq<LineRequest>, serviceable: bool, reserve: bool, at: int)

  datatype Code = RestaurantClosed | EmptyCart | ItemOutOfStock | PriceMismatch | AddressOutOfZone | MinOrderNotMet

  datatype Verdict =
    | NoSuchRestaurant
    | Declined(code: Code)
    | Accepted(restaurantId: int, items: seq<ValidatedLine>, subtotal: int)

  // ---------------------------------------------------------------- stock movement

  predicate Shortfall(item: MenuItem, quantity: int) {
    item.stock.Some? && item.stock.value < quantity
  }

  /** How much of an item some lines ask for, all lines of it together. */
  function Quantity(lines: seq<Portion>, id: int): int {
    if lines == [] then 0
    else
      var last := lines[|lines| - 1];
      Quantity(lines[..|lines| - 1], id) + if last.itemId == id then last.quantity else 0
  }

  predicate Names(lines: seq<Portion>, id: int) {
    exists i :: 0 <= i < |lines| && lines[i].itemId == id
  }

  function AtLeastZero(n: int): int {
    if n < 0 then 0 else n
  }

  function MovedItem(item: MenuItem, lines: seq<Portion>, id: int, sign: int): MenuItem {
    if item.stock.None? || !Names(lines, id) then item
    else item.(stock := Some(AtLeastZero(item.stock.value + sign * Quantity(lines, id))))
  }

  function Moved(menu: Menu, lines: seq<Portion>, sign: int): Menu {
    map id | id in menu :: MovedItem(menu[id], lines, id, sign)
  }

  // ---------------------------------------------------------------- validation

  function LineProblem(menu: Menu, restaurantId: int, line: LineRequest): Option<Code> {
    if line.itemId !in menu || menu[line.itemId].restaurantId != restaurantId || !menu[line.itemId].available then
      Some(ItemOutOfStock)
    else if Shortfall(menu[line.itemId], line.quantity) then Some(ItemOutOfStock)
    else if menu[line.itemId].price != line.unitPrice then Some(PriceMismatch)
    else None
  }

  /** The first line's problem decides. */
  function FirstProblem(menu: Menu, restaurantId: int, lines: seq<LineRequest>): (r: Option<Code>)
    ensures r.None? <==> NoProblem(menu, restaurantId, lines)
  {
    if lines == [] then None
    else
      var p := LineProblem(menu, restaurantId, lines[0]);
      if p.Some? then p
      else
        assert lines == [lines[0]] + lines[1..];
        FirstProblem(menu, restaurantId, lines[1..])
  }

  predicate NoProblem(menu: Menu, restaurantId: int, lines: seq<LineRequest>) {
    forall i :: 0 <= i < |lines| ==> LineProblem(menu, restaurantId, lines[i]).None?
  }

  predicate AllOnMenu(menu: Menu, lines: seq<LineRequest>) {
    forall i :: 0 <= i < |lines| ==> lines[i].itemId in menu
  }

  function Priced(item: MenuItem, line: LineRequest): ValidatedLine {
    ValidatedLine(line.itemId, item.name, item.price, line.quantity, item.price * line.quantity)
  }

  function PricedLines(menu: Menu, lines: seq<LineRequest>): seq<ValidatedLine>
    requires AllOnMenu(menu, lines)
  {
    seq(|lines|, i requires 0 <= i < |lines| => Priced(menu[lines[i].itemId], lines[i]))
  }

  function SumOf(lines: seq<ValidatedLine>): int {
    if lines == [] then 0 else SumOf(lines[..|lines| - 1]) + lines[|lines| - 1].lineTotal
  }

  function Portions(lines: seq<ValidatedLine>): seq<Portion> {
    seq(|lines|, i requires 0 <= i < |lines| => Portion(lines[i].itemId, lines[i].quantity))
  }

  predicate OpenFor(kitchen: Kitchen, q: Request) {
    kitchen.isOpen && AcceptsAt(kitchen.isOpen, kitchen.schedule, q.at)
  }

  function Validate(menu: Menu, kitchen: Option<Kitchen>, q: Request): Verdict {
    if kitchen.None? then NoSuchRestaurant
    else if !OpenFor(kitchen.value, q) then Declined(RestaurantClosed)
    else if q.lines == [] then Declined(EmptyCart)
    else
      var problem := FirstProblem(menu, kitchen.value.id, q.lines);
      if problem.Some? then Declined(problem.value)
      else
        var items := PricedLines(menu, q.lines);
        if !q.serviceable then Declined(AddressOutOfZone)
        else if SumOf(items) < kitchen.value.minOrder then Declined(MinOrderNotMet)
        else Accepted(kitchen.value.id, items, SumOf(items))
  }

  /** The menu after a validation request. */
  function Reserved(menu: Menu, kitchen: Option<Kitchen>, q: Request): Menu {
    match Validate(menu, kitchen, q)
    case Accepted(_, items, _) => if q.reserve then Moved(menu, Portions(items), -1) else menu
    case _ => menu
  }

  // ---------------------------------------------------------------- the service

  class Stockroom {
    var menu: Menu

    constructor (menu: Menu)
      ensures this.menu == menu
    {
      this.menu := menu;
    }

    method Move(lines: seq<Portion>, sign: int)
      modifies this
      ensures menu == Moved(old(menu), lines, sign)
    {
      var wanted := TotalUp(lines);
      var todo := (set id | id in wanted && id in menu);
      ghost var before := menu;
      while todo != {}
        invariant menu.Keys == before.Keys
        invariant todo <= menu.Keys
        invariant forall id :: id in todo ==> Names(lines, id) && menu[id] == before[id]
        invariant forall id :: id in menu && id !in todo ==> menu[id] == MovedItem(before[id], lines, id, sign)
        decreases |todo|
      {
        HasMember(todo);
        var id :| id in todo;
        if menu[id].stock.Some? {
          var left := AtLeastZero(menu[id].stock.value + sign * wanted[id]);
          menu := menu[id := menu[id].(stock := Some(left))];
        }
        todo := todo - {id};
      }
    }

    method ApplyOrder(lines: seq<Portion>)
      modifies this
      ensures menu == Moved(old(menu), lines, -1)
    {
      Move(lines, -1);
    }

    method RestoreOrder(lines: seq<Portion>)
      modifies this
      ensures menu == Moved(old(menu), lines, 1)
    {
      Move(lines, 1);
    }

    method ValidateOrder(kitchen: Option<Kitchen>, q: Request) returns (v: Verdict)
      modifies this
      ensures v == Validate(old(menu), kitchen, q)
      ensures menu == Reserved(old(menu), kitchen, q)
    {
      if kitchen.None? {
        return NoSuchRestaurant;
      }
      if !OpenFor(kitchen.value, q) {
        return Declined(RestaurantClosed);
      }
      if q.lines == [] {
        return Declined(EmptyCart);
      }
      var problem, validated, subtotal := CheckLines(menu, kitchen.value.id, q.lines);
      if problem.Some? {
        return Declined(problem.value);
      }
      if !q.serviceable {
        return Declined(AddressOutOfZone);
      }
      if subtotal < kitchen.value.minOrder {
        return Declined(MinOrderNotMet);
      }
      if q.reserve {
        ApplyOrder(Portions(validated));
      }
      return Accepted(kitchen.value.id, validated, subtotal);
    }
  }

  /** The quantity dictionary: every item named, with the sum of its lines. */
  method TotalUp(lines: seq<Portion>) returns (wanted: map<int, int>)
    ensures forall id :: id in wanted <==> Names(lines, id)
    ensures forall id :: id in wanted ==> wanted[id] == Quantity(lines, id)
  {
    var ids := set line | line in lines :: line.itemId;
    wanted := map id | id in ids :: 0;
    for k := 0 to |lines|
      invariant forall id :: id in wanted <==> Names(lines, id)
      invariant forall id :: id in wanted ==> wanted[id] == Quantity(lines[..k], id)
    {
      assert lines[..k + 1][..k] == lines[..k];
      assert Names(lines, lines[k].itemId);
      wanted := wanted[lines[k].itemId := wanted[lines[k].itemId] + lines[k].quantity];
    }
    assert lines[..|lines|] == lines;
  }

  lemma OneMorePriced(menu: Menu, lines: seq<LineRequest>, k: nat)
    requires k < |lines| && AllOnMenu(menu, lines[..k]) && lines[k].itemId in menu
    ensures AllOnMenu(menu, lines[..k + 1])
    ensures PricedLines(menu, lines[..k + 1]) == PricedLines(menu, lines[..k]) + [Priced(menu[lines[k].itemId], lines[k])]
    ensures SumOf(PricedLines(menu, lines[..k + 1]))
            == SumOf(PricedLines(menu, lines[..k])) + Priced(menu[lines[k].itemId], lines[k]).lineTotal
  {
    assert lines[..k + 1] == lines[..k] + [lines[k]];
    assert PricedLines(menu, lines[..k + 1])[..k] == PricedLines(menu, lines[..k]);
  }

  /** The line loop: stops at the first problem, otherwise prices every line and adds them up. */
  method CheckLines(menu: Menu, restaurantId: int, lines: seq<LineRequest>)
    returns (problem: Option<Code>, validated: seq<ValidatedLine>, subtotal: int)
    ensures problem == FirstProblem(menu, restaurantId, lines)
    ensures problem.None? ==>
              AllOnMenu(menu, lines) && validated == PricedLines(menu, lines) && subtotal == SumOf(validated)
  {
    validated, subtotal := [], 0;
    for k := 0 to |lines|
      invariant FirstProblem(menu, restaurantId, lines) == FirstProblem(menu, restaurantId, lines[k..])
      invariant AllOnMenu(menu, lines[..k]) && validated == PricedLines(menu, lines[..k])
      invariant subtotal == SumOf(validated)
    {
      assert lines[k..][1..] == lines[k + 1..];
      problem := LineProblem(menu, restaurantId, lines[k]);
      if problem.Some? {
        return;
      }
      var line := Priced(menu[lines[k].itemId], lines[k]);
      OneMorePriced(menu, lines, k);
      validated, subtotal := validated + [line], subtotal + line.lineTotal;
    }
    assert lines[..|lines|] == lines;
    problem := None;
  }
}
