/** The customer's cart: stored lines, and the view built from them (services/orders/app/cart.py). */
module Cart {
  import opened Prelude
  import opened Inventory

  datatype CartLine = CartLine(name: string, unitPrice: int, quantity: int)

  /** The price fingerprint is kept as what is hashed: item ids and unit prices, in order. */
  datatype CartView = CartView(
    restaurantId: Option<int>, items: seq<ValidatedLine>, subtotal: int, fingerprint: seq<(int, int)>)

  datatype CartError = NoSuchItem | ItemUnavailable | OtherRestaurant

  function ItemView(id: int, line: CartLine): ValidatedLine {
    ValidatedLine(id, line.name, line.unitPrice, line.quantity, line.unitPrice * line.quantity)
  }

  function Fingerprint(items: seq<ValidatedLine>): seq<(int, int)> {
    seq(|items|, i requires 0 <= i < |items| => (items[i].itemId, items[i].unitPrice))
  }

  predicate Ascending(items: seq<ValidatedLine>) {
    forall i, j :: 0 <= i < j < |items| ==> items[i].itemId < items[j].itemId
  }

  /** The lines of a view are exactly the stored ones, one per item, by item id. */
  predicate ShowsExactly(lines: map<int, CartLine>, items: seq<ValidatedLine>) {
    && Ascending(items)
    && (forall i :: 0 <= i < |items| ==>
          items[i].itemId in lines && items[i] == ItemView(items[i].itemId, lines[items[i].itemId]))
    && (forall id :: id in lines ==> ItemView(id, lines[id]) in items)
  }

  predicate IsView(restaurantId: Option<int>, lines: map<int, CartLine>, v: CartView) {
    && ShowsExactly(lines, v.items)
    && v.subtotal == SumOf(v.items)
    && v.fingerprint == Fingerprint(v.items)
    && v.restaurantId == if lines == map[] then None else restaurantId
  }

  lemma SameMembers(lines: map<int, CartLine>, a: seq<ValidatedLine>, b: seq<ValidatedLine>)
    requires ShowsExactly(lines, a) && ShowsExactly(lines, b)
    ensures forall x :: x in a ==> x in b
  {
    forall x | x in a
      ensures x in b
    {
      var i :| 0 <= i < |a| && a[i] == x;
      assert a[i].itemId in lines;
    }
  }

  lemma SameLast(lines: map<int, CartLine>, a: seq<ValidatedLine>, b: seq<ValidatedLine>)
    requires ShowsExactly(lines, a) && ShowsExactly(lines, b) && a != [] && b != []
    ensures a[|a| - 1] == b[|b| - 1]
  {
    SameMembers(lines, a, b);
    SameMembers(lines, b, a);
    var i :| 0 <= i < |b| && b[i] == a[|a| - 1];
    var j :| 0 <= j < |a| && a[j] == b[|b| - 1];
    assert b[i].itemId <= b[|b| - 1].itemId && a[j].itemId <= a[|a| - 1].itemId;
  }

  /** Two ascending sequences over the same lines are the same: a stored cart has one view. */
  lemma {:induction false} ViewUnique(lines: map<int, CartLine>, a: seq<ValidatedLine>, b: seq<ValidatedLine>)
    requires ShowsExactly(lines, a) && ShowsExactly(lines, b)
    ensures a == b
    decreases |a|
  {
    SameMembers(lines, a, b);
    SameMembers(lines, b, a);
    assert |a| > 0 ==> a[0] in a;
    assert |b| > 0 ==> b[0] in b;
    if a != [] {
      SameLast(lines, a, b);
      WithoutLast(lines, a);
      WithoutLast(lines, b);
      ViewUnique(lines - {a[|a| - 1].itemId}, a[..|a| - 1], b[..|b| - 1]);
      assert a == a[..|a| - 1] + [a[|a| - 1]] && b == b[..|b| - 1] + [b[|b| - 1]];
    }
  }

  lemma {:induction false} WithoutLast(lines: map<int, CartLine>, a: seq<ValidatedLine>)
    requires ShowsExactly(lines, a) && a != []
    ensures ShowsExactly(lines - {a[|a| - 1].itemId}, a[..|a| - 1])
  {
    var init, last := a[..|a| - 1], a[|a| - 1].itemId;
    var rest := lines - {last};
    forall id | id in rest
      ensures ItemView(id, rest[id]) in init
    {
      assert ItemView(id, lines[id]) in a;
      var i :| 0 <= i < |a| && a[i] == ItemView(id, lines[id]);
      assert a[i].itemId == id && i < |a| - 1;
      assert init[i] == a[i];
    }
  }

  // ---------------------------------------------------------------- sorting the view

  predicate NonDescending(items: seq<ValidatedLine>) {
    forall i, j :: 0 <= i < j < |items| ==> items[i].itemId <= items[j].itemId
  }

  function InsertById(items: seq<ValidatedLine>, x: ValidatedLine): seq<ValidatedLine> {
    if items == [] || items[|items| - 1].itemId <= x.itemId then items + [x]
    else InsertById(items[..|items| - 1], x) + [items[|items| - 1]]
  }

  function SortById(items: seq<ValidatedLine>): seq<ValidatedLine> {
    if items == [] then [] else InsertById(SortById(items[..|items| - 1]), items[|items| - 1])
  }

  lemma {:induction false} InsertBounded(items: seq<ValidatedLine>, x: ValidatedLine, high: int)
    requires x.itemId <= high && forall i :: 0 <= i < |items| ==> items[i].itemId <= high
    ensures forall i :: 0 <= i < |InsertById(items, x)| ==> InsertById(items, x)[i].itemId <= high
  {
    if items != [] && items[|items| - 1].itemId > x.itemId {
      InsertBounded(items[..|items| - 1], x, high);
    }
  }

  lemma {:induction false} InsertOrdered(items: seq<ValidatedLine>, x: ValidatedLine)
    requires NonDescending(items)
    ensures NonDescending(InsertById(items, x))
  {
    if items != [] && items[|items| - 1].itemId > x.itemId {
      var init, last := items[..|items| - 1], items[|items| - 1];
      InsertOrdered(init, x);
      InsertBounded(init, x, last.itemId);
    }
  }

  lemma {:induction false} InsertKeeps(items: seq<ValidatedLine>, x: ValidatedLine)
    ensures multiset(InsertById(items, x)) == multiset(items) + multiset{x}
  {
    if items != [] && items[|items| - 1].itemId > x.itemId {
      var init, last := items[..|items| - 1], items[|items| - 1];
      InsertKeeps(init, x);
      assert items == init + [last];
    }
  }

  lemma {:induction false} SortSorts(items: seq<ValidatedLine>)
    ensures NonDescending(SortById(items)) && multiset(SortById(items)) == multiset(items)
  {
    if items != [] {
      var init, last := items[..|items| - 1], items[|items| - 1];
      SortSorts(init);
      InsertOrdered(SortById(init), last);
      InsertKeeps(SortById(init), last);
      assert items == init + [last];
    }
  }

  /** Each stored line appended once. */
  ghost predicate Collected(lines: map<int, CartLine>, todo: set<int>, items: seq<ValidatedLine>) {
    && todo <= lines.Keys
    && (forall i :: 0 <= i < |items| ==> && items[i].itemId in lines && items[i].itemId !in todo
                                         && items[i] == ItemView(items[i].itemId, lines[items[i].itemId]))
    && (forall id :: id in lines && id !in todo ==> multiset(items)[ItemView(id, lines[id])] == 1)
  }

  lemma CollectOne(lines: map<int, CartLine>, todo: set<int>, items: seq<ValidatedLine>, id: int)
    requires Collected(lines, todo, items) && id in todo
    ensures Collected(lines, todo - {id}, items + [ItemView(id, lines[id])])
  {
    assert ItemView(id, lines[id]) !in items;
  }

  lemma SortedCollection(lines: map<int, CartLine>, items: seq<ValidatedLine>)
    requires Collected(lines, {}, items)
    ensures ShowsExactly(lines, SortById(items))
  {
    var sorted := SortById(items);
    SortSorts(items);
    forall i | 0 <= i < |sorted|
      ensures sorted[i].itemId in lines && sorted[i] == ItemView(sorted[i].itemId, lines[sorted[i].itemId])
    {
      assert sorted[i] in multiset(items);
    }
    forall id | id in lines
      ensures ItemView(id, lines[id]) in sorted
    {
      assert multiset(sorted)[ItemView(id, lines[id])] == 1;
    }
    forall i, j | 0 <= i < j < |sorted|
      ensures sorted[i].itemId < sorted[j].itemId
    {
      if sorted[i].itemId == sorted[j].itemId {
        TwiceCounted(sorted, i, j);
      }
    }
  }

  lemma TwiceCounted(s: seq<ValidatedLine>, i: nat, j: nat)
    requires i < j < |s| && s[i] == s[j]
    ensures multiset(s)[s[i]] >= 2
  {
    assert s == s[..j] + s[j..];
    assert s[i] in s[..j] && s[j..][0] == s[i];
    assert multiset(s) == multiset(s[..j]) + multiset(s[j..]);
  }

  /** The stored lines in whatever order the dictionary yields them. */
  method Collect(lines: map<int, CartLine>) returns (items: seq<ValidatedLine>)
    ensures Collected(lines, {}, items)
  {
    items := [];
    var todo := lines.Keys;
    while todo != {}
      invariant Collected(lines, todo, items)
      decreases |todo|
    {
      HasMember(todo);
      var id :| id in todo;
      CollectOne(lines, todo, items, id);
      items := items + [ItemView(id, lines[id])];
      todo := todo - {id};
    }
  }

  method AddUp(items: seq<ValidatedLine>) returns (subtotal: int)
    ensures subtotal == SumOf(items)
  {
    subtotal := 0;
    for k := 0 to |items|
      invariant subtotal == SumOf(items[..k])
    {
      assert items[..k + 1][..k] == items[..k];
      subtotal := subtotal + items[k].lineTotal;
    }
    assert items[..|items|] == items;
  }

  // ---------------------------------------------------------------- the stored cart

  class Basket {
    var restaurantId: Option<int>
    var lines: map<int, CartLine>

    ghost predicate Valid()
      reads this
    {
      && (lines == map[] <==> restaurantId.None?)
      && forall id :: id in lines ==> lines[id].quantity >= 1
    }

    constructor ()
      ensures Valid() && lines == map[]
    {
      restaurantId, lines := None, map[];
    }

    /** Name and price are captured as the menu has them now, also for an item already in the cart. */
    method AddItem(id: int, quantity: int, found: Option<MenuItem>) returns (r: Outcome<CartError>)
      requires Valid() && quantity >= 1
      modifies this
      ensures Valid()
      ensures r == if found.None? then Refused(NoSuchItem)
                   else if !found.value.available then Refused(ItemUnavailable)
                   else if old(restaurantId) != None && old(restaurantId) != Some(found.value.restaurantId)
                   then Refused(OtherRestaurant)
                   else Done
      ensures r.Refused? ==> unchanged(this)
      ensures r.Done? ==>
                && restaurantId == Some(found.value.restaurantId)
                && lines == old(lines)[id := CartLine(
                                              found.value.name, found.value.price,
                                              (if id in old(lines) then old(lines)[id].quantity else 0) + quantity)]
    {
      if found.None? {
        return Refused(NoSuchItem);
      }
      var item := found.value;
      if !item.available {
        return Refused(ItemUnavailable);
      }
      if restaurantId.Some? && restaurantId.value != item.restaurantId {
        return Refused(OtherRestaurant);
      }
      restaurantId := Some(item.restaurantId);
      var soFar := if id in lines then lines[id].quantity else 0;
      lines := lines[id := CartLine(item.name, item.price, soFar + quantity)];
      return Done;
    }

    /** Sets a quantity; zero removes the line, and removing the last one frees the cart for another
        restaurant. */
    method UpdateItem(id: int, quantity: int) returns (r: Outcome<CartError>)
      requires Valid()
      modifies this
      ensures Valid()
      ensures r == if id in old(lines) then Done else Refused(NoSuchItem)
      ensures r.Refused? ==> unchanged(this)
      ensures r.Done? ==>
                && lines == (if quantity <= 0 then old(lines) - {id}
                             else old(lines)[id := old(lines)[id].(quantity := quantity)])
                && restaurantId == if lines == map[] then None else old(restaurantId)
    {
      if id !in lines {
        return Refused(NoSuchItem);
      }
      if quantity <= 0 {
        lines := lines - {id};
      } else {
        lines := lines[id := lines[id].(quantity := quantity)];
      }
      if lines == map[] {
        restaurantId := None;
      }
      return Done;
    }

    method Clear()
      modifies this
      ensures Valid() && lines == map[]
    {
      restaurantId, lines := None, map[];
    }

    method View() returns (v: CartView)
      ensures IsView(restaurantId, lines, v)
    {
      if lines == map[] {
        return CartView(None, [], 0, []);
      }
      var collected := Collect(lines);
      SortedCollection(lines, collected);
      var items := SortById(collected);
      var subtotal := AddUp(items);
      return CartView(restaurantId, items, subtotal, Fingerprint(items));
    }
  }
}
