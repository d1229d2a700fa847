/** The admin console's read-model: rows upserted from event streams, field by field, last writer wins
    (services/admin/app/consumer.py). A consumer may be sent back to any earlier offset. */
module ReadModel {
  import opened Prelude
  import opened StateMachine
  import opened Orders
  import opened OrderProofs
  import opened Outbox
  import opened OutboxProgress

  datatype TableName = OrderTable | UserTable | RestaurantTable

  datatype Key = Key(table: TableName, id: int)

  datatype Field =
    | StatusOf | CustomerOf | RestaurantOf | PaymentStatusOf | TotalOf
    | FirstName | LastName | Role | IsActive | Email | Phone | Name | OwnerOf

  datatype Value = Text(text: string) | Num(n: int) | Flag(flag: bool) | StatusIs(s: Status) | PaymentIs(p: PaymentStatus)

  type Record = map<Field, Value>

  /** An event: the publisher's id if it carries one, and its fields that are not null. */
  datatype Payload = Payload(id: Option<int>, fields: Record)

  const ORDER_FIELDS: seq<Field> := [StatusOf, CustomerOf, RestaurantOf, PaymentStatusOf, TotalOf]
  const USER_FIELDS: seq<Field> := [FirstName, LastName, Role, IsActive]
  const CONTACT_FIELDS: seq<Field> := [Email, Phone]
  const RESTAURANT_FIELDS: seq<Field> := [Name, OwnerOf]

  function Defaults(t: TableName): Record {
    match t
    case OrderTable =>
      map[StatusOf := Text(""), CustomerOf := Num(0), RestaurantOf := Num(0), PaymentStatusOf := Text(""), TotalOf := Num(0)]
    case UserTable =>
      map[FirstName := Text(""), LastName := Text(""), Role := Text("customer"), IsActive := Flag(true),
          Email := Text(""), Phone := Text("")]
    case RestaurantTable => map[Name := Text(""), OwnerOf := Num(0)]
  }

  /** A null field is not copied, and neither is an empty status. */
  predicate Carries(p: Payload, f: Field) {
    f in p.fields && !(f == StatusOf && p.fields[f] == Text(""))
  }

  /** What of an event its handler copies. */
  function Carried(p: Payload, names: seq<Field>): Record {
    map f | f in p.fields && f in names && Carries(p, f) :: p.fields[f]
  }

  lemma CarriedOneMore(p: Payload, names: seq<Field>, k: nat)
    requires k < |names|
    ensures Carried(p, names[..k + 1])
            == if Carries(p, names[k]) then Carried(p, names[..k])[names[k] := p.fields[names[k]]]
               else Carried(p, names[..k])
  {
    assert names[..k + 1] == names[..k] + [names[k]];
  }

  function Upserted(rows: map<Key, Record>, t: TableName, p: Payload, names: seq<Field>): map<Key, Record> {
    if p.id.None? then rows
    else
      var key := Key(t, p.id.value);
      rows[key := (if key in rows then rows[key] else Defaults(t)) + Carried(p, names)]
  }

  /** Copying one more name over a row. */
  lemma CopyOneMore(row: Record, p: Payload, names: seq<Field>, k: nat)
    requires k < |names|
    ensures row + Carried(p, names[..k + 1])
            == if Carries(p, names[k]) then (row + Carried(p, names[..k]))[names[k] := p.fields[names[k]]]
               else row + Carried(p, names[..k])
  {
    CarriedOneMore(p, names, k);
  }

  /** Copy the fields an event carries over a row, one name at a time. */
  method CopyFields(row: Record, p: Payload, names: seq<Field>) returns (r: Record)
    ensures r == row + Carried(p, names)
  {
    r := row;
    assert Carried(p, names[..0]) == map[];
    for k := 0 to |names|
      invariant r == row + Carried(p, names[..k])
    {
      CopyOneMore(row, p, names, k);
      if Carries(p, names[k]) {
        r := r[names[k] := p.fields[names[k]]];
      }
    }
    assert names[..|names|] == names;
  }

  class AdminConsole {
    var rows: map<Key, Record>

    constructor ()
      ensures rows == map[]
    {
      rows := map[];
    }

    method Upsert(t: TableName, p: Payload, names: seq<Field>)
      modifies this
      ensures rows == Upserted(old(rows), t, p, names)
    {
      if p.id.None? {
        return;
      }
      var key := Key(t, p.id.value);
      var row := CopyFields(if key in rows then rows[key] else Defaults(t), p, names);
      rows := rows[key := row];
    }

    method ApplyOrderEvent(p: Payload)
      modifies this
      ensures rows == Upserted(old(rows), OrderTable, p, ORDER_FIELDS)
    {
      Upsert(OrderTable, p, ORDER_FIELDS);
    }

    method ApplyUserEvent(p: Payload)
      modifies this
      ensures rows == Upserted(old(rows), UserTable, p, USER_FIELDS)
    {
      Upsert(UserTable, p, USER_FIELDS);
    }

    method ApplyContactEvent(p: Payload)
      modifies this
      ensures rows == Upserted(old(rows), UserTable, p, CONTACT_FIELDS)
    {
      Upsert(UserTable, p, CONTACT_FIELDS);
    }

    method ApplyRestaurantEvent(p: Payload)
      modifies this
      ensures rows == Upserted(old(rows), RestaurantTable, p, RESTAURANT_FIELDS)
    {
      Upsert(RestaurantTable, p, RESTAURANT_FIELDS);
    }
  }

  // ---------------------------------------------------------------- rewinding consumers

  /** Which stream a consumer reads: its table and the fields its handler copies. */
  datatype Topic = Topic(table: TableName, names: seq<Field>)

  function FoldFrom(topic: Topic, rows: map<Key, Record>, stream: seq<Payload>): map<Key, Record> {
    if stream == [] then rows
    else
      Upserted(FoldFrom(topic, rows, stream[..|stream| - 1]), topic.table, stream[|stream| - 1], topic.names)
  }

  /** One pass over a stream, from nothing. */
  function Fold(topic: Topic, stream: seq<Payload>): map<Key, Record> {
    FoldFrom(topic, map[], stream)
  }

  datatype Consumer = Consumer(offset: nat, high: nat, rows: map<Key, Record>)

  datatype Event = Consume | Rewind(offset: nat)

  function Next(topic: Topic, stream: seq<Payload>, c: Consumer, e: Event): Consumer {
    match e
    case Consume =>
      if c.offset < |stream| then
        var next := c.offset + 1;
        Consumer(next, if next > c.high then next else c.high,
                 Upserted(c.rows, topic.table, stream[c.offset], topic.names))
      else c
    case Rewind(k) => if k <= c.offset then c.(offset := k) else c
  }

  function Unfold(topic: Topic, stream: seq<Payload>, trace: seq<Event>): Consumer {
    if trace == [] then Consumer(0, 0, map[])
    else Next(topic, stream, Unfold(topic, stream, trace[..|trace| - 1]), trace[|trace| - 1])
  }

  /** Whatever the consumer has yet to re-read up to its high-water mark brings it to the one-pass result. */
  ghost predicate CatchesUp(topic: Topic, stream: seq<Payload>, c: Consumer) {
    && c.offset <= c.high <= |stream|
    && FoldFrom(topic, c.rows, stream[c.offset..c.high]) == Fold(topic, stream[..c.high])
  }

  // One row at a time: what a stretch of the stream writes into it, and over what.

  function Lookup(rows: map<Key, Record>, key: Key): Option<Record> {
    if key in rows then Some(rows[key]) else None
  }

  /** Later writes over earlier ones. */
  function Over(earlier: Option<Record>, later: Option<Record>): Option<Record> {
    if earlier.None? then later else if later.None? then earlier else Some(earlier.value + later.value)
  }

  /** Everything a stretch of the stream writes into one row; nothing if it never names it. */
  function Writes(topic: Topic, es: seq<Payload>, key: Key): Option<Record> {
    if es == [] then None
    else
      var p := es[|es| - 1];
      Over(Writes(topic, es[..|es| - 1], key),
           if p.id == Some(key.id) && topic.table == key.table then Some(Carried(p, topic.names)) else None)
  }

  /** A row, possibly not there yet, after some writes. */
  function Written(t: TableName, row: Option<Record>, writes: Option<Record>): Option<Record> {
    if writes.None? then row else Some((if row.Some? then row.value else Defaults(t)) + writes.value)
  }

  lemma OverwriteAssociative(x: Record, y: Record, z: Record)
    ensures x + y + z == x + (y + z)
  {
  }

  lemma OverAssociative(x: Option<Record>, y: Option<Record>, z: Option<Record>)
    ensures Over(Over(x, y), z) == Over(x, Over(y, z))
  {
    if x.Some? && y.Some? && z.Some? {
      OverwriteAssociative(x.value, y.value, z.value);
    }
  }

  lemma WrittenTwice(t: TableName, row: Option<Record>, x: Option<Record>, y: Option<Record>)
    ensures Written(t, Written(t, row, x), y) == Written(t, row, Over(x, y))
  {
    if x.Some? && y.Some? {
      OverwriteAssociative(if row.Some? then row.value else Defaults(t), x.value, y.value);
    }
  }

  lemma {:induction false} FoldWrites(topic: Topic, rows: map<Key, Record>, es: seq<Payload>, key: Key)
    ensures Lookup(FoldFrom(topic, rows, es), key) == Written(key.table, Lookup(rows, key), Writes(topic, es, key))
  {
    if es != [] {
      var init, p := es[..|es| - 1], es[|es| - 1];
      FoldWrites(topic, rows, init, key);
      var last := if p.id == Some(key.id) && topic.table == key.table then Some(Carried(p, topic.names)) else None;
      WrittenTwice(key.table, Lookup(rows, key), Writes(topic, init, key), last);
    }
  }

  lemma {:induction false} WritesSplit(topic: Topic, a: seq<Payload>, b: seq<Payload>, key: Key)
    ensures Writes(topic, a + b, key) == Over(Writes(topic, a, key), Writes(topic, b, key))
  {
    if b == [] {
      assert a + b == a;
    } else {
      var p := b[|b| - 1];
      var last := if p.id == Some(key.id) && topic.table == key.table then Some(Carried(p, topic.names)) else None;
      WritesSplit(topic, a, b[..|b| - 1], key);
      OverAssociative(Writes(topic, a, key), Writes(topic, b[..|b| - 1], key), last);
      assert (a + b)[..|a + b| - 1] == a + b[..|b| - 1];
    }
  }

  /** Re-reading is harmless: if `b` alone already brings the row to where `p`, `a` and `b` in turn bring
      an empty one, then so does `a` followed by `b`. */
  lemma RereadRow(t: TableName, row: Option<Record>, p: Option<Record>, a: Option<Record>, b: Option<Record>)
    requires Written(t, row, b) == Written(t, None, Over(p, Over(a, b)))
    ensures Written(t, row, Over(a, b)) == Written(t, None, Over(p, Over(a, b)))
  {
    if a.Some? && b.None? {
      var goal := Written(t, None, Over(p, a)).value;
      assert goal + a.value == goal;
    } else if a.Some? && b.Some? {
      var base := if row.Some? then row.value else Defaults(t);
      var goal := Written(t, None, Over(p, Over(a, b))).value;
      assert base + b.value == goal;
      assert base + (a.value + b.value) == goal;
    }
  }

  lemma {:induction false} SameRows(x: map<Key, Record>, y: map<Key, Record>)
    requires forall key :: Lookup(x, key) == Lookup(y, key)
    ensures x == y
  {
    forall key
      ensures key in x <==> key in y
      ensures key in x ==> x[key] == y[key]
    {
      assert Lookup(x, key) == Lookup(y, key);
    }
  }

  lemma {:induction false} Reread(topic: Topic, rows: map<Key, Record>, p: seq<Payload>, a: seq<Payload>, b: seq<Payload>)
    requires FoldFrom(topic, rows, b) == Fold(topic, p + (a + b))
    ensures FoldFrom(topic, rows, a + b) == Fold(topic, p + (a + b))
  {
    forall key
      ensures Lookup(FoldFrom(topic, rows, a + b), key) == Lookup(Fold(topic, p + (a + b)), key)
    {
      FoldWrites(topic, rows, b, key);
      FoldWrites(topic, rows, a + b, key);
      FoldWrites(topic, map[], p + (a + b), key);
      WritesSplit(topic, a, b, key);
      WritesSplit(topic, p, a + b, key);
      RereadRow(key.table, Lookup(rows, key), Writes(topic, p, key), Writes(topic, a, key), Writes(topic, b, key));
    }
    SameRows(FoldFrom(topic, rows, a + b), Fold(topic, p + (a + b)));
  }

  lemma {:induction false} ConsumeAgain(topic: Topic, stream: seq<Payload>, c: Consumer)
    requires CatchesUp(topic, stream, c) && c.offset < c.high
    ensures CatchesUp(topic, stream, Next(topic, stream, c, Consume))
  {
    var e := stream[c.offset];
    assert stream[c.offset..c.high] == [e] + stream[c.offset + 1..c.high];
    FoldOne(topic, c.rows, e, stream[c.offset + 1..c.high]);
  }

  lemma {:induction false} ConsumeNew(topic: Topic, stream: seq<Payload>, c: Consumer)
    requires CatchesUp(topic, stream, c) && c.offset == c.high < |stream|
    ensures CatchesUp(topic, stream, Next(topic, stream, c, Consume))
  {
    var n := c.high + 1;
    assert stream[c.offset..c.high] == [] && stream[n..n] == [];
    assert stream[..n][..c.high] == stream[..c.high] && stream[..n][c.high] == stream[c.high];
  }

  lemma {:induction false} ConsumeCatchesUp(topic: Topic, stream: seq<Payload>, c: Consumer)
    requires CatchesUp(topic, stream, c) && c.offset < |stream|
    ensures CatchesUp(topic, stream, Next(topic, stream, c, Consume))
  {
    if c.offset < c.high {
      ConsumeAgain(topic, stream, c);
    } else {
      ConsumeNew(topic, stream, c);
    }
  }

  lemma {:induction false} FoldOne(topic: Topic, rows: map<Key, Record>, e: Payload, rest: seq<Payload>)
    ensures FoldFrom(topic, rows, [e] + rest)
            == FoldFrom(topic, Upserted(rows, topic.table, e, topic.names), rest)
  {
    if rest == [] {
      assert [e] + rest == [e] && [e][..0] == [];
      assert FoldFrom(topic, rows, [e]) == Upserted(FoldFrom(topic, rows, []), topic.table, e, topic.names);
    } else {
      FoldOne(topic, rows, e, rest[..|rest| - 1]);
      assert ([e] + rest)[..|rest|] == [e] + rest[..|rest| - 1];
    }
  }

  lemma {:induction false} RewindCatchesUp(topic: Topic, stream: seq<Payload>, c: Consumer, k: nat)
    requires CatchesUp(topic, stream, c) && k <= c.offset
    ensures CatchesUp(topic, stream, Next(topic, stream, c, Rewind(k)))
  {
    var p, a, b := stream[..k], stream[k..c.offset], stream[c.offset..c.high];
    assert a + b == stream[k..c.high];
    assert p + (a + b) == stream[..c.high];
    Reread(topic, c.rows, p, a, b);
  }

  lemma {:induction false} UnfoldCatchesUp(topic: Topic, stream: seq<Payload>, trace: seq<Event>)
    ensures CatchesUp(topic, stream, Unfold(topic, stream, trace))
  {
    if trace == [] {
      assert stream[0..0] == [] && stream[..0] == [];
    } else {
      UnfoldCatchesUp(topic, stream, trace[..|trace| - 1]);
      var c, e := Unfold(topic, stream, trace[..|trace| - 1]), trace[|trace| - 1];
      if e.Rewind? && e.offset <= c.offset {
        RewindCatchesUp(topic, stream, c, e.offset);
      } else if e.Consume? && c.offset < |stream| {
        ConsumeCatchesUp(topic, stream, c);
      }
    }
  }

  /** However often a consumer is sent back, whenever it is at its high-water mark again its table is the
      one-pass fold of the stream up to there. */
  lemma {:induction false} ExactAtHighWater(topic: Topic, stream: seq<Payload>, trace: seq<Event>)
    ensures var c := Unfold(topic, stream, trace);
            c.high <= |stream| && (c.offset == c.high ==> c.rows == Fold(topic, stream[..c.high]))
  {
    UnfoldCatchesUp(topic, stream, trace);
    var c := Unfold(topic, stream, trace);
    if c.offset == c.high {
      assert stream[c.offset..c.high] == [];
    }
  }

  // ---------------------------------------------------------------- the orders service's stream

  const ORDER_TOPIC := Topic(OrderTable, ORDER_FIELDS)

  /** An order-events message as the console reads it. */
  function OrderPayload(n: OrderNote): Payload {
    Payload(Some(n.orderId),
            map[StatusOf := StatusIs(n.status), CustomerOf := Num(n.customerId), RestaurantOf := Num(n.restaurantId),
                PaymentStatusOf := PaymentIs(n.paymentStatus), TotalOf := Num(n.total)])
  }

  function Payloads(notes: seq<OrderNote>): seq<Payload> {
    seq(|notes|, i requires 0 <= i < |notes| => OrderPayload(notes[i]))
  }

  /** The messages about one order, in stream order. */
  function About(notes: seq<OrderNote>, id: int): seq<OrderNote> {
    if notes == [] then []
    else
      var n := notes[|notes| - 1];
      About(notes[..|notes| - 1], id) + if n.orderId == id then [n] else []
  }

  /** What the console's row for an order should hold. */
  function RowOf(n: OrderNote): Record {
    OrderPayload(n).fields
  }

  lemma NoteCarriesEverything(n: OrderNote)
    ensures Carried(OrderPayload(n), ORDER_FIELDS) == RowOf(n)
  {
    forall f | f in RowOf(n)
      ensures f in ORDER_FIELDS
    {
      assert ORDER_FIELDS[0] == StatusOf && ORDER_FIELDS[1] == CustomerOf && ORDER_FIELDS[2] == RestaurantOf;
      assert ORDER_FIELDS[3] == PaymentStatusOf && ORDER_FIELDS[4] == TotalOf;
    }
  }

  lemma NoteCoversRow(earlier: OrderNote, later: OrderNote)
    ensures RowOf(earlier) + RowOf(later) == RowOf(later)
    ensures Defaults(OrderTable) + RowOf(later) == RowOf(later)
  {
  }

  /** What the messages about one order leave to be seen. */
  function LastRow(mine: seq<OrderNote>): Option<Record> {
    if mine == [] then None else Some(RowOf(mine[|mine| - 1]))
  }

  lemma LaterRowShows(mine: seq<OrderNote>, n: OrderNote)
    ensures Over(LastRow(mine), Some(RowOf(n))) == LastRow(mine + [n])
  {
    if mine != [] {
      NoteCoversRow(mine[|mine| - 1], n);
    }
  }

  lemma {:induction false} WritesOneMore(notes: seq<OrderNote>, n: OrderNote, id: int, earlier: Option<Record>)
    requires Writes(ORDER_TOPIC, Payloads(notes), Key(OrderTable, id)) == earlier
    ensures Writes(ORDER_TOPIC, Payloads(notes + [n]), Key(OrderTable, id))
            == Over(earlier, if n.orderId == id then Some(RowOf(n)) else None)
  {
    var all := Payloads(notes + [n]);
    assert all[..|all| - 1] == Payloads(notes) && all[|all| - 1] == OrderPayload(n);
    NoteCarriesEverything(n);
  }

  /** Order events carry every field, so the last one about an order is all that shows. */
  lemma {:induction false} LastNoteWins(notes: seq<OrderNote>, id: int)
    ensures Writes(ORDER_TOPIC, Payloads(notes), Key(OrderTable, id)) == LastRow(About(notes, id))
  {
    if notes != [] {
      var init, n := notes[..|notes| - 1], notes[|notes| - 1];
      LastNoteWins(init, id);
      WritesOneMore(init, n, id, LastRow(About(init, id)));
      assert init + [n] == notes;
      if n.orderId == id {
        LaterRowShows(About(init, id), n);
      } else {
        assert About(init, id) + [] == About(init, id);
      }
    }
  }

  lemma {:induction false} AboutMembers(notes: seq<OrderNote>, id: int)
    ensures forall i :: 0 <= i < |About(notes, id)| ==> About(notes, id)[i] in notes && About(notes, id)[i].orderId == id
  {
    if notes != [] {
      AboutMembers(notes[..|notes| - 1], id);
      assert notes == notes[..|notes| - 1] + [notes[|notes| - 1]];
    }
  }

  /** Of an order's own messages only the latest has the order's status. */
  lemma OwnNotes(o: Order, n: OrderNote)
    requires Reachable(o) && n in o.notes
    ensures n.status == o.status <==> n == NoteOf(o)
  {
    StreamTellsTheLog(o);
    AuditAndCommands(o);
    var k :| 0 <= k < |o.notes| && o.notes[k] == n;
    assert o.notes[k].status == o.events[LogBase(o) + k].to;
    if k < |o.notes| - 1 {
      assert o.events[LogBase(o) + k].to != o.events[|o.events| - 1].to;
    }
  }

  /** Every message about the order is one it wrote, however often and in whatever order they arrive. */
  predicate OnlyItsOwn(notes: seq<OrderNote>, o: Order) {
    forall i :: 0 <= i < |notes| && notes[i].orderId == o.id ==> notes[i] in o.notes
  }

  /** What the console shows of an order. */
  function ShownRow(notes: seq<OrderNote>, trace: seq<Event>, id: int): Option<Record> {
    Lookup(Unfold(ORDER_TOPIC, Payloads(notes), trace).rows, Key(OrderTable, id))
  }

  predicate ReadToTheEnd(notes: seq<OrderNote>, trace: seq<Event>) {
    var c := Unfold(ORDER_TOPIC, Payloads(notes), trace);
    c.offset == c.high == |notes|
  }

  lemma {:induction false} EndShowsLast(notes: seq<OrderNote>, trace: seq<Event>, id: int)
    requires ReadToTheEnd(notes, trace)
    ensures ShownRow(notes, trace, id) == LastRow(About(notes, id))
  {
    var stream, key := Payloads(notes), Key(OrderTable, id);
    ExactAtHighWater(ORDER_TOPIC, stream, trace);
    assert stream[..|notes|] == stream;
    FoldWrites(ORDER_TOPIC, map[], stream, key);
    LastNoteWins(notes, id);
    var mine := About(notes, id);
    if mine != [] {
      NoteCoversRow(mine[|mine| - 1], mine[|mine| - 1]);
    }
  }

  /** Of a stream in which an order's messages are duplicated and reordered at will, a consumer at the end
      shows a state the order really was in; it shows the order as it is, and already its status only
      then, if and only if the last message about it is the order's latest. */
  lemma {:induction false} ConsoleExactIff(o: Order, notes: seq<OrderNote>, trace: seq<Event>)
    requires Reachable(o) && OnlyItsOwn(notes, o) && ReadToTheEnd(notes, trace)
    ensures var row, mine := ShownRow(notes, trace, o.id), About(notes, o.id);
            && (row.None? <==> mine == [])
            && (row.Some? ==> exists k :: 0 <= k < |o.notes| && row.value == RowOf(o.notes[k]))
            && (row == Some(RowOf(NoteOf(o))) <==> mine != [] && mine[|mine| - 1] == NoteOf(o))
            && (row.Some? && row.value[StatusOf] == StatusIs(o.status) <==> mine != [] && mine[|mine| - 1] == NoteOf(o))
  {
    EndShowsLast(notes, trace, o.id);
    var mine := About(notes, o.id);
    if mine != [] {
      LastIsOwn(notes, o);
      LastExactIff(o, mine[|mine| - 1]);
    }
  }

  lemma LastIsOwn(notes: seq<OrderNote>, o: Order)
    requires OnlyItsOwn(notes, o) && About(notes, o.id) != []
    ensures About(notes, o.id)[|About(notes, o.id)| - 1] in o.notes
  {
    AboutMembers(notes, o.id);
    var last := About(notes, o.id)[|About(notes, o.id)| - 1];
    var i :| 0 <= i < |notes| && notes[i] == last;
  }

  lemma LastExactIff(o: Order, last: OrderNote)
    requires Reachable(o) && last in o.notes
    ensures exists k :: 0 <= k < |o.notes| && RowOf(last) == RowOf(o.notes[k])
    ensures StatusOf in RowOf(last)
    ensures RowOf(last) == RowOf(NoteOf(o)) <==> last == NoteOf(o)
    ensures RowOf(last)[StatusOf] == StatusIs(o.status) <==> last == NoteOf(o)
  {
    var k :| 0 <= k < |o.notes| && o.notes[k] == last;
    OwnNotes(o, last);
    StatusInRow(last);
    StatusInRow(NoteOf(o));
  }

  lemma StatusInRow(n: OrderNote)
    ensures StatusOf in RowOf(n) && RowOf(n)[StatusOf] == StatusIs(n.status)
  {
  }

  /** In particular the console is exact when the order's messages arrive as it wrote them. */
  lemma ConsoleShowsOrder(o: Order, notes: seq<OrderNote>, trace: seq<Event>)
    requires Reachable(o) && About(notes, o.id) == o.notes && ReadToTheEnd(notes, trace)
    ensures ShownRow(notes, trace, o.id)
            == Some(map[StatusOf := StatusIs(o.status), CustomerOf := Num(o.customerId),
                        RestaurantOf := Num(o.restaurantId), PaymentStatusOf := PaymentIs(o.paymentStatus),
                        TotalOf := Num(o.total)])
  {
    EndShowsLast(notes, trace, o.id);
    StreamTellsTheLog(o);
  }

  // ---------------------------------------------------------------- a retried message

  lemma {:induction false} AboutAll(notes: seq<OrderNote>, id: int)
    requires forall i :: 0 <= i < |notes| ==> notes[i].orderId == id
    ensures About(notes, id) == notes
  {
    if notes != [] {
      AboutAll(notes[..|notes| - 1], id);
      assert notes == notes[..|notes| - 1] + [notes[|notes| - 1]];
    }
  }

  /** The messages the broker gets for these outbox rows. */
  function Sent(notes: seq<OrderNote>, wire: seq<nat>): seq<OrderNote>
    requires forall j :: 0 <= j < |wire| ==> wire[j] < |notes|
  {
    seq(|wire|, j requires 0 <= j < |wire| => notes[wire[j]])
  }

  /** One refused send is enough: the order's first message goes out last, and the console ends on the
      status the order had then. */
  lemma {:induction false} RetriedMessageShowsOldStatus(
      o: Order, first: nat -> bool, second: nat -> bool, limit: nat, trace: seq<Event>, wire: seq<nat>)
    requires Reachable(o) && 1 < |o.notes| <= limit && RefusesFirst(first) && second(0)
    requires var rows := Recorded(|o.notes|);
             wire == DrainWire(rows, first, limit) + DrainWire(Drained(rows, first, limit), second, limit)
    ensures forall j :: 0 <= j < |wire| ==> wire[j] < |o.notes|
    ensures ReadToTheEnd(Sent(o.notes, wire), trace) ==>
              ShownRow(Sent(o.notes, wire), trace, o.id) == Some(RowOf(o.notes[0]))
              && o.notes[0].status != o.status
  {
    var n := |o.notes| - 1;
    RetriedRowGoesLast(n, first, second, limit);
    assert wire[n] == 0 && |wire| == n + 1;
    var notes := Sent(o.notes, wire);
    if ReadToTheEnd(notes, trace) {
      OwnIds(o);
      AboutAll(notes, o.id);
      EndShowsLast(notes, trace, o.id);
      OwnNotes(o, o.notes[0]);
      FirstIsNotLast(o);
    }
  }

  lemma OwnIds(o: Order)
    requires Reachable(o)
    ensures forall i :: 0 <= i < |o.notes| ==> o.notes[i].orderId == o.id
  {
    ReachableConsistent(o);
  }

  lemma FirstIsNotLast(o: Order)
    requires Reachable(o) && |o.notes| > 1
    ensures o.notes[0] != NoteOf(o)
  {
    StreamTellsTheLog(o);
    AuditAndCommands(o);
    assert o.notes[0].status == o.events[LogBase(o)].to;
    assert o.events[LogBase(o)].to != o.events[|o.events| - 1].to;
  }

  // ---------------------------------------------------------------- which fields each handler copies

  const USER_TOPIC := Topic(UserTable, USER_FIELDS)
  const CONTACT_TOPIC := Topic(UserTable, CONTACT_FIELDS)

  function Only(p: Payload, fields: set<Field>): Record {
    map f | f in p.fields && f in fields :: p.fields[f]
  }

  /** Name, role and activity from user events, email and phone from contact events, name and owner from
      restaurant events; of an order event everything but an empty status. */
  lemma HandlerFields(p: Payload)
    ensures Carried(p, USER_FIELDS) == Only(p, {FirstName, LastName, Role, IsActive})
    ensures Carried(p, CONTACT_FIELDS) == Only(p, {Email, Phone})
    ensures Carried(p, RESTAURANT_FIELDS) == Only(p, {Name, OwnerOf})
    ensures Carried(p, ORDER_FIELDS)
            == Only(p, (if StatusOf in p.fields && p.fields[StatusOf] == Text("") then {} else {StatusOf})
                       + {CustomerOf, RestaurantOf, PaymentStatusOf, TotalOf})
  {
  }

  /** An upsert without an id does nothing; with one it touches that row alone, creating it from the defaults,
      and in it exactly the fields the handler copies and the event carries. */
  lemma UpsertLaw(rows: map<Key, Record>, t: TableName, p: Payload, names: seq<Field>, key: Key, f: Field)
    ensures var n := Upserted(rows, t, p, names);
            if p.id != Some(key.id) || t != key.table then Lookup(n, key) == Lookup(rows, key)
            else
              var base := if key in rows then rows[key] else Defaults(t);
              && key in n && (f in n[key] <==> f in base || f in Carried(p, names))
              && (f in Carried(p, names) ==> n[key][f] == p.fields[f])
              && (f in base && f !in Carried(p, names) ==> n[key][f] == base[f])
  {
  }

  function Put(rows: map<Key, Record>, key: Key, x: Record): map<Key, Record> {
    rows[key := (if key in rows then rows[key] else Defaults(key.table)) + x]
  }

  lemma PutsCommute(rows: map<Key, Record>, k: Key, x: Record, l: Key, y: Record)
    requires k != l || x.Keys !! y.Keys
    ensures Put(Put(rows, k, x), l, y) == Put(Put(rows, l, y), k, x)
  {
    if k == l {
      var base := if k in rows then rows[k] else Defaults(k.table);
      assert base + x + y == base + y + x;
    }
  }

  lemma UpsertIsPut(rows: map<Key, Record>, t: TableName, p: Payload, names: seq<Field>)
    requires p.id.Some?
    ensures Upserted(rows, t, p, names) == Put(rows, Key(t, p.id.value), Carried(p, names))
  {
  }

  lemma DisjointFields(p: Payload, q: Payload)
    ensures Carried(p, USER_FIELDS).Keys !! Carried(q, CONTACT_FIELDS).Keys
  {
    HandlerFields(p);
    HandlerFields(q);
  }

  /** User and contact events write disjoint fields of one row, so their order does not matter. */
  lemma {:induction false} UserContactCommute(rows: map<Key, Record>, p: Payload, q: Payload)
    ensures Upserted(Upserted(rows, UserTable, p, USER_FIELDS), UserTable, q, CONTACT_FIELDS)
            == Upserted(Upserted(rows, UserTable, q, CONTACT_FIELDS), UserTable, p, USER_FIELDS)
  {
    if p.id.Some? && q.id.Some? {
      UpsertIsPut(rows, UserTable, p, USER_FIELDS);
      UpsertIsPut(rows, UserTable, q, CONTACT_FIELDS);
      UpsertIsPut(Upserted(rows, UserTable, p, USER_FIELDS), UserTable, q, CONTACT_FIELDS);
      UpsertIsPut(Upserted(rows, UserTable, q, CONTACT_FIELDS), UserTable, p, USER_FIELDS);
      DisjointFields(p, q);
      PutsCommute(rows, Key(UserTable, p.id.value), Carried(p, USER_FIELDS),
                  Key(UserTable, q.id.value), Carried(q, CONTACT_FIELDS));
    }
  }

  /** A message of one of the two topics that feed the user table. */
  datatype UserMessage = FromUsers(p: Payload) | FromContacts(p: Payload)

  function FoldBoth(es: seq<UserMessage>): map<Key, Record> {
    if es == [] then map[]
    else
      var before := FoldBoth(es[..|es| - 1]);
      match es[|es| - 1]
      case FromUsers(p) => Upserted(before, UserTable, p, USER_FIELDS)
      case FromContacts(p) => Upserted(before, UserTable, p, CONTACT_FIELDS)
  }

  function Users(es: seq<UserMessage>): seq<Payload> {
    if es == [] then []
    else Users(es[..|es| - 1]) + if es[|es| - 1].FromUsers? then [es[|es| - 1].p] else []
  }

  function Contacts(es: seq<UserMessage>): seq<Payload> {
    if es == [] then []
    else Contacts(es[..|es| - 1]) + if es[|es| - 1].FromContacts? then [es[|es| - 1].p] else []
  }

  lemma {:induction false} UserPastContacts(rows: map<Key, Record>, p: Payload, contacts: seq<Payload>)
    ensures Upserted(FoldFrom(CONTACT_TOPIC, rows, contacts), UserTable, p, USER_FIELDS)
            == FoldFrom(CONTACT_TOPIC, Upserted(rows, UserTable, p, USER_FIELDS), contacts)
  {
    if contacts != [] {
      var init := contacts[..|contacts| - 1];
      UserPastContacts(rows, p, init);
      UserContactCommute(FoldFrom(CONTACT_TOPIC, rows, init), p, contacts[|contacts| - 1]);
    }
  }

  lemma {:induction false} FoldOneMore(topic: Topic, rows: map<Key, Record>, es: seq<Payload>, p: Payload)
    ensures FoldFrom(topic, rows, es + [p]) == Upserted(FoldFrom(topic, rows, es), topic.table, p, topic.names)
  {
    assert (es + [p])[..|es|] == es;
  }

  /** However the two topics interleave, the user table is what reading one after the other leaves. */
  lemma {:induction false} InterleavingIrrelevant(es: seq<UserMessage>)
    ensures FoldBoth(es) == FoldFrom(CONTACT_TOPIC, Fold(USER_TOPIC, Users(es)), Contacts(es))
  {
    if es != [] {
      var init, e := es[..|es| - 1], es[|es| - 1];
      InterleavingIrrelevant(init);
      var users, contacts := Users(init), Contacts(init);
      if e.FromUsers? {
        UserPastContacts(Fold(USER_TOPIC, users), e.p, contacts);
        FoldOneMore(USER_TOPIC, map[], users, e.p);
        assert Contacts(es) == contacts + [] == contacts;
      } else {
        FoldOneMore(CONTACT_TOPIC, Fold(USER_TOPIC, users), contacts, e.p);
        assert Users(es) == users + [] == users;
      }
    }
  }

  // ---------------------------------------------------------------- reading on

  function Reads(n: nat): seq<Event> {
    seq(n, _ => Consume)
  }

  lemma {:induction false} ReadsMove(topic: Topic, stream: seq<Payload>, trace: seq<Event>, n: nat)
    requires Unfold(topic, stream, trace).offset + n <= |stream|
    ensures Unfold(topic, stream, trace + Reads(n)).offset == Unfold(topic, stream, trace).offset + n
  {
    if n == 0 {
      assert trace + Reads(0) == trace;
    } else {
      ReadsMove(topic, stream, trace, n - 1);
      assert (trace + Reads(n))[..|trace| + n - 1] == trace + Reads(n - 1);
    }
  }

  /** It can be sent back to any offset it has passed, and nothing is taken out of its table. */
  lemma SentBack(topic: Topic, stream: seq<Payload>, c: Consumer, k: nat)
    requires k <= c.offset
    ensures Next(topic, stream, c, Rewind(k)) == Consumer(k, c.high, c.rows)
  {
  }

  /** A consumer that keeps reading gets to the end, wherever it was sent back to, and is exact there. */
  lemma {:induction false} ReadingOnEnds(topic: Topic, stream: seq<Payload>, trace: seq<Event>, n: nat)
    requires Unfold(topic, stream, trace).offset + n == |stream|
    ensures var c := Unfold(topic, stream, trace + Reads(n));
            c.offset == c.high == |stream| && c.rows == Fold(topic, stream)
  {
    ReadsMove(topic, stream, trace, n);
    UnfoldCatchesUp(topic, stream, trace + Reads(n));
    ExactAtHighWater(topic, stream, trace + Reads(n));
    assert stream[..|stream|] == stream;
  }

  /** A user known only from a contact event is an active customer without a name. */
  lemma NewUserRow(p: Payload, id: int)
    requires p.id == Some(id)
    ensures Upserted(map[], UserTable, p, CONTACT_FIELDS)[Key(UserTable, id)]
            == map[FirstName := Text(""), LastName := Text(""), Role := Text("customer"), IsActive := Flag(true),
                   Email := Text(""), Phone := Text("")] + Only(p, {Email, Phone})
  {
    HandlerFields(p);
  }
}
