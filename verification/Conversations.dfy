/**
 PCAP conversations rebuilt from directional flow rows (core/api/service.py, `_pcap_conversation_page`).
 */
module Conversations {
  import opened Wrappers
  import opened Slices
  import opened PythonText

  datatype Endpoint = Endpoint(ip: string, port: int)

  /** One directional row, its absent members already replaced by "" and 0. */
  datatype Row = Row(id: int, protocol: string, source: Endpoint, target: Endpoint,
                     initiator: Endpoint, responder: Endpoint, start: real, last: real,
                     bytes: int, packets: int, established: bool, synCount: int)

  datatype Key = Key(protocol: string, a: Endpoint, b: Endpoint)

  datatype Traffic = Traffic(bytes: int, packets: int)

  /** What a conversation is, apart from what was counted. */
  datatype Head = Head(key: Key, id: string, source: Endpoint, target: Endpoint, start: real)

  datatype Item = Item(head: Head, last: real, total: Traffic, toResponder: Traffic, toInitiator: Traffic,
                       established: bool, refs: seq<int>)

  // ---------------------------------------------------------------- the two endpoints

  predicate Below(x: Endpoint, y: Endpoint) {
    TextLess(x.ip, y.ip) || (x.ip == y.ip && x.port < y.port)
  }

  function KeyOf(row: Row): Key {
    if Below(row.target, row.source) then Key(row.protocol, row.target, row.source)
    else Key(row.protocol, row.source, row.target)
  }

  /** Swapping the endpoints of a row keeps it in its conversation, and a conversation knows no
      endpoints but the two of its rows, the lower one first. */
  lemma KeyIgnoresDirection(row: Row, other: Row)
    ensures KeyOf(row.(source := row.target, target := row.source)) == KeyOf(row)
    ensures KeyOf(row) == KeyOf(other) <==>
              (row.protocol == other.protocol &&
                ((row.source, row.target) == (other.source, other.target) || (row.source, row.target) == (other.target, other.source)))
    ensures var k := KeyOf(row);
      && k.protocol == row.protocol && {k.a, k.b} == {row.source, row.target}
      && (TextLess(k.a.ip, k.b.ip) || (k.a.ip == k.b.ip && k.a.port <= k.b.port))
  {
    TextOrder(row.source.ip, row.target.ip);
    TextOrder(other.source.ip, other.target.ip);
  }

  // ---------------------------------------------------------------- one row

  /** The row's own idea of who started it, when it names its two endpoints; else its direction. */
  function Roles(row: Row): (Endpoint, Endpoint) {
    var k := KeyOf(row);
    if {row.initiator, row.responder} != {k.a, k.b} then (row.source, row.target) else (row.initiator, row.responder)
  }

  function LastSeen(row: Row): real { if row.last != 0.0 then row.last else row.start }

  function Min(x: real, y: real): real { if y < x then y else x }

  function Max(x: real, y: real): real { if y > x then y else x }

  function Add(t: Traffic, row: Row, counted: bool): Traffic {
    if counted then Traffic(t.bytes + row.bytes, t.packets + row.packets) else t
  }

  const NoTraffic := Traffic(0, 0)

  function NewItem(row: Row, digest: Key -> string): Item {
    Item(Head(KeyOf(row), digest(KeyOf(row)), Roles(row).0, Roles(row).1, row.start), LastSeen(row),
         NoTraffic, NoTraffic, NoTraffic, false, [])
  }

  function Absorb(item: Item, row: Row): Item {
    var forward := row.source == item.head.source;
    Item(item.head.(start := Min(item.head.start, row.start)), Max(item.last, LastSeen(row)),
         Add(item.total, row, true), Add(item.toResponder, row, forward), Add(item.toInitiator, row, !forward),
         item.established || row.established || row.synCount > 1,
         if |item.refs| < 2 then item.refs + [row.id] else item.refs)
  }

  // ---------------------------------------------------------------- all rows

  /** Where the conversation stands in the (insertion-ordered) dictionary. */
  function IndexOf(items: seq<Item>, k: Key): (r: Option<nat>)
    ensures r.Some? ==> r.value < |items| && items[r.value].head.key == k
    ensures r.None? ==> forall i :: 0 <= i < |items| ==> items[i].head.key != k
  {
    if items == [] then None
    else if items[|items| - 1].head.key == k then Some(|items| - 1)
    else IndexOf(items[..|items| - 1], k)
  }

  function Upsert(items: seq<Item>, row: Row, digest: Key -> string): seq<Item> {
    match IndexOf(items, KeyOf(row))
    case None => items + [Absorb(NewItem(row, digest), row)]
    case Some(i) => items[i := Absorb(items[i], row)]
  }

  function Build(rows: seq<Row>, digest: Key -> string): seq<Item> {
    if rows == [] then [] else Upsert(Build(rows[..|rows| - 1], digest), rows[|rows| - 1], digest)
  }

  /** One conversation seen from its own rows only. */
  function Conversation(rows: seq<Row>, k: Key, digest: Key -> string): Option<Item> {
    if rows == [] then None
    else
      var before, row := Conversation(rows[..|rows| - 1], k, digest), rows[|rows| - 1];
      if KeyOf(row) != k then before
      else Some(Absorb(if before.Some? then before.value else NewItem(row, digest), row))
  }

  ghost predicate DistinctKeys(items: seq<Item>) {
    forall i, j :: 0 <= i < j < |items| ==> items[i].head.key != items[j].head.key
  }

  function Get(items: seq<Item>, k: Key): Option<Item> {
    if IndexOf(items, k).Some? then Some(items[IndexOf(items, k).value]) else None
  }

  lemma UpsertKeys(items: seq<Item>, row: Row, digest: Key -> string)
    requires DistinctKeys(items)
    ensures DistinctKeys(Upsert(items, row, digest))
  {
  }

  lemma GetIs(items: seq<Item>, i: nat)
    requires DistinctKeys(items) && i < |items|
    ensures IndexOf(items, items[i].head.key) == Some(i)
  {
    var j := IndexOf(items, items[i].head.key).value;
    assert items[j].head.key == items[i].head.key;
  }

  lemma UpsertGet(items: seq<Item>, row: Row, digest: Key -> string, k: Key)
    requires DistinctKeys(items)
    ensures Get(Upsert(items, row, digest), k) ==
              if KeyOf(row) != k then Get(items, k)
              else Some(Absorb(if Get(items, k).Some? then Get(items, k).value else NewItem(row, digest), row))
  {
    var after := Upsert(items, row, digest);
    UpsertKeys(items, row, digest);
    if KeyOf(row) == k {
      GetIs(after, if IndexOf(items, k).Some? then IndexOf(items, k).value else |items|);
    } else if IndexOf(items, k).Some? {
      assert after[IndexOf(items, k).value] == items[IndexOf(items, k).value];
      GetIs(after, IndexOf(items, k).value);
    }
  }

  /** Conversations do not disturb each other: each key has one item, made of that key's rows alone. */
  lemma {:induction false} BuildIsLocal(rows: seq<Row>, digest: Key -> string, k: Key)
    ensures DistinctKeys(Build(rows, digest))
    ensures Get(Build(rows, digest), k) == Conversation(rows, k, digest)
  {
    if rows != [] {
      BuildIsLocal(rows[..|rows| - 1], digest, k);
      UpsertKeys(Build(rows[..|rows| - 1], digest), rows[|rows| - 1], digest);
      UpsertGet(Build(rows[..|rows| - 1], digest), rows[|rows| - 1], digest, k);
    }
  }

  // ---------------------------------------------------------------- conservation

  function Plus(x: Traffic, y: Traffic): Traffic { Traffic(x.bytes + y.bytes, x.packets + y.packets) }

  function Carried(row: Row): Traffic { Traffic(row.bytes, row.packets) }

  /** Traffic of the rows of one key that leave one endpoint (or any endpoint). */
  function Sent(rows: seq<Row>, k: Key, from: Option<Endpoint>): Traffic {
    if rows == [] then NoTraffic
    else
      var row, before := rows[|rows| - 1], Sent(rows[..|rows| - 1], k, from);
      if KeyOf(row) == k && (from.None? || from.value == row.source) then Plus(before, Carried(row)) else before
  }

  lemma {:induction false} KnownKeys(rows: seq<Row>, k: Key, digest: Key -> string)
    ensures Conversation(rows, k, digest).Some? <==> exists i :: 0 <= i < |rows| && KeyOf(rows[i]) == k
    ensures Conversation(rows, k, digest).None? ==> forall from :: Sent(rows, k, from) == NoTraffic
  {
    if rows != [] { KnownKeys(rows[..|rows| - 1], k, digest); }
  }

  /** The two directions of a conversation: everything its initiator sent, everything its responder
      sent, and together everything its rows carried. */
  lemma {:induction false} DirectionsAddUp(rows: seq<Row>, k: Key, digest: Key -> string)
    ensures Conversation(rows, k, digest).Some? ==>
              var item := Conversation(rows, k, digest).value;
              && item.head.key == k
              && {item.head.source, item.head.target} == {k.a, k.b}
              && item.total == Sent(rows, k, None)
              && item.toResponder == Sent(rows, k, Some(item.head.source))
              && item.toInitiator == (if k.a == k.b then NoTraffic else Sent(rows, k, Some(item.head.target)))
              && item.total.bytes == item.toResponder.bytes + item.toInitiator.bytes
              && item.total.packets == item.toResponder.packets + item.toInitiator.packets
  {
    if rows != [] {
      KnownKeys(rows[..|rows| - 1], k, digest);
      DirectionsAddUp(rows[..|rows| - 1], k, digest);
    }
  }

  /** The rows of one conversation, in order. */
  function Own(rows: seq<Row>, k: Key): seq<Row> {
    if rows == [] then []
    else Own(rows[..|rows| - 1], k) + if KeyOf(rows[|rows| - 1]) == k then [rows[|rows| - 1]] else []
  }

  function Ids(rows: seq<Row>): seq<int> { seq(|rows|, i requires 0 <= i < |rows| => rows[i].id) }

  predicate Establishes(row: Row) { row.established || row.synCount > 1 }

  /** The row names who started it, and means its own two endpoints. */
  predicate NamesRoles(row: Row) { {row.initiator, row.responder} == {row.source, row.target} }

  /** The row was last seen at this time: its own, or its start when it gives none. */
  predicate SeenAt(row: Row, t: real) { t == if row.last == 0.0 then row.start else row.last }

  /** The item starts with the earliest of its rows and is last seen with the latest. */
  ghost predicate Spans(item: Item, own: seq<Row>) {
    && (forall row :: row in own ==> item.head.start <= row.start)
    && (forall row, t :: row in own && SeenAt(row, t) ==> t <= item.last)
    && (exists row :: row in own && item.head.start == row.start)
    && (exists row :: row in own && SeenAt(row, item.last))
  }

  /** The rest of an item: its roles are those its first row names, or else the direction of that row;
      its times span its rows, it is established as soon as one row is, and it refers to its first two
      rows. */
  ghost predicate Summarises(item: Item, own: seq<Row>) {
    && own != []
    && item.head.source == (if NamesRoles(own[0]) then own[0].initiator else own[0].source)
    && item.head.target == (if NamesRoles(own[0]) then own[0].responder else own[0].target)
    && Spans(item, own)
    && (item.established <==> exists row :: row in own && Establishes(row))
    && item.refs == Ids(Take(own, 2))
  }

  lemma {:induction false} ItemsSummarise(rows: seq<Row>, k: Key, digest: Key -> string)
    ensures Conversation(rows, k, digest).None? <==> Own(rows, k) == []
    ensures Conversation(rows, k, digest).Some? ==>
              Summarises(Conversation(rows, k, digest).value, Own(rows, k)) && Conversation(rows, k, digest).value.head.id == digest(k)
  {
    if rows != [] {
      var init, row := rows[..|rows| - 1], rows[|rows| - 1];
      ItemsSummarise(init, k, digest);
      if KeyOf(row) == k {
        if Own(init, k) == [] { FirstSummarises(row, digest); assert Own(rows, k) == [row]; }
        else { AbsorbSummarises(Conversation(init, k, digest).value, Own(init, k), row); }
      } else {
        assert Own(rows, k) == Own(init, k);
      }
    }
  }

  lemma FirstSummarises(row: Row, digest: Key -> string)
    ensures Summarises(Absorb(NewItem(row, digest), row), [row])
  {
    assert {KeyOf(row).a, KeyOf(row).b} == {row.source, row.target};
    assert SeenAt(row, LastSeen(row));
    assert row in [row] && Take([row], 2) == [row] && Ids([row]) == [row.id];
  }

  lemma AbsorbSummarises(item: Item, own: seq<Row>, row: Row)
    requires Summarises(item, own)
    ensures Summarises(Absorb(item, row), own + [row])
  {
    AbsorbSpans(item, own, row);
    AbsorbRefs(own, row);
    assert (own + [row])[0] == own[0];
    assert (exists x :: x in own + [row] && Establishes(x)) <==> (exists x :: x in own && Establishes(x)) || Establishes(row) by {
      assert forall x :: x in own + [row] <==> x in own || x == row;
    }
  }

  lemma AbsorbRefs(own: seq<Row>, row: Row)
    ensures Ids(Take(own + [row], 2)) == if |own| < 2 then Ids(Take(own, 2)) + [row.id] else Ids(Take(own, 2))
  {
  }

  lemma AbsorbSpans(item: Item, own: seq<Row>, row: Row)
    requires Spans(item, own)
    ensures Spans(Absorb(item, row), own + [row])
  {
    assert SeenAt(row, LastSeen(row));
    assert forall x :: x in own + [row] <==> x in own || x == row;
  }

  function RowTraffic(rows: seq<Row>): Traffic {
    if rows == [] then Traffic(0, 0) else Plus(RowTraffic(rows[..|rows| - 1]), Carried(rows[|rows| - 1]))
  }

  function ItemTraffic(items: seq<Item>): Traffic {
    if items == [] then NoTraffic else Plus(ItemTraffic(items[..|items| - 1]), items[|items| - 1].total)
  }

  lemma {:induction false} ReplaceTraffic(items: seq<Item>, i: nat, item: Item)
    requires i < |items|
    ensures Plus(ItemTraffic(items[i := item]), items[i].total) == Plus(ItemTraffic(items), item.total)
  {
    var n := |items| - 1;
    if i < n {
      ReplaceTraffic(items[..n], i, item);
      assert items[i := item][..n] == items[..n][i := item];
    } else {
      assert items[i := item][..n] == items[..n];
    }
  }

  /** No byte and no packet is lost or counted twice. */
  lemma {:induction false} TrafficIsConserved(rows: seq<Row>, digest: Key -> string)
    ensures ItemTraffic(Build(rows, digest)) == RowTraffic(rows)
  {
    if rows != [] {
      var before, row := Build(rows[..|rows| - 1], digest), rows[|rows| - 1];
      TrafficIsConserved(rows[..|rows| - 1], digest);
      match IndexOf(before, KeyOf(row)) {
        case None => assert (before + [Absorb(NewItem(row, digest), row)])[..|before|] == before;
        case Some(i) => ReplaceTraffic(before, i, Absorb(before[i], row));
      }
    }
  }

  // ---------------------------------------------------------------- the page

  predicate Before(x: Item, y: Item) {
    x.head.start < y.head.start || (x.head.start == y.head.start && TextLess(x.head.id, y.head.id))
  }

  /** Python's stable sort, as insertion from the left. */
  function Insert(s: seq<Item>, x: Item): seq<Item> {
    if s == [] || !Before(x, s[|s| - 1]) then s + [x] else Insert(s[..|s| - 1], x) + [s[|s| - 1]]
  }

  function Sort(s: seq<Item>): seq<Item> {
    if s == [] then [] else Insert(Sort(s[..|s| - 1]), s[|s| - 1])
  }

  datatype Page = Page(items: seq<Item>, next: Option<nat>, limit: nat, truncated: bool, scanned: nat)

  const MAX_ROWS := 100_000

  function Limit(limit: int): nat { if limit < 1 then 1 else if limit > 5000 then 5000 else limit }

  function Cursor(cursor: int): nat { if cursor < 0 then 0 else cursor }

  /** How many rows a page looks at. */
  function Scan(limit: nat, cursor: nat): nat {
    if 2 * (cursor + limit + 1) < MAX_ROWS then 2 * (cursor + limit + 1) else MAX_ROWS
  }

  function Window(ordered: seq<Item>, cursor: nat, limit: nat): seq<Item> {
    Take(Drop(ordered, cursor), limit + 1)
  }

  function OffsetPage(window: seq<Item>, cursor: nat, limit: nat, truncated: bool, scanned: nat): Page {
    Page(Take(window, limit), if |window| > limit then Some(cursor + limit) else None, limit, truncated, scanned)
  }

  function PageOver(rows: seq<Row>, limit: nat, cursor: nat, truncated: bool, digest: Key -> string): Page {
    OffsetPage(Window(Sort(Build(rows, digest)), cursor, limit), cursor, limit, truncated, |rows|)
  }

  /** The page the service answers with, from the whole table of rows. */
  function ConversationPage(table: seq<Row>, limit: int, cursor: int, digest: Key -> string): Page {
    var n := Scan(Limit(limit), Cursor(cursor));
    PageOver(Take(table, n), Limit(limit), Cursor(cursor), |table| > n, digest)
  }

  /** The page it would answer with after reading every row. */
  function ExactPage(table: seq<Row>, limit: int, cursor: int, digest: Key -> string): Page {
    PageOver(table, Limit(limit), Cursor(cursor), false, digest)
  }

  /** What a page says of itself: a limit from 1 to 5000 is used as given and any other one is moved to
      the nearest; the rows looked at are twice as many as the conversations wanted, two more, and at most
      100,000, or all there are; and the page is called truncated exactly when the table has more. */
  lemma PageSays(table: seq<Row>, limit: int, cursor: int, digest: Key -> string)
    ensures var p := ConversationPage(table, limit, cursor, digest);
      var wanted := (if cursor < 0 then 0 else cursor) + p.limit;
      && 1 <= p.limit <= 5000 && (1 <= limit <= 5000 ==> p.limit == limit) && (limit < 1 ==> p.limit == 1) && (limit > 5000 ==> p.limit == 5000)
      && (p.truncated <==> |table| > 100_000 || |table| > 2 * wanted + 2)
      && (!p.truncated ==> p.scanned == |table|)
      && (p.truncated ==> p.scanned < |table| && (p.scanned == 100_000 <= 2 * wanted + 2 || p.scanned == 2 * wanted + 2 < 100_000))
      && |p.items| <= p.limit && (p.next.Some? ==> p.next.value == wanted && |p.items| == p.limit)
  {
  }

  function Heads(items: seq<Item>): seq<Head> { seq(|items|, i requires 0 <= i < |items| => items[i].head) }

  // ---------------------------------------------------------------- rows in order of time

  /** The table lists rows by start time, as the query orders them. */
  ghost predicate InTimeOrder(rows: seq<Row>) {
    forall i, j :: 0 <= i < j < |rows| ==> rows[i].start <= rows[j].start
  }

  /** No two conversations start at the same time. */
  ghost predicate StartsDiffer(rows: seq<Row>, digest: Key -> string) {
    forall i, j :: 0 <= i < j < |Build(rows, digest)| ==> Build(rows, digest)[i].head.start != Build(rows, digest)[j].head.start
  }

  ghost predicate Ascending(items: seq<Item>) {
    forall i, j :: 0 <= i < j < |items| ==> items[i].head.start < items[j].head.start
  }

  ghost predicate StartedBy(items: seq<Item>, t: real) {
    forall i :: 0 <= i < |items| ==> items[i].head.start <= t
  }

  ghost predicate Listed(items: seq<Item>) {
    forall i, j :: 0 <= i < j < |items| ==> items[i].head.start <= items[j].head.start
  }

  lemma UpsertHeads(items: seq<Item>, row: Row, digest: Key -> string)
    requires StartedBy(items, row.start)
    ensures var after := Heads(Upsert(items, row, digest));
      if IndexOf(items, KeyOf(row)).Some? then after == Heads(items) else after == Heads(items) + [NewItem(row, digest).head]
    ensures StartedBy(Upsert(items, row, digest), row.start)
    ensures Listed(items) ==> Listed(Upsert(items, row, digest))
  {
    var after := Heads(Upsert(items, row, digest));
    if IndexOf(items, KeyOf(row)).Some? {
      assert after == Heads(items);
    }
  }

  /** Rows in time order list conversations by their first row. */
  lemma {:induction false} HeadsInOrder(rows: seq<Row>, digest: Key -> string)
    requires InTimeOrder(rows)
    ensures Listed(Build(rows, digest)) && (rows != [] ==> StartedBy(Build(rows, digest), rows[|rows| - 1].start))
  {
    if rows != [] {
      HeadsInOrder(rows[..|rows| - 1], digest);
      assert StartedBy(Build(rows[..|rows| - 1], digest), rows[|rows| - 1].start);
      UpsertHeads(Build(rows[..|rows| - 1], digest), rows[|rows| - 1], digest);
    }
  }

  /** One more row adds a head at the end, or none. */
  lemma LastRow(rows: seq<Row>, digest: Key -> string)
    requires InTimeOrder(rows) && rows != []
    ensures Heads(Build(rows[..|rows| - 1], digest)) <= Heads(Build(rows, digest))
  {
    HeadsInOrder(rows[..|rows| - 1], digest);
    assert StartedBy(Build(rows[..|rows| - 1], digest), rows[|rows| - 1].start);
    UpsertHeads(Build(rows[..|rows| - 1], digest), rows[|rows| - 1], digest);
  }

  lemma PrefixOfPrefix<T>(a: seq<T>, b: seq<T>, c: seq<T>)
    requires a <= b && b <= c
    ensures a <= c
  {
  }

  /** Reading more rows adds conversations at the end and changes no head. */
  lemma {:induction false} HeadsGrow(rows: seq<Row>, n: nat, digest: Key -> string)
    requires InTimeOrder(rows) && n <= |rows|
    ensures Heads(Build(rows[..n], digest)) <= Heads(Build(rows, digest))
    decreases |rows|
  {
    if n == |rows| {
      assert rows[..n] == rows;
    } else {
      var init := rows[..|rows| - 1];
      assert init[..n] == rows[..n];
      HeadsGrow(init, n, digest);
      LastRow(rows, digest);
      PrefixOfPrefix(Heads(Build(rows[..n], digest)), Heads(Build(init, digest)), Heads(Build(rows, digest)));
    }
  }

  lemma {:induction false} SortedStays(s: seq<Item>)
    requires Ascending(s)
    ensures Sort(s) == s
  {
    if s != [] {
      SortedStays(s[..|s| - 1]);
      assert s == s[..|s| - 1] + [s[|s| - 1]];
    }
  }

  // ---------------------------------------------------------------- how far a page must read

  function Count(rows: seq<Row>, k: Key): nat {
    if rows == [] then 0 else Count(rows[..|rows| - 1], k) + if KeyOf(rows[|rows| - 1]) == k then 1 else 0
  }

  ghost predicate AtMostTwoRows(rows: seq<Row>) {
    forall k :: Count(rows, k) <= 2
  }

  /** An item keeps the ids of its first two rows. */
  lemma {:induction false} RefsCount(rows: seq<Row>, k: Key, digest: Key -> string)
    ensures Conversation(rows, k, digest).None? <==> Count(rows, k) == 0
    ensures Conversation(rows, k, digest).Some? ==>
              |Conversation(rows, k, digest).value.refs| == if Count(rows, k) < 2 then Count(rows, k) else 2
  {
    if rows != [] { RefsCount(rows[..|rows| - 1], k, digest); }
  }

  function RefTotal(items: seq<Item>): nat {
    if items == [] then 0 else RefTotal(items[..|items| - 1]) + |items[|items| - 1].refs|
  }

  lemma {:induction false} ReplaceRefs(items: seq<Item>, i: nat, item: Item)
    requires i < |items|
    ensures RefTotal(items[i := item]) + |items[i].refs| == RefTotal(items) + |item.refs|
  {
    var n := |items| - 1;
    if i < n {
      ReplaceRefs(items[..n], i, item);
      assert items[i := item][..n] == items[..n][i := item];
    } else {
      assert items[i := item][..n] == items[..n];
    }
  }

  lemma {:induction false} TwoRefsEach(items: seq<Item>)
    requires forall i :: 0 <= i < |items| ==> |items[i].refs| <= 2
    ensures RefTotal(items) <= 2 * |items|
  {
    if items != [] { TwoRefsEach(items[..|items| - 1]); }
  }

  lemma {:induction false} RowsAreReferenced(rows: seq<Row>, digest: Key -> string)
    requires AtMostTwoRows(rows)
    ensures RefTotal(Build(rows, digest)) == |rows|
    ensures forall i :: 0 <= i < |Build(rows, digest)| ==> |Build(rows, digest)[i].refs| <= 2
  {
    if rows != [] {
      var init, row := rows[..|rows| - 1], rows[|rows| - 1];
      var items, k := Build(init, digest), KeyOf(row);
      assert AtMostTwoRows(init) by {
        forall q ensures Count(init, q) <= 2 { assert Count(rows, q) <= 2; }
      }
      RowsAreReferenced(init, digest);
      BuildIsLocal(init, digest, k);
      RefsCount(init, k, digest);
      assert Count(rows, k) <= 2;
      match IndexOf(items, k) {
        case None => assert (items + [Absorb(NewItem(row, digest), row)])[..|items|] == items;
        case Some(i) => ReplaceRefs(items, i, Absorb(items[i], row));
      }
    }
  }

  lemma {:induction false} FewerRowsToo(rows: seq<Row>, n: nat, k: Key)
    requires n <= |rows|
    ensures Count(rows[..n], k) <= Count(rows, k)
    decreases |rows|
  {
    if n == |rows| {
      assert rows[..n] == rows;
    } else {
      FewerRowsToo(rows[..|rows| - 1], n, k);
      assert rows[..|rows| - 1][..n] == rows[..n];
    }
  }

  /** With two rows per conversation at most, 2m rows hold at least m conversations. */
  lemma EnoughConversations(rows: seq<Row>, n: nat, digest: Key -> string)
    requires AtMostTwoRows(rows) && n <= |rows|
    ensures n <= 2 * |Build(rows[..n], digest)|
  {
    forall k ensures Count(rows[..n], k) <= 2 { FewerRowsToo(rows, n, k); }
    RowsAreReferenced(rows[..n], digest);
    TwoRefsEach(Build(rows[..n], digest));
  }
}
