/** `_pcap_conversation_page` with the dictionary it fills row by row. */
module ConversationReader {
  import opened Wrappers
  import opened Slices
  import opened Conversations

  /** The dictionary holds exactly the items, in the order they were inserted. */
  ghost predicate Holds(order: seq<Key>, conversations: map<Key, Item>, items: seq<Item>) {
    DistinctKeys(items) && Lists(order, items) && Maps(conversations, items)
  }

  ghost predicate Lists(order: seq<Key>, items: seq<Item>) {
    |order| == |items| && forall i :: 0 <= i < |items| ==> order[i] == items[i].head.key
  }

  ghost predicate Maps(conversations: map<Key, Item>, items: seq<Item>) {
    forall k :: Get(items, k) == if k in conversations then Some(conversations[k]) else None
  }

  lemma HoldsAfter(order: seq<Key>, conversations: map<Key, Item>, items: seq<Item>, row: Row, digest: Key -> string)
    requires Holds(order, conversations, items)
    ensures var k := KeyOf(row);
      var item := if k in conversations then conversations[k] else NewItem(row, digest);
      Holds(if k in conversations then order else order + [k], conversations[k := Absorb(item, row)], Upsert(items, row, digest))
  {
    var k := KeyOf(row);
    UpsertKeys(items, row, digest);
    assert Get(items, k) == if k in conversations then Some(conversations[k]) else None;
    ListsAfter(order, items, row, digest);
    MapsAfter(conversations, items, row, digest);
  }

  lemma ListsAfter(order: seq<Key>, items: seq<Item>, row: Row, digest: Key -> string)
    requires Lists(order, items)
    ensures Lists(if IndexOf(items, KeyOf(row)).Some? then order else order + [KeyOf(row)], Upsert(items, row, digest))
  {
  }

  lemma MapsAfter(conversations: map<Key, Item>, items: seq<Item>, row: Row, digest: Key -> string)
    requires DistinctKeys(items) && Maps(conversations, items)
    ensures var k := KeyOf(row);
      var item := if k in conversations then conversations[k] else NewItem(row, digest);
      Maps(conversations[k := Absorb(item, row)], Upsert(items, row, digest))
  {
    assert Get(items, KeyOf(row)) == if KeyOf(row) in conversations then Some(conversations[KeyOf(row)]) else None;
    forall q { UpsertGet(items, row, digest, q); }
  }

  /** The values of the dictionary are the items. */
  lemma ValuesAre(order: seq<Key>, conversations: map<Key, Item>, items: seq<Item>, i: nat)
    requires Holds(order, conversations, items) && i < |order|
    ensures order[i] in conversations && conversations[order[i]] == items[i]
  {
    GetIs(items, i);
    assert Get(items, items[i].head.key) == Some(items[i]);
  }

  method ReadPage(table: seq<Row>, limit: int, cursor: int, digest: Key -> string) returns (page: Page)
    ensures page == ConversationPage(table, limit, cursor, digest)
  {
    var size, from := Limit(limit), Cursor(cursor);
    var maximum := Scan(size, from);
    var fetched := Take(table, maximum + 1);
    var truncated := |fetched| > maximum;
    var rows := Take(fetched, maximum);
    assert rows == Take(table, maximum);
    var conversations, order := Fill(rows, digest);
    forall i | 0 <= i < |order| ensures order[i] in conversations && conversations[order[i]] == Build(rows, digest)[i] {
      ValuesAre(order, conversations, Build(rows, digest), i);
    }
    var values := seq(|order|, i requires 0 <= i < |order| && order[i] in conversations => conversations[order[i]]);
    assert values == Build(rows, digest);
    page := OffsetPage(Window(Sort(values), from, size), from, size, truncated, |rows|);
  }

  /** The dictionary, filled row by row. */
  method Fill(rows: seq<Row>, digest: Key -> string) returns (conversations: map<Key, Item>, order: seq<Key>)
    ensures Holds(order, conversations, Build(rows, digest))
  {
    conversations, order := map[], [];
    for i := 0 to |rows|
      invariant Holds(order, conversations, Build(rows[..i], digest))
    {
      var row := rows[i];
      assert rows[..i + 1][..i] == rows[..i];
      HoldsAfter(order, conversations, Build(rows[..i], digest), row, digest);
      var key := KeyOf(row);
      var item;
      if key in conversations {
        item := conversations[key];
      } else {
        item := NewItem(row, digest);
        order := order + [key];
      }
      conversations := conversations[key := Absorb(item, row)];
    }
    assert rows[..|rows|] == rows;
  }
}
