/** What the numbers on a conversation page cover: the rows read, and not those behind them. */
module ConversationTotals {
  import opened Wrappers
  import opened Slices
  import opened PythonText
  import opened Conversations
  import opened ConversationOrder
  import opened ConversationPages

  // ---------------------------------------------------------------- traffic behind the prefix

  lemma SentLast(init: seq<Row>, row: Row, k: Key, from: Option<Endpoint>)
    ensures Sent(init + [row], k, from) == Plus(Sent(init, k, from), Sent([row], k, from))
  {
    assert (init + [row])[..|init|] == init && [row][..0] == [];
  }

  lemma PlusShifts(x: Traffic, y: Traffic, z: Traffic)
    ensures Plus(Plus(x, y), z) == Plus(x, Plus(y, z))
  {
  }

  lemma {:induction false} SentAdds(a: seq<Row>, b: seq<Row>, k: Key, from: Option<Endpoint>)
    ensures Sent(a + b, k, from) == Plus(Sent(a, k, from), Sent(b, k, from))
    decreases |b|
  {
    if b == [] {
      assert a + b == a;
    } else {
      var init, row := b[..|b| - 1], b[|b| - 1];
      SentAdds(a, init, k, from);
      SentLast(a + init, row, k, from);
      SentLast(init, row, k, from);
      PlusShifts(Sent(a, k, from), Sent(init, k, from), Sent([row], k, from));
      assert a + b == (a + init) + [row] && b == init + [row];
    }
  }

  /** The traffic of k that the rows carry from one endpoint is none. */
  predicate Silent(rows: seq<Row>, k: Key, from: Option<Endpoint>) { Sent(rows, k, from) == NoTraffic }

  lemma SilentIff(rows: seq<Row>, n: nat, k: Key, from: Option<Endpoint>)
    requires n <= |rows|
    ensures Sent(rows[..n], k, from) == Sent(rows, k, from) <==> Silent(rows[n..], k, from)
  {
    assert rows == rows[..n] + rows[n..];
    SentAdds(rows[..n], rows[n..], k, from);
  }

  /** Rows read later neither withdraw a conversation nor swap its roles. */
  lemma {:induction false} RolesStay(rows: seq<Row>, n: nat, k: Key, digest: Key -> string)
    requires n <= |rows| && Conversation(rows[..n], k, digest).Some?
    ensures var part, full := Conversation(rows[..n], k, digest), Conversation(rows, k, digest);
      full.Some? && part.value.head.source == full.value.head.source && part.value.head.target == full.value.head.target
    decreases |rows|
  {
    if n == |rows| {
      assert rows[..n] == rows;
    } else {
      assert rows[..|rows| - 1][..n] == rows[..n];
      RolesStay(rows[..|rows| - 1], n, k, digest);
    }
  }

  /** A conversation known from the first n rows shows its exact totals, and those of either direction,
      if and only if the rows behind them carry none of that traffic. */
  lemma TotalsAreExactIff(rows: seq<Row>, n: nat, k: Key, digest: Key -> string)
    requires n <= |rows| && Conversation(rows[..n], k, digest).Some?
    ensures Conversation(rows, k, digest).Some?
    ensures var part, full := Conversation(rows[..n], k, digest).value, Conversation(rows, k, digest).value;
      && (part.total == full.total <==> Silent(rows[n..], k, None))
      && (part.toResponder == full.toResponder <==> Silent(rows[n..], k, Some(part.head.source)))
      && (part.toInitiator == full.toInitiator <==> k.a == k.b || Silent(rows[n..], k, Some(part.head.target)))
  {
    RolesStay(rows, n, k, digest);
    DirectionsAddUp(rows[..n], k, digest);
    DirectionsAddUp(rows, k, digest);
    var part := Conversation(rows[..n], k, digest).value;
    SilentIff(rows, n, k, None);
    SilentIff(rows, n, k, Some(part.head.source));
    SilentIff(rows, n, k, Some(part.head.target));
  }

  // ---------------------------------------------------------------- the whole item

  /** The row leaves the times, state and references of the item as they are. */
  predicate AddsNothing(item: Item, row: Row) {
    item.head.start <= row.start && LastSeen(row) <= item.last && (Establishes(row) ==> item.established) && |item.refs| >= 2
  }

  /** An item and what rows read later made of it: same times, state and references. */
  predicate SameSpan(x: Item, y: Item) {
    x.head == y.head && x.last == y.last && x.established == y.established && x.refs == y.refs
  }

  /** Times only widen, states are only gained, references only appended. */
  predicate Widens(x: Item, y: Item) {
    && (x.head.key, x.head.id, x.head.source, x.head.target) == (y.head.key, y.head.id, y.head.source, y.head.target)
    && y.head.start <= x.head.start && x.last <= y.last && (x.established ==> y.established)
    && x.refs <= y.refs && |y.refs| <= 2
  }

  lemma AbsorbWidens(x: Item, y: Item, row: Row)
    requires Widens(x, y)
    ensures Widens(x, Absorb(y, row))
    ensures SameSpan(x, Absorb(y, row)) <==> SameSpan(x, y) && AddsNothing(x, row)
  {
    assert |y.refs| < 2 ==> |Absorb(y, row).refs| > |x.refs|;
  }

  lemma {:induction false} RefsAreTwo(rows: seq<Row>, k: Key, digest: Key -> string)
    ensures Conversation(rows, k, digest).Some? ==> |Conversation(rows, k, digest).value.refs| <= 2
  {
    if rows != [] { RefsAreTwo(rows[..|rows| - 1], k, digest); }
  }

  lemma {:induction false} SpanIsExactIff(rows: seq<Row>, n: nat, k: Key, digest: Key -> string)
    requires n <= |rows| && Conversation(rows[..n], k, digest).Some?
    ensures Conversation(rows, k, digest).Some?
    ensures var part, full := Conversation(rows[..n], k, digest).value, Conversation(rows, k, digest).value;
      Widens(part, full) &&
      (SameSpan(part, full) <==> forall i :: n <= i < |rows| && KeyOf(rows[i]) == k ==> AddsNothing(part, rows[i]))
    decreases |rows|
  {
    if n == |rows| {
      assert rows[..n] == rows;
      RefsAreTwo(rows, k, digest);
    } else {
      var init, last := rows[..|rows| - 1], rows[|rows| - 1];
      assert init[..n] == rows[..n];
      SpanIsExactIff(init, n, k, digest);
      var part := Conversation(rows[..n], k, digest).value;
      assert (forall i :: n <= i < |rows| && KeyOf(rows[i]) == k ==> AddsNothing(part, rows[i])) <==>
             (forall i :: n <= i < |init| && KeyOf(init[i]) == k ==> AddsNothing(part, init[i])) && (KeyOf(last) == k ==> AddsNothing(part, last));
      if KeyOf(last) == k { AbsorbWidens(part, Conversation(init, k, digest).value, last); }
    }
  }

  /** Nothing behind the first n rows changes the item. */
  ghost predicate Settled(item: Item, rest: seq<Row>) {
    && (forall i :: 0 <= i < |rest| && KeyOf(rest[i]) == item.head.key ==> AddsNothing(item, rest[i]))
    && Silent(rest, item.head.key, Some(item.head.source))
    && (item.head.key.a != item.head.key.b ==> Silent(rest, item.head.key, Some(item.head.target)))
    && Silent(rest, item.head.key, None)
  }

  /** The item as a whole is the exact one if and only if the rows behind the prefix carry nothing of
      it, lie within its times, establish nothing new and come when it refers to two rows already. */
  lemma ItemIsExactIff(rows: seq<Row>, n: nat, k: Key, digest: Key -> string)
    requires n <= |rows| && Conversation(rows[..n], k, digest).Some?
    ensures Conversation(rows, k, digest) == Conversation(rows[..n], k, digest) <==>
              Settled(Conversation(rows[..n], k, digest).value, rows[n..])
  {
    TotalsAreExactIff(rows, n, k, digest);
    SpanIsExactIff(rows, n, k, digest);
    DirectionsAddUp(rows[..n], k, digest);
    var part, rest := Conversation(rows[..n], k, digest).value, rows[n..];
    assert (forall i :: n <= i < |rows| && KeyOf(rows[i]) == k ==> AddsNothing(part, rows[i])) <==>
           (forall i :: 0 <= i < |rest| && KeyOf(rest[i]) == k ==> AddsNothing(part, rest[i])) by {
      assert forall i :: n <= i < |rows| ==> rest[i - n] == rows[i];
    }
  }

  /** With two rows per conversation at most, that is: if and only if all its rows were read. */
  lemma TwoRowsSettle(rows: seq<Row>, n: nat, k: Key, digest: Key -> string)
    requires AtMostTwoRows(rows) && n <= |rows|
    ensures Get(Build(rows[..n], digest), k) == Get(Build(rows, digest), k) <==> Count(rows[..n], k) == Count(rows, k)
  {
    BuildIsLocal(rows[..n], digest, k);
    BuildIsLocal(rows, digest, k);
    FewerRowsToo(rows, n, k);
    RefsCount(rows[..n], k, digest);
    RefsCount(rows, k, digest);
    assert Count(rows, k) <= 2;
    if Count(rows[..n], k) == Count(rows, k) { SameRowsSameItem(rows, n, k, digest); }
  }

  lemma {:induction false} SameRowsSameItem(rows: seq<Row>, n: nat, k: Key, digest: Key -> string)
    requires n <= |rows| && Count(rows[..n], k) == Count(rows, k)
    ensures Conversation(rows[..n], k, digest) == Conversation(rows, k, digest)
    decreases |rows|
  {
    if n == |rows| {
      assert rows[..n] == rows;
    } else {
      var init := rows[..|rows| - 1];
      assert init[..n] == rows[..n];
      FewerRowsToo(init, n, k);
      SameRowsSameItem(init, n, k, digest);
    }
  }

  // ---------------------------------------------------------------- on a page

  /** An item of a page is the conversation its key has in the rows read. */
  lemma ListedIs(rows: seq<Row>, limit: nat, cursor: nat, truncated: bool, i: nat, digest: Key -> string)
    requires i < |PageOver(rows, limit, cursor, truncated, digest).items|
    ensures var x := PageOver(rows, limit, cursor, truncated, digest).items[i];
      Conversation(rows, x.head.key, digest) == Some(x)
  {
    var x := PageOver(rows, limit, cursor, truncated, digest).items[i];
    assert x == Sort(Build(rows, digest))[cursor + i];
    SortedFrom(Build(rows, digest), x);
    BuiltIs(rows, x, digest);
  }

  lemma SortedFrom(items: seq<Item>, x: Item)
    requires x in Sort(items)
    ensures x in items
  {
    SortSorts(items);
    assert x in multiset(Sort(items));
  }

  lemma BuiltIs(rows: seq<Row>, x: Item, digest: Key -> string)
    requires x in Build(rows, digest)
    ensures Conversation(rows, x.head.key, digest) == Some(x)
  {
    BuildIsLocal(rows, digest, x.head.key);
    var j :| 0 <= j < |Build(rows, digest)| && Build(rows, digest)[j] == x;
    GetIs(Build(rows, digest), j);
  }

  function Read(table: seq<Row>, limit: int, cursor: int): nat {
    var n := Scan(Limit(limit), Cursor(cursor));
    if n < |table| then n else |table|
  }

  /** For every table, limit and cursor, and every conversation on that page: it is the exact item, or
      has the exact totals, if and only if the rows behind the prefix say nothing more of it. */
  lemma PageItemsAreExactIff(table: seq<Row>, limit: int, cursor: int, i: nat, digest: Key -> string)
    requires i < |ConversationPage(table, limit, cursor, digest).items|
    ensures var x, rest := ConversationPage(table, limit, cursor, digest).items[i], table[Read(table, limit, cursor)..];
      var full := Conversation(table, x.head.key, digest);
      && full.Some?
      && (full == Some(x) <==> Settled(x, rest))
      && (x.total == full.value.total <==> Silent(rest, x.head.key, None))
      && (x.toResponder == full.value.toResponder <==> Silent(rest, x.head.key, Some(x.head.source)))
      && (x.toInitiator == full.value.toInitiator <==> x.head.key.a == x.head.key.b || Silent(rest, x.head.key, Some(x.head.target)))
  {
    var n := Read(table, limit, cursor);
    var x := ConversationPage(table, limit, cursor, digest).items[i];
    assert Take(table, Scan(Limit(limit), Cursor(cursor))) == table[..n];
    ListedIs(table[..n], Limit(limit), Cursor(cursor), |table| > Scan(Limit(limit), Cursor(cursor)), i, digest);
    TotalsAreExactIff(table, n, x.head.key, digest);
    ItemIsExactIff(table, n, x.head.key, digest);
  }
}
