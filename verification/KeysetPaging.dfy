/**
 Keyset pages of flows and findings (core/api/service.py, `flow_page`, `finding_page`, `_page`): the
 database returns rows in a strict descending order, a page ends with a textual cursor that names its
 last row, and the next page asks for what comes strictly after it.
 */
module KeysetPaging {
  import opened Wrappers
  import opened Slices
  import opened CursorJson
  import opened CursorCodec

  /** Flows rank by packet count, findings by the time they were last seen. */
  datatype Row<R> = Row(rank: R, id: int)

  /** How ranks compare, and how they stand in a cursor under `field`. */
  datatype Scheme<!R(!new)> = Scheme(field: string, less: (R, R) -> bool, write: R -> Value, read: Value -> Option<R>)

  ghost predicate Sound<R(!new)>(k: Scheme<R>) {
    && k.field != "id"
    && (forall r :: Printable(k.write(r)) && k.read(k.write(r)) == Some(r))
    && (forall r, q :: !(k.less(r, q) && k.less(q, r)))
  }

  // ---------------------------------------------------------------- the database

  /** Row `y` comes after row `x`: lower rank, or the same rank and a lower id. */
  predicate Follows<R(!new)>(k: Scheme<R>, x: Row<R>, y: Row<R>) {
    k.less(y.rank, x.rank) || (!k.less(x.rank, y.rank) && !k.less(y.rank, x.rank) && y.id < x.id)
  }

  function Rest<R(!new)>(k: Scheme<R>, table: seq<Row<R>>, last: Row<R>): seq<Row<R>> {
    if table == [] then []
    else if Follows(k, last, table[0]) then [table[0]] + Rest(k, table[1..], last)
    else Rest(k, table[1..], last)
  }

  /** The first `count` rows strictly after `last`, `offset` of them skipped. */
  function Query<R(!new)>(k: Scheme<R>, table: seq<Row<R>>, last: Option<Row<R>>, offset: nat, count: nat): seq<Row<R>> {
    Take(Drop(if last.None? then table else Rest(k, table, last.value), offset), count)
  }

  /** The query orders by rank and id descending, and no two rows share both. */
  ghost predicate InOrder<R(!new)>(k: Scheme<R>, table: seq<Row<R>>) {
    forall i, j :: 0 <= i < j < |table| ==> Follows(k, table[i], table[j])
  }

  // ---------------------------------------------------------------- a page

  datatype Page<R> = Page(items: seq<Row<R>>, next: Option<string>, limit: nat)

  function Issue<R(!new)>(k: Scheme<R>, row: Row<R>): seq<Member> { [Member(k.field, k.write(row.rank)), Member("id", Int(row.id))] }

  /** The row a position names; a cursor without both members starts from the top. */
  function Named<R(!new)>(k: Scheme<R>, fields: map<string, Value>): Option<Row<R>> {
    if k.field !in fields || "id" !in fields || !fields["id"].Int? then None
    else match k.read(fields[k.field])
      case None => None
      case Some(rank) => Some(Row(rank, fields["id"].i))
  }

  function PageFrom<R(!new)>(k: Scheme<R>, rows: seq<Row<R>>, limit: nat): Page<R>
    requires Sound(k) && limit >= 1
  {
    Page(Take(rows, limit), if |rows| > limit then Some(Cursor(k, rows[limit - 1])) else None, limit)
  }

  function Cursor<R(!new)>(k: Scheme<R>, row: Row<R>): string
    requires Sound(k)
  {
    EncodeCursor(Issue(k, row))
  }

  /** None is the answer to an invalid cursor. */
  function GetPage<R(!new)>(k: Scheme<R>, table: seq<Row<R>>, cursor: CursorCodec.Cursor, limit: nat): Option<Page<R>>
    requires Sound(k) && limit >= 1
  {
    Answered(k, table, DecodeCursor(cursor), limit)
  }

  function Answered<R(!new)>(k: Scheme<R>, table: seq<Row<R>>, position: Option<Position>, limit: nat): Option<Page<R>>
    requires Sound(k) && limit >= 1
  {
    match position
    case None => None
    case Some(Start) => Some(PageFrom(k, Query(k, table, None, 0, limit + 1), limit))
    case Some(Offset(n)) => Some(PageFrom(k, Query(k, table, None, n, limit + 1), limit))
    case Some(After(fields)) => Some(PageFrom(k, Query(k, table, Named(k, fields), 0, limit + 1), limit))
  }

  // ---------------------------------------------------------------- following the cursor

  lemma CursorNames<R(!new)>(k: Scheme<R>, row: Row<R>)
    requires Sound(k)
    ensures DecodeCursor(Token(Cursor(k, row))).Some? && DecodeCursor(Token(Cursor(k, row))).value.After?
    ensures Named(k, DecodeCursor(Token(Cursor(k, row))).value.fields) == Some(row)
  {
    var ms := Issue(k, row);
    CursorRoundTrip(ms);
    assert ms[..1] == [ms[0]] && ms[..1][..0] == [];
    assert Dict(ms[..1]) == map[k.field := k.write(row.rank)];
    assert Dict(ms) == map[k.field := k.write(row.rank), "id" := Int(row.id)];
  }

  lemma {:induction false} NothingBefore<R(!new)>(k: Scheme<R>, table: seq<Row<R>>, last: Row<R>, n: nat)
    requires n <= |table| && forall i :: 0 <= i < n ==> !Follows(k, last, table[i])
    ensures Rest(k, table, last) == Rest(k, table[n..], last)
    decreases n
  {
    if n > 0 {
      NothingBefore(k, table[1..], last, n - 1);
      assert table[1..][n - 1..] == table[n..];
    } else {
      assert table[0..] == table;
    }
  }

  lemma {:induction false} EverythingAfter<R(!new)>(k: Scheme<R>, table: seq<Row<R>>, last: Row<R>)
    requires forall i :: 0 <= i < |table| ==> Follows(k, last, table[i])
    ensures Rest(k, table, last) == table
  {
    if table != [] { EverythingAfter(k, table[1..], last); }
  }

  /** What comes after the i-th row is the rest of the table. */
  lemma RestIsSuffix<R(!new)>(k: Scheme<R>, table: seq<Row<R>>, i: nat)
    requires Sound(k) && InOrder(k, table) && i < |table|
    ensures Rest(k, table, table[i]) == table[i + 1..]
  {
    forall j | 0 <= j < i + 1 ensures !Follows(k, table[i], table[j]) {
      if j < i { assert Follows(k, table[j], table[i]); }
    }
    NothingBefore(k, table, table[i], i + 1);
    var rest := table[i + 1..];
    forall j | 0 <= j < |rest| ensures Follows(k, table[i], rest[j]) {
      assert rest[j] == table[i + 1 + j];
    }
    EverythingAfter(k, rest, table[i]);
  }

  /** At most `n` pages from the cursor on, and whether that was all. */
  function Walk<R(!new)>(get: CursorCodec.Cursor -> Option<Page<R>>, cursor: CursorCodec.Cursor, n: nat): (seq<Row<R>>, bool)
    decreases n
  {
    if n == 0 then ([], false)
    else match get(cursor)
      case None => ([], false)
      case Some(p) =>
        if p.next.None? then (p.items, true)
        else
          var (rest, done) := Walk(get, Token(p.next.value), n - 1);
          (p.items + rest, done)
  }

  /** The page of `limit` rows from position `from` on, its cursor naming its last row. */
  function PageAt<R(!new)>(table: seq<Row<R>>, name: Row<R> -> string, from: nat, limit: nat): Page<R>
    requires from <= |table| && limit >= 1
  {
    Page(Take(table[from..], limit), if |table| - from > limit then Some(name(table[from + limit - 1])) else None, limit)
  }

  /** The cursor of row `i` is answered with the page after it. */
  ghost predicate Answers<R(!new)>(get: CursorCodec.Cursor -> Option<Page<R>>, name: Row<R> -> string,
                                   table: seq<Row<R>>, limit: nat, i: nat)
    requires limit >= 1 && i < |table|
  {
    get(Token(name(table[i]))) == Some(PageAt(table, name, i + 1, limit))
  }

  lemma {:induction false} WalkFromRow<R(!new)>(get: CursorCodec.Cursor -> Option<Page<R>>, name: Row<R> -> string,
                                                table: seq<Row<R>>, from: nat, limit: nat, n: nat, cursor: CursorCodec.Cursor)
    requires limit >= 1 && from <= |table| && n > |table| - from
    requires forall i :: 0 <= i < |table| ==> Answers(get, name, table, limit, i)
    requires get(cursor) == Some(PageAt(table, name, from, limit))
    ensures Walk(get, cursor, n) == (table[from..], true)
    decreases n
  {
    if |table| - from > limit {
      var last := table[from + limit - 1];
      assert Answers(get, name, table, limit, from + limit - 1);
      WalkFromRow(get, name, table, from + limit, limit, n - 1, Token(name(last)));
      assert table[from..][..limit] + table[from + limit..] == table[from..];
    }
  }

  // ---------------------------------------------------------------- the pages of the table

  /** One row too many is fetched to see whether there is a next page. */
  lemma PageOfRest<R(!new)>(k: Scheme<R>, table: seq<Row<R>>, from: nat, limit: nat)
    requires Sound(k) && limit >= 1 && from <= |table|
    ensures PageFrom(k, Take(Drop(table[from..], 0), limit + 1), limit) == PageAt(table, Name(k), from, limit)
  {
    var rest := table[from..];
    assert Drop(rest, 0) == rest;
    if |rest| > limit { assert rest[..limit + 1][limit - 1] == table[from + limit - 1]; }
  }

  /** An issued cursor is answered with what comes after the row it names. */
  lemma PageOfCursor<R(!new)>(k: Scheme<R>, table: seq<Row<R>>, row: Row<R>, limit: nat)
    requires Sound(k) && limit >= 1
    ensures GetPage(k, table, Token(Cursor(k, row)), limit) == Some(PageFrom(k, Take(Drop(Rest(k, table, row), 0), limit + 1), limit))
  {
    CursorNames(k, row);
  }

  lemma PageAfterRow<R(!new)>(k: Scheme<R>, table: seq<Row<R>>, i: nat, limit: nat)
    requires Sound(k) && InOrder(k, table) && i < |table| && limit >= 1
    ensures GetPage(k, table, Token(Cursor(k, table[i])), limit) == Some(PageAt(table, Name(k), i + 1, limit))
  {
    PageOfCursor(k, table, table[i], limit);
    RestIsSuffix(k, table, i);
    PageOfRest(k, table, i + 1, limit);
  }

  function Service<R(!new)>(k: Scheme<R>, table: seq<Row<R>>, limit: nat): CursorCodec.Cursor -> Option<Page<R>>
    requires Sound(k) && limit >= 1
  {
    (cursor: CursorCodec.Cursor) => GetPage(k, table, cursor, limit)
  }

  function Name<R(!new)>(k: Scheme<R>): Row<R> -> string
    requires Sound(k)
  {
    (row: Row<R>) => Cursor(k, row)
  }

  lemma ServiceAnswers<R(!new)>(k: Scheme<R>, table: seq<Row<R>>, i: nat, limit: nat)
    requires Sound(k) && InOrder(k, table) && i < |table| && limit >= 1
    ensures Answers(Service(k, table, limit), Name(k), table, limit, i)
  {
    PageAfterRow(k, table, i, limit);
  }

  lemma ServiceStarts<R(!new)>(k: Scheme<R>, table: seq<Row<R>>, limit: nat)
    requires Sound(k) && limit >= 1
    ensures Service(k, table, limit)(Absent) == Some(PageAt(table, Name(k), 0, limit))
  {
    PageOfRest(k, table, 0, limit);
    assert table[0..] == table;
  }

  function Least(m: nat, n: nat): nat { if m <= n then m else n }

  lemma Skipping<R(!new)>(k: Scheme<R>, table: seq<Row<R>>, n: nat, limit: nat)
    requires Sound(k) && limit >= 1
    ensures PageFrom(k, Query(k, table, None, n, limit + 1), limit) == PageAt(table, Name(k), Least(n, |table|), limit)
  {
    var from := Least(n, |table|);
    assert Drop(table, n) == Drop(table[from..], 0);
    PageOfRest(k, table, from, limit);
  }

  /** A numeric position skips that many rows, and the page is empty beyond the table; one that is empty or
      lacks a member starts at the top. */
  lemma OtherPositions<R(!new)>(k: Scheme<R>, table: seq<Row<R>>, position: Position, limit: nat)
    requires Sound(k) && limit >= 1
    requires position.After? ==> k.field !in position.fields || "id" !in position.fields
    ensures var from := if position.Offset? then Least(position.n, |table|) else 0;
      Answered(k, table, Some(position), limit) == Some(PageAt(table, Name(k), from, limit))
  {
    Skipping(k, table, if position.Offset? then position.n else 0, limit);
  }

  /** Following the cursors from the beginning ends, and the pages put together are the whole table. */
  lemma WalkIsTable<R(!new)>(k: Scheme<R>, table: seq<Row<R>>, limit: nat)
    requires Sound(k) && InOrder(k, table) && limit >= 1
    ensures Walk(Service(k, table, limit), Absent, |table| + 1) == (table, true)
  {
    forall i | 0 <= i < |table| ensures Answers(Service(k, table, limit), Name(k), table, limit, i) {
      ServiceAnswers(k, table, i, limit);
    }
    ServiceStarts(k, table, limit);
    WalkFromRow(Service(k, table, limit), Name(k), table, 0, limit, |table| + 1, Absent);
    assert table[0..] == table;
  }

  // ---------------------------------------------------------------- the two page families

  const Flows: Scheme<int> := Scheme("packet_count", (x, y) => x < y, (x: int) => Int(x), (v: Value) => if v.Int? then Some(v.i) else None)

  lemma FlowsAreSound()
    ensures Sound(Flows)
  {
  }

  /** Findings rank by a float.  A finite float is an integer number of its smallest unit; `token` and
      `parse` are Python's `repr` and `float`. */
  function Findings(token: int -> string, parse: string -> int): Scheme<int> {
    Scheme("last_seen", (x, y) => x < y, (x: int) => Float(token(x)), (v: Value) => if v.Float? then Some(parse(v.token)) else None)
  }

  lemma FindingsAreSound(token: int -> string, parse: string -> int)
    requires forall x :: Printable(Float(token(x))) && parse(token(x)) == x
    ensures Sound(Findings(token, parse))
  {
  }

  /** Higher rank first, and among equal ranks the higher id. */
  ghost predicate Descending(table: seq<Row<int>>) {
    forall i, j :: 0 <= i < j < |table| ==>
      table[i].rank > table[j].rank || (table[i].rank == table[j].rank && table[i].id > table[j].id)
  }

  lemma DescendingIff(table: seq<Row<int>>, token: int -> string, parse: string -> int)
    ensures InOrder(Flows, table) <==> Descending(table)
    ensures InOrder(Findings(token, parse), table) <==> Descending(table)
  {
    var findings := Findings(token, parse);
    forall x: Row<int>, y: Row<int>
      ensures Follows(Flows, x, y) <==> x.rank > y.rank || (x.rank == y.rank && x.id > y.id)
      ensures Follows(findings, x, y) <==> Follows(Flows, x, y) { }
  }

  /** Both page families list their table once and completely, page by page. */
  lemma PagesListEverything(flows: seq<Row<int>>, findings: seq<Row<int>>, token: int -> string, parse: string -> int, limit: nat)
    requires Descending(flows) && Descending(findings) && limit >= 1
    requires forall x :: Printable(Float(token(x))) && parse(token(x)) == x
    ensures Sound(Flows) && Sound(Findings(token, parse))
    ensures Walk(Service(Flows, flows, limit), Absent, |flows| + 1) == (flows, true)
    ensures Walk(Service(Findings(token, parse), findings, limit), Absent, |findings| + 1) == (findings, true)
  {
    FlowsAreSound();
    FindingsAreSound(token, parse);
    DescendingIff(flows, token, parse);
    DescendingIff(findings, token, parse);
    WalkIsTable(Flows, flows, limit);
    WalkIsTable(Findings(token, parse), findings, limit);
  }
}
