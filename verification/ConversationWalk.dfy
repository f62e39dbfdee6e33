/** What following the cursor from page to page visits. */
module ConversationWalk {
  import opened Wrappers
  import opened Slices
  import opened Conversations
  import opened ConversationOrder
  import opened ConversationPages

  // ---------------------------------------------------------------- conversations that start apart

  lemma TakenNotDisturbed(table: seq<Row>, n: nat, q: nat, digest: Key -> string)
    requires InTimeOrder(table) && StartsDiffer(table, digest)
    ensures ReadUndisturbed(table, n, q, digest)
  {
    assert Take(table, n) == table[..if n < |table| then n else |table|];
    OnlyTiesDisturb(table, if n < |table| then n else |table|, q, digest);
  }

  lemma PageNotDisturbed(table: seq<Row>, limit: int, cursor: int, digest: Key -> string)
    requires InTimeOrder(table) && StartsDiffer(table, digest)
    ensures PageUndisturbed(table, limit, cursor, digest)
  {
    TakenNotDisturbed(table, Scan(Limit(limit), Cursor(cursor)), LastPlace(Limit(limit), Cursor(cursor)), digest);
  }

  lemma PrefixPageIsExact(table: seq<Row>, limit: int, cursor: int, digest: Key -> string)
    requires InTimeOrder(table) && StartsDiffer(table, digest) && AtMostTwoRows(table) && Uncapped(table, limit, cursor)
    ensures SameListing(ConversationPage(table, limit, cursor, digest), ExactPage(table, limit, cursor, digest))
  {
    PrefixPageIsExactIff(table, limit, cursor, digest);
    PageNotDisturbed(table, limit, cursor, digest);
  }

  // ---------------------------------------------------------------- following the cursor

  lemma UpsertGrows(items: seq<Item>, row: Row, digest: Key -> string)
    ensures |Upsert(items, row, digest)| <= |items| + 1
  {
  }

  lemma {:induction false} FewerItemsThanRows(rows: seq<Row>, digest: Key -> string)
    ensures |Build(rows, digest)| <= |rows|
  {
    if rows != [] {
      FewerItemsThanRows(rows[..|rows| - 1], digest);
      UpsertGrows(Build(rows[..|rows| - 1], digest), rows[|rows| - 1], digest);
    }
  }

  lemma NextCursorIsNear(table: seq<Row>, limit: int, cursor: int, digest: Key -> string)
    ensures var p := ConversationPage(table, limit, cursor, digest);
      p.next.Some? ==> Cursor(cursor) < p.next.value < MAX_ROWS
  {
    var rows := Take(table, Scan(Limit(limit), Cursor(cursor)));
    FewerItemsThanRows(rows, digest);
    SortSorts(Build(rows, digest));
  }

  /** Cursors only move forward, and not past the cap. */
  ghost predicate Advances(page: nat -> Page) {
    forall c: nat :: page(c).next.Some? ==> c < page(c).next.value < MAX_ROWS
  }

  /** Every page from `cursor` on, one after the other. */
  ghost function Walk(page: nat -> Page, cursor: nat): seq<Head>
    requires Advances(page)
    decreases MAX_ROWS - cursor
  {
    Heads(page(cursor).items) + if page(cursor).next.Some? then Walk(page, page(cursor).next.value) else []
  }

  function Pages(table: seq<Row>, limit: int, digest: Key -> string): nat -> Page {
    (cursor: nat) => ConversationPage(table, limit, cursor, digest)
  }

  /** Following the cursor ends, for any table whatever. */
  lemma WalkEnds(table: seq<Row>, limit: int, digest: Key -> string)
    ensures Advances(Pages(table, limit, digest))
  {
    forall c: nat | Pages(table, limit, digest)(c).next.Some?
      ensures c < Pages(table, limit, digest)(c).next.value < MAX_ROWS
    {
      NextCursorIsNear(table, limit, c, digest);
    }
  }

  /** True at every `step`th place from c on, below n. */
  ghost predicate Every(p: nat -> bool, step: nat, n: nat, c: nat)
    requires step >= 1
    decreases n - c
  {
    p(c) && (c + step < n ==> Every(p, step, n, c + step))
  }

  ghost function Undisturbances(table: seq<Row>, limit: int, digest: Key -> string): nat -> bool {
    (cursor: nat) => PageUndisturbed(table, limit, cursor, digest)
  }

  /** No page boundary from `cursor` on is disturbed. */
  ghost predicate WalkUndisturbed(table: seq<Row>, limit: int, cursor: nat, digest: Key -> string) {
    Every(Undisturbances(table, limit, digest), Limit(limit), |Build(table, digest)|, cursor)
  }

  lemma StretchOf(s: seq<Head>, n: nat, l: nat, c: nat)
    requires |s| == n || c + l < |s| <= n
    requires c <= n
    ensures |Take(Drop(s, c), l)| == (if n > c + l then l else n - c)
    ensures |s| == n ==> Take(Drop(s, c), l) == s[c..c + if n > c + l then l else n - c]
    ensures |s| > c + l <==> n > c + l
  {
  }

  /** As long as the page of n conversations at c, and leading where it leads. */
  predicate Shaped(p: Page, n: nat, l: nat, c: nat)
    requires c <= n
  {
    p.next == (if n > c + l then Some(c + l) else None) && |p.items| == if n > c + l then l else n - c
  }

  lemma PageShape(s: seq<Head>, p: Page, n: nat, l: nat, c: nat)
    requires (|s| == n || c + l < |s| <= n) && c <= n
    requires Heads(p.items) == Take(Drop(s, c), l) && p.next == if |s| > c + l then Some(c + l) else None
    ensures Shaped(p, n, l, c) && (|s| == n ==> Heads(p.items) == s[c..c + |p.items|])
  {
    StretchOf(s, n, l, c);
    assert |Heads(p.items)| == |p.items|;
  }

  lemma PagesShape(table: seq<Row>, limit: int, cursor: nat, digest: Key -> string)
    requires InTimeOrder(table) && AtMostTwoRows(table) && |table| <= MAX_ROWS && cursor <= |Build(table, digest)|
    ensures Shaped(ConversationPage(table, limit, cursor, digest), |Build(table, digest)|, Limit(limit), cursor)
  {
    var l := Limit(limit);
    var rows := Take(table, Scan(l, cursor));
    PageLists(rows, l, cursor, |table| > Scan(l, cursor), digest);
    FoundEnough(table, limit, cursor, digest);
    assert |Heads(Build(rows, digest))| == |Build(rows, digest)| && |Heads(Build(table, digest))| == |Build(table, digest)|;
    PageShape(SortHeads(Heads(Build(rows, digest))), ConversationPage(table, limit, cursor, digest), |Build(table, digest)|, l, cursor);
  }

  /** The exact page is a stretch of the whole listing. */
  lemma ExactShape(table: seq<Row>, l: nat, c: nat, all: seq<Head>, p: Page, digest: Key -> string)
    requires all == SortHeads(Heads(Build(table, digest))) && p == PageOver(table, l, c, false, digest)
    requires c <= |Build(table, digest)|
    ensures |all| == |Build(table, digest)| && Shaped(p, |all|, l, c) && Heads(p.items) == all[c..c + |p.items|]
  {
    PageLists(table, l, c, false, digest);
    PageShape(all, p, |all|, l, c);
  }

  /** As long as the exact page, and showing the same conversations exactly when `same`. */
  ghost predicate Fits(p: Page, all: seq<Head>, same: bool, l: nat, c: nat) {
    c <= |all| && Shaped(p, |all|, l, c) && (Heads(p.items) == all[c..c + |p.items|] <==> same)
  }

  lemma FitsByExact(p: Page, e: Page, all: seq<Head>, same: bool, l: nat, c: nat)
    requires c <= |all| && Shaped(p, |all|, l, c) && Shaped(e, |all|, l, c) && p.limit == e.limit
    requires Heads(e.items) == all[c..c + |e.items|] && (SameListing(p, e) <==> same)
    ensures Fits(p, all, same, l, c)
  {
  }

  /** A page of a table within the cap: as many conversations as the exact page, and the same ones if
      and only if it is not disturbed. */
  lemma PageFits(table: seq<Row>, limit: int, c: nat, l: nat, all: seq<Head>, p: Page, e: Page, digest: Key -> string)
    requires InTimeOrder(table) && AtMostTwoRows(table) && |table| <= MAX_ROWS && c <= |Build(table, digest)|
    requires all == SortHeads(Heads(Build(table, digest))) && l == Limit(limit)
    requires p == ConversationPage(table, limit, c, digest) && e == ExactPage(table, limit, c, digest)
    ensures Fits(p, all, PageUndisturbed(table, limit, c, digest), l, c)
  {
    ExactShape(table, l, c, all, e, digest);
    PagesShape(table, limit, c, digest);
    PrefixPageIsExactIff(table, limit, c, digest);
    FitsByExact(p, e, all, PageUndisturbed(table, limit, c, digest), l, c);
  }

  lemma SplitEqual(a: seq<Head>, b: seq<Head>, all: seq<Head>, from: nat)
    requires from + |a| <= |all|
    ensures a + b == all[from..] <==> (a == all[from..from + |a|] && b == all[from + |a|..])
  {
    assert all[from..] == all[from..from + |a|] + all[from + |a|..];
    if a + b == all[from..] {
      assert a == (a + b)[..|a|] && b == (a + b)[|a|..];
    }
  }

  lemma LastPageOfWalk(page: nat -> Page, c: nat, all: seq<Head>)
    requires Advances(page) && c + |page(c).items| == |all| && page(c).next.None?
    ensures Walk(page, c) == all[c..] <==> Heads(page(c).items) == all[c..|all|]
  {
    assert Walk(page, c) == Heads(page(c).items) + [] == Heads(page(c).items);
    assert all[c..] == all[c..|all|];
  }

  lemma PageOfWalk(page: nat -> Page, c: nat, d: nat, all: seq<Head>)
    requires Advances(page) && d == c + |page(c).items| < |all| && page(c).next == Some(d)
    ensures Walk(page, c) == all[c..] <==> Heads(page(c).items) == all[c..d] && Walk(page, d) == all[d..]
  {
    assert Walk(page, c) == Heads(page(c).items) + Walk(page, d);
    SplitEqual(Heads(page(c).items), Walk(page, d), all, c);
  }

  lemma WalkStep(page: nat -> Page, p: Page, all: seq<Head>, same: bool, l: nat, c: nat)
    requires Advances(page) && p == page(c) && l >= 1 && Fits(p, all, same, l, c)
    ensures c + l < |all| ==> p.next == Some(c + l)
    ensures Walk(page, c) == all[c..] <==> same && (c + l < |all| ==> Walk(page, c + l) == all[c + l..])
  {
    if c + l < |all| { PageOfWalk(page, c, c + l, all); } else { LastPageOfWalk(page, c, all); }
  }

  /** The walk from c on is the rest of the listing. */
  ghost function WalksRight(page: nat -> Page, all: seq<Head>): nat -> bool
    requires Advances(page)
  {
    (c: nat) => c <= |all| && Walk(page, c) == all[c..]
  }

  /** One page decides about itself and leaves the rest to the next. */
  ghost predicate Step(w: nat -> bool, p: nat -> bool, l: nat, n: nat, c: nat) {
    w(c) <==> p(c) && (c + l < n ==> w(c + l))
  }

  lemma {:induction false} StepsToEvery(w: nat -> bool, p: nat -> bool, l: nat, n: nat, c: nat)
    requires l >= 1 && c <= n && forall i: nat :: i <= n ==> Step(w, p, l, n, i)
    ensures w(c) <==> Every(p, l, n, c)
    decreases n - c
  {
    assert Step(w, p, l, n, c);
    if c + l < n { StepsToEvery(w, p, l, n, c + l); }
  }

  lemma StepAt(page: nat -> Page, all: seq<Head>, p: nat -> bool, l: nat, c: nat)
    requires Advances(page) && l >= 1 && c <= |all| && Fits(page(c), all, p(c), l, c)
    ensures Step(WalksRight(page, all), p, l, |all|, c)
  {
    WalkStep(page, page(c), all, p(c), l, c);
  }

  lemma {:induction false} WalkIff(page: nat -> Page, all: seq<Head>, p: nat -> bool, l: nat)
    requires Advances(page) && l >= 1 && forall c: nat :: c <= |all| ==> Fits(page(c), all, p(c), l, c)
    ensures Walk(page, 0) == all <==> Every(p, l, |all|, 0)
  {
    var w := WalksRight(page, all);
    forall i: nat | i <= |all| ensures Step(w, p, l, |all|, i) {
      StepAt(page, all, p, l, i);
    }
    StepsToEvery(w, p, l, |all|, 0);
    assert all[0..] == all;
  }

  /** Following the cursor from the start lists every conversation once and in order if and only if no
      page boundary is disturbed. */
  lemma WalkListsAllIff(table: seq<Row>, limit: int, digest: Key -> string)
    requires InTimeOrder(table) && AtMostTwoRows(table) && |table| <= MAX_ROWS
    ensures Advances(Pages(table, limit, digest))
    ensures Walk(Pages(table, limit, digest), 0) == Heads(Sort(Build(table, digest))) <==>
              WalkUndisturbed(table, limit, 0, digest)
  {
    WalkEnds(table, limit, digest);
    HeadsOfSort(Build(table, digest));
    SortKeepsOrder(Heads(Build(table, digest)));
    var page, all := Pages(table, limit, digest), SortHeads(Heads(Build(table, digest)));
    forall c: nat | c <= |all| ensures Fits(page(c), all, Undisturbances(table, limit, digest)(c), Limit(limit), c) {
      PageFits(table, limit, c, Limit(limit), all, page(c), ExactPage(table, limit, c, digest), digest);
    }
    WalkIff(page, all, Undisturbances(table, limit, digest), Limit(limit));
  }

  lemma {:induction false} EveryOfAll(p: nat -> bool, l: nat, n: nat, c: nat)
    requires l >= 1 && forall k: nat :: p(k)
    ensures Every(p, l, n, c)
    decreases n - c
  {
    if c + l < n { EveryOfAll(p, l, n, c + l); }
  }

  lemma NothingDisturbs(table: seq<Row>, limit: int, cursor: nat, digest: Key -> string)
    requires InTimeOrder(table) && StartsDiffer(table, digest)
    ensures WalkUndisturbed(table, limit, cursor, digest)
  {
    forall k: nat ensures Undisturbances(table, limit, digest)(k) { PageNotDisturbed(table, limit, k, digest); }
    EveryOfAll(Undisturbances(table, limit, digest), Limit(limit), |Build(table, digest)|, cursor);
  }

  /** So it does when conversations start at different times, and the order is that of their first rows. */
  lemma WalkListsAll(table: seq<Row>, limit: int, digest: Key -> string)
    requires InTimeOrder(table) && StartsDiffer(table, digest) && AtMostTwoRows(table) && |table| <= MAX_ROWS
    ensures Advances(Pages(table, limit, digest))
    ensures Walk(Pages(table, limit, digest), 0) == Heads(Build(table, digest))
  {
    WalkListsAllIff(table, limit, digest);
    NothingDisturbs(table, limit, 0, digest);
    HeadsInOrder(table, digest);
    SortedStays(Build(table, digest));
  }
}
