/**
 The conversation page is computed from a prefix of the rows, sized from the cursor.  When that is
 as good as computing it from all rows, exactly.
 */
module ConversationPages {
  import opened Wrappers
  import opened Slices
  import opened PythonText
  import opened Conversations
  import opened ConversationOrder

  // ---------------------------------------------------------------- prefix against all rows

  /** The same conversations in the same order, and the same way on. */
  predicate SameListing(p: Page, q: Page) { Heads(p.items) == Heads(q.items) && p.next == q.next && p.limit == q.limit }

  /** Where the last conversation of a full page stands in the listing. */
  function LastPlace(l: nat, c: nat): nat
    requires l >= 1
  {
    c + l - 1
  }

  /** The conversations found are all there are, or none is asked for, or they are enough to tell
      that there is a next page and no other one belongs before it. */
  ghost predicate PageSettled(part: seq<Head>, all: seq<Head>, limit: nat, cursor: nat)
    requires limit >= 1
  {
    || |all| <= cursor
    || |part| >= |all|
    || (|part| >= cursor + limit + 1 && Undisturbed(part, all, LastPlace(limit, cursor)))
  }

  lemma WindowIs<T>(s: seq<T>, c: nat, l: nat)
    ensures Take(Take(Drop(s, c), l + 1), l) == Take(Drop(s, c), l)
    ensures |Take(Drop(s, c), l + 1)| > l <==> |s| > c + l
  {
  }

  lemma HeadsOfStretch(items: seq<Item>, c: nat, l: nat)
    ensures Heads(Take(Drop(items, c), l)) == Take(Drop(Heads(items), c), l)
  {
  }

  /** What a page over some rows lists, and where it leads. */
  lemma PageLists(rows: seq<Row>, l: nat, c: nat, truncated: bool, digest: Key -> string)
    ensures var s, p := SortHeads(Heads(Build(rows, digest))), PageOver(rows, l, c, truncated, digest);
      && |s| == |Build(rows, digest)| && p.limit == l
      && Heads(p.items) == Take(Drop(s, c), l)
      && p.next == if |s| > c + l then Some(c + l) else None
  {
    var items := Sort(Build(rows, digest));
    HeadsOfSort(Build(rows, digest));
    SortKeepsOrder(Heads(Build(rows, digest)));
    WindowIs(items, c, l);
    HeadsOfStretch(items, c, l);
  }

  /** The same stretch, and the same answer to whether more follows. */
  ghost predicate SameStretch(s: seq<Head>, t: seq<Head>, l: nat, c: nat) {
    Take(Drop(s, c), l) == Take(Drop(t, c), l) && (|s| > c + l <==> |t| > c + l)
  }

  lemma LongEnough(s: seq<Head>, t: seq<Head>, l: nat, c: nat)
    requires c + l < |s| <= |t|
    ensures SameStretch(s, t, l, c) <==> s[c..c + l] == t[c..c + l]
  {
    assert Take(Drop(s, c), l) == s[c..c + l] && Take(Drop(t, c), l) == t[c..c + l];
  }

  lemma TooShort(s: seq<Head>, t: seq<Head>, l: nat, c: nat)
    requires |s| <= c + l && |s| < |t| && c < |t| && l >= 1
    ensures !SameStretch(s, t, l, c)
  {
    assert |Take(Drop(s, c), l)| == if |s| > c then |s| - c else 0;
  }

  lemma PastTheEnd(s: seq<Head>, t: seq<Head>, l: nat, c: nat)
    requires |s| <= |t| <= c
    ensures SameStretch(s, t, l, c)
  {
  }

  lemma LongStretches(part: seq<Head>, all: seq<Head>, l: nat, c: nat)
    requires part <= all && Distinct(all) && l >= 1 && c + l < |part|
    ensures SameStretch(SortHeads(part), SortHeads(all), l, c) <==> Undisturbed(part, all, LastPlace(l, c))
  {
    StretchIff(part, all, c, c + l - 1);
    LongEnough(SortHeads(part), SortHeads(all), l, c);
  }

  lemma ListingsAgree(part: seq<Head>, all: seq<Head>, l: nat, c: nat)
    requires part <= all && Distinct(all) && l >= 1
    ensures SameStretch(SortHeads(part), SortHeads(all), l, c) <==> PageSettled(part, all, l, c)
  {
    SortKeepsOrder(part);
    SortKeepsOrder(all);
    if |all| <= c {
      PastTheEnd(SortHeads(part), SortHeads(all), l, c);
    } else if |part| >= |all| {
      assert part == all;
    } else if |part| >= c + l + 1 {
      LongStretches(part, all, l, c);
    } else {
      TooShort(SortHeads(part), SortHeads(all), l, c);
    }
  }

  lemma HeadsDistinct(rows: seq<Row>, digest: Key -> string)
    ensures Distinct(Heads(Build(rows, digest)))
  {
    HeadsAreDistinct(rows, digest);
  }

  /** For rows in time order, the page read from the prefix is the exact one if and only if the prefix
      holds the conversations up to the next page and no later one belongs before it (or it holds all
      there are, or the cursor is past the end anyway). */
  lemma PageIsExactIff(table: seq<Row>, limit: int, cursor: int, digest: Key -> string)
    requires InTimeOrder(table)
    ensures var l, c := Limit(limit), Cursor(cursor);
      SameListing(ConversationPage(table, limit, cursor, digest), ExactPage(table, limit, cursor, digest)) <==>
        PageSettled(Heads(Build(Take(table, Scan(l, c)), digest)), Heads(Build(table, digest)), l, c)
  {
    var l, c := Limit(limit), Cursor(cursor);
    var n := if Scan(l, c) < |table| then Scan(l, c) else |table|;
    assert Take(table, Scan(l, c)) == table[..n];
    HeadsGrow(table, n, digest);
    HeadsDistinct(table, digest);
    PageLists(table[..n], l, c, |table| > Scan(l, c), digest);
    PageLists(table, l, c, false, digest);
    ListingsAgree(Heads(Build(table[..n], digest)), Heads(Build(table, digest)), l, c);
  }

  lemma StartsRise(table: seq<Row>, digest: Key -> string)
    requires InTimeOrder(table)
    ensures var all := Heads(Build(table, digest));
      && (forall i, j :: 0 <= i < j < |all| ==> all[i].start <= all[j].start)
      && (StartsDiffer(table, digest) ==> forall i, j :: 0 <= i < j < |all| ==> all[i].start != all[j].start)
  {
    HeadsInOrder(table, digest);
  }

  lemma TiesOnly(part: seq<Head>, all: seq<Head>, q: nat)
    requires part <= all && forall i, j :: 0 <= i < j < |all| ==> all[i].start <= all[j].start
    ensures Undisturbed(part, all, q) <==>
              (q < |SortHeads(part)| ==> forall i :: |part| <= i < |all| && all[i].start == SortHeads(part)[q].start ==>
                                           !TextLess(all[i].id, SortHeads(part)[q].id))
    ensures (forall i, j :: 0 <= i < j < |all| ==> all[i].start != all[j].start) ==> Undisturbed(part, all, q)
  {
    if q < |SortHeads(part)| {
      var x := SortHeads(part)[q];
      SortMembers(part, x);
      var k :| 0 <= k < |part| && part[k] == x;
      assert all[k] == x;
      forall i | |part| <= i < |all| ensures i in Ahead(all, |part|, x) <==> all[i].start == x.start && TextLess(all[i].id, x.id) {
        assert all[k].start <= all[i].start;
      }
    }
  }

  /** A later conversation belongs before an earlier one only when both start at the same time. */
  lemma OnlyTiesDisturb(table: seq<Row>, n: nat, q: nat, digest: Key -> string)
    requires InTimeOrder(table) && n <= |table|
    ensures var part, all := Heads(Build(table[..n], digest)), Heads(Build(table, digest));
      && (Undisturbed(part, all, q) <==>
           (q < |SortHeads(part)| ==> forall i :: |part| <= i < |all| && all[i].start == SortHeads(part)[q].start ==>
                                        !TextLess(all[i].id, SortHeads(part)[q].id)))
      && (StartsDiffer(table, digest) ==> Undisturbed(part, all, q))
  {
    HeadsGrow(table, n, digest);
    StartsRise(table, digest);
    TiesOnly(Heads(Build(table[..n], digest)), Heads(Build(table, digest)), q);
  }

  /** The cap of 100,000 rows does not bite. */
  predicate Uncapped(table: seq<Row>, limit: int, cursor: int) {
    |table| <= 100_000 || 2 * (Cursor(cursor) + Limit(limit) + 1) <= 100_000
  }

  ghost predicate ReadUndisturbed(table: seq<Row>, n: nat, q: nat, digest: Key -> string) {
    Undisturbed(Heads(Build(Take(table, n), digest)), Heads(Build(table, digest)), q)
  }

  /** Nothing unread belongs before the last conversation of the page at `cursor`. */
  ghost predicate PageUndisturbed(table: seq<Row>, limit: int, cursor: int, digest: Key -> string) {
    ReadUndisturbed(table, Scan(Limit(limit), Cursor(cursor)), LastPlace(Limit(limit), Cursor(cursor)), digest)
  }

  lemma FoundEnough(table: seq<Row>, limit: int, cursor: int, digest: Key -> string)
    requires InTimeOrder(table) && AtMostTwoRows(table) && Uncapped(table, limit, cursor)
    ensures var l, c := Limit(limit), Cursor(cursor);
      var part, all := Heads(Build(Take(table, Scan(l, c)), digest)), Heads(Build(table, digest));
      part <= all && (part == all || |part| >= c + l + 1)
  {
    var n := Scan(Limit(limit), Cursor(cursor));
    if n < |table| {
      HeadsGrow(table, n, digest);
      EnoughConversations(table, n, digest);
    }
  }

  lemma SettledIff(part: seq<Head>, all: seq<Head>, l: nat, c: nat)
    requires part <= all && l >= 1 && (part == all || |part| >= c + l + 1)
    ensures PageSettled(part, all, l, c) <==> Undisturbed(part, all, LastPlace(l, c))
  {
    SortKeepsOrder(part);
    if part == all {
      assert forall x :: Ahead(all, |all|, x) == {};
    }
  }

  /** Two rows per conversation at most is what makes the prefix long enough; then only conversations
      that start at the same time as the last one listed can belong before it. */
  lemma PrefixPageIsExactIff(table: seq<Row>, limit: int, cursor: int, digest: Key -> string)
    requires InTimeOrder(table) && AtMostTwoRows(table) && Uncapped(table, limit, cursor)
    ensures SameListing(ConversationPage(table, limit, cursor, digest), ExactPage(table, limit, cursor, digest)) <==>
              PageUndisturbed(table, limit, cursor, digest)
  {
    PageIsExactIff(table, limit, cursor, digest);
    FoundEnough(table, limit, cursor, digest);
    SettledIff(Heads(Build(Take(table, Scan(Limit(limit), Cursor(cursor))), digest)), Heads(Build(table, digest)), Limit(limit), Cursor(cursor));
  }

  /** No conversation is listed twice. */
  lemma HeadsAreDistinct(rows: seq<Row>, digest: Key -> string)
    ensures forall i, j :: 0 <= i < j < |Build(rows, digest)| ==>
              Heads(Build(rows, digest))[i].key != Heads(Build(rows, digest))[j].key
  {
    BuildIsLocal(rows, digest, Key("", Endpoint("", 0), Endpoint("", 0)));
  }

  // ---------------------------------------------------------------- where it stops being exact

  lemma {:induction false} OneKeyOneItem(rows: seq<Row>, k: Key, digest: Key -> string)
    requires rows != [] && forall i :: 0 <= i < |rows| ==> KeyOf(rows[i]) == k
    ensures |Build(rows, digest)| == 1 && Build(rows, digest)[0].head.key == k
  {
    if |rows| > 1 {
      OneKeyOneItem(rows[..|rows| - 1], k, digest);
    } else {
      assert Build(rows[..0], digest) == [];
    }
  }

  lemma TwoKeysTwoItems(rows: seq<Row>, i: nat, j: nat, digest: Key -> string)
    requires i < |rows| && j < |rows| && KeyOf(rows[i]) != KeyOf(rows[j])
    ensures |Build(rows, digest)| >= 2
  {
    KnownKeys(rows, KeyOf(rows[i]), digest);
    KnownKeys(rows, KeyOf(rows[j]), digest);
    BuildIsLocal(rows, digest, KeyOf(rows[i]));
    BuildIsLocal(rows, digest, KeyOf(rows[j]));
  }

  lemma LongPrefixHoldsOne(table: seq<Row>, n: nat, i: nat, digest: Key -> string)
    requires 0 < n < |table| && i < |table| && KeyOf(table[i]) != KeyOf(table[0])
    requires forall j :: 0 <= j < n ==> KeyOf(table[j]) == KeyOf(table[0])
    ensures |Heads(Build(Take(table, n), digest))| == 1 && |Heads(Build(table, digest))| >= 2
  {
    OneKeyOneItem(table[..n], KeyOf(table[0]), digest);
    TwoKeysTwoItems(table, 0, i, digest);
  }

  lemma OneIsTooFew(part: seq<Head>, all: seq<Head>, limit: nat)
    requires |part| == 1 && |all| >= 2 && limit >= 1
    ensures !PageSettled(part, all, limit, 0)
  {
  }

  /** The condition is needed: when the first conversation alone fills the rows read, the first page
      misses what comes after it. */
  lemma LongConversationHidesTheRest(table: seq<Row>, limit: int, i: nat, digest: Key -> string)
    requires InTimeOrder(table) && i < |table|
    requires Scan(Limit(limit), 0) < |table| && KeyOf(table[i]) != KeyOf(table[0])
    requires forall j :: 0 <= j < Scan(Limit(limit), 0) ==> KeyOf(table[j]) == KeyOf(table[0])
    ensures !SameListing(ConversationPage(table, limit, 0, digest), ExactPage(table, limit, 0, digest))
  {
    PageIsExactIff(table, limit, 0, digest);
    LongPrefixHoldsOne(table, Scan(Limit(limit), 0), i, digest);
    OneIsTooFew(Heads(Build(Take(table, Scan(Limit(limit), 0)), digest)), Heads(Build(table, digest)), Limit(limit));
  }
}
