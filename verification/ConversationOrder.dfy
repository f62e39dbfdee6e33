/**
 The order in which conversations are listed: by start, then by id.  When conversations found later
 leave the first places of the listing as they are, and when not.
 */
module ConversationOrder {
  import opened PythonText
  import opened Conversations

  // ---------------------------------------------------------------- the order of conversations

  lemma NotBefore(x: Item, y: Item, z: Item)
    requires !Before(x, y) && !Before(y, z)
    ensures !Before(x, z)
  {
    if x.head.start == y.head.start == z.head.start { TextNotLess(x.head.id, y.head.id, z.head.id); }
  }

  lemma {:induction false} InsertPermutes(s: seq<Item>, x: Item)
    ensures multiset(Insert(s, x)) == multiset(s) + multiset{x}
  {
    if s != [] {
      assert s == s[..|s| - 1] + [s[|s| - 1]];
      if Before(x, s[|s| - 1]) { InsertPermutes(s[..|s| - 1], x); }
    }
  }

  lemma {:induction false} InsertOrders(s: seq<Item>, x: Item)
    requires InOrder(s)
    ensures InOrder(Insert(s, x)) && forall y :: y in Insert(s, x) ==> y == x || y in s
  {
    if s != [] {
      var init, top := s[..|s| - 1], s[|s| - 1];
      if Before(x, top) {
        InsertOrders(init, x);
        TextOrder(top.head.id, x.head.id);
        assert forall y :: y in Insert(init, x) ==> !Before(top, y);
      } else {
        forall y | y in init ensures !Before(x, y) { NotBefore(x, top, y); }
      }
    }
  }

  /** No item stands after one that sorts behind it. */
  ghost predicate InOrder(s: seq<Item>) {
    forall i, j :: 0 <= i < j < |s| ==> !Before(s[j], s[i])
  }

  /** Sorting rearranges the conversations, by start and then id, and does nothing else. */
  lemma {:induction false} SortSorts(s: seq<Item>)
    ensures multiset(Sort(s)) == multiset(s) && |Sort(s)| == |s| && InOrder(Sort(s))
  {
    if s != [] {
      assert s == s[..|s| - 1] + [s[|s| - 1]];
      SortSorts(s[..|s| - 1]);
      InsertPermutes(Sort(s[..|s| - 1]), s[|s| - 1]);
      InsertOrders(Sort(s[..|s| - 1]), s[|s| - 1]);
      assert |multiset(Sort(s))| == |multiset(s)|;
    }
  }

  // ---------------------------------------------------------------- the order of their heads

  predicate HeadBefore(x: Head, y: Head) { x.start < y.start || (x.start == y.start && TextLess(x.id, y.id)) }

  function InsertHead(s: seq<Head>, x: Head): seq<Head> {
    if s == [] || !HeadBefore(x, s[|s| - 1]) then s + [x] else InsertHead(s[..|s| - 1], x) + [s[|s| - 1]]
  }

  function SortHeads(s: seq<Head>): seq<Head> {
    if s == [] then [] else InsertHead(SortHeads(s[..|s| - 1]), s[|s| - 1])
  }

  lemma {:induction false} HeadsOfInsert(s: seq<Item>, x: Item)
    ensures Heads(Insert(s, x)) == InsertHead(Heads(s), x.head)
  {
    if s != [] {
      assert Heads(s)[..|s| - 1] == Heads(s[..|s| - 1]);
      if Before(x, s[|s| - 1]) { HeadsOfInsert(s[..|s| - 1], x); }
    }
  }

  /** Only heads matter to the order. */
  lemma {:induction false} HeadsOfSort(s: seq<Item>)
    ensures Heads(Sort(s)) == SortHeads(Heads(s))
  {
    if s != [] {
      HeadsOfSort(s[..|s| - 1]);
      HeadsOfInsert(Sort(s[..|s| - 1]), s[|s| - 1]);
      assert Heads(s)[..|s| - 1] == Heads(s[..|s| - 1]);
    }
  }

  ghost predicate HeadsOrdered(s: seq<Head>) {
    forall i, j :: 0 <= i < j < |s| ==> !HeadBefore(s[j], s[i])
  }

  /** A head is put behind the last one that is not to follow it. */
  lemma {:induction false} InsertSplits(s: seq<Head>, x: Head) returns (i: nat)
    ensures i <= |s| && InsertHead(s, x) == s[..i] + [x] + s[i..]
    ensures forall j :: i <= j < |s| ==> HeadBefore(x, s[j])
    ensures i > 0 ==> !HeadBefore(x, s[i - 1])
  {
    i := |s|;
    if s != [] && HeadBefore(x, s[|s| - 1]) {
      i := InsertSplits(s[..|s| - 1], x);
      assert s == s[..|s| - 1] + [s[|s| - 1]];
    }
  }

  lemma NotHeadBefore(x: Head, y: Head, z: Head)
    requires !HeadBefore(x, y) && !HeadBefore(y, z)
    ensures !HeadBefore(x, z)
  {
    if x.start == y.start == z.start { TextNotLess(x.id, y.id, z.id); }
  }

  lemma InsertKeepsOrder(s: seq<Head>, x: Head)
    requires HeadsOrdered(s)
    ensures HeadsOrdered(InsertHead(s, x)) && |InsertHead(s, x)| == |s| + 1
  {
    var i := InsertSplits(s, x);
    forall j | 0 <= j < i ensures !HeadBefore(x, s[j]) {
      if j < i - 1 { NotHeadBefore(x, s[i - 1], s[j]); }
    }
    forall j | i <= j < |s| ensures !HeadBefore(s[j], x) { TextOrder(x.id, s[j].id); }
  }

  lemma {:induction false} SortKeepsOrder(s: seq<Head>)
    ensures HeadsOrdered(SortHeads(s)) && |SortHeads(s)| == |s|
  {
    if s != [] {
      SortKeepsOrder(s[..|s| - 1]);
      InsertKeepsOrder(SortHeads(s[..|s| - 1]), s[|s| - 1]);
    }
  }

  /** What is put behind place q leaves the heads up to q as they are. */
  lemma InsertBehind(s: seq<Head>, x: Head, q: nat)
    requires q < |s| && !HeadBefore(x, s[q])
    ensures |InsertHead(s, x)| == |s| + 1 && InsertHead(s, x)[..q + 1] == s[..q + 1]
  {
    var i := InsertSplits(s, x);
  }

  /** What is put before place q moves the head that stood there. */
  lemma InsertAhead(s: seq<Head>, x: Head, q: nat)
    requires q < |s| && HeadsOrdered(s) && HeadBefore(x, s[q])
    ensures |InsertHead(s, x)| == |s| + 1 && InsertHead(s, x)[q + 1] == s[q]
  {
    var i := InsertSplits(s, x);
    if i > q + 1 { NotHeadBefore(x, s[i - 1], s[q]); }
  }

  lemma InsertMovesUp(s: seq<Head>, x: Head, y: Head, q: nat)
    requires q < |s| && y in s[q..]
    ensures q < |InsertHead(s, x)| && y in InsertHead(s, x)[q..]
  {
    var i := InsertSplits(s, x);
    var j :| q <= j < |s| && s[j] == y;
    assert InsertHead(s, x)[if j < i then j else j + 1] == y;
  }

  // ---------------------------------------------------------------- conversations not read yet

  /** The conversations from `n` on that are to be listed before x. */
  function Ahead(all: seq<Head>, n: nat, x: Head): set<int> { set i | n <= i < |all| && HeadBefore(all[i], x) }

  /** No conversation behind the first ones is to be listed before place q of them. */
  ghost predicate Undisturbed(part: seq<Head>, all: seq<Head>, q: nat) {
    q < |SortHeads(part)| ==> Ahead(all, |part|, SortHeads(part)[q]) == {}
  }

  lemma AheadOfInit(all: seq<Head>, n: nat, x: Head)
    requires n < |all|
    ensures Ahead(all, n, x) == {} <==> Ahead(all[..|all| - 1], n, x) == {} && !HeadBefore(all[|all| - 1], x)
  {
    var init := all[..|all| - 1];
    if Ahead(all, n, x) == {} {
      forall i | n <= i < |init| ensures !HeadBefore(init[i], x) { assert i !in Ahead(all, n, x); }
      assert |all| - 1 !in Ahead(all, n, x);
    } else {
      var i :| i in Ahead(all, n, x);
      assert i < |init| ==> i in Ahead(init, n, x);
    }
  }

  lemma {:induction false} UndisturbedStays(part: seq<Head>, all: seq<Head>, q: nat)
    requires part <= all && q < |part| && Undisturbed(part, all, q)
    ensures |SortHeads(part)| == |part| && |SortHeads(all)| == |all| && SortHeads(all)[..q + 1] == SortHeads(part)[..q + 1]
    decreases |all|
  {
    SortKeepsOrder(part);
    SortKeepsOrder(all);
    if |all| == |part| {
      assert all == part;
    } else {
      var init := all[..|all| - 1];
      AheadOfInit(all, |part|, SortHeads(part)[q]);
      UndisturbedStays(part, init, q);
      assert SortHeads(init)[q] == SortHeads(init)[..q + 1][q] == SortHeads(part)[..q + 1][q];
      InsertBehind(SortHeads(init), all[|all| - 1], q);
    }
  }

  lemma {:induction false} DisturbedMoves(part: seq<Head>, all: seq<Head>, q: nat)
    requires part <= all && q < |part| && !Undisturbed(part, all, q)
    ensures |SortHeads(part)| == |part| && |SortHeads(all)| == |all| > q + 1 && SortHeads(part)[q] in SortHeads(all)[q + 1..]
    decreases |all|
  {
    SortKeepsOrder(part);
    SortKeepsOrder(all);
    if |all| > |part| {
      var init, last := all[..|all| - 1], all[|all| - 1];
      SortKeepsOrder(init);
      AheadOfInit(all, |part|, SortHeads(part)[q]);
      if Undisturbed(part, init, q) {
        UndisturbedStays(part, init, q);
        assert SortHeads(init)[q] == SortHeads(init)[..q + 1][q] == SortHeads(part)[..q + 1][q];
        InsertAhead(SortHeads(init), last, q);
        assert SortHeads(all)[q + 1] == SortHeads(part)[q];
      } else {
        DisturbedMoves(part, init, q);
        InsertMovesUp(SortHeads(init), last, SortHeads(part)[q], q + 1);
      }
    }
  }

  ghost predicate Distinct(s: seq<Head>) {
    forall i, j :: 0 <= i < j < |s| ==> s[i] != s[j]
  }

  lemma InsertMembers(s: seq<Head>, x: Head, y: Head)
    ensures y in InsertHead(s, x) <==> y == x || y in s
  {
    var i := InsertSplits(s, x);
    assert s == s[..i] + s[i..];
  }

  lemma InsertKeepsDistinct(s: seq<Head>, x: Head)
    requires Distinct(s) && x !in s
    ensures Distinct(InsertHead(s, x))
  {
    var i := InsertSplits(s, x);
  }

  lemma {:induction false} SortMembers(s: seq<Head>, y: Head)
    ensures y in SortHeads(s) <==> y in s
  {
    if s != [] {
      var init, last := s[..|s| - 1], s[|s| - 1];
      assert s == init + [last];
      SortMembers(init, y);
      InsertMembers(SortHeads(init), last, y);
    }
  }

  lemma {:induction false} SortKeepsDistinct(s: seq<Head>)
    requires Distinct(s)
    ensures Distinct(SortHeads(s))
  {
    if s != [] {
      var init, last := s[..|s| - 1], s[|s| - 1];
      SortKeepsDistinct(init);
      SortMembers(init, last);
      InsertKeepsDistinct(SortHeads(init), last);
    }
  }

  /** The stretch from c to q of the listing is the same if and only if nothing disturbs it. */
  lemma StretchIff(part: seq<Head>, all: seq<Head>, c: nat, q: nat)
    requires part <= all && c <= q < |part| && Distinct(all)
    ensures |SortHeads(part)| == |part| && |SortHeads(all)| == |all|
    ensures SortHeads(part)[c..q + 1] == SortHeads(all)[c..q + 1] <==> Undisturbed(part, all, q)
  {
    SortKeepsOrder(part);
    SortKeepsOrder(all);
    if Undisturbed(part, all, q) {
      UndisturbedStays(part, all, q);
      assert SortHeads(part)[c..q + 1] == SortHeads(part)[..q + 1][c..];
      assert SortHeads(all)[c..q + 1] == SortHeads(all)[..q + 1][c..];
    } else {
      DisturbedMoves(part, all, q);
      SortKeepsDistinct(all);
      assert SortHeads(part)[c..q + 1][q - c] == SortHeads(part)[q];
      assert SortHeads(all)[c..q + 1][q - c] == SortHeads(all)[q];
    }
  }
}
