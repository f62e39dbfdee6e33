/** Two small tables whose first page, of one conversation, differs from the exact one. */
module ConversationScenarios {
  import opened Wrappers
  import opened Slices
  import opened PythonText
  import opened Conversations
  import opened ConversationOrder
  import opened ConversationPages
  import opened ConversationTotals

  const HOST := "10.0.0.1"

  function At(port: int): Endpoint { Endpoint(HOST, port) }

  function Flow(id: int, from: int, to: int, start: real): Row {
    Row(id, "TCP", At(from), At(to), At(from), At(to), start, start, 100, 1, false, 0)
  }

  function Between(low: int, high: int): Key { Key("TCP", At(low), At(high)) }

  lemma KeyIs(id: int, low: int, high: int, start: real)
    requires low < high
    ensures KeyOf(Flow(id, low, high, start)) == KeyOf(Flow(id, high, low, start)) == Between(low, high)
  {
    TextOrder(HOST, HOST);
  }

  function Fresh(row: Row, digest: Key -> string): Item { Absorb(NewItem(row, digest), row) }

  lemma NewConversation(rows: seq<Row>, row: Row, digest: Key -> string)
    requires forall i :: 0 <= i < |Build(rows, digest)| ==> Build(rows, digest)[i].head.key != KeyOf(row)
    ensures Build(rows + [row], digest) == Build(rows, digest) + [Fresh(row, digest)]
  {
    assert (rows + [row])[..|rows|] == rows;
  }

  lemma KnownConversation(rows: seq<Row>, row: Row, i: nat, digest: Key -> string)
    requires DistinctKeys(Build(rows, digest)) && i < |Build(rows, digest)| && Build(rows, digest)[i].head.key == KeyOf(row)
    ensures Build(rows + [row], digest) == Build(rows, digest)[i := Absorb(Build(rows, digest)[i], row)]
  {
    assert (rows + [row])[..|rows|] == rows;
    GetIs(Build(rows, digest), i);
  }

  // ---------------------------------------------------------------- an answer behind the prefix

  const AnswerLate := [Flow(1, 1, 2, 1.0), Flow(2, 1, 3, 2.0), Flow(3, 3, 1, 3.0), Flow(4, 1, 4, 4.0), Flow(5, 2, 1, 5.0)]

  lemma FirstTwo(digest: Key -> string)
    ensures Build(AnswerLate[..2], digest) == [Fresh(AnswerLate[0], digest), Fresh(AnswerLate[1], digest)]
  {
    var t := AnswerLate;
    KeyIs(1, 1, 2, 1.0);
    KeyIs(2, 1, 3, 2.0);
    NewConversation([], t[0], digest);
    NewConversation([] + [t[0]], t[1], digest);
    assert [] + [t[0]] + [t[1]] == t[..2];
  }

  lemma FirstThree(digest: Key -> string)
    ensures Build(AnswerLate[..3], digest) == [Fresh(AnswerLate[0], digest), Absorb(Fresh(AnswerLate[1], digest), AnswerLate[2])]
  {
    FirstTwo(digest);
    KeyIs(1, 1, 2, 1.0);
    KeyIs(2, 1, 3, 2.0);
    KeyIs(3, 1, 3, 3.0);
    KnownConversation(AnswerLate[..2], AnswerLate[2], 1, digest);
    assert AnswerLate[..2] + [AnswerLate[2]] == AnswerLate[..3];
  }

  lemma FirstFour(digest: Key -> string)
    ensures Build(AnswerLate[..4], digest) ==
              [Fresh(AnswerLate[0], digest), Absorb(Fresh(AnswerLate[1], digest), AnswerLate[2]), Fresh(AnswerLate[3], digest)]
  {
    FirstThree(digest);
    KeyIs(1, 1, 2, 1.0);
    KeyIs(2, 1, 3, 2.0);
    KeyIs(4, 1, 4, 4.0);
    NewConversation(AnswerLate[..3], AnswerLate[3], digest);
    assert AnswerLate[..3] + [AnswerLate[3]] == AnswerLate[..4];
  }

  lemma FirstOnPage(table: seq<Row>, read: seq<Row>, digest: Key -> string)
    requires read == Take(table, 4) && Ascending(Build(read, digest)) && read != []
    ensures Build(read, digest) != [] && ConversationPage(table, 1, 0, digest).items == [Build(read, digest)[0]]
  {
    SortedStays(Build(read, digest));
    KnownKeys(read, KeyOf(read[0]), digest);
    BuildIsLocal(read, digest, KeyOf(read[0]));
  }

  lemma InOrderOfStart(digest: Key -> string)
    ensures Ascending(Build(AnswerLate[..4], digest))
  {
    FirstFour(digest);
  }

  lemma AnswerIsListed(digest: Key -> string)
    ensures ConversationPage(AnswerLate, 1, 0, digest).items == [Fresh(AnswerLate[0], digest)]
  {
    InOrderOfStart(digest);
    FirstOnPage(AnswerLate, AnswerLate[..4], digest);
    FirstFour(digest);
  }

  lemma AnswerIsKnown(digest: Key -> string)
    ensures Conversation(AnswerLate, Between(1, 2), digest) == Some(Absorb(Fresh(AnswerLate[0], digest), AnswerLate[4]))
  {
    FirstFour(digest);
    KeyIs(1, 1, 2, 1.0);
    KeyIs(5, 1, 2, 5.0);
    BuildIsLocal(AnswerLate[..4], digest, Between(1, 2));
    GetIs(Build(AnswerLate[..4], digest), 0);
    assert AnswerLate[..|AnswerLate| - 1] == AnswerLate[..4];
  }

  /** The second direction of the only conversation listed is the fifth row, and four are read. */
  lemma AnswerIsMissed(digest: Key -> string)
    ensures var p, full := ConversationPage(AnswerLate, 1, 0, digest), Conversation(AnswerLate, Between(1, 2), digest);
      && |p.items| == 1 && p.items[0].head.key == Between(1, 2) && full.Some?
      && p.items[0].total == Traffic(100, 1) && p.items[0].toInitiator == NoTraffic && |p.items[0].refs| == 1
      && full.value.total == Traffic(200, 2) && full.value.toInitiator == Traffic(100, 1) && |full.value.refs| == 2
  {
    AnswerIsListed(digest);
    AnswerIsKnown(digest);
    KeyIs(1, 1, 2, 1.0);
  }

  // ---------------------------------------------------------------- starting at the same time

  const SameStart := [Flow(1, 1, 2, 1.0), Flow(2, 2, 1, 1.0), Flow(3, 1, 3, 1.0), Flow(4, 3, 1, 1.0), Flow(5, 1, 4, 1.0)]

  lemma FirstPair(digest: Key -> string)
    ensures Build(SameStart[..2], digest) == [Absorb(Fresh(SameStart[0], digest), SameStart[1])]
  {
    KeyIs(1, 1, 2, 1.0);
    KeyIs(2, 1, 2, 1.0);
    NewConversation([], SameStart[0], digest);
    KnownConversation([] + [SameStart[0]], SameStart[1], 0, digest);
    assert [] + [SameStart[0]] + [SameStart[1]] == SameStart[..2];
  }

  lemma BothPairs(digest: Key -> string)
    ensures Build(SameStart[..4], digest) ==
              [Absorb(Fresh(SameStart[0], digest), SameStart[1]), Absorb(Fresh(SameStart[2], digest), SameStart[3])]
  {
    FirstPair(digest);
    KeyIs(1, 1, 2, 1.0);
    KeyIs(3, 1, 3, 1.0);
    KeyIs(4, 1, 3, 1.0);
    NewConversation(SameStart[..2], SameStart[2], digest);
    KnownConversation(SameStart[..2] + [SameStart[2]], SameStart[3], 1, digest);
    assert SameStart[..2] + [SameStart[2]] + [SameStart[3]] == SameStart[..4];
  }

  lemma SameStartItems(digest: Key -> string)
    ensures Build(SameStart, digest) ==
              [Absorb(Fresh(SameStart[0], digest), SameStart[1]), Absorb(Fresh(SameStart[2], digest), SameStart[3]), Fresh(SameStart[4], digest)]
  {
    BothPairs(digest);
    KeyIs(1, 1, 2, 1.0);
    KeyIs(3, 1, 3, 1.0);
    KeyIs(5, 1, 4, 1.0);
    NewConversation(SameStart[..4], SameStart[4], digest);
    assert SameStart[..4] + [SameStart[4]] == SameStart;
  }

  lemma SameStartHeads(digest: Key -> string)
    ensures var h := Heads(Build(SameStart, digest));
      && |h| == 3 && h[0] == Fresh(SameStart[0], digest).head && h[1] == Fresh(SameStart[2], digest).head && h[2] == Fresh(SameStart[4], digest).head
      && Heads(Build(SameStart[..4], digest)) == h[..2]
  {
    BothPairs(digest);
    SameStartItems(digest);
  }

  lemma LastComesFirst(part: seq<Head>, all: seq<Head>)
    requires |all| == 3 && part == all[..2] && HeadBefore(all[2], all[0]) && HeadBefore(all[2], all[1])
    ensures !PageSettled(part, all, 1, 0)
  {
    SortKeepsOrder(part);
    SortMembers(part, SortHeads(part)[0]);
    assert 2 in Ahead(all, 2, SortHeads(part)[0]);
  }

  lemma TieComesFirst(digest: Key -> string)
    requires TextLess(digest(Between(1, 4)), digest(Between(1, 2))) && TextLess(digest(Between(1, 4)), digest(Between(1, 3)))
    ensures !PageSettled(Heads(Build(SameStart[..4], digest)), Heads(Build(SameStart, digest)), 1, 0)
  {
    SameStartHeads(digest);
    KeyIs(1, 1, 2, 1.0);
    KeyIs(3, 1, 3, 1.0);
    KeyIs(5, 1, 4, 1.0);
    LastComesFirst(Heads(Build(SameStart[..4], digest)), Heads(Build(SameStart, digest)));
  }

  lemma AllTogether()
    ensures InTimeOrder(SameStart) && Take(SameStart, 4) == SameStart[..4] && Uncapped(SameStart, 1, 0)
  {
  }

  lemma NotSettled(table: seq<Row>, read: seq<Row>, digest: Key -> string)
    requires InTimeOrder(table) && read == Take(table, 4)
    requires !PageSettled(Heads(Build(read, digest)), Heads(Build(table, digest)), 1, 0)
    ensures !SameListing(ConversationPage(table, 1, 0, digest), ExactPage(table, 1, 0, digest))
  {
    PageIsExactIff(table, 1, 0, digest);
  }

  /** Three conversations start together; the one read last has the smallest id and belongs on the
      first page, but is not among the rows read. */
  lemma TieIsMissed(digest: Key -> string)
    requires TextLess(digest(Between(1, 4)), digest(Between(1, 2))) && TextLess(digest(Between(1, 4)), digest(Between(1, 3)))
    ensures InTimeOrder(SameStart) && Uncapped(SameStart, 1, 0)
    ensures !SameListing(ConversationPage(SameStart, 1, 0, digest), ExactPage(SameStart, 1, 0, digest))
  {
    AllTogether();
    TieComesFirst(digest);
    NotSettled(SameStart, SameStart[..4], digest);
  }
}
