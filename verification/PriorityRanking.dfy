/**
 The bounded endpoint ranking (core/ai/tools.py, `_priority_endpoints`).  Scores come from a function of
 the address; the database lists the matching flows in a fixed order.
 */
module PriorityRanking {
  import opened Wrappers
  import opened Slices
  import opened PythonText

  /** A flow row; an absent address is "". */
  datatype Flow = Flow(src: string, dst: string, incomplete: bool)

  const PAGE := 500
  const ROW_CAP := 5000
  const ADDRESS_CAP := 500

  function GetFlows(table: seq<Flow>, limit: nat, offset: nat): seq<Flow> { Take(Drop(table, offset), limit) }

  // ---------------------------------------------------------------- observed addresses

  /** Strictly ascending: sorted, and nothing twice. */
  ghost predicate Ascending(s: seq<string>) {
    forall i, j :: 0 <= i < j < |s| ==> TextLess(s[i], s[j])
  }

  lemma TextLessTransitive(s: string, t: string, u: string)
    requires TextLess(s, t) && TextLess(t, u)
    ensures TextLess(s, u)
  {
    TextOrder(s, t);
    TextOrder(t, u);
    TextOrder(u, s);
    if !TextLess(s, u) { TextNotLess(u, t, s); TextNotLess(t, s, u); TextOrder(u, t); }
  }

  /** Python's `sorted` over a set, one element more. */
  function InsertText(s: seq<string>, x: string): seq<string> {
    if s == [] || TextLess(s[|s| - 1], x) then s + [x]
    else if s[|s| - 1] == x then s
    else InsertText(s[..|s| - 1], x) + [s[|s| - 1]]
  }

  lemma {:induction false} InsertTextKeeps(s: seq<string>, x: string)
    requires Ascending(s)
    ensures Ascending(InsertText(s, x)) && forall y :: y in InsertText(s, x) <==> y == x || y in s
  {
    if s != [] {
      var init, last := s[..|s| - 1], s[|s| - 1];
      assert s == init + [last];
      TextOrder(last, x);
      if TextLess(last, x) {
        forall y | y in init ensures TextLess(y, x) { TextLessTransitive(y, last, x); }
      } else if last != x {
        InsertTextKeeps(init, x);
        assert forall y :: y in InsertText(init, x) ==> TextLess(y, last);
      }
    }
  }

  function AddAddress(s: seq<string>, x: string, targets: set<string>): seq<string> {
    if x == "" || (targets != {} && x !in targets) then s else InsertText(s, x)
  }

  /** The addresses of the rows, within the targets of the scope if it has any, in order. */
  function Addresses(rows: seq<Flow>, targets: set<string>): seq<string> {
    if rows == [] then []
    else
      var row := rows[|rows| - 1];
      AddAddress(AddAddress(Addresses(rows[..|rows| - 1], targets), row.src, targets), row.dst, targets)
  }

  ghost predicate Observed(rows: seq<Flow>, targets: set<string>, x: string) {
    && x != "" && (targets != {} ==> x in targets)
    && exists i :: 0 <= i < |rows| && (rows[i].src == x || rows[i].dst == x)
  }

  lemma {:induction false} AddressesAre(rows: seq<Flow>, targets: set<string>)
    ensures Ascending(Addresses(rows, targets)) && forall x :: x in Addresses(rows, targets) <==> Observed(rows, targets, x)
  {
    if rows != [] {
      var init, row := rows[..|rows| - 1], rows[|rows| - 1];
      AddressesAre(init, targets);
      InsertTextKeeps(Addresses(init, targets), row.src);
      InsertTextKeeps(AddAddress(Addresses(init, targets), row.src, targets), row.dst);
      forall x ensures Observed(rows, targets, x) <==>
          Observed(init, targets, x) || (x != "" && (targets != {} ==> x in targets) && (row.src == x || row.dst == x))
      {
        ObservedStep(rows, targets, x);
      }
    }
  }

  lemma ObservedStep(rows: seq<Flow>, targets: set<string>, x: string)
    requires rows != []
    ensures var init, row := rows[..|rows| - 1], rows[|rows| - 1];
      Observed(rows, targets, x) <==>
        Observed(init, targets, x) || (x != "" && (targets != {} ==> x in targets) && (row.src == x || row.dst == x))
  {
    var init := rows[..|rows| - 1];
    if Observed(init, targets, x) {
      var i :| 0 <= i < |init| && (init[i].src == x || init[i].dst == x);
      assert rows[i] == init[i];
    }
    if Observed(rows, targets, x) {
      var i :| 0 <= i < |rows| && (rows[i].src == x || rows[i].dst == x);
      if i < |init| { assert init[i] == rows[i]; }
    }
  }

  // ---------------------------------------------------------------- ranking

  /** Higher score first, then the lower address. */
  predicate Outranks(score: string -> real, x: string, y: string) {
    score(x) > score(y) || (score(x) == score(y) && TextLess(x, y))
  }

  ghost predicate Ranked(score: string -> real, s: seq<string>) {
    forall i, j :: 0 <= i < j < |s| ==> Outranks(score, s[i], s[j])
  }

  function InsertRanked(score: string -> real, s: seq<string>, x: string): seq<string> {
    if s == [] || Outranks(score, s[|s| - 1], x) then s + [x]
    else InsertRanked(score, s[..|s| - 1], x) + [s[|s| - 1]]
  }

  function Rank(score: string -> real, addresses: seq<string>): seq<string> {
    if addresses == [] then [] else InsertRanked(score, Rank(score, addresses[..|addresses| - 1]), addresses[|addresses| - 1])
  }

  lemma {:induction false} InsertRankedKeeps(score: string -> real, s: seq<string>, x: string)
    requires Ranked(score, s) && x !in s
    ensures Ranked(score, InsertRanked(score, s, x)) && |InsertRanked(score, s, x)| == |s| + 1
    ensures forall y :: y in InsertRanked(score, s, x) <==> y == x || y in s
  {
    if s != [] {
      var init, last := s[..|s| - 1], s[|s| - 1];
      assert s == init + [last];
      TextOrder(last, x);
      if Outranks(score, last, x) {
        forall y | y in init ensures Outranks(score, y, x) {
          if TextLess(y, last) && TextLess(last, x) { TextLessTransitive(y, last, x); }
        }
      } else {
        InsertRankedKeeps(score, init, x);
        assert forall y :: y in InsertRanked(score, init, x) ==> Outranks(score, y, last);
      }
    }
  }

  lemma {:induction false} RankIs(score: string -> real, addresses: seq<string>)
    requires forall i, j :: 0 <= i < j < |addresses| ==> addresses[i] != addresses[j]
    ensures Ranked(score, Rank(score, addresses)) && |Rank(score, addresses)| == |addresses|
    ensures forall x :: x in Rank(score, addresses) <==> x in addresses
  {
    if addresses != [] {
      var init, last := addresses[..|addresses| - 1], addresses[|addresses| - 1];
      assert addresses == init + [last];
      RankIs(score, init);
      InsertRankedKeeps(score, Rank(score, init), last);
    }
  }

  /** Those with the given score, in the order they stand. */
  function WithScore(score: string -> real, s: seq<string>, best: real): seq<string> {
    if s == [] then []
    else WithScore(score, s[..|s| - 1], best) + if score(s[|s| - 1]) == best then [s[|s| - 1]] else []
  }

  lemma {:induction false} WithScoreIs(score: string -> real, s: seq<string>, best: real)
    requires Ranked(score, s)
    ensures Ascending(WithScore(score, s, best))
    ensures forall x :: x in WithScore(score, s, best) <==> x in s && score(x) == best
  {
    if s != [] {
      var init, last := s[..|s| - 1], s[|s| - 1];
      assert s == init + [last];
      WithScoreIs(score, init, best);
      forall x | x in init ensures Outranks(score, x, last) {
        var i :| 0 <= i < |init| && init[i] == x;
        assert s[i] == x;
      }
      if score(last) == best {
        forall x | x in WithScore(score, init, best) ensures TextLess(x, last) { assert Outranks(score, x, last); }
      }
    }
  }

  // ---------------------------------------------------------------- the report

  datatype Report = Report(ranked: seq<string>, top: seq<string>, topScore: Option<real>, ties: nat,
                           observed: nat, rows: nat, total: int, complete: bool)

  predicate AnyIncomplete(rows: seq<Flow>) { exists i :: 0 <= i < |rows| && rows[i].incomplete }

  /** What is reported about the rows read; `total` is the database's own count, if it gives one. */
  function ReportOn(rows: seq<Flow>, total: Option<int>, targets: set<string>, score: string -> real): Report {
    var addresses := Addresses(rows, targets);
    var count := if total.Some? then total.value else |rows|;
    var ranking := Rank(score, Take(addresses, ADDRESS_CAP));
    var best := if ranking == [] then None else Some(score(ranking[0]));
    var ties := if best.None? then [] else WithScore(score, ranking, best.value);
    Report(Take(ranking, 25), Take(ties, 10), best, |ties|, |Take(addresses, ADDRESS_CAP)|, |rows|, count,
           |rows| < ROW_CAP && |rows| >= count && !AnyIncomplete(rows) && |addresses| <= ADDRESS_CAP)
  }

  /** The first rows, as many as are read. */
  function FirstRows(table: seq<Flow>): seq<Flow> { if |table| <= 5000 then table else table[..5000] }

  /** What is reported about the addresses that were scored. */
  ghost predicate Reports(r: Report, scored: seq<string>, score: string -> real) {
    Lists(r.ranked, scored, score) && Tops(r, scored, score) && r.observed == |scored|
  }

  /** The ranked list is in order, shows as many as it may, and leaves out none that outranks one it shows. */
  ghost predicate Lists(ranked: seq<string>, scored: seq<string>, score: string -> real) {
    && Ranked(score, ranked) && |ranked| == (if |scored| < 25 then |scored| else 25)
    && (forall x :: x in ranked ==> x in scored)
    && (forall x, y :: x in scored && x !in ranked && y in ranked ==> Outranks(score, y, x))
  }

  /** The best score, and the addresses that reach it in order of address, at most ten of them shown and
      all of them counted. */
  ghost predicate Tops(r: Report, scored: seq<string>, score: string -> real) {
    if scored == [] then r.topScore == None && r.top == [] && r.ties == 0
    else
      && r.topScore.Some?
      && (exists x :: x in scored && score(x) == r.topScore.value)
      && (forall x :: x in scored ==> score(x) <= r.topScore.value)
      && exists ties: seq<string> ::
           && Ascending(ties) && (forall x :: x in ties <==> x in scored && score(x) == r.topScore.value)
           && r.top == (if |ties| <= 10 then ties else ties[..10]) && r.ties == |ties|
  }

  /** The scored addresses: the observed ones, in order, up to the first 500. */
  ghost predicate FirstObserved(scored: seq<string>, rows: seq<Flow>, targets: set<string>) {
    && Ascending(scored) && |scored| <= 500
    && (forall x :: x in scored ==> Observed(rows, targets, x))
    && (forall x :: Observed(rows, targets, x) && x !in scored ==> |scored| == 500 && forall y :: y in scored ==> TextLess(y, x))
  }

  /** The report is about the first 500 addresses of the rows read. */
  ghost predicate IsBounded(r: Report, table: seq<Flow>, targets: set<string>, score: string -> real) {
    exists scored :: FirstObserved(scored, FirstRows(table), targets) && Reports(r, scored, score)
  }

  /** The report is about every observed address of the whole table. */
  ghost predicate IsExact(r: Report, table: seq<Flow>, targets: set<string>, score: string -> real) {
    exists scored: seq<string> ::
      Ascending(scored) && (forall x :: x in scored <==> Observed(table, targets, x)) && Reports(r, scored, score)
  }

  lemma {:induction false} AscendingIsDistinct(s: seq<string>, i: nat, j: nat)
    requires Ascending(s) && i < j < |s|
    ensures s[i] != s[j]
  {
    TextOrder(s[i], s[j]);
  }

  /** Cutting the ranking off after the first n. */
  lemma RankedCut(score: string -> real, ranking: seq<string>, n: nat)
    requires Ranked(score, ranking)
    ensures Ranked(score, Take(ranking, n))
    ensures forall x, y :: x in ranking && x !in Take(ranking, n) && y in Take(ranking, n) ==> Outranks(score, y, x)
  {
    forall x, y | x in ranking && x !in Take(ranking, n) && y in Take(ranking, n) ensures Outranks(score, y, x) {
      var i :| 0 <= i < |ranking| && ranking[i] == x;
      var j :| 0 <= j < |Take(ranking, n)| && Take(ranking, n)[j] == y;
      assert ranking[j] == y;
    }
  }

  lemma RankingLists(scored: seq<string>, ranking: seq<string>, score: string -> real)
    requires Ranked(score, ranking) && |ranking| == |scored| && forall x :: x in ranking <==> x in scored
    ensures Lists(Take(ranking, 25), scored, score)
  {
    RankedCut(score, ranking, 25);
  }

  lemma RankingTops(r: Report, scored: seq<string>, ranking: seq<string>, score: string -> real)
    requires Ranked(score, ranking) && scored != [] && |ranking| == |scored| && forall x :: x in ranking <==> x in scored
    requires var ties := WithScore(score, ranking, score(ranking[0]));
      r.topScore == Some(score(ranking[0])) && r.top == Take(ties, 10) && r.ties == |ties|
    ensures Tops(r, scored, score)
  {
    BestIsFirst(score, ranking);
    assert ranking[0] in ranking;
    WithScoreIs(score, ranking, score(ranking[0]));
    var ties := WithScore(score, ranking, score(ranking[0]));
    assert Ascending(ties) && r.top == (if |ties| <= 10 then ties else ties[..10]);
  }

  lemma ReportReports(rows: seq<Flow>, total: Option<int>, targets: set<string>, score: string -> real)
    ensures Reports(ReportOn(rows, total, targets, score), Take(Addresses(rows, targets), 500), score)
  {
    var scored := Take(Addresses(rows, targets), 500);
    var ranking := Rank(score, scored);
    AddressesAre(rows, targets);
    forall i, j | 0 <= i < j < |scored| ensures scored[i] != scored[j] { AscendingIsDistinct(scored, i, j); }
    RankIs(score, scored);
    RankingLists(scored, ranking, score);
    if scored != [] { RankingTops(ReportOn(rows, total, targets, score), scored, ranking, score); }
  }

  lemma FirstAddresses(rows: seq<Flow>, targets: set<string>)
    ensures FirstObserved(Take(Addresses(rows, targets), 500), rows, targets)
  {
    var addresses, scored := Addresses(rows, targets), Take(Addresses(rows, targets), 500);
    AddressesAre(rows, targets);
    forall x | x in addresses && x !in scored ensures |scored| == 500 && forall y :: y in scored ==> TextLess(y, x) {
      var i :| 0 <= i < |addresses| && addresses[i] == x;
    }
  }

  /** Every report is exact for the first 500 addresses of the rows read; one that calls itself complete
      is exact for all of the table; and it does so just when all rows were read, none of them
      incomplete, and every address was scored. */
  lemma CompleteIsExact(table: seq<Flow>, total: Option<int>, targets: set<string>, score: string -> real)
    requires total.Some? ==> total.value == |table|
    ensures var r := ReportOn(Take(table, ROW_CAP), total, targets, score);
      && IsBounded(r, table, targets, score)
      && (r.complete ==> IsExact(r, table, targets, score))
      && (r.complete <==> |table| < 5000 && !AnyIncomplete(table) && |Addresses(table, targets)| <= 500)
      && r.rows == |FirstRows(table)| && r.total == if total.Some? then |table| else |FirstRows(table)|
  {
    var rows := Take(table, ROW_CAP);
    assert rows == FirstRows(table);
    ReportReports(rows, total, targets, score);
    FirstAddresses(rows, targets);
    if ReportOn(rows, total, targets, score).complete { AddressesAre(table, targets); }
  }

  lemma BestIsFirst(score: string -> real, s: seq<string>)
    requires Ranked(score, s) && s != []
    ensures forall x :: x in s ==> score(x) <= score(s[0])
  {
    forall x | x in s ensures score(x) <= score(s[0]) {
      var i :| 0 <= i < |s| && s[i] == x;
      if i > 0 { assert Outranks(score, s[0], s[i]); }
    }
  }

  // ---------------------------------------------------------------- the loops

  /** The paging loop reads exactly the first 5000 rows, or all there are. */
  method ReadRows(table: seq<Flow>) returns (rows: seq<Flow>)
    ensures rows == Take(table, 5000) == FirstRows(table)
  {
    rows := [];
    var offset := 0;
    while offset < ROW_CAP
      invariant offset == |rows| <= ROW_CAP && rows == Take(table, offset)
      decreases ROW_CAP - offset
    {
      var page := GetFlows(table, if PAGE < ROW_CAP - offset then PAGE else ROW_CAP - offset, offset);
      if page == [] { break; }
      rows := rows + page;
      offset := offset + |page|;
      if |page| < PAGE { break; }
    }
  }

  /** Score the addresses one by one, keeping them ranked. */
  method Assess(observed: seq<string>, score: string -> real) returns (assessments: seq<string>)
    ensures assessments == Rank(score, observed)
  {
    assessments := [];
    for i := 0 to |observed|
      invariant assessments == Rank(score, observed[..i])
    {
      assert observed[..i + 1][..i] == observed[..i];
      assessments := InsertRanked(score, assessments, observed[i]);
    }
    assert observed[..|observed|] == observed;
  }

  method PriorityEndpoints(table: seq<Flow>, total: Option<int>, targets: set<string>, score: string -> real) returns (r: Report)
    requires total.Some? ==> total.value == |table|
    ensures IsBounded(r, table, targets, score)
    ensures r.complete ==> IsExact(r, table, targets, score)
    ensures r.complete <==> |table| < 5000 && !AnyIncomplete(table) && |Addresses(table, targets)| <= 500
    ensures r.rows == |FirstRows(table)| && r.total == if total.Some? then |table| else |FirstRows(table)|
  {
    var rows := ReadRows(table);
    var observed := Addresses(rows, targets);
    var count := if total.Some? then total.value else |rows|;
    var complete := |rows| < ROW_CAP && |rows| >= count && !AnyIncomplete(rows);
    if |observed| > ADDRESS_CAP {
      observed := observed[..ADDRESS_CAP];
      complete := false;
    }
    var ranking := Assess(observed, score);
    var best := if ranking == [] then None else Some(score(ranking[0]));
    var top := if best.None? then [] else WithScore(score, ranking, best.value);
    r := Report(Take(ranking, 25), Take(top, 10), best, |top|, |observed|, |rows|, count, complete);
    CompleteIsExact(table, total, targets, score);
  }
}
