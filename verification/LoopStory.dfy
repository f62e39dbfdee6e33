/**
 What a run of the evidence loop amounts to, told by the provider's turns: which calls were made, in
 which order, what each turn was asked with, and why the run ended.  The first two parts tell the
 story without the loop's own functions; the rest shows that `Run` has exactly such a story.
 */
module LoopStory {
  import opened Wrappers
  import opened ExecuteLoop
  import ToolPolicy

  // ---------------------------------------------------------------- calls

  predicate Returning(w: World, keys: seq<Key>) { forall i :: 0 <= i < |keys| ==> w.run(keys[i]).Some? }

  function Returns(w: World, keys: seq<Key>): (r: seq<ToolResult>)
    requires Returning(w, keys)
    ensures |r| == |keys|
  {
    seq(|keys|, i requires 0 <= i < |keys| => w.run(keys[i]).value)
  }

  /** Each result quoted back to the provider. */
  function Quotes(w: World, keys: seq<Key>): (r: seq<Entry>)
    requires Returning(w, keys)
    ensures |r| == |keys|
  {
    seq(|keys|, i requires 0 <= i < |keys| => Output(keys[i], w.run(keys[i]).value))
  }

  /** After these calls, made in this order and quoted back. */
  function Made(w: World, l: Loop, keys: seq<Key>): Loop
    requires Returning(w, keys)
  {
    l.(results := l.results + Returns(w, keys), transcript := l.transcript + Quotes(w, keys), called := l.called + keys)
  }

  /** What the calls of a turn come to once their arguments are repaired. */
  function Keys(p: Plan, calls: seq<ToolCall>): (r: seq<Key>)
    ensures |r| == |calls|
  {
    seq(|calls|, i requires 0 <= i < |calls| => p.repair(calls[i]))
  }

  function FollowupKeys(p: Plan, names: seq<string>): (r: seq<Key>)
    ensures |r| == |names|
  {
    seq(|names|, i requires 0 <= i < |names| => p.followupKey(names[i]))
  }

  /** How many calls repeat an earlier one. */
  function Repeats(called: seq<Key>): nat {
    if called == [] then 0
    else Repeats(called[..|called| - 1]) + if called[|called| - 1] in called[..|called| - 1] then 1 else 0
  }

  // ---------------------------------------------------------------- endings

  /** A turn that asks for nothing answers; one that still asks is asked once more, without tools.  A
      cancellation noticed now still stops the run. */
  predicate Concluded(w: World, l: Loop, turn: Turn, o: Outcome) {
    if turn.calls == [] then o == (if w.cancelled(AtEnd) then Stopped(l) else Answered(l, turn))
    else
      var m := l.(asks := l.asks + 1);
      match w.respond(l.asks, l.results, [], l.transcript)
      case None => o == NoAnswer(m)
      case Some(last) => o == (if w.cancelled(AtEnd) then Stopped(m) else Answered(m, last))
  }

  /** The provider has to answer without tools. */
  predicate Forced(w: World, l: Loop, o: Outcome) {
    var m := l.(asks := l.asks + 1);
    match w.respond(l.asks, l.results, [], l.transcript)
    case None => o == NoAnswer(m)
    case Some(turn) => Concluded(w, m, turn, o)
  }

  /** The first k calls of a turn were made: all of registered tools, within the cap, and without a
      second repeat. */
  predicate MadeUpTo(p: Plan, w: World, l: Loop, calls: seq<ToolCall>, k: nat) {
    && k <= |calls| && Returning(w, Keys(p, calls)[..k])
    && (forall i :: 0 <= i < k ==> calls[i].name in p.registry)
    && (k > 0 ==> |l.called| + k <= Cap(p) && Repeats(l.called + Keys(p, calls)[..k]) < 2)
  }

  /** The turn was cut short at its k-th call: the cap was used up, the tool is unknown, the call needs
      approval, or it was made and was the second repeat. */
  predicate CutAt(p: Plan, w: World, l: Loop, calls: seq<ToolCall>, k: nat, o: Outcome)
    requires MadeUpTo(p, w, l, calls, k) && k < |calls|
  {
    CutBy(p, w, Made(w, l, Keys(p, calls)[..k]), calls[k], o)
  }

  predicate CutBy(p: Plan, w: World, l: Loop, call: ToolCall, o: Outcome) {
    var key := p.repair(call);
    if |l.called| >= Cap(p) then Forced(w, l, o)
    else if call.name !in p.registry then o == UnknownTool(l)
    else if w.run(key) == None then o == Suspended(l)
    else Repeats(l.called + [key]) >= 2 && Forced(w, Made(w, l, [key]), o)
  }

  ghost predicate CutShort(p: Plan, w: World, l: Loop, calls: seq<ToolCall>, o: Outcome) {
    exists k: nat :: k < |calls| && MadeUpTo(p, w, l, calls, k) && CutAt(p, w, l, calls, k, o)
  }

  /** The follow-ups the first turn earns when the prompt forced its tool: as many as the cap leaves. */
  function FollowupsDue(p: Plan, l: Loop): seq<Key> {
    if p.forcedFirst == None || l.rounds != 1 then [] else FollowupKeys(p, p.followups)[..WithinCap(p, l, |p.followups|)]
  }

  /** How many of n more calls the cap leaves. */
  function WithinCap(p: Plan, l: Loop, n: nat): (k: nat)
    ensures k <= n
  {
    if |l.called| >= Cap(p) then 0 else if |l.called| + n <= Cap(p) then n else Cap(p) - |l.called|
  }

  // ---------------------------------------------------------------- rounds

  /** The provider's turn in the next round, asked with these tools. */
  function TurnAt(w: World, l: Loop, tools: seq<string>): Option<Turn> { w.respond(l.asks, l.results, tools, l.transcript) }

  /** Its turn is noted. */
  function Noted(l: Loop, turn: Turn): Loop {
    l.(rounds := l.rounds + 1, asks := l.asks + 1, transcript := l.transcript + [Assistant(turn)])
  }

  /** A round that was served in full: the turn asked for something, every call of it was made in order,
      and so were the follow-ups it earned. */
  predicate Served(p: Plan, w: World, l: Loop, tools: seq<string>, turn: Turn, next: Loop) {
    && l.rounds < 8 && !w.cancelled(AtRound(l.rounds))
    && TurnAt(w, l, tools) == Some(turn) && turn.calls != []
    && MadeUpTo(p, w, Noted(l, turn), turn.calls, |turn.calls|)
    && Returning(w, Keys(p, turn.calls))
    && var m := Made(w, Noted(l, turn), Keys(p, turn.calls));
       && Returning(w, FollowupsDue(p, m)) && next == Made(w, m, FollowupsDue(p, m))
  }

  /** Why no further round was served. */
  ghost predicate EndsAt(p: Plan, w: World, l: Loop, tools: seq<string>, last: Turn, o: Outcome) {
    if l.rounds == 8 then Concluded(w, l, last, o)
    else if w.cancelled(AtRound(l.rounds)) then o == Stopped(l)
    else match TurnAt(w, l, tools)
      case None => o == NoAnswer(l.(rounds := l.rounds + 1, asks := l.asks + 1))
      case Some(turn) =>
        var m := Noted(l, turn);
        if turn.calls == [] then Concluded(w, m, turn, o)
        else CutShort(p, w, m, turn.calls, o) || FollowupHeld(p, w, m, turn.calls, o)
  }

  /** Every call of the turn was made, and one of its follow-ups needs approval. */
  ghost predicate FollowupHeld(p: Plan, w: World, l: Loop, calls: seq<ToolCall>, o: Outcome) {
    MadeUpTo(p, w, l, calls, |calls|) && Returning(w, Keys(p, calls)) &&
    HeldAmong(w, Made(w, l, Keys(p, calls)), FollowupsDue(p, Made(w, l, Keys(p, calls))), o)
  }

  /** One of these calls needs approval, and the ones before it were made. */
  ghost predicate HeldAmong(w: World, l: Loop, keys: seq<Key>, o: Outcome) {
    exists k: nat :: k < |keys| && Returning(w, keys[..k]) && w.run(keys[k]) == None && o == Suspended(Made(w, l, keys[..k]))
  }

  /** The tools a round offers: all of them once the forced first tool had its round. */
  function Offered(p: Plan, shown: seq<string>, l: Loop): seq<string> {
    if l.rounds > 0 && p.forcedFirst != None then p.tools else shown
  }

  function ServedAs(p: Plan, w: World, shown: seq<string>): (Loop, Turn, Loop) -> bool {
    (l, turn, next) => Served(p, w, l, Offered(p, shown, l), turn, next)
  }

  /** The turns lead from h[0] to h[1], to h[2] and so on. */
  ghost predicate Linked(leads: (Loop, Turn, Loop) -> bool, h: seq<Loop>, turns: seq<Turn>) {
    |h| == |turns| + 1 && forall i :: 0 <= i < |turns| ==> leads(h[i], turns[i], h[i + 1])
  }

  function LastTurn(first: Turn, turns: seq<Turn>): Turn { if turns == [] then first else turns[|turns| - 1] }

  ghost predicate EndsWith(p: Plan, w: World, shown: seq<string>, l: Loop, last: Turn, o: Outcome) {
    EndsAt(p, w, l, Offered(p, shown, l), last, o)
  }

  /** The rounds served one after the other, and the end. */
  ghost predicate Story(p: Plan, w: World, shown: seq<string>, first: Turn, h: seq<Loop>, turns: seq<Turn>, o: Outcome) {
    && Linked(ServedAs(p, w, shown), h, turns)
    && EndsWith(p, w, shown, h[|turns|], LastTurn(first, turns), o)
  }

  ghost predicate HasStory(p: Plan, w: World, shown: seq<string>, first: Turn, l: Loop, o: Outcome) {
    exists h, turns :: Story(p, w, shown, first, h, turns, o) && h[0] == l
  }

  // ---------------------------------------------------------------- the loop has a story

  lemma {:induction false} RepeatsAre(called: seq<Key>)
    ensures Redundant(called) == Repeats(called)
  {
    if called != [] {
      var init, key := called[..|called| - 1], called[|called| - 1];
      assert called == init + [key];
      DedupAppend(init, key);
      RepeatsAre(init);
    }
  }

  lemma RepeatsAppend(called: seq<Key>, key: Key)
    ensures Repeats(called) <= Repeats(called + [key])
  {
    assert (called + [key])[..|called|] == called;
  }

  lemma ConcludesSo(w: World, l: Loop, turn: Turn)
    ensures Concluded(w, l, turn, Conclude(w, l, turn))
  {
  }

  /** Making one call, then others. */
  lemma MadeFirst(w: World, l: Loop, key: Key, keys: seq<Key>)
    requires w.run(key).Some? && Returning(w, keys)
    ensures Returning(w, [key] + keys) && Made(w, Made(w, l, [key]), keys) == Made(w, l, [key] + keys)
  {
    assert Returns(w, [key]) == [w.run(key).value] && Quotes(w, [key]) == [Output(key, w.run(key).value)];
    assert Returns(w, [key] + keys) == Returns(w, [key]) + Returns(w, keys);
    assert Quotes(w, [key] + keys) == Quotes(w, [key]) + Quotes(w, keys);
    assert l.results + Returns(w, [key]) + Returns(w, keys) == l.results + Returns(w, [key] + keys);
    assert l.transcript + Quotes(w, [key]) + Quotes(w, keys) == l.transcript + Quotes(w, [key] + keys);
    assert l.called + [key] + keys == l.called + ([key] + keys);
  }

  lemma CallIsMade(w: World, l: Loop, key: Key)
    requires w.run(key).Some?
    ensures Call(w, l, key).Some? && Recorded(Call(w, l, key).value, key) == Made(w, l, [key])
  {
    assert Returns(w, [key]) == [w.run(key).value] && Quotes(w, [key]) == [Output(key, w.run(key).value)];
  }

  lemma MadeNothing(w: World, l: Loop)
    ensures Made(w, l, []) == l
  {
    assert l.results + [] == l.results && l.transcript + [] == l.transcript && l.called + [] == l.called;
  }

  lemma KeysFirst(p: Plan, calls: seq<ToolCall>, k: nat)
    requires 0 < k <= |calls|
    ensures Keys(p, calls)[..k] == [p.repair(calls[0])] + Keys(p, calls[1..])[..k - 1]
  {
  }

  /** What a round left off with comes to. */
  function EndOf(w: World, r: Round): Outcome
    requires !r.Through?
  {
    match r
    case Left(o) => o
    case Exhausted(l, turn) => Conclude(w, l, turn)
  }

  lemma ForcedSo(w: World, l: Loop)
    ensures !Force(w, l).Through? && Forced(w, l, EndOf(w, Force(w, l)))
  {
    match w.respond(l.asks, l.results, [], l.transcript) {
      case None =>
      case Some(turn) => ConcludesSo(w, l.(asks := l.asks + 1), turn);
    }
  }

  /** One call, as the story tells it. */
  lemma OneCallSo(p: Plan, w: World, l: Loop, call: ToolCall)
    ensures var (r, key) := (OneCall(p, w, l, call), p.repair(call));
      if |l.called| >= Cap(p) then !r.Through? && Forced(w, l, EndOf(w, r))
      else if call.name !in p.registry then r == Left(UnknownTool(l))
      else if w.run(key) == None then r == Left(Suspended(l))
      else if Repeats(l.called + [key]) >= 2 then !r.Through? && Forced(w, Made(w, l, [key]), EndOf(w, r))
      else r == Through(Made(w, l, [key]))
  {
    var key := p.repair(call);
    if |l.called| >= Cap(p) { ForcedSo(w, l); }
    else if call.name in p.registry && w.run(key).Some? {
      CallIsMade(w, l, key);
      RepeatsAre(l.called + [key]);
      ForcedSo(w, Made(w, l, [key]));
    }
  }

  /** The first call of a turn goes through. */
  predicate GoesThrough(p: Plan, w: World, l: Loop, call: ToolCall) {
    && |l.called| < Cap(p) && call.name in p.registry && w.run(p.repair(call)).Some?
    && Repeats(l.called + [p.repair(call)]) < 2
  }

  lemma MadeUpToFirst(p: Plan, w: World, l: Loop, calls: seq<ToolCall>, k: nat)
    requires calls != [] && GoesThrough(p, w, l, calls[0]) && MadeUpTo(p, w, Made(w, l, [p.repair(calls[0])]), calls[1..], k)
    ensures MadeUpTo(p, w, l, calls, k + 1)
    ensures Made(w, l, Keys(p, calls)[..k + 1]) == Made(w, Made(w, l, [p.repair(calls[0])]), Keys(p, calls[1..])[..k])
  {
    var key, rest := p.repair(calls[0]), Keys(p, calls[1..])[..k];
    KeysFirst(p, calls, k + 1);
    MadeFirst(w, l, key, rest);
    assert l.called + [key] + rest == l.called + ([key] + rest);
    if k == 0 { assert rest == [] && [key] + rest == [key]; }
  }

  lemma CutFirst(p: Plan, w: World, l: Loop, calls: seq<ToolCall>, o: Outcome)
    requires calls != [] && GoesThrough(p, w, l, calls[0]) && CutShort(p, w, Made(w, l, [p.repair(calls[0])]), calls[1..], o)
    ensures CutShort(p, w, l, calls, o)
  {
    var m := Made(w, l, [p.repair(calls[0])]);
    var k: nat :| k < |calls| - 1 && MadeUpTo(p, w, m, calls[1..], k) && CutAt(p, w, m, calls[1..], k, o);
    MadeUpToFirst(p, w, l, calls, k);
    assert calls[1..][k] == calls[k + 1];
    assert CutBy(p, w, Made(w, l, Keys(p, calls)[..k + 1]), calls[k + 1], o);
    assert CutAt(p, w, l, calls, k + 1, o);
  }

  /** A turn is served in full, or cut short. */
  lemma {:induction false} CallsSo(p: Plan, w: World, l: Loop, calls: seq<ToolCall>)
    ensures var r := Calls(p, w, l, calls);
      if r.Through? then MadeUpTo(p, w, l, calls, |calls|) && Returning(w, Keys(p, calls)) && r.l == Made(w, l, Keys(p, calls))
      else CutShort(p, w, l, calls, EndOf(w, r))
    decreases |calls|
  {
    if calls == [] {
      MadeNothing(w, l);
      assert Keys(p, calls) == [];
    } else {
      var key, r := p.repair(calls[0]), OneCall(p, w, l, calls[0]);
      OneCallSo(p, w, l, calls[0]);
      if r.Through? {
        CallsSo(p, w, r.l, calls[1..]);
        if Calls(p, w, r.l, calls[1..]).Through? {
          MadeUpToFirst(p, w, l, calls, |calls| - 1);
          assert Keys(p, calls[1..])[..|calls| - 1] == Keys(p, calls[1..]) && Keys(p, calls)[..|calls|] == Keys(p, calls);
        } else {
          CutFirst(p, w, l, calls, EndOf(w, Calls(p, w, r.l, calls[1..])));
        }
      } else {
        MadeNothing(w, l);
        assert Keys(p, calls)[..0] == [];
        assert MadeUpTo(p, w, l, calls, 0) && CutAt(p, w, l, calls, 0, EndOf(w, r));
      }
    }
  }

  lemma HeldFirst(w: World, l: Loop, key: Key, rest: seq<Key>, keys: seq<Key>, o: Outcome)
    requires w.run(key).Some? && keys == [key] + rest && HeldAmong(w, Made(w, l, [key]), rest, o)
    ensures HeldAmong(w, l, keys, o)
  {
    var k: nat :| k < |rest| && Returning(w, rest[..k]) && w.run(rest[k]) == None && o == Suspended(Made(w, Made(w, l, [key]), rest[..k]));
    MadeFirst(w, l, key, rest[..k]);
    assert keys[..k + 1] == [key] + rest[..k] && keys[k + 1] == rest[k];
  }

  /** The follow-ups are made in order, up to the cap, or one of them needs approval. */
  lemma {:induction false} FollowupsSo(p: Plan, w: World, l: Loop, names: seq<string>)
    ensures var r, keys := Followups(p, w, l, names), FollowupKeys(p, names)[..WithinCap(p, l, |names|)];
      if r.Ok? then Returning(w, keys) && r.value == Made(w, l, keys) else HeldAmong(w, l, keys, r.error)
    decreases |names|
  {
    var keys := FollowupKeys(p, names)[..WithinCap(p, l, |names|)];
    if names == [] || |l.called| >= Cap(p) {
      MadeNothing(w, l);
      assert keys == [];
    } else if w.run(p.followupKey(names[0])) == None {
      MadeNothing(w, l);
      assert keys[..0] == [] && keys[0] == p.followupKey(names[0]);
    } else {
      var key := p.followupKey(names[0]);
      var rest := FollowupKeys(p, names[1..])[..WithinCap(p, Made(w, l, [key]), |names| - 1)];
      CallIsMade(w, l, key);
      FollowupsSo(p, w, Made(w, l, [key]), names[1..]);
      assert keys == [key] + rest;
      if Followups(p, w, l, names).Ok? { MadeFirst(w, l, key, rest); }
      else { HeldFirst(w, l, key, rest, keys, Followups(p, w, l, names).error); }
    }
  }

  // ---------------------------------------------------------------- the rounds have a story

  lemma StoryEnds(p: Plan, w: World, shown: seq<string>, first: Turn, l: Loop, o: Outcome)
    requires EndsAt(p, w, l, Offered(p, shown, l), first, o)
    ensures HasStory(p, w, shown, first, l, o)
  {
    assert Story(p, w, shown, first, [l], [], o) && [l][0] == l;
  }

  lemma LinkedFirst(leads: (Loop, Turn, Loop) -> bool, l: Loop, turn: Turn, h: seq<Loop>, turns: seq<Turn>)
    requires Linked(leads, h, turns) && leads(l, turn, h[0])
    ensures Linked(leads, [l] + h, [turn] + turns)
  {
    var h', turns' := [l] + h, [turn] + turns;
    forall i | 0 <= i < |turns'| ensures leads(h'[i], turns'[i], h'[i + 1]) {
      if i > 0 { assert h'[i] == h[i - 1] && turns'[i] == turns[i - 1] && h'[i + 1] == h[i]; }
    }
  }

  lemma StoryGoesOn(p: Plan, w: World, shown: seq<string>, first: Turn, l: Loop, turn: Turn, next: Loop, o: Outcome)
    requires Served(p, w, l, Offered(p, shown, l), turn, next) && HasStory(p, w, shown, turn, next, o)
    ensures HasStory(p, w, shown, first, l, o)
  {
    var h, turns :| Story(p, w, shown, turn, h, turns, o) && h[0] == next;
    LinkedFirst(ServedAs(p, w, shown), l, turn, h, turns);
    StoryWhole(p, w, shown, first, turn, l, h, turns, o);
  }

  lemma StoryWhole(p: Plan, w: World, shown: seq<string>, first: Turn, turn: Turn, l: Loop, h: seq<Loop>, turns: seq<Turn>, o: Outcome)
    requires Linked(ServedAs(p, w, shown), [l] + h, [turn] + turns) && |h| == |turns| + 1
    requires EndsWith(p, w, shown, h[|turns|], LastTurn(turn, turns), o)
    ensures HasStory(p, w, shown, first, l, o)
  {
    var h', turns' := [l] + h, [turn] + turns;
    assert h'[|turns'|] == h[|turns|] && LastTurn(first, turns') == LastTurn(turn, turns);
    assert Story(p, w, shown, first, h', turns', o) && h'[0] == l;
  }

  /** One round: it is served and the loop goes on, or it ends the run. */
  lemma {:induction false} RoundsSo(p: Plan, w: World, l: Loop, shown: seq<string>, last: Turn)
    requires l.rounds <= 8
    ensures HasStory(p, w, shown, last, l, Rounds(p, w, l, Offered(p, shown, l), p.tools, last))
    decreases 8 - l.rounds
  {
    var tools := Offered(p, shown, l);
    var o := Rounds(p, w, l, tools, p.tools, last);
    if l.rounds >= 8 { ConcludesSo(w, l, last); StoryEnds(p, w, shown, last, l, o); }
    else if w.cancelled(AtRound(l.rounds)) || TurnAt(w, l, tools) == None { StoryEnds(p, w, shown, last, l, o); }
    else {
      var turn := TurnAt(w, l, tools).value;
      var m := Noted(l, turn);
      assert Open(w, l, tools) == (Some(turn), m);
      if turn.calls == [] { ConcludesSo(w, m, turn); StoryEnds(p, w, shown, last, l, o); }
      else {
        CallsSo(p, w, m, turn.calls);
        if !Calls(p, w, m, turn.calls).Through? { StoryEnds(p, w, shown, last, l, o); }
        else { RoundGoesOn(p, w, l, shown, last, turn); }
      }
    }
  }

  lemma {:induction false} RoundGoesOn(p: Plan, w: World, l: Loop, shown: seq<string>, last: Turn, turn: Turn)
    requires l.rounds < 8 && !w.cancelled(AtRound(l.rounds)) && TurnAt(w, l, Offered(p, shown, l)) == Some(turn) && turn.calls != []
    requires MadeUpTo(p, w, Noted(l, turn), turn.calls, |turn.calls|) && Returning(w, Keys(p, turn.calls))
    requires Calls(p, w, Noted(l, turn), turn.calls) == Through(Made(w, Noted(l, turn), Keys(p, turn.calls)))
    ensures HasStory(p, w, shown, last, l, Rounds(p, w, l, Offered(p, shown, l), p.tools, last))
    decreases 8 - l.rounds, 0
  {
    var tools := Offered(p, shown, l);
    var m := Made(w, Noted(l, turn), Keys(p, turn.calls));
    var o := Rounds(p, w, l, tools, p.tools, last);
    assert Open(w, l, tools) == (Some(turn), Noted(l, turn));
    if p.forcedFirst != None && l.rounds == 0 {
      FollowupsSo(p, w, m, p.followups);
      var f := Followups(p, w, m, p.followups);
      if f.Ok? {
        RoundsSo(p, w, f.value, shown, turn);
        StoryGoesOn(p, w, shown, last, l, turn, f.value, o);
      } else {
        StoryEnds(p, w, shown, last, l, o);
      }
    } else {
      MadeNothing(w, m);
      RoundsSo(p, w, m, shown, turn);
      StoryGoesOn(p, w, shown, last, l, turn, m, o);
    }
  }

  // ---------------------------------------------------------------- before the first round

  function Filter<T>(s: seq<T>, keep: T -> bool): seq<T> {
    if s == [] then [] else (if keep(s[0]) then [s[0]] else []) + Filter(s[1..], keep)
  }

  function In(names: set<string>): string -> bool { name => name in names }
  function NotIn(names: seq<string>): string -> bool { name => name !in names }

  /** The opening evidence of a priority question, and of any other broad one. */
  function OpeningNames(p: Plan): seq<string> {
    if p.priorityOnly then ["priority_endpoints", "finding_summary"]
    else ["session_summary", "identity_coverage", "finding_summary", "top_conversations", "visibility_limits"]
  }

  function BareKeys(names: seq<string>): (r: seq<Key>)
    ensures |r| == |names|
  {
    seq(|names|, i requires 0 <= i < |names| => Key(names[i], ToolPolicy.Obj(map[])))
  }

  /** The registered ones among these, as far as the cap goes. */
  function BaselineKeys(p: Plan, l: Loop, names: seq<string>): seq<Key> {
    BareKeys(Filter(names, In(p.registry)))[..WithinCap(p, l, |Filter(names, In(p.registry))|)]
  }

  /** Calls whose results are not quoted. */
  function Collected(w: World, l: Loop, keys: seq<Key>): Loop
    requires Returning(w, keys)
  {
    l.(results := l.results + Returns(w, keys), called := l.called + keys)
  }

  ghost predicate HeldCollecting(w: World, l: Loop, keys: seq<Key>, o: Outcome) {
    exists k: nat :: k < |keys| && Returning(w, keys[..k]) && w.run(keys[k]) == None && o == Suspended(Collected(w, l, keys[..k]))
  }

  /** The last ranking names this endpoint alone, and no tie. */
  ghost predicate TopIs(results: seq<ToolResult>, top: ToolPolicy.Json) {
    exists i :: 0 <= i < |results| && results[i].tool == "priority_endpoints"
      && (forall j :: i < j < |results| ==> results[j].tool != "priority_endpoints")
      && NamesAlone(results[i].data, top)
  }

  predicate NamesAlone(data: ToolPolicy.Json, top: ToolPolicy.Json) {
    && data.Obj? && "top_endpoints" in data.fields && data.fields["top_endpoints"] == ToolPolicy.Arr([top])
    && ("top_tie_count" in data.fields ==> data.fields["top_tie_count"] == ToolPolicy.Int(1))
  }

  /** Its address, or an empty one. */
  function AddressOf(top: ToolPolicy.Json): ToolPolicy.Json {
    if top.Obj? && "ip" in top.fields && top.fields["ip"].Str? then top.fields["ip"] else ToolPolicy.Str("")
  }

  /** The tools of the first round: the forced one alone, if there is one, and none whose evidence was
      collected already. */
  function ShownFirst(p: Plan): seq<string> {
    var first := if p.forcedFirst != None && p.forcedFirst.value in p.tools then [p.forcedFirst.value] else p.tools;
    if p.baseline then Filter(first, NotIn(OpeningNames(p))) else first
  }

  /** A question the shortcut answers is answered now, after no provider turn; any other one goes
      through the rounds. */
  ghost predicate GoesOn(p: Plan, w: World, l: Loop, o: Outcome) {
    if p.priorityOnly || p.followupAnswered then
      o == (if w.cancelled(AtEnd) then Stopped(l.(rounds := 1)) else Answered(l.(rounds := 1), Turn("", [])))
    else HasStory(p, w, ShownFirst(p), Turn("", []), l, o)
  }

  /** The shortcut investigates a unique top endpoint if it was asked to act on it. */
  ghost predicate Investigates(p: Plan, l: Loop, top: ToolPolicy.Json) {
    (p.priorityOnly || p.followupAnswered) && p.priorityAction && "investigate" in p.registry && TopIs(l.results, top)
  }

  ghost predicate GoesOnWith(p: Plan, w: World, l: Loop, key: Key, o: Outcome) {
    if w.run(key) == None then o == Suspended(l) else GoesOn(p, w, Collected(w, l, [key]), o)
  }

  ghost predicate GoesOnAfterTop(p: Plan, w: World, l: Loop, o: Outcome) {
    && (forall top :: Investigates(p, l, top) ==>
          GoesOnWith(p, w, l, Key("investigate", ToolPolicy.Obj(map["ip" := AddressOf(top)])), o))
    && ((forall top :: !Investigates(p, l, top)) ==> GoesOn(p, w, l, o))
  }

  /** The whole run: the opening evidence, the top endpoint, the rounds. */
  ghost predicate Told(p: Plan, w: World, initial: seq<ToolResult>, o: Outcome) {
    var start := Loop(initial, [], [], 0, 0);
    var keys := if p.baseline then BaselineKeys(p, start, OpeningNames(p)) else [];
    if Returning(w, keys) then GoesOnAfterTop(p, w, Collected(w, start, keys), o) else HeldCollecting(w, start, keys, o)
  }

  // ---------------------------------------------------------------- every run is told

  lemma {:induction false} WithoutFilters(tools: seq<string>, names: seq<string>)
    ensures Without(tools, names) == Filter(tools, NotIn(names))
  {
    if tools != [] { WithoutFilters(tools[1..], names); }
  }

  lemma CollectedFirst(w: World, l: Loop, key: Key, keys: seq<Key>)
    requires w.run(key).Some? && Returning(w, keys)
    ensures Returning(w, [key] + keys) && Collected(w, Collected(w, l, [key]), keys) == Collected(w, l, [key] + keys)
  {
    assert Returns(w, [key]) == [w.run(key).value];
    assert Returns(w, [key] + keys) == Returns(w, [key]) + Returns(w, keys);
    assert l.results + Returns(w, [key]) + Returns(w, keys) == l.results + Returns(w, [key] + keys);
    assert l.called + [key] + keys == l.called + ([key] + keys);
  }

  lemma CallIsCollected(w: World, l: Loop, key: Key)
    requires w.run(key).Some?
    ensures Call(w, l, key) == Some(Collected(w, l, [key]))
  {
    assert Returns(w, [key]) == [w.run(key).value];
  }

  lemma CollectedNothing(w: World, l: Loop)
    ensures Collected(w, l, []) == l
  {
    assert l.results + [] == l.results && l.called + [] == l.called;
  }

  lemma HeldCollectingFirst(w: World, l: Loop, key: Key, rest: seq<Key>, keys: seq<Key>, o: Outcome)
    requires w.run(key).Some? && keys == [key] + rest && HeldCollecting(w, Collected(w, l, [key]), rest, o)
    ensures HeldCollecting(w, l, keys, o)
  {
    var k: nat :| k < |rest| && Returning(w, rest[..k]) && w.run(rest[k]) == None
                  && o == Suspended(Collected(w, Collected(w, l, [key]), rest[..k]));
    CollectedFirst(w, l, key, rest[..k]);
    assert keys[..k + 1] == [key] + rest[..k] && keys[k + 1] == rest[k];
  }

  /** The opening evidence is collected in full, or held at one call. */
  ghost predicate CollectsAll(w: World, l: Loop, keys: seq<Key>, r: Result<Loop, Outcome>) {
    if r.Ok? then Returning(w, keys) && r.value == Collected(w, l, keys) else HeldCollecting(w, l, keys, r.error) && !Returning(w, keys)
  }

  lemma CollectsFirst(w: World, l: Loop, key: Key, rest: seq<Key>, r: Result<Loop, Outcome>)
    requires w.run(key).Some? && CollectsAll(w, Collected(w, l, [key]), rest, r)
    ensures CollectsAll(w, l, [key] + rest, r)
  {
    if r.Ok? { CollectedFirst(w, l, key, rest); }
    else {
      HeldCollectingFirst(w, l, key, rest, [key] + rest, r.error);
      var i :| 0 <= i < |rest| && w.run(rest[i]) == None;
      assert ([key] + rest)[i + 1] == rest[i];
    }
  }

  lemma SkipUnregistered(p: Plan, l: Loop, names: seq<string>)
    requires names != [] && names[0] !in p.registry
    ensures BaselineKeys(p, l, names) == BaselineKeys(p, l, names[1..])
  {
    assert [] + Filter(names[1..], In(p.registry)) == Filter(names[1..], In(p.registry));
  }

  lemma NoneLeft(p: Plan, l: Loop, names: seq<string>)
    requires |l.called| >= Cap(p)
    ensures BaselineKeys(p, l, names) == []
  {
  }

  lemma BareKeysFirst(name: string, names: seq<string>, k: nat)
    requires k <= |names|
    ensures BareKeys([name] + names)[..k + 1] == [Key(name, ToolPolicy.Obj(map[]))] + BareKeys(names)[..k]
  {
  }

  lemma BaselineKeysFirst(p: Plan, l: Loop, names: seq<string>, m: Loop)
    requires names != [] && names[0] in p.registry && |l.called| < Cap(p) && |m.called| == |l.called| + 1
    ensures BaselineKeys(p, l, names) == [Key(names[0], ToolPolicy.Obj(map[]))] + BaselineKeys(p, m, names[1..])
  {
    var rest := Filter(names[1..], In(p.registry));
    BareKeysFirst(names[0], rest, WithinCap(p, m, |rest|));
  }

  lemma {:induction false} BaselineSo(p: Plan, w: World, l: Loop, names: seq<string>)
    ensures CollectsAll(w, l, BaselineKeys(p, l, names), Baseline(p, w, l, names))
    decreases |names|
  {
    CollectedNothing(w, l);
    if names == [] {
      assert BaselineKeys(p, l, names) == [];
    } else if |l.called| >= Cap(p) {
      NoneLeft(p, l, names);
      NoneLeft(p, l, names[1..]);
      BaselineSo(p, w, l, names[1..]);
    } else if names[0] !in p.registry {
      SkipUnregistered(p, l, names);
      BaselineSo(p, w, l, names[1..]);
    } else {
      BaselineCalls(p, w, l, names);
    }
  }

  lemma {:induction false} BaselineCalls(p: Plan, w: World, l: Loop, names: seq<string>)
    requires names != [] && names[0] in p.registry && |l.called| < Cap(p)
    ensures CollectsAll(w, l, BaselineKeys(p, l, names), Baseline(p, w, l, names))
    decreases |names|, 0
  {
    var key, m := Key(names[0], ToolPolicy.Obj(map[])), l.(called := l.called + [Key(names[0], ToolPolicy.Obj(map[]))]);
    BaselineKeysFirst(p, l, names, m);
    if w.run(key).Some? {
      CallIsCollected(w, l, key);
      BaselineSo(p, w, Collected(w, l, [key]), names[1..]);
      BaselineKeysFirst(p, l, names, Collected(w, l, [key]));
      CollectsFirst(w, l, key, BaselineKeys(p, Collected(w, l, [key]), names[1..]), Baseline(p, w, l, names));
    } else {
      CollectedNothing(w, l);
      assert BaselineKeys(p, l, names)[0] == key && BaselineKeys(p, l, names)[..0] == [];
    }
  }

  lemma {:induction false} LastRankingIs(results: seq<ToolResult>)
    ensures match LastRanking(results)
            case None => forall i :: 0 <= i < |results| ==> results[i].tool != "priority_endpoints"
            case Some(data) => exists i :: 0 <= i < |results| && results[i].tool == "priority_endpoints" && results[i].data == data
                                 && forall j :: i < j < |results| ==> results[j].tool != "priority_endpoints"
  {
    if results != [] && results[|results| - 1].tool != "priority_endpoints" {
      var init := results[..|results| - 1];
      LastRankingIs(init);
      assert forall i :: 0 <= i < |init| ==> init[i] == results[i];
    }
  }

  /** The shortcut's unique top endpoint is what the story says. */
  lemma UniqueTopIff(results: seq<ToolResult>, top: ToolPolicy.Json)
    ensures UniqueTop(results) == Some(top) <==> TopIs(results, top)
  {
    LastRankingIs(results);
    if LastRanking(results).Some? {
      var data := LastRanking(results).value;
      NamesAloneIff(results, data, top);
      var i :| 0 <= i < |results| && results[i].tool == "priority_endpoints" && results[i].data == data
               && forall j :: i < j < |results| ==> results[j].tool != "priority_endpoints";
      if TopIs(results, top) {
        var k :| 0 <= k < |results| && results[k].tool == "priority_endpoints"
                 && (forall j :: k < j < |results| ==> results[j].tool != "priority_endpoints") && NamesAlone(results[k].data, top);
        assert k == i;
      }
    }
  }

  lemma NamesAloneIff(results: seq<ToolResult>, data: ToolPolicy.Json, top: ToolPolicy.Json)
    requires LastRanking(results) == Some(data)
    ensures UniqueTop(results) == Some(top) <==> NamesAlone(data, top)
  {
    if data.Obj? && "top_endpoints" in data.fields && data.fields["top_endpoints"].Arr? {
      var items := data.fields["top_endpoints"].items;
      if |items| == 1 { assert items == [items[0]]; }
    }
  }

  lemma GoesOnSo(p: Plan, w: World, l: Loop)
    requires l.rounds == 0
    ensures GoesOn(p, w, l, if Shortcut(p) then Conclude(w, l.(rounds := 1), NoTurn)
                            else Rounds(p, w, l, if p.baseline then Without(FirstTools(p, p.tools), BaselineNames(p)) else FirstTools(p, p.tools), p.tools, NoTurn))
  {
    WithoutFilters(FirstTools(p, p.tools), BaselineNames(p));
    assert OpeningNames(p) == BaselineNames(p);
    RoundsSo(p, w, l, ShownFirst(p), NoTurn);
  }

  lemma TopSo(p: Plan, w: World, l: Loop, o: Outcome)
    requires l.rounds == 0
    requires match Extra(p, w, l)
             case Err(e) => o == e
             case Ok(m) => GoesOn(p, w, m, o)
    ensures GoesOnAfterTop(p, w, l, o)
  {
    forall top ensures UniqueTop(l.results) == Some(top) <==> TopIs(l.results, top) { UniqueTopIff(l.results, top); }
    if ExtraDue(p, l) {
      var top := UniqueTop(l.results).value;
      var key := InvestigateKey(top);
      assert Investigates(p, l, top) && key == Key("investigate", ToolPolicy.Obj(map["ip" := AddressOf(top)]));
      if w.run(key).Some? { CallIsCollected(w, l, key); }
    }
  }

  /** Every run of the loop is as the story tells it: the opening evidence in order and up to the cap,
      a unique top endpoint if the shortcut is to act on it, round after round every call of every turn
      in order, and one of the endings. */
  lemma RunIsTold(p: Plan, w: World, initial: seq<ToolResult>)
    ensures Told(p, w, initial, Run(p, w, initial))
  {
    var start := Loop(initial, [], [], 0, 0);
    CollectedNothing(w, start);
    BaselineSo(p, w, start, BaselineNames(p));
    assert OpeningNames(p) == BaselineNames(p);
    var r := Opening(p, w, initial);
    if r.Ok? {
      var e := Extra(p, w, r.value);
      if e.Ok? { GoesOnSo(p, w, e.value); }
      TopSo(p, w, r.value, Run(p, w, initial));
    }
  }

  // ---------------------------------------------------------------- why a run ends

  /** The last turn that was offered tools asked for none. */
  ghost predicate AskedForNone(w: World, at: Loop) {
    exists l, tools, turn :: TurnAt(w, l, tools) == Some(turn) && turn.calls == [] && at == Noted(l, turn)
  }

  /** A turn was not answered. */
  ghost predicate ProviderFailed(w: World) { exists l, tools :: TurnAt(w, l, tools) == None }

  /** A turn asked for a tool nobody registered. */
  ghost predicate AskedForUnknown(p: Plan, w: World) {
    exists l, tools :: TurnAt(w, l, tools).Some? && exists call :: call in TurnAt(w, l, tools).value.calls && call.name !in p.registry
  }

  /** An answer comes after a turn that asked for no tool, or once the cap is used up, or with the second
      repeated call, or after exactly eight rounds; and each other ending has its one cause. */
  ghost predicate Why(p: Plan, w: World, o: Outcome) {
    match o
    case Answered(at, _) =>
      at.rounds == 8 || |at.called| >= Cap(p) || Repeats(at.called) >= 2 || AskedForNone(w, at)
    case Stopped(_) => exists c :: w.cancelled(c)
    case NoAnswer(_) => ProviderFailed(w)
    case Suspended(_) => exists key :: w.run(key) == None
    case UnknownTool(_) => AskedForUnknown(p, w)
  }

  lemma FailedAt(w: World, l: Loop, tools: seq<string>)
    requires w.respond(l.asks, l.results, tools, l.transcript) == None
    ensures ProviderFailed(w)
  {
    assert TurnAt(w, l, tools) == None;
  }

  lemma WhyConcluded(p: Plan, w: World, l: Loop, turn: Turn, o: Outcome)
    requires Concluded(w, l, turn, o)
    requires l.rounds == 8 || |l.called| >= Cap(p) || Repeats(l.called) >= 2 || (turn.calls == [] && AskedForNone(w, l))
    ensures Why(p, w, o)
  {
    if turn.calls != [] && w.respond(l.asks, l.results, [], l.transcript) == None { FailedAt(w, l, []); }
  }

  lemma WhyForced(p: Plan, w: World, l: Loop, o: Outcome)
    requires Forced(w, l, o) && (|l.called| >= Cap(p) || Repeats(l.called) >= 2)
    ensures Why(p, w, o)
  {
    match w.respond(l.asks, l.results, [], l.transcript) {
      case None => FailedAt(w, l, []);
      case Some(turn) => WhyConcluded(p, w, l.(asks := l.asks + 1), turn, o);
    }
  }

  lemma WhyEnds(p: Plan, w: World, l: Loop, tools: seq<string>, last: Turn, o: Outcome)
    requires EndsAt(p, w, l, tools, last, o)
    ensures Why(p, w, o)
  {
    if l.rounds == 8 { WhyConcluded(p, w, l, last, o); }
    else if !w.cancelled(AtRound(l.rounds)) {
      match TurnAt(w, l, tools) {
        case None => FailedAt(w, l, tools);
        case Some(turn) => WhyTurnEnds(p, w, l, tools, turn, o);
      }
    }
  }

  lemma WhyTurnEnds(p: Plan, w: World, l: Loop, tools: seq<string>, turn: Turn, o: Outcome)
    requires TurnAt(w, l, tools) == Some(turn)
    requires if turn.calls == [] then Concluded(w, Noted(l, turn), turn, o)
             else CutShort(p, w, Noted(l, turn), turn.calls, o) || FollowupHeld(p, w, Noted(l, turn), turn.calls, o)
    ensures Why(p, w, o)
  {
    var m := Noted(l, turn);
    if turn.calls == [] {
      assert AskedForNone(w, m);
      WhyConcluded(p, w, m, turn, o);
    } else if CutShort(p, w, m, turn.calls, o) {
      var k: nat :| k < |turn.calls| && MadeUpTo(p, w, m, turn.calls, k) && CutAt(p, w, m, turn.calls, k, o);
      WhyCut(p, w, l, tools, turn, k, Made(w, m, Keys(p, turn.calls)[..k]), o);
    } else {
      var m' := Made(w, m, Keys(p, turn.calls));
      var k: nat :| k < |FollowupsDue(p, m')| && Returning(w, FollowupsDue(p, m')[..k]) && w.run(FollowupsDue(p, m')[k]) == None
                    && o == Suspended(Made(w, m', FollowupsDue(p, m')[..k]));
    }
  }

  lemma WhyCut(p: Plan, w: World, l: Loop, tools: seq<string>, turn: Turn, k: nat, m: Loop, o: Outcome)
    requires TurnAt(w, l, tools) == Some(turn) && k < |turn.calls| && CutBy(p, w, m, turn.calls[k], o)
    ensures Why(p, w, o)
  {
    var call := turn.calls[k];
    if |m.called| >= Cap(p) { WhyForced(p, w, m, o); }
    else if call.name !in p.registry { assert call in TurnAt(w, l, tools).value.calls; }
    else if w.run(p.repair(call)) != None { WhyForced(p, w, Made(w, m, [p.repair(call)]), o); }
  }

  lemma WhyGoesOn(p: Plan, w: World, l: Loop, o: Outcome)
    requires GoesOn(p, w, l, o)
    ensures !(o.Answered? && (p.priorityOnly || p.followupAnswered)) ==> Why(p, w, o)
  {
    if !p.priorityOnly && !p.followupAnswered {
      var h, turns :| Story(p, w, ShownFirst(p), Turn("", []), h, turns, o) && h[0] == l;
      WhyEnds(p, w, h[|turns|], Offered(p, ShownFirst(p), h[|turns|]), LastTurn(Turn("", []), turns), o);
    }
  }

  lemma WhyAfterTop(p: Plan, w: World, l: Loop, o: Outcome)
    requires GoesOnAfterTop(p, w, l, o)
    ensures !(o.Answered? && (p.priorityOnly || p.followupAnswered)) ==> Why(p, w, o)
  {
    if top :| Investigates(p, l, top) {
      var key := Key("investigate", ToolPolicy.Obj(map["ip" := AddressOf(top)]));
      assert GoesOnWith(p, w, l, key, o);
      if w.run(key).Some? { WhyGoesOn(p, w, Collected(w, l, [key]), o); }
    } else {
      WhyGoesOn(p, w, l, o);
    }
  }

  /** Every run ends for one of these reasons; only an answer of the shortcut needs none. */
  lemma WhyRunsEnd(p: Plan, w: World, initial: seq<ToolResult>)
    ensures var o := Run(p, w, initial);
      !(o.Answered? && (p.priorityOnly || p.followupAnswered)) ==> Why(p, w, o)
  {
    RunIsTold(p, w, initial);
    var start, o := Loop(initial, [], [], 0, 0), Run(p, w, initial);
    var keys := if p.baseline then BaselineKeys(p, start, OpeningNames(p)) else [];
    if Returning(w, keys) { WhyAfterTop(p, w, Collected(w, start, keys), o); }
  }
}
