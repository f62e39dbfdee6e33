/**
 The event log of one analyst run (core/ai/orchestrator.py, `_emit` and `events`): a bounded window in
 memory over a durable list, merged by sequence number when read.
 */
module EventLog {
  import opened Wrappers

  /** The stamp stands for what tells two emissions of one kind apart: time, message and detail. */
  datatype Event = Event(sequence: int, kind: string, stamp: nat)

  const WINDOW := 200

  function Last<T>(s: seq<T>, n: nat): seq<T> { if n < |s| then s[|s| - n..] else s }

  /** Sequence numbers rise, so each occurs once. */
  ghost predicate Rising(s: seq<Event>) {
    forall i, j :: 0 <= i < j < |s| ==> s[i].sequence < s[j].sequence
  }

  function Newer(s: seq<Event>, after: int): seq<Event> {
    if s == [] then []
    else Newer(s[..|s| - 1], after) + if s[|s| - 1].sequence > after then [s[|s| - 1]] else []
  }

  /** One entry of the merged dictionary, sorted by sequence; a later entry replaces an earlier one. */
  function Put(s: seq<Event>, e: Event): seq<Event> {
    if s == [] || s[|s| - 1].sequence < e.sequence then s + [e]
    else if s[|s| - 1].sequence == e.sequence then s[..|s| - 1] + [e]
    else Put(s[..|s| - 1], e) + [s[|s| - 1]]
  }

  function PutAll(s: seq<Event>, es: seq<Event>): seq<Event> {
    if es == [] then s else Put(PutAll(s, es[..|es| - 1]), es[|es| - 1])
  }

  /** `events`; a database that cannot be read contributes nothing. */
  function View(stored: seq<Event>, memory: seq<Event>, after: int, readable: bool): seq<Event> {
    var persisted := if readable then Last(Newer(stored, after), WINDOW) else [];
    Last(PutAll(PutAll([], persisted), Newer(memory, after)), WINDOW)
  }

  // ---------------------------------------------------------------- always

  lemma {:induction false} NewerIs(s: seq<Event>, after: int)
    ensures forall e :: e in Newer(s, after) <==> e in s && e.sequence > after
    ensures Rising(s) ==> Rising(Newer(s, after))
  {
    if s != [] {
      NewerIs(s[..|s| - 1], after);
      assert s == s[..|s| - 1] + [s[|s| - 1]];
    }
  }

  lemma {:induction false} PutIs(s: seq<Event>, e: Event)
    requires Rising(s)
    ensures Rising(Put(s, e)) && e in Put(s, e)
    ensures forall x :: x in Put(s, e) <==> x == e || (x in s && x.sequence != e.sequence)
  {
    if s != [] {
      var init, last := s[..|s| - 1], s[|s| - 1];
      assert s == init + [last];
      if last.sequence > e.sequence {
        PutIs(init, e);
        assert forall x :: x in Put(init, e) ==> x.sequence < last.sequence;
      }
    }
  }

  // ---------------------------------------------------------------- while every append succeeds

  /** The memory is the end of the stored list, so it adds nothing to what was read. */
  ghost predicate Mirrors(stored: seq<Event>, memory: seq<Event>) {
    Rising(stored) && |memory| <= WINDOW && |memory| <= |stored| && memory == stored[|stored| - |memory|..]
  }

  lemma {:induction false} NoneNewer(s: seq<Event>, after: int)
    requires forall i :: 0 <= i < |s| ==> s[i].sequence <= after
    ensures Newer(s, after) == []
  {
    if s != [] { NoneNewer(s[..|s| - 1], after); }
  }

  lemma {:induction false} NewerIsSuffix(s: seq<Event>, after: int)
    requires Rising(s)
    ensures |Newer(s, after)| <= |s| && Newer(s, after) == s[|s| - |Newer(s, after)|..]
    ensures forall i :: 0 <= i < |s| - |Newer(s, after)| ==> s[i].sequence <= after
  {
    if s != [] {
      NewerIsSuffix(s[..|s| - 1], after);
      assert s == s[..|s| - 1] + [s[|s| - 1]];
      if s[|s| - 1].sequence <= after {
        NoneNewer(s[..|s| - 1], after);
      }
    }
  }

  lemma {:induction false} PutAllRising(es: seq<Event>)
    requires Rising(es)
    ensures PutAll([], es) == es
  {
    if es != [] {
      PutAllRising(es[..|es| - 1]);
      assert es == es[..|es| - 1] + [es[|es| - 1]];
    }
  }

  lemma {:induction false} PutAgain(s: seq<Event>, i: nat)
    requires Rising(s) && i < |s|
    ensures Put(s, s[i]) == s
  {
    if i < |s| - 1 { PutAgain(s[..|s| - 1], i); }
    assert s == s[..|s| - 1] + [s[|s| - 1]];
  }

  lemma {:induction false} PutAllAgain(s: seq<Event>, es: seq<Event>)
    requires Rising(s) && forall e :: e in es ==> e in s
    ensures PutAll(s, es) == s
  {
    if es != [] {
      assert es == es[..|es| - 1] + [es[|es| - 1]];
      PutAllAgain(s, es[..|es| - 1]);
      assert es[|es| - 1] in s;
      var i :| 0 <= i < |s| && s[i] == es[|es| - 1];
      PutAgain(s, i);
    }
  }

  lemma MemoryIsRead(stored: seq<Event>, memory: seq<Event>, after: int, e: Event)
    requires Mirrors(stored, memory) && e in memory && e.sequence > after
    ensures e in Last(Newer(stored, after), WINDOW)
  {
    var newer := Newer(stored, after);
    NewerIsSuffix(stored, after);
    var i :| 0 <= i < |memory| && memory[i] == e;
    var k := |stored| - |memory| + i;
    var gap := |stored| - |newer|;
    assert stored[k] == e && k >= gap;
    assert newer[k - gap] == e;
    if |newer| > WINDOW { assert Last(newer, WINDOW)[k - gap - (|newer| - WINDOW)] == e; }
  }

  /** A reader then gets exactly the last 200 stored events it has not seen. */
  lemma ViewIsLastWindow(stored: seq<Event>, memory: seq<Event>, after: int)
    requires Mirrors(stored, memory)
    ensures View(stored, memory, after, true) == Last(Newer(stored, after), 200)
  {
    var persisted := Last(Newer(stored, after), WINDOW);
    NewerIs(stored, after);
    NewerIs(memory, after);
    PutAllRising(persisted);
    forall e | e in Newer(memory, after) ensures e in persisted { MemoryIsRead(stored, memory, after, e); }
    PutAllAgain(persisted, Newer(memory, after));
  }

  // ---------------------------------------------------------------- what a reader sees, exactly

  /** The last entry that carries the number. */
  function Holder(s: seq<Event>, n: int): (r: Option<Event>)
    ensures r.Some? ==> r.value in s && r.value.sequence == n
    ensures r.None? ==> forall e :: e in s ==> e.sequence != n
  {
    if s == [] then None
    else if s[|s| - 1].sequence == n then Some(s[|s| - 1])
    else
      assert s == s[..|s| - 1] + [s[|s| - 1]];
      Holder(s[..|s| - 1], n)
  }

  /** The numbers greater than n. */
  function Above(s: seq<Event>, n: int): set<int> { set e | e in s && e.sequence > n :: e.sequence }

  lemma {:induction false} HolderOfBoth(a: seq<Event>, b: seq<Event>, n: int)
    ensures Holder(a + b, n) == if Holder(b, n).Some? then Holder(b, n) else Holder(a, n)
    decreases |b|
  {
    if b == [] {
      assert a + b == a;
    } else {
      assert (a + b)[..|a + b| - 1] == a + b[..|b| - 1];
      HolderOfBoth(a, b[..|b| - 1], n);
    }
  }

  lemma AboveOfBoth(a: seq<Event>, b: seq<Event>, n: int)
    ensures Above(a + b, n) == Above(a, n) + Above(b, n)
  {
  }

  lemma HolderOfLast(s: seq<Event>, e: Event, n: int)
    ensures Holder(s + [e], n) == if e.sequence == n then Some(e) else Holder(s, n)
  {
    assert (s + [e])[..|s|] == s;
  }

  lemma {:induction false} HolderOfNewer(s: seq<Event>, after: int, n: int)
    requires n > after
    ensures Holder(Newer(s, after), n) == Holder(s, n)
  {
    if s != [] {
      HolderOfNewer(s[..|s| - 1], after, n);
      if s[|s| - 1].sequence > after {
        HolderOfLast(Newer(s[..|s| - 1], after), s[|s| - 1], n);
      } else {
        assert Newer(s, after) == Newer(s[..|s| - 1], after);
      }
    }
  }

  lemma AboveOfNewer(s: seq<Event>, after: int, n: int)
    requires n >= after
    ensures Above(Newer(s, after), n) == Above(s, n)
  {
    NewerIs(s, after);
  }

  lemma {:induction false} PutAllOfBoth(s: seq<Event>, a: seq<Event>, b: seq<Event>)
    ensures PutAll(PutAll(s, a), b) == PutAll(s, a + b)
    decreases |b|
  {
    if b == [] {
      assert a + b == a;
    } else {
      assert (a + b)[..|a + b| - 1] == a + b[..|b| - 1];
      PutAllOfBoth(s, a, b[..|b| - 1]);
    }
  }

  /** The dictionary keeps, for each number, the entry put last. */
  lemma {:induction false} MergedIs(s: seq<Event>, e: Event)
    ensures Rising(PutAll([], s)) && (e in PutAll([], s) <==> Holder(s, e.sequence) == Some(e))
  {
    if s != [] {
      MergedIs(s[..|s| - 1], e);
      PutIs(PutAll([], s[..|s| - 1]), s[|s| - 1]);
    }
  }

  lemma AboveOfMerged(s: seq<Event>, n: int)
    ensures Above(PutAll([], s), n) == Above(s, n)
  {
    var m := PutAll([], s);
    forall x | x in Above(s, n) ensures x in Above(m, n) {
      var e :| e in s && e.sequence == x;
      MergedIs(s, Holder(s, x).value);
    }
    forall x | x in Above(m, n) ensures x in Above(s, n) {
      var e :| e in m && e.sequence == x;
      MergedIs(s, e);
    }
  }

  lemma AboveOfLast(s: seq<Event>, e: Event, n: int)
    ensures Above(s + [e], n) == if e.sequence > n then Above(s, n) + {e.sequence} else Above(s, n)
  {
  }

  lemma NewerOfLast(s: seq<Event>, e: Event, n: int)
    ensures Newer(s + [e], n) == if e.sequence > n then Newer(s, n) + [e] else Newer(s, n)
  {
    assert (s + [e])[..|s|] == s;
  }

  lemma OneMoreAbove(init: seq<Event>, last: Event, n: int)
    requires |Above(init, n)| == |Newer(init, n)| && forall e :: e in init ==> e.sequence < last.sequence
    ensures |Above(init + [last], n)| == |Newer(init + [last], n)|
  {
    AboveOfLast(init, last, n);
    NewerOfLast(init, last, n);
    assert last.sequence !in Above(init, n);
  }

  lemma {:induction false} RisingAbove(s: seq<Event>, n: int)
    requires Rising(s)
    ensures |Above(s, n)| == |Newer(s, n)|
  {
    if s != [] {
      RisingAbove(s[..|s| - 1], n);
      OneMoreAbove(s[..|s| - 1], s[|s| - 1], n);
      assert s == s[..|s| - 1] + [s[|s| - 1]];
    }
  }

  lemma {:induction false} NewerAt(s: seq<Event>, i: nat)
    requires Rising(s) && i < |s|
    ensures |Newer(s, s[i].sequence)| == |s| - 1 - i
  {
    if i == |s| - 1 {
      NoneNewer(s[..i], s[i].sequence);
    } else {
      NewerAt(s[..|s| - 1], i);
    }
  }

  /** The window of a rising list: what has fewer than k greater numbers. */
  lemma LastIs(s: seq<Event>, k: nat, e: Event)
    requires Rising(s)
    ensures e in Last(s, k) <==> e in s && |Above(s, e.sequence)| < k
  {
    if e in s {
      var i :| 0 <= i < |s| && s[i] == e;
      NewerAt(s, i);
      RisingAbove(s, e.sequence);
      if i >= |s| - k { assert Last(s, k)[if k < |s| then i - (|s| - k) else i] == e; }
    }
  }

  lemma {:induction false} NewerTwice(s: seq<Event>, after: int, n: int)
    requires n >= after
    ensures Newer(Newer(s, after), n) == Newer(s, n)
  {
    if s != [] {
      var init, last := s[..|s| - 1], s[|s| - 1];
      NewerTwice(init, after, n);
      if last.sequence > after {
        NewerOfLast(Newer(init, after), last, n);
      } else {
        assert Newer(s, after) == Newer(init, after);
      }
    }
  }

  /** Where the last 200 hold everything above n, they are as good as the whole list. */
  lemma WindowHolds(stored: seq<Event>, after: int, n: int)
    requires Rising(stored) && n > after && |Above(stored, n)| < WINDOW
    ensures var w := Last(Newer(stored, after), WINDOW);
      Holder(w, n) == Holder(stored, n) && Above(w, n) == Above(stored, n)
  {
    var newer := Newer(stored, after);
    var w := Last(newer, WINDOW);
    NewerIs(stored, after);
    AboveOfNewer(stored, after, n);
    HolderOfNewer(stored, after, n);
    forall e | e in newer && e.sequence >= n ensures e in w {
      assert Above(newer, e.sequence) <= Above(newer, n);
      Fewer(Above(newer, e.sequence), Above(newer, n));
      LastIs(newer, WINDOW, e);
    }
    assert forall e :: e in w ==> e in newer;
    SameHolder(w, newer, n);
  }

  lemma Fewer(a: set<int>, b: set<int>)
    requires a <= b
    ensures |a| <= |b|
  {
    assert b == a + (b - a);
  }

  lemma SameHolder(a: seq<Event>, b: seq<Event>, n: int)
    requires Rising(b) && (forall e :: e in a ==> e in b) && forall e :: e in b && e.sequence >= n ==> e in a
    ensures Holder(a, n) == Holder(b, n) && Above(a, n) == Above(b, n)
  {
    if Holder(a, n).Some? && Holder(b, n).Some? { OneOfANumber(b, Holder(a, n).value, Holder(b, n).value); }
  }

  lemma OneOfANumber(s: seq<Event>, x: Event, y: Event)
    requires Rising(s) && x in s && y in s && x.sequence == y.sequence
    ensures x == y
  {
  }

  lemma LastOfSuffix(s: seq<Event>, n: int, k: nat)
    requires Rising(s) && |Newer(s, n)| >= k
    ensures Last(s, k) == Last(Newer(s, n), k)
  {
    NewerIsSuffix(s, n);
  }

  /** Where they do not, they are 200 numbers above n themselves. */
  lemma WindowIsFull(stored: seq<Event>, after: int, n: int)
    requires Rising(stored) && n >= after && |Above(stored, n)| >= WINDOW
    ensures |Above(Last(Newer(stored, after), WINDOW), n)| == WINDOW
  {
    var newer := Newer(stored, after);
    var w := Last(newer, WINDOW);
    NewerIs(stored, after);
    NewerTwice(stored, after, n);
    RisingAbove(stored, n);
    LastOfSuffix(newer, n, WINDOW);
    NewerIs(newer, n);
    FullWindow(Newer(newer, n), n);
  }

  lemma FullWindow(s: seq<Event>, n: int)
    requires Rising(s) && |s| >= WINDOW && forall e :: e in s ==> e.sequence > n
    ensures |Above(Last(s, WINDOW), n)| == WINDOW
  {
    NewerIsAll(Last(s, WINDOW), n);
    RisingAbove(Last(s, WINDOW), n);
  }

  lemma {:induction false} NewerIsAll(s: seq<Event>, n: int)
    requires forall e :: e in s ==> e.sequence > n
    ensures Newer(s, n) == s
  {
    if s != [] {
      assert s == s[..|s| - 1] + [s[|s| - 1]];
      NewerIsAll(s[..|s| - 1], n);
    }
  }

  /** The event is the last entry with its number, the stored ones first and then those in memory, and
      fewer than 200 greater numbers are in use. */
  ghost predicate Visible(entries: seq<Event>, after: int, e: Event) {
    e.sequence > after && Holder(entries, e.sequence) == Some(e) && |Above(entries, e.sequence)| < 200
  }

  lemma MergedVisible(persisted: seq<Event>, memory: seq<Event>, after: int, e: Event)
    requires forall x :: x in persisted ==> x.sequence > after
    ensures e in Last(PutAll(PutAll([], persisted), Newer(memory, after)), WINDOW) <==> Visible(persisted + memory, after, e)
  {
    var s, n := persisted + Newer(memory, after), e.sequence;
    PutAllOfBoth([], persisted, Newer(memory, after));
    MergedIs(s, e);
    AboveOfMerged(s, n);
    LastIs(PutAll([], s), WINDOW, e);
    NewerIs(memory, after);
    if n > after {
      HolderOfBoth(persisted, Newer(memory, after), n);
      HolderOfBoth(persisted, memory, n);
      HolderOfNewer(memory, after, n);
      AboveOfBoth(persisted, Newer(memory, after), n);
      AboveOfBoth(persisted, memory, n);
      AboveOfNewer(memory, after, n);
    }
  }

  lemma VisibleThroughWindow(stored: seq<Event>, memory: seq<Event>, after: int, e: Event)
    requires Rising(stored)
    ensures Visible(Last(Newer(stored, after), WINDOW) + memory, after, e) <==> Visible(stored + memory, after, e)
  {
    var w, n := Last(Newer(stored, after), WINDOW), e.sequence;
    AboveOfBoth(w, memory, n);
    AboveOfBoth(stored, memory, n);
    if n > after {
      if |Above(stored, n)| < WINDOW {
        WindowHolds(stored, after, n);
        HolderOfBoth(w, memory, n);
        HolderOfBoth(stored, memory, n);
      } else {
        WindowIsFull(stored, after, n);
        Fewer(Above(w, n), Above(w + memory, n));
        Fewer(Above(stored, n), Above(stored + memory, n));
      }
    }
  }

  /** For any stored list and any memory whatever, what a reader sees. */
  lemma ViewIsExactly(stored: seq<Event>, memory: seq<Event>, after: int, e: Event)
    requires Rising(stored)
    ensures e in View(stored, memory, after, true) <==> Visible(stored + memory, after, e)
    ensures e in View(stored, memory, after, false) <==> Visible(memory, after, e)
  {
    NewerIs(stored, after);
    MergedVisible(Last(Newer(stored, after), WINDOW), memory, after, e);
    VisibleThroughWindow(stored, memory, after, e);
    MergedVisible([], memory, after, e);
    assert [] + memory == memory;
  }

  lemma LastRises(s: seq<Event>, k: nat)
    requires Rising(s)
    ensures Rising(Last(s, k)) && |Last(s, k)| <= k
  {
  }

  /** What a reader gets is in order, free of repeats, bounded, newer than what it has seen, and made of
      stored or remembered events only. */
  lemma ViewIsOrdered(stored: seq<Event>, memory: seq<Event>, after: int, readable: bool)
    requires Rising(stored)
    ensures var v := View(stored, memory, after, readable);
      Rising(v) && |v| <= 200 && forall e :: e in v ==> e.sequence > after && (e in stored || e in memory)
  {
    var persisted := if readable then Last(Newer(stored, after), WINDOW) else [];
    PutAllOfBoth([], persisted, Newer(memory, after));
    MergedIs(persisted + Newer(memory, after), Event(0, "", 0));
    LastRises(PutAll([], persisted + Newer(memory, after)), WINDOW);
    forall e | e in View(stored, memory, after, readable) ensures e.sequence > after && (e in stored || e in memory) {
      ViewIsExactly(stored, memory, after, e);
    }
  }

  /** Nothing a reader could still be shown is kept from it if and only if no two different events in
      its window carry one number. */
  lemma NothingHiddenIff(stored: seq<Event>, memory: seq<Event>, after: int)
    requires Rising(stored)
    ensures var entries := stored + memory;
      (forall e :: e in entries && e.sequence > after && |Above(entries, e.sequence)| < 200 ==> e in View(stored, memory, after, true)) <==>
      (forall x, y :: x in entries && y in entries && x.sequence == y.sequence > after && |Above(entries, x.sequence)| < 200 ==> x == y)
  {
    var entries := stored + memory;
    forall e | e in entries && e.sequence > after && |Above(entries, e.sequence)| < WINDOW
      ensures e in View(stored, memory, after, true) <==> Holder(entries, e.sequence) == Some(e)
    {
      ViewIsExactly(stored, memory, after, e);
    }
  }

  // ---------------------------------------------------------------- emitting

  function NextStored(stored: seq<Event>): int { if stored == [] then 1 else stored[|stored| - 1].sequence + 1 }

  /** What is stored, what this process remembers, and how many events were emitted. */
  datatype Log = Log(stored: seq<Event>, memory: seq<Event>, emitted: nat)

  datatype Step = Emit(kind: string, appended: bool) | Restart

  const Empty := Log([], [], 0)

  /** The number is the database's next one, or follows the last one remembered. */
  function Emitted(log: Log, kind: string, appended: bool): Event {
    Event(NextStored(if appended then log.stored else log.memory), kind, log.emitted)
  }

  function Next(log: Log, step: Step): Log {
    match step
    case Emit(kind, appended) =>
      var event := Emitted(log, kind, appended);
      Log(if appended then log.stored + [event] else log.stored, Last(log.memory + [event], WINDOW), log.emitted + 1)
    case Restart => log.(memory := [])
  }

  function Run(log: Log, steps: seq<Step>): Log {
    if steps == [] then log else Next(Run(log, steps[..|steps| - 1]), steps[|steps| - 1])
  }

  /** One emission: a stored event takes the number after the last one stored, one that could not be
      stored the number after the last one remembered, the first one 1; either is remembered, with at
      most 199 before it. */
  lemma EmitsAs(log: Log, kind: string, appended: bool)
    ensures var (t, known) := (Next(log, Emit(kind, appended)), if appended then log.stored else log.memory);
      && t.memory != [] && t.emitted == log.emitted + 1
      && var e := t.memory[|t.memory| - 1];
         && e.kind == kind && e.stamp == log.emitted
         && e.sequence == (if known == [] then 1 else known[|known| - 1].sequence + 1)
         && t.stored == (if appended then log.stored + [e] else log.stored)
         && |t.memory| == (if |log.memory| < 200 then |log.memory| + 1 else 200)
         && t.memory == log.memory[|log.memory| + 1 - |t.memory|..] + [e]
  {
    TrimmedIs(log.memory, Emitted(log, kind, appended));
  }

  /** The kinds of the events that could be stored. */
  function Stored(steps: seq<Step>): seq<string> {
    if steps == [] then []
    else
      var last := steps[|steps| - 1];
      Stored(steps[..|steps| - 1]) + if last.Emit? && last.appended then [last.kind] else []
  }

  /** Through failed appends and restarts, the stored events are those that could be stored, in order,
      and their numbers are 1, 2, 3 and so on. */
  lemma {:induction false} StoredAreNumbered(steps: seq<Step>)
    ensures var stored := Run(Empty, steps).stored;
      |stored| == |Stored(steps)| && forall i :: 0 <= i < |stored| ==> stored[i].kind == Stored(steps)[i] && stored[i].sequence == i + 1
  {
    if steps != [] { StoredAreNumbered(steps[..|steps| - 1]); }
  }

  /** The events there are were emitted before. */
  ghost predicate Stamped(log: Log) {
    forall e :: e in log.stored + log.memory ==> e.stamp < log.emitted
  }

  lemma StampedStep(log: Log, step: Step)
    requires Stamped(log)
    ensures Stamped(Next(log, step))
  {
    if step.Emit? { TrimmedIs(log.memory, Emitted(log, step.kind, step.appended)); }
  }

  lemma {:induction false} StampedStays(log: Log, steps: seq<Step>)
    requires Stamped(log)
    ensures Stamped(Run(log, steps))
  {
    if steps != [] {
      StampedStays(log, steps[..|steps| - 1]);
      StampedStep(Run(log, steps[..|steps| - 1]), steps[|steps| - 1]);
    }
  }

  lemma {:induction false} StoredRises(log: Log, steps: seq<Step>)
    requires Rising(log.stored)
    ensures Rising(Run(log, steps).stored)
  {
    if steps != [] { StoredRises(log, steps[..|steps| - 1]); }
  }

  /** Every number belongs to one event. */
  ghost predicate Clean(log: Log) {
    forall x, y :: x in log.stored + log.memory && y in log.stored + log.memory && x.sequence == y.sequence ==> x == y
  }

  /** The number about to be given is not in use, in the database or among the last 199 remembered. */
  ghost predicate Free(log: Log, step: Step) {
    step.Emit? ==>
      forall x :: x in log.stored + Last(log.memory, WINDOW - 1) ==> x.sequence != Emitted(log, step.kind, step.appended).sequence
  }

  lemma TrimmedIs(memory: seq<Event>, e: Event)
    ensures Last(memory + [e], WINDOW) == Last(memory, WINDOW - 1) + [e]
  {
  }

  /** One step keeps numbers unambiguous if and only if the one it gives is free. */
  lemma StepIsCleanIff(log: Log, step: Step)
    requires Clean(log) && Stamped(log)
    ensures Clean(Next(log, step)) <==> Free(log, step)
  {
    if step.Emit? {
      var e, kept, after := Emitted(log, step.kind, step.appended), Last(log.memory, WINDOW - 1), Next(log, step);
      TrimmedIs(log.memory, e);
      assert forall x :: x in after.stored + after.memory <==> x in log.stored + kept || x == e;
      assert forall x :: x in log.stored + kept ==> x in log.stored + log.memory;
      assert e in after.stored + after.memory;
    }
  }

  ghost predicate AlwaysClean(log: Log, steps: seq<Step>) {
    forall i :: 0 <= i <= |steps| ==> Clean(Run(log, steps[..i]))
  }

  ghost predicate AlwaysFree(log: Log, steps: seq<Step>) {
    forall i :: 0 <= i < |steps| ==> Free(Run(log, steps[..i]), steps[i])
  }

  lemma RunStep(log: Log, steps: seq<Step>, i: nat)
    requires i < |steps|
    ensures Run(log, steps[..i + 1]) == Next(Run(log, steps[..i]), steps[i])
  {
    assert steps[..i + 1][..i] == steps[..i];
  }

  /** Over any sequence of emissions, failed appends and restarts: numbers stay unambiguous throughout
      if and only if each one given was free. */
  lemma RunIsCleanIff(log: Log, steps: seq<Step>)
    requires Clean(log) && Stamped(log)
    ensures AlwaysClean(log, steps) <==> AlwaysFree(log, steps)
  {
    if AlwaysClean(log, steps) {
      forall i | 0 <= i < |steps| ensures Free(Run(log, steps[..i]), steps[i]) {
        RunStep(log, steps, i);
        assert Clean(Run(log, steps[..i])) && Clean(Run(log, steps[..i + 1]));
        StampedStays(log, steps[..i]);
        StepIsCleanIff(Run(log, steps[..i]), steps[i]);
      }
    } else if AlwaysFree(log, steps) {
      forall i | 0 <= i <= |steps| ensures Clean(Run(log, steps[..i])) { CleanUpTo(log, steps, i); }
    }
  }

  lemma {:induction false} CleanUpTo(log: Log, steps: seq<Step>, i: nat)
    requires Clean(log) && Stamped(log) && AlwaysFree(log, steps) && i <= |steps|
    ensures Clean(Run(log, steps[..i]))
  {
    if i > 0 {
      CleanUpTo(log, steps, i - 1);
      RunStep(log, steps, i - 1);
      assert Free(Run(log, steps[..i - 1]), steps[i - 1]);
      StampedStays(log, steps[..i - 1]);
      StepIsCleanIff(Run(log, steps[..i - 1]), steps[i - 1]);
    }
  }

  /** While numbers are unambiguous a reader misses nothing of its window. */
  lemma CleanHidesNothing(log: Log, after: int, e: Event)
    requires Rising(log.stored) && Clean(log) && e in log.stored + log.memory
    ensures e in View(log.stored, log.memory, after, true) <==>
              e.sequence > after && |Above(log.stored + log.memory, e.sequence)| < 200
  {
    ViewIsExactly(log.stored, log.memory, after, e);
  }

  /** So it is after every run that gives free numbers only. */
  lemma FreeRunHidesNothing(log: Log, steps: seq<Step>, after: int, e: Event)
    requires Rising(log.stored) && Clean(log) && Stamped(log) && AlwaysFree(log, steps)
    requires e in Run(log, steps).stored + Run(log, steps).memory
    ensures var run := Run(log, steps);
      e in View(run.stored, run.memory, after, true) <==>
        e.sequence > after && |Above(run.stored + run.memory, e.sequence)| < 200
  {
    RunIsCleanIff(log, steps);
    StoredRises(log, steps);
    assert steps[..|steps|] == steps;
    CleanHidesNothing(Run(log, steps), after, e);
  }

  // ---------------------------------------------------------------- where it fails

  lemma RunTwo(log: Log, a: Step, b: Step)
    ensures Run(log, [a, b]) == Next(Next(log, a), b)
  {
    assert [a, b][..1] == [a] && [a][..0] == [];
    assert Run(log, [a]) == Next(Run(log, []), a);
  }

  lemma LastHolds(entries: seq<Event>, e: Event)
    requires entries != [] && entries[|entries| - 1] == e
    ensures Holder(entries, e.sequence) == Some(e)
  {
  }

  /** The number a failed append gave away is given again by the next one that succeeds, and the failed
      event is then hidden from every reader. */
  lemma FailureThenSuccess(log: Log, first: string, second: string, after: int)
    requires Rising(log.stored) && NextStored(log.stored) == NextStored(log.memory)
    ensures var failed := Emitted(log, first, false);
      var later := Run(log, [Emit(first, false), Emit(second, true)]);
      Rising(later.stored) && failed in later.memory && failed !in View(later.stored, later.memory, after, true)
  {
    var failed, middle := Emitted(log, first, false), Next(log, Emit(first, false));
    var stored := Emitted(middle, second, true);
    var later := Next(middle, Emit(second, true));
    RunTwo(log, Emit(first, false), Emit(second, true));
    TrimmedIs(log.memory, failed);
    TrimmedIs(middle.memory, stored);
    assert later.memory[|later.memory| - 2] == failed;
    LastHolds(later.stored + later.memory, stored);
    ViewIsExactly(later.stored, later.memory, after, failed);
  }

  /** After a restart a failed append is numbered 1: it takes the place of the first stored event, and
      a reader that has seen any event never sees it. */
  lemma FailureAfterRestart(log: Log, kind: string, after: int)
    requires Rising(log.stored) && Stamped(log) && log.stored != [] && log.stored[0].sequence == 1
    ensures var later, failed := Run(log, [Restart, Emit(kind, false)]), Event(1, kind, log.emitted);
      && later == Log(log.stored, [failed], log.emitted + 1)
      && log.stored[0] !in View(later.stored, later.memory, after, true)
      && (after >= 1 ==> failed !in View(later.stored, later.memory, after, true))
  {
    var failed := Event(1, kind, log.emitted);
    var later := Log(log.stored, [failed], log.emitted + 1);
    RunTwo(log, Restart, Emit(kind, false));
    LastHolds(later.stored + later.memory, failed);
    assert log.stored[0] in log.stored + log.memory;
    ViewIsExactly(later.stored, later.memory, after, log.stored[0]);
    ViewIsExactly(later.stored, later.memory, after, failed);
  }

  lemma OneStored(kind: string)
    ensures Run(Empty, [Emit(kind, true)]) == Log([Event(1, kind, 0)], [Event(1, kind, 0)], 1)
  {
    assert [Emit(kind, true)][..0] == [];
    assert Run(Empty, [Emit(kind, true)]) == Next(Empty, Emit(kind, true));
    assert [] + [Event(1, kind, 0)] == [Event(1, kind, 0)];
  }

  /** Both from an empty log, with events of one kind: a failure and a success, */
  lemma FailedAppendHidesAnEvent(kind: string, after: int)
    ensures var run, failed := Run(Empty, [Emit(kind, false), Emit(kind, true)]), Event(1, kind, 0);
      failed in run.memory && failed !in View(run.stored, run.memory, after, true)
  {
    FailureThenSuccess(Empty, kind, kind, after);
  }

  /** and a success, a restart and a failure. */
  lemma FailedAppendReplacesAnEvent(kind: string, after: int)
    ensures var run := Run(Run(Empty, [Emit(kind, true)]), [Restart, Emit(kind, false)]);
      && run == Log([Event(1, kind, 0)], [Event(1, kind, 1)], 2)
      && Event(1, kind, 0) !in View(run.stored, run.memory, after, true)
      && (after >= 1 ==> Event(1, kind, 1) !in View(run.stored, run.memory, after, true))
  {
    OneStored(kind);
    FailureAfterRestart(Log([Event(1, kind, 0)], [Event(1, kind, 0)], 1), kind, after);
  }

  // ---------------------------------------------------------------- the object

  class RunEvents {
    var stored: seq<Event>
    var memory: seq<Event>
    var emitted: nat

    /** A new process remembers nothing of what an earlier one stored. */
    constructor (stored: seq<Event>, emitted: nat)
      requires Rising(stored)
      ensures this.stored == stored && memory == [] && this.emitted == emitted && Mirrors(this.stored, memory)
    {
      this.stored, memory, this.emitted := stored, [], emitted;
    }

    /** `_emit`; the append may fail, and the event is then numbered after the last one remembered. */
    method Emit(kind: string) returns (appended: bool)
      requires Rising(stored)
      modifies this
      ensures Rising(stored) && |memory| <= WINDOW
      ensures Log(stored, memory, emitted) == Next(Log(old(stored), old(memory), old(emitted)), Step.Emit(kind, appended))
      ensures appended && Mirrors(old(stored), old(memory)) ==> Mirrors(stored, memory)
    {
      appended := *;
      var event;
      if appended {
        event := Event(NextStored(stored), kind, emitted);
        stored := stored + [event];
      } else {
        event := Event(NextStored(memory), kind, emitted);
      }
      memory, emitted := memory + [event], emitted + 1;
      if |memory| > WINDOW { memory := memory[|memory| - WINDOW..]; }
    }

    method Events(after: int, readable: bool) returns (v: seq<Event>)
      requires Rising(stored)
      ensures v == View(stored, memory, after, readable)
      ensures Rising(v) && |v| <= 200
      ensures readable && Mirrors(stored, memory) ==> v == Last(Newer(stored, after), 200)
      ensures forall e :: e in v <==> Visible(if readable then stored + memory else memory, after, e)
    {
      var persisted := if readable then Last(Newer(stored, after), WINDOW) else [];
      v := Last(PutAll(PutAll([], persisted), Newer(memory, after)), WINDOW);
      ViewIsOrdered(stored, memory, after, readable);
      if readable && Mirrors(stored, memory) { ViewIsLastWindow(stored, memory, after); }
      forall e ensures e in v <==> Visible(if readable then stored + memory else memory, after, e) {
        ViewIsExactly(stored, memory, after, e);
      }
    }
  }
}
