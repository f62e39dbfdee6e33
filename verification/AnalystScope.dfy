/**
 The evidence scope of an analyst run (core/ai/contracts.py, core/operations/scope.py): read from a
 dictionary, stored as one, and read again each time a run is resumed.
 */
module AnalystScope {
  import opened Wrappers

  datatype Scope = Scope(source: Option<string>, interface: Option<string>, session: Option<string>, node: Option<string>,
                         start: Option<real>, end: Option<real>, caseId: Option<string>,
                         targets: seq<string>, maxRecords: int)

  datatype Time = Finite(t: real) | NonFinite

  /** The members `from_dict` looks at; a member that is absent or null is None. */
  datatype RawScope = RawScope(source: Option<string>, interface: Option<string>,
                               sessionId: Option<string>, sessionAlias: Option<string>,
                               nodeId: Option<string>, sensorNodeId: Option<string>,
                               timeStart: Option<Time>, timeEnd: Option<Time>, caseId: Option<string>,
                               targets: seq<string>, maxRecords: int)

  datatype ScopeError = TimeNotFinite | TimesReversed | BadAddress

  predicate HasText(v: Option<string>) { v.Some? && v.value != "" }

  /** `str(value or "") or None`. */
  function TextOrNone(v: Option<string>): Option<string> { if HasText(v) then v else None }

  function FirstText(a: Option<string>, b: Option<string>): Option<string> { if HasText(a) then a else TextOrNone(b) }

  function ReadTime(v: Option<Time>): Result<Option<real>, ScopeError> {
    match v
    case None => Ok(None)
    case Some(NonFinite) => Err(TimeNotFinite)
    case Some(Finite(t)) => Ok(Some(t))
  }

  /** Each address in its normal form, repeats dropped. */
  function ReadTargets(targets: seq<string>, seen: seq<string>, canon: string -> Option<string>): Result<seq<string>, ScopeError>
    decreases |targets|
  {
    if targets == [] then Ok(seen)
    else match canon(targets[0])
      case None => Err(BadAddress)
      case Some(form) => ReadTargets(targets[1..], if form in seen then seen else seen + [form], canon)
  }

  function Clamp(n: int): int { if n < 1 then 1 else if n > 500 then 500 else n }

  function FromDict(v: RawScope, canon: string -> Option<string>): Result<Scope, ScopeError> {
    var start, end, targets := ReadTime(v.timeStart), ReadTime(v.timeEnd), ReadTargets(v.targets, [], canon);
    if start.Err? then Err(start.error)
    else if end.Err? then Err(end.error)
    else if start.value.Some? && end.value.Some? && start.value.value > end.value.value then Err(TimesReversed)
    else if targets.Err? then Err(targets.error)
    else Ok(Scope(TextOrNone(v.source), TextOrNone(v.interface), FirstText(v.sessionId, v.sessionAlias),
                  FirstText(v.nodeId, v.sensorNodeId), start.value, end.value, v.caseId, targets.value, Clamp(v.maxRecords)))
  }

  function TimeOf(t: Option<real>): Option<Time> { if t.Some? then Some(Finite(t.value)) else None }

  function ToDict(s: Scope): RawScope {
    RawScope(s.source, s.interface, s.session, None, s.node, None, TimeOf(s.start), TimeOf(s.end), s.caseId, s.targets, s.maxRecords)
  }

  predicate HasScope(s: Scope) {
    || HasText(s.source) || HasText(s.interface) || HasText(s.session) || HasText(s.node) || HasText(s.caseId)
    || s.targets != [] || s.start.Some? || s.end.Some?
  }

  /** Storing the scope and reading it back gives the same scope. */
  predicate Stable(s: Scope, canon: string -> Option<string>) {
    FromDict(ToDict(s), canon) == Ok(s)
  }

  ghost predicate Idempotent(canon: string -> Option<string>) {
    forall x :: canon(x).Some? ==> canon(canon(x).value) == canon(x)
  }

  ghost predicate Normal(targets: seq<string>, canon: string -> Option<string>) {
    && (forall i :: 0 <= i < |targets| ==> canon(targets[i]) == Some(targets[i]))
    && (forall i, j :: 0 <= i < j < |targets| ==> targets[i] != targets[j])
  }

  lemma {:induction false} ReadTargetsNormalizes(targets: seq<string>, seen: seq<string>, canon: string -> Option<string>)
    requires Idempotent(canon) && Normal(seen, canon)
    ensures ReadTargets(targets, seen, canon).Ok? ==> Normal(ReadTargets(targets, seen, canon).value, canon)
    decreases |targets|
  {
    if targets != [] && canon(targets[0]).Some? {
      var form := canon(targets[0]).value;
      ReadTargetsNormalizes(targets[1..], if form in seen then seen else seen + [form], canon);
    }
  }

  lemma {:induction false} NormalTargetsAreKept(targets: seq<string>, seen: seq<string>, canon: string -> Option<string>)
    requires Normal(seen + targets, canon)
    ensures ReadTargets(targets, seen, canon) == Ok(seen + targets)
    decreases |targets|
  {
    if targets == [] {
      assert seen + targets == seen;
    } else {
      var whole := seen + targets;
      assert whole[|seen|] == targets[0] && forall i :: 0 <= i < |seen| ==> whole[i] == seen[i];
      assert seen + [targets[0]] + targets[1..] == whole;
      NormalTargetsAreKept(targets[1..], seen + [targets[0]], canon);
    }
  }

  /** Every scope read from a dictionary survives being stored and read again, so the scope an
      approval is resumed with is the scope it was requested for. */
  lemma ReadScopesAreStable(v: RawScope, canon: string -> Option<string>)
    requires Idempotent(canon) && FromDict(v, canon).Ok?
    ensures Stable(FromDict(v, canon).value, canon)
  {
    var s := FromDict(v, canon).value;
    ReadTargetsNormalizes(v.targets, [], canon);
    assert [] + s.targets == s.targets;
    NormalTargetsAreKept(s.targets, [], canon);
  }

  /** A scope names nothing exactly when each of its texts is absent or empty, and it has neither
      addresses nor times. */
  lemma HasScopeIff(s: Scope)
    ensures !HasScope(s) <==>
      && (forall text :: text in [s.source, s.interface, s.session, s.node, s.caseId] ==> text == None || text == Some(""))
      && s.targets == [] && s.start == None && s.end == None
  {
    var texts := [s.source, s.interface, s.session, s.node, s.caseId];
    assert texts[0] in texts && texts[1] in texts && texts[2] in texts && texts[3] in texts && texts[4] in texts;
  }

  /** Reading fails exactly on a time that is not finite, on times the wrong way round and on an
      address that is none; otherwise the addresses are the normal forms of the given ones, once each,
      and the record limit is the nearest number from 1 to 500. */
  lemma ReadsIff(v: RawScope, canon: string -> Option<string>)
    ensures var r := FromDict(v, canon);
      && (r.Ok? <==>
            && v.timeStart != Some(NonFinite) && v.timeEnd != Some(NonFinite)
            && (v.timeStart.Some? && v.timeEnd.Some? ==> v.timeStart.value.t <= v.timeEnd.value.t)
            && forall x :: x in v.targets ==> canon(x).Some?)
      && (r.Ok? ==>
            && (forall form :: form in r.value.targets <==> exists x :: x in v.targets && canon(x) == Some(form))
            && (forall i, j :: 0 <= i < j < |r.value.targets| ==> r.value.targets[i] != r.value.targets[j])
            && r.value.session == (if v.sessionId != None && v.sessionId != Some("") then v.sessionId
                                   else if v.sessionAlias == Some("") then None else v.sessionAlias)
            && 1 <= r.value.maxRecords <= 500
            && (1 <= v.maxRecords <= 500 ==> r.value.maxRecords == v.maxRecords)
            && (v.timeStart.Some? <==> r.value.start.Some?) && (v.timeStart.Some? ==> r.value.start.value == v.timeStart.value.t)
            && (v.timeEnd.Some? <==> r.value.end.Some?) && (v.timeEnd.Some? ==> r.value.end.value == v.timeEnd.value.t))
  {
    ReadTargetsIff(v.targets, [], canon);
  }

  lemma {:induction false} ReadTargetsIff(targets: seq<string>, seen: seq<string>, canon: string -> Option<string>)
    requires forall i, j :: 0 <= i < j < |seen| ==> seen[i] != seen[j]
    ensures var r := ReadTargets(targets, seen, canon);
      && (r.Ok? <==> forall x :: x in targets ==> canon(x).Some?)
      && (r.Ok? ==>
            && (forall form :: form in r.value <==> form in seen || exists x :: x in targets && canon(x) == Some(form))
            && (forall i, j :: 0 <= i < j < |r.value| ==> r.value[i] != r.value[j]))
    decreases |targets|
  {
    if targets != [] && canon(targets[0]).Some? {
      var form := canon(targets[0]).value;
      ReadTargetsIff(targets[1..], if form in seen then seen else seen + [form], canon);
      assert forall x :: x in targets <==> x == targets[0] || x in targets[1..];
    } else if targets != [] {
      assert targets[0] in targets;
    }
  }

  // ---------------------------------------------------------------- the capture a scope names

  /** What is stored of a capture session. */
  datatype Capture = Capture(source: Option<string>, interface: Option<string>)

  /** `_normalize_scope`: the stored source of the session wins; its interface fills a gap. */
  function NormalForm(captures: map<string, Capture>, s: Scope): Scope {
    if !HasText(s.session) || s.session.value !in captures then s
    else
      var c := captures[s.session.value];
      s.(source := if HasText(c.source) then c.source else s.source,
         interface := if HasText(c.interface) && !HasText(s.interface) then c.interface else s.interface)
  }

  /** The scope says nothing about its capture session that the session does not say itself. */
  predicate MatchesCapture(captures: map<string, Capture>, s: Scope) {
    HasText(s.session) && s.session.value in captures ==>
      var c := captures[s.session.value];
      (HasText(c.source) ==> c.source == s.source) && (HasText(c.interface) ==> HasText(s.interface))
  }

  lemma NormalFormIsStable(captures: map<string, Capture>, s: Scope, canon: string -> Option<string>)
    requires Stable(s, canon)
    ensures Stable(NormalForm(captures, s), canon)
  {
  }

  /** Normalising is a closure: it gives a scope that matches its capture, changes no more than source
      and interface of it, and leaves alone exactly the scopes that match. */
  lemma NormalFormMatches(captures: map<string, Capture>, s: Scope)
    ensures MatchesCapture(captures, NormalForm(captures, s))
    ensures NormalForm(captures, s) == s <==> MatchesCapture(captures, s)
    ensures NormalForm(captures, s).(source := s.source, interface := s.interface) == s
    ensures HasText(s.interface) ==> NormalForm(captures, s).interface == s.interface
    ensures HasScope(NormalForm(captures, s)) <==> HasScope(s)
    ensures !HasScope(s) ==> NormalForm(captures, s) == s
  {
  }
}
