/**
 The guard every analyst tool call passes (core/ai/policy.py): input contract, scope, identifiers,
 run policy, confirmation.  Address, UUID and sensitivity tests are parameters.
 */
module ToolPolicy {
  import opened Wrappers

  datatype Json =
    | Null
    | Bool(b: bool)
    | Int(i: int)
    | Real(r: real)
    | Str(s: string)
    | Arr(items: seq<Json>)
    | Obj(fields: map<string, Json>)

  datatype Kind = ObjectKind | ArrayKind | StringKind | IntegerKind | BooleanKind | AnyKind

  datatype Property = Property(name: string, schema: Schema)

  /** The bounded JSON-Schema subset; absent members are None or empty. */
  datatype Schema = Schema(
    anyOf: seq<Schema>, kind: Kind,
    properties: seq<Property>, required: seq<string>, open_: bool,
    minItems: Option<int>, maxItems: Option<int>, items: Option<Schema>,
    choices: Option<seq<Json>>, minimum: Option<int>, maximum: Option<int>)

  const AnySchema := Schema([], AnyKind, [], [], false, None, None, None, None, None, None)

  /** `Breaks` is a TypeError, which is no policy error: comparing a string with a bound, say. */
  datatype Outcome = Fits | Violates | Breaks

  predicate Declares(properties: seq<Property>, name: string) {
    exists i :: 0 <= i < |properties| && properties[i].name == name
  }

  // ---------------------------------------------------------------- the validator

  function Validate(schema: Schema, v: Json): Outcome
    decreases schema, 2, 0
  {
    if |schema.anyOf| > 0 then AnyFits(schema.anyOf, v)
    else match schema.kind
      case ObjectKind =>
        if !v.Obj? then Violates
        else if exists i :: 0 <= i < |schema.required| && schema.required[i] !in v.fields then Violates
        else if !schema.open_ && exists name :: name in v.fields && !Declares(schema.properties, name) then Violates
        else AllProperties(schema, 0, v.fields)
      case ArrayKind =>
        if !v.Arr? then Violates
        else if schema.minItems.Some? && |v.items| < schema.minItems.value then Violates
        else if schema.maxItems.Some? && |v.items| > schema.maxItems.value then Violates
        else if schema.items.None? then Fits
        else AllItems(schema, v.items)
      case _ => ValidateScalar(schema, v)
  }

  /** The first alternative that does not raise a policy error decides. */
  function AnyFits(alternatives: seq<Schema>, v: Json): Outcome
    decreases alternatives, 0, |alternatives|
  {
    if alternatives == [] then Violates
    else
      var first := Validate(alternatives[0], v);
      if first.Violates? then AnyFits(alternatives[1..], v) else first
  }

  function AllProperties(schema: Schema, k: nat, fields: map<string, Json>): Outcome
    requires k <= |schema.properties|
    decreases schema, 1, |schema.properties| - k
  {
    if k == |schema.properties| then Fits
    else
      var p := schema.properties[k];
      var first := if p.name in fields then Validate(p.schema, fields[p.name]) else Fits;
      if first.Fits? then AllProperties(schema, k + 1, fields) else first
  }

  function AllItems(schema: Schema, items: seq<Json>): Outcome
    requires schema.items.Some?
    decreases schema, 1, |items|
  {
    if items == [] then Fits
    else
      var first := Validate(schema.items.value, items[0]);
      if first.Fits? then AllItems(schema, items[1..]) else first
  }

  function ValidateScalar(schema: Schema, v: Json): Outcome {
    if schema.kind.StringKind? && !v.Str? then Violates
    else if schema.kind.IntegerKind? && !v.Int? then Violates
    else if schema.kind.BooleanKind? && !v.Bool? then Violates
    else if schema.choices.Some? && !Among(v, schema.choices.value) then Violates
    else if schema.minimum.Some? && !Numeric(v) then Breaks
    else if schema.minimum.Some? && Number(v) < schema.minimum.value as real then Violates
    else if schema.maximum.Some? && !Numeric(v) then Breaks
    else if schema.maximum.Some? && Number(v) > schema.maximum.value as real then Violates
    else Fits
  }

  predicate Numeric(v: Json) { v.Bool? || v.Int? || v.Real? }

  function Number(v: Json): real
    requires Numeric(v)
  {
    match v
    case Bool(b) => if b then 1.0 else 0.0
    case Int(i) => i as real
    case Real(r) => r
  }

  /** Python's `in`: numbers and booleans compare by value. */
  predicate Same(a: Json, b: Json) {
    a == b || (Numeric(a) && Numeric(b) && Number(a) == Number(b))
  }

  predicate Among(v: Json, choices: seq<Json>) {
    exists i :: 0 <= i < |choices| && Same(v, choices[i])
  }

  // ---------------------------------------------------------------- what it decides

  /** `v` is the number x; a boolean is 0 or 1. */
  ghost predicate Measures(v: Json, x: real) {
    v == Real(x) || (v.Int? && x == v.i as real) || (v == Bool(false) && x == 0.0) || (v == Bool(true) && x == 1.0)
  }

  ghost predicate ScalarConforms(schema: Schema, v: Json) {
    && (schema.kind.StringKind? ==> v.Str?)
    && (schema.kind.IntegerKind? ==> v.Int?)
    && (schema.kind.BooleanKind? ==> v.Bool?)
    && (schema.choices.Some? ==> v in schema.choices.value || exists c, x :: c in schema.choices.value && Measures(v, x) && Measures(c, x))
    && (schema.minimum.Some? ==> exists x :: Measures(v, x) && schema.minimum.value as real <= x)
    && (schema.maximum.Some? ==> exists x :: Measures(v, x) && x <= schema.maximum.value as real)
  }

  /** The values a schema describes. */
  ghost predicate Conforms(schema: Schema, v: Json)
    decreases schema
  {
    if |schema.anyOf| > 0 then exists k :: 0 <= k < |schema.anyOf| && Conforms(schema.anyOf[k], v)
    else match schema.kind
      case ObjectKind =>
        && v.Obj?
        && (forall name :: name in schema.required ==> name in v.fields)
        && (!schema.open_ ==> forall name :: name in v.fields ==> exists p :: p in schema.properties && p.name == name)
        && (forall k :: 0 <= k < |schema.properties| && schema.properties[k].name in v.fields ==>
              Conforms(schema.properties[k].schema, v.fields[schema.properties[k].name]))
      case ArrayKind =>
        && v.Arr?
        && (schema.minItems.Some? ==> schema.minItems.value <= |v.items|)
        && (schema.maxItems.Some? ==> |v.items| <= schema.maxItems.value)
        && (schema.items.Some? ==> forall k :: 0 <= k < |v.items| ==> Conforms(schema.items.value, v.items[k]))
      case _ => ScalarConforms(schema, v)
  }

  /** Bounds stand beside `"type": "integer"` only, as in every manifest. */
  ghost predicate BoundsAreTyped(schema: Schema)
    decreases schema
  {
    && (schema.minimum.Some? || schema.maximum.Some? ==> schema.kind.IntegerKind?)
    && (forall k :: 0 <= k < |schema.anyOf| ==> BoundsAreTyped(schema.anyOf[k]))
    && (forall k :: 0 <= k < |schema.properties| ==> BoundsAreTyped(schema.properties[k].schema))
    && (schema.items.Some? ==> BoundsAreTyped(schema.items.value))
  }

  /** What the validator lets through conforms; for a schema whose bounds are typed the converse holds
      and it never breaks. */
  lemma {:induction false} ValidateDecides(schema: Schema, v: Json)
    ensures Validate(schema, v).Fits? ==> Conforms(schema, v)
    ensures BoundsAreTyped(schema) ==> !Validate(schema, v).Breaks? && (Validate(schema, v).Fits? <==> Conforms(schema, v))
    decreases schema, 2, 0
  {
    if |schema.anyOf| > 0 {
      AnyFitsDecides(schema, 0, v);
      assert schema.anyOf[0..] == schema.anyOf;
    } else if schema.kind.ObjectKind? && v.Obj? {
      PropertiesDecide(schema, 0, v.fields);
    } else if schema.kind.ArrayKind? && v.Arr? && schema.items.Some? {
      ItemsDecide(schema, v.items);
    } else if !schema.kind.ObjectKind? && !schema.kind.ArrayKind? {
      ScalarDecides(schema, v);
    }
  }

  lemma NumberMeasures(v: Json, x: real)
    ensures Measures(v, x) <==> Numeric(v) && Number(v) == x
  {
  }

  lemma AmongIff(v: Json, choices: seq<Json>)
    ensures Among(v, choices) <==> v in choices || exists c, x :: c in choices && Measures(v, x) && Measures(c, x)
  {
    forall c, x ensures (Measures(v, x) <==> Numeric(v) && Number(v) == x) && (Measures(c, x) <==> Numeric(c) && Number(c) == x) {
      NumberMeasures(v, x);
      NumberMeasures(c, x);
    }
    if Among(v, choices) && v !in choices {
      var i :| 0 <= i < |choices| && Same(v, choices[i]);
      assert choices[i] in choices && Measures(v, Number(v)) && Measures(choices[i], Number(v));
    }
  }

  lemma ScalarDecides(schema: Schema, v: Json)
    ensures ValidateScalar(schema, v).Fits? <==> ScalarConforms(schema, v)
    ensures (schema.minimum.Some? || schema.maximum.Some? ==> schema.kind.IntegerKind?) ==> !ValidateScalar(schema, v).Breaks?
  {
    if schema.choices.Some? { AmongIff(v, schema.choices.value); }
    forall x ensures Measures(v, x) <==> Numeric(v) && Number(v) == x { NumberMeasures(v, x); }
    if Numeric(v) { assert Measures(v, Number(v)); }
  }

  lemma {:induction false} AnyFitsDecides(schema: Schema, k: nat, v: Json)
    requires k <= |schema.anyOf|
    ensures var r := AnyFits(schema.anyOf[k..], v);
      && (r.Fits? ==> exists i :: k <= i < |schema.anyOf| && Conforms(schema.anyOf[i], v))
      && (BoundsAreTyped(schema) ==>
            !r.Breaks? && (r.Fits? <==> exists i :: k <= i < |schema.anyOf| && Conforms(schema.anyOf[i], v)))
    decreases schema, 1, |schema.anyOf| - k
  {
    if k < |schema.anyOf| {
      ValidateDecides(schema.anyOf[k], v);
      AnyFitsDecides(schema, k + 1, v);
      assert schema.anyOf[k..][1..] == schema.anyOf[k + 1..];
    }
  }

  lemma {:induction false} PropertiesDecide(schema: Schema, k: nat, fields: map<string, Json>)
    requires k <= |schema.properties|
    ensures var r := AllProperties(schema, k, fields);
      var good := forall i :: k <= i < |schema.properties| && schema.properties[i].name in fields ==>
                    Conforms(schema.properties[i].schema, fields[schema.properties[i].name]);
      (r.Fits? ==> good) && (BoundsAreTyped(schema) ==> !r.Breaks? && (r.Fits? <==> good))
    decreases schema, 1, |schema.properties| - k
  {
    if k < |schema.properties| {
      var p := schema.properties[k];
      if p.name in fields { ValidateDecides(p.schema, fields[p.name]); }
      PropertiesDecide(schema, k + 1, fields);
    }
  }

  lemma {:induction false} ItemsDecide(schema: Schema, items: seq<Json>)
    requires schema.items.Some?
    ensures var r := AllItems(schema, items);
      var good := forall i :: 0 <= i < |items| ==> Conforms(schema.items.value, items[i]);
      (r.Fits? ==> good) && (BoundsAreTyped(schema) ==> !r.Breaks? && (r.Fits? <==> good))
    decreases schema, 1, |items|
  {
    if items != [] {
      ValidateDecides(schema.items.value, items[0]);
      ItemsDecide(schema, items[1..]);
      assert forall i :: 1 <= i < |items| ==> items[i] == items[1..][i - 1];
    }
  }

  // ---------------------------------------------------------------- the gate

  datatype Risk = Read | Confirm | Typed

  datatype Manifest = Manifest(name: string, input: Option<Schema>, risk: Risk, requiresScope: bool,
                               active: bool, external_: bool, phrase: Option<string>)

  datatype Mode = General | Investigate | Action

  datatype Policy = Policy(allowed: set<string>, maxToolCalls: int, readOnly: bool, allowExternal: bool,
                           allowActive: bool, allowSensitive: bool, mode: Mode)

  /** Recognisers the policy module imports: folded keys, addresses, UUIDs, private context. */
  datatype Recognisers = Recognisers(fold: string -> string, isAddress: string -> bool, isUuid: Json -> bool,
                                     sensitive: Json -> bool)

  datatype Check = Passed | NeedsApproval | Rejected | Broken

  predicate Truthy(v: Json) {
    match v
    case Null => false
    case Bool(b) => b
    case Int(i) => i != 0
    case Real(r) => r != 0.0
    case Str(s) => s != ""
    case Arr(items) => items != []
    case Obj(fields) => fields != map[]
  }

  function ValidateInput(input: Option<Schema>, v: Json): Outcome {
    if input.None? then (if Truthy(v) then Violates else Fits) else Validate(input.value, v)
  }

  predicate EndsWith(text: string, suffix: string) {
    |suffix| <= |text| && text[|text| - |suffix|..] == suffix
  }

  predicate NamesAddress(key: string) {
    key == "ip" || key == "source_ip" || key == "target_ip" || key == "address"
  }

  predicate SoundIdentifier(r: Recognisers, key: string, v: Json) {
    || v.Null?
    || ((NamesAddress(key) ==> v.Str? && r.isAddress(v.s)) && (EndsWith(key, "session_id") && Truthy(v) ==> r.isUuid(v)))
  }

  predicate SoundIdentifiers(r: Recognisers, v: Json) {
    v.Obj? ==> forall key :: key in v.fields ==> SoundIdentifier(r, r.fold(key), v.fields[key])
  }

  /** `validate_tool_call`. */
  function ValidateCall(r: Recognisers, m: Manifest, v: Json, hasScope: bool, p: Policy): Check {
    if p.mode.General? || m.name !in p.allowed then Rejected
    else match ValidateInput(m.input, v)
      case Violates => Rejected
      case Breaks => Broken
      case Fits =>
        if m.requiresScope && !hasScope then Rejected
        else if !SoundIdentifiers(r, v) then Rejected
        else if m.active && !p.allowActive then Rejected
        else if m.external_ && !p.allowExternal then Rejected
        else if m.external_ && r.sensitive(v) && !p.allowSensitive then NeedsApproval
        else Passed
  }

  predicate AsksOpenAi(m: Manifest, v: Json) {
    m.name == "research" && v.Obj? && "web_provider" in v.fields && v.fields["web_provider"] == Str("openai")
  }

  predicate RequiresConfirmation(r: Recognisers, m: Manifest, v: Json) {
    !m.risk.Read? || AsksOpenAi(m, v) || (m.external_ && r.sensitive(v))
  }

  datatype Gate = Direct | Ask | Block | Break

  /** What `_execute_call` does with a call: run it, ask the operator, refuse it, or fail the run. */
  function GateOf(r: Recognisers, m: Manifest, v: Json, hasScope: bool, p: Policy): Gate {
    match ValidateCall(r, m, v, hasScope, p)
    case Passed => if RequiresConfirmation(r, m, v) then Ask else Direct
    case NeedsApproval => Ask
    case Rejected => Block
    case Broken => Break
  }

  /** Under an address key only an address, under a session id key only a UUID; null always passes and
      so does an empty session id. */
  ghost predicate IdentifierHolds(r: Recognisers, folded: string, v: Json) {
    v != Null ==>
      && (folded in {"ip", "source_ip", "target_ip", "address"} ==> v.Str? && r.isAddress(v.s))
      && (|folded| >= 10 && folded[|folded| - 10..] == "session_id" ==> r.isUuid(v) || Empty(v))
  }

  ghost predicate Empty(v: Json) {
    v in {Null, Bool(false), Int(0), Real(0.0), Str(""), Arr([]), Obj(map[])}
  }

  /** What a call must meet to be made at all, with or without the operator. */
  ghost predicate Admissible(r: Recognisers, m: Manifest, v: Json, hasScope: bool, p: Policy) {
    && p.mode != General && m.name in p.allowed
    && (if m.input.Some? then Conforms(m.input.value, v) else Empty(v))
    && (m.requiresScope ==> hasScope)
    && (v.Obj? ==> forall key :: key in v.fields ==> IdentifierHolds(r, r.fold(key), v.fields[key]))
    && (m.active ==> p.allowActive) && (m.external_ ==> p.allowExternal)
  }

  lemma EmptyIff(v: Json)
    ensures Truthy(v) <==> !Empty(v)
  {
  }

  lemma IdentifierIff(r: Recognisers, folded: string, v: Json)
    ensures SoundIdentifier(r, folded, v) <==> IdentifierHolds(r, folded, v)
  {
    assert |"session_id"| == 10;
    EmptyIff(v);
  }

  lemma IdentifiersIff(r: Recognisers, v: Json)
    ensures SoundIdentifiers(r, v) <==> (v.Obj? ==> forall key :: key in v.fields ==> IdentifierHolds(r, r.fold(key), v.fields[key]))
  {
    if v.Obj? {
      forall key | key in v.fields ensures SoundIdentifier(r, r.fold(key), v.fields[key]) <==> IdentifierHolds(r, r.fold(key), v.fields[key]) {
        IdentifierIff(r, r.fold(key), v.fields[key]);
      }
    }
  }

  lemma InputDecides(input: Option<Schema>, v: Json)
    ensures ValidateInput(input, v).Fits? ==> if input.Some? then Conforms(input.value, v) else Empty(v)
    ensures (input.Some? ==> BoundsAreTyped(input.value)) ==>
      && !ValidateInput(input, v).Breaks?
      && (ValidateInput(input, v).Fits? <==> if input.Some? then Conforms(input.value, v) else Empty(v))
  {
    if input.Some? { ValidateDecides(input.value, v); } else { EmptyIff(v); }
  }

  /** A call runs, at once or after the operator agreed, only if it is admissible.  It runs at once only
      if its tier is "read", it does not hand the research to OpenAI and it sends no private context
      outside; otherwise the operator is asked (the run's consent to private context makes no
      difference).  With typed bounds the converses hold, and the guard never fails the run. */
  lemma GateDecides(r: Recognisers, m: Manifest, v: Json, hasScope: bool, p: Policy)
    ensures GateOf(r, m, v, hasScope, p).Direct? ==>
      && Admissible(r, m, v, hasScope, p) && m.risk == Read
      && !(m.name == "research" && v.Obj? && "web_provider" in v.fields && v.fields["web_provider"] == Str("openai"))
      && !(m.external_ && r.sensitive(v))
    ensures GateOf(r, m, v, hasScope, p).Ask? ==>
      && Admissible(r, m, v, hasScope, p)
      && (m.risk == Confirm || m.risk == Typed || (m.external_ && r.sensitive(v))
          || (m.name == "research" && v.Obj? && "web_provider" in v.fields && v.fields["web_provider"] == Str("openai")))
    ensures (m.input.Some? ==> BoundsAreTyped(m.input.value)) ==>
      && GateOf(r, m, v, hasScope, p) != Break
      && (GateOf(r, m, v, hasScope, p) == Block <==> !Admissible(r, m, v, hasScope, p))
  {
    InputDecides(m.input, v);
    IdentifiersIff(r, v);
  }
}
