/**
 DecisionTrace v1: what `validateDecisionTrace` accepts, `normalizeTrace`, and
 `serializeCanonical`. A trace is any value; nothing is assumed about its shape beyond
 objects having different keys.
 */
module TraceSchema {
  import opened KeyOrder
  import opened Json
  import opened JsonText
  import opened CanonicalForm
  import opened JsonParse
  import opened CanonicalJson

  const ROOT_KEYS: seq<string> := [
    "schemaVersion", "agentId", "owner", "intentHash", "session",
    "prompts", "toolCalls", "observations", "proposedAction", "nonce"
  ]
  const SESSION_KEYS: seq<string> := ["id", "startedAt", "model", "temperature"]
  const PROMPT_KEYS: seq<string> := ["role", "content", "timestamp"]
  const TOOL_CALL_KEYS: seq<string> := ["name", "input", "output", "timestamp"]
  const OBSERVATION_KEYS: seq<string> := ["source", "content", "timestamp"]
  const ACTION_KEYS: seq<string> := ["target", "token", "amount", "callData", "rationale"]

  /** value[key], undefined when there is no such property. */
  function Prop(v: Value, key: string): Value {
    if v.Obj? && Has(v.fields, key) then Get(v.fields, key) else Undefined
  }

  // ----- single-value checks

  predicate HexDigits(s: string) {
    forall i :: 0 <= i < |s| ==> HexValue(s[i]).Some?
  }

  /** /^0x[0-9a-fA-F]{n}$/ on a string. */
  predicate IsHex(v: Value, n: nat) {
    v.Str? && |v.s| == n + 2 && v.s[..2] == "0x" && HexDigits(v.s[2..])
  }

  predicate IsInteger(v: Value) {
    v.Num?
  }

  predicate IsNumber(v: Value) {
    v.Num? || v.Frac?
  }

  /** String(value), which RegExp.prototype.test applies to its argument. */
  function Coerced(v: Value): string
    decreases v, 1
  {
    match v
    case Null => "null"
    case Undefined => "undefined"
    case Bool(b) => if b then "true" else "false"
    case Num(n) => IntText(n)
    case Frac(text) => text
    case BigInt(i) => IntText(i)
    case Str(s) => s
    case Arr(items) => Join(CoercedItems(items))
    case Obj(_) => "[object Object]"
  }

  function CoercedItems(items: seq<Value>): seq<string>
    decreases items, 0
  {
    if items == [] then []
    else [if items[0].Null? || items[0].Undefined? then "" else Coerced(items[0])] + CoercedItems(items[1..])
  }

  /** /^\d+$/.test(value) */
  predicate TestsDigits(v: Value) {
    var s := Coerced(v);
    s != "" && forall i :: 0 <= i < |s| ==> Digit(s[i])
  }

  /** /^0x[0-9a-fA-F]*$/.test(value) */
  predicate TestsHex(v: Value) {
    var s := Coerced(v);
    |s| >= 2 && s[..2] == "0x" && HexDigits(s[2..])
  }

  // ----- what a valid trace is

  /** An object with exactly the keys of the list. */
  predicate ExactObject(v: Value, keys: seq<string>) {
    v.Obj? && Keys(v.fields) == set k | k in keys
  }

  predicate ValidPrompt(v: Value) {
    && ExactObject(v, PROMPT_KEYS)
    && Prop(v, "role") in {Str("user"), Str("system"), Str("assistant")}
    && Prop(v, "content").Str?
    && IsInteger(Prop(v, "timestamp"))
  }

  predicate ValidToolCall(v: Value) {
    && ExactObject(v, TOOL_CALL_KEYS)
    && Prop(v, "name").Str?
    && Prop(v, "input").Obj?
    && Prop(v, "output").Obj?
    && IsInteger(Prop(v, "timestamp"))
  }

  predicate ValidObservation(v: Value) {
    && ExactObject(v, OBSERVATION_KEYS)
    && Prop(v, "source").Str?
    && Prop(v, "content").Str?
    && IsInteger(Prop(v, "timestamp"))
  }

  predicate ValidAction(v: Value) {
    && ExactObject(v, ACTION_KEYS)
    && IsHex(Prop(v, "target"), 40)
    && IsHex(Prop(v, "token"), 40)
    && TestsDigits(Prop(v, "amount"))
    && TestsHex(Prop(v, "callData"))
    && Prop(v, "rationale").Str?
  }

  predicate ValidSession(v: Value) {
    && ExactObject(v, SESSION_KEYS)
    && IsInteger(Prop(v, "startedAt"))
    && IsNumber(Prop(v, "temperature"))
  }

  predicate ValidTrace(v: Value) {
    && ExactObject(v, ROOT_KEYS)
    && Prop(v, "schemaVersion") == Str("1.0.0")
    && IsHex(Prop(v, "agentId"), 64)
    && IsHex(Prop(v, "owner"), 40)
    && IsHex(Prop(v, "intentHash"), 64)
    && ValidSession(Prop(v, "session"))
    && Prop(v, "prompts").Arr?
    && (forall p :: p in Prop(v, "prompts").items ==> ValidPrompt(p))
    && Prop(v, "toolCalls").Arr?
    && (forall c :: c in Prop(v, "toolCalls").items ==> ValidToolCall(c))
    && Prop(v, "observations").Arr?
    && (forall o :: o in Prop(v, "observations").items ==> ValidObservation(o))
    && ValidAction(Prop(v, "proposedAction"))
    && IsInteger(Prop(v, "nonce"))
  }

  // ----- assertExactKeys

  function Unvalued(keys: seq<string>): (r: seq<Field>)
    ensures |r| == |keys| && KeySeq(r) == keys
  {
    seq(|keys|, i requires 0 <= i < |keys| => Field(keys[i], Null))
  }

  /** keys.sort() */
  function SortedKeys(keys: seq<string>): seq<string> {
    KeySeq(Sort(Utf16Less, Unvalued(keys)))
  }

  predicate AllDifferent(keys: seq<string>) {
    forall i, j :: 0 <= i < j < |keys| ==> keys[i] != keys[j]
  }

  /** Sorting and comparing two key lists in lockstep compares their sets. */
  lemma SortedKeysEqualIff(a: seq<string>, b: seq<string>)
    requires AllDifferent(a) && AllDifferent(b)
    ensures SortedKeys(a) == SortedKeys(b) <==> (set k | k in a) == (set k | k in b)
  {
    Utf16IsStrictTotal();
    UnvaluedKeys(a);
    UnvaluedKeys(b);
    var f, g := Sort(Utf16Less, Unvalued(a)), Sort(Utf16Less, Unvalued(b));
    SortSorts(Utf16Less, Unvalued(a));
    SortSorts(Utf16Less, Unvalued(b));
    KeysOfSort(Utf16Less, Unvalued(a));
    KeysOfSort(Utf16Less, Unvalued(b));
    if Keys(f) == Keys(g) {
      SortedKeysUnique(Utf16Less, f, g);
    }
    if KeySeq(f) == KeySeq(g) {
      KeysFromSeq(f);
      KeysFromSeq(g);
    }
  }

  lemma UnvaluedKeys(keys: seq<string>)
    requires AllDifferent(keys)
    ensures Distinct(Unvalued(keys)) && Keys(Unvalued(keys)) == set k | k in keys
  {
    KeysFromSeq(Unvalued(keys));
  }

  lemma KeysFromSeq(fields: seq<Field>)
    ensures Keys(fields) == set k | k in KeySeq(fields)
  {
    forall k | k in Keys(fields)
      ensures k in KeySeq(fields)
    {
      var i :| 0 <= i < |fields| && fields[i].key == k;
      assert KeySeq(fields)[i] == k;
    }
    forall k | k in KeySeq(fields)
      ensures k in Keys(fields)
    {
      var i :| 0 <= i < |KeySeq(fields)| && KeySeq(fields)[i] == k;
      assert fields[i].key == k;
    }
  }

  lemma ExactKeysIff(value: seq<Field>, allowedKeys: seq<string>)
    requires Distinct(value) && AllDifferent(allowedKeys)
    ensures SortedKeys(KeySeq(value)) == SortedKeys(allowedKeys) <==> Keys(value) == set k | k in allowedKeys
  {
    KeysFromSeq(value);
    SortedKeysEqualIff(KeySeq(value), allowedKeys);
  }

  /** The comparison loop of assertExactKeys, from the length check on. */
  method Lockstep(actualKeys: seq<string>, expectedKeys: seq<string>) returns (ok: bool)
    ensures ok <==> actualKeys == expectedKeys
  {
    if |actualKeys| != |expectedKeys| {
      return false;
    }
    for index := 0 to |expectedKeys|
      invariant forall i :: 0 <= i < index ==> actualKeys[i] == expectedKeys[i]
    {
      if actualKeys[index] != expectedKeys[index] {
        return false;
      }
    }
    return true;
  }

  /** assertExactKeys: two sorted lists compared in lockstep; false stands for the error it throws. */
  method AssertExactKeys(value: seq<Field>, allowedKeys: seq<string>) returns (ok: bool)
    requires Distinct(value) && AllDifferent(allowedKeys)
    ensures ok <==> Keys(value) == set k | k in allowedKeys
  {
    ExactKeysIff(value, allowedKeys);
    hide SortedKeys, KeySeq, Keys, Distinct, AllDifferent;
    ok := Lockstep(SortedKeys(KeySeq(value)), SortedKeys(allowedKeys));
  }

  lemma SchemaKeysDiffer()
    ensures AllDifferent(ROOT_KEYS) && AllDifferent(SESSION_KEYS) && AllDifferent(PROMPT_KEYS)
    ensures AllDifferent(TOOL_CALL_KEYS) && AllDifferent(OBSERVATION_KEYS) && AllDifferent(ACTION_KEYS)
  {
    assert |"schemaVersion"| == 13 && |"agentId"| == 7 && |"owner"| == 5 && |"intentHash"| == 10;
    assert |"session"| == 7 && |"prompts"| == 7 && |"toolCalls"| == 9 && |"observations"| == 12;
    assert |"proposedAction"| == 14 && |"nonce"| == 5;
    assert "agentId"[0] == 'a' && "session"[0] == 's' && "prompts"[0] == 'p' && "owner"[0] == 'o' && "nonce"[0] == 'n';
    assert |"id"| == 2 && |"startedAt"| == 9 && |"model"| == 5 && |"temperature"| == 11;
    assert |"role"| == 4 && |"content"| == 7 && |"timestamp"| == 9;
    assert |"name"| == 4 && |"input"| == 5 && |"output"| == 6 && |"source"| == 6;
    assert |"target"| == 6 && |"token"| == 5 && |"amount"| == 6 && |"callData"| == 8 && |"rationale"| == 9;
    assert "target"[0] == 't' && "amount"[0] == 'a';
  }

  // ----- validateDecisionTrace

  /** toRecord and assertExactKeys on one value. */
  method AssertRecord(value: Value, allowedKeys: seq<string>) returns (ok: bool)
    requires WellFormed(value) && AllDifferent(allowedKeys)
    ensures ok <==> ExactObject(value, allowedKeys)
  {
    if !value.Obj? {
      return false;
    }
    ok := AssertExactKeys(value.fields, allowedKeys);
  }

  method ValidatePrompts(prompts: seq<Value>) returns (ok: bool)
    requires forall p :: p in prompts ==> WellFormed(p)
    ensures ok <==> forall p :: p in prompts ==> ValidPrompt(p)
  {
    SchemaKeysDiffer();
    hide AllDifferent, ExactObject, WellFormed;
    for index := 0 to |prompts|
      invariant forall p :: p in prompts[..index] ==> ValidPrompt(p)
    {
      var prompt := prompts[index];
      var exact := AssertRecord(prompt, PROMPT_KEYS);
      if !exact
         || Prop(prompt, "role") !in {Str("user"), Str("system"), Str("assistant")}
         || !Prop(prompt, "content").Str?
         || !IsInteger(Prop(prompt, "timestamp")) {
        return false;
      }
    }
    assert prompts[..|prompts|] == prompts;
    return true;
  }

  method ValidateToolCalls(toolCalls: seq<Value>) returns (ok: bool)
    requires forall c :: c in toolCalls ==> WellFormed(c)
    ensures ok <==> forall c :: c in toolCalls ==> ValidToolCall(c)
  {
    SchemaKeysDiffer();
    hide AllDifferent, ExactObject, WellFormed;
    for index := 0 to |toolCalls|
      invariant forall c :: c in toolCalls[..index] ==> ValidToolCall(c)
    {
      var toolCall := toolCalls[index];
      var exact := AssertRecord(toolCall, TOOL_CALL_KEYS);
      if !exact
         || !Prop(toolCall, "name").Str?
         || !Prop(toolCall, "input").Obj?
         || !Prop(toolCall, "output").Obj?
         || !IsInteger(Prop(toolCall, "timestamp")) {
        return false;
      }
    }
    assert toolCalls[..|toolCalls|] == toolCalls;
    return true;
  }

  method ValidateObservations(observations: seq<Value>) returns (ok: bool)
    requires forall o :: o in observations ==> WellFormed(o)
    ensures ok <==> forall o :: o in observations ==> ValidObservation(o)
  {
    SchemaKeysDiffer();
    hide AllDifferent, ExactObject, WellFormed;
    for index := 0 to |observations|
      invariant forall o :: o in observations[..index] ==> ValidObservation(o)
    {
      var observation := observations[index];
      var exact := AssertRecord(observation, OBSERVATION_KEYS);
      if !exact
         || !Prop(observation, "source").Str?
         || !Prop(observation, "content").Str?
         || !IsInteger(Prop(observation, "timestamp")) {
        return false;
      }
    }
    assert observations[..|observations|] == observations;
    return true;
  }

  lemma PropWellFormed(v: Value, key: string)
    requires WellFormed(v)
    ensures WellFormed(Prop(v, key))
    ensures Prop(v, key).Arr? ==> forall x :: x in Prop(v, key).items ==> WellFormed(x)
  {
  }

  method ValidateSession(session: Value) returns (ok: bool)
    requires WellFormed(session)
    ensures ok <==> ValidSession(session)
  {
    SchemaKeysDiffer();
    hide AllDifferent, ExactObject, WellFormed, Prop;
    ok := AssertRecord(session, SESSION_KEYS);
    ok := ok && IsInteger(Prop(session, "startedAt")) && IsNumber(Prop(session, "temperature"));
  }

  method ValidateAction(action: Value) returns (ok: bool)
    requires WellFormed(action)
    ensures ok <==> ValidAction(action)
  {
    SchemaKeysDiffer();
    hide AllDifferent, ExactObject, WellFormed, Prop, IsHex, TestsDigits, TestsHex;
    ok := AssertRecord(action, ACTION_KEYS);
    ok := ok
      && IsHex(Prop(action, "target"), 40)
      && IsHex(Prop(action, "token"), 40)
      && TestsDigits(Prop(action, "amount"))
      && TestsHex(Prop(action, "callData"))
      && Prop(action, "rationale").Str?;
  }

  /** validateDecisionTrace: accepts exactly the valid traces; false stands for the error it throws. */
  method ValidateDecisionTrace(trace: Value) returns (ok: bool)
    requires WellFormed(trace)
    ensures ok <==> ValidTrace(trace)
  {
    SchemaKeysDiffer();
    PropWellFormed(trace, "session");
    PropWellFormed(trace, "prompts");
    PropWellFormed(trace, "toolCalls");
    PropWellFormed(trace, "observations");
    PropWellFormed(trace, "proposedAction");
    hide AllDifferent, ExactObject, WellFormed, ValidPrompt, ValidToolCall, ValidObservation, Prop;
    hide IsHex, ValidSession, ValidAction;
    ok := AssertRecord(trace, ROOT_KEYS);
    if !ok
       || Prop(trace, "schemaVersion") != Str("1.0.0")
       || !IsHex(Prop(trace, "agentId"), 64)
       || !IsHex(Prop(trace, "owner"), 40)
       || !IsHex(Prop(trace, "intentHash"), 64) {
      return false;
    }
    ok := ValidateSession(Prop(trace, "session"));
    if !ok || !Prop(trace, "prompts").Arr? {
      return false;
    }
    ok := ValidatePrompts(Prop(trace, "prompts").items);
    if !ok || !Prop(trace, "toolCalls").Arr? {
      return false;
    }
    ok := ValidateToolCalls(Prop(trace, "toolCalls").items);
    if !ok || !Prop(trace, "observations").Arr? {
      return false;
    }
    ok := ValidateObservations(Prop(trace, "observations").items);
    if !ok {
      return false;
    }
    ok := ValidateAction(Prop(trace, "proposedAction"));
    ok := ok && IsInteger(Prop(trace, "nonce"));
  }

  // ----- normalizeTrace

  /** An object literal that copies the listed properties of `v`, in the order of the list. */
  function Pick(v: Value, keys: seq<string>): (r: seq<Field>)
    ensures |r| == |keys| && KeySeq(r) == keys
  {
    seq(|keys|, i requires 0 <= i < |keys| => Field(keys[i], Prop(v, keys[i])))
  }

  function PickEach(items: seq<Value>, keys: seq<string>): (r: seq<Value>)
    ensures |r| == |items|
  {
    seq(|items|, i requires 0 <= i < |items| => Obj(Pick(items[i], keys)))
  }

  function Items(v: Value): seq<Value> {
    if v.Arr? then v.items else []
  }

  /** What normalizeTrace puts under one key of its result. */
  function NormalProp(trace: Value, key: string): Value {
    var v := Prop(trace, key);
    if key == "session" then Obj(Pick(v, SESSION_KEYS))
    else if key == "prompts" then Arr(PickEach(Items(v), PROMPT_KEYS))
    else if key == "toolCalls" then Arr(PickEach(Items(v), TOOL_CALL_KEYS))
    else if key == "observations" then Arr(PickEach(Items(v), OBSERVATION_KEYS))
    else if key == "proposedAction" then Obj(Pick(v, ACTION_KEYS))
    else v
  }

  function NormalizeTrace(trace: Value): Value {
    Obj(seq(|ROOT_KEYS|, i requires 0 <= i < |ROOT_KEYS| => Field(ROOT_KEYS[i], NormalProp(trace, ROOT_KEYS[i]))))
  }

  lemma {:induction false} SameReflexive(v: Value)
    requires WellFormed(v)
    ensures Same(v, v)
  {
    match v
    case Arr(items) =>
      forall i | 0 <= i < |items|
        ensures Same(items[i], items[i])
      {
        SameReflexive(items[i]);
      }
    case Obj(fields) =>
      forall i | 0 <= i < |fields|
        ensures Has(fields, fields[i].key) && Same(fields[i].value, Get(fields, fields[i].key))
      {
        GetOf(fields, i);
        SameReflexive(fields[i].value);
      }
    case _ =>
  }

  /** Copying all the properties of an exact object only reorders them. */
  lemma PickSame(v: Value, keys: seq<string>)
    requires WellFormed(v) && AllDifferent(keys) && ExactObject(v, keys)
    ensures WellFormed(Obj(Pick(v, keys))) && Same(v, Obj(Pick(v, keys)))
  {
    var r := Pick(v, keys);
    KeysFromSeq(r);
    forall i | 0 <= i < |r|
      ensures WellFormed(r[i].value)
    {
      PropWellFormed(v, keys[i]);
    }
    forall i, j | 0 <= i < j < |r|
      ensures r[i].key != r[j].key
    {
    }
    forall i | 0 <= i < |v.fields|
      ensures Has(r, v.fields[i].key) && Same(v.fields[i].value, Get(r, v.fields[i].key))
    {
      assert v.fields[i].key in Keys(v.fields);
      GetOf(v.fields, i);
      var j :| 0 <= j < |keys| && keys[j] == v.fields[i].key;
      GetOf(r, j);
      SameReflexive(v.fields[i].value);
    }
  }

  lemma PickEachSame(items: seq<Value>, keys: seq<string>)
    requires AllDifferent(keys)
    requires forall x :: x in items ==> WellFormed(x) && ExactObject(x, keys)
    ensures WellFormed(Arr(PickEach(items, keys))) && Same(Arr(items), Arr(PickEach(items, keys)))
  {
    forall i | 0 <= i < |items|
      ensures WellFormed(PickEach(items, keys)[i]) && Same(items[i], PickEach(items, keys)[i])
    {
      assert items[i] in items;
      PickSame(items[i], keys);
    }
  }

  lemma NormalPropSame(trace: Value, key: string)
    requires WellFormed(trace) && ValidTrace(trace)
    ensures WellFormed(NormalProp(trace, key)) && Same(Prop(trace, key), NormalProp(trace, key))
  {
    SchemaKeysDiffer();
    PropWellFormed(trace, key);
    var v := Prop(trace, key);
    hide AllDifferent, Same, WellFormed, Prop, IsHex, TestsDigits, TestsHex, ExactObject;
    if key == "session" {
      PickSame(v, SESSION_KEYS);
    } else if key == "prompts" {
      PickEachSame(v.items, PROMPT_KEYS);
    } else if key == "toolCalls" {
      PickEachSame(v.items, TOOL_CALL_KEYS);
    } else if key == "observations" {
      PickEachSame(v.items, OBSERVATION_KEYS);
    } else if key == "proposedAction" {
      PickSame(v, ACTION_KEYS);
    } else {
      SameReflexive(v);
    }
  }

  /** An object whose fields hold, in some order, the same as the properties of `v` is the same as `v`. */
  lemma ReorderedSame(v: Value, r: seq<Field>)
    requires v.Obj? && WellFormed(v) && Distinct(r) && Keys(r) == Keys(v.fields)
    requires forall i :: 0 <= i < |r| ==> Same(Prop(v, r[i].key), r[i].value)
    ensures Same(v, Obj(r))
  {
    forall i | 0 <= i < |v.fields|
      ensures Has(r, v.fields[i].key) && Same(v.fields[i].value, Get(r, v.fields[i].key))
    {
      assert v.fields[i].key in Keys(v.fields);
      GetOf(v.fields, i);
      var j :| 0 <= j < |r| && r[j].key == v.fields[i].key;
      GetOf(r, j);
    }
  }

  lemma NormalFields(trace: Value)
    ensures NormalizeTrace(trace).Obj?
    ensures KeySeq(NormalizeTrace(trace).fields) == ROOT_KEYS && |NormalizeTrace(trace).fields| == |ROOT_KEYS|
    ensures forall i :: 0 <= i < |ROOT_KEYS| ==>
      NormalizeTrace(trace).fields[i] == Field(ROOT_KEYS[i], NormalProp(trace, ROOT_KEYS[i]))
  {
    hide ROOT_KEYS, NormalProp;
  }

  lemma WellFormedObject(r: seq<Field>, keys: seq<string>)
    requires KeySeq(r) == keys && AllDifferent(keys)
    requires forall i :: 0 <= i < |r| ==> WellFormed(r[i].value)
    ensures WellFormed(Obj(r)) && Distinct(r) && Keys(r) == set k | k in keys
  {
    KeysFromSeq(r);
    forall i, j | 0 <= i < j < |r|
      ensures r[i].key != r[j].key
    {
      assert r[i].key == KeySeq(r)[i] && r[j].key == KeySeq(r)[j];
    }
  }

  lemma RootShape(trace: Value)
    requires ValidTrace(trace)
    ensures trace.Obj? && Keys(trace.fields) == set k | k in ROOT_KEYS
  {
  }

  /** On a valid trace normalizeTrace does nothing but reorder keys. */
  lemma NormalizeOnlyReorders(trace: Value)
    requires WellFormed(trace) && ValidTrace(trace)
    ensures WellFormed(NormalizeTrace(trace)) && Same(trace, NormalizeTrace(trace))
  {
    SchemaKeysDiffer();
    NormalFields(trace);
    RootShape(trace);
    hide ROOT_KEYS, NormalProp, NormalizeTrace, ValidTrace, Keys, KeySeq, AllDifferent, Same, Prop, WellFormed, Distinct;
    var r := NormalizeTrace(trace).fields;
    forall i | 0 <= i < |r|
      ensures WellFormed(r[i].value) && Same(Prop(trace, r[i].key), r[i].value)
    {
      NormalPropSame(trace, r[i].key);
    }
    WellFormedObject(r, ROOT_KEYS);
    ReorderedSame(trace, r);
  }

  // ----- serializeCanonical

  function SerializeCanonical(trace: Value): Result<string> {
    if ValidTrace(trace) then Stringify(NormalizeTrace(trace)) else Err
  }

  /** The text is that of the trace itself, and it exists for the valid traces without fractions. */
  lemma SerializeCanonicalIs(trace: Value)
    requires WellFormed(trace)
    ensures SerializeCanonical(trace).Ok? <==> ValidTrace(trace) && !HasFraction(trace)
    ensures ValidTrace(trace) ==> SerializeCanonical(trace) == Stringify(trace)
  {
    if ValidTrace(trace) {
      NormalizeOnlyReorders(trace);
      OrderNeverShows(trace, NormalizeTrace(trace));
      StringifyIsPrint(trace);
    }
  }

  /** Python, which does not normalize, prints a valid JSON trace the same way exactly when no keys clash. */
  lemma PythonSerializesTraceIff(trace: Value)
    requires Plain(trace) && ValidTrace(trace)
    ensures SerializeCanonical(trace).Ok?
    ensures PySerialize(trace) == SerializeCanonical(trace) <==> NoClash(trace)
  {
    PlainHasNoFraction(trace);
    SerializeCanonicalIs(trace);
    PythonAgreesIff(trace);
    StringifyIsPrint(trace);
    EncodeIsPrint(trace);
    PlainForms(trace);
  }

  /** On plain values the server and the client sort the same fields. */
  lemma {:induction false} PlainForms(v: Value)
    requires Plain(v)
    ensures Form(Utf16Less, false, v) == Form(Utf16Less, true, v)
    decreases Size(v)
  {
    match v
    case Arr(items) =>
      var a, b := FormItems(Utf16Less, false, items), FormItems(Utf16Less, true, items);
      forall i | 0 <= i < |items|
        ensures a[i] == b[i]
      {
        FormItemsAt(Utf16Less, false, items, i);
        FormItemsAt(Utf16Less, true, items, i);
        SizeOfItem(items, i);
        PlainForms(items[i]);
      }
      assert a == b;
    case Obj(fields) =>
      PlainHasNoUndefined(fields);
      var f := Sort(Utf16Less, fields);
      SameElements(f, fields);
      var a, b := FormFields(Utf16Less, false, f), FormFields(Utf16Less, true, f);
      forall i | 0 <= i < |f|
        ensures a[i] == b[i]
      {
        FormFieldsAt(Utf16Less, false, f, i);
        FormFieldsAt(Utf16Less, true, f, i);
        assert f[i] in fields;
        var j :| 0 <= j < |fields| && fields[j] == f[i];
        SizeOfField(fields, j);
        PlainForms(f[i].value);
      }
      assert a == b;
    case _ =>
  }
}
