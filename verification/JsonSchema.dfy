/**
 packages/trace/schema/decision-trace-v1.schema.json as data, what it means to conform to it
 (JSON Schema, draft 2020-12, the keywords used there), and how far the hand-written
 validator agrees with the schema it exports.
 */
module JsonSchema {
  import opened KeyOrder
  import opened Json
  import opened JsonText
  import opened CanonicalForm
  import opened JsonParse
  import opened TraceSchema
  import opened TraceExample

  /** The patterns of the schema: ^0x[0-9a-fA-F]{n}$, ^0x[0-9a-fA-F]*$ and ^[0-9]+$. */
  datatype Pattern = Hex(n: nat) | AnyHex | Decimal

  datatype Schema =
    | AnyString
    | Const(text: string)
    | Enum(texts: seq<string>)
    | Matching(pattern: Pattern)
    | Integer
    | NonNegative
    | Number
    | AnyObject
    | ArrayOf(items: Schema)
    /** All properties are required and there are no others. */
    | Record(properties: seq<Property>)

  datatype Property = Property(key: string, schema: Schema)

  const SESSION := Record([
    Property("id", AnyString), Property("startedAt", Integer), Property("model", AnyString),
    Property("temperature", Number)])

  const PROMPT := Record([
    Property("role", Enum(["user", "system", "assistant"])), Property("content", AnyString),
    Property("timestamp", Integer)])

  const TOOL_CALL := Record([
    Property("name", AnyString), Property("input", AnyObject), Property("output", AnyObject),
    Property("timestamp", Integer)])

  const OBSERVATION := Record([
    Property("source", AnyString), Property("content", AnyString), Property("timestamp", Integer)])

  const ACTION := Record([
    Property("target", Matching(Hex(40))), Property("token", Matching(Hex(40))),
    Property("amount", Matching(Decimal)), Property("callData", Matching(AnyHex)),
    Property("rationale", AnyString)])

  const DECISION_TRACE := Record([
    Property("schemaVersion", Const("1.0.0")), Property("agentId", Matching(Hex(64))),
    Property("owner", Matching(Hex(40))), Property("intentHash", Matching(Hex(64))),
    Property("session", SESSION), Property("prompts", ArrayOf(PROMPT)),
    Property("toolCalls", ArrayOf(TOOL_CALL)), Property("observations", ArrayOf(OBSERVATION)),
    Property("proposedAction", ACTION), Property("nonce", NonNegative)])

  predicate HexChars(s: string) {
    forall c :: c in s ==> '0' <= c <= '9' || 'a' <= c <= 'f' || 'A' <= c <= 'F'
  }

  predicate Matches(s: string, p: Pattern) {
    match p
    case Hex(n) => "0x" <= s && HexChars(s[2..]) && |s| == 2 + n
    case AnyHex => "0x" <= s && HexChars(s[2..])
    case Decimal => s != "" && forall c :: c in s ==> '0' <= c <= '9'
  }

  predicate Conforms(v: Value, schema: Schema)
    decreases schema
  {
    match schema
    case AnyString => v.Str?
    case Const(text) => v == Str(text)
    case Enum(texts) => v.Str? && v.s in texts
    case Matching(pattern) => v.Str? && Matches(v.s, pattern)
    case Integer => v.Num?
    case NonNegative => v.Num? && v.n >= 0
    case Number => v.Num? || v.Frac?
    case AnyObject => v.Obj?
    case ArrayOf(items) => v.Arr? && forall i :: 0 <= i < |v.items| ==> Conforms(v.items[i], items)
    case Record(properties) =>
      v.Obj? && (forall f :: f in v.fields ==> exists i :: 0 <= i < |properties| && properties[i].key == f.key) &&
      forall i :: 0 <= i < |properties| ==>
        Has(v.fields, properties[i].key) && Conforms(Get(v.fields, properties[i].key), properties[i].schema)
  }

  // ----- the parts

  function PropertyKeys(properties: seq<Property>): (r: seq<string>)
    ensures |r| == |properties|
  {
    seq(|properties|, i requires 0 <= i < |properties| => properties[i].key)
  }

  /** The property conforms where `v` has it. */
  predicate At(v: Value, p: Property) {
    Conforms(Prop(v, p.key), p.schema)
  }

  /** A record is an object with exactly the keys, each property conforming. */
  lemma RecordIff(v: Value, properties: seq<Property>)
    ensures Conforms(v, Record(properties)) <==>
            ExactObject(v, PropertyKeys(properties)) && forall i :: 0 <= i < |properties| ==> At(v, properties[i])
  {
    if Conforms(v, Record(properties)) {
      RecordKeys(v, properties);
      forall i | 0 <= i < |properties|
        ensures At(v, properties[i])
      {
        assert Has(v.fields, properties[i].key);
      }
    }
    if ExactObject(v, PropertyKeys(properties)) {
      ExactFields(v, properties);
      if forall i :: 0 <= i < |properties| ==> At(v, properties[i]) {
        forall i | 0 <= i < |properties|
          ensures Conforms(Get(v.fields, properties[i].key), properties[i].schema)
        {
          assert At(v, properties[i]);
        }
      }
    }
  }

  lemma ExactFields(v: Value, properties: seq<Property>)
    requires ExactObject(v, PropertyKeys(properties))
    ensures forall f :: f in v.fields ==> exists i :: 0 <= i < |properties| && properties[i].key == f.key
    ensures forall i :: 0 <= i < |properties| ==> Has(v.fields, properties[i].key)
  {
    var keys := PropertyKeys(properties);
    forall f | f in v.fields
      ensures exists i :: 0 <= i < |properties| && properties[i].key == f.key
    {
      assert f.key in Keys(v.fields);
      var i :| 0 <= i < |keys| && keys[i] == f.key;
      assert properties[i].key == f.key;
    }
    forall i | 0 <= i < |properties|
      ensures Has(v.fields, properties[i].key)
    {
      assert keys[i] in Keys(v.fields);
    }
  }

  lemma Three(v: Value, p: seq<Property>)
    requires |p| == 3
    ensures Conforms(v, Record(p)) <==>
            ExactObject(v, PropertyKeys(p)) && At(v, p[0]) && At(v, p[1]) && At(v, p[2])
  {
    hide Conforms, At, ExactObject, PropertyKeys;
    RecordIff(v, p);
  }

  lemma Four(v: Value, p: seq<Property>)
    requires |p| == 4
    ensures Conforms(v, Record(p)) <==>
            ExactObject(v, PropertyKeys(p)) &&
            At(v, p[0]) && At(v, p[1]) && At(v, p[2]) && At(v, p[3])
  {
    hide Conforms, At, ExactObject, PropertyKeys;
    RecordIff(v, p);
  }

  lemma Five(v: Value, p: seq<Property>)
    requires |p| == 5
    ensures Conforms(v, Record(p)) <==>
            ExactObject(v, PropertyKeys(p)) &&
            At(v, p[0]) && At(v, p[1]) && At(v, p[2]) && At(v, p[3]) && At(v, p[4])
  {
    hide Conforms, At, ExactObject, PropertyKeys;
    RecordIff(v, p);
  }

  lemma Ten(v: Value, p: seq<Property>)
    requires |p| == 10
    ensures Conforms(v, Record(p)) <==>
            ExactObject(v, PropertyKeys(p)) &&
            At(v, p[0]) && At(v, p[1]) && At(v, p[2]) && At(v, p[3]) && At(v, p[4]) &&
            At(v, p[5]) && At(v, p[6]) && At(v, p[7]) && At(v, p[8]) && At(v, p[9])
  {
    hide Conforms, At, ExactObject, PropertyKeys;
    RecordIff(v, p);
  }

  lemma SchemaKeys()
    ensures PropertyKeys(SESSION.properties) == SESSION_KEYS && PropertyKeys(PROMPT.properties) == PROMPT_KEYS
    ensures PropertyKeys(TOOL_CALL.properties) == TOOL_CALL_KEYS
    ensures PropertyKeys(OBSERVATION.properties) == OBSERVATION_KEYS
    ensures PropertyKeys(ACTION.properties) == ACTION_KEYS && PropertyKeys(DECISION_TRACE.properties) == ROOT_KEYS
  {
  }

  lemma Scalars(v: Value)
    ensures Conforms(v, AnyString) <==> v.Str?
    ensures Conforms(v, Integer) <==> IsInteger(v)
    ensures Conforms(v, Number) <==> IsNumber(v)
    ensures Conforms(v, NonNegative) <==> v.Num? && v.n >= 0
    ensures Conforms(v, AnyObject) <==> v.Obj?
  {
  }

  lemma Choices(v: Value)
    ensures Conforms(v, Const("1.0.0")) <==> v == Str("1.0.0")
    ensures Conforms(v, Enum(["user", "system", "assistant"])) <==> v in {Str("user"), Str("system"), Str("assistant")}
  {
  }

  lemma RecordKeys(v: Value, properties: seq<Property>)
    requires Conforms(v, Record(properties))
    ensures ExactObject(v, PropertyKeys(properties))
  {
    var keys := PropertyKeys(properties);
    forall k | k in Keys(v.fields)
      ensures k in keys
    {
      var j :| 0 <= j < |v.fields| && v.fields[j].key == k;
      assert v.fields[j] in v.fields;
      var i :| 0 <= i < |properties| && properties[i].key == k;
      assert keys[i] == k;
    }
    forall k | k in keys
      ensures k in Keys(v.fields)
    {
      var i :| 0 <= i < |keys| && keys[i] == k;
      assert Has(v.fields, properties[i].key);
    }
  }

  lemma HexDigitsIff(s: string)
    ensures HexDigits(s) <==> HexChars(s)
  {
    if HexDigits(s) {
      forall c | c in s
        ensures '0' <= c <= '9' || 'a' <= c <= 'f' || 'A' <= c <= 'F'
      {
        var i :| 0 <= i < |s| && s[i] == c;
        assert HexValue(s[i]).Some?;
      }
    }
    if HexChars(s) {
      forall i | 0 <= i < |s|
        ensures HexValue(s[i]).Some?
      {
        assert s[i] in s;
      }
    }
  }

  /** The validator's addresses and hashes are the schema's, letters of either case included. */
  lemma HexIff(v: Value, n: nat)
    ensures IsHex(v, n) <==> Conforms(v, Matching(Hex(n)))
  {
    if v.Str? && |v.s| >= 2 {
      HexDigitsIff(v.s[2..]);
    }
  }

  lemma AmountIff(v: Value)
    ensures Conforms(v, Matching(Decimal)) <==> v.Str? && TestsDigits(v)
  {
    if v.Str? && TestsDigits(v) {
      forall c | c in v.s
        ensures '0' <= c <= '9'
      {
        var i :| 0 <= i < |v.s| && v.s[i] == c;
        assert Digit(v.s[i]);
      }
    }
    if Conforms(v, Matching(Decimal)) {
      forall i | 0 <= i < |v.s|
        ensures Digit(v.s[i])
      {
        assert v.s[i] in v.s;
      }
    }
  }

  lemma CommaInside(parts: seq<string>)
    requires |parts| >= 2
    ensures |Join(parts)| > |parts[0]| && Join(parts)[|parts[0]|] == ','
  {
  }

  lemma IntegerTest(n: int)
    ensures var s := IntText(n);
            s != "" && ((forall i :: 0 <= i < |s| ==> Digit(s[i])) <==> n >= 0)
  {
    NatTextDigits(if n < 0 then -n else n);
    hide NatText;
    assert n < 0 ==> !Digit(IntText(n)[0]);
  }

  lemma {:induction false} CoercedCount(items: seq<Value>)
    ensures |CoercedItems(items)| == |items|
  {
    if items != [] {
      CoercedCount(items[1..]);
    }
  }

  lemma ListTest(items: seq<Value>)
    ensures TestsDigits(Arr(items)) <==>
            |items| == 1 && !items[0].Null? && !items[0].Undefined? && TestsDigits(items[0])
  {
    var parts := CoercedItems(items);
    CoercedCount(items);
    if |items| >= 2 {
      CommaInside(parts);
      assert !Digit(Coerced(Arr(items))[|parts[0]|]);
    } else if |items| == 1 {
      assert Coerced(Arr(items)) == parts[0];
    } else {
      assert Coerced(Arr(items)) == "";
    }
  }

  /**
   Besides strings, the validator takes for an amount a non-negative integer, big or not, and a
   list of one thing it takes for an amount. (A fraction is known only by its text.)
   */
  lemma AmountBeyondStrings(v: Value)
    requires !v.Str? && !v.Frac?
    ensures TestsDigits(v) <==>
            (v.Num? && v.n >= 0) || (v.BigInt? && v.i >= 0) ||
            (v.Arr? && |v.items| == 1 && !v.items[0].Null? && !v.items[0].Undefined? && TestsDigits(v.items[0]))
  {
    match v
    case Num(n) => IntegerTest(n);
    case BigInt(i) => IntegerTest(i);
    case Arr(items) => ListTest(items);
    case Null => assert !Digit("null"[0]);
    case Undefined => assert !Digit("undefined"[0]);
    case Bool(b) => assert !Digit(Coerced(v)[0]);
    case Obj(_) => assert !Digit("[object Object]"[0]);
    case _ =>
  }

  lemma CallDataIff(v: Value)
    ensures Conforms(v, Matching(AnyHex)) <==> v.Str? && TestsHex(v)
  {
    if v.Str? && |v.s| >= 2 {
      HexDigitsIff(v.s[2..]);
    }
  }

  lemma SessionIff(v: Value)
    ensures Conforms(v, SESSION) <==> ValidSession(v) && Prop(v, "id").Str? && Prop(v, "model").Str?
  {
    hide Conforms, ExactObject, Prop, PropertyKeys, IsInteger, IsNumber, IsHex, TestsDigits, TestsHex;
    SchemaKeys();
    Four(v, SESSION.properties);
    Scalars(Prop(v, "id"));
    Scalars(Prop(v, "startedAt"));
    Scalars(Prop(v, "model"));
    Scalars(Prop(v, "temperature"));
  }

  lemma PromptIff(v: Value)
    ensures Conforms(v, PROMPT) <==> ValidPrompt(v)
  {
    hide Conforms, ExactObject, Prop, PropertyKeys, IsInteger, IsNumber, IsHex, TestsDigits, TestsHex;
    SchemaKeys();
    Three(v, PROMPT.properties);
    Choices(Prop(v, "role"));
    Scalars(Prop(v, "content"));
    Scalars(Prop(v, "timestamp"));
  }

  lemma ToolCallIff(v: Value)
    ensures Conforms(v, TOOL_CALL) <==> ValidToolCall(v)
  {
    hide Conforms, ExactObject, Prop, PropertyKeys, IsInteger, IsNumber, IsHex, TestsDigits, TestsHex;
    SchemaKeys();
    Four(v, TOOL_CALL.properties);
    Scalars(Prop(v, "name"));
    Scalars(Prop(v, "input"));
    Scalars(Prop(v, "output"));
    Scalars(Prop(v, "timestamp"));
  }

  lemma ObservationIff(v: Value)
    ensures Conforms(v, OBSERVATION) <==> ValidObservation(v)
  {
    hide Conforms, ExactObject, Prop, PropertyKeys, IsInteger, IsNumber, IsHex, TestsDigits, TestsHex;
    SchemaKeys();
    Three(v, OBSERVATION.properties);
    Scalars(Prop(v, "source"));
    Scalars(Prop(v, "content"));
    Scalars(Prop(v, "timestamp"));
  }

  lemma ActionIff(v: Value)
    ensures Conforms(v, ACTION) <==> ValidAction(v) && Prop(v, "amount").Str? && Prop(v, "callData").Str?
  {
    hide Conforms, ExactObject, Prop, PropertyKeys, IsInteger, IsNumber, IsHex, TestsDigits, TestsHex;
    SchemaKeys();
    Five(v, ACTION.properties);
    HexIff(Prop(v, "target"), 40);
    HexIff(Prop(v, "token"), 40);
    AmountIff(Prop(v, "amount"));
    CallDataIff(Prop(v, "callData"));
    Scalars(Prop(v, "rationale"));
  }

  lemma ArrayIff(v: Value, items: Schema)
    ensures Conforms(v, ArrayOf(items)) <==> v.Arr? && forall x :: x in v.items ==> Conforms(x, items)
  {
    if v.Arr? && forall x :: x in v.items ==> Conforms(x, items) {
      forall i | 0 <= i < |v.items|
        ensures Conforms(v.items[i], items)
      {
        assert v.items[i] in v.items;
      }
    }
  }

  lemma PromptsIff(v: Value)
    ensures Conforms(v, ArrayOf(PROMPT)) <==> v.Arr? && forall x :: x in v.items ==> ValidPrompt(x)
  {
    hide Conforms, ValidPrompt, PROMPT;
    ArrayIff(v, PROMPT);
    if v.Arr? {
      forall x | x in v.items
        ensures Conforms(x, PROMPT) <==> ValidPrompt(x)
      {
        PromptIff(x);
      }
    }
  }

  lemma ToolCallsIff(v: Value)
    ensures Conforms(v, ArrayOf(TOOL_CALL)) <==> v.Arr? && forall x :: x in v.items ==> ValidToolCall(x)
  {
    hide Conforms, ValidToolCall, TOOL_CALL;
    ArrayIff(v, TOOL_CALL);
    if v.Arr? {
      forall x | x in v.items
        ensures Conforms(x, TOOL_CALL) <==> ValidToolCall(x)
      {
        ToolCallIff(x);
      }
    }
  }

  lemma ObservationsIff(v: Value)
    ensures Conforms(v, ArrayOf(OBSERVATION)) <==> v.Arr? && forall x :: x in v.items ==> ValidObservation(x)
  {
    hide Conforms, ValidObservation, OBSERVATION;
    ArrayIff(v, OBSERVATION);
    if v.Arr? {
      forall x | x in v.items
        ensures Conforms(x, OBSERVATION) <==> ValidObservation(x)
      {
        ObservationIff(x);
      }
    }
  }

  // ----- the whole trace

  /** What the schema asks of a trace beyond the validator's checks. */
  predicate SchemaOnly(trace: Value) {
    Prop(Prop(trace, "session"), "id").Str? && Prop(Prop(trace, "session"), "model").Str? &&
    Prop(Prop(trace, "proposedAction"), "amount").Str? && Prop(Prop(trace, "proposedAction"), "callData").Str? &&
    Prop(trace, "nonce").Num? && Prop(trace, "nonce").n >= 0
  }

  lemma RootIff(trace: Value)
    ensures Conforms(trace, DECISION_TRACE) <==>
            ExactObject(trace, ROOT_KEYS) && Conforms(Prop(trace, "schemaVersion"), Const("1.0.0")) &&
            Conforms(Prop(trace, "agentId"), Matching(Hex(64))) && Conforms(Prop(trace, "owner"), Matching(Hex(40))) &&
            Conforms(Prop(trace, "intentHash"), Matching(Hex(64))) && Conforms(Prop(trace, "session"), SESSION) &&
            Conforms(Prop(trace, "prompts"), ArrayOf(PROMPT)) && Conforms(Prop(trace, "toolCalls"), ArrayOf(TOOL_CALL)) &&
            Conforms(Prop(trace, "observations"), ArrayOf(OBSERVATION)) &&
            Conforms(Prop(trace, "proposedAction"), ACTION) && Conforms(Prop(trace, "nonce"), NonNegative)
  {
    hide ExactObject, Prop, PropertyKeys, Conforms, SESSION, PROMPT, TOOL_CALL, OBSERVATION, ACTION;
    SchemaKeys();
    Ten(trace, DECISION_TRACE.properties);
  }

  /**
   The traces the schema admits are exactly those the validator accepts whose session id and
   model, amount and call data are strings and whose nonce is not negative.
   */
  lemma SchemaIff(trace: Value)
    ensures Conforms(trace, DECISION_TRACE) <==> ValidTrace(trace) && SchemaOnly(trace)
  {
    hide ExactObject, Prop, IsHex, ValidSession, ValidAction, ValidPrompt, ValidToolCall, ValidObservation;
    hide Conforms, SESSION, PROMPT, TOOL_CALL, OBSERVATION, ACTION, DECISION_TRACE;
    RootIff(trace);
    HexIff(Prop(trace, "agentId"), 64);
    HexIff(Prop(trace, "owner"), 40);
    HexIff(Prop(trace, "intentHash"), 64);
    SessionIff(Prop(trace, "session"));
    ActionIff(Prop(trace, "proposedAction"));
    PromptsIff(Prop(trace, "prompts"));
    ToolCallsIff(Prop(trace, "toolCalls"));
    ObservationsIff(Prop(trace, "observations"));
    Choices(Prop(trace, "schemaVersion"));
    Scalars(Prop(trace, "nonce"));
  }

  /** So the two do part: the validator accepts the sample with any nonce, the schema from 0 on. */
  lemma NegativeNonceAccepted(temperature: Value, nonce: SafeInt)
    requires IsNumber(temperature)
    ensures ValidTrace(SampleTrace(temperature, nonce))
    ensures Conforms(SampleTrace(temperature, nonce), DECISION_TRACE) <==> nonce >= 0
  {
    hide Conforms, DECISION_TRACE, ValidTrace, Object, Prop, ExactObject, ZeroHex;
    var session := [Str(""), Num(1700000000), Str(""), temperature];
    var action := [ZeroHex(40), ZeroHex(40), Str("2"), Str("0x"), Str("")];
    ValidMayNotSerialize(temperature, nonce);
    SchemaIff(SampleTrace(temperature, nonce));
    RootProps(RootValues(SampleSession(temperature), SampleAction(), nonce));
    SessionProps(session);
    ActionProps(action);
  }
}
