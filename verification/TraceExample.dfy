/**
 A concrete valid trace, and the one property in which validation and serialization part.
 */
module TraceExample {
  import opened KeyOrder
  import opened Json
  import opened JsonText
  import opened CanonicalForm
  import opened JsonParse
  import opened TraceSchema

  function Object(keys: seq<string>, values: seq<Value>): Value
    requires |keys| == |values|
  {
    Obj(seq(|keys|, i requires 0 <= i < |keys| => Field(keys[i], values[i])))
  }

  lemma ObjectShape(keys: seq<string>, values: seq<Value>)
    requires |keys| == |values| && AllDifferent(keys)
    ensures ExactObject(Object(keys, values), keys)
    ensures forall i :: 0 <= i < |keys| ==> Prop(Object(keys, values), keys[i]) == values[i]
    ensures (forall i :: 0 <= i < |values| ==> WellFormed(values[i])) ==> WellFormed(Object(keys, values))
    ensures HasFraction(Object(keys, values)) <==> exists i :: 0 <= i < |values| && HasFraction(values[i])
  {
    ObjectKeys(keys, values);
    ObjectParts(keys, values);
    hide ExactObject, HasFraction, WellFormed, Prop, Object;
    forall i | 0 <= i < |keys|
      ensures Prop(Object(keys, values), keys[i]) == values[i]
    {
      ObjectProp(keys, values, i);
    }
  }

  lemma ObjectKeys(keys: seq<string>, values: seq<Value>)
    requires |keys| == |values| && AllDifferent(keys)
    ensures ExactObject(Object(keys, values), keys) && Distinct(Object(keys, values).fields)
  {
    var fields := Object(keys, values).fields;
    assert KeySeq(fields) == keys;
    KeysFromSeq(fields);
  }

  lemma ObjectProp(keys: seq<string>, values: seq<Value>, i: nat)
    requires |keys| == |values| && AllDifferent(keys) && i < |keys|
    ensures Prop(Object(keys, values), keys[i]) == values[i]
  {
    ObjectKeys(keys, values);
    var fields := Object(keys, values).fields;
    assert fields[i].key == keys[i];
    GetOf(fields, i);
  }

  lemma ObjectParts(keys: seq<string>, values: seq<Value>)
    requires |keys| == |values| && AllDifferent(keys)
    ensures (forall i :: 0 <= i < |values| ==> WellFormed(values[i])) ==> WellFormed(Object(keys, values))
    ensures HasFraction(Object(keys, values)) <==> exists i :: 0 <= i < |values| && HasFraction(values[i])
  {
    ObjectKeys(keys, values);
    hide ExactObject, Keys, KeySeq;
    var fields := Object(keys, values).fields;
    if i :| 0 <= i < |values| && HasFraction(values[i]) {
      assert HasFraction(fields[i].value);
    }
  }

  function ZeroHex(n: nat): Value {
    Str("0x" + seq(n, i => '0'))
  }

  lemma ZeroHexIsHex(n: nat)
    ensures IsHex(ZeroHex(n), n)
  {
    assert ZeroHex(n).s[2..] == seq(n, i => '0');
  }

  function SampleSession(temperature: Value): Value {
    Object(SESSION_KEYS, [Str(""), Num(1700000000), Str(""), temperature])
  }

  function SampleAction(): Value {
    Object(ACTION_KEYS, [ZeroHex(40), ZeroHex(40), Str("2"), Str("0x"), Str("")])
  }

  function RootValues(session: Value, action: Value, nonce: SafeInt): seq<Value> {
    [Str("1.0.0"), ZeroHex(64), ZeroHex(40), ZeroHex(64), session, Arr([]), Arr([]), Arr([]), action, Num(nonce)]
  }

  function SampleTrace(temperature: Value, nonce: SafeInt): Value {
    Object(ROOT_KEYS, RootValues(SampleSession(temperature), SampleAction(), nonce))
  }

  lemma SessionProps(values: seq<Value>)
    requires |values| == 4
    ensures var v := Object(SESSION_KEYS, values);
            ExactObject(v, SESSION_KEYS) && Prop(v, "id") == values[0] && Prop(v, "startedAt") == values[1] &&
            Prop(v, "model") == values[2] && Prop(v, "temperature") == values[3]
  {
    hide Object, Prop, ExactObject;
    SchemaKeysDiffer();
    ObjectShape(SESSION_KEYS, values);
    assert SESSION_KEYS[0] == "id" && SESSION_KEYS[1] == "startedAt" && SESSION_KEYS[2] == "model" &&
           SESSION_KEYS[3] == "temperature";
  }

  lemma ActionProps(values: seq<Value>)
    requires |values| == 5
    ensures var v := Object(ACTION_KEYS, values);
            ExactObject(v, ACTION_KEYS) && Prop(v, "target") == values[0] && Prop(v, "token") == values[1] &&
            Prop(v, "amount") == values[2] && Prop(v, "callData") == values[3] && Prop(v, "rationale") == values[4]
  {
    hide Object, Prop, ExactObject;
    SchemaKeysDiffer();
    ObjectShape(ACTION_KEYS, values);
    assert ACTION_KEYS[0] == "target" && ACTION_KEYS[1] == "token" && ACTION_KEYS[2] == "amount" &&
           ACTION_KEYS[3] == "callData" && ACTION_KEYS[4] == "rationale";
  }

  lemma RootProps(values: seq<Value>)
    requires |values| == 10
    ensures var v := Object(ROOT_KEYS, values);
            ExactObject(v, ROOT_KEYS) && Prop(v, "schemaVersion") == values[0] && Prop(v, "agentId") == values[1] &&
            Prop(v, "owner") == values[2] && Prop(v, "intentHash") == values[3] && Prop(v, "session") == values[4]
    ensures var v := Object(ROOT_KEYS, values);
            Prop(v, "prompts") == values[5] && Prop(v, "toolCalls") == values[6] && Prop(v, "observations") == values[7] &&
            Prop(v, "proposedAction") == values[8] && Prop(v, "nonce") == values[9]
  {
    hide Object, Prop, ExactObject;
    SchemaKeysDiffer();
    ObjectShape(ROOT_KEYS, values);
    assert ROOT_KEYS[0] == "schemaVersion" && ROOT_KEYS[1] == "agentId" && ROOT_KEYS[2] == "owner" &&
           ROOT_KEYS[3] == "intentHash" && ROOT_KEYS[4] == "session";
    assert ROOT_KEYS[5] == "prompts" && ROOT_KEYS[6] == "toolCalls" && ROOT_KEYS[7] == "observations" &&
           ROOT_KEYS[8] == "proposedAction" && ROOT_KEYS[9] == "nonce";
  }

  lemma SampleSessionValid(temperature: Value)
    requires IsNumber(temperature)
    ensures ValidSession(SampleSession(temperature))
  {
    SessionProps([Str(""), Num(1700000000), Str(""), temperature]);
    hide Object, Prop, ExactObject;
  }

  lemma SampleActionValid()
    ensures ValidAction(SampleAction())
  {
    ActionProps([ZeroHex(40), ZeroHex(40), Str("2"), Str("0x"), Str("")]);
    ZeroHexIsHex(40);
    assert TestsDigits(Str("2"));
    assert TestsHex(Str("0x"));
    hide Object, Prop, ExactObject, ZeroHex, IsHex, TestsDigits, TestsHex;
  }

  lemma ValidFromProps(v: Value)
    requires ExactObject(v, ROOT_KEYS) && Prop(v, "schemaVersion") == Str("1.0.0")
    requires IsHex(Prop(v, "agentId"), 64) && IsHex(Prop(v, "owner"), 40) && IsHex(Prop(v, "intentHash"), 64)
    requires Prop(v, "prompts") == Arr([]) && Prop(v, "toolCalls") == Arr([]) && Prop(v, "observations") == Arr([])
    requires ValidSession(Prop(v, "session")) && ValidAction(Prop(v, "proposedAction")) && Prop(v, "nonce").Num?
    ensures ValidTrace(v)
  {
    hide Prop, ExactObject, IsHex, ValidSession, ValidAction, ValidPrompt, ValidToolCall, ValidObservation;
  }

  lemma RootValid(session: Value, action: Value, nonce: SafeInt)
    requires ValidSession(session) && ValidAction(action)
    ensures ValidTrace(Object(ROOT_KEYS, RootValues(session, action, nonce)))
  {
    hide Object, Prop, ExactObject, ZeroHex, IsHex, ValidSession, ValidAction, ValidTrace;
    RootProps(RootValues(session, action, nonce));
    ZeroHexIsHex(40);
    ZeroHexIsHex(64);
    ValidFromProps(Object(ROOT_KEYS, RootValues(session, action, nonce)));
  }

  lemma Scalars(values: seq<Value>)
    requires forall i :: 0 <= i < |values| ==> values[i].Str? || values[i].Num? || values[i].Frac? || values[i] == Arr([])
    ensures forall i :: 0 <= i < |values| ==> WellFormed(values[i])
    ensures forall i :: 0 <= i < |values| ==> (HasFraction(values[i]) <==> values[i].Frac?)
  {
  }

  lemma SampleParts(temperature: Value)
    requires IsNumber(temperature)
    ensures WellFormed(SampleSession(temperature)) && (HasFraction(SampleSession(temperature)) <==> temperature.Frac?)
    ensures WellFormed(SampleAction()) && !HasFraction(SampleAction())
  {
    hide Object, WellFormed, HasFraction, AllDifferent, ZeroHex, ExactObject, Prop;
    SchemaKeysDiffer();
    var session := [Str(""), Num(1700000000), Str(""), temperature];
    Scalars(session);
    ObjectShape(SESSION_KEYS, session);
    assert HasFraction(session[3]) <==> temperature.Frac?;
    ZeroHexIsStr(40);
    var action := [ZeroHex(40), ZeroHex(40), Str("2"), Str("0x"), Str("")];
    Scalars(action);
    ObjectShape(ACTION_KEYS, action);
  }

  lemma ZeroHexIsStr(n: nat)
    ensures ZeroHex(n).Str?
  {
  }

  lemma SampleShape(temperature: Value, nonce: SafeInt)
    requires IsNumber(temperature)
    ensures WellFormed(SampleTrace(temperature, nonce)) && (HasFraction(SampleTrace(temperature, nonce)) <==> temperature.Frac?)
  {
    hide Object, SampleSession, SampleAction, WellFormed, HasFraction, AllDifferent, ZeroHex, ExactObject, Prop;
    SampleParts(temperature);
    SchemaKeysDiffer();
    var values := RootValues(SampleSession(temperature), SampleAction(), nonce);
    ZeroHexIsStr(40);
    ZeroHexIsStr(64);
    Scalars(values[..4] + values[5..8] + values[9..]);
    RootParts(values);
    ObjectShape(ROOT_KEYS, values);
    assert HasFraction(values[4]) <==> temperature.Frac?;
  }

  lemma RootParts(values: seq<Value>)
    requires |values| == 10
    requires var q := values[..4] + values[5..8] + values[9..];
             forall i :: 0 <= i < |q| ==> WellFormed(q[i]) && !HasFraction(q[i])
    ensures forall i :: 0 <= i < 10 && i != 4 && i != 8 ==> WellFormed(values[i]) && !HasFraction(values[i])
  {
    hide WellFormed, HasFraction;
    var q := values[..4] + values[5..8] + values[9..];
    forall i | 0 <= i < 10 && i != 4 && i != 8
      ensures WellFormed(values[i]) && !HasFraction(values[i])
    {
      assert values[i] == q[if i < 4 then i else if i < 8 then i - 1 else i - 2];
    }
  }

  /** The sample is valid for every temperature, and serializes exactly for an integer one. */
  lemma ValidMayNotSerialize(temperature: Value, nonce: SafeInt)
    requires IsNumber(temperature)
    ensures WellFormed(SampleTrace(temperature, nonce)) && ValidTrace(SampleTrace(temperature, nonce))
    ensures SerializeCanonical(SampleTrace(temperature, nonce)).Ok? <==> temperature.Num?
  {
    SampleSessionValid(temperature);
    SampleActionValid();
    RootValid(SampleSession(temperature), SampleAction(), nonce);
    SampleShape(temperature, nonce);
    hide ValidTrace, Object, SerializeCanonical, SampleSession, SampleAction, RootValues;
    SerializeCanonicalIs(SampleTrace(temperature, nonce));
  }
}
