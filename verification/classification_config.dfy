/**
 * The inference configuration for classification models: how many top classes to report
 * and the result field they are reported under. It is built from an untyped map, from
 * explicit values or from the binary stream, and written back as binary tokens or as a
 * structured object.
 */
module ClassificationConfig {
  import opened JavaInt
  import opened Wrappers
  import opened Stream
  import opened XContent

  const DefaultTopClassesResultField: string := "top_classes"
  /** The preferred names of the two recognised option keys. */
  const NumTopClasses: string := "num_top_classes"
  const TopClassesResultField: string := "top_classes_result_field"
  const RecognisedKeys: set<string> := {NumTopClasses, TopClassesResultField}

  /** An immutable configuration; both fields are always set. */
  datatype Config = Config(numTopClasses: Int32, topClassesResultsField: string)

  /** The all-defaults configuration. */
  const EmptyParams: Config := Config(0, DefaultTopClassesResultField)

  datatype Error =
    | BadRequest(unrecognised: set<string>)  // unknown option keys, reported as a set
    | ClassCast(key: string)                 // a recognised key holding a value of the wrong type
    | Stream(cause: StreamError)             // the binary stream ran out or held the wrong token

  /** The model target types a configuration may be used with. */
  datatype TargetType = Classification | Regression

  /** Any Java object `equals` may be handed: null, a classification config, or an instance of another class. */
  datatype JavaObject = NullRef | ClassificationObject(config: Config) | OtherObject

  // ---------------------------------------------------------------------------
  // Constructors

  /** The two-argument constructor: a null count becomes 0, a null field name becomes the default. */
  function Make(numTopClasses: Option<Int32>, topClassesResultsField: Option<string>): (c: Config)
    ensures numTopClasses.Some? ==> c.numTopClasses == numTopClasses.value
    ensures numTopClasses.None? ==> c.numTopClasses == 0
    ensures topClassesResultsField.Some? ==> c.topClassesResultsField == topClassesResultsField.value
    ensures topClassesResultsField.None? ==> c.topClassesResultsField == DefaultTopClassesResultField
  {
    Config(numTopClasses.GetOr(0), topClassesResultsField.GetOr(DefaultTopClassesResultField))
  }

  /** The one-argument constructor: the result field is left null, so it takes the default. */
  function MakeWithCount(numTopClasses: Option<Int32>): (c: Config)
    ensures c == Make(numTopClasses, None)
    ensures c.topClassesResultsField == DefaultTopClassesResultField
  {
    Make(numTopClasses, None)
  }

  /** Every configuration is what the two-argument constructor builds from its own fields. */
  lemma MakeReachesEveryConfig(c: Config)
    ensures Make(Some(c.numTopClasses), Some(c.topClassesResultsField)) == c
  {
  }

  /** With both arguments null the constructor gives the empty configuration. */
  lemma MakeDefaultsIsEmptyParams()
    ensures Make(None, None) == EmptyParams
    ensures MakeWithCount(None) == EmptyParams
  {
  }

  // ---------------------------------------------------------------------------
  // Construction from an untyped map

  /** What `remove(key)` returns: the value, or null when the key is absent. */
  function Lookup(m: map<string, Value>, key: string): Value
  {
    if key in m then m[key] else Null
  }

  /** A value the cast `(Integer)` lets through. */
  predicate CastsToInteger(v: Value)
  {
    v.Int? || v.Null?
  }

  /** A value the cast `(String)` lets through. */
  predicate CastsToString(v: Value)
  {
    v.Str? || v.Null?
  }

  /**
   * `fromMap`: copy the map, remove and cast the two recognised keys, and fail if
   * anything is left. `m` is a value, so the caller's map is never affected.
   */
  method FromMap(m: map<string, Value>) returns (r: Result<Config, Error>)
    // the first cast fails before anything else is looked at
    ensures !CastsToInteger(Lookup(m, NumTopClasses)) ==> r == Err(ClassCast(NumTopClasses))
    // the second cast fails before the leftover keys are looked at
    ensures CastsToInteger(Lookup(m, NumTopClasses)) && !CastsToString(Lookup(m, TopClassesResultField))
      ==> r == Err(ClassCast(TopClassesResultField))
    // leftover keys are reported, all of them and nothing else
    ensures CastsToInteger(Lookup(m, NumTopClasses)) && CastsToString(Lookup(m, TopClassesResultField))
            && !(m.Keys <= RecognisedKeys)
      ==> r == Err(BadRequest(m.Keys - RecognisedKeys))
    ensures r.Err? && r.error.BadRequest? ==> r.error.unrecognised != {}
    ensures r.Ok? <==>
      CastsToInteger(Lookup(m, NumTopClasses)) && CastsToString(Lookup(m, TopClassesResultField))
      && m.Keys <= RecognisedKeys
    // an absent or null key takes its default
    ensures r.Ok? ==>
              r.value.numTopClasses ==
                (if Lookup(m, NumTopClasses).Int? then Lookup(m, NumTopClasses).i else 0)
    ensures r.Ok? ==>
              r.value.topClassesResultsField ==
                (if Lookup(m, TopClassesResultField).Str? then Lookup(m, TopClassesResultField).s
                 else DefaultTopClassesResultField)
    ensures m == map[] ==> r == Ok(EmptyParams)
  {
    var options := m;
    var countValue := Lookup(options, NumTopClasses);
    options := options - {NumTopClasses};
    var numTopClasses: Option<Int32>;
    match countValue {
      case Int(i) => numTopClasses := Some(i);
      case Null => numTopClasses := None;
      case _ => return Err(ClassCast(NumTopClasses));
    }
    var fieldValue := Lookup(options, TopClassesResultField);
    options := options - {TopClassesResultField};
    var topClassesResultsField: Option<string>;
    match fieldValue {
      case Str(s) => topClassesResultsField := Some(s);
      case Null => topClassesResultsField := None;
      case _ => return Err(ClassCast(TopClassesResultField));
    }
    assert options.Keys == m.Keys - RecognisedKeys;
    if options != map[] {
      return Err(BadRequest(options.Keys));
    }
    assert options.Keys == {};
    return Ok(Make(numTopClasses, topClassesResultsField));
  }

  // ---------------------------------------------------------------------------
  // Binary form

  /** The tokens `writeTo` appends: the count, then the field name. */
  function WireTokens(c: Config): (ts: seq<Token>)
    ensures |ts| == 2 && ts[0].I32? && ts[1].S?
  {
    [I32(c.numTopClasses), S(c.topClassesResultsField)]
  }

  /** What the stream constructor reads from the tokens `ts` ahead of it. */
  function DecodeConfig(ts: seq<Token>): (r: Result<Config, Error>)
    ensures r.Ok? <==> 2 <= |ts| && ts[0].I32? && ts[1].S?
    ensures r.Ok? ==> ts[..2] == WireTokens(r.value)
  {
    if |ts| == 0 then Err(Stream(EndOfStream))
    else if !ts[0].I32? then Err(Stream(Malformed))
    else if |ts| == 1 then Err(Stream(EndOfStream))
    else if !ts[1].S? then Err(Stream(Malformed))
    else Ok(Config(ts[0].i, ts[1].s))
  }

  /** `writeTo`: one `writeInt`, then one `writeString`. */
  method WriteTo(c: Config, out: StreamOutput)
    modifies out
    ensures out.tokens == old(out.tokens) + WireTokens(c)
  {
    out.WriteInt(c.numTopClasses);
    out.WriteString(c.topClassesResultsField);
  }

  /** The stream constructor: `readInt`, then `readString`; a failed read propagates. */
  method ReadConfig(input: StreamInput) returns (r: Result<Config, Error>)
    requires input.Valid()
    modifies input
    ensures input.Valid()
    ensures r == DecodeConfig(input.tokens[old(input.pos)..])
    ensures r.Ok? ==> input.pos == old(input.pos) + 2
    ensures r.Err? ==>
              input.pos == old(input.pos) +
                (if old(input.pos) < |input.tokens| && input.tokens[old(input.pos)].I32? then 1 else 0)
  {
    var count := input.ReadInt();
    if count.Err? {
      return Err(Stream(count.error));
    }
    var field := input.ReadString();
    if field.Err? {
      return Err(Stream(field.error));
    }
    return Ok(Config(count.value, field.value));
  }

  /** Whatever follows a written configuration, reading it back gives the same configuration. */
  lemma WireRoundTrip(c: Config, rest: seq<Token>)
    ensures DecodeConfig(WireTokens(c) + rest) == Ok(c)
  {
  }

  /** Reading succeeds only on the written form of the configuration it returns: no defaulting on this path. */
  lemma DecodeOnlyWrittenForm(ts: seq<Token>, c: Config)
    requires DecodeConfig(ts) == Ok(c)
    ensures ts == WireTokens(c) + ts[2..]
  {
  }

  /** Writing to a fresh stream and reading it back gives the configuration that was written. */
  method WriteThenRead(c: Config) returns (r: Result<Config, Error>)
    ensures r == Ok(c)
  {
    var out := new StreamOutput();
    WriteTo(c, out);
    var input := new StreamInput(out.tokens);
    r := ReadConfig(input);
  }

  // ---------------------------------------------------------------------------
  // Structured text form

  /** The fields `toXContent` emits: the count only when it is not 0, then always the result field, last. */
  function XContentFields(c: Config): (fs: seq<(string, Value)>)
    ensures |fs| == if c.numTopClasses != 0 then 2 else 1
    ensures fs[|fs| - 1] == (TopClassesResultField, Str(c.topClassesResultsField))
    ensures (exists i :: 0 <= i < |fs| && fs[i].0 == NumTopClasses) <==> c.numTopClasses != 0
    ensures forall i :: 0 <= i < |fs| && fs[i].0 == NumTopClasses ==> fs[i].1 == Int(c.numTopClasses)
  {
    assert NumTopClasses[0] != TopClassesResultField[0];
    var resultField := (TopClassesResultField, Str(c.topClassesResultsField));
    if c.numTopClasses != 0 then
      var fs := [(NumTopClasses, Int(c.numTopClasses)), resultField];
      assert fs[0].0 == NumTopClasses;
      fs
    else
      [resultField]
  }

  /** `toXContent`: one object holding `XContentFields(c)`; the params argument is not consulted. */
  method ToXContent(c: Config, builder: XContentBuilder)
    modifies builder
    ensures builder.events == old(builder.events) + ObjectEvents(XContentFields(c))
  {
    builder.StartObject();
    if c.numTopClasses != 0 {
      builder.Field(NumTopClasses, Int(c.numTopClasses));
    }
    builder.Field(TopClassesResultField, Str(c.topClassesResultsField));
    builder.EndObject();
  }

  /** The emitted object reads back as a map holding the count only when it is not 0. */
  lemma {:induction false} XContentReadsBack(c: Config)
    ensures ReadObject(ObjectEvents(XContentFields(c))).Some?
    ensures ReadObject(ObjectEvents(XContentFields(c))).value ==
      if c.numTopClasses != 0
      then map[NumTopClasses := Int(c.numTopClasses), TopClassesResultField := Str(c.topClassesResultsField)]
      else map[TopClassesResultField := Str(c.topClassesResultsField)]
  {
    var fs := XContentFields(c);
    var es := ObjectEvents(fs);
    var inner := es[1..|es| - 1];
    assert inner == FieldEvents(fs);
    assert NumTopClasses[0] != TopClassesResultField[0];
    var resultField := Event.Field(TopClassesResultField, Str(c.topClassesResultsField));
    if c.numTopClasses != 0 {
      assert inner == [Event.Field(NumTopClasses, Int(c.numTopClasses)), resultField];
      var read := ReadFields(inner).value;
      assert inner[0].name == NumTopClasses && inner[1].name == TopClassesResultField;
      assert read.Keys == {NumTopClasses, TopClassesResultField};
    } else {
      assert inner == [resultField];
    }
  }

  /**
   * The text form loses nothing although it omits a zero count: `fromMap` of the object
   * `toXContent` emits gives back the configuration.
   */
  method TextRoundTrip(c: Config) returns (r: Result<Config, Error>)
    ensures r == Ok(c)
  {
    var builder := new XContentBuilder();
    ToXContent(c, builder);
    assert builder.events == ObjectEvents(XContentFields(c));
    XContentReadsBack(c);
    var options := ReadObject(builder.events).value;
    assert NumTopClasses[0] != TopClassesResultField[0];
    assert TopClassesResultField in options && options[TopClassesResultField] == Str(c.topClassesResultsField);
    if c.numTopClasses != 0 {
      assert NumTopClasses in options && options[NumTopClasses] == Int(c.numTopClasses);
    } else {
      assert NumTopClasses !in options;
    }
    assert options.Keys <= RecognisedKeys;
    r := FromMap(options);
  }

  /** The binary form always carries the count; the text form drops it exactly when it is 0. */
  lemma TextBinaryAsymmetry(c: Config)
    ensures WireTokens(c)[0] == I32(c.numTopClasses)
    ensures c.numTopClasses == 0 ==> XContentFields(c) == [(TopClassesResultField, Str(c.topClassesResultsField))]
  {
  }

  // ---------------------------------------------------------------------------
  // Equality, hashing, target types

  /** `equals`: an object of the same class with equal fields. */
  function Equals(c: Config, o: JavaObject): (r: bool)
    ensures r <==> o == ClassificationObject(c)
  {
    match o
    case ClassificationObject(d) =>
      d.numTopClasses == c.numTopClasses && d.topClassesResultsField == c.topClassesResultsField
    case _ => false
  }

  /** `equals` is an equivalence on configurations. */
  lemma EqualsIsEquivalence(a: Config, b: Config, c: Config)
    ensures Equals(a, ClassificationObject(a))
    ensures Equals(a, ClassificationObject(b)) ==> Equals(b, ClassificationObject(a))
    ensures Equals(a, ClassificationObject(b)) && Equals(b, ClassificationObject(c)) ==> Equals(a, ClassificationObject(c))
  {
  }

  /**
   * `hashCode`: `Objects.hash(numTopClasses, topClassesResultsField)`, which comes to
   * 31 * (31 + count) + hash(field), taken modulo 2^32.
   */
  function HashCode(c: Config): (h: Int32)
    ensures (h as int - (31 * 31 + 31 * c.numTopClasses as int + StringHash(c.topClassesResultsField) as int)) % TwoTo32 == 0
  {
    var n := c.numTopClasses as int;
    var afterInt := Wrap(31 * 1 + n);
    var k := (afterInt as int - (31 + n)) / TwoTo32;
    assert afterInt as int - (31 + n) == k * TwoTo32;
    assert 31 * afterInt as int == 31 * (31 + n) + (31 * k) * TwoTo32;
    ObjectsHash(c.numTopClasses, c.topClassesResultsField)
  }

  /** Equal configurations hash alike. */
  lemma EqualsImpliesEqualHash(c: Config, d: Config)
    requires Equals(c, ClassificationObject(d))
    ensures HashCode(c) == HashCode(d)
  {
  }

  /** `isTargetTypeSupported`: only classification; a null target type is not supported. */
  function IsTargetTypeSupported(targetType: Option<TargetType>): (r: bool)
    ensures r <==> targetType == Some(Classification)
  {
    match targetType
    case Some(Classification) => true
    case _ => false
  }
}
