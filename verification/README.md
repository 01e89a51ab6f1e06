# ClassificationConfig — a verified model

This project models `ClassificationConfig`, the inference configuration that the
Elasticsearch machine-learning plugin uses for classification models. A configuration
holds two values: how many top classes to report (`num_top_classes`, default 0) and the
name of the result field that reports them (`top_classes_result_field`, default
`"top_classes"`). The model covers these operations:

- building a configuration from an untyped request map (`fromMap`), including its
  rejection of unknown keys;
- the two defaulting constructors;
- the binary stream form (`writeTo` and the stream constructor);
- the structured text form (`toXContent`);
- `equals`, `hashCode` and `isTargetTypeSupported`.

Files and modules:

- `wrappers.dfy` (`Wrappers`): `Option` stands for a nullable Java reference. `Result`
  stands for a return that may instead throw.
- `java_int.dfy` (`JavaInt`): Java's 32-bit `int` as the newtype `Int32`, with explicit
  wrap-around. Also the hash functions of `String` and `Objects`.
- `stream.dfy` (`Stream`): the transport stream as a sequence of typed tokens, one per
  `writeInt`/`writeString` call. `StreamOutput` and `StreamInput` are classes whose
  methods append to, or read from, that sequence.
- `xcontent.dfy` (`XContent`): the untyped `Value` of a request map
  (`Int | Str | Null | Other`). The builder is a class that records its calls
  (`startObject`, `field`, `endObject`) in order. `ReadFields`/`ReadObject` read one flat
  object back into a map and refuse a repeated name.
- `classification_config.dfy` (`ClassificationConfig`): the configuration itself.

`fromMap` is a method that works the way the Java does. It copies the map into a local
variable, removes and casts the two recognised keys one after the other, and then tests
what is left. A Java cast that fails (`(Integer)` on a value that is not an Integer)
becomes the error `ClassCast(key)`. Leftover keys become `BadRequest(keys)`. `writeTo` and
`toXContent` are methods that call the sink once per Java call. Each one is specified by a
function: `WireTokens` for the tokens written and `XContentFields` for the fields emitted.

## Model

| member | source | states |
|---|---|---|
| `ClassificationConfig.Make` | x-pack/plugin/core/src/main/java/org/elasticsearch/xpack/core/ml/inference/trainedmodel/ClassificationConfig.java:48-51 | A null count becomes 0 and a null field name becomes `"top_classes"`. A non-null argument is stored unchanged. |
| `ClassificationConfig.MakeWithCount` | x-pack/plugin/core/src/main/java/org/elasticsearch/xpack/core/ml/inference/trainedmodel/ClassificationConfig.java:44-46 | The one-argument constructor equals the two-argument one with a null field name, so the field name is always the default. |
| `ClassificationConfig.MakeReachesEveryConfig` | x-pack/plugin/core/src/main/java/org/elasticsearch/xpack/core/ml/inference/trainedmodel/ClassificationConfig.java:48-51 | Given both values explicitly, the constructor rebuilds any configuration exactly: no value is altered or range-checked. |
| `ClassificationConfig.MakeDefaultsIsEmptyParams` | x-pack/plugin/core/src/main/java/org/elasticsearch/xpack/core/ml/inference/trainedmodel/ClassificationConfig.java:29 | Both constructors with null arguments give `EMPTY_PARAMS`, which is `(0, "top_classes")`. |
| `ClassificationConfig.FromMap` | x-pack/plugin/core/src/main/java/org/elasticsearch/xpack/core/ml/inference/trainedmodel/ClassificationConfig.java:34-42 | Success holds exactly when both recognised keys cast and no other key is present. Leftover keys fail with a bad request whose key set is exactly the unrecognised keys (never empty). A wrongly typed count fails first, then a wrongly typed field name, both before the leftover test. Absent or null keys take their defaults. The empty map gives `EMPTY_PARAMS`. |
| `ClassificationConfig.WriteTo` | x-pack/plugin/core/src/main/java/org/elasticsearch/xpack/core/ml/inference/trainedmodel/ClassificationConfig.java:66-70 | Appends exactly the count token, then the field-name token, to what the stream already holds. |
| `ClassificationConfig.DecodeConfig` | x-pack/plugin/core/src/main/java/org/elasticsearch/xpack/core/ml/inference/trainedmodel/ClassificationConfig.java:53-56 | Reading succeeds exactly when an int token is followed by a string token. On success those two tokens are the written form of the result. |
| `ClassificationConfig.ReadConfig` | x-pack/plugin/core/src/main/java/org/elasticsearch/xpack/core/ml/inference/trainedmodel/ClassificationConfig.java:53-56 | The stream constructor reads an int, then a string, and returns what `DecodeConfig` gives for the unread tokens. It advances two tokens on success. A failed read propagates, leaving the position after the tokens that were read. |
| `ClassificationConfig.WireRoundTrip` | x-pack/plugin/core/src/main/java/org/elasticsearch/xpack/core/ml/inference/trainedmodel/ClassificationConfig.java:53-70 | Reading the written tokens gives the same configuration back, whatever follows them. |
| `ClassificationConfig.DecodeOnlyWrittenForm` | x-pack/plugin/core/src/main/java/org/elasticsearch/xpack/core/ml/inference/trainedmodel/ClassificationConfig.java:53-56 | A successful read returns exactly the configuration whose written form starts the stream. No defaulting happens on the read path. |
| `ClassificationConfig.WriteThenRead` | x-pack/plugin/core/src/main/java/org/elasticsearch/xpack/core/ml/inference/trainedmodel/ClassificationConfig.java:53-70 | Writing a configuration to a fresh stream with the `StreamOutput` and `StreamInput` classes and reading it back returns that configuration. |
| `ClassificationConfig.XContentFields` | x-pack/plugin/core/src/main/java/org/elasticsearch/xpack/core/ml/inference/trainedmodel/ClassificationConfig.java:86-94 | `num_top_classes` is emitted exactly when the count is not 0, and then with the count as its value. `top_classes_result_field` is always emitted, last, with the field name. |
| `ClassificationConfig.ToXContent` | x-pack/plugin/core/src/main/java/org/elasticsearch/xpack/core/ml/inference/trainedmodel/ClassificationConfig.java:85-94 | Appends one object to the builder: start, the fields of `XContentFields`, end. |
| `ClassificationConfig.XContentReadsBack` | x-pack/plugin/core/src/main/java/org/elasticsearch/xpack/core/ml/inference/trainedmodel/ClassificationConfig.java:86-94 | The emitted object reads back as a map. It holds the count only when the count is not 0, and it always holds the field name. |
| `ClassificationConfig.TextRoundTrip` | x-pack/plugin/core/src/main/java/org/elasticsearch/xpack/core/ml/inference/trainedmodel/ClassificationConfig.java:34-42 | `fromMap` of the object that `toXContent` emits gives the configuration back. The omitted zero count returns as the default 0. |
| `ClassificationConfig.TextBinaryAsymmetry` | x-pack/plugin/core/src/main/java/org/elasticsearch/xpack/core/ml/inference/trainedmodel/ClassificationConfig.java:67-91 | The binary form always carries the count. With a zero count, the text form carries only the result field. |
| `ClassificationConfig.Equals` | x-pack/plugin/core/src/main/java/org/elasticsearch/xpack/core/ml/inference/trainedmodel/ClassificationConfig.java:72-78 | `equals` holds exactly when the other object is a classification config with the same count and field name. Null and objects of other classes are never equal. |
| `ClassificationConfig.EqualsIsEquivalence` | x-pack/plugin/core/src/main/java/org/elasticsearch/xpack/core/ml/inference/trainedmodel/ClassificationConfig.java:72-78 | `equals` is reflexive, symmetric and transitive on configurations. |
| `ClassificationConfig.EqualsImpliesEqualHash` | x-pack/plugin/core/src/main/java/org/elasticsearch/xpack/core/ml/inference/trainedmodel/ClassificationConfig.java:80-83 | Configurations that are `equals` have the same `hashCode`. |
| `ClassificationConfig.HashCode` | x-pack/plugin/core/src/main/java/org/elasticsearch/xpack/core/ml/inference/trainedmodel/ClassificationConfig.java:80-83 | `Objects.hash(count, field)` in `int` arithmetic. This equals 31 * (31 + count) + the field name's `String` hash, taken modulo 2^32. Consistency with `equals` is `EqualsImpliesEqualHash`. |
| `JavaInt.Wrap` | x-pack/plugin/core/src/main/java/org/elasticsearch/xpack/core/ml/inference/trainedmodel/ClassificationConfig.java:82 | The `int` arithmetic inside `Objects.hash` keeps the value modulo 2^32, and leaves values already in the `int` range unchanged. |
| `ClassificationConfig.IsTargetTypeSupported` | x-pack/plugin/core/src/main/java/org/elasticsearch/xpack/core/ml/inference/trainedmodel/ClassificationConfig.java:106-109 | True exactly for the classification target type. Regression and null are not supported. |

## Left out

- `ClassificationConfig.FromMap`: the caller's map is a Dafny value, so "the caller's map is left unchanged" holds by construction rather than being proved about a shared, mutable object. Aliasing of Java maps is not modelled.
- `ClassificationConfig.FromMap`: a null map makes `new HashMap<>(map)` throw a NullPointerException, and a Java map may hold a null key. A Dafny map cannot be null and its keys are strings, so neither case is modelled.
- Byte encoding of `writeInt`/`readInt`/`writeString`/`readString`: this belongs to the stream codec, which is not part of this model. Each call is one abstract token. A token of the wrong kind stands for malformed bytes.
- JSON rendering by the builder: this belongs to the content library, which is not part of this model. Only the sequence of builder calls is modelled. The map reader in `xcontent.dfy` stands for parsing that output back.
- `getMinimalSupportedVersion` and `MIN_SUPPORTED_VERSION` (version 7.6.0): these are constants consumed by version negotiation elsewhere, so there is nothing here to state about them.
- `getName`, `getWriteableName`, `NAME` and the `InferenceConfig` registry: the names are the constant string `"classification"`, and the dispatch lives outside this file.
- `getNumTopClasses` and `getTopClassesResultsField` are the datatype's field selectors.
- `ClassificationConfig.HashCode`: `String.hashCode` is modelled over code points, so it matches Java's UTF-16 hash only for characters in the Basic Multilingual Plane.
- `EMPTY_PARAMS` is `public static` but not `final` in Java. It is modelled as a constant, so reassignment by other code is not captured.
- The message text of the bad-request error and the `ParseField` deprecated-name machinery: only the preferred names are matched, as `fromMap` does. The error carries the key set.
- `TargetType.java` is not part of this model. Its variants are taken as classification and regression, and null stands for a null argument.
