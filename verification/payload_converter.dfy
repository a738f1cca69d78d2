/** The framework-aware payload converter. It layers capability-based
    encoding and class-based reconstruction on top of the SDK's JSON
    converter (its parent).

    JSON text encoding and parsing, the parent converter and PHP reflection
    are not part of this model: they are the fields of `Collaborators`, and
    every property below holds whatever they do. */
module PayloadConverter {
  import opened Runtime

  /** A decoded JSON value (json_decode with associative arrays). Floats
      are kept as exact reals. */
  datatype Json =
    | JNull
    | JBool(b: bool)
    | JInt(i: int)
    | JFloat(r: real)
    | JString(s: string)
    | JList(items: seq<Json>)
    | JObject(fields: map<string, Json>)

  /** The scalar behind a backed enum case. */
  datatype Backing = IntBacking(i: int) | StringBacking(s: string)

  /** What an object offers to the encoder: for each capability it has, the
      result of the corresponding method. */
  datatype Capabilities = Capabilities(
    temporalPayload: Option<Json>,  // TemporalSerializable::toTemporalPayload()
    backing: Option<Backing>,       // BackedEnum::$value
    jsonText: Option<string>,       // Jsonable::toJson()
    serialized: Option<Json>,       // JsonSerializable::jsonSerialize()
    arrayForm: Option<Json>)        // Arrayable::toArray()

  /** A PHP value: a scalar or plain array, or an instance of a class. */
  datatype Value = Plain(data: Json) | Instance(className: string, caps: Capabilities)

  /** An encoded value: its encoding metadata and its data. */
  datatype Payload = Payload(encoding: string, data: string)

  /** The requested target of a decode. */
  datatype TypeDesc = TypeDesc(name: string, isClass: bool)

  /** What reflection finds out about a class, and its factories. */
  datatype ClassInfo = ClassInfo(
    isTemporalSerializable: bool,
    isEnum: bool,
    isBaseData: bool,
    fromTemporalPayload: Json -> Result<Value, Throwable>,
    from: Json -> Result<Value, Throwable>,
    newInstance: Json -> Result<Value, Throwable>)

  /** The code the converter calls but that is not part of this model:
      json_encode and json_decode with the converter's flags (both throw on
      error), the parent JSON converter, and the classes reflection can
      load, by name. */
  datatype Collaborators = Collaborators(
    jsonEncode: Json -> Result<string, Throwable>,
    jsonDecode: string -> Result<Json, Throwable>,
    parentToPayload: Value -> Result<Payload, Throwable>,
    parentFromPayload: (Payload, TypeDesc) -> Result<Value, Throwable>,
    classes: map<string, ClassInfo>)

  /** The encoding metadata of the SDK's JSON converter. */
  const JsonEncoding: string := "json/plain"
  const DataConverterExceptionClass: string := "Temporal\\Exception\\DataConverterException"

  // ---------------------------------------------------------------------
  // First match over a priority list

  /** The index of the first element of `cs` that has the capability, or
      |cs| when none has. */
  function FirstMatch<C>(cs: seq<C>, has: C -> bool): (k: nat)
    ensures k <= |cs|
    ensures forall j :: 0 <= j < k ==> !has(cs[j])
    ensures k < |cs| ==> has(cs[k])
  {
    if cs == [] || has(cs[0]) then 0 else 1 + FirstMatch(cs[1..], has)
  }

  // ---------------------------------------------------------------------
  // Encoding

  datatype EncodeCapability = TemporalSerializable | BackedEnum | Jsonable | JsonSerializable | Arrayable

  /** The order in which the encoder tries the capabilities. */
  const EncodePriority: seq<EncodeCapability> :=
    [TemporalSerializable, BackedEnum, Jsonable, JsonSerializable, Arrayable]

  predicate Has(v: Value, c: EncodeCapability) {
    v.Instance? &&
    match c
    case TemporalSerializable => v.caps.temporalPayload.Some?
    case BackedEnum => v.caps.backing.Some?
    case Jsonable => v.caps.jsonText.Some?
    case JsonSerializable => v.caps.serialized.Some?
    case Arrayable => v.caps.arrayForm.Some?
  }

  function BackingJson(b: Backing): Json {
    match b
    case IntBacking(i) => JInt(i)
    case StringBacking(s) => JString(s)
  }

  /** The converter's create(): a JSON payload holding the given text. */
  function Create(data: string): Payload {
    Payload(JsonEncoding, data)
  }

  /** json_encode, then create(). */
  function JsonPayload(env: Collaborators, j: Json): Result<Payload, Throwable> {
    match env.jsonEncode(j)
    case Ok(text) => Ok(Create(text))
    case Err(e) => Err(e)
  }

  /** The encoding one capability calls for. */
  function EncodeVia(env: Collaborators, v: Value, c: EncodeCapability): Result<Payload, Throwable>
    requires Has(v, c)
  {
    match c
    case TemporalSerializable => JsonPayload(env, v.caps.temporalPayload.value)
    case BackedEnum => JsonPayload(env, BackingJson(v.caps.backing.value))
    case Jsonable => Ok(Create(v.caps.jsonText.value))
    case JsonSerializable => JsonPayload(env, v.caps.serialized.value)
    case Arrayable => JsonPayload(env, v.caps.arrayForm.value)
  }

  /** toPayload: the encoding of the value's first capability in priority
      order, or the parent converter's when it has none. */
  function ToPayload(env: Collaborators, v: Value): (r: Result<Payload, Throwable>)
    ensures var k := FirstMatch(EncodePriority, c => Has(v, c));
      r == if k < |EncodePriority| then EncodeVia(env, v, EncodePriority[k]) else env.parentToPayload(v)
  {
    if Has(v, TemporalSerializable) then EncodeVia(env, v, TemporalSerializable)
    else if Has(v, BackedEnum) then EncodeVia(env, v, BackedEnum)
    else if Has(v, Jsonable) then EncodeVia(env, v, Jsonable)
    else if Has(v, JsonSerializable) then EncodeVia(env, v, JsonSerializable)
    else if Has(v, Arrayable) then EncodeVia(env, v, Arrayable)
    else env.parentToPayload(v)
  }

  /** A TemporalSerializable value is encoded from toTemporalPayload(),
      whatever other capabilities it has. */
  lemma TemporalHookWins(env: Collaborators, v: Value)
    requires v.Instance? && v.caps.temporalPayload.Some?
    ensures ToPayload(env, v) == JsonPayload(env, v.caps.temporalPayload.value)
  {
  }

  /** A backed enum that is not TemporalSerializable is encoded as the JSON
      of its backing scalar, not of the enum object. */
  lemma BackedEnumEncodesScalar(env: Collaborators, v: Value)
    requires v.Instance? && v.caps.temporalPayload.None? && v.caps.backing.Some?
    ensures ToPayload(env, v) == JsonPayload(env, BackingJson(v.caps.backing.value))
  {
  }

  /** A Jsonable value that is neither TemporalSerializable nor a backed
      enum is wrapped as the text its toJson() returns, without json_encode;
      in this model, where toJson() is a given text, this branch never
      raises. */
  lemma JsonableTextUsedAsIs(env: Collaborators, v: Value)
    requires v.Instance? && v.caps.temporalPayload.None? && v.caps.backing.None? && v.caps.jsonText.Some?
    ensures ToPayload(env, v) == Ok(Payload(JsonEncoding, v.caps.jsonText.value))
  {
  }

  /** A value with any of the five capabilities is encoded by this converter
      itself: the payload carries the JSON encoding, and an error can only
      be one json_encode raised. A value with none goes to the parent. */
  lemma OwnEncodingOutcome(env: Collaborators, v: Value)
    ensures (forall c :: !Has(v, c)) ==> ToPayload(env, v) == env.parentToPayload(v)
    ensures (exists c :: Has(v, c)) && ToPayload(env, v).Ok? ==> ToPayload(env, v).value.encoding == JsonEncoding
    ensures (exists c :: Has(v, c)) && ToPayload(env, v).Err? ==>
      exists j :: env.jsonEncode(j) == Err(ToPayload(env, v).error)
  {
  }

  /** json_encode then create(): the payload holds the encoder's text, and
      an encoder error propagates as it is. */
  lemma JsonPayloadOutcome(env: Collaborators, j: Json)
    ensures env.jsonEncode(j).Ok? ==> JsonPayload(env, j) == Ok(Create(env.jsonEncode(j).value))
    ensures env.jsonEncode(j).Ok? ==> JsonPayload(env, j).value.encoding == JsonEncoding
    ensures env.jsonEncode(j).Err? ==> JsonPayload(env, j) == Err(env.jsonEncode(j).error)
  {
  }

  // ---------------------------------------------------------------------
  // Decoding

  datatype Strategy = FromTemporalPayload | EnumFrom | DataFrom | NewInstance

  /** The order in which reconstruction strategies are tried. NewInstance
      applies to every class and comes last. */
  const DecodePriority: seq<Strategy> := [FromTemporalPayload, EnumFrom, DataFrom, NewInstance]

  predicate Applies(c: ClassInfo, s: Strategy) {
    match s
    case FromTemporalPayload => c.isTemporalSerializable
    case EnumFrom => c.isEnum
    case DataFrom => c.isBaseData
    case NewInstance => true
  }

  /** Calls the factory a strategy names. */
  function ConstructVia(c: ClassInfo, s: Strategy, data: Json): Result<Value, Throwable> {
    match s
    case FromTemporalPayload => c.fromTemporalPayload(data)
    case EnumFrom => c.from(data)
    case DataFrom => c.from(data)
    case NewInstance => c.newInstance(data)
  }

  /** The throwable of new ReflectionClass() for a class it cannot load. */
  function ReflectionError(name: string): Throwable {
    Throwable("ReflectionException", "Class \"" + name + "\" does not exist", -1, None)
  }

  /** The reflection-driven part of fromPayload, inside its second try: an
      unknown class throws, a known one is rebuilt by the first strategy,
      in priority order, that the class admits. */
  function Reconstruct(classes: map<string, ClassInfo>, name: string, data: Json): (r: Result<Value, Throwable>)
    ensures name !in classes ==> r == Err(ReflectionError(name))
    ensures name in classes ==>
      var k := FirstMatch(DecodePriority, s => Applies(classes[name], s));
      k < |DecodePriority| && r == ConstructVia(classes[name], DecodePriority[k], data)
  {
    if name !in classes then Err(ReflectionError(name))
    else
      var c := classes[name];
      if Applies(c, FromTemporalPayload) then ConstructVia(c, FromTemporalPayload, data)
      else if Applies(c, EnumFrom) then ConstructVia(c, EnumFrom, data)
      else if Applies(c, DataFrom) then ConstructVia(c, DataFrom, data)
      else ConstructVia(c, NewInstance, data)
  }

  /** DataConverterException built from a throwable: same message and code,
      with the throwable as its previous one. */
  function WrapDecodeError(e: Throwable): Throwable {
    Throwable(DataConverterExceptionClass, e.message, e.code, Some(e))
  }

  /** fromPayload. Every error it raises is either the wrapped decode error
      or the parent converter's own: no reconstruction error escapes. */
  function FromPayload(env: Collaborators, p: Payload, t: TypeDesc): (r: Result<Value, Throwable>)
    ensures r.Err? ==>
      (t.isClass && env.jsonDecode(p.data).Err? && r.error == WrapDecodeError(env.jsonDecode(p.data).error))
      || r == env.parentFromPayload(p, t)
  {
    if !t.isClass then env.parentFromPayload(p, t)
    else match env.jsonDecode(p.data)
      case Err(e) => Err(WrapDecodeError(e))
      case Ok(data) =>
        match Reconstruct(env.classes, t.name, data)
        case Ok(v) => Ok(v)
        case Err(_) => env.parentFromPayload(p, t)
  }

  /** A non-class type goes to the parent converter as it is: the result is
      the parent's and does not depend on JSON decoding or reflection. */
  lemma NonClassGoesToParent(env: Collaborators, p: Payload, t: TypeDesc,
                             decode: string -> Result<Json, Throwable>, classes: map<string, ClassInfo>)
    requires !t.isClass
    ensures FromPayload(env, p, t) == env.parentFromPayload(p, t)
    ensures FromPayload(env.(jsonDecode := decode, classes := classes), p, t) == FromPayload(env, p, t)
  {
  }

  /** A JSON decode failure for a class type is raised as a
      DataConverterException with the same message and code that carries
      the original; neither reflection nor the parent can change that. */
  lemma DecodeErrorIsRaised(env: Collaborators, p: Payload, t: TypeDesc)
    requires t.isClass && env.jsonDecode(p.data).Err?
    ensures FromPayload(env, p, t).Err?
    ensures FromPayload(env, p, t).error.className == DataConverterExceptionClass
    ensures FromPayload(env, p, t).error.message == env.jsonDecode(p.data).error.message
    ensures FromPayload(env, p, t).error.code == env.jsonDecode(p.data).error.code
    ensures FromPayload(env, p, t).error.previous == Some(env.jsonDecode(p.data).error)
  {
  }

  /** For a class type whose data decodes, a successful reconstruction is
      the result and a throwing one falls back to the parent converter:
      no reconstruction error escapes. */
  lemma ReconstructionOrFallback(env: Collaborators, p: Payload, t: TypeDesc)
    requires t.isClass && env.jsonDecode(p.data).Ok?
    ensures Reconstruct(env.classes, t.name, env.jsonDecode(p.data).value).Ok? ==>
      FromPayload(env, p, t) == Reconstruct(env.classes, t.name, env.jsonDecode(p.data).value)
    ensures Reconstruct(env.classes, t.name, env.jsonDecode(p.data).value).Err? ==>
      FromPayload(env, p, t) == env.parentFromPayload(p, t)
    ensures t.name !in env.classes ==> FromPayload(env, p, t) == env.parentFromPayload(p, t)
  {
  }

  /** Round trip through the custom hook: when json_decode inverts
      json_encode on the hook's JSON and the class's fromTemporalPayload
      rebuilds the value from it, decoding the encoded value gives it back. */
  lemma TemporalRoundTrip(env: Collaborators, v: Value, s: string)
    requires v.Instance? && v.caps.temporalPayload.Some?
    requires env.jsonEncode(v.caps.temporalPayload.value) == Ok(s)
    requires env.jsonDecode(s) == Ok(v.caps.temporalPayload.value)
    requires v.className in env.classes && env.classes[v.className].isTemporalSerializable
    requires env.classes[v.className].fromTemporalPayload(v.caps.temporalPayload.value) == Ok(v)
    ensures ToPayload(env, v) == Ok(Create(s))
    ensures FromPayload(env, Create(s), TypeDesc(v.className, true)) == Ok(v)
  {
  }

  /** Round trip through a backed enum: when json_decode inverts json_encode
      on the backing scalar and the enum's from() maps it back to the case,
      decoding the encoded case gives it back. */
  lemma BackedEnumRoundTrip(env: Collaborators, v: Value, s: string)
    requires v.Instance? && v.caps.temporalPayload.None? && v.caps.backing.Some?
    requires env.jsonEncode(BackingJson(v.caps.backing.value)) == Ok(s)
    requires env.jsonDecode(s) == Ok(BackingJson(v.caps.backing.value))
    requires v.className in env.classes
    requires !env.classes[v.className].isTemporalSerializable && env.classes[v.className].isEnum
    requires env.classes[v.className].from(BackingJson(v.caps.backing.value)) == Ok(v)
    ensures ToPayload(env, v) == Ok(Create(s))
    ensures FromPayload(env, Create(s), TypeDesc(v.className, true)) == Ok(v)
  {
  }

  /** Round trip of a data object, which is Jsonable and BaseData: encoded
      from its toJson() text, decoded by the class's from(). */
  lemma JsonableDataRoundTrip(env: Collaborators, v: Value, j: Json)
    requires v.Instance? && v.caps.temporalPayload.None? && v.caps.backing.None? && v.caps.jsonText.Some?
    requires env.jsonDecode(v.caps.jsonText.value) == Ok(j)
    requires v.className in env.classes
    requires env.classes[v.className].isBaseData
    requires !env.classes[v.className].isTemporalSerializable && !env.classes[v.className].isEnum
    requires env.classes[v.className].from(j) == Ok(v)
    ensures ToPayload(env, v) == Ok(Create(v.caps.jsonText.value))
    ensures FromPayload(env, ToPayload(env, v).value, TypeDesc(v.className, true)) == Ok(v)
  {
  }

  /** Round trip of a JsonSerializable object of a plain class: encoded from
      jsonSerialize(), decoded by passing the data to the constructor. */
  lemma JsonSerializableRoundTrip(env: Collaborators, v: Value, s: string)
    requires v.Instance? && v.caps.temporalPayload.None? && v.caps.backing.None?
    requires v.caps.jsonText.None? && v.caps.serialized.Some?
    requires env.jsonEncode(v.caps.serialized.value) == Ok(s)
    requires env.jsonDecode(s) == Ok(v.caps.serialized.value)
    requires v.className in env.classes
    requires var c := env.classes[v.className]; !c.isTemporalSerializable && !c.isEnum && !c.isBaseData
    requires env.classes[v.className].newInstance(v.caps.serialized.value) == Ok(v)
    ensures ToPayload(env, v) == Ok(Create(s))
    ensures FromPayload(env, Create(s), TypeDesc(v.className, true)) == Ok(v)
  {
  }

  /** Round trip of an Arrayable object of a plain class: encoded from
      toArray(), decoded by passing the data to the constructor. */
  lemma ArrayableRoundTrip(env: Collaborators, v: Value, s: string)
    requires v.Instance? && v.caps.temporalPayload.None? && v.caps.backing.None?
    requires v.caps.jsonText.None? && v.caps.serialized.None? && v.caps.arrayForm.Some?
    requires env.jsonEncode(v.caps.arrayForm.value) == Ok(s)
    requires env.jsonDecode(s) == Ok(v.caps.arrayForm.value)
    requires v.className in env.classes
    requires var c := env.classes[v.className]; !c.isTemporalSerializable && !c.isEnum && !c.isBaseData
    requires env.classes[v.className].newInstance(v.caps.arrayForm.value) == Ok(v)
    ensures ToPayload(env, v) == Ok(Create(s))
    ensures FromPayload(env, Create(s), TypeDesc(v.className, true)) == Ok(v)
  {
  }

  /** Round trip of a value with none of the capabilities, requested as a
      non-class type: both directions are the parent converter's, so the
      value comes back exactly when the parent's own decoding gives it back. */
  lemma ParentRoundTrip(env: Collaborators, v: Value, p: Payload, t: TypeDesc)
    requires forall c :: !Has(v, c)
    requires !t.isClass
    requires env.parentToPayload(v) == Ok(p)
    ensures ToPayload(env, v) == Ok(p)
    ensures FromPayload(env, p, t) == Ok(v) <==> env.parentFromPayload(p, t) == Ok(v)
  {
  }

  /** An object with none of the capabilities, requested as its own class:
      the parent encodes it, but decoding first hands the decoded data to the
      constructor and reaches the parent only when that throws. */
  lemma ObjectParentRoundTrip(env: Collaborators, v: Value, p: Payload, j: Json)
    requires v.Instance? && forall c :: !Has(v, c)
    requires env.parentToPayload(v) == Ok(p)
    requires env.jsonDecode(p.data) == Ok(j)
    requires v.className in env.classes
    requires var c := env.classes[v.className]; !c.isTemporalSerializable && !c.isEnum && !c.isBaseData
    ensures ToPayload(env, v) == Ok(p)
    ensures var n := env.classes[v.className].newInstance(j);
      FromPayload(env, ToPayload(env, v).value, TypeDesc(v.className, true))
        == if n.Ok? then n else env.parentFromPayload(p, TypeDesc(v.className, true))
  {
  }
}
