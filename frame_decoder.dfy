/**
 * `resolveRawEvent`: one inbound frame's text to a raw event. The JSON
 * library and the event registry are not modelled; they are the parameters
 * bundled in `Codec`.
 */
module FrameDecoder {
  import opened Wrappers
  import opened Json
  import opened RawEvents

  /** A serializer handle returned by the event registry. */
  type SerializerId = nat

  /** The collaborators the decoder calls into. */
  datatype Codec = Codec(
    /** `DefaultJson.decodeFromString(JsonObject.serializer(), text)`; None when the text is not a JSON object */
    parseObject: string -> Option<JsonObject>,
    /** `JsonPrimitive.long` applied to a primitive's content; None when it throws */
    toLong: string -> Option<int>,
    /** `resolveEventSubTypeFieldName(postType)` */
    subTypeFieldName: string -> Option<string>,
    /** `resolveEventSerializer(postType, subType)` */
    serializerFor: (string, string) -> Option<SerializerId>,
    /** `DefaultJson.decodeFromJsonElement(serializer, obj)`; None when it throws */
    decodeTyped: (SerializerId, JsonObject) -> Option<RawEvent>,
    /** `ByteArray.decodeToString()` for binary frames */
    decodeUtf8: seq<bv8> -> string)

  /** What the decoder throws; every one of them is fatal to the session. */
  datatype DecodeError =
    | MalformedJson
    | MissingPostType
    | NotAPrimitive(field: string)
    | NotALong(field: string)
    | SchemaMismatch(postType: string, subType: string)

  const POST_TYPE_FIELD := "post_type"
  const TIME_FIELD := "time"
  const SELF_ID_FIELD := "self_id"

  /** Defaults of the unknown-event fallback for absent fields. */
  const DEFAULT_TIME := -1
  const DEFAULT_SELF_ID := 0

  function ParseObject(codec: Codec, text: string): Result<JsonObject, DecodeError> {
    match codec.parseObject(text)
    case None => Failure(MalformedJson)
    case Some(obj) => Success(obj)
  }

  /** `obj[field]?.jsonPrimitive?.content`: absent is None, an object or array throws. */
  function PrimitiveField(obj: JsonObject, field: string): (r: Result<Option<string>, DecodeError>)
    ensures field !in obj ==> r == Success(None)
    ensures r.Success? && r.value.Some? ==> field in obj && IsPrimitive(obj[field]) && r.value.value == Content(obj[field])
    ensures field in obj && IsPrimitive(obj[field]) ==> r == Success(Some(Content(obj[field])))
    ensures r.Failure? <==> field in obj && !IsPrimitive(obj[field])
  {
    if field !in obj then Success(None)
    else if IsPrimitive(obj[field]) then Success(Some(Content(obj[field])))
    else Failure(NotAPrimitive(field))
  }

  /** `obj[field]?.jsonPrimitive?.long ?: default`: the default covers only an absent field. */
  function LongFieldOr(codec: Codec, obj: JsonObject, field: string, default: int): (r: Result<int, DecodeError>)
    ensures field !in obj ==> r == Success(default)
    ensures field in obj && r.Success? ==> IsPrimitive(obj[field]) && codec.toLong(Content(obj[field])) == Some(r.value)
    ensures field in obj && IsPrimitive(obj[field]) && codec.toLong(Content(obj[field])).Some? ==>
              r == Success(codec.toLong(Content(obj[field])).value)
    ensures field in obj && IsPrimitive(obj[field]) && codec.toLong(Content(obj[field])).None? ==> r == Failure(NotALong(field))
    ensures field in obj && !IsPrimitive(obj[field]) ==> r == Failure(NotAPrimitive(field))
  {
    var content :- PrimitiveField(obj, field);
    match content
    case None => Success(default)
    case Some(c) =>
      match codec.toLong(c)
      case None => Failure(NotALong(field))
      case Some(n) => Success(n)
  }

  /** The name of the field holding the subtype: the registered override, else "<post_type>_type". */
  function SubTypeFieldName(codec: Codec, postType: string): (name: string)
    ensures codec.subTypeFieldName(postType).Some? ==> name == codec.subTypeFieldName(postType).value
    ensures codec.subTypeFieldName(postType).None? ==> name == postType + "_type"
  {
    match codec.subTypeFieldName(postType)
    case Some(n) => n
    case None => postType + "_type"
  }

  /** Whether `field` is absent, or holds a primitive whose content parses as a long. */
  predicate AbsentOrLong(codec: Codec, obj: JsonObject, field: string) {
    field !in obj || (IsPrimitive(obj[field]) && codec.toLong(Content(obj[field])).Some?)
  }

  /** The local `toUnknown`: an unknown event built loosely from `time` and `self_id`. */
  function ToUnknown(codec: Codec, obj: JsonObject, postType: string, text: string): (r: Result<RawEvent, DecodeError>)
    // it fails exactly when `time` or `self_id` is present but not a long
    ensures r.Success? <==> AbsentOrLong(codec, obj, TIME_FIELD) && AbsentOrLong(codec, obj, SELF_ID_FIELD)
    ensures r.Success? ==> r.value.UnknownEvent? && r.value.postType == postType && r.value.raw == text
    // each field is its parsed long when present and its default when absent
    ensures r.Success? && TIME_FIELD !in obj ==> r.value.time == DEFAULT_TIME
    ensures r.Success? && TIME_FIELD in obj ==> Some(r.value.time) == codec.toLong(Content(obj[TIME_FIELD]))
    ensures r.Success? && SELF_ID_FIELD !in obj ==> r.value.selfId == DEFAULT_SELF_ID
    ensures r.Success? && SELF_ID_FIELD in obj ==> Some(r.value.selfId) == codec.toLong(Content(obj[SELF_ID_FIELD]))
  {
    var time :- LongFieldOr(codec, obj, TIME_FIELD, DEFAULT_TIME);
    var selfId :- LongFieldOr(codec, obj, SELF_ID_FIELD, DEFAULT_SELF_ID);
    Success(UnknownEvent(time, selfId, postType, text))
  }

  /**
   * Whether a parsed object with post type `postType` takes the unknown-event
   * fallback: its subtype field is absent, or holds a primitive for which no
   * serializer is registered.
   */
  predicate TakesFallback(codec: Codec, obj: JsonObject, postType: string) {
    var field := SubTypeFieldName(codec, postType);
    field !in obj || (IsPrimitive(obj[field]) && codec.serializerFor(postType, Content(obj[field])).None?)
  }

  /** Whether the text parses to an object whose `post_type` is a primitive. */
  predicate HasPostType(codec: Codec, text: string) {
    && codec.parseObject(text).Some?
    && POST_TYPE_FIELD in codec.parseObject(text).value
    && IsPrimitive(codec.parseObject(text).value[POST_TYPE_FIELD])
  }

  function PostTypeOf(codec: Codec, text: string): string
    requires HasPostType(codec, text)
  {
    Content(codec.parseObject(text).value[POST_TYPE_FIELD])
  }

  /** The serializer registered for the frame's (post type, subtype) pair, when the subtype is a present primitive. */
  function SerializerOf(codec: Codec, text: string): Option<SerializerId>
    requires HasPostType(codec, text)
  {
    var obj := codec.parseObject(text).value;
    var postType := PostTypeOf(codec, text);
    var field := SubTypeFieldName(codec, postType);
    if field in obj && IsPrimitive(obj[field]) then codec.serializerFor(postType, Content(obj[field])) else None
  }

  /** `resolveRawEvent`. */
  function ResolveRawEvent(codec: Codec, text: string): (r: Result<RawEvent, DecodeError>)
    // malformed JSON and a missing `post_type` are failures, and only a frame with a primitive `post_type` succeeds
    ensures codec.parseObject(text).None? ==> r == Failure(MalformedJson)
    ensures codec.parseObject(text).Some? && POST_TYPE_FIELD !in codec.parseObject(text).value ==> r == Failure(MissingPostType)
    ensures r.Success? ==> HasPostType(codec, text)
    // an absent or unregistered subtype gives the unknown-event fallback
    ensures HasPostType(codec, text) && TakesFallback(codec, codec.parseObject(text).value, PostTypeOf(codec, text)) ==>
              r == ToUnknown(codec, codec.parseObject(text).value, PostTypeOf(codec, text), text)
    // a subtype field holding an object or array is a failure
    ensures (HasPostType(codec, text) && !TakesFallback(codec, codec.parseObject(text).value, PostTypeOf(codec, text))
             && SerializerOf(codec, text).None?) ==> r.Failure?
    // otherwise the result is the typed decode of the whole object
    ensures HasPostType(codec, text) && SerializerOf(codec, text).Some? ==>
              var typed := codec.decodeTyped(SerializerOf(codec, text).value, codec.parseObject(text).value);
              (r.Success? <==> typed.Some?) && (r.Success? ==> typed == Some(r.value))
  {
    var obj :- ParseObject(codec, text);
    var postType :- PrimitiveField(obj, POST_TYPE_FIELD);
    if postType.None? then Failure(MissingPostType)
    else
      var subType :- PrimitiveField(obj, SubTypeFieldName(codec, postType.value));
      if subType.None? then ToUnknown(codec, obj, postType.value, text)
      else
        match codec.serializerFor(postType.value, subType.value)
        case None => ToUnknown(codec, obj, postType.value, text)
        case Some(serializer) =>
          match codec.decodeTyped(serializer, obj)
          case None => Failure(SchemaMismatch(postType.value, subType.value))
          case Some(event) => Success(event)
  }
}
