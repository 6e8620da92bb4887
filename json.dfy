/**
 * The part of a decoded JSON object the event decoder looks at: a map from
 * field name to element. Only primitives are inspected field by field;
 * nested objects and arrays are reached only through the typed decoder.
 */
module Json {

  /** A JSON element as kotlinx.serialization classifies it. */
  datatype JsonElement =
    | JsonPrimitive(text: string)  // a string, number or boolean literal, with its content
    | JsonNull                     // `null`, which is itself a primitive whose content is "null"
    | JsonStructured               // an object or an array

  type JsonObject = map<string, JsonElement>

  /** Whether `element.jsonPrimitive` succeeds (it throws on objects and arrays). */
  predicate IsPrimitive(element: JsonElement) {
    !element.JsonStructured?
  }

  /** `element.jsonPrimitive.content`. */
  function Content(element: JsonElement): (c: string)
    requires IsPrimitive(element)
    ensures element.JsonPrimitive? ==> c == element.text
    ensures element.JsonNull? ==> c == "null"
  {
    match element
    case JsonPrimitive(text) => text
    case JsonNull => "null"
  }
}
