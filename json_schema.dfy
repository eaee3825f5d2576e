/** A small JSON document model and the subset of JSON Schema the operation
    configuration uses: `type`, `properties`, `items`, `additionalProperties`
    and `required`. */
module JsonSchema {
  import opened Wrappers

  datatype Json =
    | JNull
    | JBool(b: bool)
    | JNumber(n: int)
    | JString(str: string)
    | JArray(elements: seq<Json>)
    | JObject(members: map<string, Json>)

  /** The values of the schema keyword `type` that occur here. JSON Schema's
      `object` excludes arrays and `null`. */
  datatype JsonType = ObjectType | ArrayType | StringType

  /** One schema node. `properties` constrains the named members when they are
      present; `additionalProperties` constrains every other member; `items`
      constrains every array element; `required` lists members that must be
      present. */
  datatype Schema = Schema(
    kind: JsonType,
    properties: map<string, Schema>,
    items: Option<Schema>,
    additionalProperties: Option<Schema>,
    required: seq<string>)

  predicate HasType(j: Json, t: JsonType) {
    match t
    case ObjectType => j.JObject?
    case ArrayType => j.JArray?
    case StringType => j.JString?
  }

  /** Whether document `j` satisfies schema `s`. */
  predicate Validates(j: Json, s: Schema)
    decreases j
  {
    && HasType(j, s.kind)
    && (j.JObject? ==>
          && (forall i | 0 <= i < |s.required| :: s.required[i] in j.members)
          && (forall k | k in j.members ::
                if k in s.properties then Validates(j.members[k], s.properties[k])
                else s.additionalProperties.Some? ==> Validates(j.members[k], s.additionalProperties.value)))
    && (j.JArray? && s.items.Some? ==>
          forall i | 0 <= i < |j.elements| :: Validates(j.elements[i], s.items.value))
  }
}
