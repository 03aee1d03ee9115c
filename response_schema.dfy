/** The response-schema vocabulary of the remote model (`ResponseSchema` and
    `SchemaType` of the Vertex AI client library) as a tagged union, and JSON
    values with what it means for one to conform to a schema. Only the node
    kinds the prompts use are present: OBJECT, ARRAY, STRING and NUMBER. */
module ResponseSchema {
  import opened Wrappers

  /** A schema node. Object properties keep the order in which they are written. */
  datatype Schema =
    | ObjectSchema(description: Option<string>, properties: seq<Property>)
    | ArraySchema(description: Option<string>, items: Schema)
    | StringSchema(description: Option<string>, nullable: Option<bool>)
    | NumberSchema(description: Option<string>)

  datatype Property = Property(name: string, schema: Schema)

  /** A JSON value. Numbers are integers in this model. */
  datatype Json =
    | JNull
    | JBool(b: bool)
    | JNumber(n: int)
    | JString(s: string)
    | JArray(elements: seq<Json>)
    | JObject(members: seq<Member>)

  datatype Member = Member(key: string, value: Json)

  /** The schema of the first property called `name`, if there is one. */
  function PropertyNamed(properties: seq<Property>, name: string): (r: Option<Schema>)
    ensures r.Some? <==> exists i :: 0 <= i < |properties| && properties[i].name == name
    ensures r.Some? ==> exists i :: 0 <= i < |properties| && properties[i] == Property(name, r.value)
  {
    if properties == [] then None
    else if properties[0].name == name then Some(properties[0].schema)
    else PropertyNamed(properties[1..], name)
  }

  /** A property is found by its name when no earlier property has that name. */
  lemma {:induction false} PropertyNamedAt(properties: seq<Property>, i: nat)
    requires i < |properties|
    requires forall j :: 0 <= j < i ==> properties[j].name != properties[i].name
    ensures PropertyNamed(properties, properties[i].name) == Some(properties[i].schema)
  {
    if i > 0 {
      assert properties[0].name != properties[i].name;
      PropertyNamedAt(properties[1..], i - 1);
    }
  }

  /** An object whose members match the first declared properties one for
      one, in order and under distinct names, conforms when each member
      conforms: properties may be left out at the end. */
  lemma ObjectConformsPointwise(description: Option<string>, properties: seq<Property>, members: seq<Member>)
    requires |members| <= |properties|
    requires forall i :: 0 <= i < |members| ==> members[i].key == properties[i].name
    requires forall i, j :: 0 <= j < i < |properties| ==> properties[j].name != properties[i].name
    requires forall i :: 0 <= i < |members| ==> Conforms(properties[i].schema, members[i].value)
    ensures Conforms(ObjectSchema(description, properties), JObject(members))
  {
    forall i | 0 <= i < |members|
      ensures PropertyNamed(properties, members[i].key) == Some(properties[i].schema)
    {
      PropertyNamedAt(properties, i);
    }
  }

  /** The property names, in order. */
  function PropertyNames(properties: seq<Property>): (names: seq<string>)
    ensures |names| == |properties|
    ensures forall i :: 0 <= i < |properties| ==> names[i] == properties[i].name
  {
    if properties == [] then [] else [properties[0].name] + PropertyNames(properties[1..])
  }

  /** A JSON value conforms to a schema when it has the node's kind, its array
      elements conform to the item schema, and every member of an object is a
      declared property whose schema it conforms to. Properties may be left out
      (none of the prompts lists any as required); `null` is allowed only where
      a node says `nullable: true`. */
  predicate Conforms(schema: Schema, json: Json)
    decreases json
  {
    match json
    case JNull => schema.StringSchema? && schema.nullable == Some(true)
    case JBool(_) => false
    case JNumber(_) => schema.NumberSchema?
    case JString(_) => schema.StringSchema?
    case JArray(elements) =>
      schema.ArraySchema? && forall i :: 0 <= i < |elements| ==> Conforms(schema.items, elements[i])
    case JObject(members) =>
      schema.ObjectSchema? &&
      forall i :: 0 <= i < |members| ==>
        var declared := PropertyNamed(schema.properties, members[i].key);
        declared.Some? && Conforms(declared.value, members[i].value)
  }
}
