/** Inference of a strict JSON Schema (draft 2020-12) from an example template: every leaf's
    type is taken from the template's value, arrays are described by their first element,
    and objects must have exactly the template's keys. */
module TemplateSchema {
  import opened Wrappers

  /** A JSON document as Python holds it after parsing: objects keep their key order. */
  datatype Json =
    | JNull
    | JBool(b: bool)
    | JInt(i: int)
    | JFloat(f: real)
    | JStr(s: string)
    | JArray(elems: seq<Json>)
    | JObject(fields: seq<Field>)

  datatype Field = Field(key: string, value: Json)

  const SchemaDialect := "https://json-schema.org/draft/2020-12/schema"

  function Keys(fields: seq<Field>): (r: seq<string>)
    ensures |r| == |fields| && forall i | 0 <= i < |fields| :: r[i] == fields[i].key
  {
    seq(|fields|, i requires 0 <= i < |fields| => fields[i].key)
  }

  /** The value under `key` (the first such field), or None. */
  function Get(fields: seq<Field>, key: string): (r: Option<Json>)
    ensures r.None? <==> key !in Keys(fields)
  {
    if fields == [] then None
    else if fields[0].key == key then Some(fields[0].value)
    else
      assert Keys(fields) == [fields[0].key] + Keys(fields[1..]);
      Get(fields[1..], key)
  }

  lemma {:induction false} GetDistinct(fields: seq<Field>, i: nat)
    requires i < |fields|
    requires forall a, b | 0 <= a < b < |fields| :: fields[a].key != fields[b].key
    ensures Get(fields, fields[i].key) == Some(fields[i].value)
  {
    if i > 0 {
      GetDistinct(fields[1..], i - 1);
      assert fields[1..][i - 1] == fields[i];
    }
  }

  function TypeOnly(t: string): Json {
    JObject([Field("type", JStr(t))])
  }

  /** `infer`: the schema of one template node. Null accepts anything; booleans are tested
      before integers (a Python bool is also an int). */
  function Infer(node: Json): (r: Json)
    ensures r.JObject?
    decreases node
  {
    match node
    case JNull => JObject([])
    case JBool(_) => TypeOnly("boolean")
    case JInt(_) => TypeOnly("integer")
    case JFloat(_) => TypeOnly("number")
    case JStr(_) => TypeOnly("string")
    case JArray(elems) =>
      JObject([Field("type", JStr("array")),
               Field("items", if |elems| >= 1 then Infer(elems[0]) else JObject([]))])
    case JObject(fields) =>
      JObject([Field("type", JStr("object")),
               Field("properties", JObject(seq(|fields|, i requires 0 <= i < |fields| =>
                                                 Field(fields[i].key, Infer(fields[i].value))))),
               Field("required", JArray(Required(fields))),
               Field("additionalProperties", JBool(false))])
  }

  /** The `required` list: every key, in template order. */
  function Required(fields: seq<Field>): (r: seq<Json>)
    ensures |r| == |fields| && forall i | 0 <= i < |fields| :: r[i] == JStr(fields[i].key)
  {
    seq(|fields|, i requires 0 <= i < |fields| => JStr(fields[i].key))
  }

  /** The property schemas of an object template: one per key, in template order. */
  function Properties(fields: seq<Field>): (r: seq<Field>)
    ensures |r| == |fields|
    ensures forall i | 0 <= i < |fields| :: r[i] == Field(fields[i].key, Infer(fields[i].value))
  {
    match Infer(JObject(fields))
    case JObject(s) => s[1].value.fields
    case _ => []
  }

  /** The four keywords of an object template's schema. */
  lemma ObjectSchemaKeywords(fields: seq<Field>)
    ensures var s := Infer(JObject(fields)).fields;
      && Get(s, "type") == Some(JStr("object"))
      && Get(s, "properties") == Some(JObject(Properties(fields)))
      && Get(s, "required") == Some(JArray(Required(fields)))
      && Get(s, "additionalProperties") == Some(JBool(false))
      && Keys(Properties(fields)) == Keys(fields)
  {
    var s := Infer(JObject(fields)).fields;
    assert s[0].key == "type" && s[1].key == "properties" && s[2].key == "required" && s[3].key == "additionalProperties";
    assert s[1..][1..] == s[2..] && s[2..][1..] == s[3..];
    assert Get(s, "properties") == Get(s[1..], "properties");
    assert Get(s, "required") == Get(s[1..], "required") == Get(s[2..], "required");
    assert Get(s, "additionalProperties") == Get(s[1..], "additionalProperties") == Get(s[2..], "additionalProperties")
      == Get(s[3..], "additionalProperties");
  }

  /** `template_to_json_schema`: the inferred schema with the dialect declared first. The
      template is a value here, so it cannot be changed by the inference. */
  function TemplateToJsonSchema(template: Json): (r: Json)
    ensures r.JObject? && |r.fields| >= 1 && r.fields[0] == Field("$schema", JStr(SchemaDialect))
    ensures r.fields[1..] == Infer(template).fields
  {
    JObject([Field("$schema", JStr(SchemaDialect))] + Infer(template).fields)
  }

  // ----- What a schema accepts -----

  /** A float with no fractional part, such as 70.0. */
  predicate IsIntegral(f: real) {
    f == f.Floor as real
  }

  /** The `type` keyword. From draft 6 on, "integer" also matches a number whose fractional
      part is zero, whether it was written as 70 or as 70.0. */
  predicate HasType(v: Json, t: string) {
    match t
    case "null" => v.JNull?
    case "boolean" => v.JBool?
    case "integer" => v.JInt? || (v.JFloat? && IsIntegral(v.f))
    case "number" => v.JInt? || v.JFloat?
    case "string" => v.JStr?
    case "array" => v.JArray?
    case "object" => v.JObject?
    case _ => false
  }

  /** Whether `v` is valid against `schema`, for the keywords the inferred schemas use:
      `type`, `items`, `properties`, `required` and `additionalProperties: false`. */
  predicate Conforms(v: Json, schema: Json)
    decreases v, 1
  {
    schema.JObject? && TypeOk(v, schema.fields) && ItemsOk(v, schema.fields) && PropertiesOk(v, schema.fields)
    && RequiredOk(v, schema.fields) && StrictOk(v, schema.fields)
  }

  predicate TypeOk(v: Json, s: seq<Field>) {
    Get(s, "type").Some? && Get(s, "type").value.JStr? ==> HasType(v, Get(s, "type").value.s)
  }

  /** `items`: every element of an array is valid against the item schema. */
  predicate ItemsOk(v: Json, s: seq<Field>)
    decreases v, 0
  {
    v.JArray? && Get(s, "items").Some? ==>
      forall i | 0 <= i < |v.elems| :: Conforms(v.elems[i], Get(s, "items").value)
  }

  /** `properties`: every field of an object that has a property schema is valid against it. */
  predicate PropertiesOk(v: Json, s: seq<Field>)
    decreases v, 0
  {
    v.JObject? && Get(s, "properties").Some? && Get(s, "properties").value.JObject? ==>
      forall i | 0 <= i < |v.fields| ::
        Get(Get(s, "properties").value.fields, v.fields[i].key).Some? ==>
          Conforms(v.fields[i].value, Get(Get(s, "properties").value.fields, v.fields[i].key).value)
  }

  /** `required`: every listed key is present. */
  predicate RequiredOk(v: Json, s: seq<Field>) {
    v.JObject? && Get(s, "required").Some? && Get(s, "required").value.JArray? ==>
      forall k | k in Get(s, "required").value.elems :: k.JStr? ==> k.s in Keys(v.fields)
  }

  /** `additionalProperties: false`: every key of an object has a property schema. */
  predicate StrictOk(v: Json, s: seq<Field>) {
    v.JObject? && Get(s, "additionalProperties") == Some(JBool(false)) ==>
      Get(s, "properties").Some? && Get(s, "properties").value.JObject? &&
      forall i | 0 <= i < |v.fields| :: v.fields[i].key in Keys(Get(s, "properties").value.fields)
  }

  /** Every object in the document has pairwise distinct keys (what a JSON parser produces). */
  predicate DistinctKeys(v: Json)
    decreases v
  {
    match v
    case JArray(elems) => forall i | 0 <= i < |elems| :: DistinctKeys(elems[i])
    case JObject(fields) =>
      (forall a, b | 0 <= a < b < |fields| :: fields[a].key != fields[b].key) &&
      forall i | 0 <= i < |fields| :: DistinctKeys(fields[i].value)
    case _ => true
  }

  /** Every array's elements are all valid against the schema of its first element. */
  predicate UniformArrays(v: Json)
    decreases v
  {
    match v
    case JArray(elems) =>
      forall i | 0 <= i < |elems| :: UniformArrays(elems[i]) && Conforms(elems[i], Infer(elems[0]))
    case JObject(fields) => forall i | 0 <= i < |fields| :: UniformArrays(fields[i].value)
    case _ => true
  }

  /** The null schema `{}` accepts every document. */
  lemma NullAcceptsAnything(v: Json)
    ensures Conforms(v, Infer(JNull))
  {
  }

  /** A template is valid against its own schema, as long as each of its arrays is described by
      its first element. */
  lemma {:induction false} TemplateConformsToOwnSchema(t: Json)
    requires DistinctKeys(t) && UniformArrays(t)
    ensures Conforms(t, Infer(t))
    decreases t
  {
    match t
    case JArray(elems) =>
      var sch := Infer(t).fields;
      assert Get(sch, "items") == Get(sch[1..], "items") == Some(sch[1].value);
      assert ItemsOk(t, sch);
    case JObject(fields) =>
      forall i | 0 <= i < |fields| ensures Conforms(fields[i].value, Infer(fields[i].value)) {
        TemplateConformsToOwnSchema(fields[i].value);
      }
      ObjectConformsToOwnSchema(fields);
    case _ =>
  }

  /** The object step: an object whose field values are valid against their own schemas, and
      whose keys are distinct, is valid against its own schema. */
  lemma ObjectConformsToOwnSchema(fields: seq<Field>)
    requires forall a, b | 0 <= a < b < |fields| :: fields[a].key != fields[b].key
    requires forall i | 0 <= i < |fields| :: Conforms(fields[i].value, Infer(fields[i].value))
    ensures Conforms(JObject(fields), Infer(JObject(fields)))
  {
    var t := JObject(fields);
    var props := Properties(fields);
    var sch := Infer(t).fields;
    ObjectSchemaKeywords(fields);
    forall i | 0 <= i < |fields| ensures Get(props, fields[i].key) == Some(Infer(fields[i].value)) {
      GetDistinct(props, i);
    }
    assert PropertiesOk(t, sch);
    forall k | k in Required(fields) ensures k.JStr? && k.s in Keys(fields) {
      var i :| 0 <= i < |fields| && Required(fields)[i] == k;
      assert Keys(fields)[i] == fields[i].key;
    }
    assert RequiredOk(t, sch);
    assert StrictOk(t, sch);
  }

  /** Strictness: an object with a key the template does not have is rejected. */
  lemma UnknownKeyRejected(fields: seq<Field>, v: Json, j: nat)
    requires v.JObject? && j < |v.fields| && v.fields[j].key !in Keys(fields)
    ensures !Conforms(v, Infer(JObject(fields)))
  {
    ObjectSchemaKeywords(fields);
  }

  /** Every key of the template is required: an object missing one is rejected. */
  lemma MissingKeyRejected(fields: seq<Field>, v: Json, j: nat)
    requires v.JObject? && j < |fields| && fields[j].key !in Keys(v.fields)
    ensures !Conforms(v, Infer(JObject(fields)))
  {
    ObjectSchemaKeywords(fields);
    assert Required(fields)[j] in Required(fields);
  }

  /** A value of the wrong kind for a leaf is rejected; in particular a boolean is not an
      integer, a fractional float is not an integer and a string is not a number. */
  lemma LeafTypeEnforced(t: Json, v: Json)
    requires t.JBool? || t.JInt? || t.JFloat? || t.JStr?
    requires !(t.JBool? ==> v.JBool?) || !(t.JInt? ==> v.JInt? || (v.JFloat? && IsIntegral(v.f)))
      || !(t.JFloat? ==> v.JInt? || v.JFloat?) || !(t.JStr? ==> v.JStr?)
    ensures !Conforms(v, Infer(t))
  {
    assert Get(Infer(t).fields, "type") == Some(Infer(t).fields[0].value);
  }

  /** A leaf accepts exactly the values of its kind: an integer leaf takes an integer or an
      integral float, a float leaf any number, and the others their own kind. */
  lemma LeafTypeAccepted(t: Json, v: Json)
    requires t.JBool? || t.JInt? || t.JFloat? || t.JStr?
    requires (t.JBool? ==> v.JBool?) && (t.JInt? ==> v.JInt? || (v.JFloat? && IsIntegral(v.f)))
      && (t.JFloat? ==> v.JInt? || v.JFloat?) && (t.JStr? ==> v.JStr?)
    ensures Conforms(v, Infer(t))
  {
    assert Get(Infer(t).fields, "type") == Some(Infer(t).fields[0].value);
  }

  /** A field templated as 0 accepts a reply of 70.0 ... */
  lemma IntegralFloatFitsIntegerField()
    ensures Conforms(JObject([Field("age", JFloat(70.0))]), Infer(JObject([Field("age", JInt(0))])))
  {
    var v := JObject([Field("age", JFloat(70.0))]);
    var t := JObject([Field("age", JInt(0))]);
    assert Conforms(JFloat(70.0), Infer(JInt(0))) by {
      assert 70.0 == (70.0).Floor as real;
      LeafTypeAccepted(JInt(0), JFloat(70.0));
    }
    ObjectSchemaKeywords(t.fields);
    GetDistinct(Properties(t.fields), 0);
    assert PropertiesOk(v, Infer(t).fields);
    assert RequiredOk(v, Infer(t).fields) by {
      assert Keys(v.fields) == ["age"];
    }
    assert StrictOk(v, Infer(t).fields) by {
      assert Keys(Properties(t.fields)) == ["age"];
    }
  }

  /** ... but not 72.5: a template value of 0 gives an "integer" schema, not a "number" one. */
  lemma FractionRejectedForZeroTemplate()
    ensures Infer(JInt(0)) == TypeOnly("integer")
    ensures !Conforms(JFloat(72.5), Infer(JInt(0)))
  {
    assert (72.5).Floor == 72;
    LeafTypeEnforced(JInt(0), JFloat(72.5));
  }

  /** An array's schema depends on its first element only: later elements are ignored. */
  lemma ArraySchemaFromFirstElement(first: Json, rest: seq<Json>)
    ensures Infer(JArray([first] + rest)) == Infer(JArray([first]))
  {
    assert ([first] + rest)[0] == first;
  }

  /** An empty array in the template leaves its items unconstrained: any array is accepted. */
  lemma EmptyArrayAcceptsAnyItems(elems: seq<Json>)
    ensures Infer(JArray([])) == JObject([Field("type", JStr("array")), Field("items", JObject([]))])
    ensures Conforms(JArray(elems), Infer(JArray([])))
  {
    forall i | 0 <= i < |elems| ensures Conforms(elems[i], JObject([])) {
      NullAcceptsAnything(elems[i]);
    }
  }

  /** So a template whose array mixes kinds is not valid against its own schema. */
  lemma MixedArrayRejectsItself()
    ensures !Conforms(JArray([JInt(1), JStr("a")]), Infer(JArray([JInt(1), JStr("a")])))
  {
    var t := JArray([JInt(1), JStr("a")]);
    var s := Infer(t).fields;
    assert Get(s, "items") == Some(TypeOnly("integer"));
    assert Get(TypeOnly("integer").fields, "type") == Some(JStr("integer"));
    assert t.elems[1] == JStr("a");
    assert !Conforms(JStr("a"), TypeOnly("integer"));
  }
}
