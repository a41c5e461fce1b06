/** The validator for Tool arguments over a subset of JSON Schema (internal/tool/schema.go). */
module Schema {
  import opened Base
  import opened Json

  const KEYWORDS := {"type", "properties", "required", "additionalProperties", "items", "enum"}
  const PRIMITIVES := {"string", "number", "integer", "boolean", "null"}

  type Object = map<string, Json>

  // ---------- What the validator accepts ----------

  /** The keyword is absent or has the given shape. */
  predicate Fits(schema: Object, keyword: string, shape: Json -> bool) {
    keyword in schema ==> shape(schema[keyword])
  }

  /** The schema documents the validator supports. */
  ghost predicate Supported(schema: Json, root: bool)
    decreases schema, 1
  {
    && schema.Obj? && var s := schema.entries;
    && s.Keys <= {"type", "properties", "required", "additionalProperties", "items", "enum"}
    && "type" in s && s["type"].Str?
    && (root ==> s["type"].text == "object")
    && Fits(s, "enum", (e: Json) => e.Arr?)
    && match s["type"].text {
         case "object" => ObjectSupported(schema)
         case "array" => "items" in s && Supported(s["items"], false)
         case name => name in {"string", "number", "integer", "boolean", "null"}
       }
  }

  ghost predicate ObjectSupported(schema: Json)
    requires schema.Obj?
    decreases schema, 0
  {
    var s := schema.entries;
    && Fits(s, "properties", (p: Json) => p.Obj?)
    && ("properties" in s ==> forall name | name in s["properties"].entries ::
          Supported(s["properties"].entries[name], false))
    && Fits(s, "required", (r: Json) => r.Arr? && forall i | 0 <= i < |r.items| :: r.items[i].Str?)
    && Fits(s, "additionalProperties", (a: Json) => a == Bool(false))
  }

  predicate HasType(name: string, v: Json) {
    match name
    case "object" => v.Obj?
    case "array" => v.Arr?
    case "string" => v.Str?
    case "number" => v.Num?
    case "integer" => v.Num? && FitsInt64(v.number)
    case "boolean" => v.Bool?
    case "null" => v.Null?
    case _ => true
  }

  /** The values the validator accepts for a schema: equality with an enum choice is equality of
      text, and an integer is a plain decimal of 64 bits. */
  ghost predicate Conforms(schema: Json, v: Json)
    decreases schema, 1
  {
    && schema.Obj? && var s := schema.entries;
    && ("enum" in s && s["enum"].Arr? ==> v in s["enum"].items)
    && "type" in s && s["type"].Str? && HasType(s["type"].text, v)
    && (s["type"].text == "object" && v.Obj? ==> ObjectConforms(schema, v.entries))
    && (s["type"].text == "array" && v.Arr? && "items" in s ==>
          forall i | 0 <= i < |v.items| :: Conforms(s["items"], v.items[i]))
  }

  /** The declared properties of a schema; none when the keyword is absent. */
  function Properties(s: Object): Object {
    if "properties" in s && s["properties"].Obj? then s["properties"].entries else map[]
  }

  ghost predicate ObjectConforms(schema: Json, v: Object)
    requires schema.Obj?
    decreases schema, 0
  {
    var s := schema.entries;
    && RequiredPresent(s, v)
    && ("additionalProperties" in s && s["additionalProperties"] == Bool(false) ==> v.Keys <= Properties(s).Keys)
    && forall name | "properties" in s && s["properties"].Obj? && name in s["properties"].entries && name in v ::
         Conforms(s["properties"].entries[name], v[name])
  }

  predicate RequiredPresent(s: Object, v: Object) {
    "required" in s && s["required"].Arr? ==>
      forall i | 0 <= i < |s["required"].items| :: s["required"].items[i].Str? ==> s["required"].items[i].text in v
  }

  // ---------- What the standard accepts ----------

  /** JSON Schema 2020-12, Validation section 6.1.1: the types that an instance has. Every value has one, and a number
      whose mathematical value is an integer also that. */
  function StandardTypes(v: Json): set<string> {
    match v
    case Null => {"null"}
    case Bool(_) => {"boolean"}
    case Num(number) => if Integral(number) then {"number", "integer"} else {"number"}
    case Str(_) => {"string"}
    case Arr(_) => {"array"}
    case Obj(_) => {"object"}
  }

  /** Validity keyword by keyword. Each keyword looks only at instances of its own kind: enum is Validation
      section 6.1.2, required 6.5.3, items Core section 10.3.1.2, properties 10.3.2.1 and
      additionalProperties 10.3.2.3. */
  ghost predicate Valid(schema: Json, v: Json) {
    match schema
    case Bool(truth) => truth
    case Obj(s) =>
      && ("type" in s && s["type"].Str? ==> s["type"].text in StandardTypes(v))
      && ("enum" in s && s["enum"].Arr? ==> exists c :: c in s["enum"].items && Equal(c, v))
      && (v.Obj? && "required" in s && s["required"].Arr? ==>
            forall name | Str(name) in s["required"].items :: name in v.entries)
      && (v.Obj? && "properties" in s && s["properties"].Obj? ==>
            forall name | name in s["properties"].entries && name in v.entries ::
              Valid(s["properties"].entries[name], v.entries[name]))
      && (v.Obj? && "additionalProperties" in s ==>
            forall name | name in v.entries &&
              !("properties" in s && s["properties"].Obj? && name in s["properties"].entries) ::
              Valid(s["additionalProperties"], v.entries[name]))
      && (v.Arr? && "items" in s ==> forall i | 0 <= i < |v.items| :: Valid(s["items"], v.items[i]))
    case _ => false
  }

  // ---------- Soundness against the standard ----------

  lemma TypeSound(name: string, v: Json)
    requires HasType(name, v)
    requires name in {"object", "array", "string", "number", "integer", "boolean", "null"}
    ensures name in StandardTypes(v)
  {
  }

  /** Conversely, but for the written form of integers. */
  lemma TypeComplete(name: string, v: Json)
    requires name in StandardTypes(v) && (name == "integer" ==> v.Num? && FitsInt64(v.number))
    ensures HasType(name, v)
  {
  }

  /** The required names are there, said of positions and said of names. */
  lemma RequiredNames(s: Object, v: Object)
    ensures RequiredPresent(s, v) <==>
      ("required" in s && s["required"].Arr? ==> forall name | Str(name) in s["required"].items :: name in v)
  {
    if "required" in s && s["required"].Arr? {
      var items := s["required"].items;
      if RequiredPresent(s, v) {
        forall name | Str(name) in items ensures name in v {
          var i :| 0 <= i < |items| && items[i] == Str(name);
        }
      } else {
        var i :| 0 <= i < |items| && items[i].Str? && items[i].text !in v;
        assert Str(items[i].text) in items;
      }
    }
  }

  /** What the validator accepts is valid. */
  lemma {:induction false} ConformsIsValid(schema: Json, v: Json)
    requires Supported(schema, false) && Conforms(schema, v)
    ensures Valid(schema, v)
    decreases schema
  {
    var s := schema.entries;
    TypeSound(s["type"].text, v);
    if v.Obj? { RequiredNames(s, v.entries); }
    if "enum" in s { EqualReflexive(v); }
    if v.Obj? && s["type"].text == "object" {
      if "properties" in s {
        var p := s["properties"].entries;
        forall name | name in p && name in v.entries ensures Valid(p[name], v.entries[name]) {
          ConformsIsValid(p[name], v.entries[name]);
        }
      }
    }
    if v.Arr? && s["type"].text == "array" {
      forall i | 0 <= i < |v.items| ensures Valid(s["items"], v.items[i]) {
        ConformsIsValid(s["items"], v.items[i]);
      }
    }
  }

  predicate IsOf(s: Object, name: string) { "type" in s && s["type"] == Str(name) }

  /** How the value is written where the validator looks at text: a number at an integer place is a plain
      decimal of 64 bits, and a value equal to a choice of an enum also stands among the choices. */
  ghost predicate Written(schema: Json, v: Json)
    decreases schema
  {
    schema.Obj? ==>
      var s := schema.entries;
      && ("enum" in s && s["enum"].Arr? && (exists c :: c in s["enum"].items && Equal(c, v)) ==> v in s["enum"].items)
      && (IsOf(s, "integer") && v.Num? ==>
            v.number.fraction.None? && v.number.exponent.None? &&
              -0x8000_0000_0000_0000 <= Mantissa(v.number) <= 0x7FFF_FFFF_FFFF_FFFF)
      && (IsOf(s, "object") && v.Obj? && "properties" in s && s["properties"].Obj? ==>
            forall name | name in s["properties"].entries && name in v.entries ::
              Written(s["properties"].entries[name], v.entries[name]))
      && (IsOf(s, "array") && v.Arr? && "items" in s ==> forall i | 0 <= i < |v.items| ::
            Written(s["items"], v.items[i]))
  }

  /** The validator accepts exactly the valid values that are so written. */
  lemma {:induction false} ConformsIffValidAndWritten(schema: Json, v: Json)
    requires Supported(schema, false)
    ensures Conforms(schema, v) <==> Valid(schema, v) && Written(schema, v)
    decreases schema
  {
    var s := schema.entries;
    if Conforms(schema, v) { ConformsIsValid(schema, v); }
    if Valid(schema, v) && Written(schema, v) { TypeComplete(s["type"].text, v); }
    if v.Obj? { RequiredNames(s, v.entries); }
    if v.Obj? && s["type"].text == "object" && "properties" in s {
      var p := s["properties"].entries;
      forall name | name in p && name in v.entries
        ensures Conforms(p[name], v.entries[name]) <==>
          Valid(p[name], v.entries[name]) && Written(p[name], v.entries[name])
      {
        ConformsIffValidAndWritten(p[name], v.entries[name]);
      }
    }
    if v.Arr? && s["type"].text == "array" {
      forall i | 0 <= i < |v.items|
        ensures Conforms(s["items"], v.items[i]) <==> Valid(s["items"], v.items[i]) && Written(s["items"], v.items[i])
      {
        ConformsIffValidAndWritten(s["items"], v.items[i]);
      }
    }
  }

  /** When every number in schema and value is a canonical decimal of 64 bits, valid values are so written. */
  lemma {:induction false} PlainIsWritten(schema: Json, v: Json)
    requires Supported(schema, false) && Plain(schema) && Plain(v)
    ensures Written(schema, v)
    decreases schema
  {
    var s := schema.entries;
    if "enum" in s && s["enum"].Arr? {
      assert Plain(s["enum"]);
      forall c | c in s["enum"].items && Equal(c, v) ensures v in s["enum"].items { PlainEqual(c, v); }
    }
    if v.Obj? && s["type"].text == "object" && "properties" in s {
      assert Plain(s["properties"]);
      forall name | name in s["properties"].entries && name in v.entries
        ensures Written(s["properties"].entries[name], v.entries[name])
      {
        PlainIsWritten(s["properties"].entries[name], v.entries[name]);
      }
    }
    if v.Arr? && s["type"].text == "array" {
      forall i | 0 <= i < |v.items| ensures Written(s["items"], v.items[i]) {
        PlainIsWritten(s["items"], v.items[i]);
      }
    }
  }

  /** So there the validator agrees with the standard. */
  lemma PlainValidConforms(schema: Json, v: Json)
    requires Supported(schema, false) && Plain(schema) && Plain(v)
    ensures Conforms(schema, v) <==> Valid(schema, v)
  {
    PlainIsWritten(schema, v);
    ConformsIffValidAndWritten(schema, v);
  }

  const ONE := Number(false, "1", None, None)
  const ONE_POINT_ZERO := Number(false, "1", Some("0"), None)

  lemma OnePointZero()
    ensures Integral(ONE_POINT_ZERO) && SameValue(ONE, ONE_POINT_ZERO)
  {
    assert Decimal("10") == 10 by { assert "10"[..1] == "1" && "1"[..0] == ""; }
    assert Decimal("1") == 1 by { assert "1"[..0] == ""; }
    assert "1" + "0" == "10" && "1" + "" == "1";
    assert Pow10(1) == 10 by { assert Pow10(0) == 1; }
  }

  /** The converse fails on other literals: 1.0 is a valid integer and equals the choice 1, and the
      validator refuses it on both counts. */
  lemma StricterThanStandard()
    ensures var integer := Obj(map["type" := Str("integer")]);
      Supported(integer, false) && Valid(integer, Num(ONE_POINT_ZERO)) && !Conforms(integer, Num(ONE_POINT_ZERO))
    ensures var choice := Obj(map["type" := Str("number"), "enum" := Arr([Num(ONE)])]);
      Supported(choice, false) && Valid(choice, Num(ONE_POINT_ZERO)) && !Conforms(choice, Num(ONE_POINT_ZERO))
  {
    hide Integral, SameValue, Decimal, Mantissa;
    OnePointZero();
    var choice := Obj(map["type" := Str("number"), "enum" := Arr([Num(ONE)])]);
    assert Num(ONE) in choice.entries["enum"].items && Equal(Num(ONE), Num(ONE_POINT_ZERO));
  }

  // ---------- The validator ----------

  function Fail(text: string): Option<Error> { Some(Cause(text, None, None)) }

  /** An unchecked type assertion to string: the caller must know the type. */
  function AsString(j: Json): string
    requires j.Str?
  {
    j.text
  }

  /** Checks a schema object; map entries are visited in any order. */
  method ValidateSchema(schema: Json, root: bool) returns (failure: Option<Error>)
    requires schema.Obj?
    ensures failure.None? <==> Supported(schema, root)
    decreases schema, 1
  {
    var s := schema.entries;
    var keywords := s.Keys;
    while keywords != {}
      invariant keywords <= s.Keys && s.Keys - keywords <= KEYWORDS
      decreases keywords
    {
      var keyword :| keyword in keywords;
      keywords := keywords - {keyword};
      if keyword !in KEYWORDS { return Fail("unsupported keyword"); }
    }
    if "type" !in s || !s["type"].Str? { return Fail("type must be a string"); }
    var typeName := s["type"].text;
    if root && typeName != "object" { return Fail("root type must be object"); }
    if typeName == "object" {
      failure := ValidateObjectSchema(schema);
      if failure.Some? { return; }
    } else if typeName == "array" {
      if "items" !in s { return Fail("array items schema is required"); }
      if !s["items"].Obj? { return Fail("items must be a schema object"); }
      failure := ValidateSchema(s["items"], false);
      if failure.Some? { return; }
    } else if typeName !in PRIMITIVES {
      return Fail("unsupported type");
    }
    if "enum" in s && !s["enum"].Arr? { return Fail("enum must be an array"); }
    return None;
  }

  /** The object branch: properties, required and additionalProperties. */
  method ValidateObjectSchema(schema: Json) returns (failure: Option<Error>)
    requires schema.Obj? && "type" in schema.entries && schema.entries["type"] == Str("object")
    ensures failure.None? <==> ObjectSupported(schema)
    decreases schema, 0
  {
    var s := schema.entries;
    if "properties" in s {
      if !s["properties"].Obj? { return Fail("properties must be an object"); }
      var properties := s["properties"].entries;
      var names := properties.Keys;
      while names != {}
        invariant names <= properties.Keys
        invariant forall name | name in properties.Keys - names :: Supported(properties[name], false)
        decreases names
      {
        var name :| name in names;
        names := names - {name};
        if !properties[name].Obj? { return Fail("property must be a schema object"); }
        failure := ValidateSchema(properties[name], false);
        if failure.Some? { return; }
      }
    }
    if "required" in s {
      if !s["required"].Arr? { return Fail("required must be an array"); }
      var required := s["required"].items;
      for i := 0 to |required|
        invariant forall k | 0 <= k < i :: required[k].Str?
      {
        if !required[i].Str? { return Fail("required values must be strings"); }
      }
    }
    if "additionalProperties" in s && s["additionalProperties"] != Bool(false) {
      return Fail("additionalProperties only supports false");
    }
    return None;
  }

  /** Checks a value; a supported schema makes every type assertion hold. */
  method ValidateValue(schema: Json, value: Json) returns (failure: Option<Error>)
    requires Supported(schema, false)
    ensures failure.None? <==> Conforms(schema, value)
    decreases schema, 1
  {
    var s := schema.entries;
    if "enum" in s && s["enum"].Arr? {
      var choices := s["enum"].items;
      var matched := false;
      for i := 0 to |choices|
        invariant !matched && value !in choices[..i]
      {
        if choices[i] == value {
          matched := true;
          break;
        }
      }
      if !matched { return Fail("not an allowed enum value"); }
    }
    var typeName := AsString(s["type"]);
    match typeName {
      case "object" =>
        if !value.Obj? { return Fail("must be an object"); }
        failure := ValidateObject(schema, value.entries);
        return;
      case "array" =>
        if !value.Arr? { return Fail("must be an array"); }
        for i := 0 to |value.items|
          invariant forall k | 0 <= k < i :: Conforms(s["items"], value.items[k])
        {
          failure := ValidateValue(s["items"], value.items[i]);
          if failure.Some? { return; }
        }
      case "string" => if !value.Str? { return Fail("must be a string"); }
      case "number" => if !value.Num? { return Fail("must be a number"); }
      case "integer" =>
        if !value.Num? { return Fail("must be an integer"); }
        if !FitsInt64(value.number) { return Fail("must be an integer"); }
      case "boolean" => if !value.Bool? { return Fail("must be a boolean"); }
      case "null" => if !value.Null? { return Fail("must be null"); }
      case _ =>
    }
    return None;
  }

  /** The object branch: required names, undeclared names, then declared properties. */
  method ValidateObject(schema: Json, fields: Object) returns (failure: Option<Error>)
    requires Supported(schema, false) && schema.entries["type"] == Str("object")
    ensures failure.None? <==> ObjectConforms(schema, fields)
    decreases schema, 0
  {
    var s := schema.entries;
    var properties := Properties(s);
    if "required" in s && s["required"].Arr? {
      var required := s["required"].items;
      for i := 0 to |required|
        invariant forall k | 0 <= k < i :: required[k].Str? && required[k].text in fields
      {
        var name := AsString(required[i]);
        if name !in fields { return Fail("is required"); }
      }
    }
    if "additionalProperties" in s && s["additionalProperties"] == Bool(false) {
      var names := fields.Keys;
      while names != {}
        invariant names <= fields.Keys && fields.Keys - names <= properties.Keys
        decreases names
      {
        var name :| name in names;
        names := names - {name};
        if name !in properties { return Fail("is not allowed"); }
      }
    }
    var names := properties.Keys;
    while names != {}
      invariant names <= properties.Keys
      invariant forall name | name in properties.Keys - names && name in fields ::
        Conforms(properties[name], fields[name])
      decreases names
    {
      var name :| name in names;
      names := names - {name};
      if name in fields {
        failure := ValidateValue(properties[name], fields[name]);
        if failure.Some? { return; }
      }
    }
    return None;
  }

  // ---------- Documents ----------

  /** Decoding into an object: null leaves the empty object, other kinds are refused. */
  function DecodeObject(decode: string -> Option<Json>, document: string): Option<Json> {
    match decode(document)
    case Some(Obj(s)) => Some(Obj(s))
    case Some(Null) => Some(Obj(map[]))
    case _ => None
  }

  /** The arguments a document of a schema accepts. */
  ghost predicate ArgumentsConform(decode: string -> Option<Json>, document: string, arguments: string) {
    && decode(document).Some? && Supported(decode(document).value, true)
    && decode(arguments).Some? && Conforms(decode(document).value, decode(arguments).value)
  }

  method ValidateArguments(decode: string -> Option<Json>, document: string, arguments: string)
    returns (failure: Option<Error>)
    ensures failure.None? <==> ArgumentsConform(decode, document, arguments)
  {
    var schema := DecodeObject(decode, document);
    if schema.None? { return Fail("invalid tool schema"); }
    failure := ValidateSchema(schema.value, true);
    if failure.Some? { return Some(Wrapped("invalid tool schema", Text(failure.value), failure)); }
    var value := decode(arguments);
    if value.None? { return Fail("invalid tool arguments"); }
    failure := ValidateValue(schema.value, value.value);
    if failure.Some? { return Some(Wrapped("invalid tool arguments", Text(failure.value), failure)); }
  }

  /** Accepted arguments are a valid object under the standard. */
  lemma ArgumentsSound(decode: string -> Option<Json>, document: string, arguments: string)
    requires ArgumentsConform(decode, document, arguments)
    ensures decode(arguments).value.Obj?
    ensures Valid(decode(document).value, decode(arguments).value)
  {
    ConformsIsValid(decode(document).value, decode(arguments).value);
  }
}
