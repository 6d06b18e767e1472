/**
 * util.go: mapping an OpenAPI schema to the Go type that stands for it in the
 * generated code.
 */
module Util {
  import opened Wrappers
  import opened GoStrings
  import opened Errors

  /**
   * An `openapi3.SchemaRef` together with the parts of its resolved `Value`
   * the mapper reads: `Type`, `Format`, `Items` and whether `Properties` is
   * non-nil.
   */
  datatype Schema = Schema(ref: string, typ: string, format: string, items: Option<Schema>, hasProps: bool)

  /**
   * `OapiRefToGoType`: the last `/`-separated part of a `$ref`, title-cased.
   * It never fails, because splitting always yields at least one part.
   */
  function OapiRefToGoType(ref: string): (r: Result<string, Error>)
    ensures r == Success(Title(AfterLast(ref, '/')))
  {
    var parts := Split(ref, '/');
    if |parts| == 0 then Failure(BadOapiRef(ref))
    else
      SplitLast(ref, '/');
      Success(Title(parts[|parts| - 1]))
  }

  /** The schemas the mapper accepts, stated rule by rule. */
  predicate Mappable(s: Schema)
    decreases s
  {
    || s.ref != ""
    || (s.typ == "number" && s.format in {"float", "double"})
    || (s.typ == "integer" && s.format in {"int32", "int64"})
    || s.typ in {"string", "boolean"}
    || (s.typ == "array" && s.items.Some? && Mappable(s.items.value))
  }

  /**
   * `OapiToGoType`: a `$ref` wins; otherwise the type and format decide, arrays
   * recurse into their items, and everything else is an error.
   */
  function OapiToGoType(s: Schema): (r: Result<string, Error>)
    ensures r.Success? <==> Mappable(s)
    decreases s
  {
    if s.ref != "" then OapiRefToGoType(s.ref)
    else if s.typ == "number" then
      if s.format == "float" then Success("float32")
      else if s.format == "double" then Success("float64")
      else Failure(BadOapiSchemaType(s.typ))
    else if s.typ == "integer" then
      if s.format == "int32" || s.format == "int64" then Success(s.format)
      else Failure(BadOapiSchemaType(s.typ))
    else if s.typ == "string" then Success(s.typ)
    else if s.typ == "boolean" then Success("bool")
    else if s.typ == "array" then
      if s.items.None? then Failure(Panic("nil pointer dereference: array schema without items"))
      else
        match OapiToGoType(s.items.value)
        case Failure(e) => Failure(e)
        case Success(t) => Success("[]" + t)
    else if s.typ == "object" && s.hasProps then Failure(UseRef)
    else Failure(BadOapiSchemaType(s.typ))
  }

  /** A non-empty `$ref` decides the result; the schema's other fields are never read. */
  lemma RefTakesPrecedence(s: Schema, typ: string, format: string, items: Option<Schema>, hasProps: bool)
    requires s.ref != ""
    ensures OapiToGoType(s) == OapiToGoType(Schema(s.ref, typ, format, items, hasProps))
    ensures OapiToGoType(s) == Success(Title(AfterLast(s.ref, '/')))
  {
  }

  /** The scalar types with a fixed Go counterpart, keyed by OpenAPI type and format. */
  const SizedScalars: map<(string, string), string> :=
    map[("number", "float") := "float32", ("number", "double") := "float64",
        ("integer", "int32") := "int32", ("integer", "int64") := "int64"]

  /**
   * Scalars: numbers and integers map through the table above, `string` and
   * `boolean` map whatever their format, and any other non-array, non-object
   * type is rejected.
   */
  lemma ScalarMapping(s: Schema)
    requires s.ref == "" && s.typ != "array" && s.typ != "object"
    ensures s.typ == "string" ==> OapiToGoType(s) == Success("string")
    ensures s.typ == "boolean" ==> OapiToGoType(s) == Success("bool")
    ensures s.typ != "string" && s.typ != "boolean" ==>
              OapiToGoType(s) == if (s.typ, s.format) in SizedScalars
                                 then Success(SizedScalars[(s.typ, s.format)])
                                 else Failure(BadOapiSchemaType(s.typ))
  {
  }

  /** Objects are never mapped: with properties the caller is told to use a `$ref`. */
  lemma ObjectRejected(s: Schema)
    requires s.ref == "" && s.typ == "object"
    ensures OapiToGoType(s) == Failure(if s.hasProps then UseRef else BadOapiSchemaType("object"))
  {
  }

  /** `[]` repeated `k` times. */
  function SlicePrefix(k: nat): (r: string)
    ensures |r| == 2 * k
  {
    if k == 0 then "" else "[]" + SlicePrefix(k - 1)
  }

  /** An inline array schema with the given items. */
  function ArrayOf(items: Schema): Schema {
    Schema("", "array", "", Some(items), false)
  }

  /** `k` array schemas wrapped around `s`. */
  function Nest(k: nat, s: Schema): Schema {
    if k == 0 then s else ArrayOf(Nest(k - 1, s))
  }

  /** One array level: the items' mapping behind `[]`, or the items' error unchanged. */
  lemma ArrayLevel(items: Schema)
    ensures OapiToGoType(ArrayOf(items)) == match OapiToGoType(items)
                                            case Success(t) => Success("[]" + t)
                                            case Failure(e) => Failure(e)
  {
    var a := ArrayOf(items);
    assert a.ref == "" && a.typ == "array" && a.items == Some(items);
    assert a.typ != "number" && a.typ != "integer" && a.typ != "string" && a.typ != "boolean";
  }

  /**
   * `k` nested arrays over `s` map to `k` copies of `[]` before the mapping of
   * `s`, and an error from `s` comes out unchanged through every level.
   */
  lemma {:induction false} NestedArrays(k: nat, s: Schema)
    ensures OapiToGoType(Nest(k, s)) == match OapiToGoType(s)
                                        case Success(t) => Success(SlicePrefix(k) + t)
                                        case Failure(e) => Failure(e)
  {
    if k > 0 {
      var inner := Nest(k - 1, s);
      assert Nest(k, s) == ArrayOf(inner);
      NestedArrays(k - 1, s);
      ArrayLevel(inner);
      match OapiToGoType(s)
      case Success(t) =>
        assert OapiToGoType(inner) == Success(SlicePrefix(k - 1) + t);
        assert "[]" + (SlicePrefix(k - 1) + t) == SlicePrefix(k) + t;
      case Failure(e) =>
        assert OapiToGoType(inner) == Failure(e);
    } else {
      assert forall t: string :: SlicePrefix(0) + t == t;
    }
  }
}
