/**
 * The declarative model-parsing engine: a schema of field descriptors turns a
 * loosely typed payload (XML converted to JSON, with `@` attributes, `#text`
 * nodes and one-or-many children) into a shaped object.
 *
 * The value lookups, converters and transform dispatch are functions. The
 * parse itself writes into one shared output object descriptor by descriptor,
 * so it is a class (`ParsedObject`), a method that applies one descriptor
 * (`ParseProperty`) and a method that runs the whole schema (`Parse`), each
 * proved against the functional specification `PropertyStep` / `ParseWith`.
 */
module ModelParser {
  import opened Wrappers
  import opened Js

  /** The `field` of a descriptor: absent, one path segment, or a list of segments. */
  datatype Field = NoField | Segment(segment: string) | Segments(path: seq<string>)

  /**
   * The `transform` of a descriptor. `Named` is a converter name, `Nested` a
   * schema, `Func` a function (which may throw). `Inert` is any other truthy
   * value (a number, a plain object): it passes the value through unchanged.
   * A falsy transform (absent, null, 0) is `NoTransform`.
   */
  datatype Transform =
    | NoTransform
    | Named(converter: string)
    | Nested(schema: seq<Descriptor>)
    | Func(apply: Json -> Result<Json, Exception>)
    | Inert

  /** `{field, name, isArray, transform}`; `name == ""` is an absent (falsy) name. */
  datatype Descriptor = Descriptor(field: Field, name: string, isArray: bool, transform: Transform)

  /** The converters whose behaviour lies outside the engine: `to.date` and `JSON.parse`. */
  datatype Converters = Converters(
    date: Json -> Result<Json, Exception>,
    jsonParse: string -> Result<Json, Exception>)

  // ---- converters `to.*` ----------------------------------------------------

  /** `to.boolean`: never throws. */
  function ToBoolean(v: Json): (r: Json)
  {
    Bool(v == Str("true"))
  }

  /** `to.integer`: `parseInt(v, 10)`, accepted only when `String` of it is `v` itself. */
  function ToInteger(v: Json): (r: Result<Json, Exception>)
  {
    var failed := Err(Error("Failed converting to integer"));
    match v
    case Str(s) =>
      (match ParseInt(s)
       case None => if s == "NaN" then Ok(NaN) else failed
       case Some(n) => if IntToString(n) == s then Ok(Num(n)) else failed)
    case _ => failed   // String(...) is a string, never === a non-string
  }

  /** `to.json`: strings are run through `JSON.parse`, anything else is returned as is. */
  function ToJson(conv: Converters, v: Json): (r: Result<Json, Exception>)
  {
    if v.Str? then conv.jsonParse(v.s) else Ok(v)
  }

  /** `modelParser.to[name](v)`: a name that is not a converter is not a function. */
  function Convert(conv: Converters, name: string, v: Json): (r: Result<Json, Exception>)
  {
    if name == "boolean" then Ok(ToBoolean(v))
    else if name == "date" then conv.date(v)
    else if name == "integer" then ToInteger(v)
    else if name == "json" then ToJson(conv, v)
    else Err(TypeError("modelParser.to[transform] is not a function"))
  }

  // ---- validity and arrays ----------------------------------------------------

  /** `isValid`: `0`, `false`, or any truthy value. */
  predicate IsValid(v: Json)
  {
    v == Num(0) || v == Bool(false) || Truthy(v)
  }

  /** `forceArray`: invalid values become `[]`, arrays stay, anything else is wrapped. */
  function ForceArray(v: Json): (r: Json)
    ensures r.Arr?
  {
    if !IsValid(v) then Arr([])
    else if v.Arr? then v
    else Arr([v])
  }

  // ---- getValue ---------------------------------------------------------------

  /**
   * `getValue(obj, ...fields)`. With no segments left JavaScript shifts out
   * `undefined`, which the `in` operator reads as the key "undefined".
   */
  function GetValue(obj: Json, fields: seq<string>): (r: Json)
    decreases |fields|
  {
    if !IsObject(obj) then Undefined
    else
      var current := if |fields| == 0 then "undefined" else fields[0];
      var rest := if |fields| == 0 then [] else fields[1..];
      if !HasKey(obj, current) then Undefined
      else
        var v := Get(obj, current);
        // a trailing '#text' under a string addresses the string itself
        if |rest| == 0 || (|rest| == 1 && rest[0] == "#text" && v.Str?) then v
        else GetValue(v, rest)
  }

  // ---- descriptors ------------------------------------------------------------

  /** `forceArray(field)`: the path the descriptor looks up. */
  function FieldPath(f: Field): (r: seq<string>)
  {
    match f
    case NoField => []
    case Segment(s) => if s == "" then [] else [s]
    case Segments(p) => p
  }

  /** `name || fields[0]`, where a missing `fields[0]` is the key "undefined". */
  function OutputKey(d: Descriptor): (r: string)
  {
    var fields := FieldPath(d.field);
    if d.name != "" then d.name
    else if |fields| > 0 then fields[0]
    else "undefined"
  }

  predicate TransformTruthy(t: Transform)
  {
    match t
    case NoTransform => false
    case Named(n) => n != ""
    case _ => true
  }

  /** `transform && isValid(value) || typeof transform === 'function'`. */
  predicate Applicable(t: Transform, value: Json)
  {
    (TransformTruthy(t) && IsValid(value)) || t.Func?
  }

  // ---- the recursive parse (specification) -------------------------------------

  /** `transformValue(value, transform)`. */
  function TransformValue(conv: Converters, value: Json, t: Transform): (r: Result<Json, Exception>)
    decreases t, 0
  {
    match t
    case Named(n) => Convert(conv, n, value)
    case Nested(schema) => ParseWith(conv, schema, value)
    case Func(f) => f(value)
    case _ => Ok(value)
  }

  /** `items.map((val) => transformValue(val, transform))`; the first throw ends it. */
  function MapTransform(conv: Converters, items: seq<Json>, t: Transform): (r: Result<seq<Json>, Exception>)
    decreases t, 1, |items|
  {
    if items == [] then Ok([])
    else
      var head :- TransformValue(conv, items[0], t);
      var tail :- MapTransform(conv, items[1..], t);
      Ok([head] + tail)
  }

  /** The value one descriptor produces: lookup, array forcing and transform. */
  function PropertyValue(conv: Converters, data: Json, d: Descriptor): (r: Result<Json, Exception>)
    decreases d, 0
  {
    var found := GetValue(data, FieldPath(d.field));
    var value := if d.isArray then ForceArray(found) else found;
    if !Applicable(d.transform, value) then Ok(value)
    else if d.isArray then
      var items :- MapTransform(conv, value.items, d.transform);
      Ok(Arr(items))
    else TransformValue(conv, value, d.transform)
  }

  /** `parseProperty(data, parsedObj, descriptor)` as a function of the output so far. */
  function PropertyStep(conv: Converters, data: Json, acc: map<string, Json>, d: Descriptor)
    : (r: Result<map<string, Json>, Exception>)
    decreases d, 1
  {
    if !IsObject(data) then Err(TypeError("Cannot parse a non-object"))
    else
      var value :- PropertyValue(conv, data, d);
      var key := OutputKey(d);
      if key in acc then Err(Error("Duplicate \"" + key + "\" in parsing model"))
      else Ok(WriteValid(acc, key, value))
  }

  /** `if(isValid(value)) parsedObj[name] = value`. */
  function WriteValid(acc: map<string, Json>, key: string, value: Json): (r: map<string, Json>)
  {
    if IsValid(value) then acc[key := value] else acc
  }

  /** `model.forEach(...)`: the descriptors applied in order to one output map. */
  function ParseFrom(conv: Converters, schema: seq<Descriptor>, data: Json, acc: map<string, Json>)
    : (r: Result<map<string, Json>, Exception>)
    decreases schema, 2
  {
    if schema == [] then Ok(acc)
    else
      var next :- PropertyStep(conv, data, acc, schema[0]);
      ParseFrom(conv, schema[1..], data, next)
  }

  /** `createParser(model)(data)`. */
  function ParseWith(conv: Converters, schema: seq<Descriptor>, data: Json): (r: Result<Json, Exception>)
    decreases schema, 3
  {
    var input :- ToJson(conv, data);
    var out :- ParseFrom(conv, schema, input, map[]);
    Ok(Obj(out))
  }

  // ---- the imperative parse ------------------------------------------------------

  /** The `parsedObj` that every descriptor of one parse writes into. */
  class ParsedObject {
    var entries: map<string, Json>

    constructor ()
      ensures entries == map[]
    {
      entries := map[];
    }
  }

  /**
   * `parseProperty(data, parsedObj, descriptor)`: applies one descriptor and
   * writes at most one new key into `out`. Returns what it threw, if anything.
   */
  method ParseProperty(conv: Converters, data: Json, out: ParsedObject, d: Descriptor)
    returns (thrown: Option<Exception>)
    modifies out
    ensures PropertyStep(conv, data, old(out.entries), d)
            == (if thrown.Some? then Err(thrown.value) else Ok(out.entries))
    ensures thrown.Some? ==> out.entries == old(out.entries)
  {
    if !IsObject(data) {
      return Some(TypeError("Cannot parse a non-object"));
    }
    var fields := FieldPath(d.field);
    var value := GetValue(data, fields);
    if d.isArray {
      value := ForceArray(value);
    }
    if Applicable(d.transform, value) {
      if d.isArray {
        var mapped := MapTransform(conv, value.items, d.transform);
        if mapped.Err? {
          return Some(mapped.error);
        }
        value := Arr(mapped.value);
      } else {
        var transformed := TransformValue(conv, value, d.transform);
        if transformed.Err? {
          return Some(transformed.error);
        }
        value := transformed.value;
      }
    }
    var name := OutputKey(d);
    if name in out.entries {
      return Some(Error("Duplicate \"" + name + "\" in parsing model"));
    }
    if IsValid(value) {
      out.entries := out.entries[name := value];
    }
    return None;
  }

  /** `createParser(model)(data)`: one fresh output object threaded through every descriptor. */
  method Parse(conv: Converters, schema: seq<Descriptor>, data: Json) returns (r: Result<Json, Exception>)
    ensures r == ParseWith(conv, schema, data)
  {
    var input := ToJson(conv, data);
    if input.Err? {
      return Err(input.error);
    }
    var out := new ParsedObject();
    var i := 0;
    while i < |schema|
      invariant 0 <= i <= |schema|
      invariant ParseFrom(conv, schema, input.value, map[])
                == ParseFrom(conv, schema[i..], input.value, out.entries)
    {
      assert schema[i..][1..] == schema[i + 1..];
      var thrown := ParseProperty(conv, input.value, out, schema[i]);
      if thrown.Some? {
        return Err(thrown.value);
      }
      i := i + 1;
    }
    return Ok(Obj(out.entries));
  }

  // ---- properties: converters, validity, arrays ---------------------------------

  /** `to.boolean(v)` is true exactly for the string "true" and false for everything else. */
  lemma BooleanIff(v: Json)
    ensures ToBoolean(v).Bool?
    ensures ToBoolean(v).b <==> v == Str("true")
  {
  }

  /** The decimal rendering of any integer converts back to that integer. */
  lemma IntegerOfCanonical(n: int)
    ensures ToInteger(Str(IntToString(n))) == Ok(Num(n))
  {
    ParseIntOfIntToString(n);
  }

  /**
   * `to.integer(v)` succeeds exactly on the decimal renderings of integers
   * (and on "NaN", which `String(parseInt("NaN"))` reproduces), and then
   * returns the integer rendered.
   */
  lemma IntegerAccepts(v: Json)
    ensures ToInteger(v).Ok? <==> v == Str("NaN") || exists n :: v == Str(IntToString(n))
    ensures ToInteger(v).Ok? ==> ToInteger(v).value == NaN || v == Str(IntToString(ToInteger(v).value.n))
    ensures ToInteger(v).Ok? ==> (ToInteger(v).value.NaN? <==> v == Str("NaN"))
  {
    if v.Str? {
      var s := v.s;
      ParseIntOfNaN();
      var failed: Result<Json, Exception> := Err(Error("Failed converting to integer"));
      var p := ParseInt(s);
      forall n | v == Str(IntToString(n))
        ensures p == Some(n)
      {
        ParseIntOfIntToString(n);
      }
      if p.None? {
        assert ToInteger(v) == if s == "NaN" then Ok(NaN) else failed;
      } else {
        if IntToString(p.value) == s {
          assert v == Str(IntToString(p.value));
        }
        assert ToInteger(v) == if IntToString(p.value) == s then Ok(Num(p.value)) else failed;
      }
    }
  }

  lemma ParseIntOfNaN()
    ensures ParseInt("NaN") == None
  {
    assert TrimStart("NaN") == "NaN";
    assert DigitPrefix("NaN") == "";
  }

  lemma IntegerAcceptsFive()
    ensures ToInteger(Str("5")) == Ok(Num(5))
  {
    assert IntToString(5) == "5";
    IntegerOfCanonical(5);
  }

  /**
   * An integer rendering followed by text that does not continue its digits
   * is rejected: `parseInt` stops early, so `String` of its result differs.
   */
  lemma IntegerRejectsTrailing(n: int, tail: string)
    requires tail != [] && !IsDigit(tail[0])
    ensures ToInteger(Str(IntToString(n) + tail)).Err?
  {
    ParseIntPrefix(n, tail);
  }

  lemma IntegerRejectsExamples()
    ensures ToInteger(Str("55-55")).Err?
    ensures ToInteger(Str("5 ")).Err?
  {
    assert IntToString(55) == "55" by {
      assert NatToString(55) == NatToString(5) + [DigitChar(5)];
    }
    assert "55-55" == IntToString(55) + "-55";
    IntegerRejectsTrailing(55, "-55");
    assert IntToString(5) == "5";
    assert "5 " == IntToString(5) + " ";
    IntegerRejectsTrailing(5, " ");
  }

  lemma IntegerRejectsNonStrings()
    ensures ToInteger(Num(5)).Err?
    ensures ToInteger(Undefined).Err?
  {
  }

  /** `isValid` holds for 0, false and every truthy value, and fails for undefined, null, '' and NaN. */
  lemma ValidIff(v: Json)
    ensures IsValid(v) <==> v != Undefined && v != Null && v != Str("") && v != NaN
  {
  }

  /**
   * `forceArray`: invalid values give `[]`, an array is returned as it is, any
   * other value gives a one-element list; forcing twice changes nothing.
   */
  lemma ForceArrayCases(v: Json)
    ensures !IsValid(v) ==> ForceArray(v) == Arr([])
    ensures v.Arr? ==> ForceArray(v) == v
    ensures IsValid(v) && !v.Arr? ==> ForceArray(v) == Arr([v])
    ensures ForceArray(ForceArray(v)) == ForceArray(v)
  {
  }

  // ---- properties: getValue -----------------------------------------------------

  /**
   * Looking up `p + q` is looking up `q` in the result of looking up `p`,
   * unless `q` is exactly the text-node marker (that case is `TextUnwrap`).
   */
  lemma {:induction false} GetValueCompose(obj: Json, p: seq<string>, q: seq<string>)
    requires |p| > 0 && |q| > 0 && q != ["#text"]
    ensures GetValue(obj, p + q) == GetValue(GetValue(obj, p), q)
    decreases |p|
  {
    if IsObject(obj) && HasKey(obj, p[0]) {
      assert (p + q)[0] == p[0] && (p + q)[1..] == p[1..] + q;
      var v := Get(obj, p[0]);
      if |p| == 1 {
        assert p[1..] + q == q;
      } else if p[1..] == ["#text"] && v.Str? {
        assert GetValue(obj, p) == v;
      } else {
        GetValueCompose(v, p[1..], q);
      }
    }
  }

  /**
   * The text-node rule: `p + ['#text']` returns the value at `p` itself when
   * that is a string, and otherwise looks `#text` up inside it.
   */
  lemma {:induction false} TextUnwrap(obj: Json, p: seq<string>)
    requires |p| > 0 && p[|p| - 1] != "#text"
    ensures GetValue(obj, p + ["#text"])
            == (var v := GetValue(obj, p); if v.Str? then v else GetValue(v, ["#text"]))
    decreases |p|
  {
    if IsObject(obj) && HasKey(obj, p[0]) {
      assert (p + ["#text"])[0] == p[0] && (p + ["#text"])[1..] == p[1..] + ["#text"];
      var v := Get(obj, p[0]);
      if |p| > 1 {
        assert p[1..][|p[1..]| - 1] == p[|p| - 1];
        TextUnwrap(v, p[1..]);
      } else {
        assert p[1..] + ["#text"] == ["#text"];
      }
    }
  }

  /** Both serialisations of a text leaf, `"b": "t"` and `"b": {"#text": "t"}`, read the same. */
  lemma TextNodeEquivalence(obj: Json, p: seq<string>, t: string)
    requires |p| > 0 && p[|p| - 1] != "#text"
    requires GetValue(obj, p) == Str(t)
             || (GetValue(obj, p).Obj? && "#text" in GetValue(obj, p).fields
                 && GetValue(obj, p).fields["#text"] == Str(t))
    ensures GetValue(obj, p + ["#text"]) == Str(t)
  {
    TextUnwrap(obj, p);
  }

  lemma GetValueExamples()
    ensures GetValue(Null, ["prop"]) == Undefined
    ensures GetValue(Obj(map["a" := Obj(map[])]), ["a", "b", "c"]) == Undefined
    ensures GetValue(Obj(map["a" := Obj(map["b" := Num(5)])]), ["a", "b"]) == Num(5)
    ensures GetValue(Obj(map["a" := Obj(map["b" := Str("text")])]), ["a", "b", "#text"]) == Str("text")
    ensures GetValue(Obj(map["a" := Obj(map["b" := Obj(map["#text" := Str("text")])])]), ["a", "b", "#text"])
            == Str("text")
  {
    var o := Obj(map["a" := Obj(map["b" := Num(5)])]);
    assert GetValue(o, ["a", "b"]) == GetValue(Obj(map["b" := Num(5)]), ["b"]);
    var t1 := Obj(map["a" := Obj(map["b" := Str("text")])]);
    TextNodeEquivalence(t1, ["a", "b"], "text");
    assert ["a", "b"] + ["#text"] == ["a", "b", "#text"];
    var t2 := Obj(map["a" := Obj(map["b" := Obj(map["#text" := Str("text")])])]);
    assert GetValue(t2, ["a", "b"]) == GetValue(Obj(map["b" := Obj(map["#text" := Str("text")])]), ["b"]);
    TextNodeEquivalence(t2, ["a", "b"], "text");
  }

  // ---- properties: one descriptor ------------------------------------------------

  /**
   * `parseProperty`: a non-object input is a TypeError; a key already in the
   * output is always an error; on success the old keys keep their values, the
   * only key that can appear is the descriptor's output key, and it appears
   * exactly when the produced value is valid, holding that value.
   */
  lemma PropertyStepEffect(conv: Converters, data: Json, acc: map<string, Json>, d: Descriptor)
    ensures !IsObject(data) ==> PropertyStep(conv, data, acc, d) == Err(TypeError("Cannot parse a non-object"))
    ensures OutputKey(d) in acc ==> PropertyStep(conv, data, acc, d).Err?
    ensures PropertyStep(conv, data, acc, d).Err? <==>
            !IsObject(data) || PropertyValue(conv, data, d).Err? || OutputKey(d) in acc
    ensures PropertyStep(conv, data, acc, d).Ok? ==>
            var m := PropertyStep(conv, data, acc, d).value;
            var v := PropertyValue(conv, data, d).value;
            && (forall k :: k in acc ==> k in m && m[k] == acc[k])
            && m.Keys <= acc.Keys + {OutputKey(d)}
            && (OutputKey(d) in m <==> IsValid(v))
            && (OutputKey(d) in m ==> m[OutputKey(d)] == v)
  {
  }

  /**
   * The transform rules of `parseProperty` for a non-array descriptor: a
   * function transform always runs, even on an absent value; any other
   * transform is skipped when the looked-up value is invalid.
   */
  lemma PropertyValueTransformRules(conv: Converters, data: Json, d: Descriptor)
    requires !d.isArray
    ensures d.transform.Func? ==>
            PropertyValue(conv, data, d) == d.transform.apply(GetValue(data, FieldPath(d.field)))
    ensures !d.transform.Func? && !IsValid(GetValue(data, FieldPath(d.field))) ==>
            PropertyValue(conv, data, d) == Ok(GetValue(data, FieldPath(d.field)))
  {
  }

  /** An array descriptor transforms every element of the forced list, in order. */
  lemma {:induction false} MapTransformElements(conv: Converters, items: seq<Json>, t: Transform)
    ensures MapTransform(conv, items, t).Ok? <==>
            forall i :: 0 <= i < |items| ==> TransformValue(conv, items[i], t).Ok?
    ensures MapTransform(conv, items, t).Ok? ==>
            |MapTransform(conv, items, t).value| == |items|
            && forall i :: 0 <= i < |items| ==>
                 MapTransform(conv, items, t).value[i] == TransformValue(conv, items[i], t).value
    decreases |items|
  {
    if items != [] {
      MapTransformElements(conv, items[1..], t);
      if TransformValue(conv, items[0], t).Ok? && MapTransform(conv, items[1..], t).Ok? {
        var tail := MapTransform(conv, items[1..], t).value;
        forall i | 0 <= i < |items|
          ensures MapTransform(conv, items, t).value[i] == TransformValue(conv, items[i], t).value
        {
          if i > 0 {
            assert items[1..][i - 1] == items[i];
          }
        }
      } else if TransformValue(conv, items[0], t).Ok? {
        var j :| 0 <= j < |items[1..]| && TransformValue(conv, items[1..][j], t).Err?;
        assert items[j + 1] == items[1..][j];
      }
    }
  }

  // ---- properties: a whole schema ------------------------------------------------

  /** The output keys a schema can write. */
  function OutputKeys(schema: seq<Descriptor>): (r: set<string>)
  {
    set i | 0 <= i < |schema| :: OutputKey(schema[i])
  }

  /**
   * Running a schema never changes or removes a key already in the output;
   * every key it adds is the output key of one of its descriptors and holds
   * a valid value.
   */
  lemma {:induction false} ParseFromKeeps(conv: Converters, schema: seq<Descriptor>, data: Json, acc: map<string, Json>)
    ensures ParseFrom(conv, schema, data, acc).Ok? ==>
            var m := ParseFrom(conv, schema, data, acc).value;
            && (forall k :: k in acc ==> k in m && m[k] == acc[k])
            && m.Keys <= acc.Keys + OutputKeys(schema)
            && (forall k :: k in m && k !in acc ==> IsValid(m[k]))
    decreases schema
  {
    if schema != [] && PropertyStep(conv, data, acc, schema[0]).Ok? {
      var next := PropertyStep(conv, data, acc, schema[0]).value;
      PropertyStepEffect(conv, data, acc, schema[0]);
      ParseFromKeeps(conv, schema[1..], data, next);
      assert OutputKeys(schema) == {OutputKey(schema[0])} + OutputKeys(schema[1..]) by {
        forall k | k in OutputKeys(schema[1..]) ensures k in OutputKeys(schema) {
          var i :| 0 <= i < |schema[1..]| && OutputKey(schema[1..][i]) == k;
          assert schema[i + 1] == schema[1..][i];
        }
        forall k | k in OutputKeys(schema) ensures k in {OutputKey(schema[0])} + OutputKeys(schema[1..]) {
          var i :| 0 <= i < |schema| && OutputKey(schema[i]) == k;
          if i > 0 {
            assert schema[1..][i - 1] == schema[i];
          }
        }
      }
    }
  }

  /** A non-empty schema rejects a non-object input with a TypeError; an empty one accepts anything. */
  lemma ParseFromShape(conv: Converters, schema: seq<Descriptor>, data: Json, acc: map<string, Json>)
    ensures schema == [] ==> ParseFrom(conv, schema, data, acc) == Ok(acc)
    ensures schema != [] && !IsObject(data) ==>
            ParseFrom(conv, schema, data, acc) == Err(TypeError("Cannot parse a non-object"))
  {
  }

  /**
   * Descriptor order only matters for which error is reported: swapping two
   * descriptors with different output keys succeeds exactly when the original
   * order does, with the same result.
   */
  lemma ParseFromSwap(conv: Converters, d1: Descriptor, d2: Descriptor, rest: seq<Descriptor>,
                      data: Json, acc: map<string, Json>)
    requires OutputKey(d1) != OutputKey(d2)
    ensures ParseFrom(conv, [d1, d2] + rest, data, acc).Ok?
            <==> ParseFrom(conv, [d2, d1] + rest, data, acc).Ok?
    ensures ParseFrom(conv, [d1, d2] + rest, data, acc).Ok? ==>
            ParseFrom(conv, [d1, d2] + rest, data, acc) == ParseFrom(conv, [d2, d1] + rest, data, acc)
  {
    assert [d1, d2] + rest == [d1] + ([d2] + rest);
    assert [d2, d1] + rest == [d2] + ([d1] + rest);
    ParseFromCons(conv, d1, [d2] + rest, data, acc);
    ParseFromCons(conv, d2, [d1] + rest, data, acc);
    StepsCommute(conv, d1, d2, data, acc);
    var s1 := PropertyStep(conv, data, acc, d1);
    var s2 := PropertyStep(conv, data, acc, d2);
    if s1.Ok? {
      ParseFromCons(conv, d2, rest, data, s1.value);
    }
    if s2.Ok? {
      ParseFromCons(conv, d1, rest, data, s2.value);
    }
  }

  /** Two steps with different output keys succeed in either order or in neither, with the same output. */
  lemma StepsCommute(conv: Converters, d1: Descriptor, d2: Descriptor, data: Json, acc: map<string, Json>)
    requires OutputKey(d1) != OutputKey(d2)
    ensures var s1 := PropertyStep(conv, data, acc, d1);
            var s2 := PropertyStep(conv, data, acc, d2);
            var s12 := if s1.Ok? then PropertyStep(conv, data, s1.value, d2) else s1;
            var s21 := if s2.Ok? then PropertyStep(conv, data, s2.value, d1) else s2;
            (s12.Ok? <==> s21.Ok?) && (s12.Ok? ==> s12 == s21)
  {
    var k1, k2 := OutputKey(d1), OutputKey(d2);
    var p1, p2 := PropertyValue(conv, data, d1), PropertyValue(conv, data, d2);
    StepResult(conv, data, acc, d1);
    StepResult(conv, data, acc, d2);
    var s1 := PropertyStep(conv, data, acc, d1);
    var s2 := PropertyStep(conv, data, acc, d2);
    if s1.Ok? {
      StepResult(conv, data, s1.value, d2);
    }
    if s2.Ok? {
      StepResult(conv, data, s2.value, d1);
    }
    if s1.Ok? && s2.Ok? {
      var a1 := s1.value;
      var a2 := s2.value;
      assert k2 in a1 <==> k2 in acc;
      assert k1 in a2 <==> k1 in acc;
      if p1.Ok? && p2.Ok? {
        assert WriteValid(WriteValid(acc, k1, p1.value), k2, p2.value)
               == WriteValid(WriteValid(acc, k2, p2.value), k1, p1.value);
      }
    }
  }

  /** A step succeeds unless the input is not an object, the value throws, or the key is taken. */
  lemma StepResult(conv: Converters, data: Json, acc: map<string, Json>, d: Descriptor)
    ensures PropertyStep(conv, data, acc, d).Ok? <==>
            IsObject(data) && PropertyValue(conv, data, d).Ok? && OutputKey(d) !in acc
    ensures PropertyStep(conv, data, acc, d).Ok? ==>
            PropertyStep(conv, data, acc, d).value == WriteValid(acc, OutputKey(d), PropertyValue(conv, data, d).value)
  {
  }

  /** Running `[d] + rest` is running `d` and then `rest` on what it produced. */
  lemma ParseFromCons(conv: Converters, d: Descriptor, rest: seq<Descriptor>, data: Json, acc: map<string, Json>)
    ensures ParseFrom(conv, [d] + rest, data, acc)
            == (var step := PropertyStep(conv, data, acc, d);
                if step.Err? then Err(step.error) else ParseFrom(conv, rest, data, step.value))
  {
    assert ([d] + rest)[0] == d && ([d] + rest)[1..] == rest;
  }

  /**
   * A repeated output key is an error once the first descriptor has written
   * it; a first descriptor that wrote nothing lets the second one through.
   */
  lemma DuplicateKey(conv: Converters, d1: Descriptor, d2: Descriptor, data: Json, acc: map<string, Json>)
    requires OutputKey(d1) == OutputKey(d2)
    ensures PropertyStep(conv, data, acc, d1).Ok? && OutputKey(d1) in PropertyStep(conv, data, acc, d1).value ==>
            ParseFrom(conv, [d1, d2], data, acc).Err?
    ensures PropertyStep(conv, data, acc, d1) == Ok(acc) && OutputKey(d1) !in acc ==>
            ParseFrom(conv, [d1, d2], data, acc) == ParseFrom(conv, [d2], data, acc)
  {
    assert [d1, d2][1..] == [d2];
  }

  // ---- the unit-test scenarios ---------------------------------------------------

  /** The function transforms of the unit-test schemas: `() => {}` and `(val) => val + 1`. */
  function ReturnNothing(v: Json): (r: Result<Json, Exception>)
  {
    Ok(Undefined)
  }

  /**
   * `(val) => val + 1` on numbers, the only inputs the tests give it; for a
   * string JavaScript would concatenate, which this stand-in does not model.
   */
  function AddOne(v: Json): (r: Result<Json, Exception>)
  {
    if v.Num? then Ok(Num(v.n + 1)) else Ok(NaN)
  }

  lemma CreateParserExample(conv: Converters)
    ensures ParseWith(conv,
              [ Descriptor(Segment("context"), "", false, Nested([Descriptor(Segment("foo"), "", false, NoTransform)])),
                Descriptor(Segment("dog"), "", false, Func(ReturnNothing)) ],
              Obj(map["context" := Obj(map["foo" := Str("bar")]), "dog" := Str("cat")]))
            == Ok(Obj(map["context" := Obj(map["foo" := Str("bar")])]))
  {
    var d1 := Descriptor(Segment("context"), "", false, Nested([Descriptor(Segment("foo"), "", false, NoTransform)]));
    var d2 := Descriptor(Segment("dog"), "", false, Func(ReturnNothing));
    var data := Obj(map["context" := Obj(map["foo" := Str("bar")]), "dog" := Str("cat")]);
    var m := map["context" := Obj(map["foo" := Str("bar")])];
    ContextStepExample(conv);
    DogStepExample(conv);
    ParseFromCons(conv, d1, [d2], data, map[]);
    ParseFromCons(conv, d2, [], data, m);
    assert [d1] + [d2] == [d1, d2];
    assert [d2] + [] == [d2];
  }

  lemma ContextStepExample(conv: Converters)
    ensures PropertyStep(conv, Obj(map["context" := Obj(map["foo" := Str("bar")]), "dog" := Str("cat")]), map[],
                         Descriptor(Segment("context"), "", false,
                                    Nested([Descriptor(Segment("foo"), "", false, NoTransform)])))
            == Ok(map["context" := Obj(map["foo" := Str("bar")])])
  {
    var ctx := Obj(map["foo" := Str("bar")]);
    var data := Obj(map["context" := ctx, "dog" := Str("cat")]);
    NestedFooExample(conv);
    assert GetValue(data, ["context"]) == ctx;
  }

  lemma DogStepExample(conv: Converters)
    ensures var m := map["context" := Obj(map["foo" := Str("bar")])];
            PropertyStep(conv, Obj(map["context" := Obj(map["foo" := Str("bar")]), "dog" := Str("cat")]), m,
                         Descriptor(Segment("dog"), "", false, Func(ReturnNothing)))
            == Ok(m)
  {
    var data := Obj(map["context" := Obj(map["foo" := Str("bar")]), "dog" := Str("cat")]);
    var d2 := Descriptor(Segment("dog"), "", false, Func(ReturnNothing));
    assert GetValue(data, ["dog"]) == Str("cat");
    assert PropertyValue(conv, data, d2) == ReturnNothing(Str("cat")) == Ok(Undefined);
    assert "dog" !in map["context" := Obj(map["foo" := Str("bar")])];
  }

  lemma NestedFooExample(conv: Converters)
    ensures TransformValue(conv, Obj(map["foo" := Str("bar")]),
                           Nested([Descriptor(Segment("foo"), "", false, NoTransform)]))
            == Ok(Obj(map["foo" := Str("bar")]))
  {
    var inner := [Descriptor(Segment("foo"), "", false, NoTransform)];
    var ctx := Obj(map["foo" := Str("bar")]);
    assert GetValue(ctx, ["foo"]) == Str("bar");
    assert PropertyStep(conv, ctx, map[], inner[0]) == Ok(map["foo" := Str("bar")]);
    assert ParseFrom(conv, inner[1..], ctx, map["foo" := Str("bar")]) == Ok(map["foo" := Str("bar")]);
    assert ParseFrom(conv, inner, ctx, map[]) == Ok(map["foo" := Str("bar")]);
  }

  lemma DuplicateExamples(conv: Converters)
    ensures ParseWith(conv, [Descriptor(Segment("id"), "", false, NoTransform),
                             Descriptor(Segment("id"), "", false, NoTransform)],
                      Obj(map["id" := Num(5)])).Err?
    ensures ParseWith(conv, [Descriptor(Segment("id"), "", false, NoTransform),
                             Descriptor(Segment("id"), "", false, NoTransform)],
                      Obj(map[])) == Ok(Obj(map[]))
    ensures ParseWith(conv, [Descriptor(Segment("id"), "", false, NoTransform)], Num(5)).Err?
  {
    var d := Descriptor(Segment("id"), "", false, NoTransform);
    assert [d, d][1..] == [d];
    DuplicateKey(conv, d, d, Obj(map["id" := Num(5)]), map[]);
    assert GetValue(Obj(map[]), ["id"]) == Undefined;
    assert PropertyStep(conv, Obj(map[]), map[], d) == Ok(map[]);
  }

  lemma TransformModelExample(conv: Converters)
    ensures TransformValue(conv, Obj(map["@id" := Num(4)]),
              Nested([Descriptor(Segment("@id"), "ids", true, Func(AddOne))]))
            == Ok(Obj(map["ids" := Arr([Num(5)])]))
  {
    var d := Descriptor(Segment("@id"), "ids", true, Func(AddOne));
    var data := Obj(map["@id" := Num(4)]);
    assert GetValue(data, ["@id"]) == Num(4);
    AddOneEachExample(conv);
    assert PropertyValue(conv, data, d) == Ok(Arr([Num(5)]));
    assert PropertyStep(conv, data, map[], d) == Ok(map["ids" := Arr([Num(5)])]);
    assert [d][1..] == [];
    assert ParseFrom(conv, [d], data, map[]) == Ok(map["ids" := Arr([Num(5)])]);
    assert ParseWith(conv, [d], data) == Ok(Obj(map["ids" := Arr([Num(5)])]));
  }

  lemma AddOneEachExample(conv: Converters)
    ensures MapTransform(conv, [Num(4)], Func(AddOne)) == Ok([Num(5)])
  {
    assert [Num(4)][1..] == [];
    assert AddOne(Num(4)) == Ok(Num(5));
    assert MapTransform(conv, [], Func(AddOne)) == Ok([]);
    assert [Num(5)] + [] == [Num(5)];
  }

  lemma TransformIntegerExample(conv: Converters)
    ensures TransformValue(conv, Str("5"), Named("integer")) == Ok(Num(5))
  {
    IntegerAcceptsFive();
    assert Convert(conv, "integer", Str("5")) == ToInteger(Str("5"));
  }

  lemma TransformOtherExamples(conv: Converters)
    ensures TransformValue(conv, Str("foo"), Inert) == Ok(Str("foo"))
    ensures TransformValue(conv, Str("foo"), Named("number")).Err?
  {
  }

  /**
   * A descriptor without `field` reads and writes the key "undefined": with
   * no such key in the input it writes nothing, and the parse succeeds.
   */
  lemma MissingFieldExample(conv: Converters)
    ensures ParseWith(conv, [Descriptor(Segment("ok"), "", false, NoTransform),
                             Descriptor(NoField, "", false, NoTransform)],
                      Obj(map["ok" := Bool(true), "fail" := Bool(false)]))
            == Ok(Obj(map["ok" := Bool(true)]))
  {
    var d1 := Descriptor(Segment("ok"), "", false, NoTransform);
    var d2 := Descriptor(NoField, "", false, NoTransform);
    var data := Obj(map["ok" := Bool(true), "fail" := Bool(false)]);
    assert GetValue(data, ["ok"]) == Bool(true);
    assert PropertyStep(conv, data, map[], d1) == Ok(map["ok" := Bool(true)]);
    assert GetValue(data, []) == Undefined;
    assert PropertyStep(conv, data, map["ok" := Bool(true)], d2) == Ok(map["ok" := Bool(true)]);
    assert [d2][1..] == [];
    assert ParseFrom(conv, [d2], data, map["ok" := Bool(true)]) == Ok(map["ok" := Bool(true)]);
    assert [d1, d2][1..] == [d2];
  }
}
