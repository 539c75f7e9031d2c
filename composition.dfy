/**
 * The composition resolver `decodeValue` and the parameter entry points
 * `decodeStyledParameter`, `decodeContentParameter` and
 * `defaultContentParameterDecoder` of decode_parameters.go.
 *
 * `decodeValue` answers Go's pair `(interface{}, error)`, modelled as
 * `Decoded`. Whether a branch "produced a value" is Go's `value != nil`;
 * how a nil slice or map coming back from `DecodeArray` / `DecodeObject`
 * compares with nil is the `Boxing` parameter (see `TypedNilShadowsAnyOf`).
 */
module Composition {
  import opened Wrappers
  import opened Values
  import opened Primitives
  import opened Locations

  /** Go's `(interface{}, error)`. */
  datatype Decoded = Decoded(value: Value, err: Option<Error>)

  /**
   * How a nil slice or nil map becomes an `interface{}`: `GoInterface` is what
   * the Go code does (a non-nil interface holding a nil slice or map);
   * `NilAware` treats it as nil, which is what the resolver's `value != nil`
   * tests are meant to see.
   */
  datatype Boxing = GoInterface | NilAware

  /** The result of `DecodeArray` as `decodeValue` sees it. */
  function BoxArray(boxing: Boxing, r: Result<Option<seq<Value>>, Error>): (d: Decoded)
    ensures r.Ok? && r.value.Some? ==> d == Decoded(List(r.value.value), None)
    ensures boxing == NilAware && !(r.Ok? && r.value.Some?) ==> d.value == Null
    ensures boxing == GoInterface ==> d.value != Null
    ensures d.err.Some? <==> r.Err?
  {
    match r
    case Ok(Some(items)) => Decoded(List(items), None)
    case Ok(None) => Decoded(if boxing == GoInterface then NilList else Null, None)
    case Err(e) => Decoded(if boxing == GoInterface then NilList else Null, Some(e))
  }

  /** The result of `DecodeObject` as `decodeValue` sees it. */
  function BoxObject(boxing: Boxing, r: Result<Option<map<string, Value>>, Error>): (d: Decoded)
    ensures r.Ok? && r.value.Some? ==> d == Decoded(Object(r.value.value), None)
    ensures boxing == NilAware && !(r.Ok? && r.value.Some?) ==> d.value == Null
    ensures boxing == GoInterface ==> d.value != Null
    ensures d.err.Some? <==> r.Err?
  {
    match r
    case Ok(Some(fields)) => Decoded(Object(fields), None)
    case Ok(None) => Decoded(if boxing == GoInterface then NilObject else Null, None)
    case Err(e) => Decoded(if boxing == GoInterface then NilObject else Null, Some(e))
  }

  /** The result of `DecodePrimitive`, already an `interface{}`. */
  function BoxPrimitive(r: Result<Value, Error>): (d: Decoded)
    ensures d.err.Some? <==> r.Err?
    ensures r.Err? ==> d.value == Null
  {
    match r
    case Ok(v) => Decoded(v, None)
    case Err(e) => Decoded(Null, Some(e))
  }

  /**
   * `decodeValue` never reaches a panicking `parsePrimitive`. Every branch of
   * a composition is asked to be safe, also those an early return skips.
   */
  predicate Decodable(dec: Decoder, name: string, sm: SerializationMethod, s: Schema)
    decreases s
  {
    if |s.allOf| > 0 then forall i :: 0 <= i < |s.allOf| ==> Decodable(dec, name, sm, s.allOf[i])
    else if |s.anyOf| > 0 then forall i :: 0 <= i < |s.anyOf| ==> Decodable(dec, name, sm, s.anyOf[i])
    else if |s.oneOf| > 0 then forall i :: 0 <= i < |s.oneOf| ==> Decodable(dec, name, sm, s.oneOf[i])
    else if s.notSchema.Some? || s.typ == "" then true
    else if s.typ == "array" then ArrayParseable(dec, name, sm, s)
    else if s.typ == "object" then ObjectParseable(dec, name, sm, s)
    else PrimitiveParseable(dec, name, sm, s)
  }

  /** Go's `value == nil || err != nil`: the result that ends an `allOf`. */
  predicate Stops(d: Decoded) {
    d.value == Null || d.err.Some?
  }

  /** `allOf`: the first branch result that is nil or an error, otherwise the last branch's. */
  function AllOf(results: seq<Decoded>): Decoded
    requires |results| > 0
  {
    if |results| == 1 || Stops(results[0]) then results[0] else AllOf(results[1..])
  }

  /** `anyOf`: the first non-nil branch value with no error; errors of branches are dropped. */
  function AnyOf(results: seq<Decoded>, required: bool, name: string): Decoded {
    if results == [] then
      if required then Decoded(Null, Some(ValidationError(name, AnyOfFailed))) else Decoded(Null, None)
    else if results[0].value != Null then Decoded(results[0].value, None)
    else AnyOf(results[1..], required, name)
  }

  /** The number of the first `n` branches with a non-nil value (`isMatched`). */
  function Matched(results: seq<Decoded>, n: nat): (count: nat)
    requires n <= |results|
    ensures count <= n
  {
    if n == 0 then 0
    else Matched(results, n - 1) + if results[n - 1].value != Null then 1 else 0
  }

  /** The last non-nil value among the first `n` branches, nil when there is none. */
  function LastMatch(results: seq<Decoded>, n: nat): Value
    requires n <= |results|
  {
    if n == 0 then Null
    else if results[n - 1].value != Null then results[n - 1].value
    else LastMatch(results, n - 1)
  }

  lemma MatchedStep(results: seq<Decoded>, i: nat, d: Decoded)
    requires i < |results| && d == results[i]
    ensures Matched(results, i + 1) == Matched(results, i) + if d.value != Null then 1 else 0
    ensures LastMatch(results, i + 1) == if d.value != Null then d.value else LastMatch(results, i)
  {
  }

  /** `oneOf`: the value when exactly one branch matched, an error naming the count when several did. */
  function OneOf(results: seq<Decoded>, required: bool, name: string): Decoded {
    OneOfOutcome(Matched(results, |results|), LastMatch(results, |results|), required, name)
  }

  /** What `oneOf` answers after counting `n` matches, the last one being `last`. */
  function OneOfOutcome(n: nat, last: Value, required: bool, name: string): Decoded {
    if n == 1 then Decoded(last, None)
    else if n > 1 then Decoded(Null, Some(ValidationError(name, OneOfMatched(n))))
    else if required then Decoded(Null, Some(ValidationError(name, OneOfRequired)))
    else Decoded(Null, None)
  }

  /** `decodeValue`: the value of `name` under schema `s`. */
  function Resolve(boxing: Boxing, dec: Decoder, name: string, sm: SerializationMethod, s: Schema, required: bool,
                   parseFloat: string -> Option<real>): Decoded
    requires Decodable(dec, name, sm, s)
    decreases s
  {
    if |s.allOf| > 0 then AllOf(ResolveAll(boxing, dec, name, sm, s.allOf, required, parseFloat))
    else if |s.anyOf| > 0 then AnyOf(ResolveAll(boxing, dec, name, sm, s.anyOf, required, parseFloat), required, name)
    else if |s.oneOf| > 0 then OneOf(ResolveAll(boxing, dec, name, sm, s.oneOf, required, parseFloat), required, name)
    else if s.notSchema.Some? then Decoded(Null, Some(OpenAPISpecError(name, NotNotImplemented)))
    else if s.typ == "" then Decoded(Null, None)
    else if s.typ == "array" then BoxArray(boxing, ArrayOf(dec, name, sm, s, parseFloat))
    else if s.typ == "object" then BoxObject(boxing, ObjectValueOf(dec, name, sm, s, parseFloat))
    else BoxPrimitive(DecodePrimitive(dec, name, sm, s, parseFloat))
  }

  /** The results of decoding `name` under each of the branch schemas. */
  function ResolveAll(boxing: Boxing, dec: Decoder, name: string, sm: SerializationMethod, bs: seq<Schema>, required: bool,
                      parseFloat: string -> Option<real>): (r: seq<Decoded>)
    requires forall i :: 0 <= i < |bs| ==> Decodable(dec, name, sm, bs[i])
    ensures |r| == |bs|
    decreases bs
  {
    if bs == [] then []
    else [Resolve(boxing, dec, name, sm, bs[0], required, parseFloat)] + ResolveAll(boxing, dec, name, sm, bs[1..], required, parseFloat)
  }

  /** Result `i` is branch `i` decoded on its own. */
  lemma {:induction false} ResolveAllAt(boxing: Boxing, dec: Decoder, name: string, sm: SerializationMethod, bs: seq<Schema>, required: bool,
                                        parseFloat: string -> Option<real>, i: nat)
    requires forall j :: 0 <= j < |bs| ==> Decodable(dec, name, sm, bs[j])
    requires i < |bs|
    ensures ResolveAll(boxing, dec, name, sm, bs, required, parseFloat)[i] == Resolve(boxing, dec, name, sm, bs[i], required, parseFloat)
  {
    if i > 0 {
      ResolveAllAt(boxing, dec, name, sm, bs[1..], required, parseFloat, i - 1);
    }
  }

  // ---------------------------------------------------------------------
  // The combinators' properties
  // ---------------------------------------------------------------------

  /** `allOf` returns the first result that is nil or an error, or the last result when none is. */
  lemma {:induction false} AllOfIs(results: seq<Decoded>, k: nat)
    requires k < |results|
    requires forall j :: 0 <= j < k ==> !Stops(results[j])
    requires Stops(results[k]) || k == |results| - 1
    ensures AllOf(results) == results[k]
  {
    if k > 0 {
      AllOfIs(results[1..], k - 1);
    }
  }

  /** `anyOf` returns the first non-nil value, whatever error any branch had. */
  lemma {:induction false} AnyOfFirstMatch(results: seq<Decoded>, required: bool, name: string, k: nat)
    requires k < |results| && results[k].value != Null
    requires forall j :: 0 <= j < k ==> results[j].value == Null
    ensures AnyOf(results, required, name) == Decoded(results[k].value, None)
  {
    if k > 0 {
      AnyOfFirstMatch(results[1..], required, name, k - 1);
    }
  }

  /** `anyOf` with no non-nil value fails iff the parameter is required. */
  lemma {:induction false} AnyOfNoMatch(results: seq<Decoded>, required: bool, name: string)
    requires forall j :: 0 <= j < |results| ==> results[j].value == Null
    ensures AnyOf(results, required, name) ==
      if required then Decoded(Null, Some(ValidationError(name, AnyOfFailed))) else Decoded(Null, None)
  {
    if results != [] {
      AnyOfNoMatch(results[1..], required, name);
    }
  }

  /** With no non-nil result nothing matched. */
  lemma {:induction false} MatchedNone(results: seq<Decoded>, n: nat)
    requires n <= |results|
    requires forall j :: 0 <= j < n ==> results[j].value == Null
    ensures Matched(results, n) == 0
  {
    if n > 0 {
      MatchedNone(results, n - 1);
    }
  }

  /** With exactly the result at `k` non-nil, one branch matched and its value is the last match. */
  lemma {:induction false} MatchedOne(results: seq<Decoded>, n: nat, k: nat)
    requires k < n <= |results| && results[k].value != Null
    requires forall j :: 0 <= j < n && j != k ==> results[j].value == Null
    ensures Matched(results, n) == 1 && LastMatch(results, n) == results[k].value
  {
    if k == n - 1 {
      MatchedNone(results, n - 1);
    } else {
      MatchedOne(results, n - 1, k);
    }
  }

  /** With a non-nil result, something matched. */
  lemma {:induction false} MatchedSome(results: seq<Decoded>, n: nat, k: nat)
    requires k < n <= |results| && results[k].value != Null
    ensures Matched(results, n) >= 1
  {
    if k < n - 1 {
      MatchedSome(results, n - 1, k);
    }
  }

  /** With two non-nil results, more than one branch matched. */
  lemma {:induction false} MatchedTwo(results: seq<Decoded>, n: nat, k: nat, l: nat)
    requires k < l < n <= |results| && results[k].value != Null && results[l].value != Null
    ensures Matched(results, n) > 1
  {
    if l == n - 1 {
      MatchedSome(results, n - 1, k);
    } else {
      MatchedTwo(results, n - 1, k, l);
    }
  }

  /** `oneOf` returns the value of the only non-nil branch, and no error. */
  lemma OneOfExactlyOne(results: seq<Decoded>, required: bool, name: string, k: nat)
    requires k < |results| && results[k].value != Null
    requires forall j :: 0 <= j < |results| && j != k ==> results[j].value == Null
    ensures OneOf(results, required, name) == Decoded(results[k].value, None)
  {
    MatchedOne(results, |results|, k);
  }

  /** `oneOf` with two or more non-nil branches fails with a validation error carrying the count. */
  lemma OneOfSeveral(results: seq<Decoded>, required: bool, name: string, k: nat, l: nat)
    requires k < l < |results| && results[k].value != Null && results[l].value != Null
    ensures Matched(results, |results|) > 1
    ensures OneOf(results, required, name) == Decoded(Null, Some(ValidationError(name, OneOfMatched(Matched(results, |results|)))))
  {
    MatchedTwo(results, |results|, k, l);
  }

  /** `oneOf` with no non-nil branch fails iff the parameter is required. */
  lemma OneOfNone(results: seq<Decoded>, required: bool, name: string)
    requires forall j :: 0 <= j < |results| ==> results[j].value == Null
    ensures OneOf(results, required, name) ==
      if required then Decoded(Null, Some(ValidationError(name, OneOfRequired))) else Decoded(Null, None)
  {
    MatchedNone(results, |results|);
  }

  /** `not` is reported as unimplemented, and a schema without a type decodes to nil. */
  lemma NotAndUntyped(boxing: Boxing, dec: Decoder, name: string, sm: SerializationMethod, s: Schema, required: bool,
                      parseFloat: string -> Option<real>)
    requires |s.allOf| == 0 && |s.anyOf| == 0 && |s.oneOf| == 0
    ensures Decodable(dec, name, sm, s) && s.notSchema.Some? ==>
      Resolve(boxing, dec, name, sm, s, required, parseFloat) == Decoded(Null, Some(OpenAPISpecError(name, NotNotImplemented)))
    ensures Decodable(dec, name, sm, s) && s.notSchema.None? && s.typ == "" ==>
      Resolve(boxing, dec, name, sm, s, required, parseFloat) == Decoded(Null, None)
  {
  }

  // ---------------------------------------------------------------------
  // The typed-nil finding
  // ---------------------------------------------------------------------

  /**
   * With nil-aware boxing, a non-nil value never comes with an error: a
   * branch that failed or found nothing is skipped by `anyOf` and not
   * counted by `oneOf`.
   */
  lemma {:induction false} NilAwareValueMeansSuccess(dec: Decoder, name: string, sm: SerializationMethod, s: Schema, required: bool,
                                                     parseFloat: string -> Option<real>)
    requires Decodable(dec, name, sm, s)
    ensures var d := Resolve(NilAware, dec, name, sm, s, required, parseFloat);
      d.value != Null ==> d.err.None?
    decreases s
  {
    if |s.allOf| > 0 {
      var results := ResolveAll(NilAware, dec, name, sm, s.allOf, required, parseFloat);
      forall i | 0 <= i < |s.allOf| ensures results[i].value != Null ==> results[i].err.None? {
        ResolveAllAt(NilAware, dec, name, sm, s.allOf, required, parseFloat, i);
        NilAwareValueMeansSuccess(dec, name, sm, s.allOf[i], required, parseFloat);
      }
      AllOfInResults(results);
    } else if |s.anyOf| > 0 {
      AnyOfClean(ResolveAll(NilAware, dec, name, sm, s.anyOf, required, parseFloat), required, name);
    } else if |s.oneOf| == 0 && s.notSchema.None? && s.typ != "" && s.typ != "array" && s.typ != "object" {
      var r := DecodePrimitive(dec, name, sm, s, parseFloat);
      assert Resolve(NilAware, dec, name, sm, s, required, parseFloat) == BoxPrimitive(r);
    }
  }

  /** `anyOf` never reports an error beside a value. */
  lemma {:induction false} AnyOfClean(results: seq<Decoded>, required: bool, name: string)
    ensures var d := AnyOf(results, required, name); d.value != Null ==> d.err.None?
  {
    if results != [] && results[0].value == Null {
      AnyOfClean(results[1..], required, name);
    }
  }

  /** `allOf` returns one of the branch results. */
  lemma {:induction false} AllOfInResults(results: seq<Decoded>)
    requires |results| > 0
    ensures exists i :: 0 <= i < |results| && AllOf(results) == results[i]
  {
    if |results| > 1 && !Stops(results[0]) {
      AllOfInResults(results[1..]);
      var i :| 0 <= i < |results[1..]| && AllOf(results[1..]) == results[1..][i];
      assert AllOf(results) == results[i + 1];
    } else {
      assert AllOf(results) == results[0];
    }
  }

  /** The parameter of the counterexample: an `anyOf` of an integer array and a string. */
  function IntArrayOrString(): Schema {
    EmptySchema().(anyOf := [TypeSchema("array").(items := Some(TypeSchema("integer"))), TypeSchema("string")])
  }

  /**
   * As written, the `anyOf` of an integer array and a string, given the
   * query `x=abc`, answers a nil slice with no error: the array branch fails
   * to parse `abc`, but its nil slice is a non-nil interface, so the string
   * branch is never tried. Nil-aware boxing answers the string `abc`.
   */
  lemma TypedNilShadowsAnyOf(parseFloat: string -> Option<real>)
    requires parseFloat("abc") == None
    ensures var dec := QueryDecoder([("x", "abc")]);
      var sm := SerializationMethod(Form, true);
      && Decodable(dec, "x", sm, IntArrayOrString())
      && Resolve(GoInterface, dec, "x", sm, IntArrayOrString(), false, parseFloat) == Decoded(NilList, None)
      && Resolve(NilAware, dec, "x", sm, IntArrayOrString(), false, parseFloat) == Decoded(Str("abc"), None)
  {
    var dec := QueryDecoder([("x", "abc")]);
    var sm := SerializationMethod(Form, true);
    var s := IntArrayOrString();
    QueryAbcBranches(parseFloat);
    var asWritten := ResolveAll(GoInterface, dec, "x", sm, s.anyOf, false, parseFloat);
    ResolveAllAt(GoInterface, dec, "x", sm, s.anyOf, false, parseFloat, 0);
    AnyOfFirstMatch(asWritten, false, "x", 0);
    var intended := ResolveAll(NilAware, dec, "x", sm, s.anyOf, false, parseFloat);
    ResolveAllAt(NilAware, dec, "x", sm, s.anyOf, false, parseFloat, 0);
    ResolveAllAt(NilAware, dec, "x", sm, s.anyOf, false, parseFloat, 1);
    AnyOfFirstMatch(intended, false, "x", 1);
  }

  /** The two branches of `IntArrayOrString` on the query `x=abc`: the array fails, the string decodes. */
  lemma QueryAbcBranches(parseFloat: string -> Option<real>)
    requires parseFloat("abc") == None
    ensures var dec := QueryDecoder([("x", "abc")]);
      var sm := SerializationMethod(Form, true);
      && Decodable(dec, "x", sm, IntArrayOrString())
      && ArrayOf(dec, "x", sm, IntArrayOrString().anyOf[0], parseFloat).Err?
      && DecodePrimitive(dec, "x", sm, IntArrayOrString().anyOf[1], parseFloat) == Ok(Str("abc"))
  {
    var dec := QueryDecoder([("x", "abc")]);
    var sm := SerializationMethod(Form, true);
    assert [("x", "abc")][..0] == [];
    assert Occurrences([("x", "abc")], "x") == ["abc"];
    assert ArrayPieces(dec, "x", sm) == Ok(Some(["abc"]));
    assert PrimitiveSource(dec, "x", sm) == Ok(Some("abc"));
  }

  // ---------------------------------------------------------------------
  // decodeValue
  // ---------------------------------------------------------------------

  /**
   * `decodeValue`, with nil-aware boxing: walks `allOf`, `anyOf` and `oneOf`
   * branch by branch, then dispatches on the schema's type.
   */
  method DecodeValue(dec: Decoder, name: string, sm: SerializationMethod, s: Schema, required: bool,
                     parseFloat: string -> Option<real>) returns (r: Decoded)
    requires Decodable(dec, name, sm, s)
    ensures r == Resolve(NilAware, dec, name, sm, s, required, parseFloat)
    ensures r.value != Null ==> r.err.None?
    decreases s, 2
  {
    NilAwareValueMeansSuccess(dec, name, sm, s, required, parseFloat);
    if |s.allOf| > 0 {
      r := DecodeAllOf(dec, name, sm, s, required, parseFloat);
    } else if |s.anyOf| > 0 {
      r := DecodeAnyOf(dec, name, sm, s, required, parseFloat);
    } else if |s.oneOf| > 0 {
      r := DecodeOneOf(dec, name, sm, s, required, parseFloat);
    } else if s.notSchema.Some? {
      r := Decoded(Null, Some(OpenAPISpecError(name, NotNotImplemented)));
    } else if s.typ == "" {
      r := Decoded(Null, None);
    } else if s.typ == "array" {
      var a := DecodeArray(dec, name, sm, s, parseFloat);
      r := BoxArray(NilAware, a);
    } else if s.typ == "object" {
      var o := DecodeObject(dec, name, sm, s, parseFloat);
      r := BoxObject(NilAware, o);
    } else {
      r := BoxPrimitive(DecodePrimitive(dec, name, sm, s, parseFloat));
    }
  }

  /** Decodes branch `i` of a composition. */
  method DecodeBranch(dec: Decoder, name: string, sm: SerializationMethod, ghost s: Schema, bs: seq<Schema>, i: nat, required: bool,
                      parseFloat: string -> Option<real>, ghost results: seq<Decoded>) returns (d: Decoded)
    requires bs == s.allOf || bs == s.anyOf || bs == s.oneOf
    requires forall j :: 0 <= j < |bs| ==> Decodable(dec, name, sm, bs[j])
    requires results == ResolveAll(NilAware, dec, name, sm, bs, required, parseFloat)
    requires i < |bs|
    ensures i < |results| && d == results[i]
    decreases s, 0
  {
    d := DecodeValue(dec, name, sm, bs[i], required, parseFloat);
    ResolveAllAt(NilAware, dec, name, sm, bs, required, parseFloat, i);
  }

  /** The `allOf` loop of `decodeValue`: stops at the first branch that is nil or fails. */
  method DecodeAllOf(dec: Decoder, name: string, sm: SerializationMethod, s: Schema, required: bool,
                     parseFloat: string -> Option<real>) returns (r: Decoded)
    requires |s.allOf| > 0 && Decodable(dec, name, sm, s)
    ensures r == AllOf(ResolveAll(NilAware, dec, name, sm, s.allOf, required, parseFloat))
    decreases s, 1
  {
    ghost var results := ResolveAll(NilAware, dec, name, sm, s.allOf, required, parseFloat);
    var i := 0;
    while true
      invariant 0 <= i < |s.allOf|
      invariant forall j :: 0 <= j < i ==> !Stops(results[j])
      decreases |s.allOf| - i
    {
      r := DecodeBranch(dec, name, sm, s, s.allOf, i, required, parseFloat, results);
      if Stops(r) || i == |s.allOf| - 1 {
        AllOfIs(results, i);
        return;
      }
      i := i + 1;
    }
  }

  /** The `anyOf` loop of `decodeValue`: the first branch with a value wins, failed branches are skipped. */
  method DecodeAnyOf(dec: Decoder, name: string, sm: SerializationMethod, s: Schema, required: bool,
                     parseFloat: string -> Option<real>) returns (r: Decoded)
    requires |s.allOf| == 0 && |s.anyOf| > 0 && Decodable(dec, name, sm, s)
    ensures r == AnyOf(ResolveAll(NilAware, dec, name, sm, s.anyOf, required, parseFloat), required, name)
    decreases s, 1
  {
    ghost var results := ResolveAll(NilAware, dec, name, sm, s.anyOf, required, parseFloat);
    for i := 0 to |s.anyOf|
      invariant forall j :: 0 <= j < i ==> results[j].value == Null
    {
      var d := DecodeBranch(dec, name, sm, s, s.anyOf, i, required, parseFloat, results);
      if d.value != Null {
        AnyOfFirstMatch(results, required, name, i);
        return Decoded(d.value, None);
      }
    }
    AnyOfNoMatch(results, required, name);
    if required {
      return Decoded(Null, Some(ValidationError(name, AnyOfFailed)));
    }
    return Decoded(Null, None);
  }

  /** The `oneOf` loop of `decodeValue`: counts the branches with a value, keeping the last. */
  method DecodeOneOf(dec: Decoder, name: string, sm: SerializationMethod, s: Schema, required: bool,
                     parseFloat: string -> Option<real>) returns (r: Decoded)
    requires |s.allOf| == 0 && |s.anyOf| == 0 && |s.oneOf| > 0 && Decodable(dec, name, sm, s)
    ensures r == OneOf(ResolveAll(NilAware, dec, name, sm, s.oneOf, required, parseFloat), required, name)
    decreases s, 1
  {
    ghost var results := ResolveAll(NilAware, dec, name, sm, s.oneOf, required, parseFloat);
    var isMatched := 0;
    var value := Null;
    for i := 0 to |s.oneOf|
      invariant isMatched == Matched(results, i)
      invariant value == LastMatch(results, i)
    {
      var d := DecodeBranch(dec, name, sm, s, s.oneOf, i, required, parseFloat, results);
      MatchedStep(results, i, d);
      if d.value != Null {
        value := d.value;
        isMatched := isMatched + 1;
      }
    }
    r := OneOfOutcome(isMatched, value, required, name);
  }

  // ---------------------------------------------------------------------
  // The parameter entry points
  // ---------------------------------------------------------------------

  /** The parts of a request the parameter decoders read. */
  datatype Request = Request(
    routeParams: map<string, string>,
    query: seq<(string, string)>,
    header: map<string, string>,
    cookies: map<string, string>)

  /**
   * A parameter object: its `in`, its schema and serialization method for a
   * styled parameter, and its `content` map (media type to schema) for a
   * content parameter.
   */
  datatype Parameter = Parameter(
    name: string,
    in_: string,
    required: bool,
    schema: Schema,
    serialization: SerializationMethod,
    content: Option<map<string, Schema>>)

  /** The decoder `decodeStyledParameter` builds, or `None` when it answers nil before decoding. */
  function StyledDecoder(p: Parameter, req: Request): Option<Decoder>
    requires p.in_ in {"path", "query", "header", "cookie"}
  {
    if p.in_ == "path" then
      if req.routeParams == map[] then None else Some(PathDecoder(req.routeParams))
    else if p.in_ == "query" then
      if req.query == [] then None else Some(QueryDecoder(req.query))
    else if p.in_ == "header" then Some(HeaderDecoder(req.header))
    else Some(CookieDecoder(req.cookies))
  }

  /** `decodeValue` does not panic on the decoder `decodeStyledParameter` builds. */
  predicate StyledDecodable(p: Parameter, req: Request) {
    p.in_ in {"path", "query", "header", "cookie"} && StyledDecoder(p, req).Some? ==>
      Decodable(StyledDecoder(p, req).value, p.name, p.serialization, p.schema)
  }

  /** What `decodeStyledParameter` returns. */
  function StyledParameterOf(boxing: Boxing, p: Parameter, req: Request, parseFloat: string -> Option<real>): (d: Decoded)
    requires StyledDecodable(p, req)
  {
    if p.in_ !in {"path", "query", "header", "cookie"} then
      Decoded(Null, Some(OpenAPISpecError(p.name, UnsupportedIn(p.in_))))
    else
      match StyledDecoder(p, req)
      case None => Decoded(Null, None)
      case Some(dec) => Resolve(boxing, dec, p.name, p.serialization, p.schema, p.required, parseFloat)
  }

  /**
   * The anyOf counterexample reaches `decodeStyledParameter` unchanged: a
   * query parameter `x` of an integer array or a string, given `x=abc`, is
   * a nil slice with no error as written, and the string `abc` with
   * nil-aware boxing.
   */
  lemma StyledTypedNil(parseFloat: string -> Option<real>)
    requires parseFloat("abc") == None
    ensures var p := Parameter("x", "query", false, IntArrayOrString(), SerializationMethod(Form, true), None);
      var req := Request(map[], [("x", "abc")], map[], map[]);
      && StyledDecodable(p, req)
      && StyledParameterOf(GoInterface, p, req, parseFloat) == Decoded(NilList, None)
      && StyledParameterOf(NilAware, p, req, parseFloat) == Decoded(Str("abc"), None)
  {
    var p := Parameter("x", "query", false, IntArrayOrString(), SerializationMethod(Form, true), None);
    var req := Request(map[], [("x", "abc")], map[], map[]);
    assert StyledDecoder(p, req) == Some(QueryDecoder([("x", "abc")]));
    TypedNilShadowsAnyOf(parseFloat);
  }

  /**
   * `decodeStyledParameter`: a route without parameters or a query without
   * arguments is nil, an unknown `in` is a specification error, and
   * otherwise the location's decoder resolves the schema.
   */
  method DecodeStyledParameter(p: Parameter, req: Request, parseFloat: string -> Option<real>) returns (r: Decoded)
    requires StyledDecodable(p, req)
    ensures r == StyledParameterOf(NilAware, p, req, parseFloat)
    ensures p.in_ !in {"path", "query", "header", "cookie"} ==> r.err == Some(OpenAPISpecError(p.name, UnsupportedIn(p.in_)))
    ensures p.in_ == "path" && req.routeParams == map[] ==> r == Decoded(Null, None)
    ensures p.in_ == "query" && req.query == [] ==> r == Decoded(Null, None)
    ensures r.value != Null ==> r.err.None?
  {
    var dec: Decoder;
    if p.in_ == "path" {
      if req.routeParams == map[] {
        return Decoded(Null, None);
      }
      dec := PathDecoder(req.routeParams);
    } else if p.in_ == "query" {
      if req.query == [] {
        return Decoded(Null, None);
      }
      dec := QueryDecoder(req.query);
    } else if p.in_ == "header" {
      dec := HeaderDecoder(req.header);
    } else if p.in_ == "cookie" {
      dec := CookieDecoder(req.cookies);
    } else {
      return Decoded(Null, Some(OpenAPISpecError(p.name, UnsupportedIn(p.in_))));
    }
    r := DecodeValue(dec, p.name, p.serialization, p.schema, p.required, parseFloat);
  }

  /** Go's `(value, schema, err)` of a content parameter. */
  datatype ContentDecoded = ContentDecoded(value: Value, schema: Option<Schema>, err: Option<Error>)

  /** Every value unmarshalled, or `None` at the first that fails. */
  function UnmarshalAll(values: seq<string>, unmarshal: string -> Option<Value>): (r: Option<seq<Value>>)
    ensures r.Some? <==> forall i :: 0 <= i < |values| ==> unmarshal(values[i]).Some?
    ensures r.Some? ==> |r.value| == |values| && forall i :: 0 <= i < |values| ==> Some(r.value[i]) == unmarshal(values[i])
  {
    if values == [] then Some([])
    else
      match UnmarshalAll(values[..|values| - 1], unmarshal)
      case None => None
      case Some(init) =>
        match unmarshal(values[|values| - 1])
        case None => None
        case Some(v) => Some(init + [v])
  }

  /**
   * kin-openapi's `Content.Get("application/json")`: the exact media type,
   * then the wildcard `application/*`, then the catch-all `*/*`.
   */
  function JsonMediaType(content: map<string, Schema>): (r: Option<Schema>)
    ensures r.Some? <==> "application/json" in content || "application/*" in content || "*/*" in content
    ensures "application/json" in content ==> r == Some(content["application/json"])
    ensures r.Some? && "application/json" !in content ==>
      r == Some(if "application/*" in content then content["application/*"] else content["*/*"])
  {
    if "application/json" in content then Some(content["application/json"])
    else if "application/*" in content then Some(content["application/*"])
    else if "*/*" in content then Some(content["*/*"])
    else None
  }

  /** What `defaultContentParameterDecoder` returns. */
  function ContentValuesOf(p: Parameter, values: seq<string>, unmarshal: string -> Option<Value>): ContentDecoded {
    if |values| > 1 && p.in_ != "query" then ContentDecoded(Null, None, Some(OpenAPISpecError(p.name, MultipleValues)))
    else if p.content.None? then ContentDecoded(Null, None, Some(OpenAPISpecError(p.name, ExpectedContent)))
    else if |p.content.value| != 1 then ContentDecoded(Null, None, Some(OpenAPISpecError(p.name, MultipleContent)))
    else if JsonMediaType(p.content.value).None? then ContentDecoded(Null, None, Some(OpenAPISpecError(p.name, NoContentSchema)))
    else
      var schema := JsonMediaType(p.content.value).value;
      if |values| == 1 then
        match unmarshal(values[0])
        case None => ContentDecoded(Null, Some(schema), Some(ValidationError(p.name, UnmarshallingFailed)))
        case Some(v) => ContentDecoded(v, Some(schema), None)
      else
        match UnmarshalAll(values, unmarshal)
        case None => ContentDecoded(Null, Some(schema), Some(ValidationError(p.name, UnmarshallingFailed)))
        case Some(items) => ContentDecoded(List(items), Some(schema), None)
  }

  /**
   * `defaultContentParameterDecoder`: after the specification checks, one
   * value is unmarshalled as it is and several become a list, in order.
   */
  method DefaultContentParameterDecoder(p: Parameter, values: seq<string>, unmarshal: string -> Option<Value>)
    returns (r: ContentDecoded)
    ensures r == ContentValuesOf(p, values, unmarshal)
  {
    if |values| > 1 && p.in_ != "query" {
      return ContentDecoded(Null, None, Some(OpenAPISpecError(p.name, MultipleValues)));
    }
    if p.content.None? {
      return ContentDecoded(Null, None, Some(OpenAPISpecError(p.name, ExpectedContent)));
    }
    if |p.content.value| != 1 {
      return ContentDecoded(Null, None, Some(OpenAPISpecError(p.name, MultipleContent)));
    }
    var mt := JsonMediaType(p.content.value);
    if mt.None? {
      return ContentDecoded(Null, None, Some(OpenAPISpecError(p.name, NoContentSchema)));
    }
    var schema := mt.value;
    if |values| == 1 {
      var v := unmarshal(values[0]);
      if v.None? {
        return ContentDecoded(Null, Some(schema), Some(ValidationError(p.name, UnmarshallingFailed)));
      }
      return ContentDecoded(v.value, Some(schema), None);
    }
    var outArray: seq<Value> := [];
    for i := 0 to |values|
      invariant UnmarshalAll(values[..i], unmarshal) == Some(outArray)
    {
      var item := unmarshal(values[i]);
      assert values[..i + 1][..i] == values[..i];
      if item.None? {
        assert UnmarshalAll(values[..i + 1], unmarshal).None?;
        assert values[..i + 1] == values[..i + 1][..i + 1];
        assert UnmarshalAll(values, unmarshal).None?;
        return ContentDecoded(Null, Some(schema), Some(ValidationError(p.name, UnmarshallingFailed)));
      }
      outArray := outArray + [item.value];
    }
    assert values[..|values|] == values;
    return ContentDecoded(List(outArray), Some(schema), None);
  }

  /**
   * A content parameter decodes only with a single content entry that
   * `Content.Get("application/json")` finds (`application/json`,
   * `application/*` or `*/*`), and only a query parameter may carry several
   * values; the schema is that entry's, and the value is the unmarshalled
   * text, or the list of unmarshalled texts.
   */
  lemma ContentSuccess(p: Parameter, values: seq<string>, unmarshal: string -> Option<Value>)
    requires ContentValuesOf(p, values, unmarshal).err.None?
    ensures var r := ContentValuesOf(p, values, unmarshal);
      && (|values| <= 1 || p.in_ == "query")
      && p.content.Some?
      && var m := p.content.value;
      && ((m.Keys == {"application/json"} && r.schema == Some(m["application/json"]))
          || (m.Keys == {"application/*"} && r.schema == Some(m["application/*"]))
          || (m.Keys == {"*/*"} && r.schema == Some(m["*/*"])))
      && (|values| == 1 ==> unmarshal(values[0]) == Some(r.value))
      && (|values| != 1 ==>
            (r.value.List? && |r.value.items| == |values|
             && forall i :: 0 <= i < |values| ==> unmarshal(values[i]) == Some(r.value.items[i])))
  {
    var m := p.content.value;
    var k := if "application/json" in m then "application/json" else if "application/*" in m then "application/*" else "*/*";
    assert k in m;
    assert m.Keys == {k} by {
      if exists k' :: k' in m && k' != k {
        var k' :| k' in m && k' != k;
        assert {k', k} <= m.Keys;
        assert |{k', k}| == 2;
        SubsetCard({k', k}, m.Keys);
      }
    }
  }

  /**
   * With one content entry and an acceptable number of values, the entry's
   * media type decides: `application/json`, `application/*` and `*/*` are
   * found, any other is "no content schema found".
   */
  lemma ContentKeyDecides(p: Parameter, values: seq<string>, unmarshal: string -> Option<Value>, k: string)
    requires |values| <= 1 || p.in_ == "query"
    requires p.content.Some? && p.content.value.Keys == {k}
    ensures ContentValuesOf(p, values, unmarshal).err == Some(OpenAPISpecError(p.name, NoContentSchema))
      <==> k != "application/json" && k != "application/*" && k != "*/*"
  {
    assert |p.content.value| == |p.content.value.Keys| == 1;
  }

  lemma SubsetCard(a: set<string>, b: set<string>)
    requires a <= b
    ensures |a| <= |b|
  {
    assert b == a + (b - a);
  }

  /** The values of a content parameter at its location, or `None` when the request does not carry it. */
  function ContentValues(p: Parameter, req: Request): Option<seq<string>>
    requires p.in_ in {"path", "query", "header", "cookie"}
  {
    if p.in_ == "path" then
      if Lookup(req.routeParams, p.name) != "" then Some([req.routeParams[p.name]]) else None
    else if p.in_ == "query" then
      var values := Occurrences(req.query, p.name);
      if values != [] then Some(values) else None
    else if p.in_ == "header" then
      if Lookup(req.header, p.name) != "" then Some([req.header[p.name]]) else None
    else
      if Lookup(req.cookies, p.name) != "" then Some([req.cookies[p.name]]) else None
  }

  /**
   * `decodeContentParameter`: an unknown `in` is a specification error; a
   * parameter the request does not carry is nil, or an error when it is
   * required; otherwise the default content decoder runs.
   */
  method DecodeContentParameter(p: Parameter, req: Request, unmarshal: string -> Option<Value>) returns (r: ContentDecoded)
    ensures p.in_ !in {"path", "query", "header", "cookie"} ==> r == ContentDecoded(Null, None, Some(OpenAPISpecError(p.name, UnknownIn)))
    ensures p.in_ in {"path", "query", "header", "cookie"} && ContentValues(p, req).None? ==>
      r == ContentDecoded(Null, None, if p.required then Some(ValidationError(p.name, FieldRequired)) else None)
    ensures p.in_ in {"path", "query", "header", "cookie"} && ContentValues(p, req).Some? ==>
      r == ContentValuesOf(p, ContentValues(p, req).value, unmarshal)
  {
    if p.in_ !in {"path", "query", "header", "cookie"} {
      return ContentDecoded(Null, None, Some(OpenAPISpecError(p.name, UnknownIn)));
    }
    var found := ContentValues(p, req);
    if found.None? {
      if p.required {
        return ContentDecoded(Null, None, Some(ValidationError(p.name, FieldRequired)));
      }
      return ContentDecoded(Null, None, None);
    }
    r := DefaultContentParameterDecoder(p, found.value, unmarshal);
  }
}
