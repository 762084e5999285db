/**
 * The request-independent logic of `Page`: the checks `rate` makes on its
 * arguments, the parameters `getInfo` sends, the decoding of the ID list
 * `getTreeIds` receives, and the condition under which `getFullInfo` turns a
 * 404 into a virtual page. The requests themselves and `pageModel.parse` are
 * not part of this model; the parser is passed in as a function.
 */
module Page {
  import opened Wrappers
  import opened Js
  import opened Strings

  // ---- rate ------------------------------------------------------------------

  /** The `score` and `previousScore` query parameters of a rating. */
  datatype RatingParams = RatingParams(score: string, previousScore: string)

  /** The three scores the API accepts: up, down, and none. */
  predicate AcceptedRating(s: string)
  {
    s == "1" || s == "0" || s == ""
  }

  /** A parameter defaulted to '' when it is undefined. */
  function DefaultEmpty(v: Json): (r: Json)
  {
    if v.Undefined? then Str("") else v
  }

  /**
   * `rate(rating = '', oldRating = '')` up to the request: both arguments are
   * converted with `toString()` first, then the rating is checked, then the
   * old rating.
   */
  function Rate(rating: Json, oldRating: Json): (r: Result<RatingParams, Exception>)
  {
    var score :- ToStringCall(DefaultEmpty(rating));
    var previous :- ToStringCall(DefaultEmpty(oldRating));
    if !AcceptedRating(score) then Err(Error("Invalid rating supplied"))
    else if !AcceptedRating(previous) then Err(Error("Invalid rating supplied for the old rating"))
    else Ok(RatingParams(score, previous))
  }

  /**
   * A rating is sent exactly when neither argument is null and both render
   * as '1', '0' or ''; the rendered strings are what is sent.
   */
  lemma RateAccepts(rating: Json, oldRating: Json)
    ensures Rate(rating, oldRating).Ok? <==>
            && !rating.Null? && !oldRating.Null?
            && AcceptedRating(StringOf(DefaultEmpty(rating)))
            && AcceptedRating(StringOf(DefaultEmpty(oldRating)))
    ensures Rate(rating, oldRating).Ok? ==>
            Rate(rating, oldRating).value
            == RatingParams(StringOf(DefaultEmpty(rating)), StringOf(DefaultEmpty(oldRating)))
  {
    RateSteps(rating, oldRating);
    DefaultEmptyToString(rating);
    DefaultEmptyToString(oldRating);
  }

  /** A defaulted argument fails `toString()` exactly when it is null. */
  lemma DefaultEmptyToString(v: Json)
    ensures ToStringCall(DefaultEmpty(v)).Err? <==> v.Null?
    ensures ToStringCall(DefaultEmpty(v)).Ok? ==> ToStringCall(DefaultEmpty(v)).value == StringOf(DefaultEmpty(v))
  {
  }

  /**
   * The errors: a null argument fails in `toString()` before any check; a bad
   * rating is reported whatever the old rating is; the old-rating error only
   * comes after the rating passed.
   */
  lemma RateErrors(rating: Json, oldRating: Json)
    ensures rating.Null? || oldRating.Null? ==> Rate(rating, oldRating).Err? && Rate(rating, oldRating).error.TypeError?
    ensures !rating.Null? && !oldRating.Null? && !AcceptedRating(StringOf(DefaultEmpty(rating))) ==>
            Rate(rating, oldRating) == Err(Error("Invalid rating supplied"))
    ensures !rating.Null? && !oldRating.Null? && AcceptedRating(StringOf(DefaultEmpty(rating)))
            && !AcceptedRating(StringOf(DefaultEmpty(oldRating))) ==>
            Rate(rating, oldRating) == Err(Error("Invalid rating supplied for the old rating"))
  {
    RateSteps(rating, oldRating);
  }

  /** `Rate` in terms of the two `toString()` results. */
  lemma RateSteps(rating: Json, oldRating: Json)
    ensures var a := ToStringCall(DefaultEmpty(rating));
            var b := ToStringCall(DefaultEmpty(oldRating));
            Rate(rating, oldRating)
            == if a.Err? then Err(a.error) else if b.Err? then Err(b.error)
               else if !AcceptedRating(a.value) then Err(Error("Invalid rating supplied"))
               else if !AcceptedRating(b.value) then Err(Error("Invalid rating supplied for the old rating"))
               else Ok(RatingParams(a.value, b.value))
  {
  }

  /** The rendering of an integer is '1', '0' or never ''. */
  lemma IntToStringSmall(n: int)
    ensures IntToString(n) == "1" <==> n == 1
    ensures IntToString(n) == "0" <==> n == 0
    ensures IntToString(n) != ""
  {
    var m: nat := if n < 0 then -n else n;
    NatToStringCanonical(m);
    if n >= 0 && |NatToString(n)| == 1 {
      assert NatToString(n) == [NatToString(n)[0]];
    }
  }

  /** Numbers are accepted as ratings exactly when they are 0 or 1; booleans never are. */
  lemma RateNumbers(n: int, m: int, b: bool)
    ensures Rate(Num(n), Num(m)).Ok? <==> (n == 0 || n == 1) && (m == 0 || m == 1)
    ensures Rate(Bool(b), Undefined) == Err(Error("Invalid rating supplied"))
    ensures Rate(Undefined, Undefined) == Ok(RatingParams("", ""))
  {
    IntToStringSmall(n);
    IntToStringSmall(m);
  }

  // ---- getInfo -----------------------------------------------------------------

  /** The parameters `getInfo` starts from. */
  const InfoDefaults: map<string, Json> := map["exclude" := Str("revision")]

  /**
   * `getInfo(params)`: `infoParams` starts as the defaults and every own key
   * of `params` is copied over it, one key at a time.
   */
  method GetInfoParams(params: map<string, Json>) returns (info: map<string, Json>)
    ensures info == InfoDefaults + params
  {
    info := InfoDefaults;
    var remaining := params.Keys;
    while remaining != {}
      invariant remaining <= params.Keys
      invariant info == InfoDefaults + map k | k in params.Keys - remaining :: params[k]
      decreases remaining
    {
      var key :| key in remaining;
      info := info[key := params[key]];
      remaining := remaining - {key};
    }
    assert params == map k | k in params.Keys - remaining :: params[k];
  }

  /**
   * The merged parameters hold every caller key with the caller's value (so
   * a caller's `exclude` wins), plus `exclude=revision` when the caller gave none.
   */
  lemma InfoParamsMerge(params: map<string, Json>)
    ensures (InfoDefaults + params).Keys == params.Keys + {"exclude"}
    ensures forall k :: k in params ==> (InfoDefaults + params)[k] == params[k]
    ensures "exclude" !in params ==> (InfoDefaults + params)["exclude"] == Str("revision")
  {
  }

  // ---- getTreeIds --------------------------------------------------------------

  /** The message of the rejection when an ID does not parse. */
  const TreeIdsError := "Unable to parse the tree IDs."

  /** `parseInt(id, 10)` of every piece, in order; the first NaN aborts the whole list. */
  function DecodeIds(pieces: seq<string>): (r: Result<seq<int>, string>)
  {
    if pieces == [] then Ok([])
    else
      var id := ParseInt(pieces[0]);
      if id.None? then Err(TreeIdsError)
      else
        var rest :- DecodeIds(pieces[1..]);
        Ok([id.value] + rest)
  }

  /** The decoding in `getTreeIds`: split on ',' and parse each piece. */
  function DecodeTreeIds(idString: string): (r: Result<seq<int>, string>)
  {
    DecodeIds(Split(idString, ','))
  }

  /**
   * The decoding succeeds exactly when every piece has a leading integer,
   * and then yields one ID per piece, in order; otherwise it fails with the
   * tree-ID message.
   */
  lemma {:induction false} DecodeIdsIff(pieces: seq<string>)
    ensures DecodeIds(pieces).Ok? <==> forall i :: 0 <= i < |pieces| ==> ParseInt(pieces[i]).Some?
    ensures DecodeIds(pieces).Ok? ==>
            |DecodeIds(pieces).value| == |pieces|
            && forall i :: 0 <= i < |pieces| ==> DecodeIds(pieces).value[i] == ParseInt(pieces[i]).value
    ensures DecodeIds(pieces).Err? ==> DecodeIds(pieces).error == TreeIdsError
  {
    if pieces != [] {
      DecodeIdsIff(pieces[1..]);
      if ParseInt(pieces[0]).Some? && DecodeIds(pieces[1..]).Ok? {
        var r := DecodeIds(pieces).value;
        assert r == [ParseInt(pieces[0]).value] + DecodeIds(pieces[1..]).value;
        forall i | 0 <= i < |pieces|
          ensures r[i] == ParseInt(pieces[i]).value
        {
          if i > 0 {
            assert pieces[1..][i - 1] == pieces[i];
          }
        }
      } else if ParseInt(pieces[0]).Some? {
        var i :| 0 <= i < |pieces[1..]| && ParseInt(pieces[1..][i]).None?;
        assert pieces[i + 1] == pieces[1..][i];
      }
    }
  }

  /** The ID list as the server writes it: the decimal renderings joined by ','. */
  function RenderIds(ids: seq<int>): (r: seq<string>)
    ensures |r| == |ids|
    ensures forall i :: 0 <= i < |ids| ==> r[i] == IntToString(ids[i])
  {
    if ids == [] then [] else [IntToString(ids[0])] + RenderIds(ids[1..])
  }

  lemma NoCommaInInt(n: int)
    ensures ',' !in IntToString(n)
  {
    var m: nat := if n < 0 then -n else n;
    NatToStringCanonical(m);
  }

  /** Decoding a non-empty list of rendered IDs gives the IDs back. */
  lemma TreeIdsRoundTrip(ids: seq<int>)
    requires |ids| > 0
    ensures DecodeTreeIds(Join(RenderIds(ids), ",")) == Ok(ids)
  {
    var parts := RenderIds(ids);
    forall i | 0 <= i < |parts|
      ensures ',' !in parts[i]
    {
      NoCommaInInt(ids[i]);
    }
    SplitJoin(parts, ',');
    assert Split(Join(parts, ","), ',') == parts;
    forall i | 0 <= i < |parts|
      ensures ParseInt(parts[i]) == Some(ids[i])
    {
      ParseIntOfIntToString(ids[i]);
    }
    DecodeIdsIff(parts);
    assert DecodeIds(parts).value == ids;
  }

  /** An empty response has no ID: the single empty piece is NaN. */
  lemma TreeIdsEmpty()
    ensures DecodeTreeIds("") == Err(TreeIdsError)
  {
    assert Split("", ',') == [""];
    assert ParseInt("") == None;
  }

  /** '123,456' decodes to [123, 456]. */
  lemma TreeIdsExample()
    ensures DecodeTreeIds("123,456") == Ok([123, 456])
  {
    assert IntToString(123) == "123";
    assert IntToString(456) == "456";
    assert RenderIds([123, 456]) == ["123", "456"];
    assert Join(["123", "456"], ",") == "123,456";
    TreeIdsRoundTrip([123, 456]);
  }

  lemma NoLeadingInteger()
    ensures ParseInt("abc") == None
  {
    assert TrimStart("abc") == "abc";
    assert DigitPrefix("abc") == "";
  }

  lemma SplitTwo(a: string, b: string)
    requires ',' !in a && ',' !in b
    ensures Split(a + "," + b, ',') == [a, b]
  {
    SplitNoSep(b, ',');
    assert a + "," + b == a + ([','] + b);
    SplitAround(a, ',', b);
  }

  /** '123,abc' fails: 'abc' has no leading digit. */
  lemma TreeIdsInvalidExample()
    ensures DecodeTreeIds("123,abc") == Err(TreeIdsError)
  {
    SplitTwo("123", "abc");
    assert "123" + "," + "abc" == "123,abc";
    NoLeadingInteger();
    var pieces := ["123", "abc"];
    assert pieces[1] == "abc";
    DecodeIdsIff(pieces);
  }

  /** `parseInt` is lenient: a piece is read up to its first non-digit, so '7px' decodes to 7. */
  lemma TreeIdsLenient(n: int, tail: string)
    requires tail == [] || !IsDigit(tail[0])
    requires ',' !in tail
    ensures DecodeTreeIds(IntToString(n) + tail) == Ok([n])
  {
    var s := IntToString(n) + tail;
    NoCommaInInt(n);
    assert ',' !in s;
    SplitNoSep(s, ',');
    ParseIntPrefix(n, tail);
    DecodeIdsIff([s]);
    assert [s][0] == s;
    var r := DecodeIds([s]).value;
    assert r == [r[0]];
  }

  // ---- _handleVirtualPage ---------------------------------------------------------

  /**
   * `_handleVirtualPage(error)`: a 404 whose response is marked `@virtual` is
   * parsed as a page; anything else is thrown again as it came.
   */
  function HandleVirtualPage(error: Json, parsePage: Json -> Result<Json, Exception>): (r: Result<Json, Exception>)
  {
    var code := Prop(error, "errorCode");
    if code.Err? then Err(code.error)
    else if code.value != Num(404) then Err(Thrown(error))
    else
      var response := Prop(error, "response").value;
      if !Truthy(response) then Err(Thrown(error))
      else if Truthy(Prop(response, "@virtual").value) then parsePage(response)
      else Err(Thrown(error))
  }

  /** The recovery condition, stated on the error object's keys. */
  predicate IsVirtualPageError(error: Json)
  {
    && IsObject(error) && HasKey(error, "errorCode") && Get(error, "errorCode") == Num(404)
    && HasKey(error, "response") && IsObject(Get(error, "response"))
    && HasKey(Get(error, "response"), "@virtual") && Truthy(Get(Get(error, "response"), "@virtual"))
  }

  /**
   * A virtual-page error (the code is exactly the number 404) is parsed from
   * its response; every other error is rethrown unchanged, except that null
   * and undefined fail when their `errorCode` is read.
   */
  lemma HandleVirtualPageIff(error: Json, parsePage: Json -> Result<Json, Exception>)
    ensures error.Null? || error.Undefined? ==>
            HandleVirtualPage(error, parsePage).Err? && HandleVirtualPage(error, parsePage).error.TypeError?
    ensures IsVirtualPageError(error) ==>
            HandleVirtualPage(error, parsePage) == parsePage(Get(error, "response"))
    ensures !error.Null? && !error.Undefined? && !IsVirtualPageError(error) ==>
            HandleVirtualPage(error, parsePage) == Err(Thrown(error))
  {
  }

  /**
   * A 404 whose response carries a non-empty `@virtual` string, whatever else
   * the response holds, is parsed from that response.
   */
  lemma VirtualPageRecovers(marker: string, fields: map<string, Json>, parsePage: Json -> Result<Json, Exception>)
    requires marker != ""
    ensures var response := Obj(fields["@virtual" := Str(marker)]);
            HandleVirtualPage(Obj(map["errorCode" := Num(404), "response" := response]), parsePage) == parsePage(response)
  {
  }

  /** A string code does not count: `===` compares with the number 404. */
  lemma VirtualPageStringCode(parsePage: Json -> Result<Json, Exception>)
    ensures var e := Obj(map["errorCode" := Str("404"), "response" := Obj(map["@virtual" := Str("true")])]);
            HandleVirtualPage(e, parsePage) == Err(Thrown(e))
  {
  }

  /** An empty `@virtual` marker is falsy, so the error is rethrown. */
  lemma VirtualPageEmptyMarker(parsePage: Json -> Result<Json, Exception>)
    ensures var e := Obj(map["errorCode" := Num(404), "response" := Obj(map["@virtual" := Str("")])]);
            HandleVirtualPage(e, parsePage) == Err(Thrown(e))
  {
  }
}
