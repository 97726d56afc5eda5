/** The request/response shaping of the `Api` class: the query-string builder,
    the classification of an HTTP response by status and envelope shape, and
    the construction of one record, a list of records or the search results
    from it. The transport is a parameter: `transport(path)` is the response
    the server gives for a request path (relative to the endpoint). */
module Api {
  import opened Json
  import opened Models

  // ---------------------------------------------------------------------------
  // _arguments_from_kwargs

  /** A keyword-argument value, as `str()` renders it. */
  datatype Arg = Text(s: string) | Int(i: int) | Bool(b: bool) | Nothing

  /** Keyword arguments in the order the caller wrote them. */
  type Kwargs = seq<(string, Arg)>

  function DigitChar(d: nat): (c: char)
    requires d < 10
    ensures '0' <= c <= '9' && c as int - '0' as int == d
  {
    (d + '0' as int) as char
  }

  predicate IsDigits(s: string) {
    forall i :: 0 <= i < |s| ==> '0' <= s[i] <= '9'
  }

  /** The number a string of decimal digits denotes. */
  function DecimalValue(s: string): nat
    requires IsDigits(s)
    decreases |s|
  {
    if s == [] then 0
    else DecimalValue(s[..|s| - 1]) * 10 + (s[|s| - 1] as int - '0' as int)
  }

  /** Decimal digits of `n`, most significant first, without leading zeros. */
  function NatToString(n: nat): (r: string)
    ensures |r| > 0 && IsDigits(r)
    ensures |r| > 1 ==> r[0] != '0'
    decreases n
  {
    if n < 10 then [DigitChar(n)] else NatToString(n / 10) + [DigitChar(n % 10)]
  }

  /** `str(n)` denotes `n`. */
  lemma {:induction false} NatToStringDenotes(n: nat)
    ensures DecimalValue(NatToString(n)) == n
    decreases n
  {
    var r := NatToString(n);
    if n >= 10 {
      NatToStringDenotes(n / 10);
      assert r[..|r| - 1] == NatToString(n / 10);
    }
  }

  /** Python's `str(value)`. */
  function PyStr(a: Arg): string {
    match a
    case Text(s) => s
    case Int(i) => if i < 0 then "-" + NatToString(-i) else NatToString(i)
    case Bool(b) => if b then "True" else "False"
    case Nothing => "None"
  }

  /** One `key=value` pair, nothing escaped. */
  function Pair(kv: (string, Arg)): string {
    kv.0 + "=" + PyStr(kv.1)
  }

  /** The pairs joined by `&`, in argument order. */
  function Join(args: Kwargs): string
    decreases |args|
  {
    if |args| == 0 then ""
    else if |args| == 1 then Pair(args[0])
    else Join(args[..|args| - 1]) + "&" + Pair(args[|args| - 1])
  }

  /** What the loop has built before the strip: each pair followed by `&`. */
  function Accumulated(args: Kwargs): string
    decreases |args|
  {
    if args == [] then "" else Accumulated(args[..|args| - 1]) + Pair(args[|args| - 1]) + "&"
  }

  /** Python's `s.rstrip(c)`: remove every trailing `c`. */
  function RStrip(s: string, c: char): string
    decreases |s|
  {
    if |s| > 0 && s[|s| - 1] == c then RStrip(s[..|s| - 1], c) else s
  }

  predicate EndsWith(s: string, c: char) {
    |s| > 0 && s[|s| - 1] == c
  }

  /** `rstrip` removes exactly the trailing run of `c`: what is left is a prefix
      that does not end in `c`, and everything removed is `c`. */
  lemma {:induction false} RStripRemovesTrailingRun(s: string, c: char)
    ensures |RStrip(s, c)| <= |s| && RStrip(s, c) == s[..|RStrip(s, c)|]
    ensures !EndsWith(RStrip(s, c), c)
    ensures forall i :: |RStrip(s, c)| <= i < |s| ==> s[i] == c
    decreases |s|
  {
    if |s| > 0 && s[|s| - 1] == c {
      var t := s[..|s| - 1];
      RStripRemovesTrailingRun(t, c);
      assert forall i :: 0 <= i < |t| ==> t[i] == s[i];
    }
  }

  lemma {:induction false} AccumulatedIsJoinAndAmpersand(args: Kwargs)
    requires |args| > 0
    ensures Accumulated(args) == Join(args) + "&"
    decreases |args|
  {
    if |args| > 1 {
      AccumulatedIsJoinAndAmpersand(args[..|args| - 1]);
    } else {
      assert args[..0] == [];
    }
  }

  lemma StripAccumulated(args: Kwargs)
    ensures RStrip(Accumulated(args), '&') == RStrip(Join(args), '&')
  {
    if |args| > 0 {
      AccumulatedIsJoinAndAmpersand(args);
      assert (Join(args) + "&")[..|Join(args)|] == Join(args);
    }
  }

  /** `_arguments_from_kwargs`: appends `key=str(value)&` per argument, then
      strips the trailing `&`s. */
  method ArgumentsFromKwargs(args: Kwargs) returns (url: string)
    ensures url == RStrip(Join(args), '&')
  {
    url := "";
    for i := 0 to |args|
      invariant url == Accumulated(args[..i])
    {
      assert args[..i + 1][..i] == args[..i];
      url := url + args[i].0 + "=" + PyStr(args[i].1) + "&";
    }
    assert args[..|args|] == args;
    StripAccumulated(args);
    url := RStrip(url, '&');
  }

  /** A pair ends in `c` exactly when its value does (`c` other than `=`). */
  lemma PairEndsWith(kv: (string, Arg), c: char)
    requires c != '='
    ensures EndsWith(Pair(kv), c) <==> EndsWith(PyStr(kv.1), c)
  {
    var p := Pair(kv);
    if PyStr(kv.1) == [] {
      assert p[|p| - 1] == '=';
    } else {
      assert p[|p| - 1] == PyStr(kv.1)[|PyStr(kv.1)| - 1];
    }
  }

  /** The join ends in the same character as its last pair. */
  lemma JoinEndsWithLast(args: Kwargs, c: char)
    requires |args| > 0
    ensures EndsWith(Join(args), c) <==> EndsWith(Pair(args[|args| - 1]), c)
  {
    var last := Pair(args[|args| - 1]);
    if |args| > 1 {
      var j := Join(args);
      var front := Join(args[..|args| - 1]) + "&";
      assert j == front + last;
      assert j[|j| - 1] == last[|last| - 1];
    }
  }

  /** The built string is the plain `&`-join exactly when the last value does not
      itself end in `&` (an empty value leaves the pair ending in `=`). */
  lemma QueryIsJoinIff(args: Kwargs)
    requires |args| > 0
    ensures RStrip(Join(args), '&') == Join(args) <==> !EndsWith(PyStr(args[|args| - 1].1), '&')
  {
    PairEndsWith(args[|args| - 1], '&');
    JoinEndsWithLast(args, '&');
    RStripRemovesTrailingRun(Join(args), '&');
  }

  /** The value of a trailing argument loses its own trailing `&`s. */
  lemma TrailingAmpersandOfValueIsLost()
    ensures RStrip(Join([("q", Text("a&&"))]), '&') == "q=a"
  {
    assert Join([("q", Text("a&&"))]) == "q=a&&";
    assert "q=a&&"[..4] == "q=a&";
    assert "q=a&"[..3] == "q=a";
  }

  /** The query string of the repository's test `test_arguments_from_kwargs`. */
  method QueryStringExample() returns (url: string)
    ensures url == "hello=world&why=not&test=arg"
  {
    var args := [("hello", Text("world")), ("why", Text("not")), ("test", Text("arg"))];
    url := ArgumentsFromKwargs(args);
    assert args[..2][..1] == [("hello", Text("world"))];
    assert args[..2] == [("hello", Text("world")), ("why", Text("not"))];
    assert Join(args) == "hello=world&why=not&test=arg";
    QueryIsJoinIff(args);
  }

  /** No arguments give the empty query string. */
  method EmptyQueryString() returns (url: string)
    ensures url == ""
  {
    url := ArgumentsFromKwargs([]);
  }

  // ---------------------------------------------------------------------------
  // __get_data

  /** What the transport hands back: a status code and the body decoded as JSON,
      `None` when the body is not valid JSON. */
  datatype Response = Response(status: int, body: Option<Json>)

  /** `raise_for_status` raises for client and server errors only. */
  predicate RaiseForStatus(status: int) {
    400 <= status < 600
  }

  /** Python's `t == 1` on a decoded value (`True == 1` holds in Python). */
  predicate EqualsOne(t: Json) {
    t == JNum(1.0) || t == JBool(true)
  }

  /** The body of the try block: `results[0]` when `estimated_total == 1`, else
      `results`; a missing key or a body of the wrong shape raises. */
  function Envelope(j: Json): Result<Json> {
    match Subscript(j, Name("estimated_total"))
    case Err(e) => Err(e)
    case Ok(total) =>
      match Subscript(j, Name("results"))
      case Err(e) => Err(e)
      case Ok(results) => if EqualsOne(total) then Subscript(results, Index(0)) else Ok(results)
  }

  /** `__get_data`. A body that does not decode gives None (the ValueError is
      swallowed); None is `JNull`. */
  function GetData(resp: Response): Result<Json> {
    if resp.status == 401 && RaiseForStatus(401) then Err(HttpError(401))
    else if resp.status == 404 then Ok(JNull)
    else if resp.status != 200 && RaiseForStatus(resp.status) then Err(HttpError(resp.status))
    else
      match resp.body
      case None => Ok(JNull)
      case Some(j) => Envelope(j)
  }

  /** 404 is None whatever the body; every other client or server error (401
      included) raises; any other status is handled like 200. */
  lemma StatusHandling(status: int, body: Option<Json>)
    ensures status == 404 ==> GetData(Response(status, body)) == Ok(JNull)
    ensures RaiseForStatus(status) && status != 404 ==>
              GetData(Response(status, body)) == Err(HttpError(status))
    ensures !RaiseForStatus(status) ==> GetData(Response(status, body)) == GetData(Response(200, body))
    ensures GetData(Response(200, None)) == Ok(JNull)
  {
  }

  /** On an envelope `{"estimated_total": t, "results": xs}`: a total of one gives
      the first result (IndexError when there is none), any other total the whole
      list; a body without `estimated_total` raises KeyError. */
  lemma EnvelopeShapes(members: seq<(string, Json)>, xs: seq<Json>)
    requires Lookup(members, "results") == Some(JArr(xs))
    ensures Lookup(members, "estimated_total").None? ==>
              GetData(Response(200, Some(JObj(members)))) == Err(KeyError)
    ensures Lookup(members, "estimated_total").Some? && EqualsOne(Lookup(members, "estimated_total").value) ==>
              GetData(Response(200, Some(JObj(members)))) == (if xs == [] then Err(IndexError) else Ok(xs[0]))
    ensures Lookup(members, "estimated_total").Some? && !EqualsOne(Lookup(members, "estimated_total").value) ==>
              GetData(Response(200, Some(JObj(members)))) == Ok(JArr(xs))
  {
  }

  // ---------------------------------------------------------------------------
  // Records built from a response

  /** A record as the specification functions describe it: its class and its
      mapped fields. */
  datatype Built = Built(model: ModelClass, fields: map<string, Json>)

  /** `f` applied to each element, in order. */
  function MapSeq<A, B>(xs: seq<A>, f: A -> B): seq<B> {
    seq(|xs|, i requires 0 <= i < |xs| => f(xs[i]))
  }

  /** Each field map paired with the class it was built for. */
  function Tag(model: ModelClass, ms: seq<map<string, Json>>): (r: seq<Built>)
    ensures |r| == |ms| && forall i :: 0 <= i < |ms| ==> r[i] == Built(model, ms[i])
  {
    MapSeq(ms, m => Built(model, m))
  }

  /** `o` is a freshly constructed instance holding `b`. */
  predicate Realises(o: ApiObject, b: Built, hasApi: bool)
    reads o
  {
    && o.kind == b.model.kind && o.attrs == b.model.attrs && o.fields == b.fields
    && o.hasApi == hasApi && o.thumbnails == map[] && o.coverPictures == None
  }

  predicate RealisesAll(objs: seq<ApiObject>, bs: seq<Built>, hasApi: bool)
    reads objs
  {
    |objs| == |bs| && forall i :: 0 <= i < |objs| ==> Realises(objs[i], bs[i], hasApi)
  }

  lemma RealisesAllAppend(objs: seq<ApiObject>, bs: seq<Built>, more: seq<ApiObject>, moreBs: seq<Built>, hasApi: bool)
    requires RealisesAll(objs, bs, hasApi) && RealisesAll(more, moreBs, hasApi)
    ensures RealisesAll(objs + more, bs + moreBs, hasApi)
  {
    forall i | 0 <= i < |objs + more| ensures Realises((objs + more)[i], (bs + moreBs)[i], hasApi) {
      if i >= |objs| {
        assert (objs + more)[i] == more[i - |objs|];
        assert (bs + moreBs)[i] == moreBs[i - |objs|];
      }
    }
  }

  /** What `__build_response` returns: None for falsy data, else one record. */
  function SingleSpec(resp: Response, model: ModelClass): Result<Option<Built>> {
    match GetData(resp)
    case Err(e) => Err(e)
    case Ok(data) =>
      if !Truthy(data) then Ok(None)
      else
        match Materialise(model.attrs, data)
        case Err(e) => Err(e)
        case Ok(m) => Ok(Some(Built(model, m)))
  }

  /** What `__get_multiple` returns: None for falsy data, else one record per
      element of the data, in order. */
  function MultipleSpec(resp: Response, model: ModelClass): Result<Option<seq<Built>>> {
    match GetData(resp)
    case Err(e) => Err(e)
    case Ok(data) =>
      if !Truthy(data) then Ok(None)
      else
        match Iterate(data)
        case Err(e) => Err(e)
        case Ok(items) =>
          match MaterialiseAll(model.attrs, items)
          case Err(e) => Err(e)
          case Ok(ms) => Ok(Some(Tag(model, ms)))
  }

  /** `__build_response(path, model_class)`. */
  method BuildResponse(path: string, model: ModelClass, transport: string -> Response)
    returns (r: Result<Option<ApiObject>>)
    ensures r.Err? <==> SingleSpec(transport(path), model).Err?
    ensures r.Err? ==> r.error == SingleSpec(transport(path), model).error
    ensures r.Ok? ==> (r.value.None? <==> SingleSpec(transport(path), model).value.None?)
    ensures r.Ok? && r.value.Some? ==>
              fresh(r.value.value) && Realises(r.value.value, SingleSpec(transport(path), model).value.value, true)
  {
    var data := GetData(transport(path));
    if data.Err? {
      return Err(data.error);
    }
    if !Truthy(data.value) {
      return Ok(None);
    }
    var item := NewRecord(model, data.value, true);
    if item.Err? {
      return Err(item.error);
    }
    return Ok(Some(item.value));
  }

  /** The loop that constructs `model(doc, api)` for each document in turn and
      appends it; an exception from a constructor ends it. */
  method BuildAll(model: ModelClass, docs: seq<Json>, hasApi: bool) returns (r: Result<seq<ApiObject>>)
    ensures r.Err? <==> MaterialiseAll(model.attrs, docs).Err?
    ensures r.Err? ==> r.error == MaterialiseAll(model.attrs, docs).error
    ensures r.Ok? ==> (forall o | o in r.value :: fresh(o))
                      && RealisesAll(r.value, Tag(model, MaterialiseAll(model.attrs, docs).value), hasApi)
  {
    var objs: seq<ApiObject> := [];
    ghost var built: seq<map<string, Json>> := [];
    for i := 0 to |docs|
      invariant MaterialiseAll(model.attrs, docs[..i]) == Ok(built)
      invariant RealisesAll(objs, Tag(model, built), hasApi)
      invariant forall o | o in objs :: fresh(o)
    {
      var item := NewRecord(model, docs[i], hasApi);
      assert docs[..i + 1][..i] == docs[..i];
      if item.Err? {
        MaterialiseAllErrPersists(model.attrs, docs, i + 1);
        return Err(item.error);
      }
      objs := objs + [item.value];
      built := built + [item.value.fields];
    }
    assert docs[..|docs|] == docs;
    return Ok(objs);
  }

  /** `__get_multiple(path, model_class)`. */
  method GetMultiple(path: string, model: ModelClass, transport: string -> Response)
    returns (r: Result<Option<seq<ApiObject>>>)
    ensures r.Err? <==> MultipleSpec(transport(path), model).Err?
    ensures r.Err? ==> r.error == MultipleSpec(transport(path), model).error
    ensures r.Ok? ==> (r.value.None? <==> MultipleSpec(transport(path), model).value.None?)
    ensures r.Ok? && r.value.Some? ==>
              (forall o | o in r.value.value :: fresh(o))
              && RealisesAll(r.value.value, MultipleSpec(transport(path), model).value.value, true)
  {
    var data := GetData(transport(path));
    if data.Err? {
      return Err(data.error);
    }
    if !Truthy(data.value) {
      return Ok(None);
    }
    var elements := Iterate(data.value);
    if elements.Err? {
      return Err(elements.error);
    }
    var items := BuildAll(model, elements.value, true);
    if items.Err? {
      return Err(items.error);
    }
    return Ok(Some(items.value));
  }

  /** The request path of `location` and `locations`. */
  function LocationPath(kwargs: Kwargs): string {
    "location.json?" + RStrip(Join(kwargs), '&')
  }

  /** `location(**kwargs)`: one Location, or None. */
  method FetchLocation(kwargs: Kwargs, location: ModelClass, transport: string -> Response)
    returns (path: string, r: Result<Option<ApiObject>>)
    ensures path == LocationPath(kwargs)
    ensures r.Err? <==> SingleSpec(transport(path), location).Err?
    ensures r.Err? ==> r.error == SingleSpec(transport(path), location).error
    ensures r.Ok? ==> (r.value.None? <==> SingleSpec(transport(path), location).value.None?)
    ensures r.Ok? && r.value.Some? ==>
              fresh(r.value.value) && Realises(r.value.value, SingleSpec(transport(path), location).value.value, true)
  {
    var query := ArgumentsFromKwargs(kwargs);
    path := "location.json?" + query;
    r := BuildResponse(path, location, transport);
  }

  /** `locations(**kwargs)`: a list of Locations, or None. */
  method FetchLocations(kwargs: Kwargs, location: ModelClass, transport: string -> Response)
    returns (path: string, r: Result<Option<seq<ApiObject>>>)
    ensures path == LocationPath(kwargs)
    ensures r.Err? <==> MultipleSpec(transport(path), location).Err?
    ensures r.Err? ==> r.error == MultipleSpec(transport(path), location).error
    ensures r.Ok? ==> (r.value.None? <==> MultipleSpec(transport(path), location).value.None?)
    ensures r.Ok? && r.value.Some? ==>
              (forall o | o in r.value.value :: fresh(o))
              && RealisesAll(r.value.value, MultipleSpec(transport(path), location).value.value, true)
  {
    var query := ArgumentsFromKwargs(kwargs);
    path := "location.json?" + query;
    r := GetMultiple(path, location, transport);
  }

  /** The request of the repository's test `test_location`. */
  method LocationPathExample(location: ModelClass, transport: string -> Response) returns (path: string)
    ensures path == "location.json?id=Amsterdam&fields=all"
  {
    var kwargs := [("id", Text("Amsterdam")), ("fields", Text("all"))];
    AmsterdamQuery();
    var r;
    path, r := FetchLocation(kwargs, location, transport);
  }

  lemma AmsterdamQuery()
    ensures LocationPath([("id", Text("Amsterdam")), ("fields", Text("all"))])
            == "location.json?id=Amsterdam&fields=all"
  {
    var kwargs := [("id", Text("Amsterdam")), ("fields", Text("all"))];
    assert kwargs[..1] == [kwargs[0]];
    assert Pair(kwargs[0]) == "id=Amsterdam";
    assert Pair(kwargs[1]) == "fields=all";
    var j := Join(kwargs);
    assert j == "id=Amsterdam&fields=all";
    assert j[|j| - 1] == 'l';
  }

  /** On a 404, or a body that does not decode, both shapes give None. */
  lemma NotFoundIsNone(body: Option<Json>, model: ModelClass)
    ensures SingleSpec(Response(404, body), model) == Ok(None)
    ensures MultipleSpec(Response(404, body), model) == Ok(None)
    ensures SingleSpec(Response(200, None), model) == Ok(None)
    ensures MultipleSpec(Response(200, None), model) == Ok(None)
  {
  }

  /** With a total other than one, `__get_multiple` builds one record per result,
      in the order of the results. */
  lemma ListEnvelopeKeepsOrder(members: seq<(string, Json)>, xs: seq<Json>, model: ModelClass)
    requires Lookup(members, "estimated_total").Some? && !EqualsOne(Lookup(members, "estimated_total").value)
    requires Lookup(members, "results") == Some(JArr(xs)) && xs != []
    requires forall i :: 0 <= i < |xs| ==> Materialise(model.attrs, xs[i]).Ok?
    ensures MultipleSpec(Response(200, Some(JObj(members))), model).Ok?
    ensures MultipleSpec(Response(200, Some(JObj(members))), model).value.Some?
    ensures |MultipleSpec(Response(200, Some(JObj(members))), model).value.value| == |xs|
    ensures forall i :: 0 <= i < |xs| ==>
              MultipleSpec(Response(200, Some(JObj(members))), model).value.value[i]
              == Built(model, Materialise(model.attrs, xs[i]).value)
  {
    MaterialiseAllOk(model.attrs, xs);
  }

  /** A JSON object never makes an all-names attribute map raise. */
  lemma ObjectBuildsWithNamePaths(attrs: Attrs, members: seq<(string, Json)>)
    requires forall j :: 0 <= j < |attrs| ==> attrs[j].1.Single? && attrs[j].1.key.Name?
    ensures Materialise(attrs, JObj(members)).Ok?
  {
    MaterialiseOkIff(attrs, JObj(members));
  }

  /** The result and the envelope of a query with a single match. */
  const AmsterdamResult: Json :=
    JObj([("id", JStr("Amsterdam")), ("name", JStr("Amsterdam")), ("type", JStr("city"))])
  const AmsterdamEnvelope: Json :=
    JObj([("estimated_total", JNum(1.0)), ("results", JArr([AmsterdamResult]))])

  /** The envelope of a single match resolves to one record whose `name` and
      `type` are the result's, as the repository's test `test_location` expects. */
  lemma SingleEnvelopeExample(model: ModelClass, j: nat, t: nat)
    requires DistinctNames(model.attrs)
    requires forall k :: 0 <= k < |model.attrs| ==> model.attrs[k].1.Single? && model.attrs[k].1.key.Name?
    requires j < |model.attrs| && model.attrs[j] == ("name", Single(Name("name")))
    requires t < |model.attrs| && model.attrs[t] == ("type", Single(Name("type")))
    ensures SingleSpec(Response(200, Some(AmsterdamEnvelope)), model).Ok?
    ensures SingleSpec(Response(200, Some(AmsterdamEnvelope)), model).value.Some?
    ensures "name" in SingleSpec(Response(200, Some(AmsterdamEnvelope)), model).value.value.fields
    ensures SingleSpec(Response(200, Some(AmsterdamEnvelope)), model).value.value.fields["name"] == JStr("Amsterdam")
    ensures "type" in SingleSpec(Response(200, Some(AmsterdamEnvelope)), model).value.value.fields
    ensures SingleSpec(Response(200, Some(AmsterdamEnvelope)), model).value.value.fields["type"] == JStr("city")
  {
    assert Lookup(AmsterdamEnvelope.members, "estimated_total") == Some(JNum(1.0));
    assert Lookup(AmsterdamEnvelope.members, "results") == Some(JArr([AmsterdamResult]));
    assert GetData(Response(200, Some(AmsterdamEnvelope))) == Ok(AmsterdamResult);
    ObjectBuildsWithNamePaths(model.attrs, AmsterdamResult.members);
    MaterialiseFields(model.attrs, AmsterdamResult);
    assert Lookup(AmsterdamResult.members, "name") == Some(JStr("Amsterdam"));
    assert FieldValue(AmsterdamResult, model.attrs[j].1) == Ok(JStr("Amsterdam"));
    assert Lookup(AmsterdamResult.members, "type") == Some(JStr("city"));
    assert FieldValue(AmsterdamResult, model.attrs[t].1) == Ok(JStr("city"));
  }

  /** With a total of one, `__get_data` returns the single result object, and
      `__get_multiple` then iterates over that object's keys: building a record
      whose first attribute is a name from such a key string raises TypeError. */
  lemma SingleMatchBreaksGetMultiple(members: seq<(string, Json)>, result: seq<(string, Json)>, model: ModelClass)
    requires Lookup(members, "estimated_total") == Some(JNum(1.0))
    requires Lookup(members, "results") == Some(JArr([JObj(result)]))
    requires result != []
    requires |model.attrs| > 0 && model.attrs[0].1.Single? && model.attrs[0].1.key.Name?
    ensures MultipleSpec(Response(200, Some(JObj(members))), model) == Err(TypeError)
  {
    assert GetData(Response(200, Some(JObj(members)))) == Ok(JObj(result));
    var items := Iterate(JObj(result)).value;
    KeyStringsDoNotBuild(model, items);
  }

  /** The first document being a string, a record with a leading name path
      cannot be built from it. */
  lemma KeyStringsDoNotBuild(model: ModelClass, items: seq<Json>)
    requires items != [] && items[0].JStr?
    requires |model.attrs| > 0 && model.attrs[0].1.Single? && model.attrs[0].1.key.Name?
    ensures MaterialiseAll(model.attrs, items) == Err(TypeError)
  {
    assert model.attrs[..1][..0] == [];
    assert Materialise(model.attrs[..1], items[0]) == Err(TypeError);
    MaterialiseErrPersists(model.attrs, items[0], 1);
    assert items[..1][..0] == [];
    assert MaterialiseAll(model.attrs, items[..1]) == Err(TypeError);
    MaterialiseAllErrPersists(model.attrs, items, 1);
  }

  // ---------------------------------------------------------------------------
  // search

  /** The keys of `mapping`, in its order. */
  const SearchKeys: seq<string> := ["episodes", "shows", "users"]

  /** The classes `mapping` assigns to those keys. */
  datatype SearchClasses = SearchClasses(episode: ModelClass, show: ModelClass, user: ModelClass)

  function ClassFor(key: string, classes: SearchClasses): ModelClass {
    if key == "episodes" then classes.episode
    else if key == "shows" then classes.show
    else classes.user
  }

  /** The first of `candidates` that is a key of `members`. */
  function FirstKey(members: seq<(string, Json)>, candidates: seq<string>): (r: Option<string>)
    ensures r.None? <==> forall i :: 0 <= i < |candidates| ==> Lookup(members, candidates[i]).None?
    ensures r.Some? ==> exists i :: 0 <= i < |candidates| && candidates[i] == r.value
                                    && Lookup(members, r.value).Some?
                                    && forall j :: 0 <= j < i ==> Lookup(members, candidates[j]).None?
    decreases |candidates|
  {
    if candidates == [] then None
    else if Lookup(members, candidates[0]).Some? then Some(candidates[0])
    else
      var r := FirstKey(members, candidates[1..]);
      assert forall i :: 0 <= i < |candidates| - 1 ==> candidates[1..][i] == candidates[i + 1];
      assert r.Some? ==> exists i :: 0 <= i < |candidates| && candidates[i] == r.value
                                     && forall j :: 0 <= j < i ==> Lookup(members, candidates[j]).None? by {
        if r.Some? {
          var i :| 0 <= i < |candidates| - 1 && candidates[1..][i] == r.value
                   && forall j :: 0 <= j < i ==> Lookup(members, candidates[1..][j]).None?;
          assert candidates[i + 1] == r.value;
          assert forall j :: 1 <= j < i + 1 ==> candidates[j] == candidates[1..][j - 1];
        }
      }
      r
  }

  /** The class a result set is built with and the value iterated, or None when
      the set is skipped: no key of `mapping` in it, or its class not in a
      non-empty `included`. A result set that is not a dict has no `keys()`. */
  function SelectResultSet(rs: Json, included: seq<Kind>, classes: SearchClasses): Result<Option<(ModelClass, Json)>> {
    if !rs.JObj? then Err(AttributeError)
    else
      match FirstKey(rs.members, SearchKeys)
      case None => Ok(None)
      case Some(key) =>
        var model := ClassFor(key, classes);
        if |included| > 0 && model.kind !in included then Ok(None)
        else Ok(Some((model, Lookup(rs.members, key).value)))
  }

  /** The records one result set contributes, in order. */
  function ResultSetRecords(rs: Json, included: seq<Kind>, classes: SearchClasses): Result<seq<Built>> {
    match SelectResultSet(rs, included, classes)
    case Err(e) => Err(e)
    case Ok(None) => Ok([])
    case Ok(Some((model, value))) =>
      match Iterate(value)
      case Err(e) => Err(e)
      case Ok(items) =>
        match MaterialiseAll(model.attrs, items)
        case Err(e) => Err(e)
        case Ok(ms) => Ok(Tag(model, ms))
  }

  /** Appending the records of one more result set, keeping the first exception. */
  function Combine(earlier: Result<seq<Built>>, next: Result<seq<Built>>): Result<seq<Built>> {
    match earlier
    case Err(e) => Err(e)
    case Ok(a) =>
      match next
      case Err(e) => Err(e)
      case Ok(b) => Ok(a + b)
  }

  /** The outcomes of a run of result sets appended in order; the first
      exception wins. */
  function Flatten(rs: seq<Result<seq<Built>>>): Result<seq<Built>>
    decreases |rs|
  {
    if rs == [] then Ok([]) else Combine(Flatten(rs[..|rs| - 1]), rs[|rs| - 1])
  }

  lemma MapSeqAppend<A, B>(a: seq<A>, b: seq<A>, f: A -> B)
    ensures MapSeq(a + b, f) == MapSeq(a, f) + MapSeq(b, f)
  {
    forall i | 0 <= i < |a + b| ensures MapSeq(a + b, f)[i] == (MapSeq(a, f) + MapSeq(b, f))[i] {
      if i < |a| {
        assert (a + b)[i] == a[i];
      } else {
        assert (a + b)[i] == b[i - |a|];
      }
    }
  }

  function RecordsOf(included: seq<Kind>, classes: SearchClasses): Json -> Result<seq<Built>> {
    rs => ResultSetRecords(rs, included, classes)
  }

  /** What each result set contributes, in order. */
  function Outcomes(sets: seq<Json>, included: seq<Kind>, classes: SearchClasses): seq<Result<seq<Built>>> {
    MapSeq(sets, RecordsOf(included, classes))
  }

  /** The records of all result sets, appended in input order, or the first
      exception. */
  function SearchRecords(sets: seq<Json>, included: seq<Kind>, classes: SearchClasses): Result<seq<Built>> {
    Flatten(Outcomes(sets, included, classes))
  }

  lemma SearchRecordsStep(sets: seq<Json>, included: seq<Kind>, classes: SearchClasses, i: nat)
    requires i < |sets|
    ensures SearchRecords(sets[..i + 1], included, classes)
            == Combine(SearchRecords(sets[..i], included, classes), ResultSetRecords(sets[i], included, classes))
  {
    var o := Outcomes(sets[..i + 1], included, classes);
    assert o[..i] == Outcomes(sets[..i], included, classes);
    assert o[i] == ResultSetRecords(sets[i], included, classes);
  }

  lemma {:induction false} FlattenErrPersists(rs: seq<Result<seq<Built>>>, i: nat)
    requires i <= |rs| && Flatten(rs[..i]).Err?
    ensures Flatten(rs) == Flatten(rs[..i])
    decreases |rs|
  {
    if i == |rs| {
      assert rs[..i] == rs;
    } else {
      var n := |rs| - 1;
      assert rs[..n][..i] == rs[..i];
      FlattenErrPersists(rs[..n], i);
    }
  }

  lemma {:induction false} FlattenAppend(a: seq<Result<seq<Built>>>, b: seq<Result<seq<Built>>>)
    requires Flatten(a).Ok? && Flatten(b).Ok?
    ensures Flatten(a + b) == Ok(Flatten(a).value + Flatten(b).value)
    decreases |b|
  {
    if b == [] {
      assert a + b == a;
      assert Flatten(a).value + [] == Flatten(a).value;
    } else {
      var n := |b| - 1;
      assert (a + b)[..|a + b| - 1] == a + b[..n];
      assert (a + b)[|a + b| - 1] == b[n];
      FlattenAppend(a, b[..n]);
      var x, y, z := Flatten(a).value, Flatten(b[..n]).value, b[n].value;
      assert (x + y) + z == x + (y + z);
    }
  }

  /** What `search` returns for a response. */
  function SearchSpec(resp: Response, included: seq<Kind>, classes: SearchClasses): Result<seq<Built>> {
    match GetData(resp)
    case Err(e) => Err(e)
    case Ok(data) =>
      match Iterate(data)
      case Err(e) => Err(e)
      case Ok(sets) => SearchRecords(sets, included, classes)
  }

  /** Once a result set raises, the later ones are never looked at. */
  lemma SearchRecordsErrPersists(sets: seq<Json>, included: seq<Kind>, classes: SearchClasses, i: nat)
    requires i <= |sets| && SearchRecords(sets[..i], included, classes).Err?
    ensures SearchRecords(sets, included, classes) == SearchRecords(sets[..i], included, classes)
  {
    var o := Outcomes(sets, included, classes);
    assert o[..i] == Outcomes(sets[..i], included, classes);
    FlattenErrPersists(o, i);
  }

  /** Searching two runs of result sets is searching each and appending. */
  lemma SearchRecordsAppend(a: seq<Json>, b: seq<Json>, included: seq<Kind>, classes: SearchClasses)
    requires SearchRecords(a, included, classes).Ok? && SearchRecords(b, included, classes).Ok?
    ensures SearchRecords(a + b, included, classes)
            == Ok(SearchRecords(a, included, classes).value + SearchRecords(b, included, classes).value)
  {
    MapSeqAppend(a, b, RecordsOf(included, classes));
    FlattenAppend(Outcomes(a, included, classes), Outcomes(b, included, classes));
  }

  /** Skipped result sets contribute nothing: one with no key of `mapping`, or
      one whose class a non-empty `included` leaves out; of several keys present,
      the first in `mapping`'s order decides the class. */
  lemma ResultSetClassification(members: seq<(string, Json)>, included: seq<Kind>, classes: SearchClasses)
    ensures (forall i :: 0 <= i < |SearchKeys| ==> Lookup(members, SearchKeys[i]).None?) ==>
              ResultSetRecords(JObj(members), included, classes) == Ok([])
    ensures Lookup(members, "episodes").Some? && |included| > 0 && classes.episode.kind !in included ==>
              ResultSetRecords(JObj(members), included, classes) == Ok([])
    ensures Lookup(members, "episodes").Some? && (included == [] || classes.episode.kind in included) ==>
              SelectResultSet(JObj(members), included, classes)
              == Ok(Some((classes.episode, Lookup(members, "episodes").value)))
    ensures Lookup(members, "episodes").None? && Lookup(members, "shows").Some?
            && (included == [] || classes.show.kind in included) ==>
              SelectResultSet(JObj(members), included, classes)
              == Ok(Some((classes.show, Lookup(members, "shows").value)))
  {
  }

  /** A 404 makes `search` iterate over None: TypeError, not an empty list. */
  lemma SearchNotFoundRaises(body: Option<Json>, included: seq<Kind>, classes: SearchClasses)
    ensures SearchSpec(Response(404, body), included, classes) == Err(TypeError)
  {
  }

  /** One pass of the outer loop of `search`: the records one result set
      contributes, built without an API handle. */
  method BuildResultSet(rs: Json, included: seq<Kind>, classes: SearchClasses) returns (r: Result<seq<ApiObject>>)
    ensures r.Err? <==> ResultSetRecords(rs, included, classes).Err?
    ensures r.Err? ==> r.error == ResultSetRecords(rs, included, classes).error
    ensures r.Ok? ==> (forall o | o in r.value :: fresh(o))
                      && RealisesAll(r.value, ResultSetRecords(rs, included, classes).value, false)
  {
    var selection := SelectResultSet(rs, included, classes);
    if selection.Err? {
      return Err(selection.error);
    }
    if selection.value.None? {
      return Ok([]);
    }
    var (model, value) := selection.value.value;
    var elements := Iterate(value);
    if elements.Err? {
      return Err(elements.error);
    }
    r := BuildAll(model, elements.value, false);
  }

  /** `search(query, included)`. The records are built without an API handle. */
  method Search(query: string, included: seq<Kind>, classes: SearchClasses, transport: string -> Response)
    returns (path: string, r: Result<seq<ApiObject>>)
    ensures path == "search/?q=" + query
    ensures r.Err? <==> SearchSpec(transport(path), included, classes).Err?
    ensures r.Err? ==> r.error == SearchSpec(transport(path), included, classes).error
    ensures r.Ok? ==> (forall o | o in r.value :: fresh(o))
                      && RealisesAll(r.value, SearchSpec(transport(path), included, classes).value, false)
  {
    path := "search/?q=" + query;
    var data := GetData(transport(path));
    if data.Err? {
      return path, Err(data.error);
    }
    var iterated := Iterate(data.value);
    if iterated.Err? {
      return path, Err(iterated.error);
    }
    var sets := iterated.value;
    var objs: seq<ApiObject> := [];
    ghost var built: seq<Built> := [];
    for i := 0 to |sets|
      invariant SearchRecords(sets[..i], included, classes) == Ok(built)
      invariant RealisesAll(objs, built, false)
      invariant forall o | o in objs :: fresh(o)
    {
      SearchRecordsStep(sets, included, classes, i);
      var batch := BuildResultSet(sets[i], included, classes);
      if batch.Err? {
        SearchRecordsErrPersists(sets, included, classes, i + 1);
        return path, Err(batch.error);
      }
      RealisesAllAppend(objs, built, batch.value, ResultSetRecords(sets[i], included, classes).value, false);
      objs := objs + batch.value;
      built := built + ResultSetRecords(sets[i], included, classes).value;
    }
    assert sets[..|sets|] == sets;
    r := Ok(objs);
  }

  /** Records from `search` hold no API handle, so every API method on them
      raises NotImplementedError without running. */
  lemma SearchRecordsCannotReachApi<T>(objs: seq<ApiObject>, bs: seq<Built>, body: () -> T)
    requires RealisesAll(objs, bs, false)
    ensures forall o | o in objs :: ApiMethod(o.hasApi, body) == NotImplemented
  {
  }
}
