/** The JSON-to-record field mapper: `ApiObject` and its one concrete subclass
    `Article`. A record declares an ordered attribute map (field name to path);
    building it resolves every path against a decoded document, turning a
    missing key into `None` and letting every other failure escape. */
module Models {
  import opened Json

  /** A path as an attribute map writes it: one key used directly, or a list or
      tuple of keys applied one after the other. */
  datatype Path = Single(key: Key) | Keys(keys: seq<Key>)

  /** An attribute map, in declaration order (a Python dict keeps it). */
  type Attrs = seq<(string, Path)>

  /** The Python classes of the resources, which `type(self)` compares. */
  datatype Kind = Article | Location | Season | Episode | Show | User

  /** A resource class: its type and the attribute map its `__init__` installs. */
  datatype ModelClass = ModelClass(kind: Kind, attrs: Attrs)

  function Names(attrs: Attrs): set<string> {
    set i | 0 <= i < |attrs| :: attrs[i].0
  }

  /** A dict literal never names one field twice. */
  predicate DistinctNames(attrs: Attrs) {
    forall i, j :: 0 <= i < j < |attrs| ==> attrs[i].0 != attrs[j].0
  }

  // ---------------------------------------------------------------------------
  // _get_from_dict

  /** Indexing with each key in turn. */
  function Walk(d: Json, keys: seq<Key>): Result<Json>
    decreases |keys|
  {
    if keys == [] then Ok(d)
    else
      match Subscript(d, keys[0])
      case Err(e) => Err(e)
      case Ok(v) => Walk(v, keys[1..])
  }

  /** The value `path` designates in `d`, or the exception indexing raises. */
  function GetFromDict(d: Json, path: Path): Result<Json> {
    match path
    case Single(k) => Subscript(d, k)
    case Keys(ks) => Walk(d, ks)
  }

  /** Continue a walk from the outcome of an earlier one. */
  function AndThen(r: Result<Json>, keys: seq<Key>): Result<Json> {
    match r
    case Err(e) => Err(e)
    case Ok(v) => Walk(v, keys)
  }

  /** The loop of `_get_from_dict`: rebinds the current value at every key. */
  method ResolvePath(d: Json, path: Path) returns (r: Result<Json>)
    ensures r == GetFromDict(d, path)
  {
    match path
    case Single(k) =>
      r := Subscript(d, k);
    case Keys(ks) =>
      var current := d;
      var i := 0;
      while i < |ks|
        invariant 0 <= i <= |ks|
        invariant Walk(d, ks) == Walk(current, ks[i..])
      {
        var step := Subscript(current, ks[i]);
        if step.Err? {
          return Err(step.error);
        }
        assert ks[i..][1..] == ks[i + 1..];
        current := step.value;
        i := i + 1;
      }
      r := Ok(current);
  }

  /** Indexing successively: walking `a + b` is walking `a`, then `b` from there. */
  lemma {:induction false} WalkConcat(d: Json, a: seq<Key>, b: seq<Key>)
    ensures Walk(d, a + b) == AndThen(Walk(d, a), b)
    decreases |a|
  {
    if a == [] {
      assert a + b == b;
    } else {
      assert (a + b)[0] == a[0];
      assert (a + b)[1..] == a[1..] + b;
      match Subscript(d, a[0])
      case Err(e) =>
      case Ok(v) => WalkConcat(v, a[1..], b);
    }
  }

  /** The first key that cannot be applied decides the outcome of the whole path. */
  lemma FirstFailureAborts(d: Json, keys: seq<Key>, i: nat, v: Json, e: PyError)
    requires i < |keys| && Walk(d, keys[..i]) == Ok(v) && Subscript(v, keys[i]) == Err(e)
    ensures Walk(d, keys) == Err(e)
  {
    WalkConcat(d, keys[..i], keys[i..]);
    assert keys[..i] + keys[i..] == keys;
    assert keys[i..][0] == keys[i];
  }

  /** A single key and a one-key list designate the same value; the empty list
      designates the document itself. */
  lemma {:induction false} SingleKeyIsOneStep(d: Json, k: Key)
    ensures GetFromDict(d, Single(k)) == GetFromDict(d, Keys([k]))
    ensures GetFromDict(d, Keys([])) == Ok(d)
  {
    assert [k][1..] == [];
    match Subscript(d, k)
    case Err(e) =>
    case Ok(v) => assert Walk(v, []) == Ok(v);
  }

  // ---------------------------------------------------------------------------
  // _build

  /** What one attribute is set to: the resolved value, `None` on KeyError, or the
      exception that escapes `_build`. */
  function FieldValue(doc: Json, path: Path): (r: Result<Json>)
    ensures r.Ok? <==> GetFromDict(doc, path).Ok? || GetFromDict(doc, path) == Err(KeyError)
    ensures GetFromDict(doc, path).Ok? ==> r == GetFromDict(doc, path)
    ensures GetFromDict(doc, path) == Err(KeyError) ==> r == Ok(JNull)
    ensures GetFromDict(doc, path).Err? && GetFromDict(doc, path) != Err(KeyError) ==> r == GetFromDict(doc, path)
  {
    match GetFromDict(doc, path)
    case Ok(v) => Ok(v)
    case Err(KeyError) => Ok(JNull)
    case Err(e) => Err(e)
  }

  /** The try/except around one attribute in `_build`. */
  method ResolveField(doc: Json, path: Path) returns (r: Result<Json>)
    ensures r == FieldValue(doc, path)
  {
    r := ResolvePath(doc, path);
    if r == Err(KeyError) {
      r := Ok(JNull);
    }
  }

  /** The fields `_build` assigns, in attribute order, or the first exception it
      does not absorb. */
  function Materialise(attrs: Attrs, doc: Json): Result<map<string, Json>>
    decreases |attrs|
  {
    if attrs == [] then Ok(map[])
    else
      var n := |attrs| - 1;
      match Materialise(attrs[..n], doc)
      case Err(e) => Err(e)
      case Ok(m) =>
        match FieldValue(doc, attrs[n].1)
        case Err(e) => Err(e)
        case Ok(v) => Ok(m[attrs[n].0 := v])
  }

  /** Building succeeds exactly when no attribute raises anything but KeyError. */
  lemma {:induction false} MaterialiseOkIff(attrs: Attrs, doc: Json)
    ensures Materialise(attrs, doc).Ok?
            <==> forall j :: 0 <= j < |attrs| ==> FieldValue(doc, attrs[j].1).Ok?
    decreases |attrs|
  {
    if attrs != [] {
      var n := |attrs| - 1;
      MaterialiseOkIff(attrs[..n], doc);
      assert forall j :: 0 <= j < n ==> attrs[..n][j] == attrs[j];
    }
  }

  /** After building, every attribute is set, to the value its own path reaches,
      or `None` when a key along the path is missing. */
  lemma MaterialiseFields(attrs: Attrs, doc: Json)
    requires DistinctNames(attrs) && Materialise(attrs, doc).Ok?
    ensures Materialise(attrs, doc).value.Keys == Names(attrs)
    ensures forall j :: 0 <= j < |attrs| ==>
              attrs[j].0 in Materialise(attrs, doc).value
              && FieldValue(doc, attrs[j].1) == Ok(Materialise(attrs, doc).value[attrs[j].0])
  {
    MaterialiseKeys(attrs, doc);
    MaterialiseValues(attrs, doc);
  }

  /** The attributes `_build` sets are exactly the names of the attribute map. */
  lemma {:induction false} MaterialiseKeys(attrs: Attrs, doc: Json)
    requires Materialise(attrs, doc).Ok?
    ensures Materialise(attrs, doc).value.Keys == Names(attrs)
    decreases |attrs|
  {
    if attrs != [] {
      var n := |attrs| - 1;
      MaterialiseKeys(attrs[..n], doc);
      NamesOfPrefix(attrs);
    }
  }

  lemma {:induction false} MaterialiseValues(attrs: Attrs, doc: Json)
    requires DistinctNames(attrs) && Materialise(attrs, doc).Ok?
    ensures forall j :: 0 <= j < |attrs| ==>
              attrs[j].0 in Materialise(attrs, doc).value
              && FieldValue(doc, attrs[j].1) == Ok(Materialise(attrs, doc).value[attrs[j].0])
    decreases |attrs|
  {
    if attrs != [] {
      var n := |attrs| - 1;
      var prefix := attrs[..n];
      assert DistinctNames(prefix);
      MaterialiseValues(prefix, doc);
      var m, v := Materialise(prefix, doc).value, FieldValue(doc, attrs[n].1).value;
      assert Materialise(attrs, doc) == Ok(m[attrs[n].0 := v]);
      forall j | 0 <= j < |attrs|
        ensures attrs[j].0 in m[attrs[n].0 := v] && FieldValue(doc, attrs[j].1) == Ok(m[attrs[n].0 := v][attrs[j].0])
      {
        if j < n {
          assert prefix[j] == attrs[j];
          assert attrs[j].0 != attrs[n].0;
        }
      }
    }
  }

  lemma NamesOfPrefix(attrs: Attrs)
    requires attrs != []
    ensures Names(attrs) == Names(attrs[..|attrs| - 1]) + {attrs[|attrs| - 1].0}
  {
    var n := |attrs| - 1;
    var prefix := attrs[..n];
    forall x | x in Names(attrs) ensures x in Names(prefix) + {attrs[n].0} {
      var j :| 0 <= j < |attrs| && attrs[j].0 == x;
      if j < n { assert prefix[j].0 == x; }
    }
  }

  /** The exception that escapes `_build` is that of the first attribute that
      raises something other than KeyError. */
  lemma {:induction false} MaterialiseFirstError(attrs: Attrs, doc: Json)
    requires Materialise(attrs, doc).Err?
    ensures exists j :: 0 <= j < |attrs| && FieldValue(doc, attrs[j].1) == Err(Materialise(attrs, doc).error)
                        && forall i :: 0 <= i < j ==> FieldValue(doc, attrs[i].1).Ok?
    decreases |attrs|
  {
    var n := |attrs| - 1;
    var prefix := attrs[..n];
    assert forall j :: 0 <= j < n ==> prefix[j] == attrs[j];
    if Materialise(prefix, doc).Err? {
      MaterialiseFirstError(prefix, doc);
      var j :| 0 <= j < |prefix| && FieldValue(doc, prefix[j].1) == Err(Materialise(prefix, doc).error)
               && forall i :: 0 <= i < j ==> FieldValue(doc, prefix[i].1).Ok?;
      assert FieldValue(doc, attrs[j].1) == Err(Materialise(attrs, doc).error);
    } else {
      MaterialiseOkIff(prefix, doc);
      assert FieldValue(doc, attrs[n].1) == Err(Materialise(attrs, doc).error);
    }
  }

  /** Building one more attribute after an error-free prefix. */
  lemma MaterialiseStep(attrs: Attrs, doc: Json, i: nat)
    requires i < |attrs| && Materialise(attrs[..i], doc).Ok?
    ensures FieldValue(doc, attrs[i].1).Err? ==>
              Materialise(attrs[..i + 1], doc) == Err(FieldValue(doc, attrs[i].1).error)
    ensures FieldValue(doc, attrs[i].1).Ok? ==>
              Materialise(attrs[..i + 1], doc)
              == Ok(Materialise(attrs[..i], doc).value[attrs[i].0 := FieldValue(doc, attrs[i].1).value])
  {
    assert attrs[..i + 1][..i] == attrs[..i];
    assert attrs[..i + 1][i] == attrs[i];
  }

  /** Once a prefix of the attributes has raised, the rest are never looked at. */
  lemma {:induction false} MaterialiseErrPersists(attrs: Attrs, doc: Json, i: nat)
    requires i <= |attrs| && Materialise(attrs[..i], doc).Err?
    ensures Materialise(attrs, doc) == Materialise(attrs[..i], doc)
    decreases |attrs|
  {
    if i == |attrs| {
      assert attrs[..i] == attrs;
    } else {
      var n := |attrs| - 1;
      assert attrs[..n][..i] == attrs[..i];
      MaterialiseErrPersists(attrs[..n], doc, i);
    }
  }

  /** Attributes are resolved independently and only through their paths: two
      documents on which every path gives the same outcome build the same fields,
      whatever else they hold. */
  lemma {:induction false} MaterialiseDependsOnlyOnPaths(attrs: Attrs, d1: Json, d2: Json)
    requires forall j :: 0 <= j < |attrs| ==> FieldValue(d1, attrs[j].1) == FieldValue(d2, attrs[j].1)
    ensures Materialise(attrs, d1) == Materialise(attrs, d2)
    decreases |attrs|
  {
    if attrs != [] {
      var n := |attrs| - 1;
      assert forall j :: 0 <= j < n ==> attrs[..n][j] == attrs[j];
      MaterialiseDependsOnlyOnPaths(attrs[..n], d1, d2);
    }
  }

  /** Two built field maps are equal exactly when every attribute's path gives
      the same outcome in both documents. */
  lemma MaterialisedEqualIff(attrs: Attrs, d1: Json, d2: Json)
    requires DistinctNames(attrs) && Materialise(attrs, d1).Ok? && Materialise(attrs, d2).Ok?
    ensures Materialise(attrs, d1) == Materialise(attrs, d2)
            <==> forall j :: 0 <= j < |attrs| ==> FieldValue(d1, attrs[j].1) == FieldValue(d2, attrs[j].1)
  {
    MaterialiseOkIff(attrs, d1);
    MaterialiseOkIff(attrs, d2);
    MaterialiseFields(attrs, d1);
    MaterialiseFields(attrs, d2);
    if forall j :: 0 <= j < |attrs| ==> FieldValue(d1, attrs[j].1) == FieldValue(d2, attrs[j].1) {
      MaterialiseDependsOnlyOnPaths(attrs, d1, d2);
    }
  }

  /** A missing key (or any change) on one attribute's path leaves every other
      attribute's value as it was. */
  lemma OtherAttributesUnaffected(attrs: Attrs, d1: Json, d2: Json, j: nat)
    requires DistinctNames(attrs) && Materialise(attrs, d1).Ok? && Materialise(attrs, d2).Ok?
    requires j < |attrs|
    requires forall i :: 0 <= i < |attrs| && i != j ==> FieldValue(d1, attrs[i].1) == FieldValue(d2, attrs[i].1)
    ensures forall i :: 0 <= i < |attrs| && i != j ==>
              attrs[i].0 in Materialise(attrs, d1).value && attrs[i].0 in Materialise(attrs, d2).value
              && Materialise(attrs, d1).value[attrs[i].0] == Materialise(attrs, d2).value[attrs[i].0]
  {
    MaterialiseFields(attrs, d1);
    MaterialiseFields(attrs, d2);
  }

  /** Building one record per document, in order, or the first exception. */
  function MaterialiseAll(attrs: Attrs, docs: seq<Json>): Result<seq<map<string, Json>>>
    decreases |docs|
  {
    if docs == [] then Ok([])
    else
      var n := |docs| - 1;
      match MaterialiseAll(attrs, docs[..n])
      case Err(e) => Err(e)
      case Ok(ms) =>
        match Materialise(attrs, docs[n])
        case Err(e) => Err(e)
        case Ok(m) => Ok(ms + [m])
  }

  /** One field map per document, same length, same order. */
  lemma {:induction false} MaterialiseAllOk(attrs: Attrs, docs: seq<Json>)
    ensures MaterialiseAll(attrs, docs).Ok?
            <==> forall i :: 0 <= i < |docs| ==> Materialise(attrs, docs[i]).Ok?
    ensures MaterialiseAll(attrs, docs).Ok? ==>
              |MaterialiseAll(attrs, docs).value| == |docs|
              && forall i :: 0 <= i < |docs| ==> Materialise(attrs, docs[i]) == Ok(MaterialiseAll(attrs, docs).value[i])
    decreases |docs|
  {
    if docs != [] {
      var n := |docs| - 1;
      assert forall i :: 0 <= i < n ==> docs[..n][i] == docs[i];
      MaterialiseAllOk(attrs, docs[..n]);
    }
  }

  /** Once a prefix of the documents has raised, the rest are never built. */
  lemma {:induction false} MaterialiseAllErrPersists(attrs: Attrs, docs: seq<Json>, i: nat)
    requires i <= |docs| && MaterialiseAll(attrs, docs[..i]).Err?
    ensures MaterialiseAll(attrs, docs) == MaterialiseAll(attrs, docs[..i])
    decreases |docs|
  {
    if i == |docs| {
      assert docs[..i] == docs;
    } else {
      var n := |docs| - 1;
      assert docs[..n][..i] == docs[..i];
      MaterialiseAllErrPersists(attrs, docs[..n], i);
    }
  }

  // ---------------------------------------------------------------------------
  // Thumbnails and cover pictures

  /** `thumbnail` tries the sizes from smallest to largest. */
  const ThumbnailOrder: seq<string> := ["tb", "sm", "md", "lg"]

  /** `cover_picture` tries the largest size first, then the rest from smallest. */
  const CoverOrder: seq<string> := ["lg", "tb", "sm", "md"]

  /** The entry for the first of `order` that `m` has, or `None`. */
  function FirstPresent(m: map<string, Json>, order: seq<string>): Json
    decreases |order|
  {
    if order == [] then JNull
    else if order[0] in m then m[order[0]]
    else FirstPresent(m, order[1..])
  }

  lemma {:induction false} FirstPresentAt(m: map<string, Json>, order: seq<string>, i: nat)
    requires i < |order| && order[i] in m
    requires forall j :: 0 <= j < i ==> order[j] !in m
    ensures FirstPresent(m, order) == m[order[i]]
    decreases i
  {
    if i > 0 {
      assert forall j :: 0 <= j < i - 1 ==> order[1..][j] == order[j + 1];
      FirstPresentAt(m, order[1..], i - 1);
    }
  }

  lemma {:induction false} FirstPresentNone(m: map<string, Json>, order: seq<string>)
    requires forall j :: 0 <= j < |order| ==> order[j] !in m
    ensures FirstPresent(m, order) == JNull
    decreases |order|
  {
    if order != [] {
      assert forall j :: 0 <= j < |order| - 1 ==> order[1..][j] == order[j + 1];
      FirstPresentNone(m, order[1..]);
    }
  }

  /** The try/continue loop of `thumbnail` and `cover_picture`. */
  method FirstAvailable(m: map<string, Json>, order: seq<string>) returns (r: Json)
    ensures r == FirstPresent(m, order)
  {
    for i := 0 to |order|
      invariant FirstPresent(m, order) == FirstPresent(m, order[i..])
    {
      assert order[i..][1..] == order[i + 1..];
      if order[i] in m {
        return m[order[i]];
      }
    }
    return JNull;
  }

  // ---------------------------------------------------------------------------
  // The api_method guard

  datatype Guarded<+T> = Called(value: T) | NotImplemented

  /** A method needing the API runs only when the record holds an API handle;
      otherwise NotImplementedError is raised and the body is never reached. */
  function ApiMethod<T>(hasApi: bool, body: () -> T): (r: Guarded<T>)
    ensures r.NotImplemented? <==> !hasApi
    ensures r.Called? ==> r.value == body()
  {
    if hasApi then Called(body()) else NotImplemented
  }

  // ---------------------------------------------------------------------------
  // Records

  /** The attribute/value pairs `__repr__` prints, in attribute order. */
  function MappedMembers(attrs: Attrs, fields: map<string, Json>): (r: seq<(string, Json)>)
    requires Names(attrs) <= fields.Keys
    ensures |r| == |attrs|
    ensures forall i :: 0 <= i < |attrs| ==> r[i] == (attrs[i].0, fields[attrs[i].0])
    decreases |attrs|
  {
    if attrs == [] then []
    else
      assert Names(attrs[1..]) <= Names(attrs) by {
        forall x | x in Names(attrs[1..]) ensures x in Names(attrs) {
          var j :| 0 <= j < |attrs[1..]| && attrs[1..][j].0 == x;
          assert attrs[j + 1].0 == x;
        }
      }
      assert attrs[0].0 in Names(attrs);
      [(attrs[0].0, fields[attrs[0].0])] + MappedMembers(attrs[1..], fields)
  }

  /** An instance of a resource class. `attrs` and the API handle are fixed at
      construction; `fields` holds the mapped attributes `_build` sets. */
  class ApiObject {
    const kind: Kind
    const attrs: Attrs
    const hasApi: bool
    var fields: map<string, Json>
    var thumbnails: map<string, Json>
    var coverPictures: Option<map<string, Json>>

    /** `ApiObject.__init__` plus the subclass's assignments of `_api` and
        `attrs`; `_cover_picture` is never assigned. */
    constructor (model: ModelClass, hasApi: bool)
      ensures kind == model.kind && attrs == model.attrs && this.hasApi == hasApi
      ensures fields == map[] && thumbnails == map[] && coverPictures == None
    {
      kind := model.kind;
      attrs := model.attrs;
      this.hasApi := hasApi;
      fields := map[];
      thumbnails := map[];
      coverPictures := None;
    }

    /** `_build`: sets each attribute in turn, absorbing only KeyError. */
    method Build(doc: Json) returns (error: Option<PyError>)
      modifies this
      ensures thumbnails == old(thumbnails) && coverPictures == old(coverPictures)
      ensures Materialise(attrs, doc).Ok? ==>
                error == None && fields == old(fields) + Materialise(attrs, doc).value
      ensures Materialise(attrs, doc).Err? ==> error == Some(Materialise(attrs, doc).error)
      ensures Materialise(attrs, doc).Err? ==>
                exists j :: 0 <= j < |attrs| && Materialise(attrs[..j], doc).Ok? && FieldValue(doc, attrs[j].1).Err?
                            && fields == old(fields) + Materialise(attrs[..j], doc).value
    {
      var collected: map<string, Json> := map[];
      var i := 0;
      while i < |attrs|
        invariant 0 <= i <= |attrs|
        invariant Materialise(attrs[..i], doc) == Ok(collected)
        invariant unchanged(this)
      {
        var value := ResolveField(doc, attrs[i].1);
        MaterialiseStep(attrs, doc, i);
        if value.Err? {
          // the attributes assigned before the exception stay assigned
          fields := fields + collected;
          MaterialiseErrPersists(attrs, doc, i + 1);
          return Some(value.error);
        }
        collected := collected[attrs[i].0 := value.value];
        i := i + 1;
      }
      assert attrs[..i] == attrs;
      fields := fields + collected;
      error := None;
    }

    predicate IsBuilt()
      reads this
    {
      Names(attrs) <= fields.Keys
    }

    /** The dict `__eq__` and `__repr__` restrict themselves to. */
    function MappedFields(): map<string, Json>
      reads this
      requires IsBuilt()
    {
      map k | k in Names(attrs) :: fields[k]
    }

    /** `__eq__`: same type, and the same value for every mapped attribute. */
    function Equals(other: ApiObject): (r: bool)
      reads this, other
      requires IsBuilt() && other.IsBuilt()
      ensures r <==> kind == other.kind && Names(attrs) == Names(other.attrs)
                     && forall k :: k in Names(attrs) ==> fields[k] == other.fields[k]
    {
      var mine, theirs := MappedFields(), other.MappedFields();
      assert mine.Keys == Names(attrs) && theirs.Keys == Names(other.attrs);
      kind == other.kind && mine == theirs
    }

    /** `__repr__` prints this dict: the mapped attributes, in attribute order. */
    function ReprDict(): (r: Json)
      reads this
      requires IsBuilt()
      ensures r.JObj? && |r.members| == |attrs|
      ensures forall i :: 0 <= i < |attrs| ==> r.members[i] == (attrs[i].0, fields[attrs[i].0])
    {
      JObj(MappedMembers(attrs, fields))
    }

    /** `thumbnail`: the smallest size available. */
    method Thumbnail() returns (r: Json)
      ensures r == FirstPresent(thumbnails, ThumbnailOrder)
    {
      r := FirstAvailable(thumbnails, ThumbnailOrder);
    }

    /** `get_thumbnail(quality)`. */
    function GetThumbnail(quality: string): (r: Json)
      reads this
      ensures quality in thumbnails ==> r == thumbnails[quality]
      ensures quality !in thumbnails ==> r == JNull
    {
      if quality in thumbnails then thumbnails[quality] else JNull
    }

    /** `cover_picture`: raises AttributeError when `_cover_picture` was never
        assigned; otherwise the largest size, else the next from smallest. */
    method CoverPicture() returns (r: Result<Json>)
      ensures coverPictures.None? ==> r == Err(AttributeError)
      ensures coverPictures.Some? ==> r == Ok(FirstPresent(coverPictures.value, CoverOrder))
    {
      match coverPictures
      case None =>
        r := Err(AttributeError);
      case Some(pictures) =>
        var picture := FirstAvailable(pictures, CoverOrder);
        r := Ok(picture);
    }
  }

  /** `o` is what `model(doc, api)` constructs. */
  predicate BuiltFrom(o: ApiObject, model: ModelClass, doc: Json, hasApi: bool)
    reads o
  {
    && o.kind == model.kind && o.attrs == model.attrs && o.hasApi == hasApi
    && Materialise(model.attrs, doc) == Ok(o.fields)
    && o.thumbnails == map[] && o.coverPictures == None
  }

  /** `model_class(doc, api)`: construct, then build; an exception from `_build`
      escapes the constructor. */
  method NewRecord(model: ModelClass, doc: Json, hasApi: bool) returns (r: Result<ApiObject>)
    ensures r.Ok? <==> Materialise(model.attrs, doc).Ok?
    ensures r.Err? ==> r.error == Materialise(model.attrs, doc).error
    ensures r.Ok? ==> fresh(r.value) && BuiltFrom(r.value, model, doc, hasApi)
  {
    var o := new ApiObject(model, hasApi);
    var error := o.Build(doc);
    if error.Some? {
      return Err(error.value);
    }
    assert map[] + Materialise(model.attrs, doc).value == Materialise(model.attrs, doc).value;
    return Ok(o);
  }

  /** Two records of one class are equal exactly when every attribute path gives
      the same outcome in their documents; the API handle, the thumbnails and any
      key no path reaches play no part. */
  lemma EqualIffPathsAgree(a: ApiObject, b: ApiObject, model: ModelClass,
                           d1: Json, d2: Json, api1: bool, api2: bool)
    requires DistinctNames(model.attrs)
    requires BuiltFrom(a, model, d1, api1) && BuiltFrom(b, model, d2, api2)
    ensures a.IsBuilt() && b.IsBuilt()
    ensures a.Equals(b) <==> forall j :: 0 <= j < |model.attrs| ==>
                               FieldValue(d1, model.attrs[j].1) == FieldValue(d2, model.attrs[j].1)
  {
    MaterialiseFields(model.attrs, d1);
    MaterialiseFields(model.attrs, d2);
    MaterialisedEqualIff(model.attrs, d1, d2);
    if a.Equals(b) {
      assert a.fields == b.fields;
    }
  }

  /** Equal records print the same; `__repr__` shows exactly the mapped names. */
  lemma ReprOfEqualRecords(a: ApiObject, b: ApiObject)
    requires a.IsBuilt() && b.IsBuilt() && a.attrs == b.attrs && a.Equals(b)
    ensures a.ReprDict() == b.ReprDict()
    ensures forall i :: 0 <= i < |a.attrs| ==> a.ReprDict().members[i].0 == a.attrs[i].0
  {
    assert a.ReprDict().members == b.ReprDict().members;
  }

  /** For the first size present, `thumbnail` and `get_thumbnail` agree; with no
      size present `thumbnail` is None. */
  lemma ThumbnailIsFirstQuality(o: ApiObject, i: nat)
    requires i < |ThumbnailOrder| && ThumbnailOrder[i] in o.thumbnails
    requires forall j :: 0 <= j < i ==> ThumbnailOrder[j] !in o.thumbnails
    ensures FirstPresent(o.thumbnails, ThumbnailOrder) == o.GetThumbnail(ThumbnailOrder[i])
  {
    FirstPresentAt(o.thumbnails, ThumbnailOrder, i);
  }

  // ---------------------------------------------------------------------------
  // Article

  const ArticleAttrs: Attrs := [
    ("id_", Single(Name("id"))),
    ("name", Single(Name("name"))),
    ("intro", Single(Name("intro"))),
    ("score", Single(Name("score"))),
    ("snippet", Single(Name("snippet"))),
    ("tags", Single(Name("tags")))
  ]

  /** Names `_build` could not set without overwriting the record's own state:
      `_build` writes into the instance dict, which also holds these. */
  predicate NoReservedNames(attrs: Attrs) {
    forall i :: 0 <= i < |attrs| ==> attrs[i].0 !in ["_api", "_thumbnail", "_cover_picture", "attrs"]
  }

  /** The Article map names none of them, so its fields are kept apart from the
      API handle and the pictures exactly as the source keeps them. */
  lemma ArticleNamesNotReserved()
    ensures NoReservedNames(ArticleAttrs)
    ensures DistinctNames(ArticleAttrs)
  {
  }

  const ArticleClass: ModelClass := ModelClass(Article, ArticleAttrs)

  /** The value of member `k`, or None when there is no such member. */
  function OrNull(members: seq<(string, Json)>, k: string): Json {
    match Lookup(members, k)
    case Some(v) => v
    case None => JNull
  }

  /** An Article built from any JSON object never raises: each field is the member
      of the same name (`id_` from `id`), or None when the member is missing. */
  lemma ArticleFromObject(members: seq<(string, Json)>)
    ensures Materialise(ArticleAttrs, JObj(members)) == Ok(map[
              "id_" := OrNull(members, "id"), "name" := OrNull(members, "name"),
              "intro" := OrNull(members, "intro"), "score" := OrNull(members, "score"),
              "snippet" := OrNull(members, "snippet"), "tags" := OrNull(members, "tags")])
  {
    var d := JObj(members);
    assert ArticleAttrs[..0] == [];
    assert Materialise(ArticleAttrs[..1], d) == Ok(map["id_" := OrNull(members, "id")]);
    assert ArticleAttrs[..2][..1] == ArticleAttrs[..1];
    assert Materialise(ArticleAttrs[..2], d).Ok?;
    assert ArticleAttrs[..3][..2] == ArticleAttrs[..2];
    assert Materialise(ArticleAttrs[..3], d).Ok?;
    assert ArticleAttrs[..4][..3] == ArticleAttrs[..3];
    assert Materialise(ArticleAttrs[..4], d).Ok?;
    assert ArticleAttrs[..5][..4] == ArticleAttrs[..4];
    assert Materialise(ArticleAttrs[..5], d).Ok?;
    assert ArticleAttrs[..6] == ArticleAttrs;
    assert ArticleAttrs[..5] == ArticleAttrs[..|ArticleAttrs| - 1];
  }

  /** Building an Article from anything but a JSON object raises TypeError
      (a list or a string cannot be indexed by a name). */
  lemma ArticleFromNonObject(doc: Json)
    requires !doc.JObj?
    ensures Materialise(ArticleAttrs, doc) == Err(TypeError)
  {
    assert ArticleAttrs[..1][..0] == [];
    assert Materialise(ArticleAttrs[..1], doc) == Err(TypeError);
    MaterialiseErrPersists(ArticleAttrs, doc, 1);
  }

  /** An Article never fills its thumbnails or cover pictures: `thumbnail` and
      `get_thumbnail` are None and `cover_picture` raises AttributeError. */
  lemma ArticleHasNoPictures(o: ApiObject, doc: Json, hasApi: bool, quality: string)
    requires BuiltFrom(o, ArticleClass, doc, hasApi)
    ensures FirstPresent(o.thumbnails, ThumbnailOrder) == JNull
    ensures o.GetThumbnail(quality) == JNull
    ensures o.coverPictures.None?
  {
    FirstPresentNone(o.thumbnails, ThumbnailOrder);
  }
}
