# triposo_api: a verified model of the client core

`triposo_api` is a small Python client for the Triposo travel API. An `Api`
object turns keyword arguments into a query string and requests a path. It
sorts the HTTP response by status code and by the shape of the JSON envelope
(`estimated_total` and `results`). It then builds one record, a list of
records, or a list of search results. Records are `ApiObject` subclasses.
Each one declares an ordered attribute map from field name to a path into the
JSON document. `_build` resolves the paths, turning a missing key into `None`.

The model has three modules:

- `Json` (`json.dfy`) holds decoded JSON values. It also models the Python
  built-ins the client applies to them:
  - `d[k]` raises KeyError on a dict, and IndexError or TypeError on a list
    or string; negative indices count from the end;
  - `for x in d` yields a dict's keys and a string's characters;
  - truthiness.
- `Models` (`models.dfy`) covers:
  - path resolution (`_get_from_dict`);
  - attribute building (`_build`);
  - the `ApiObject` class: `__eq__`, `__repr__`, `thumbnail`,
    `get_thumbnail` and `cover_picture`;
  - the `api_method` guard;
  - the `Article` attribute map.
- `Api` (`api.dfy`) covers:
  - `_arguments_from_kwargs`;
  - the status and envelope handling of `__get_data`;
  - `__build_response`, `__get_multiple`, `location`, `locations` and `search`.

The imperative parts stay imperative:

- The loops of `_get_from_dict`, `_build`, `_arguments_from_kwargs`,
  `thumbnail`, `__get_multiple` and `search` are `method`s with loop
  invariants.
- `ApiObject` is a `class` whose `Build` method updates its `fields`.

Each method is proved against a specification function: `GetFromDict`,
`Materialise`, `MaterialiseAll`, `Join`/`RStrip`, `FirstPresent`,
`SingleSpec`, `MultipleSpec` or `SearchSpec`. The lemmas state what those
functions mean.

The network is a parameter. `transport(path)` is the response (status code,
and the body decoded as JSON or `None` when it does not decode) that the
server gives for a request path relative to the endpoint. `raise_for_status`
is modelled by its documented rule: it raises exactly for statuses 400 to 599.
The resource classes `Location`, `Episode`, `Show` and `User` are not defined
in `models.py`. They appear as `ModelClass` parameters (a kind plus an
attribute map).

Where the code and its documentation disagree, the model follows the code:

- `__get_multiple` (and so `locations`) returns `None`, not an empty list,
  on a 404 or on falsy data.
- `search` does not guard against `None` data, so a 404 makes it raise
  TypeError.
- The docstring of `_build` says it raises KeyError when a key of the attribute
  map is missing from the document, but the code catches exactly that KeyError
  and sets the attribute to `None` (`FieldValue`).
- When `estimated_total` is 1, `__get_data` unwraps the single result. `locations`
  then iterates over that result's keys. A record whose first attribute is a
  name path cannot be built from such a key string (TypeError); an index path
  would build from it (`"id"[0]`).

## Model

| member | source | states |
|---|---|---|
| Json.Subscript | triposo_api/models.py:83-87 | `d[k]` on a decoded value: a dict with the key gives that member's value; a list or string with an index in range gives the element at it (negative indices from the end; a string's element is a one-character string); KeyError exactly for a dict without the key or with an integer key; IndexError exactly for an index out of range on a list or string; TypeError exactly for a name on a list or string and for every other value |
| Json.Iterate | triposo_api/api.py:110 | `for x in d`: a list yields its items, a dict its keys in order, a string its characters; None, booleans and numbers raise TypeError |
| Json.Lookup | triposo_api/models.py:87 | a member is found exactly when some member has the key, and the value found belongs to such a member |
| Models.ResolvePath | triposo_api/models.py:83-88 | the loop of `_get_from_dict` computes `GetFromDict`: a single key subscripts once, a list of keys subscripts successively, and the first failing subscript's exception escapes |
| Models.WalkConcat | triposo_api/models.py:84-85 | following keys `a + b` is following `a` and then `b` from the value reached |
| Models.FirstFailureAborts | triposo_api/models.py:84-85 | the first key that cannot be applied decides the outcome of the whole path |
| Models.SingleKeyIsOneStep | triposo_api/models.py:83-87 | a bare key and a one-element key list designate the same value; an empty key list designates the document itself |
| Models.FieldValue | triposo_api/models.py:62-66 | an attribute is set to the value its path resolves to, to None when the path raises KeyError, and any other exception of the path escapes unchanged |
| Models.ResolveField | triposo_api/models.py:62-66 | the try/except around one attribute: KeyError becomes None and every other outcome is unchanged |
| Models.MaterialiseOkIff | triposo_api/models.py:61-66 | `_build` succeeds exactly when no attribute's path raises anything other than KeyError |
| Models.MaterialiseFields | triposo_api/models.py:61-66 | after `_build`, the set attributes are exactly the names in the attribute map, each holding the value its own path reaches (None on a missing key) |
| Models.MaterialiseKeys | triposo_api/models.py:61-66 | the attributes `_build` sets are exactly the names of the attribute map |
| Models.MaterialiseFirstError | triposo_api/models.py:61-66 | the exception escaping `_build` is that of the first attribute, in map order, that raises a non-KeyError |
| Models.MaterialiseErrPersists | triposo_api/models.py:61-66 | once an attribute has raised, the later attributes are never looked at |
| Models.MaterialiseDependsOnlyOnPaths | triposo_api/models.py:61-66 | two documents on which every path gives the same outcome build the same fields, whatever else they contain |
| Models.MaterialisedEqualIff | triposo_api/models.py:61-66 | two built field maps are equal if and only if every attribute's path gives the same outcome in both documents |
| Models.OtherAttributesUnaffected | triposo_api/models.py:61-66 | a change on one attribute's path leaves every other attribute's value as it was |
| Models.ApiObject.Build | triposo_api/models.py:49-66 | `_build` as a state change: on success `fields` gains exactly `Materialise(attrs, doc)`; otherwise it reports that exception and `fields` has gained exactly the attributes before the first failing one; the picture fields are unchanged |
| Models.ApiObject.constructor | triposo_api/models.py:46-47 | a new record has empty thumbnails, no cover pictures and the class's attribute map and API handle |
| Models.NewRecord | triposo_api/models.py:129-149 | `model_class(doc, api)` succeeds exactly when `_build` does, with `_build`'s exception otherwise; the new record holds the built fields |
| Models.MaterialiseAllOk | triposo_api/api.py:109-113 | building a list of documents succeeds exactly when each document builds; the result has one field map per document, in order |
| Models.MaterialiseAllErrPersists | triposo_api/api.py:110-112 | once a document fails to build, later documents are not built |
| Models.ApiMethod | triposo_api/models.py:31-35 | a guarded method raises NotImplementedError exactly when the record has no API handle; otherwise it returns the body's result |
| Models.ApiObject.Equals | triposo_api/models.py:104-108 | `__eq__` holds exactly when both records have the same type, the same attribute names and the same value for each of them |
| Models.EqualIffPathsAgree | triposo_api/models.py:104-108 | two records of one class are equal if and only if every attribute path gives the same outcome in their documents; the API handle and the unmapped keys do not matter |
| Models.ApiObject.ReprDict | triposo_api/models.py:110-112 | `__repr__` shows one entry per mapped attribute, in map order, with that attribute's value |
| Models.ReprOfEqualRecords | triposo_api/models.py:104-112 | equal records of one class print the same |
| Models.MappedMembers | triposo_api/models.py:112 | the printed pairs are the attribute names, in order, with their values |
| Models.FirstAvailable | triposo_api/models.py:97-102 | the try/continue loop returns the entry of the first size in the given order that is present, or None |
| Models.FirstPresentAt | triposo_api/models.py:97-101 | when size `i` is the first present, the result is that size's entry |
| Models.FirstPresentNone | triposo_api/models.py:102 | with no size present, the result is None |
| Models.ApiObject.Thumbnail | triposo_api/models.py:90-102 | `thumbnail` is the first present of tb, sm, md, lg |
| Models.ApiObject.GetThumbnail | triposo_api/models.py:174-187 | `get_thumbnail(q)` is the entry for `q`, or None when that size is missing |
| Models.ThumbnailIsFirstQuality | triposo_api/models.py:90-102 | `thumbnail` equals `get_thumbnail` of the first size present |
| Models.ApiObject.CoverPicture | triposo_api/models.py:189-210 | `cover_picture` raises AttributeError when the cover pictures were never assigned; otherwise it gives the first present of lg, tb, sm, md |
| Models.ArticleFromObject | triposo_api/models.py:140-149 | an Article built from any JSON object never raises; each field is the same-named member (`id_` from `id`), or None when that member is missing |
| Models.ArticleFromNonObject | triposo_api/models.py:140-149 | building an Article from anything other than a JSON object raises TypeError |
| Models.ArticleNamesNotReserved | triposo_api/models.py:140-148 | the Article map names no attribute of the instance's own state (`_api`, `_thumbnail`, `_cover_picture`, `attrs`) and no field twice, so `_build` cannot overwrite the handle or the pictures |
| Models.ArticleHasNoPictures | triposo_api/models.py:138-149 | an Article has no thumbnails (`thumbnail` and `get_thumbnail` are None) and never sets the cover pictures |
| Api.NatToString | triposo_api/api.py:73 | `str(n)` of a natural number is a non-empty string of decimal digits without a leading zero |
| Api.NatToStringDenotes | triposo_api/api.py:73 | the digits of `str(n)` denote `n` |
| Api.ArgumentsFromKwargs | triposo_api/api.py:70-75 | the loop builds the `key=str(value)` pairs joined by `&`, in argument order, with the trailing `&`s stripped off |
| Api.RStripRemovesTrailingRun | triposo_api/api.py:74 | `rstrip('&')` leaves a prefix that does not end in `&`; every character it removes is `&` |
| Api.AccumulatedIsJoinAndAmpersand | triposo_api/api.py:72-73 | before the strip, the accumulated string is the `&`-join followed by a single `&` |
| Api.QueryIsJoinIff | triposo_api/api.py:70-75 | the result is the plain `&`-join if and only if the last value does not itself end in `&` |
| Api.TrailingAmpersandOfValueIsLost | triposo_api/api.py:74 | a last value `a&&` loses its own ampersands: `q=a&&` becomes `q=a` |
| Api.QueryStringExample | tests/api_tests.py:10-15 | hello=world, why=not, test=arg give `hello=world&why=not&test=arg` |
| Api.EmptyQueryString | triposo_api/api.py:70-75 | no arguments give the empty query string |
| Api.StatusHandling | triposo_api/api.py:50-57 | 404 gives None whatever the body; every other status from 400 to 599 (401 among them) raises an HTTP error; any other status is handled like 200; an undecodable 200 body gives None |
| Api.EnvelopeShapes | triposo_api/api.py:58-68 | a total of one gives the first result (IndexError when there is none); any other total gives the whole result list; a missing `estimated_total` raises KeyError |
| Api.BuildResponse | triposo_api/api.py:77-92 | `__build_response` raises exactly when `__get_data` or the constructor raises; it gives None for falsy data, otherwise one fresh record of the class built from the data |
| Api.BuildAll | triposo_api/api.py:109-113 | the append loop builds one fresh record per document, in order, or raises the first construction error |
| Api.GetMultiple | triposo_api/api.py:94-113 | `__get_multiple` gives None for falsy data; otherwise one fresh record per element of the iterated data, in order; exceptions from fetching, iterating or building escape |
| Api.FetchLocation | triposo_api/api.py:115-126 | `location` requests `location.json?` followed by the query string and builds one Location |
| Api.FetchLocations | triposo_api/api.py:128-143 | `locations` requests the same path and builds a list of Locations |
| Api.AmsterdamQuery | tests/api_tests.py:17-18 | the query for `id='Amsterdam', fields='all'` is `location.json?id=Amsterdam&fields=all` |
| Api.LocationPathExample | tests/api_tests.py:17-18 | `location(id='Amsterdam', fields='all')` requests `location.json?id=Amsterdam&fields=all` |
| Api.NotFoundIsNone | triposo_api/api.py:53-55 | a 404, or a 200 whose body does not decode, gives None from both the single and the list fetch |
| Api.ListEnvelopeKeepsOrder | triposo_api/api.py:60-65 | with a total other than one, `__get_multiple` builds exactly one record per result, the i-th from the i-th result |
| Api.ObjectBuildsWithNamePaths | triposo_api/models.py:61-66 | an attribute map of plain names never makes building from a JSON object raise |
| Api.SingleEnvelopeExample | tests/api_tests.py:17-21 | a single-match envelope for Amsterdam gives one record whose `name` is `Amsterdam` and whose `type` is `city` |
| Api.SingleMatchBreaksGetMultiple | triposo_api/api.py:60-62 | with a total of one, `__get_multiple` iterates the keys of the single result, so building from a key string raises TypeError |
| Api.KeyStringsDoNotBuild | triposo_api/api.py:110-111 | a list whose first document is a string cannot be built into records whose first attribute is a name path: TypeError |
| Api.FirstKey | triposo_api/api.py:247-251 | the class is chosen by the first key of `mapping` present in the result set; none is chosen only when no key is present |
| Api.SearchRecordsStep | triposo_api/api.py:245-258 | one more result set adds its records after the earlier ones, or its exception |
| Api.SearchRecordsErrPersists | triposo_api/api.py:245-258 | once a result set raises, the later ones are never looked at |
| Api.FlattenAppend | triposo_api/api.py:244-259 | appending the outcomes of two runs appends their records, when neither raises |
| Api.SearchRecordsAppend | triposo_api/api.py:244-259 | searching two runs of result sets gives the records of the first run followed by those of the second |
| Api.ResultSetClassification | triposo_api/api.py:247-256 | a set with no known key, or with a class that a non-empty `include` excludes, contributes nothing; episodes take precedence over shows |
| Api.SearchNotFoundRaises | triposo_api/api.py:237-245 | on a 404, `search` iterates over None and raises TypeError |
| Api.BuildResultSet | triposo_api/api.py:246-258 | one pass of the loop: a non-dict result set raises AttributeError; a selected set builds one record per item, without an API handle |
| Api.Search | triposo_api/api.py:215-259 | `search` requests `search/?q=` plus the query; the fresh records are those of every result set in order, none holding an API handle, or the first exception |
| Api.RealisesAllAppend | triposo_api/api.py:258 | appending the records of a further result set keeps the correspondence between records and their specification |
| Api.SearchRecordsCannotReachApi | triposo_api/models.py:31-35 | no search result holds an API handle, so every guarded method on it raises NotImplementedError |

## Left out

- The `requests.Session`, its headers, the account and token, and the actual
  `GET` are I/O. They are replaced by the `transport` parameter.
- The endpoint join by `posixpath.join` with `config.END_POINT` is left out: the
  configuration is not modelled and paths are given relative to the endpoint.
- The fallback of `__get_data` when its status branches fall through is
  modelled as a parse. `response.json()` raising ValueError becomes a body of
  `None`; `raise_for_status` is taken to raise exactly for 400 to 599.
- `season_episodes` and `shows` use `__pager`, which `api.py` does not define,
  so they are left out.
- `show_seasons` passes its arguments to `__get_multiple` in swapped order and
  names `models.Season`, which `models.py` does not define. Evaluating that name
  raises AttributeError before any request is made; with `Season` defined,
  `posixpath.join` of the endpoint and a class would raise TypeError, again
  before any request. It is left out.
- `season` builds `models.Season`, which the models module does not define, so
  it is left out.
- `Article.seasons` and `Article.episodes` are left out.
  - `seasons` goes through the `api_method` guard (modelled as `ApiMethod`).
    Without an API handle it raises NotImplementedError. With one it reads
    `_seasons`, which `Article` never assigns, and raises AttributeError.
  - `episodes` is not guarded. It reads `_episodes`, also never assigned, and
    raises AttributeError whatever the API handle.
- The tests `test_location` and `test_find_country` make live requests. Only
  the request path and the shape of a single-match reply are modelled.
- The classes `Location`, `Episode`, `Show` and `User` are not defined in
  `models.py`. They are parameters (`ModelClass`), and `include` is a list
  of class kinds.
- Models.ApiObject.ReprDict: gives the dict that `__repr__` passes to `str()`.
  The textual rendering by `str()` is not modelled.
- Api.PyStr: renders strings, integers, booleans and None. Python's `str()` of
  a float or of a container is not modelled.
- Models.ApiObject.Equals: compares values structurally. Python's `==` inside
  values ignores the order of dict keys and treats `True == 1` as equal; the
  model does not. Only `estimated_total == 1` is modelled with Python's rule
  (`EqualsOne`).
- JSON numbers are exact reals (`JNum(n: real)`). Python's distinction between
  int and float is lost, and so is float rounding: for example,
  `estimated_total` 1.0000000000000001 decodes to 1.0 in Python, so Python
  takes the single-result branch, but `EqualsOne` rejects it. `Truthy` can
  also differ on a number that underflows to 0.0.
- JSON objects with duplicate keys: the decoder keeps the last value and the
  model looks up the first, so such documents are outside the model.
- `AuthenticationError` and `NotAuthenticatedError` (defined at the end of
  `api.py`) are never raised by the modelled code, so they are left out.
- The instance dict is not modelled as one namespace. `_build` writes every
  field into the instance's own `__dict__`, which also holds `_api`,
  `_thumbnail` and `attrs`. An attribute map naming one of those (or
  `_cover_picture`) would overwrite the API handle, the thumbnails or the map
  with a JSON value. The model keeps `fields` apart from `hasApi`, `thumbnails`
  and `coverPictures`. So `Build`'s "pictures unchanged" clause and
  `SearchRecordsCannotReachApi` hold only for maps satisfying `NoReservedNames`,
  which `ArticleNamesNotReserved` proves for the Article map; the Episode, Show
  and User maps are outside the modelled files.
