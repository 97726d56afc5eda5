/** Decoded JSON documents and the few Python built-ins the client applies to them:
    subscription (`d[k]`), iteration (`for x in d`) and truthiness (`if not d`).
    Python's `None` and JSON `null` are the same value, `JNull`. */
module Json {

  datatype Option<+T> = None | Some(value: T)

  /** A decoded document. An object keeps its members in document order, as a
      Python dict does. */
  datatype Json =
    | JNull
    | JBool(b: bool)
    | JNum(n: real)
    | JStr(s: string)
    | JArr(items: seq<Json>)
    | JObj(members: seq<(string, Json)>)

  /** A subscript: a string key or an integer index. */
  datatype Key = Name(name: string) | Index(index: int)

  /** The exceptions that escape the code being modelled. */
  datatype PyError =
    | KeyError
    | TypeError
    | IndexError
    | AttributeError
    | HttpError(status: int)

  datatype Result<+T> = Ok(value: T) | Err(error: PyError)

  /** The value of the member named `k`, if there is one. */
  function Lookup(members: seq<(string, Json)>, k: string): (r: Option<Json>)
    ensures r.Some? <==> exists i :: 0 <= i < |members| && members[i].0 == k
    ensures r.Some? ==> exists i :: 0 <= i < |members| && members[i] == (k, r.value)
  {
    if members == [] then None
    else if members[0].0 == k then Some(members[0].1)
    else Lookup(members[1..], k)
  }

  /** Python's `d[k]` on a decoded document. A dict raises KeyError for a missing
      key (an integer is never a key of a decoded dict); a list or a string takes
      an integer index, negative ones counting from the end, and raises IndexError
      out of range and TypeError for a string key; every other value raises
      TypeError. */
  function Subscript(d: Json, k: Key): (r: Result<Json>)
    ensures r == Err(KeyError) <==> d.JObj? && (k.Index? || Lookup(d.members, k.name).None?)
    ensures r == Err(TypeError) <==> !(d.JObj? || d.JArr? || d.JStr?) || ((d.JArr? || d.JStr?) && k.Name?)
    ensures r == Err(IndexError) <==> k.Index? && ((d.JArr? && !(-|d.items| <= k.index < |d.items|))
                                                  || (d.JStr? && !(-|d.s| <= k.index < |d.s|)))
    ensures d.JObj? && k.Name? && Lookup(d.members, k.name).Some? ==> r == Ok(Lookup(d.members, k.name).value)
    ensures d.JArr? && k.Index? && -|d.items| <= k.index < |d.items| ==>
              r == Ok(d.items[if k.index < 0 then k.index + |d.items| else k.index])
    ensures d.JStr? && k.Index? && -|d.s| <= k.index < |d.s| ==>
              r == Ok(JStr([d.s[if k.index < 0 then k.index + |d.s| else k.index]]))
  {
    match d
    case JObj(ms) =>
      (match k
       case Name(n) => (match Lookup(ms, n) case Some(v) => Ok(v) case None => Err(KeyError))
       case Index(_) => Err(KeyError))
    case JArr(xs) =>
      (match k
       case Index(i) =>
         if -|xs| <= i < |xs| then Ok(xs[if i < 0 then i + |xs| else i]) else Err(IndexError)
       case Name(_) => Err(TypeError))
    case JStr(s) =>
      (match k
       case Index(i) =>
         if -|s| <= i < |s| then Ok(JStr([s[if i < 0 then i + |s| else i]])) else Err(IndexError)
       case Name(_) => Err(TypeError))
    case _ => Err(TypeError)
  }

  /** Python's `for x in d`: a list yields its items, a dict its keys in order, a
      string its characters; numbers, booleans and None are not iterable. */
  function Iterate(d: Json): (r: Result<seq<Json>>)
    ensures r.Err? <==> d.JNull? || d.JBool? || d.JNum?
    ensures r.Err? ==> r.error == TypeError
    ensures d.JArr? ==> r == Ok(d.items)
    ensures d.JObj? ==> r.Ok? && |r.value| == |d.members|
                        && forall i :: 0 <= i < |d.members| ==> r.value[i] == JStr(d.members[i].0)
    ensures d.JStr? ==> r.Ok? && |r.value| == |d.s|
                        && forall i :: 0 <= i < |d.s| ==> r.value[i] == JStr([d.s[i]])
  {
    match d
    case JArr(xs) => Ok(xs)
    case JObj(ms) => Ok(seq(|ms|, i requires 0 <= i < |ms| => JStr(ms[i].0)))
    case JStr(s) => Ok(seq(|s|, i requires 0 <= i < |s| => JStr([s[i]])))
    case _ => Err(TypeError)
  }

  /** Python truthiness: None, False, zero and empty containers are falsy. */
  predicate Truthy(d: Json) {
    match d
    case JNull => false
    case JBool(b) => b
    case JNum(n) => n != 0.0
    case JStr(s) => s != []
    case JArr(xs) => xs != []
    case JObj(ms) => ms != []
  }
}
