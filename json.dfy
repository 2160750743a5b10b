/** Parsed JSON values as the scripts see them after `json.loads`, the Python
    exceptions their dictionary accesses can raise, and the three access forms
    they use: `d.get(k, default)`, `d[k]` and `for x in v`. */
module Json {

  /** A JSON value. Numbers carry the exact decimal value of their literal;
      objects are maps, since no modelled step depends on key order. */
  datatype Json =
    | JNull
    | JBool(b: bool)
    | JNum(n: real)
    | JStr(s: string)
    | JArr(items: seq<Json>)
    | JObj(fields: map<string, Json>)

  /** The exceptions the scripts can raise on malformed payloads. */
  datatype Raised =
    | KeyError(key: string)      // `d[k]` with `k` absent, or a missing DataFrame column
    | NotADict                   // `.get` or `["..."]` on a value that is not an object
    | NotIterable                // `for x in v` or `len(v)` on null, a number or a boolean
    | NotJson                    // `json.loads` on a body that is not JSON
    | TypeError                  // a comparison or `join` on values of the wrong type
    | Unsupported                // a shape the model does not follow pandas into

  datatype Option<+T> = None | Some(value: T)

  datatype Result<+T> = Ok(value: T) | Err(error: Raised) {
    predicate IsFailure() { Err? }
    function PropagateFailure<U>(): Result<U> requires Err? { Err(error) }
    function Extract(): T requires Ok? { value }
  }

  /** The fields of a business and of its location that the scripts read. */
  const NameField: string := "name"
  const RatingField: string := "rating"
  const LocationField: string := "location"
  const CategoriesField: string := "categories"
  const CoordinatesField: string := "coordinates"
  const Address1Field: string := "address1"
  const CityField: string := "city"

  /** `xs` followed by the list in `r`, or `r`'s error: what a loop that
      has appended `xs` so far ends with when the rest gives `r`. */
  function Prepend<T>(xs: seq<T>, r: Result<seq<T>>): Result<seq<T>> {
    match r
    case Ok(ys) => Ok(xs + ys)
    case Err(e) => Err(e)
  }

  lemma PrependPrepend<T>(xs: seq<T>, x: T, r: Result<seq<T>>)
    ensures Prepend(xs, Prepend([x], r)) == Prepend(xs + [x], r)
  {
    if r.Ok? {
      assert xs + ([x] + r.value) == (xs + [x]) + r.value;
    }
  }

  lemma PrependNothing<T>(r: Result<seq<T>>)
    ensures Prepend([], r) == r
  {
    if r.Ok? {
      assert [] + r.value == r.value;
    }
  }

  /** `d.get(k, default)` on a dictionary. */
  function DictGet(d: map<string, Json>, k: string, default: Json): (r: Json)
    ensures k in d ==> r == d[k]
    ensures k !in d ==> r == default
  {
    if k in d then d[k] else default
  }

  /** `v.get(k, default)`: only objects have `.get`. */
  function Get(v: Json, k: string, default: Json): (r: Result<Json>)
    ensures r.Ok? <==> v.JObj?
    ensures v.JObj? ==> r.value == DictGet(v.fields, k, default)
  {
    if v.JObj? then Ok(DictGet(v.fields, k, default)) else Err(NotADict)
  }

  /** `v[k]`: only objects are subscripted by a string key; an absent key raises. */
  function Subscript(v: Json, k: string): (r: Result<Json>)
    ensures r.Ok? <==> v.JObj? && k in v.fields
    ensures r.Ok? ==> r.value == v.fields[k]
    ensures v.JObj? && k !in v.fields ==> r == Err(KeyError(k))
  {
    if !v.JObj? then Err(NotADict)
    else if k in v.fields then Ok(v.fields[k])
    else Err(KeyError(k))
  }

  /** `for x in v`, as far as the scripts' loop bodies can get. A list yields
      its items. Null, numbers and booleans are not iterable. A string yields
      one-character strings and an object yields its string keys; every
      modelled loop body applies `.get` or `["title"]` to its element, which
      raises on a string, so a non-empty string or object fails as NotADict
      and an empty one yields nothing. */
  function Iterate(v: Json): (r: Result<seq<Json>>)
    ensures v.JArr? ==> r == Ok(v.items)
    ensures r.Ok? <==> v.JArr? || v == JStr("") || v == JObj(map[])
    ensures r.Ok? && !v.JArr? ==> r.value == []
  {
    match v
    case JArr(xs) => Ok(xs)
    case JStr(s) => if s == "" then Ok([]) else Err(NotADict)
    case JObj(m) => if m == map[] then Ok([]) else Err(NotADict)
    case _ => Err(NotIterable)
  }

  /** `len(v)`: lists, strings and objects have a length, nothing else does. */
  function Length(v: Json): (r: Result<nat>)
    ensures r.Ok? <==> v.JArr? || v.JStr? || v.JObj?
    ensures v.JArr? ==> r == Ok(|v.items|)
  {
    match v
    case JArr(xs) => Ok(|xs|)
    case JStr(s) => Ok(|s|)
    case JObj(m) => Ok(|m|)
    case _ => Err(NotIterable)
  }

  /** `[cat["title"] for cat in xs]`, evaluated left to right. */
  function Titles(xs: seq<Json>): (r: Result<seq<Json>>)
    ensures r.Ok? <==> forall i | 0 <= i < |xs| :: xs[i].JObj? && "title" in xs[i].fields
    ensures r.Ok? ==> |r.value| == |xs|
    ensures r.Ok? ==> forall i | 0 <= i < |xs| :: r.value[i] == xs[i].fields["title"]
  {
    if xs == [] then Ok([])
    else
      var t :- Subscript(xs[0], "title");
      var rest :- Titles(xs[1..]);
      Ok([t] + rest)
  }

  /** The list comprehension applied to whatever value holds the categories. */
  function CategoryTitles(v: Json): (r: Result<seq<Json>>)
    ensures v.JArr? ==> r == Titles(v.items)
    ensures v == JArr([]) ==> r == Ok([])
    ensures v.JNull? || v.JNum? || v.JBool? ==> r == Err(NotIterable)
  {
    var xs :- Iterate(v);
    Titles(xs)
  }
}
