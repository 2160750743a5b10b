/** What every script does with the search response before its own work
    starts: the HTTP status decides between the error branch and the body;
    the body is parsed as JSON and its `businesses` entry is read with
    `.get("businesses", [])`. The HTTP call itself is not modelled: its
    status and its (possibly unparsable) body are the input. */
module Response {
  import opened Json

  /** A response: the status code, and the body parsed as JSON, or None
      when the body is not JSON. */
  datatype Response = Response(status: int, body: Option<Json>)

  /** Where the status check and `.get("businesses", [])` lead. */
  datatype Fetched =
    | HttpError(status: int)       // the `else` branch: the status is printed
    | Failed(error: Raised)        // parsing the body or `.get` raised
    | Listed(businesses: Json)     // the value bound to `businesses`

  const Ok200: int := 200
  const BusinessesKey: string := "businesses"

  function Dispatch(resp: Response): (d: Fetched)
    ensures d.HttpError? <==> resp.status != Ok200
    ensures d.HttpError? ==> d.status == resp.status
    ensures resp.status == Ok200 && resp.body.None? ==> d == Failed(NotJson)
    ensures resp.status == Ok200 && resp.body.Some? && !resp.body.value.JObj? ==> d == Failed(NotADict)
    ensures d.Listed? <==> resp.status == Ok200 && resp.body.Some? && resp.body.value.JObj?
    ensures d.Listed? && BusinessesKey in resp.body.value.fields ==>
              d.businesses == resp.body.value.fields[BusinessesKey]
    ensures d.Listed? && BusinessesKey !in resp.body.value.fields ==> d.businesses == JArr([])
  {
    if resp.status != Ok200 then HttpError(resp.status)
    else if resp.body.None? then Failed(NotJson)
    else
      match Get(resp.body.value, BusinessesKey, JArr([]))
      case Ok(bs) => Listed(bs)
      case Err(e) => Failed(e)
  }

  /** The dictionaries a DataFrame is built from: `pd.DataFrame(xs)` for a
      list of dictionaries has one row per dictionary, and `pd.DataFrame(None)`
      is the empty frame. Other shapes are not followed. */
  function Records(v: Json): (r: Result<seq<map<string, Json>>>)
    ensures v.JNull? ==> r == Ok([])
    ensures r.Ok? <==> v.JNull? || (v.JArr? && forall i | 0 <= i < |v.items| :: v.items[i].JObj?)
    ensures r.Ok? && v.JArr? ==> |r.value| == |v.items| && forall i | 0 <= i < |v.items| :: r.value[i] == v.items[i].fields
    ensures r.Err? ==> r.error == Unsupported
  {
    match v
    case JNull => Ok([])
    case JArr(xs) => Fields(xs)
    case _ => Err(Unsupported)
  }

  function Fields(xs: seq<Json>): (r: Result<seq<map<string, Json>>>)
    ensures r.Ok? <==> forall i | 0 <= i < |xs| :: xs[i].JObj?
    ensures r.Ok? ==> |r.value| == |xs| && forall i | 0 <= i < |xs| :: r.value[i] == xs[i].fields
    ensures r.Err? ==> r.error == Unsupported
  {
    if xs == [] then Ok([])
    else if !xs[0].JObj? then Err(Unsupported)
    else
      var rest :- Fields(xs[1..]);
      Ok([xs[0].fields] + rest)
  }
}
