/** yelp_blk_search_business.py: request the Black-owned businesses of a
    city, turn the `businesses` list into a frame (an empty frame on an
    HTTP error), and show its name, location and categories, or "No results
    showing" when the frame is empty. The URL is the one Request.SearchUrl
    builds with the default term; Run pairs it with the outcome. */
module BlkSearchBusiness {
  import opened Json
  import opened UrlEncode
  import opened Request
  import opened Response
  import opened Frames

  /** The columns shown. */
  const Shown: seq<string> := [NameField, LocationField, CategoriesField]

  /** `get_yelp_results(city)`: the records of the frame returned once the
      response to the request that Run sends has arrived. A status other
      than 200 gives the empty frame; on 200 the `businesses` list becomes
      one record per business, in order, and a body without it gives the
      empty list. `len(businesses)` is taken first, so a null list raises
      before the frame is built. */
  function GetYelpResults(resp: Response): (r: Result<seq<map<string, Json>>>)
    ensures resp.status != Ok200 ==> r == Ok([])
    ensures resp.status == Ok200 && resp.body.None? ==> r == Err(NotJson)
    ensures (resp.status == Ok200 && resp.body.Some? && resp.body.value.JObj?
             && BusinessesKey !in resp.body.value.fields) ==> r == Ok([])
    ensures Dispatch(resp).Listed? && Dispatch(resp).businesses.JNull? ==> r == Err(NotIterable)
    ensures Dispatch(resp).Failed? ==> r == Err(Dispatch(resp).error)
    ensures Dispatch(resp).Listed? && Dispatch(resp).businesses.JArr? ==>
      var items := Dispatch(resp).businesses.items;
      && (r.Ok? <==> forall i | 0 <= i < |items| :: items[i].JObj?)
      && (r.Ok? ==> (|r.value| == |items| &&
                     forall i | 0 <= i < |items| :: r.value[i] == items[i].fields))
  {
    match Dispatch(resp)
    case HttpError(_) => Ok([])
    case Failed(e) => Err(e)
    case Listed(bs) =>
      match Length(bs)
      case Err(e) => Err(e)
      case Ok(_) => Records(bs)
  }

  /** `df.empty` for the frame built from `recs`: no rows, or no columns
      because no record has a key. */
  predicate FrameEmpty(recs: seq<map<string, Json>>) {
    recs == [] || forall i | 0 <= i < |recs| :: recs[i] == map[]
  }

  /** The frame is empty exactly when it has no rows or no label is a
      column of it. */
  lemma FrameEmptyMeaning(recs: seq<map<string, Json>>)
    ensures FrameEmpty(recs) <==> recs == [] || forall l :: !HasColumn(recs, l)
  {
    if !FrameEmpty(recs) {
      var i :| 0 <= i < |recs| && recs[i] != map[];
      var l :| l in recs[i];
      assert HasColumn(recs, l);
    }
  }

  datatype Display =
    | NoResultsShowing
    | Showing(frame: Table)          // `yelp_data[['name', 'location', 'categories']]`
    | Crashed(error: Raised)

  /** Lines 57 to 61 on the records of the returned frame. */
  function Show(recs: seq<map<string, Json>>): (d: Display)
    ensures d == NoResultsShowing <==> FrameEmpty(recs)
    ensures d.Crashed? ==> d.error.KeyError? && d.error.key in Shown && !HasColumn(recs, d.error.key)
    ensures d.Showing? <==> !FrameEmpty(recs) && forall l | l in Shown :: HasColumn(recs, l)
    ensures d.Showing? ==>
      && WellFormed(d.frame) && d.frame.labels == Shown && d.frame.height == |recs|
      && forall l | l in Shown :: d.frame.columns[l] == Column(recs, l)
  {
    if FrameEmpty(recs) then NoResultsShowing
    else
      match SelectColumns(recs, Shown)
      case Err(e) => Crashed(e)
      case Ok(t) => Showing(t)
  }

  /** The script once the response has arrived. */
  function Script(resp: Response): Display
  {
    match GetYelpResults(resp)
    case Err(e) => Crashed(e)
    case Ok(recs) => Show(recs)
  }

  /** An HTTP error gives the empty frame, hence "No results showing". */
  lemma ErrorShowsNoResults(resp: Response)
    requires resp.status != Ok200
    ensures Script(resp) == NoResultsShowing
  {
  }

  /** A body without `businesses` gives the empty frame, hence "No results
      showing". */
  lemma NoBusinessesShowsNoResults(resp: Response)
    requires resp.status == Ok200 && resp.body.Some? && resp.body.value.JObj?
    requires BusinessesKey !in resp.body.value.fields
    ensures Script(resp) == NoResultsShowing
  {
  }

  /** What is shown: one row per business, in order, with that business's
      name, location and categories (NaN where it has none). */
  lemma ShownRows(resp: Response)
    requires Script(resp).Showing?
    ensures Dispatch(resp).Listed? && Dispatch(resp).businesses.JArr?
    ensures var items := Dispatch(resp).businesses.items;
      var t := Script(resp).frame;
      && |items| > 0 && t.labels == Shown && t.height == |items|
      && forall l, i | l in Shown && 0 <= i < |items| ::
           items[i].JObj? && t.columns[l][i] == DictGet(items[i].fields, l, JNull)
  {
  }

  /** The script's main block: the URL `get_yelp_results(city)` requests,
      and what the response leads to. */
  method Run(city: Bytes, resp: Response) returns (url: Bytes, d: Display)
    ensures url == SearchUrl(city, DefaultTerm)
    ensures d == Script(resp)
  {
    url := SearchUrl(city, DefaultTerm);
    var recs := GetYelpResults(resp);
    if recs.Err? {
      return url, Crashed(recs.error);
    }
    d := Show(recs.value);
  }
}
