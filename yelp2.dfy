/** yelp2.py: search one city, flatten each business into a row with its
    coordinates, address and category titles, and put one coloured marker
    per row on a map saved under a name derived from the city. */
module Yelp2 {
  import opened Json
  import opened UrlEncode
  import opened Request
  import opened Response

  /** One flattened business, as appended to `business_data`. */
  datatype Row = Row(
    name: Json, rating: Json, latitude: Json, longitude: Json,
    address: Json, city: Json, categories: seq<Json>)


  /** The dictionary literal of the loop body, evaluated left to right:
      `coordinates` and `location` are subscripted, so a business without
      them raises KeyError; `address1` and `city` are read with `.get` and
      so are None when absent; only `categories` defaults, to `[]`. */
  function Flatten(biz: Json): (r: Result<Row>)
    ensures r.Ok? <==>
      && biz.JObj?
      && CoordinatesField in biz.fields && biz.fields[CoordinatesField].JObj?
      && LocationField in biz.fields && biz.fields[LocationField].JObj?
      && CategoryTitles(DictGet(biz.fields, CategoriesField, JArr([]))).Ok?
    ensures !biz.JObj? ==> r == Err(NotADict)
    ensures biz.JObj? && CoordinatesField !in biz.fields ==> r == Err(KeyError(CoordinatesField))
    ensures (biz.JObj? && CoordinatesField in biz.fields && biz.fields[CoordinatesField].JObj?
             && LocationField !in biz.fields) ==> r == Err(KeyError(LocationField))
    ensures r.Ok? ==>
      var m := biz.fields;
      var co := m[CoordinatesField].fields;
      var loc := m[LocationField].fields;
      && r.value.name == DictGet(m, NameField, JNull)
      && r.value.rating == DictGet(m, RatingField, JNull)
      && r.value.latitude == DictGet(co, "latitude", JNull)
      && r.value.longitude == DictGet(co, "longitude", JNull)
      && r.value.address == DictGet(loc, Address1Field, JNull)
      && r.value.city == DictGet(loc, CityField, JNull)
      && r.value.categories == CategoryTitles(DictGet(m, CategoriesField, JArr([]))).value
  {
    if !biz.JObj? then Err(NotADict)
    else
      var m := biz.fields;
      var coords :- Subscript(biz, CoordinatesField);
      var latitude :- Get(coords, "latitude", JNull);
      var loc :- Subscript(biz, LocationField);
      var address :- Get(loc, Address1Field, JNull);
      var titles :- CategoryTitles(DictGet(m, CategoriesField, JArr([])));
      Ok(Row(DictGet(m, NameField, JNull), DictGet(m, RatingField, JNull), latitude,
             DictGet(coords.fields, "longitude", JNull), address,
             DictGet(loc.fields, CityField, JNull), titles))
  }

  /** A row's categories are the titles of the business's category objects
      in their original order, and none when the key is absent. */
  lemma FlattenCategories(biz: Json)
    requires Flatten(biz).Ok?
    ensures CategoriesField !in biz.fields ==> Flatten(biz).value.categories == []
    ensures CategoriesField in biz.fields && biz.fields[CategoriesField].JArr? ==>
      var cats := biz.fields[CategoriesField].items;
      && |Flatten(biz).value.categories| == |cats|
      && forall i | 0 <= i < |cats| :: Flatten(biz).value.categories[i] == cats[i].fields["title"]
  {
  }

  /** The loop over all businesses: one row per business, in order; the
      first business that raises stops it. */
  function FlattenAll(bs: seq<Json>): (r: Result<seq<Row>>)
    ensures r.Ok? <==> forall i | 0 <= i < |bs| :: Flatten(bs[i]).Ok?
    ensures r.Ok? ==> |r.value| == |bs| && forall i | 0 <= i < |bs| :: r.value[i] == Flatten(bs[i]).value
    ensures r.Err? ==> exists i | 0 <= i < |bs| :: Flatten(bs[i]) == Err(r.error) && forall j | 0 <= j < i :: Flatten(bs[j]).Ok?
  {
    if bs == [] then Ok([])
    else
      var row :- Flatten(bs[0]);
      var rest :- FlattenAll(bs[1..]);
      Ok([row] + rest)
  }

  /** `get_yelp_results` after the request: a status other than 200 gives
      the empty frame; otherwise the body's `businesses` (or `[]`) is
      measured with `len`, then flattened. */
  function Fetch(resp: Response): (r: Result<seq<Row>>)
    ensures resp.status != Ok200 ==> r == Ok([])
    ensures resp.status == Ok200 && resp.body.None? ==> r == Err(NotJson)
    ensures (resp.status == Ok200 && resp.body.Some? && resp.body.value.JObj?
             && BusinessesKey !in resp.body.value.fields) ==> r == Ok([])
    ensures Dispatch(resp).Listed? && Dispatch(resp).businesses.JArr? ==>
              r == FlattenAll(Dispatch(resp).businesses.items)
    ensures Dispatch(resp).Listed? && Dispatch(resp).businesses.JNull? ==> r == Err(NotIterable)
    ensures Dispatch(resp).Failed? ==> r == Err(Dispatch(resp).error)
  {
    match Dispatch(resp)
    case HttpError(_) => Ok([])
    case Failed(e) => Err(e)
    case Listed(bs) =>
      var n :- Length(bs);
      var xs :- Iterate(bs);
      FlattenAll(xs)
  }

  /** `get_yelp_results(city)`: the URL it requests, and the rows it
      returns, built by appending in a loop. */
  method GetYelpResults(city: Bytes, resp: Response) returns (url: Bytes, result: Result<seq<Row>>)
    ensures url == SearchUrl(city, DefaultTerm)
    ensures result == Fetch(resp)
  {
    url := SearchUrl(city, DefaultTerm);
    var d := Dispatch(resp);
    if d.HttpError? {
      return url, Ok([]);
    }
    if d.Failed? {
      return url, Err(d.error);
    }
    var n := Length(d.businesses);
    if n.Err? {
      return url, Err(n.error);
    }
    var it := Iterate(d.businesses);
    if it.Err? {
      return url, Err(it.error);
    }
    result := FlattenLoop(it.value);
  }

  /** The `for biz in businesses` loop appending to `business_data`. */
  method FlattenLoop(bs: seq<Json>) returns (result: Result<seq<Row>>)
    ensures result == FlattenAll(bs)
  {
    var data: seq<Row> := [];
    var i := 0;
    assert bs[0..] == bs;
    PrependNothing(FlattenAll(bs));
    while i < |bs|
      invariant 0 <= i <= |bs|
      invariant FlattenAll(bs) == Prepend(data, FlattenAll(bs[i..]))
    {
      FlattenAllStep(bs, i);
      var row := Flatten(bs[i]);
      if row.Err? {
        return Err(row.error);
      }
      PrependPrepend(data, row.value, FlattenAll(bs[i + 1..]));
      data := data + [row.value];
      i := i + 1;
    }
    assert bs[i..] == [];
    assert data + [] == data;
    return Ok(data);
  }

  lemma FlattenAllStep(bs: seq<Json>, i: nat)
    requires i < |bs|
    ensures FlattenAll(bs[i..]) ==
      match Flatten(bs[i])
      case Err(e) => Err(e)
      case Ok(row) => Prepend([row], FlattenAll(bs[i + 1..]))
  {
    assert bs[i..][0] == bs[i] && bs[i..][1..] == bs[i + 1..];
  }

  // ---- create_interactive_map ----

  datatype Colour = Green | Blue

  /** A marker at the row's coordinates with the chosen icon colour; the
      popup text is not modelled. */
  datatype Marker = Marker(latitude: Json, longitude: Json, colour: Colour)

  /** pandas stores a rating column holding only numbers and nulls (at
      least one number) as floats, a null becoming NaN; any other rating
      column keeps the values as they are. */
  predicate FloatRatings(rows: seq<Row>) {
    && (forall i | 0 <= i < |rows| :: rows[i].rating.JNum? || rows[i].rating.JNull?)
    && exists i | 0 <= i < |rows| :: rows[i].rating.JNum?
  }

  /** `'green' if row['rating'] >= 4 else 'blue'`. NaN compares false; None,
      strings, lists and dictionaries cannot be compared with 4; a boolean
      counts as 0 or 1. */
  function RatingColour(rating: Json, floats: bool): (r: Result<Colour>)
    ensures r.Ok? <==> rating.JNum? || rating.JBool? || (rating.JNull? && floats)
    ensures r == Ok(Green) <==> rating.JNum? && rating.n >= 4.0
    ensures rating.JNum? && rating.n < 4.0 ==> r == Ok(Blue)
    ensures r.Err? ==> r.error == TypeError
  {
    match rating
    case JNum(n) => Ok(if n >= 4.0 then Green else Blue)
    case JBool(_) => Ok(Blue)
    case JNull => if floats then Ok(Blue) else Err(TypeError)
    case _ => Err(TypeError)
  }

  predicate AllStrings(xs: seq<Json>) {
    forall i | 0 <= i < |xs| :: xs[i].JStr?
  }

  /** One loop iteration: the colour, then the popup text, whose
      `', '.join(row['categories'])` needs every title to be a string. */
  function MarkerFor(row: Row, floats: bool): (r: Result<Marker>)
    ensures r.Ok? <==> RatingColour(row.rating, floats).Ok? && AllStrings(row.categories)
    ensures r.Ok? ==> r.value == Marker(row.latitude, row.longitude, RatingColour(row.rating, floats).value)
  {
    var colour :- RatingColour(row.rating, floats);
    if AllStrings(row.categories) then Ok(Marker(row.latitude, row.longitude, colour))
    else Err(TypeError)
  }

  /** The markers of all rows: exactly one per row, in row order, at the
      row's coordinates, green exactly when the rating is at least 4. */
  function Markers(rows: seq<Row>, floats: bool): (r: Result<seq<Marker>>)
    ensures r.Ok? <==> forall i | 0 <= i < |rows| :: MarkerFor(rows[i], floats).Ok?
    ensures r.Ok? ==> |r.value| == |rows|
    ensures r.Ok? ==> forall i | 0 <= i < |rows| ::
      && r.value[i].latitude == rows[i].latitude && r.value[i].longitude == rows[i].longitude
      && (r.value[i].colour == Green <==> rows[i].rating.JNum? && rows[i].rating.n >= 4.0)
    ensures r.Err? ==> exists i | 0 <= i < |rows| ::
      MarkerFor(rows[i], floats) == Err(r.error) && forall j | 0 <= j < i :: MarkerFor(rows[j], floats).Ok?
  {
    if rows == [] then Ok([])
    else
      var m :- MarkerFor(rows[0], floats);
      var rest :- Markers(rows[1..], floats);
      Ok([m] + rest)
  }

  /** The folium map: its settings and the markers added so far. */
  class FoliumMap {
    const zoomStart: nat
    const tiles: string
    var markers: seq<Marker>

    constructor ()
      ensures zoomStart == 13 && tiles == "CartoDB Positron" && markers == []
    {
      zoomStart := 13;
      tiles := "CartoDB Positron";
      markers := [];
    }

    /** `folium.Marker(...).add_to(m)`. */
    method AddMarker(mk: Marker)
      modifies this
      ensures markers == old(markers) + [mk]
    {
      markers := markers + [mk];
    }
  }

  const Comma: Byte := 44
  const Underscore: Byte := 95

  /** `s.replace(', ', '_')`: every non-overlapping `, ` from the left
      becomes `_`. On UTF-8 bytes this is the same replacement, since the
      bytes of `, ` never occur inside a multi-byte character. */
  function ReplaceCommaSpace(s: Bytes): Bytes {
    if |s| >= 2 && s[0] == Comma && s[1] == Space then [Underscore] + ReplaceCommaSpace(s[2..])
    else if s == [] then []
    else [s[0]] + ReplaceCommaSpace(s[1..])
  }

  const MapSuffix: Bytes := Ascii("_black_owned_businesses_map2.html")

  /** The file the map is saved to. */
  function MapFileName(city: Bytes): Bytes {
    ReplaceCommaSpace(city) + MapSuffix
  }

  predicate HasCommaSpace(s: Bytes) {
    exists i | 0 <= i < |s| - 1 :: s[i] == Comma && s[i + 1] == Space
  }

  lemma FirstReplaced(s: Bytes)
    requires s != []
    ensures ReplaceCommaSpace(s) != []
    ensures ReplaceCommaSpace(s)[0] == if |s| >= 2 && s[0] == Comma && s[1] == Space then Underscore else s[0]
  {
  }

  /** No `, ` is left after the replacement. */
  lemma {:induction false} ReplaceLeavesNoCommaSpace(s: Bytes)
    ensures !HasCommaSpace(ReplaceCommaSpace(s))
  {
    if s != [] {
      var r := ReplaceCommaSpace(s);
      if |s| >= 2 && s[0] == Comma && s[1] == Space {
        var rest := ReplaceCommaSpace(s[2..]);
        ReplaceLeavesNoCommaSpace(s[2..]);
        assert r == [Underscore] + rest;
        forall i | 0 <= i < |r| - 1
          ensures !(r[i] == Comma && r[i + 1] == Space)
        {
          if i > 0 {
            assert r[i] == rest[i - 1] && r[i + 1] == rest[i];
          }
        }
      } else {
        var rest := ReplaceCommaSpace(s[1..]);
        ReplaceLeavesNoCommaSpace(s[1..]);
        assert r == [s[0]] + rest;
        forall i | 0 <= i < |r| - 1
          ensures !(r[i] == Comma && r[i + 1] == Space)
        {
          if i > 0 {
            assert r[i] == rest[i - 1] && r[i + 1] == rest[i];
          } else {
            FirstReplaced(s[1..]);
          }
        }
      }
    }
  }

  /** Turns each `_` back into `, `. */
  function Restore(s: Bytes): Bytes {
    if s == [] then []
    else if s[0] == Underscore then [Comma, Space] + Restore(s[1..])
    else [s[0]] + Restore(s[1..])
  }

  /** For a city without `_` the replacement loses nothing. */
  lemma {:induction false} RestoreReplace(s: Bytes)
    requires Underscore !in s
    ensures Restore(ReplaceCommaSpace(s)) == s
  {
    if s != [] {
      if |s| >= 2 && s[0] == Comma && s[1] == Space {
        RestoreReplace(s[2..]);
        assert ([Underscore] + ReplaceCommaSpace(s[2..]))[1..] == ReplaceCommaSpace(s[2..]);
        assert s == [Comma, Space] + s[2..];
      } else {
        RestoreReplace(s[1..]);
        assert ([s[0]] + ReplaceCommaSpace(s[1..]))[1..] == ReplaceCommaSpace(s[1..]);
        assert s == [s[0]] + s[1..];
      }
    }
  }

  /** Cities without `_` get different map files. */
  lemma MapFileNameInjective(c1: Bytes, c2: Bytes)
    requires Underscore !in c1 && Underscore !in c2
    requires MapFileName(c1) == MapFileName(c2)
    ensures c1 == c2
  {
    var r1, r2 := ReplaceCommaSpace(c1), ReplaceCommaSpace(c2);
    assert |r1| == |r2|;
    assert r1 == MapFileName(c1)[..|r1|];
    assert r2 == MapFileName(c2)[..|r2|];
    RestoreReplace(c1);
    RestoreReplace(c2);
  }

  /** `create_interactive_map(df, city)`: a map with one marker per row,
      then the file name it is saved under. */
  method CreateInteractiveMap(rows: seq<Row>, city: Bytes) returns (m: FoliumMap, saved: Result<Bytes>)
    ensures fresh(m) && m.zoomStart == 13 && m.tiles == "CartoDB Positron"
    ensures saved.Ok? <==> Markers(rows, FloatRatings(rows)).Ok?
    ensures saved.Ok? ==> saved.value == MapFileName(city) && m.markers == Markers(rows, FloatRatings(rows)).value
    ensures saved.Err? ==> Markers(rows, FloatRatings(rows)) == Err(saved.error)
  {
    m := new FoliumMap();
    var floats := FloatRatings(rows);
    var i := 0;
    assert rows[0..] == rows;
    PrependNothing(Markers(rows, floats));
    while i < |rows|
      invariant 0 <= i <= |rows|
      invariant Markers(rows, floats) == Prepend(m.markers, Markers(rows[i..], floats))
    {
      MarkersStep(rows, i, floats);
      var mk := MarkerFor(rows[i], floats);
      if mk.Err? {
        return m, Err(mk.error);
      }
      PrependPrepend(m.markers, mk.value, Markers(rows[i + 1..], floats));
      m.AddMarker(mk.value);
      i := i + 1;
    }
    assert rows[i..] == [];
    assert m.markers + [] == m.markers;
    return m, Ok(MapFileName(city));
  }

  lemma MarkersStep(rows: seq<Row>, i: nat, floats: bool)
    requires i < |rows|
    ensures Markers(rows[i..], floats) ==
      match MarkerFor(rows[i], floats)
      case Err(e) => Err(e)
      case Ok(mk) => Prepend([mk], Markers(rows[i + 1..], floats))
  {
    assert rows[i..][0] == rows[i] && rows[i..][1..] == rows[i + 1..];
  }

  // ---- the script ----

  datatype Outcome =
    | NoResults                                   // "No results found"
    | Crashed(error: Raised)
    | MapSaved(file: Bytes, markers: seq<Marker>)

  /** What running the script for `city` leads to. */
  function Script(city: Bytes, resp: Response): (o: Outcome)
    ensures resp.status != Ok200 ==> o == NoResults
    ensures Fetch(resp) == Ok([]) ==> o == NoResults
    ensures Fetch(resp).Err? ==> o == Crashed(Fetch(resp).error)
    ensures Fetch(resp).Ok? && Fetch(resp).value != []
            && Markers(Fetch(resp).value, FloatRatings(Fetch(resp).value)).Err? ==>
      o == Crashed(Markers(Fetch(resp).value, FloatRatings(Fetch(resp).value)).error)
    ensures o.MapSaved? <==>
      && Fetch(resp).Ok? && Fetch(resp).value != []
      && Markers(Fetch(resp).value, FloatRatings(Fetch(resp).value)).Ok?
    ensures o.MapSaved? ==>
      && o.markers == Markers(Fetch(resp).value, FloatRatings(Fetch(resp).value)).value
      && |o.markers| == |Fetch(resp).value|
      && o.file == MapFileName(city)
  {
    match Fetch(resp)
    case Err(e) => Crashed(e)
    case Ok(rows) =>
      if rows == [] then NoResults
      else
        match Markers(rows, FloatRatings(rows))
        case Err(e) => Crashed(e)
        case Ok(ms) => MapSaved(MapFileName(city), ms)
  }

  /** The script's main block. */
  method Run(city: Bytes, resp: Response) returns (url: Bytes, out: Outcome)
    ensures url == SearchUrl(city, DefaultTerm)
    ensures out == Script(city, resp)
  {
    var result;
    url, result := GetYelpResults(city, resp);
    if result.Err? {
      return url, Crashed(result.error);
    }
    if result.value == [] {
      return url, NoResults;
    }
    var m, saved := CreateInteractiveMap(result.value, city);
    if saved.Err? {
      return url, Crashed(saved.error);
    }
    return url, MapSaved(saved.value, m.markers);
  }
}
