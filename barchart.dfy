/** barchart.py: fetch up to ten businesses for Jersey City, keep name,
    rating, phone and categories, add address and city from the location,
    replace each row's category objects by their titles, and count the
    titles for a bar chart. The frame is changed in place, step by step. */
module Barchart {
  import opened Json
  import opened UrlEncode
  import opened Request
  import opened Response
  import opened Frames
  import opened Histogram

  const PhoneField: string := "phone"

  /** The columns kept from the frame of businesses. */
  const Selected: seq<string> := [NameField, LocationField, RatingField, PhoneField, CategoriesField]

  /** The columns the chart's frame ends with. */
  const ChartLabels: seq<string> := [NameField, RatingField, PhoneField, CategoriesField, AddressLabel, CityLabel]

  datatype Outcome =
    | FetchFailed(status: int)                           // the error branch
    | Crashed(error: Raised)
    | Chart(frame: Table, counts: seq<(string, nat)>)    // what is plotted

  lemma LabelFacts()
    ensures Distinct(Selected)
    ensures AddressLabel !in Selected && CityLabel !in Selected
    ensures CategoriesField != LocationField && NameField != LocationField
    ensures CategoriesField != AddressLabel && CategoriesField != CityLabel
    ensures NameField != AddressLabel && NameField != CityLabel && NameField != CategoriesField
  {
  }

  /** Removing `l` from `[a, l] + rest` when `l` occurs nowhere else. */
  lemma WithoutSecond(a: string, l: string, rest: seq<string>)
    requires a != l && l !in rest
    ensures Without([a, l] + rest, l) == [a] + rest
  {
    var ls := [a, l] + rest;
    assert ls[1..][1..] == rest;
    WithoutAbsent(rest, l);
  }

  lemma {:induction false} WithoutAbsent(ls: seq<string>, l: string)
    requires l !in ls
    ensures Without(ls, l) == ls
  {
    if ls != [] {
      WithoutAbsent(ls[1..], l);
      assert ls == [ls[0]] + ls[1..];
    }
  }

  lemma AfterDrop()
    ensures Without(Selected + [AddressLabel, CityLabel], LocationField) == ChartLabels
  {
    var rest := [RatingField, PhoneField, CategoriesField, AddressLabel, CityLabel];
    assert Selected + [AddressLabel, CityLabel] == [NameField, LocationField] + rest;
    WithoutSecond(NameField, LocationField, rest);
  }

  /** `yelp_df[[...]]` on the frame of businesses. */
  function Selection(recs: seq<map<string, Json>>): (r: Result<Table>)
    ensures r.Ok? <==> forall l | l in Selected :: HasColumn(recs, l)
    ensures r.Err? ==> r.error.KeyError? && r.error.key in Selected && !HasColumn(recs, r.error.key)
    ensures r.Ok? ==> && WellFormed(r.value) && r.value.labels == Selected && r.value.height == |recs|
                      && forall l | l in Selected :: r.value.columns[l] == Column(recs, l)
    ensures recs == [] ==> r == Err(KeyError(NameField))
  {
    LabelFacts();
    if recs == [] then
      SelectFromKeylessFails(recs, Selected);
      SelectColumns(recs, Selected)
    else SelectColumns(recs, Selected)
  }

  /** Lines 46 and 49: `location` is dropped in place, then `categories` is
      overwritten with the title lists. */
  function Titled(t: Table): (r: Result<Table>)
    requires WellFormed(t) && LocationField in t.columns && CategoriesField in t.columns
    ensures r.Ok? <==> ApplyTitles(t.columns[CategoriesField]).Ok?
    ensures r.Err? ==> r == Err(ApplyTitles(t.columns[CategoriesField]).error)
    ensures r.Ok? ==>
      && WellFormed(r.value) && r.value.height == t.height
      && r.value.labels == Without(t.labels, LocationField)
      && r.value.columns[CategoriesField] == ApplyTitles(t.columns[CategoriesField]).value
      && forall k | k in t.columns && k != LocationField && k != CategoriesField ::
           k in r.value.columns && r.value.columns[k] == t.columns[k]
  {
    LabelFacts();
    var t1 := TableDrop(t, LocationField);
    var titles :- ApplyTitles(t1.columns[CategoriesField]);
    Ok(TableSet(t1, CategoriesField, titles))
  }

  /** The frame after the title extraction and the values the chart counts,
      from the `businesses` value. */
  function Build(bs: Json): Result<(Table, seq<string>)>
  {
    var recs :- Records(bs);
    var t0 :- Selection(recs);
    Extracted(t0)
  }

  /** Lines 44 to 49 on the selected frame: address and city added, then
      location dropped and categories replaced by their titles. */
  function Framed(t0: Table): Result<Table>
    requires WellFormed(t0) && t0.labels == Selected
  {
    LabelFacts();
    WithAddressCityMeaning(t0);
    var t1 :- WithAddressCity(t0);
    Titled(t1)
  }

  /** Lines 44 to 52 on the selected frame. */
  function Extracted(t0: Table): Result<(Table, seq<string>)>
    requires WellFormed(t0) && t0.labels == Selected
  {
    var t2 :- Framed(t0);
    var tokens :- Explode(t2.columns[CategoriesField]);
    Ok((t2, tokens))
  }

  /** The script from the response on. */
  function ChartOf(resp: Response): (o: Outcome)
  {
    match Dispatch(resp)
    case HttpError(s) => FetchFailed(s)
    case Failed(e) => Crashed(e)
    case Listed(bs) =>
      match Build(bs)
      case Err(e) => Crashed(e)
      case Ok(built) => Chart(built.0, ValueCounts(built.1))
  }

  /** Only a status other than 200 takes the error branch, and then nothing
      is built. */
  lemma ChartOnlyOn200(resp: Response)
    ensures ChartOf(resp).FetchFailed? <==> resp.status != Ok200
    ensures ChartOf(resp).FetchFailed? ==> ChartOf(resp).status == resp.status
  {
  }

  /** A body without `businesses` means an empty list; the empty frame has
      none of the selected columns, so the selection raises KeyError. */
  lemma NoBusinessesRaises(resp: Response)
    requires resp.status == Ok200 && resp.body.Some? && resp.body.value.JObj?
    requires BusinessesKey !in resp.body.value.fields
    ensures ChartOf(resp) == Crashed(KeyError(NameField))
  {
  }

  /** The frame has the six chart columns and the selected frame's rows. */
  lemma FramedShape(t0: Table)
    requires WellFormed(t0) && t0.labels == Selected && Framed(t0).Ok?
    ensures var t := Framed(t0).value;
      && WellFormed(t) && t.labels == ChartLabels && t.height == t0.height
  {
    LabelFacts();
    WithAddressCityMeaning(t0);
    AfterDrop();
  }

  /** Every location is a dictionary, and the address and city of each row
      are its `address1` and `city`, "" when absent. */
  lemma FramedAddress(t0: Table)
    requires WellFormed(t0) && t0.labels == Selected && Framed(t0).Ok?
    ensures var t := Framed(t0).value;
      var loc := t0.columns[LocationField];
      && (forall i | 0 <= i < t0.height :: loc[i].JObj?)
      && (forall i | 0 <= i < t0.height ::
            && t.columns[AddressLabel][i] == DictGet(loc[i].fields, Address1Field, Blank)
            && t.columns[CityLabel][i] == DictGet(loc[i].fields, CityField, Blank))
  {
    LabelFacts();
    WithAddressCityMeaning(t0);
  }

  /** The name column is kept and the categories are the title lists. */
  lemma FramedKept(t0: Table)
    requires WellFormed(t0) && t0.labels == Selected && Framed(t0).Ok?
    ensures var t := Framed(t0).value;
      && t.columns[NameField] == t0.columns[NameField]
      && ApplyTitles(t0.columns[CategoriesField]).Ok?
      && t.columns[CategoriesField] == ApplyTitles(t0.columns[CategoriesField]).value
  {
    LabelFacts();
    WithAddressCityMeaning(t0);
    var t1 := WithAddressCity(t0).value;
    assert t1.columns[CategoriesField] == t0.columns[CategoriesField];
    assert t1.columns[NameField] == t0.columns[NameField];
  }

  /** Build's frame is Framed on the selection of the records. */
  lemma BuildFrame(bs: Json)
    requires Build(bs).Ok?
    ensures Records(bs).Ok? && Selection(Records(bs).value).Ok?
    ensures var t0 := Selection(Records(bs).value).value;
      Framed(t0).Ok? && Build(bs).value.0 == Framed(t0).value
  {
  }

  /** The chart's frame has the six columns and one row per business. */
  lemma ChartShape(bs: Json)
    requires Build(bs).Ok?
    ensures bs.JArr?
    ensures var t := Build(bs).value.0;
      WellFormed(t) && t.labels == ChartLabels && t.height == |bs.items|
  {
    BuildFrame(bs);
    FramedShape(Selection(Records(bs).value).value);
  }

  /** Row facts stated on the location column carry over to the records
      the column was built from. */
  lemma RowsOfLocations(recs: seq<map<string, Json>>, loc: seq<Json>, t: Table)
    requires loc == Column(recs, LocationField)
    requires AddressLabel in t.columns && CityLabel in t.columns
    requires |t.columns[AddressLabel]| == |recs| && |t.columns[CityLabel]| == |recs|
    requires forall i | 0 <= i < |recs| :: loc[i].JObj?
    requires forall i | 0 <= i < |recs| ::
      && t.columns[AddressLabel][i] == DictGet(loc[i].fields, Address1Field, Blank)
      && t.columns[CityLabel][i] == DictGet(loc[i].fields, CityField, Blank)
    ensures forall i | 0 <= i < |recs| ::
      && LocationField in recs[i] && recs[i][LocationField].JObj?
      && t.columns[AddressLabel][i] == DictGet(recs[i][LocationField].fields, Address1Field, Blank)
      && t.columns[CityLabel][i] == DictGet(recs[i][LocationField].fields, CityField, Blank)
  {
    forall i | 0 <= i < |recs|
      ensures LocationField in recs[i] && recs[i][LocationField] == loc[i]
    {
      assert loc[i] == DictGet(recs[i], LocationField, JNull);
    }
  }

  /** Every business has a dictionary `location`, and row `i`'s address
      and city are that location's `address1` and `city` (null passing
      through, "" when the key is absent). */
  lemma ChartAddresses(bs: Json)
    requires Build(bs).Ok?
    ensures bs.JArr?
    ensures var t := Build(bs).value.0;
      forall i | 0 <= i < |bs.items| ::
        var biz := bs.items[i].fields;
        && LocationField in biz && biz[LocationField].JObj?
        && t.columns[AddressLabel][i] == DictGet(biz[LocationField].fields, Address1Field, Blank)
        && t.columns[CityLabel][i] == DictGet(biz[LocationField].fields, CityField, Blank)
  {
    BuildFrame(bs);
    var recs := Records(bs).value;
    var t0 := Selection(recs).value;
    FramedShape(t0);
    FramedAddress(t0);
    RowsOfLocations(recs, t0.columns[LocationField], Framed(t0).value);
  }

  /** Row `i`'s name is business `i`'s name (NaN when it has none). */
  lemma ChartNames(bs: Json)
    requires Build(bs).Ok?
    ensures bs.JArr?
    ensures var t := Build(bs).value.0;
      forall i | 0 <= i < |bs.items| :: t.columns[NameField][i] == DictGet(bs.items[i].fields, NameField, JNull)
  {
    BuildFrame(bs);
    FramedKept(Selection(Records(bs).value).value);
  }

  /** Row `i`'s categories are the titles of business `i`'s categories, in
      order. */
  lemma ChartTitles(bs: Json)
    requires Build(bs).Ok?
    ensures bs.JArr?
    ensures var t := Build(bs).value.0;
      forall i | 0 <= i < |bs.items| ::
        t.columns[CategoriesField][i] == JArr(CategoryTitles(DictGet(bs.items[i].fields, CategoriesField, JNull)).value)
  {
    BuildFrame(bs);
    var recs := Records(bs).value;
    var t0 := Selection(recs).value;
    FramedKept(t0);
    var cats := t0.columns[CategoriesField];
    var titles := ApplyTitles(cats);
    assert titles.Ok? && Framed(t0).value.columns[CategoriesField] == titles.value;
    forall i | 0 <= i < |bs.items|
      ensures titles.value[i] == JArr(CategoryTitles(DictGet(bs.items[i].fields, CategoriesField, JNull)).value)
    {
      assert cats[i] == DictGet(recs[i], CategoriesField, JNull);
    }
  }

  /** What is plotted: every category once, with its number of businesses,
      largest first; with string titles the counts add up to the number of
      (business, category) pairs, a business without categories adding
      nothing. */
  lemma ChartCounts(resp: Response)
    requires ChartOf(resp).Chart?
    ensures var built := Build(Dispatch(resp).businesses).value;
      var o := ChartOf(resp);
      && IsValueCounts(built.1, o.counts)
      && Sum(o.counts) == |built.1|
      && (TitleLists(o.frame.columns[CategoriesField]) ==>
            Sum(o.counts) == PairCount(o.frame.columns[CategoriesField]))
  {
    var built := Build(Dispatch(resp).businesses).value;
    assert ChartOf(resp).counts == ValueCounts(built.1);
    SumOfCounts(built.1, ChartOf(resp).counts);
    if TitleLists(built.0.columns[CategoriesField]) {
      ExplodeCountsPairs(built.0.columns[CategoriesField]);
    }
  }

  /** The script, with the frame updated in place as barchart.py does;
      `url` is the request it sends. */
  method Run(resp: Response) returns (url: Bytes, out: Outcome)
    ensures url == ParamsUrl(BarchartParams())
    ensures out == ChartOf(resp)
  {
    url := ParamsUrl(BarchartParams());
    var d := Dispatch(resp);
    if d.HttpError? {
      return url, FetchFailed(d.status);
    }
    if d.Failed? {
      return url, Crashed(d.error);
    }
    var recs := Records(d.businesses);
    if recs.Err? {
      return url, Crashed(recs.error);
    }
    var selected := Selection(recs.value);
    if selected.Err? {
      return url, Crashed(selected.error);
    }
    LabelFacts();
    var df := new Frame(selected.value);
    WithAddressCityMeaning(selected.value);
    var err := df.AddAddressCity();
    if err.Some? {
      return url, Crashed(err.value);
    }
    ghost var t1 := df.Snapshot();
    df.Drop(LocationField);
    var titles := ApplyTitles(df.columns[CategoriesField]);
    if titles.Err? {
      return url, Crashed(titles.error);
    }
    df.SetColumn(CategoriesField, titles.value);
    assert df.Snapshot() == Titled(t1).value;
    var tokens := Explode(df.columns[CategoriesField]);
    if tokens.Err? {
      return url, Crashed(tokens.error);
    }
    return url, Chart(df.Snapshot(), ValueCounts(tokens.value));
  }
}
