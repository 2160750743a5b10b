/** yelp_blk_owned.py: fetch up to fifty Black-owned businesses in Jersey
    City sorted by rating, keep name, rating, display phone and location,
    and add each business's address and city, with "" for a key the
    location lacks. The frame gets its two new columns in place. */
module BlkOwned {
  import opened Json
  import opened UrlEncode
  import opened Request
  import opened Response
  import opened Frames

  const DisplayPhoneField: string := "display_phone"

  /** The columns kept from the frame of businesses. */
  const Selected: seq<string> := [NameField, RatingField, DisplayPhoneField, LocationField]

  datatype Outcome =
    | FetchFailed(status: int)       // the error branch
    | Crashed(error: Raised)
    | Printed(frame: Table)          // the frame that is printed

  lemma LabelFacts()
    ensures Distinct(Selected)
    ensures AddressLabel !in Selected && CityLabel !in Selected
  {
  }

  /** Lines 44 to 49 from the `businesses` value. */
  function Build(bs: Json): Result<Table>
  {
    var recs :- Records(bs);
    LabelFacts();
    var t0 :- SelectColumns(recs, Selected);
    WithAddressCity(t0)
  }

  function Printout(resp: Response): Outcome
  {
    match Dispatch(resp)
    case HttpError(s) => FetchFailed(s)
    case Failed(e) => Crashed(e)
    case Listed(bs) =>
      match Build(bs)
      case Err(e) => Crashed(e)
      case Ok(t) => Printed(t)
  }

  /** Only a status other than 200 takes the error branch, and then no frame
      is built. */
  lemma PrintedOnlyOn200(resp: Response)
    ensures Printout(resp).FetchFailed? <==> resp.status != Ok200
    ensures Printout(resp).FetchFailed? ==> Printout(resp).status == resp.status
  {
  }

  /** A body without `businesses` means an empty list; the frame built from
      it has no columns, so selecting `name` raises KeyError. */
  lemma NoBusinessesRaises(resp: Response)
    requires resp.status == Ok200 && resp.body.Some? && resp.body.value.JObj?
    requires BusinessesKey !in resp.body.value.fields
    ensures Printout(resp) == Crashed(KeyError(NameField))
  {
    LabelFacts();
    SelectFromKeylessFails([], Selected);
  }

  /** The selection fails exactly when one of the four columns is in no
      business, and then with a KeyError naming such a column. */
  lemma SelectionFails(bs: Json)
    requires Records(bs).Ok?
    ensures var recs := Records(bs).value;
      && (Build(bs).Err? && Build(bs).error.KeyError? <==>
            exists l | l in Selected :: !HasColumn(recs, l))
      && (Build(bs).Err? && Build(bs).error.KeyError? ==>
            Build(bs).error.key in Selected && !HasColumn(recs, Build(bs).error.key))
  {
    LabelFacts();
    var recs := Records(bs).value;
    var s := SelectColumns(recs, Selected);
    if s.Ok? {
      WithAddressCityMeaning(s.value);
    }
  }

  /** The printed frame: the four kept columns and then address and city,
      one row per business in order; every location is a dictionary, and
      row `i`'s address and city are its `address1` and `city` (null
      passing through), "" when the key is absent. */
  lemma PrintedFrame(bs: Json)
    requires Build(bs).Ok?
    ensures bs.JArr?
    ensures var t := Build(bs).value;
      && WellFormed(t) && t.labels == Selected + [AddressLabel, CityLabel]
      && t.height == |bs.items|
      && (forall l | l in Selected :: t.columns[l] == Column(Records(bs).value, l))
      && forall i | 0 <= i < |bs.items| ::
           var biz := bs.items[i].fields;
           && LocationField in biz && biz[LocationField].JObj?
           && t.columns[AddressLabel][i] == DictGet(biz[LocationField].fields, Address1Field, Blank)
           && t.columns[CityLabel][i] == DictGet(biz[LocationField].fields, CityField, Blank)
  {
    LabelFacts();
    var recs := Records(bs).value;
    var t0 := SelectColumns(recs, Selected).value;
    WithAddressCityMeaning(t0);
    var t := Build(bs).value;
    var loc := t0.columns[LocationField];
    forall i | 0 <= i < |bs.items|
      ensures LocationField in recs[i] && recs[i][LocationField] == loc[i]
    {
      assert loc[i] == DictGet(recs[i], LocationField, JNull);
    }
  }

  /** The script, with the two columns assigned in place as
      yelp_blk_owned.py does; `url` is the request it sends. */
  method Run(resp: Response) returns (url: Bytes, out: Outcome)
    ensures url == ParamsUrl(BlkOwnedParams())
    ensures out == Printout(resp)
  {
    url := ParamsUrl(BlkOwnedParams());
    var d := Dispatch(resp);
    if d.HttpError? {
      return url, FetchFailed(d.status);
    }
    if d.Failed? {
      return url, Crashed(d.error);
    }
    var recs := Records(d.businesses);
    if recs.Err? {
      return url, Crashed(recs.error);
    }
    LabelFacts();
    var selected := SelectColumns(recs.value, Selected);
    if selected.Err? {
      return url, Crashed(selected.error);
    }
    var df := new Frame(selected.value);
    var err := df.AddAddressCity();
    if err.Some? {
      return url, Crashed(err.value);
    }
    return url, Printed(df.Snapshot());
  }
}
