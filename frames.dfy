/** The part of pandas the scripts lean on: a DataFrame built from a list of
    dictionaries, selecting a list of columns, adding or overwriting one
    column, dropping one, and mapping a function over a column. A frame is a
    list of column labels, a map from each label to its cells, and a row
    count; a cell a record does not have is NaN, written JNull. */
module Frames {
  import opened Json

  datatype Table = Table(labels: seq<string>, columns: map<string, seq<Json>>, height: nat)

  predicate Distinct(ls: seq<string>) {
    forall i, j | 0 <= i < j < |ls| :: ls[i] != ls[j]
  }

  /** Labels are distinct, name exactly the columns, and every column has
      one cell per row. */
  predicate WellFormed(t: Table) {
    && Distinct(t.labels)
    && (forall l | l in t.columns :: l in t.labels)
    && (forall l | l in t.labels :: l in t.columns)
    && (forall l | l in t.columns :: |t.columns[l]| == t.height)
  }

  /** `df.empty`: no rows or no columns. */
  predicate Empty(t: Table) {
    t.height == 0 || t.labels == []
  }

  // ---- building and selecting ----

  /** Some record has the key, so `pd.DataFrame(recs)` has that column. */
  predicate HasColumn(recs: seq<map<string, Json>>, l: string) {
    exists i | 0 <= i < |recs| :: l in recs[i]
  }

  /** The column `l` of `pd.DataFrame(recs)`: each record's value, NaN
      where a record lacks the key. */
  function Column(recs: seq<map<string, Json>>, l: string): (c: seq<Json>)
    ensures |c| == |recs|
    ensures forall i | 0 <= i < |recs| :: c[i] == DictGet(recs[i], l, JNull)
  {
    seq(|recs|, i requires 0 <= i < |recs| => DictGet(recs[i], l, JNull))
  }

  /** The first wanted label that no record has. */
  function FirstMissing(recs: seq<map<string, Json>>, wanted: seq<string>): (r: Option<string>)
    ensures r.None? <==> forall l | l in wanted :: HasColumn(recs, l)
    ensures r.Some? ==> r.value in wanted && !HasColumn(recs, r.value)
  {
    if wanted == [] then None
    else if !HasColumn(recs, wanted[0]) then Some(wanted[0])
    else FirstMissing(recs, wanted[1..])
  }

  /** `pd.DataFrame(recs)[wanted]`: raises KeyError unless every wanted label
      is a column; otherwise the wanted columns in the wanted order, one row
      per record. */
  function SelectColumns(recs: seq<map<string, Json>>, wanted: seq<string>): (r: Result<Table>)
    requires Distinct(wanted)
    ensures r.Ok? <==> forall l | l in wanted :: HasColumn(recs, l)
    ensures r.Err? ==> r.error.KeyError? && r.error.key in wanted && !HasColumn(recs, r.error.key)
    ensures r.Ok? ==> && WellFormed(r.value) && r.value.labels == wanted && r.value.height == |recs|
                      && forall l | l in wanted :: r.value.columns[l] == Column(recs, l)
  {
    match FirstMissing(recs, wanted)
    case Some(l) => Err(KeyError(l))
    case None => Ok(Table(wanted, map l | l in wanted :: Column(recs, l), |recs|))
  }

  /** A frame built from records with no keys, or from none, is empty. */
  lemma SelectFromKeylessFails(recs: seq<map<string, Json>>, wanted: seq<string>)
    requires Distinct(wanted) && wanted != []
    requires forall i | 0 <= i < |recs| :: recs[i] == map[]
    ensures SelectColumns(recs, wanted) == Err(KeyError(wanted[0]))
  {
    assert !HasColumn(recs, wanted[0]);
  }

  // ---- changing columns ----

  /** `df[l] = v`: a new label goes last, an existing one keeps its place
      and gets the new cells. */
  function TableSet(t: Table, l: string, v: seq<Json>): (r: Table)
    requires WellFormed(t) && |v| == t.height
    ensures WellFormed(r) && r.height == t.height
    ensures l in r.columns && r.columns[l] == v
    ensures forall k | k in t.columns && k != l :: k in r.columns && r.columns[k] == t.columns[k]
    ensures r.labels == if l in t.columns then t.labels else t.labels + [l]
  {
    Table(if l in t.columns then t.labels else t.labels + [l], t.columns[l := v], t.height)
  }

  /** The labels without `l`. */
  function Without(ls: seq<string>, l: string): (r: seq<string>)
    ensures forall k | k in r :: k in ls && k != l
    ensures forall k | k in ls && k != l :: k in r
    ensures Distinct(ls) ==> Distinct(r)
  {
    if ls == [] then []
    else
      DistinctTail(ls);
      if ls[0] == l then Without(ls[1..], l) else [ls[0]] + Without(ls[1..], l)
  }

  lemma DistinctTail(ls: seq<string>)
    requires ls != []
    ensures Distinct(ls) ==> Distinct(ls[1..]) && ls[0] !in ls[1..]
  {
    if Distinct(ls) {
      forall j | 0 <= j < |ls| - 1
        ensures ls[1..][j] != ls[0]
      {
        assert ls[1..][j] == ls[j + 1];
      }
    }
  }

  /** `df.drop(columns=[l])`. */
  function TableDrop(t: Table, l: string): (r: Table)
    requires WellFormed(t) && l in t.columns
    ensures WellFormed(r) && r.height == t.height
    ensures l !in r.columns
    ensures forall k | k in t.columns && k != l :: k in r.columns && r.columns[k] == t.columns[k]
    ensures r.labels == Without(t.labels, l)
  {
    Table(Without(t.labels, l), map k | k in t.columns && k != l :: t.columns[k], t.height)
  }

  // ---- per-cell functions ----

  /** `col.apply(lambda x: x.get(key, default))`: every cell must be a
      dictionary (NaN has no `.get`); a present key gives its value, null
      included, and only an absent key gives the default. */
  function ApplyGet(col: seq<Json>, key: string, default: Json): (r: Result<seq<Json>>)
    ensures r.Ok? <==> forall i | 0 <= i < |col| :: col[i].JObj?
    ensures r.Err? ==> r.error == NotADict
    ensures r.Ok? ==> |r.value| == |col|
    ensures r.Ok? ==> forall i | 0 <= i < |col| :: r.value[i] == DictGet(col[i].fields, key, default)
  {
    if col == [] then Ok([])
    else
      var x :- Get(col[0], key, default);
      var rest :- ApplyGet(col[1..], key, default);
      Ok([x] + rest)
  }

  /** `col.apply(lambda x: [cat["title"] for cat in x])`, cell by cell;
      the first cell that raises stops it. */
  function ApplyTitles(col: seq<Json>): (r: Result<seq<Json>>)
    ensures r.Ok? <==> forall i | 0 <= i < |col| :: CategoryTitles(col[i]).Ok?
    ensures r.Ok? ==> |r.value| == |col|
    ensures r.Ok? ==> forall i | 0 <= i < |col| :: r.value[i] == JArr(CategoryTitles(col[i]).value)
    ensures r.Err? ==> exists i | 0 <= i < |col| ::
      CategoryTitles(col[i]) == Err(r.error) && forall j | 0 <= j < i :: CategoryTitles(col[j]).Ok?
  {
    if col == [] then Ok([])
    else
      var ts :- CategoryTitles(col[0]);
      var rest :- ApplyTitles(col[1..]);
      Ok([JArr(ts)] + rest)
  }

  const AddressLabel: string := "address"
  const CityLabel: string := "city"
  /** The default for a key a location lacks. */
  const Blank: Json := JStr("")

  /** `df["address"] = df["location"].apply(lambda x: x.get("address1", ""))`
      followed by the same for `city`, as barchart.py and yelp_blk_owned.py
      both do. */
  function WithAddressCity(t: Table): (r: Result<Table>)
    requires WellFormed(t) && LocationField in t.columns
  {
    var address :- ApplyGet(t.columns[LocationField], Address1Field, Blank);
    var t1 := TableSet(t, AddressLabel, address);
    var city :- ApplyGet(t1.columns[LocationField], CityField, Blank);
    Ok(TableSet(t1, CityLabel, city))
  }

  /** What WithAddressCity gives: the two columns are added last, row count
      and all other columns unchanged, each row's address and city are the
      location's `address1` and `city` (null passes through), or "" when
      the key is absent; it fails exactly when some location is not a
      dictionary. */
  lemma WithAddressCityMeaning(t: Table)
    requires WellFormed(t) && LocationField in t.columns
    requires AddressLabel !in t.columns && CityLabel !in t.columns
    ensures var r := WithAddressCity(t);
      var loc := t.columns[LocationField];
      && (r.Ok? <==> forall i | 0 <= i < t.height :: loc[i].JObj?)
      && (r.Err? ==> r.error == NotADict)
      && (r.Ok? ==>
            && WellFormed(r.value) && r.value.height == t.height
            && r.value.labels == t.labels + [AddressLabel, CityLabel]
            && (forall k | k in t.columns :: r.value.columns[k] == t.columns[k])
            && forall i | 0 <= i < t.height ::
                 && r.value.columns[AddressLabel][i] == DictGet(loc[i].fields, Address1Field, Blank)
                 && r.value.columns[CityLabel][i] == DictGet(loc[i].fields, CityField, Blank))
  {
    var loc := t.columns[LocationField];
    var a := ApplyGet(loc, Address1Field, Blank);
    if a.Ok? {
      var t1 := TableSet(t, AddressLabel, a.value);
      assert t1.columns[LocationField] == loc;
      assert t1.labels + [CityLabel] == t.labels + [AddressLabel, CityLabel];
    }
  }

  /** A frame whose fields the scripts update in place: `df[l] = v` and
      `df.drop(columns=[l], inplace=True)`. Its state is a Table. */
  class Frame {
    var labels: seq<string>
    var columns: map<string, seq<Json>>
    var height: nat

    function Snapshot(): Table
      reads this
    {
      Table(labels, columns, height)
    }

    predicate Valid()
      reads this
    {
      WellFormed(Snapshot())
    }

    constructor (t: Table)
      requires WellFormed(t)
      ensures Valid() && Snapshot() == t
    {
      labels := t.labels;
      columns := t.columns;
      height := t.height;
    }

    /** `df[l] = v`. */
    method SetColumn(l: string, v: seq<Json>)
      requires Valid() && |v| == height
      modifies this
      ensures Valid() && Snapshot() == TableSet(old(Snapshot()), l, v)
    {
      if l !in columns {
        labels := labels + [l];
      }
      columns := columns[l := v];
    }

    /** `df.drop(columns=[l], inplace=True)`. */
    method Drop(l: string)
      requires Valid() && l in columns
      modifies this
      ensures Valid() && Snapshot() == TableDrop(old(Snapshot()), l)
    {
      labels := Without(labels, l);
      columns := map k | k in columns && k != l :: columns[k];
    }

    /** The address and city assignments in place. Both read the same
        location column, so only the first can raise; it raises before any
        column is stored, and then the frame is left as it was. */
    method AddAddressCity() returns (err: Option<Raised>)
      requires Valid() && LocationField in columns
      modifies this
      ensures Valid()
      ensures err.None? <==> WithAddressCity(old(Snapshot())).Ok?
      ensures err.None? ==> Snapshot() == WithAddressCity(old(Snapshot())).value
      ensures err.Some? ==> WithAddressCity(old(Snapshot())) == Err(err.value)
      ensures err.Some? ==> Snapshot() == old(Snapshot())
    {
      var address := ApplyGet(columns[LocationField], Address1Field, Blank);
      if address.Err? {
        return Some(address.error);
      }
      SetColumn(AddressLabel, address.value);
      var city := ApplyGet(columns[LocationField], CityField, Blank);
      SetColumn(CityLabel, city.value);
      return None;
    }
  }
}
