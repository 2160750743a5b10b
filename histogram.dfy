/** The category histogram of barchart.py: `explode()` turns a column of
    title lists into one entry per title (an empty list becomes NaN), and
    `value_counts()` counts each distinct non-NaN value, most frequent
    first. The order among equal counts is not specified by pandas, so the
    result is characterised by IsValueCounts; ValueCounts is one result
    that satisfies it. */
module Histogram {
  import opened Json
  import opened Frames

  // ---- explode ----

  /** The titles of one list that value_counts will see: NaN (null) entries
      are dropped, strings are kept in order. */
  function Strings(xs: seq<Json>): (r: Result<seq<string>>)
    ensures r.Ok? <==> forall i | 0 <= i < |xs| :: xs[i].JStr? || xs[i].JNull?
    ensures r.Err? ==> r.error == Unsupported
    ensures r.Ok? && (forall i | 0 <= i < |xs| :: xs[i].JStr?) ==>
              |r.value| == |xs| && forall i | 0 <= i < |xs| :: r.value[i] == xs[i].s
  {
    if xs == [] then Ok([])
    else
      var rest :- Strings(xs[1..]);
      match xs[0]
      case JStr(s) => Ok([s] + rest)
      case JNull => Ok(rest)
      case _ => Err(Unsupported)
  }

  /** The tokens of two pieces of a list are the two pieces' tokens, one
      after the other; the first error, if any, is the first piece's. */
  lemma {:induction false} StringsAppend(a: seq<Json>, b: seq<Json>)
    ensures Strings(a + b) ==
      match Strings(a)
      case Err(e) => Err(e)
      case Ok(x) => (match Strings(b) case Err(e) => Err(e) case Ok(y) => Ok(x + y))
  {
    if a == [] {
      assert a + b == b;
      if Strings(b).Ok? {
        assert [] + Strings(b).value == Strings(b).value;
      }
    } else {
      assert (a + b)[0] == a[0];
      assert (a + b)[1..] == a[1..] + b;
      StringsAppend(a[1..], b);
      if Strings(a).Ok? && Strings(b).Ok? && a[0].JStr? {
        var x := Strings(a[1..]).value;
        var y := Strings(b).value;
        assert [a[0].s] + (x + y) == ([a[0].s] + x) + y;
      }
    }
  }

  /** A NaN title is dropped wherever it stands. */
  lemma StringsDropsNull(a: seq<Json>, b: seq<Json>)
    ensures Strings(a + [JNull] + b) == Strings(a + b)
  {
    StringsAppend(a, [JNull] + b);
    StringsAppend(a, b);
    assert a + [JNull] + b == a + ([JNull] + b);
    assert ([JNull] + b)[1..] == b;
  }

  /** A string title is kept, in its place among the others. */
  lemma StringsKeepsString(a: seq<Json>, t: string, b: seq<Json>)
    requires Strings(a).Ok? && Strings(b).Ok?
    ensures Strings(a + [JStr(t)] + b) == Ok(Strings(a).value + [t] + Strings(b).value)
  {
    var x := Strings(a).value;
    var y := Strings(b).value;
    var c := [JStr(t)] + b;
    assert c[0] == JStr(t) && c[1..] == b;
    assert Strings(c) == Ok([t] + y);
    StringsAppend(a, c);
    assert a + [JStr(t)] + b == a + c;
    assert x + ([t] + y) == x + [t] + y;
  }

  /** The non-NaN values one cell contributes after `explode()`. */
  function CellTokens(cell: Json): (r: Result<seq<string>>)
    ensures cell == JArr([]) ==> r == Ok([])
    ensures cell.JNull? ==> r == Ok([])
    ensures cell.JArr? ==> r == Strings(cell.items)
  {
    match cell
    case JArr(xs) => Strings(xs)
    case JStr(s) => Ok([s])
    case JNull => Ok([])
    case _ => Err(Unsupported)
  }

  /** `col.explode()` with the NaN entries removed, in row order. */
  function Explode(col: seq<Json>): Result<seq<string>>
  {
    if col == [] then Ok([])
    else
      var head :- CellTokens(col[0]);
      var rest :- Explode(col[1..]);
      Ok(head + rest)
  }

  /** Exploding two stacked columns gives the two explosions one after the
      other; the first error, if any, is the first column's. */
  lemma {:induction false} ExplodeAppend(a: seq<Json>, b: seq<Json>)
    ensures Explode(a + b) ==
      match Explode(a)
      case Err(e) => Err(e)
      case Ok(x) => (match Explode(b) case Err(e) => Err(e) case Ok(y) => Ok(x + y))
  {
    if a == [] {
      assert a + b == b;
      if Explode(b).Ok? {
        assert [] + Explode(b).value == Explode(b).value;
      }
    } else {
      var ab := a + b;
      assert ab[0] == a[0];
      assert ab[1..] == a[1..] + b;
      ExplodeAppend(a[1..], b);
      var h := CellTokens(a[0]);
      if h.Ok? && Explode(a[1..]).Ok? && Explode(b).Ok? {
        assert h.value + (Explode(a[1..]).value + Explode(b).value)
            == (h.value + Explode(a[1..]).value) + Explode(b).value;
      }
    }
  }

  lemma ExplodeSkipsEmpty(c: seq<Json>)
    ensures Explode([JArr([])] + c) == Explode(c)
  {
    var col := [JArr([])] + c;
    assert col[0] == JArr([]);
    assert col[1..] == c;
    if Explode(c).Ok? {
      assert [] + Explode(c).value == Explode(c).value;
    }
  }

  /** A business with no categories contributes nothing: removing its row
      leaves the exploded values as they were. */
  lemma EmptyListContributesNothing(col: seq<Json>, i: nat)
    requires i < |col| && col[i] == JArr([])
    ensures Explode(col) == Explode(col[..i] + col[i + 1..])
  {
    var p, c := col[..i], col[i + 1..];
    assert col == p + ([JArr([])] + c);
    ExplodeSkipsEmpty(c);
    ExplodeAppend(p, [JArr([])] + c);
    ExplodeAppend(p, c);
  }

  /** Every cell is a list of string titles, as the title extraction gives
      for Yelp's category objects. */
  predicate TitleLists(col: seq<Json>) {
    forall i | 0 <= i < |col| ::
      col[i].JArr? && forall j | 0 <= j < |col[i].items| :: col[i].items[j].JStr?
  }

  /** The number of (business, category) pairs. */
  function PairCount(col: seq<Json>): nat {
    if col == [] then 0
    else (if col[0].JArr? then |col[0].items| else 0) + PairCount(col[1..])
  }

  /** With string titles, exploding succeeds and yields one value per
      (business, category) pair. */
  lemma {:induction false} ExplodeCountsPairs(col: seq<Json>)
    requires TitleLists(col)
    ensures Explode(col).Ok? && |Explode(col).value| == PairCount(col)
  {
    if col != [] {
      assert TitleLists(col[1..]) by {
        forall i | 0 <= i < |col| - 1
          ensures col[1..][i].JArr? && forall j | 0 <= j < |col[1..][i].items| :: col[1..][i].items[j].JStr?
        {
          assert col[1..][i] == col[i + 1];
        }
      }
      ExplodeCountsPairs(col[1..]);
    }
  }

  // ---- value_counts ----

  /** Occurrences of `k` in `ts`. */
  function Occ(ts: seq<string>, k: string): nat {
    if ts == [] then 0 else (if ts[0] == k then 1 else 0) + Occ(ts[1..], k)
  }

  lemma {:induction false} OccPositive(ts: seq<string>, k: string)
    ensures Occ(ts, k) >= 1 <==> k in ts
  {
    if ts != [] {
      OccPositive(ts[1..], k);
    }
  }

  predicate KeysDistinct(r: seq<(string, nat)>) {
    forall i, j | 0 <= i < j < |r| :: r[i].0 != r[j].0
  }

  predicate Descending(r: seq<(string, nat)>) {
    forall i, j | 0 <= i < j < |r| :: r[i].1 >= r[j].1
  }

  /** What `value_counts()` promises about its result for the values `ts`:
      each distinct value appears exactly once, with its number of
      occurrences (at least one), every value is listed, and the counts do
      not increase. */
  predicate IsValueCounts(ts: seq<string>, r: seq<(string, nat)>) {
    && KeysDistinct(r)
    && (forall i | 0 <= i < |r| :: r[i].1 == Occ(ts, r[i].0) && r[i].1 >= 1)
    && (forall t | t in ts :: exists i | 0 <= i < |r| :: r[i].0 == t)
    && Descending(r)
  }

  /** The distinct values in first-seen order. */
  function Dedup(ts: seq<string>): (ks: seq<string>)
    ensures forall k | k in ks :: k in ts
    ensures forall k | k in ts :: k in ks
    ensures Distinct(ks)
  {
    if ts == [] then []
    else
      var ks := Dedup(ts[..|ts| - 1]);
      var last := ts[|ts| - 1];
      assert forall k | k in ts[..|ts| - 1] :: k in ts;
      assert forall k | k in ts :: k in ts[..|ts| - 1] || k == last;
      if last in ks then ks else ks + [last]
  }

  /** Each value paired with its number of occurrences. */
  function Tally(ks: seq<string>, ts: seq<string>): (r: seq<(string, nat)>)
    ensures |r| == |ks|
    ensures forall i | 0 <= i < |ks| :: r[i] == (ks[i], Occ(ts, ks[i]))
  {
    seq(|ks|, i requires 0 <= i < |ks| => (ks[i], Occ(ts, ks[i])))
  }

  /** Inserts a pair before the first pair with a smaller count. */
  function Insert(p: (string, nat), s: seq<(string, nat)>): (r: seq<(string, nat)>)
    ensures |r| == |s| + 1
    ensures multiset(r) == multiset(s) + multiset{p}
  {
    if s == [] then [p]
    else if p.1 >= s[0].1 then [p] + s
    else
      assert s == [s[0]] + s[1..];
      [s[0]] + Insert(p, s[1..])
  }

  lemma {:induction false} InsertDescending(p: (string, nat), s: seq<(string, nat)>)
    requires Descending(s)
    ensures Descending(Insert(p, s))
  {
    if s != [] {
      var r := Insert(p, s);
      if p.1 >= s[0].1 {
        forall i, j | 0 <= i < j < |r|
          ensures r[i].1 >= r[j].1
        {
          assert r[j] == s[j - 1];
          if i > 0 {
            assert r[i] == s[i - 1];
          }
        }
      } else {
        var t := s[1..];
        assert Descending(t) by {
          forall i, j | 0 <= i < j < |t|
            ensures t[i].1 >= t[j].1
          {
            assert t[i] == s[i + 1] && t[j] == s[j + 1];
          }
        }
        InsertDescending(p, t);
        var rest := Insert(p, t);
        assert r == [s[0]] + rest;
        forall i, j | 0 <= i < j < |r|
          ensures r[i].1 >= r[j].1
        {
          assert r[j] == rest[j - 1];
          assert rest[j - 1] in multiset(rest);
          if rest[j - 1] != p {
            var k :| 0 <= k < |t| && t[k] == rest[j - 1];
            assert t[k] == s[k + 1];
          }
          if i > 0 {
            assert r[i] == rest[i - 1];
          }
        }
      }
    }
  }

  lemma {:induction false} InsertKeysDistinct(p: (string, nat), s: seq<(string, nat)>)
    requires KeysDistinct(s)
    requires forall x | x in s :: x.0 != p.0
    ensures KeysDistinct(Insert(p, s))
  {
    if s != [] {
      var r := Insert(p, s);
      if p.1 >= s[0].1 {
        forall i, j | 0 <= i < j < |r|
          ensures r[i].0 != r[j].0
        {
          assert r[j] == s[j - 1];
          if i > 0 {
            assert r[i] == s[i - 1];
          }
        }
      } else {
        var t := s[1..];
        assert KeysDistinct(t) by {
          forall i, j | 0 <= i < j < |t|
            ensures t[i].0 != t[j].0
          {
            assert t[i] == s[i + 1] && t[j] == s[j + 1];
          }
        }
        assert forall x | x in t :: x in s;
        InsertKeysDistinct(p, t);
        var rest := Insert(p, t);
        assert r == [s[0]] + rest;
        forall i, j | 0 <= i < j < |r|
          ensures r[i].0 != r[j].0
        {
          assert r[j] == rest[j - 1];
          assert rest[j - 1] in multiset(rest);
          if rest[j - 1] != p {
            var k :| 0 <= k < |t| && t[k] == rest[j - 1];
            assert t[k] == s[k + 1];
          }
          if i > 0 {
            assert r[i] == rest[i - 1];
          }
        }
      }
    }
  }

  /** Insertion sort by count, largest first. */
  function SortDesc(ps: seq<(string, nat)>): (r: seq<(string, nat)>)
    ensures |r| == |ps|
    ensures multiset(r) == multiset(ps)
  {
    if ps == [] then []
    else
      assert ps == [ps[0]] + ps[1..];
      Insert(ps[0], SortDesc(ps[1..]))
  }

  lemma {:induction false} SortDescDescending(ps: seq<(string, nat)>)
    ensures Descending(SortDesc(ps))
  {
    if ps != [] {
      SortDescDescending(ps[1..]);
      InsertDescending(ps[0], SortDesc(ps[1..]));
    }
  }

  lemma {:induction false} SortDescKeysDistinct(ps: seq<(string, nat)>)
    requires KeysDistinct(ps)
    ensures KeysDistinct(SortDesc(ps))
  {
    if ps != [] {
      var t := ps[1..];
      assert KeysDistinct(t) by {
        forall i, j | 0 <= i < j < |t|
          ensures t[i].0 != t[j].0
        {
          assert t[i] == ps[i + 1] && t[j] == ps[j + 1];
        }
      }
      SortDescKeysDistinct(t);
      var st := SortDesc(t);
      forall x | x in st
        ensures x.0 != ps[0].0
      {
        assert x in multiset(st);
        var k :| 0 <= k < |t| && t[k] == x;
        assert t[k] == ps[k + 1];
      }
      InsertKeysDistinct(ps[0], st);
    }
  }

  /** `value_counts()` of the values `ts`. */
  function ValueCounts(ts: seq<string>): (r: seq<(string, nat)>)
    ensures IsValueCounts(ts, r)
  {
    var ks := Dedup(ts);
    var ps := Tally(ks, ts);
    var r := SortDesc(ps);
    SortDescDescending(ps);
    SortDescKeysDistinct(ps);
    assert forall i | 0 <= i < |r| :: r[i].1 == Occ(ts, r[i].0) && r[i].1 >= 1 by {
      forall i | 0 <= i < |r|
        ensures r[i].1 == Occ(ts, r[i].0) && r[i].1 >= 1
      {
        assert r[i] in multiset(ps);
        var j :| 0 <= j < |ps| && ps[j] == r[i];
        OccPositive(ts, r[i].0);
      }
    }
    assert forall t | t in ts :: exists i | 0 <= i < |r| :: r[i].0 == t by {
      forall t | t in ts
        ensures exists i | 0 <= i < |r| :: r[i].0 == t
      {
        var j :| 0 <= j < |ks| && ks[j] == t;
        assert ps[j] in multiset(r);
      }
    }
    r
  }

  // ---- the sum of the counts ----

  function Sum(r: seq<(string, nat)>): nat {
    if r == [] then 0 else r[0].1 + Sum(r[1..])
  }

  function KeySet(r: seq<(string, nat)>): set<string> {
    if r == [] then {} else {r[0].0} + KeySet(r[1..])
  }

  /** Number of entries of `ts` that lie in `K`. */
  function CountIn(ts: seq<string>, K: set<string>): nat {
    if ts == [] then 0 else (if ts[0] in K then 1 else 0) + CountIn(ts[1..], K)
  }

  lemma {:induction false} CountInAdd(ts: seq<string>, K: set<string>, k: string)
    requires k !in K
    ensures CountIn(ts, K + {k}) == CountIn(ts, K) + Occ(ts, k)
  {
    if ts != [] {
      CountInAdd(ts[1..], K, k);
    }
  }

  lemma {:induction false} CountInNone(ts: seq<string>)
    ensures CountIn(ts, {}) == 0
  {
    if ts != [] {
      CountInNone(ts[1..]);
    }
  }

  lemma {:induction false} CountInAll(ts: seq<string>, K: set<string>)
    requires forall t | t in ts :: t in K
    ensures CountIn(ts, K) == |ts|
  {
    if ts != [] {
      assert forall t | t in ts[1..] :: t in ts;
      CountInAll(ts[1..], K);
    }
  }

  lemma {:induction false} KeySetMembers(r: seq<(string, nat)>)
    ensures forall k :: k in KeySet(r) <==> exists i | 0 <= i < |r| :: r[i].0 == k
  {
    if r != [] {
      KeySetMembers(r[1..]);
      forall k
        ensures k in KeySet(r) <==> exists i | 0 <= i < |r| :: r[i].0 == k
      {
        if k in KeySet(r[1..]) {
          var i :| 0 <= i < |r| - 1 && r[1..][i].0 == k;
          assert r[i + 1].0 == k;
        }
        if exists i | 0 <= i < |r| :: r[i].0 == k {
          var i :| 0 <= i < |r| && r[i].0 == k;
          if i > 0 {
            assert r[1..][i - 1].0 == k;
          }
        }
      }
    }
  }

  lemma {:induction false} SumIsCountIn(ts: seq<string>, r: seq<(string, nat)>)
    requires KeysDistinct(r)
    requires forall i | 0 <= i < |r| :: r[i].1 == Occ(ts, r[i].0)
    ensures Sum(r) == CountIn(ts, KeySet(r))
  {
    if r == [] {
      CountInNone(ts);
    } else {
      var rest := r[1..];
      assert KeysDistinct(rest) by {
        forall i, j | 0 <= i < j < |rest|
          ensures rest[i].0 != rest[j].0
        {
          assert rest[i] == r[i + 1] && rest[j] == r[j + 1];
        }
      }
      assert forall i | 0 <= i < |rest| :: rest[i].1 == Occ(ts, rest[i].0) by {
        forall i | 0 <= i < |rest|
          ensures rest[i].1 == Occ(ts, rest[i].0)
        {
          assert rest[i] == r[i + 1];
        }
      }
      SumIsCountIn(ts, rest);
      KeySetMembers(rest);
      assert r[0].0 !in KeySet(rest) by {
        forall i | 0 <= i < |rest|
          ensures rest[i].0 != r[0].0
        {
          assert rest[i] == r[i + 1];
        }
      }
      CountInAdd(ts, KeySet(rest), r[0].0);
      assert KeySet(r) == KeySet(rest) + {r[0].0};
      assert Sum(r) == r[0].1 + Sum(rest);
    }
  }

  /** The counts of any value_counts result add up to the number of values
      counted. */
  lemma SumOfCounts(ts: seq<string>, r: seq<(string, nat)>)
    requires IsValueCounts(ts, r)
    ensures Sum(r) == |ts|
  {
    SumIsCountIn(ts, r);
    KeySetMembers(r);
    CountInAll(ts, KeySet(r));
  }

  /** value_counts is determined up to the order of equal counts: any two
      results hold the same (value, count) pairs. */
  lemma ValueCountsUnique(ts: seq<string>, r1: seq<(string, nat)>, r2: seq<(string, nat)>)
    requires IsValueCounts(ts, r1) && IsValueCounts(ts, r2)
    ensures forall x | x in r1 :: x in r2
  {
    forall x | x in r1
      ensures x in r2
    {
      OccPositive(ts, x.0);
      var j :| 0 <= j < |r2| && r2[j].0 == x.0;
      assert r2[j] == x;
    }
  }
}
