/** Candidate selection: the zero-stock marketplaces, collected in scan order
    and then stably sorted by ascending forecast. */
module Candidates {
  import opened Marketplaces

  /** The marketplaces of `mps` whose stock is exactly 0, in their order in
      `mps`. */
  function ZeroStock(mps: seq<Marketplace>): seq<Marketplace>
  {
    if mps == [] then []
    else
      var m := mps[|mps| - 1];
      ZeroStock(mps[..|mps| - 1]) + (if m.stock == 0.0 then [m] else [])
  }

  /** ZeroStock keeps exactly the marketplaces whose stock is 0. */
  lemma {:induction false} ZeroStockMembers(mps: seq<Marketplace>)
    ensures forall m :: m in ZeroStock(mps) <==> m in mps && m.stock == 0.0
  {
    if mps != [] {
      var m := mps[|mps| - 1];
      ZeroStockMembers(mps[..|mps| - 1]);
      assert mps == mps[..|mps| - 1] + [m];
    }
  }

  /** `s` is in non-decreasing order of forecast. */
  predicate SortedByForecast(s: seq<Marketplace>)
  {
    forall i, j :: 0 <= i < j < |s| ==> s[i].forecast <= s[j].forecast
  }

  /** The elements of `s` whose forecast is `v`, in their order in `s`.
      A sort is stable when it keeps every such subsequence. */
  function WithForecast(s: seq<Marketplace>, v: real): seq<Marketplace>
  {
    if s == [] then []
    else (if s[0].forecast == v then [s[0]] else []) + WithForecast(s[1..], v)
  }

  /** WithForecast keeps only elements of `s` with forecast `v`. */
  lemma {:induction false} WithForecastElements(s: seq<Marketplace>, v: real)
    ensures forall y :: y in WithForecast(s, v) ==> y in s && y.forecast == v
  {
    if s != [] {
      WithForecastElements(s[1..], v);
      assert s == [s[0]] + s[1..];
    }
  }

  /** Every element of `s` with forecast `v` is kept by WithForecast. */
  lemma {:induction false} WithForecastKeeps(s: seq<Marketplace>, v: real, k: nat)
    requires k < |s| && s[k].forecast == v
    ensures s[k] in WithForecast(s, v)
  {
    if k > 0 {
      WithForecastKeeps(s[1..], v, k - 1);
      assert s[1..][k - 1] == s[k];
    }
  }

  /** Puts `x` in front of the first element of `t` whose forecast is at
      least that of `x`. */
  function Insert(x: Marketplace, t: seq<Marketplace>): seq<Marketplace>
  {
    if t == [] || x.forecast <= t[0].forecast then [x] + t
    else [t[0]] + Insert(x, t[1..])
  }

  /** Stable insertion sort by ascending forecast. It stands for the
      library's stable `list.sort(key=forecast)`; StableSortIsUnique shows
      that every stable sort by forecast gives this same result. */
  function SortByForecast(s: seq<Marketplace>): seq<Marketplace>
  {
    if s == [] then [] else Insert(s[0], SortByForecast(s[1..]))
  }

  lemma {:induction false} InsertPermutes(x: Marketplace, t: seq<Marketplace>)
    ensures multiset(Insert(x, t)) == multiset{x} + multiset(t)
  {
    if t != [] && x.forecast > t[0].forecast {
      InsertPermutes(x, t[1..]);
      assert t == [t[0]] + t[1..];
    }
  }

  /** Every forecast in `s` is at least `b`. */
  predicate ForecastsAtLeast(s: seq<Marketplace>, b: real)
  {
    forall k :: 0 <= k < |s| ==> b <= s[k].forecast
  }

  /** A sorted list stays sorted when an element no larger than all of it
      is put in front. */
  lemma SortedCons(h: Marketplace, r: seq<Marketplace>)
    requires SortedByForecast(r) && ForecastsAtLeast(r, h.forecast)
    ensures SortedByForecast([h] + r)
  {
    var c := [h] + r;
    forall i, j | 0 <= i < j < |c|
      ensures c[i].forecast <= c[j].forecast
    {
      assert c[j] == r[j - 1];
      if i > 0 {
        assert c[i] == r[i - 1];
      }
    }
  }

  lemma SortedBound(t: seq<Marketplace>)
    requires t != [] && SortedByForecast(t)
    ensures ForecastsAtLeast(t[1..], t[0].forecast)
  {
    assert forall k :: 0 <= k < |t| - 1 ==> t[1..][k] == t[k + 1];
  }

  /** Insert keeps a lower bound that `x` and all of `t` satisfy. */
  lemma {:induction false} InsertAtLeast(x: Marketplace, t: seq<Marketplace>, b: real)
    requires b <= x.forecast && ForecastsAtLeast(t, b)
    ensures ForecastsAtLeast(Insert(x, t), b)
  {
    if t == [] || x.forecast <= t[0].forecast {
      assert forall k :: 0 < k < |t| + 1 ==> ([x] + t)[k] == t[k - 1];
    } else {
      assert forall k :: 0 <= k < |t| - 1 ==> t[1..][k] == t[k + 1];
      InsertAtLeast(x, t[1..], b);
      var rest := Insert(x, t[1..]);
      assert forall k :: 0 < k < |rest| + 1 ==> ([t[0]] + rest)[k] == rest[k - 1];
    }
  }

  lemma {:induction false} InsertSorted(x: Marketplace, t: seq<Marketplace>)
    requires SortedByForecast(t)
    ensures SortedByForecast(Insert(x, t))
  {
    if t == [] {
    } else if x.forecast <= t[0].forecast {
      SortedBound(t);
      assert ForecastsAtLeast(t, x.forecast);
      SortedCons(x, t);
    } else {
      SortedBound(t);
      SortedTail(t);
      InsertSorted(x, t[1..]);
      InsertAtLeast(x, t[1..], t[0].forecast);
      SortedCons(t[0], Insert(x, t[1..]));
    }
  }

  lemma {:induction false} InsertStable(x: Marketplace, t: seq<Marketplace>, v: real)
    ensures WithForecast(Insert(x, t), v) == (if x.forecast == v then [x] else []) + WithForecast(t, v)
  {
    var hx := if x.forecast == v then [x] else [];
    if t == [] || x.forecast <= t[0].forecast {
      var ins := [x] + t;
      assert Insert(x, t) == ins;
      assert ins[0] == x && ins[1..] == t;
    } else {
      var rest := Insert(x, t[1..]);
      var ins := [t[0]] + rest;
      assert Insert(x, t) == ins;
      var h0 := if t[0].forecast == v then [t[0]] else [];
      var w := WithForecast(t[1..], v);
      InsertStable(x, t[1..], v);
      assert ins[0] == t[0] && ins[1..] == rest;
      assert WithForecast(ins, v) == h0 + (hx + w);
      assert WithForecast(t, v) == h0 + w;
      // t[0] precedes x only when its forecast is smaller, so at most one
      // of the two is kept for key v
      assert h0 == [] || hx == [];
      assert h0 + (hx + w) == hx + (h0 + w);
    }
  }

  /** The sort yields a non-decreasing permutation of its input that keeps
      marketplaces with equal forecasts in their input order. */
  lemma {:induction false} SortProperties(s: seq<Marketplace>)
    ensures SortedByForecast(SortByForecast(s))
    ensures multiset(SortByForecast(s)) == multiset(s)
    ensures forall v :: WithForecast(SortByForecast(s), v) == WithForecast(s, v)
  {
    if s != [] {
      var rest := SortByForecast(s[1..]);
      SortProperties(s[1..]);
      InsertSorted(s[0], rest);
      InsertPermutes(s[0], rest);
      assert s == [s[0]] + s[1..];
      forall v
        ensures WithForecast(SortByForecast(s), v) == WithForecast(s, v)
      {
        InsertStable(s[0], rest, v);
      }
    }
  }

  lemma SortedTail(r: seq<Marketplace>)
    requires r != [] && SortedByForecast(r)
    ensures SortedByForecast(r[1..])
  {
    forall i, j | 0 <= i < j < |r[1..]|
      ensures r[1..][i].forecast <= r[1..][j].forecast
    {
      assert r[1..][i] == r[i + 1] && r[1..][j] == r[j + 1];
    }
  }

  /** The first element of a sorted sequence has the least forecast. */
  lemma SortedFirstIsLeast(r: seq<Marketplace>, v: real)
    requires SortedByForecast(r) && WithForecast(r, v) != []
    ensures r != [] && r[0].forecast <= v
  {
    var y := WithForecast(r, v)[0];
    WithForecastElements(r, v);
    assert y in WithForecast(r, v);
    var k :| 0 <= k < |r| && r[k] == y;
    assert k == 0 || r[0].forecast <= r[k].forecast;
  }

  lemma HeadIsKept(r: seq<Marketplace>)
    requires r != []
    ensures WithForecast(r, r[0].forecast) != []
  {
  }

  /** Two sorted sequences with the same subsequence for every forecast are
      equal. */
  lemma {:induction false} SameStableOrder(r1: seq<Marketplace>, r2: seq<Marketplace>)
    requires SortedByForecast(r1) && SortedByForecast(r2)
    requires forall v :: WithForecast(r1, v) == WithForecast(r2, v)
    ensures r1 == r2
  {
    if r1 == [] || r2 == [] {
      // when only one side is empty, the key of its first element tells
      // the two sides apart
      if r1 != [] {
        HeadIsKept(r1);
      }
      if r2 != [] {
        HeadIsKept(r2);
      }
    } else {
      var k1, k2 := r1[0].forecast, r2[0].forecast;
      assert WithForecast(r1, k1)[0] == r1[0];
      assert WithForecast(r2, k2)[0] == r2[0];
      SortedFirstIsLeast(r1, k2);
      SortedFirstIsLeast(r2, k1);
      assert k1 == k2;
      assert r1[0] == r2[0];
      forall v
        ensures WithForecast(r1[1..], v) == WithForecast(r2[1..], v)
      {
        var head := if k1 == v then [r1[0]] else [];
        assert WithForecast(r1, v) == head + WithForecast(r1[1..], v);
        assert WithForecast(r2, v) == head + WithForecast(r2[1..], v);
        assert WithForecast(r1[1..], v) == (head + WithForecast(r1[1..], v))[|head|..];
        assert WithForecast(r2[1..], v) == (head + WithForecast(r2[1..], v))[|head|..];
      }
      SortedTail(r1);
      SortedTail(r2);
      SameStableOrder(r1[1..], r2[1..]);
      assert r1 == [r1[0]] + r1[1..];
      assert r2 == [r2[0]] + r2[1..];
    }
  }

  /** Every stable sort by forecast gives the result of SortByForecast, so
      the model does not depend on how the library sorts. */
  lemma StableSortIsUnique(s: seq<Marketplace>, r: seq<Marketplace>)
    requires SortedByForecast(r)
    requires forall v :: WithForecast(r, v) == WithForecast(s, v)
    ensures r == SortByForecast(s)
  {
    SortProperties(s);
    SameStableOrder(r, SortByForecast(s));
  }

  /** Collects the zero-stock marketplaces by appending them one by one in
      the order of `mps`, then sorts the list by forecast. */
  method SelectCandidates(mps: seq<Marketplace>) returns (cands: seq<Marketplace>)
    ensures cands == SortByForecast(ZeroStock(mps))
  {
    cands := [];
    for i := 0 to |mps|
      invariant cands == ZeroStock(mps[..i])
    {
      assert mps[..i + 1][..i] == mps[..i];
      if mps[i].stock == 0.0 {
        cands := cands + [mps[i]];
      }
    }
    assert mps[..|mps|] == mps;
    cands := SortByForecast(cands);
  }

  /** Taking a subsequence by stock keeps the scan order. */
  lemma {:induction false} ZeroStockInScanOrder(mps: seq<Marketplace>)
    requires InScanOrder(mps)
    ensures InScanOrder(ZeroStock(mps))
  {
    if mps != [] {
      var n := |mps| - 1;
      var init, m := mps[..n], mps[n];
      assert InScanOrder(init) by {
        forall i, j | 0 <= i < j < |init|
          ensures ScanRank(init[i].name) < ScanRank(init[j].name)
        {
          assert init[i] == mps[i] && init[j] == mps[j];
        }
      }
      ZeroStockInScanOrder(init);
      var z := ZeroStock(init);
      ZeroStockMembers(init);
      forall y | y in z
        ensures ScanRank(y.name) < ScanRank(m.name)
      {
        var k :| 0 <= k < n && init[k] == y;
        assert mps[k] == y;
      }
      var r := z + (if m.stock == 0.0 then [m] else []);
      forall i, j | 0 <= i < j < |r|
        ensures ScanRank(r[i].name) < ScanRank(r[j].name)
      {
        assert r[i] == z[i];
        if j == |z| {
          assert r[i] in z;
        } else {
          assert r[j] == z[j];
        }
      }
    }
  }

  /** Every scan rank in `s` is above `b`. */
  predicate RanksAbove(s: seq<Marketplace>, b: nat)
  {
    forall k :: 0 <= k < |s| ==> b < ScanRank(s[k].name)
  }

  /** A list in scan order stays so when an element of lower rank than all
      of it is put in front. */
  lemma ScanOrderCons(h: Marketplace, r: seq<Marketplace>)
    requires InScanOrder(r) && RanksAbove(r, ScanRank(h.name))
    ensures InScanOrder([h] + r)
  {
    var c := [h] + r;
    forall i, j | 0 <= i < j < |c|
      ensures ScanRank(c[i].name) < ScanRank(c[j].name)
    {
      assert c[j] == r[j - 1];
      if i > 0 {
        assert c[i] == r[i - 1];
      }
    }
  }

  /** WithForecast keeps a lower bound on the ranks. */
  lemma {:induction false} WithForecastRanksAbove(s: seq<Marketplace>, v: real, b: nat)
    requires RanksAbove(s, b)
    ensures RanksAbove(WithForecast(s, v), b)
  {
    if s != [] {
      assert forall k :: 0 <= k < |s| - 1 ==> s[1..][k] == s[k + 1];
      WithForecastRanksAbove(s[1..], v, b);
      var w := WithForecast(s[1..], v);
      assert forall k :: 0 < k < |w| + 1 ==> ([s[0]] + w)[k] == w[k - 1];
    }
  }

  /** Taking a subsequence by forecast keeps the scan order. */
  lemma {:induction false} WithForecastInScanOrder(s: seq<Marketplace>, v: real)
    requires InScanOrder(s)
    ensures InScanOrder(WithForecast(s, v))
  {
    if s != [] {
      var tail := s[1..];
      assert forall k :: 0 <= k < |tail| ==> tail[k] == s[k + 1];
      assert InScanOrder(tail);
      WithForecastInScanOrder(tail, v);
      if s[0].forecast == v {
        WithForecastRanksAbove(tail, v, ScanRank(s[0].name));
        ScanOrderCons(s[0], WithForecast(tail, v));
      }
    }
  }

  /** Two elements of `s` with the same forecast `v` appear, in the same
      order, in WithForecast(s, v). */
  lemma {:induction false} WithForecastPositions(s: seq<Marketplace>, i: nat, j: nat)
    returns (p: nat, q: nat)
    requires i < j < |s| && s[i].forecast == s[j].forecast
    ensures p < q < |WithForecast(s, s[i].forecast)|
    ensures WithForecast(s, s[i].forecast)[p] == s[i]
    ensures WithForecast(s, s[i].forecast)[q] == s[j]
  {
    var v := s[i].forecast;
    var tail := s[1..];
    var w := WithForecast(tail, v);
    var head := if s[0].forecast == v then [s[0]] else [];
    assert WithForecast(s, v) == head + w;
    if i == 0 {
      assert s[j] == tail[j - 1];
      WithForecastKeeps(tail, v, j - 1);
      var k :| 0 <= k < |w| && w[k] == s[j];
      p, q := 0, k + 1;
    } else {
      var p', q' := WithForecastPositions(tail, i - 1, j - 1);
      assert tail[i - 1] == s[i] && tail[j - 1] == s[j];
      p, q := p' + |head|, q' + |head|;
    }
  }

  /** What the source promises of its candidate list, for marketplaces
      given in scan order (as the sidebar gives them): it holds exactly the
      zero-stock marketplaces, each once, by non-decreasing forecast, and a
      tie keeps the scan order IT, ES, FR, DE. */
  lemma CandidatesProperties(mps: seq<Marketplace>)
    requires InScanOrder(mps)
    ensures var cands := SortByForecast(ZeroStock(mps));
      && (forall m :: m in cands <==> m in mps && m.stock == 0.0)
      && DistinctNames(cands)
      && SortedByForecast(cands)
      && (forall i, j :: 0 <= i < j < |cands| && cands[i].forecast == cands[j].forecast ==>
            ScanRank(cands[i].name) < ScanRank(cands[j].name))
  {
    var zs := ZeroStock(mps);
    var cands := SortByForecast(zs);
    SortProperties(zs);
    ZeroStockInScanOrder(mps);
    ZeroStockMembers(mps);
    forall m
      ensures m in cands <==> m in zs
    {
      assert m in cands <==> m in multiset(cands);
      assert m in zs <==> m in multiset(zs);
    }
    forall i, j | 0 <= i < j < |cands| && cands[i].forecast == cands[j].forecast
      ensures ScanRank(cands[i].name) < ScanRank(cands[j].name)
    {
      TieKeepsScanOrder(zs, cands, i, j);
    }
    CandidateNamesDistinct(zs, cands);
  }

  /** A stable rearrangement of a list in scan order names each marketplace
      at most once. */
  lemma CandidateNamesDistinct(zs: seq<Marketplace>, cands: seq<Marketplace>)
    requires InScanOrder(zs)
    requires multiset(cands) == multiset(zs)
    requires forall v :: WithForecast(cands, v) == WithForecast(zs, v)
    ensures DistinctNames(cands)
  {
    forall i, j | 0 <= i < j < |cands|
      ensures cands[i].name != cands[j].name
    {
      if cands[i].name == cands[j].name {
        assert cands[i] in multiset(zs) && cands[j] in multiset(zs);
        var a :| 0 <= a < |zs| && zs[a] == cands[i];
        var b :| 0 <= b < |zs| && zs[b] == cands[j];
        assert a == b;
        TieKeepsScanOrder(zs, cands, i, j);
      }
    }
  }

  /** In a stable rearrangement of a list in scan order, equal forecasts
      stay in scan order. */
  lemma TieKeepsScanOrder(zs: seq<Marketplace>, cands: seq<Marketplace>, i: nat, j: nat)
    requires InScanOrder(zs)
    requires forall v :: WithForecast(cands, v) == WithForecast(zs, v)
    requires i < j < |cands| && cands[i].forecast == cands[j].forecast
    ensures ScanRank(cands[i].name) < ScanRank(cands[j].name)
  {
    var v := cands[i].forecast;
    var p, q := WithForecastPositions(cands, i, j);
    WithForecastInScanOrder(zs, v);
    assert WithForecast(cands, v) == WithForecast(zs, v);
  }
}
