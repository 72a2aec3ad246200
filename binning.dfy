/**
 * Fixed-edge binning with the semantics of pandas `cut` (right-closed
 * intervals), and the four binnings the dashboard applies: temperature
 * category, temperature level, hour period and demand tier.
 */
module Binning {
  import opened Wrappers
  import opened Records

  /** Every edge is strictly below every later edge. */
  predicate Increasing(e: seq<real>)
  {
    forall i, j :: 0 <= i < j < |e| ==> e[i] < e[j]
  }

  /** No edge is above a later edge. */
  predicate NonDecreasing(e: seq<real>)
  {
    forall i, j :: 0 <= i < j < |e| ==> e[i] <= e[j]
  }

  /**
   * The interval of bin `k`: (e[k], e[k+1]]; with `includeLowest` the first
   * bin also holds its left edge, [e[0], e[1]].
   */
  ghost predicate InBin(x: real, e: seq<real>, k: nat, includeLowest: bool)
    requires k + 1 < |e|
  {
    (e[k] < x || (includeLowest && k == 0 && x == e[0])) && x <= e[k + 1]
  }

  /** Whether each edge is below (strict) or not above (non-strict) the next one. */
  function StepsUp(e: seq<real>, strict: bool): (b: bool)
    ensures strict ==> (b <==> Increasing(e))
    ensures !strict ==> (b <==> NonDecreasing(e))
  {
    if |e| < 2 then true
    else (if strict then e[0] < e[1] else e[0] <= e[1]) && StepsUp(e[1..], strict)
  }

  /** Why pandas refuses the edges given to `cut`. */
  datatype CutError = BinsNotMonotonic | DuplicateBinEdges

  /**
   * The edge check `cut` makes before binning: first that the edges never
   * decrease, then that no two are equal.
   */
  function CheckEdges(e: seq<real>): (r: Option<CutError>)
    ensures r.None? <==> Increasing(e)
    ensures r == Some(BinsNotMonotonic) <==> !NonDecreasing(e)
  {
    if !StepsUp(e, false) then Some(BinsNotMonotonic)
    else if !StepsUp(e, true) then Some(DuplicateBinEdges)
    else None
  }

  /**
   * `searchsorted(e, x, side='left')`: the first position whose edge is not
   * below `x`, or |e| when every edge is below it.
   */
  function SearchLeft(e: seq<real>, x: real): (k: nat)
    ensures k <= |e|
    ensures forall j :: 0 <= j < k ==> e[j] < x
    ensures Increasing(e) ==> forall j :: k <= j < |e| ==> x <= e[j]
  {
    if e == [] || x <= e[0] then 0 else 1 + SearchLeft(e[1..], x)
  }

  /**
   * `cut(x, bins=e, right=True, include_lowest=...)` on one value: the index
   * of the bin holding `x`, absent (NaN) when no bin holds it. The result is
   * `Some(k)` exactly when `x` lies in bin `k`, so no value lies in two bins.
   */
  function Cut(x: real, e: seq<real>, includeLowest: bool): (r: Option<nat>)
    requires Increasing(e)
    ensures r.Some? ==> r.value + 1 < |e| && InBin(x, e, r.value, includeLowest)
    ensures forall k: nat :: k + 1 < |e| && InBin(x, e, k, includeLowest) ==> r == Some(k)
  {
    var ids := if includeLowest && |e| > 0 && x == e[0] then 1 else SearchLeft(e, x);
    if 1 <= ids < |e| then Some(ids - 1) else None
  }

  /** A value lies in some bin exactly when it is within the outer edges. */
  lemma CutCoversRange(x: real, e: seq<real>, includeLowest: bool)
    requires Increasing(e) && |e| >= 2
    ensures Cut(x, e, includeLowest).Some? <==> (e[0] < x || (includeLowest && x == e[0])) && x <= e[|e| - 1]
  {
    var r := Cut(x, e, includeLowest);
    if (e[0] < x || (includeLowest && x == e[0])) && x <= e[|e| - 1] {
      var k := SearchLeft(e, x);
      if includeLowest && x == e[0] {
        assert InBin(x, e, 0, includeLowest);
      } else {
        assert 1 <= k < |e|;
        assert InBin(x, e, k - 1, includeLowest);
      }
    }
  }

  // ---------------------------------------------------------------------
  // The binnings of the dashboard

  /** The labels of `temp_category`: cold, cool, warm, hot. */
  datatype TempCategory = Dingin | Sejuk | Hangat | Panas

  const TempCategoryEdges: seq<real> := [0.0, 10.0, 20.0, 30.0, 41.0]
  const TempCategoryLabels: seq<TempCategory> := [Dingin, Sejuk, Hangat, Panas]

  /** `temp_category`: bins (0,10], (10,20], (20,30], (30,41] of the Celsius temperature. */
  function TempCategoryOf(c: real): (r: Option<TempCategory>)
    ensures r == Some(Dingin) <==> 0.0 < c <= 10.0
    ensures r == Some(Sejuk) <==> 10.0 < c <= 20.0
    ensures r == Some(Hangat) <==> 20.0 < c <= 30.0
    ensures r == Some(Panas) <==> 30.0 < c <= 41.0
    ensures r == None <==> c <= 0.0 || 41.0 < c
  {
    var e := TempCategoryEdges;
    assert Increasing(e);
    var k := Cut(c, e, false);
    assert InBin(c, e, 0, false) ==> k == Some(0);
    assert InBin(c, e, 1, false) ==> k == Some(1);
    assert InBin(c, e, 2, false) ==> k == Some(2);
    assert InBin(c, e, 3, false) ==> k == Some(3);
    if k.Some? then Some(TempCategoryLabels[k.value]) else None
  }

  /** The labels of `temp_level`. */
  datatype TempLevel = Cold | Moderate | Hot

  const TempLevelEdges: seq<real> := [0.0, 15.0, 25.0, 41.0]
  const TempLevelLabels: seq<TempLevel> := [Cold, Moderate, Hot]

  /** `temp_level`: bins (0,15], (15,25], (25,41] of the Celsius temperature, without include_lowest. */
  function TempLevelOf(c: real): (r: Option<TempLevel>)
    ensures r == Some(Cold) <==> 0.0 < c <= 15.0
    ensures r == Some(Moderate) <==> 15.0 < c <= 25.0
    ensures r == Some(Hot) <==> 25.0 < c <= 41.0
    ensures r == None <==> c <= 0.0 || 41.0 < c
  {
    var e := TempLevelEdges;
    assert Increasing(e);
    var k := Cut(c, e, false);
    assert InBin(c, e, 0, false) ==> k == Some(0);
    assert InBin(c, e, 1, false) ==> k == Some(1);
    assert InBin(c, e, 2, false) ==> k == Some(2);
    if k.Some? then Some(TempLevelLabels[k.value]) else None
  }

  /** The boundary values: a right-closed edge belongs to the lower bin. */
  lemma TempLevelBoundaries()
    ensures TempLevelOf(14.9) == Some(Cold)
    ensures TempLevelOf(15.0) == Some(Cold)
    ensures TempLevelOf(25.0) == Some(Moderate)
    ensures TempLevelOf(41.0) == Some(Hot)
    ensures TempLevelOf(0.0) == None && TempLevelOf(41.5) == None
  {
  }

  /** The labels of `hour_category`: night, morning, midday, evening. */
  datatype HourPeriod = Malam | Pagi | Siang | Sore

  const HourEdges: seq<real> := [-1.0, 6.0, 12.0, 18.0, 24.0]
  const HourLabels: seq<HourPeriod> := [Malam, Pagi, Siang, Sore]

  /** `hour_category`: bins (-1,6], (6,12], (12,18], (18,24] of the hour. */
  function HourPeriodOf(hr: int): (r: Option<HourPeriod>)
    ensures r == Some(Malam) <==> 0 <= hr <= 6
    ensures r == Some(Pagi) <==> 7 <= hr <= 12
    ensures r == Some(Siang) <==> 13 <= hr <= 18
    ensures r == Some(Sore) <==> 19 <= hr <= 24
    ensures r == None <==> hr < 0 || 24 < hr
  {
    var e := HourEdges;
    var x := hr as real;
    assert Increasing(e);
    var k := Cut(x, e, false);
    assert InBin(x, e, 0, false) ==> k == Some(0);
    assert InBin(x, e, 1, false) ==> k == Some(1);
    assert InBin(x, e, 2, false) ==> k == Some(2);
    assert InBin(x, e, 3, false) ==> k == Some(3);
    if k.Some? then Some(HourLabels[k.value]) else None
  }

  /** Every hour of the day falls in exactly one period. */
  lemma HourPeriodTotal(hr: int)
    requires 0 <= hr <= 23
    ensures HourPeriodOf(hr).Some?
  {
  }

  /** The labels of `demand_level`. */
  datatype DemandLevel = LowDemand | MediumDemand | HighDemand

  /**
   * `demand_level` of one count: bins [0,q1], (q1,q2], (q2,top] with
   * include_lowest, for edges that `cut` accepts.
   */
  function DemandLevelOf(cnt: nat, q1: real, q2: real, top: real): (r: Option<DemandLevel>)
    requires 0.0 < q1 < q2 < top
    ensures r == Some(LowDemand) <==> cnt as real <= q1
    ensures r == Some(MediumDemand) <==> q1 < cnt as real <= q2
    ensures r == Some(HighDemand) <==> q2 < cnt as real <= top
    ensures r == None <==> top < cnt as real
  {
    var e := [0.0, q1, q2, top];
    var x := cnt as real;
    assert Increasing(e);
    var k := Cut(x, e, true);
    assert InBin(x, e, 0, true) ==> k == Some(0);
    assert InBin(x, e, 1, true) ==> k == Some(1);
    assert InBin(x, e, 2, true) ==> k == Some(2);
    if k == Some(0) then Some(LowDemand)
    else if k == Some(1) then Some(MediumDemand)
    else if k == Some(2) then Some(HighDemand)
    else None
  }

  /** Why the demand tiers cannot be computed. */
  datatype DemandError = EmptyTable | BadEdges(reason: CutError)

  /** The largest total count of a non-empty table (`cnt.max()`). */
  function MaxCnt(rows: seq<Day>): (m: nat)
    requires rows != []
    ensures forall i :: 0 <= i < |rows| ==> rows[i].raw.cnt <= m
    ensures exists i :: 0 <= i < |rows| && rows[i].raw.cnt == m
  {
    if |rows| == 1 then rows[0].raw.cnt
    else
      var m := MaxCnt(rows[1..]);
      assert forall i :: 1 <= i < |rows| ==> rows[i] == rows[1..][i - 1];
      if rows[0].raw.cnt >= m then rows[0].raw.cnt else m
  }

  /**
   * The `demand_level` column of a table, from the thresholds `q1`, `q2`
   * (the 0.33 and 0.67 quantiles of the same table) and the table's largest
   * count. An empty table has no quantiles or maximum and `cut` refuses its
   * edges; edges that are not strictly increasing are refused too. When the
   * edges are accepted, every row gets a tier.
   */
  function DemandLevels(rows: seq<Day>, q1: real, q2: real): (r: Result<seq<DemandLevel>, DemandError>)
    ensures rows == [] ==> r == Err(EmptyTable)
    ensures r.Ok? <==> rows != [] && 0.0 < q1 < q2 < MaxCnt(rows) as real
    ensures r.Ok? ==> |r.value| == |rows|
    ensures r.Ok? ==> forall i :: 0 <= i < |rows| ==> Some(r.value[i]) == DemandLevelOf(rows[i].raw.cnt, q1, q2, MaxCnt(rows) as real)
  {
    if rows == [] then Err(EmptyTable)
    else
      var top := MaxCnt(rows) as real;
      var e := [0.0, q1, q2, top];
      var check := CheckEdges(e);
      assert Increasing(e) <==> 0.0 < q1 < q2 < top by {
        if Increasing(e) {
          assert e[0] < e[1] && e[1] < e[2] && e[2] < e[3];
        }
      }
      if check.Some? then Err(BadEdges(check.value))
      else
        Ok(seq(|rows|, i requires 0 <= i < |rows| => DemandLevelOf(rows[i].raw.cnt, q1, q2, top).value))
  }
}
