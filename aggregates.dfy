/**
 * The aggregates the pages compute from the filtered daily table: column
 * sums, the per-season and per-weather groupings of the total count sorted
 * by value, and the day counts per demand tier.
 */
module Aggregates {
  import opened Wrappers
  import opened Records
  import opened Binning
  import opened Filters

  /** A count column of the daily table. */
  datatype Measure = Casual | Registered | Cnt

  function Value(d: Day, m: Measure): nat
  {
    match m
    case Casual => d.raw.casual
    case Registered => d.raw.registered
    case Cnt => d.raw.cnt
  }

  /** `df[column].sum()` */
  function Sum(rows: seq<Day>, m: Measure): (total: nat)
    ensures forall i :: 0 <= i < |rows| ==> Value(rows[i], m) <= total
    ensures total == 0 <==> forall i :: 0 <= i < |rows| ==> Value(rows[i], m) == 0
  {
    if rows == [] then 0 else Value(rows[0], m) + Sum(rows[1..], m)
  }

  /** The sum of a concatenation is the sum of the parts. */
  lemma {:induction false} SumConcat(a: seq<Day>, b: seq<Day>, m: Measure)
    ensures Sum(a + b, m) == Sum(a, m) + Sum(b, m)
  {
    if a == [] {
      assert a + b == b;
    } else {
      assert (a + b)[1..] == a[1..] + b;
      SumConcat(a[1..], b, m);
    }
  }

  /**
   * On rows where the total is the sum of casual and registered riders, the
   * casual and registered sums shown on the user page add up to the total sum.
   */
  lemma {:induction false} CasualPlusRegistered(rows: seq<Day>)
    requires forall i :: 0 <= i < |rows| ==> rows[i].raw.cnt == rows[i].raw.casual + rows[i].raw.registered
    ensures Sum(rows, Cnt) == Sum(rows, Casual) + Sum(rows, Registered)
  {
    if rows != [] {
      CasualPlusRegistered(rows[1..]);
    }
  }

  /** Removing rows never increases a sum. */
  lemma {:induction false} FilterDailySumAtMost(rows: seq<Day>, seasons: seq<string>, weathers: seq<string>, m: Measure)
    ensures Sum(FilterDaily(rows, seasons, weathers), m) <= Sum(rows, m)
  {
    if rows != [] {
      FilterDailySumAtMost(rows[1..], seasons, weathers, m);
      var head := if DayPasses(rows[0], seasons, weathers) then [rows[0]] else [];
      SumConcat(head, FilterDaily(rows[1..], seasons, weathers), m);
    }
  }

  // ---------------------------------------------------------------------
  // groupby(label)['cnt']

  /** A label column of the daily table. */
  datatype LabelColumn = SeasonColumn | WeatherColumn

  function LabelOf(d: Day, c: LabelColumn): Option<string>
  {
    match c
    case SeasonColumn => d.seasonName
    case WeatherColumn => d.weatherName
  }

  /** Whether a row's label in column `c` is present and one of `keys`. */
  predicate HasKey(d: Day, c: LabelColumn, keys: seq<string>)
  {
    LabelOf(d, c).Some? && LabelOf(d, c).value in keys
  }

  /** The total count of the rows whose label is one of `keys`. */
  function TotalWhere(rows: seq<Day>, c: LabelColumn, keys: seq<string>): (total: nat)
    ensures SizeWhere(rows, c, keys) == 0 ==> total == 0
  {
    if rows == [] then 0
    else (if HasKey(rows[0], c, keys) then rows[0].raw.cnt else 0) + TotalWhere(rows[1..], c, keys)
  }

  /** The total over some categories never exceeds the total count of the table. */
  lemma {:induction false} TotalWhereAtMostSum(rows: seq<Day>, c: LabelColumn, keys: seq<string>)
    ensures TotalWhere(rows, c, keys) <= Sum(rows, Cnt)
  {
    if rows != [] {
      TotalWhereAtMostSum(rows[1..], c, keys);
    }
  }

  /** The number of rows whose label is one of `keys`. */
  function SizeWhere(rows: seq<Day>, c: LabelColumn, keys: seq<string>): (n: nat)
    ensures n <= |rows|
  {
    if rows == [] then 0
    else (if HasKey(rows[0], c, keys) then 1 else 0) + SizeWhere(rows[1..], c, keys)
  }

  /** No row carries one of `keys` exactly when the count is zero; all do exactly when it is the table's length. */
  lemma {:induction false} SizeWhereExtremes(rows: seq<Day>, c: LabelColumn, keys: seq<string>)
    ensures SizeWhere(rows, c, keys) == 0 <==> forall i :: 0 <= i < |rows| ==> !HasKey(rows[i], c, keys)
    ensures SizeWhere(rows, c, keys) == |rows| <==> forall i :: 0 <= i < |rows| ==> HasKey(rows[i], c, keys)
  {
    if rows != [] {
      SizeWhereExtremes(rows[1..], c, keys);
      assert forall i :: 1 <= i < |rows| ==> rows[i] == rows[1..][i - 1];
    }
  }

  /** One group of a groupby: its key, the sum of `cnt` and the number of rows. */
  datatype Group = Group(key: string, total: nat, size: nat)

  /** No two groups share a key. */
  predicate KeysDistinct(gs: seq<Group>)
  {
    forall i, j :: 0 <= i < j < |gs| ==> gs[i].key != gs[j].key
  }

  /**
   * `groupby(c)['cnt']` over the categories `keys`, in their order: one group
   * per category; with `observed` only the categories that occur in a row.
   */
  function GroupBy(rows: seq<Day>, c: LabelColumn, keys: seq<string>, observed: bool): (gs: seq<Group>)
    ensures |gs| <= |keys|
    ensures !observed ==> |gs| == |keys|
    ensures forall i :: 0 <= i < |gs| ==>
              gs[i].key in keys && gs[i].total == TotalWhere(rows, c, [gs[i].key]) && gs[i].size == SizeWhere(rows, c, [gs[i].key])
    ensures observed ==> forall i :: 0 <= i < |gs| ==> gs[i].size > 0
  {
    if keys == [] then []
    else
      var g := Group(keys[0], TotalWhere(rows, c, [keys[0]]), SizeWhere(rows, c, [keys[0]]));
      (if observed && g.size == 0 then [] else [g]) + GroupBy(rows, c, keys[1..], observed)
  }

  /** Listing every category, the i-th group is the i-th category: one group each, in category order. */
  lemma {:induction false} GroupByInCategoryOrder(rows: seq<Day>, c: LabelColumn, keys: seq<string>, i: nat)
    requires i < |keys|
    ensures GroupBy(rows, c, keys, false)[i].key == keys[i]
  {
    if i > 0 {
      GroupByInCategoryOrder(rows, c, keys[1..], i - 1);
      var g := Group(keys[0], TotalWhere(rows, c, [keys[0]]), SizeWhere(rows, c, [keys[0]]));
      assert GroupBy(rows, c, keys, false) == [g] + GroupBy(rows, c, keys[1..], false);
    }
  }

  /** Every category gets a group, unless it is empty and only observed categories are listed. */
  lemma {:induction false} GroupByComplete(rows: seq<Day>, c: LabelColumn, keys: seq<string>, observed: bool, k: string)
    requires k in keys && (!observed || SizeWhere(rows, c, [k]) > 0)
    ensures exists g :: g in GroupBy(rows, c, keys, observed) && g.key == k
  {
    var g := Group(keys[0], TotalWhere(rows, c, [keys[0]]), SizeWhere(rows, c, [keys[0]]));
    var head := if observed && g.size == 0 then [] else [g];
    var tail := GroupBy(rows, c, keys[1..], observed);
    assert GroupBy(rows, c, keys, observed) == head + tail;
    if k == keys[0] {
      assert g in head + tail;
    } else {
      assert k in keys[1..];
      GroupByComplete(rows, c, keys[1..], observed, k);
      var g' :| g' in tail && g'.key == k;
      assert g' in head + tail;
    }
  }

  /** A group whose key the others lack can go in front of groups with distinct keys. */
  lemma KeysDistinctCons(g: Group, t: seq<Group>)
    requires KeysDistinct(t)
    requires forall x :: x in t ==> x.key != g.key
    ensures KeysDistinct([g] + t)
  {
    var r := [g] + t;
    forall i, j | 0 <= i < j < |r| ensures r[i].key != r[j].key {
      assert r[j] == t[j - 1] && r[j] in t;
      if i > 0 {
        assert r[i] == t[i - 1];
      }
    }
  }

  /** Over distinct categories no two groups share a key. */
  lemma {:induction false} GroupByKeysDistinct(rows: seq<Day>, c: LabelColumn, keys: seq<string>, observed: bool)
    requires Distinct(keys)
    ensures KeysDistinct(GroupBy(rows, c, keys, observed))
  {
    if keys != [] {
      DistinctHead(keys);
      GroupByKeysDistinct(rows, c, keys[1..], observed);
      var g := Group(keys[0], TotalWhere(rows, c, [keys[0]]), SizeWhere(rows, c, [keys[0]]));
      var tail := GroupBy(rows, c, keys[1..], observed);
      if !(observed && g.size == 0) {
        forall x | x in tail ensures x.key != g.key {
          var i :| 0 <= i < |tail| && tail[i] == x;
        }
        KeysDistinctCons(g, tail);
        assert GroupBy(rows, c, keys, observed) == [g] + tail;
      } else {
        assert GroupBy(rows, c, keys, observed) == [] + tail;
      }
    }
  }

  function Totals(gs: seq<Group>): nat
  {
    if gs == [] then 0 else gs[0].total + Totals(gs[1..])
  }

  function Sizes(gs: seq<Group>): nat
  {
    if gs == [] then 0 else gs[0].size + Sizes(gs[1..])
  }

  /** Splitting off one key that the rest does not repeat splits the total and the size. */
  lemma {:induction false} WhereSplit(rows: seq<Day>, c: LabelColumn, k: string, rest: seq<string>)
    requires k !in rest
    ensures TotalWhere(rows, c, [k] + rest) == TotalWhere(rows, c, [k]) + TotalWhere(rows, c, rest)
    ensures SizeWhere(rows, c, [k] + rest) == SizeWhere(rows, c, [k]) + SizeWhere(rows, c, rest)
  {
    if rows != [] {
      WhereSplit(rows[1..], c, k, rest);
    }
  }

  /** The first of distinct keys is not repeated among the others. */
  lemma DistinctHead(keys: seq<string>)
    requires keys != [] && Distinct(keys)
    ensures keys[0] !in keys[1..] && Distinct(keys[1..])
  {
  }

  /** Totals and sizes of concatenated groupings add up. */
  lemma {:induction false} TotalsConcat(a: seq<Group>, b: seq<Group>)
    ensures Totals(a + b) == Totals(a) + Totals(b) && Sizes(a + b) == Sizes(a) + Sizes(b)
  {
    if a == [] {
      assert a + b == b;
    } else {
      assert (a + b)[1..] == a[1..] + b;
      TotalsConcat(a[1..], b);
    }
  }

  /** The groups over distinct categories hold exactly the rows whose label is one of them. */
  lemma {:induction false} GroupByCovers(rows: seq<Day>, c: LabelColumn, keys: seq<string>, observed: bool)
    requires Distinct(keys)
    ensures Totals(GroupBy(rows, c, keys, observed)) == TotalWhere(rows, c, keys)
    ensures Sizes(GroupBy(rows, c, keys, observed)) == SizeWhere(rows, c, keys)
  {
    if keys == [] {
      NoKeys(rows, c);
    } else {
      var k, rest := keys[0], keys[1..];
      DistinctHead(keys);
      GroupByCovers(rows, c, rest, observed);
      WhereSplit(rows, c, k, rest);
      assert [k] + rest == keys;
      var g := Group(k, TotalWhere(rows, c, [k]), SizeWhere(rows, c, [k]));
      var head := if observed && g.size == 0 then [] else [g];
      TotalsConcat(head, GroupBy(rows, c, rest, observed));
    }
  }

  /** No row's label is in an empty list of categories. */
  lemma {:induction false} NoKeys(rows: seq<Day>, c: LabelColumn)
    ensures TotalWhere(rows, c, []) == 0 && SizeWhere(rows, c, []) == 0
  {
    if rows != [] {
      NoKeys(rows[1..], c);
    }
  }

  /** When every row's label is one of `keys`, those rows are all of the table. */
  lemma {:induction false} AllRowsHaveKey(rows: seq<Day>, c: LabelColumn, keys: seq<string>)
    requires forall i :: 0 <= i < |rows| ==> HasKey(rows[i], c, keys)
    ensures TotalWhere(rows, c, keys) == Sum(rows, Cnt)
    ensures SizeWhere(rows, c, keys) == |rows|
  {
    if rows != [] {
      AllRowsHaveKey(rows[1..], c, keys);
    }
  }

  /**
   * When every row carries one of the (distinct) categories, the group
   * totals add up to the table's total count and the group sizes to its
   * number of rows, whether or not empty categories are listed.
   */
  lemma GroupTotalsAddUp(rows: seq<Day>, c: LabelColumn, keys: seq<string>, observed: bool)
    requires Distinct(keys)
    requires forall i :: 0 <= i < |rows| ==> HasKey(rows[i], c, keys)
    ensures Totals(GroupBy(rows, c, keys, observed)) == Sum(rows, Cnt)
    ensures Sizes(GroupBy(rows, c, keys, observed)) == |rows|
  {
    GroupByCovers(rows, c, keys, observed);
    AllRowsHaveKey(rows, c, keys);
  }

  // ---------------------------------------------------------------------
  // sort_values(ascending=False)

  /** The value a grouping is sorted by: the group total, or the group mean. */
  datatype Order = ByTotal | ByMean

  /** The sort key of a group; the mean is only taken of non-empty (observed) groups. */
  function Metric(g: Group, o: Order): real
  {
    match o
    case ByTotal => g.total as real
    case ByMean => if g.size == 0 then 0.0 else g.total as real / g.size as real
  }

  predicate SortedDesc(gs: seq<Group>, o: Order)
  {
    forall i, j :: 0 <= i < j < |gs| ==> Metric(gs[i], o) >= Metric(gs[j], o)
  }

  /** A group whose key is at least every key of a descending sequence can go in front of it. */
  lemma SortedCons(x: Group, t: seq<Group>, o: Order)
    requires SortedDesc(t, o)
    requires forall j :: 0 <= j < |t| ==> Metric(t[j], o) <= Metric(x, o)
    ensures SortedDesc([x] + t, o)
  {
    var r := [x] + t;
    forall i, j | 0 <= i < j < |r| ensures Metric(r[i], o) >= Metric(r[j], o) {
      assert r[j] == t[j - 1];
      if i > 0 {
        assert r[i] == t[i - 1];
      }
    }
  }

  /** Every group of `t` is `g` or a group of `gs`, and so no larger than `x` when `g` is not and `gs` holds no larger one. */
  lemma BoundedAfterInsert(x: Group, g: Group, gs: seq<Group>, t: seq<Group>, o: Order)
    requires multiset(t) == multiset(gs) + multiset{g}
    requires Metric(g, o) <= Metric(x, o)
    requires forall k :: 0 <= k < |gs| ==> Metric(gs[k], o) <= Metric(x, o)
    ensures forall j :: 0 <= j < |t| ==> Metric(t[j], o) <= Metric(x, o)
  {
    forall j | 0 <= j < |t| ensures Metric(t[j], o) <= Metric(x, o) {
      assert t[j] in multiset(t);
      if t[j] != g {
        assert t[j] in multiset(gs);
        var k :| 0 <= k < |gs| && gs[k] == t[j];
      }
    }
  }

  /** Places `g` into a descending sequence before the first group with a smaller key. */
  function Insert(g: Group, gs: seq<Group>, o: Order): (r: seq<Group>)
    requires SortedDesc(gs, o)
    ensures SortedDesc(r, o)
    ensures multiset(r) == multiset(gs) + multiset{g}
  {
    if gs == [] || Metric(g, o) >= Metric(gs[0], o) then
      SortedCons(g, gs, o);
      [g] + gs
    else
      var t := Insert(g, gs[1..], o);
      assert gs == [gs[0]] + gs[1..];
      BoundedAfterInsert(gs[0], g, gs[1..], t, o);
      SortedCons(gs[0], t, o);
      [gs[0]] + t
  }

  /** Inserting a group adds its total and size. */
  lemma {:induction false} InsertTotals(g: Group, gs: seq<Group>, o: Order)
    requires SortedDesc(gs, o)
    ensures Totals(Insert(g, gs, o)) == g.total + Totals(gs)
    ensures Sizes(Insert(g, gs, o)) == g.size + Sizes(gs)
  {
    if gs == [] || Metric(g, o) >= Metric(gs[0], o) {
      assert ([g] + gs)[1..] == gs;
    } else {
      InsertTotals(g, gs[1..], o);
      var t := Insert(g, gs[1..], o);
      assert ([gs[0]] + t)[1..] == t;
    }
  }

  /** Inserting a group whose key is new keeps the keys distinct. */
  lemma {:induction false} InsertKeysDistinct(g: Group, gs: seq<Group>, o: Order)
    requires SortedDesc(gs, o) && KeysDistinct(gs)
    requires forall x :: x in gs ==> x.key != g.key
    ensures KeysDistinct(Insert(g, gs, o))
  {
    if gs == [] || Metric(g, o) >= Metric(gs[0], o) {
      KeysDistinctCons(g, gs);
    } else {
      var t := Insert(g, gs[1..], o);
      InsertKeysDistinct(g, gs[1..], o);
      forall x | x in t ensures x.key != gs[0].key {
        assert x in multiset(t);
        if x != g {
          var k :| 0 <= k < |gs[1..]| && gs[1..][k] == x;
          assert gs[k + 1] == x;
        } else {
          assert gs[0] in gs;
        }
      }
      KeysDistinctCons(gs[0], t);
    }
  }

  /** `sort_values(ascending=False)`: the same groups, largest sort key first. */
  function SortDesc(gs: seq<Group>, o: Order): (r: seq<Group>)
    ensures SortedDesc(r, o)
    ensures multiset(r) == multiset(gs)
    ensures |r| == |gs|
    ensures Totals(r) == Totals(gs) && Sizes(r) == Sizes(gs)
  {
    if gs == [] then []
    else
      assert gs == [gs[0]] + gs[1..];
      var rest := SortDesc(gs[1..], o);
      InsertTotals(gs[0], rest, o);
      var r := Insert(gs[0], rest, o);
      assert |r| == |multiset(r)|;
      r
  }

  /** Sorting keeps exactly the same groups. */
  lemma SortDescSameGroups(gs: seq<Group>, o: Order, g: Group)
    ensures g in SortDesc(gs, o) <==> g in gs
  {
    var r := SortDesc(gs, o);
    assert g in r <==> g in multiset(r);
  }

  /** A key that has a group before sorting still has one after. */
  lemma SortDescKeepsKey(gs: seq<Group>, o: Order, k: string)
    requires exists g :: g in gs && g.key == k
    ensures exists g :: g in SortDesc(gs, o) && g.key == k
  {
    var g :| g in gs && g.key == k;
    SortDescSameGroups(gs, o, g);
  }

  /** Sorting groups with distinct keys keeps the keys distinct. */
  lemma {:induction false} SortDescKeysDistinct(gs: seq<Group>, o: Order)
    requires KeysDistinct(gs)
    ensures KeysDistinct(SortDesc(gs, o))
  {
    if gs != [] {
      var rest := SortDesc(gs[1..], o);
      SortDescKeysDistinct(gs[1..], o);
      forall x | x in rest ensures x.key != gs[0].key {
        SortDescSameGroups(gs[1..], o, x);
        var k :| 0 <= k < |gs[1..]| && gs[1..][k] == x;
        assert gs[k + 1] == x;
      }
      InsertKeysDistinct(gs[0], rest, o);
    }
  }

  /**
   * The groups of a sorted grouping are groups of categories with their
   * totals and sizes; every category that has rows (every category, when
   * empty ones are listed) has a group; over distinct categories no key
   * appears twice.
   */
  lemma SortedGroupingFacts(rows: seq<Day>, c: LabelColumn, keys: seq<string>, observed: bool, o: Order)
    ensures forall g :: g in SortDesc(GroupBy(rows, c, keys, observed), o) ==>
              g.key in keys && g.total == TotalWhere(rows, c, [g.key]) && g.size == SizeWhere(rows, c, [g.key]) &&
              (observed ==> g.size > 0)
    ensures forall k :: k in keys && (!observed || SizeWhere(rows, c, [k]) > 0) ==>
              exists g :: g in SortDesc(GroupBy(rows, c, keys, observed), o) && g.key == k
    ensures Distinct(keys) ==> KeysDistinct(SortDesc(GroupBy(rows, c, keys, observed), o))
  {
    var groups := GroupBy(rows, c, keys, observed);
    forall g | g in SortDesc(groups, o)
      ensures g.key in keys && g.total == TotalWhere(rows, c, [g.key]) && g.size == SizeWhere(rows, c, [g.key]) &&
              (observed ==> g.size > 0)
    {
      SortDescSameGroups(groups, o, g);
      var i :| 0 <= i < |groups| && groups[i] == g;
    }
    forall k | k in keys && (!observed || SizeWhere(rows, c, [k]) > 0)
      ensures exists g :: g in SortDesc(groups, o) && g.key == k
    {
      GroupByComplete(rows, c, keys, observed, k);
      SortDescKeepsKey(groups, o, k);
    }
    if Distinct(keys) {
      GroupByKeysDistinct(rows, c, keys, observed);
      SortDescKeysDistinct(groups, o);
    }
  }

  // ---------------------------------------------------------------------
  // The groupings of the main analysis page

  /**
   * The categories of the `season_name` column: mapping the categorical
   * `season` column one-to-one keeps it categorical, with one category per
   * season code present in the loaded table, in code order.
   */
  function SeasonCategories(all: seq<Day>): (cats: seq<string>)
    ensures Distinct(cats)
    ensures forall k :: k in cats <==> exists i :: 0 <= i < |all| && 1 <= all[i].raw.season <= 4 && k == SeasonOptions[all[i].raw.season - 1]
  {
    var present := seq(4, c requires 0 <= c < 4 => exists i :: 0 <= i < |all| && all[i].raw.season == c + 1);
    (if present[0] then ["Spring"] else []) + (if present[1] then ["Summer"] else []) +
    (if present[2] then ["Fall"] else []) + (if present[3] then ["Winter"] else [])
  }

  /**
   * `rentals_by_season`: the filtered daily rows grouped by season label, the
   * total count summed per group, sorted by total, largest first. `observed`
   * false (the default of pandas before 3.0) lists every category, true
   * (the default from pandas 3.0) only those that occur.
   */
  function RentalsBySeason(filtered: seq<Day>, cats: seq<string>, observed: bool): (gs: seq<Group>)
    ensures SortedDesc(gs, ByTotal)
    ensures |gs| <= |cats| && (!observed ==> |gs| == |cats|)
    ensures forall g :: g in gs ==> g.key in cats && g.total == TotalWhere(filtered, SeasonColumn, [g.key])
    ensures forall k :: k in cats && (!observed || SizeWhere(filtered, SeasonColumn, [k]) > 0) ==> exists g :: g in gs && g.key == k
    ensures Distinct(cats) ==> KeysDistinct(gs)
  {
    var groups := GroupBy(filtered, SeasonColumn, cats, observed);
    SortedGroupingFacts(filtered, SeasonColumn, cats, observed, ByTotal);
    var gs := SortDesc(groups, ByTotal);
    gs
  }

  /** Every row of a filtered daily table carries a season category of the loaded table. */
  lemma FilteredSeasonsAreCategories(all: seq<Day>, seasons: seq<string>, weathers: seq<string>)
    requires forall i :: 0 <= i < |all| ==> all[i] == DeriveDay(all[i].raw)
    ensures forall d :: d in FilterDaily(all, seasons, weathers) ==> HasKey(d, SeasonColumn, SeasonCategories(all))
  {
    var filtered := FilterDaily(all, seasons, weathers);
    var cats := SeasonCategories(all);
    forall d | d in filtered ensures HasKey(d, SeasonColumn, cats) {
      FilterDailyMembership(all, seasons, weathers, d);
      var j :| 0 <= j < |all| && all[j] == d;
      assert d.seasonName == SeasonName(d.raw.season);
    }
  }

  /**
   * Grouping the filtered daily table by season: the group totals add up to
   * the total count shown on the overview page, and unless `observed` there
   * is a group for every category of the loaded table.
   */
  lemma RentalsBySeasonAddsUp(all: seq<Day>, seasons: seq<string>, weathers: seq<string>, observed: bool)
    requires forall i :: 0 <= i < |all| ==> all[i] == DeriveDay(all[i].raw)
    ensures var filtered := FilterDaily(all, seasons, weathers);
            var gs := RentalsBySeason(filtered, SeasonCategories(all), observed);
            Totals(gs) == Sum(filtered, Cnt) && (!observed ==> |gs| == |SeasonCategories(all)|)
  {
    var filtered := FilterDaily(all, seasons, weathers);
    FilteredSeasonsAreCategories(all, seasons, weathers);
    assert forall i :: 0 <= i < |filtered| ==> filtered[i] in filtered;
    GroupTotalsAddUp(filtered, SeasonColumn, SeasonCategories(all), observed);
  }

  /** With `observed`, each season group is a selected season that occurs among the filtered rows. */
  lemma RentalsBySeasonObserved(all: seq<Day>, seasons: seq<string>, weathers: seq<string>, g: Group)
    requires g in RentalsBySeason(FilterDaily(all, seasons, weathers), SeasonCategories(all), true)
    ensures g.key in seasons && g.size > 0
    ensures exists d :: d in FilterDaily(all, seasons, weathers) && d.seasonName == Some(g.key)
  {
    var filtered := FilterDaily(all, seasons, weathers);
    var cats := SeasonCategories(all);
    var groups := GroupBy(filtered, SeasonColumn, cats, true);
    SortDescSameGroups(groups, ByTotal, g);
    var j :| 0 <= j < |groups| && groups[j] == g;
    KeyOccurs(filtered, SeasonColumn, g.key);
    var i :| 0 <= i < |filtered| && filtered[i].seasonName == Some(g.key);
    assert filtered[i] in filtered;
  }

  /** A category with at least one row is the label of some row. */
  lemma {:induction false} KeyOccurs(rows: seq<Day>, c: LabelColumn, k: string)
    requires SizeWhere(rows, c, [k]) > 0
    ensures exists i :: 0 <= i < |rows| && LabelOf(rows[i], c) == Some(k)
  {
    if !HasKey(rows[0], c, [k]) {
      KeyOccurs(rows[1..], c, k);
      var i :| 0 <= i < |rows[1..]| && LabelOf(rows[1..][i], c) == Some(k);
      assert LabelOf(rows[i + 1], c) == Some(k);
    }
  }

  /** A category that labels some row has at least one row. */
  lemma {:induction false} KeyCounted(rows: seq<Day>, c: LabelColumn, k: string, i: nat)
    requires i < |rows| && LabelOf(rows[i], c) == Some(k)
    ensures SizeWhere(rows, c, [k]) > 0
  {
    if i > 0 {
      KeyCounted(rows[1..], c, k, i - 1);
    }
  }

  /** The weather labels in the order groupby lists string keys: sorted. */
  const WeatherKeys: seq<string> := ["Clear/Partly Cloudy", "Heavy Rain/Snow", "Light Snow/Rain", "Mist/Cloudy"]

  /** The four weather labels are distinct. */
  lemma WeatherKeysDistinct()
    ensures Distinct(WeatherKeys)
  {
  }

  /**
   * `rentals_by_weather`: the filtered daily rows grouped by weather label
   * (a plain string column, so only labels that occur), with the sum and the
   * number of rows per group, sorted by mean count, largest first.
   */
  function RentalsByWeather(filtered: seq<Day>): (gs: seq<Group>)
    ensures SortedDesc(gs, ByMean)
    ensures |gs| <= 4
    ensures forall g :: g in gs ==>
              (g.key in WeatherKeys && g.size > 0 &&
               g.total == TotalWhere(filtered, WeatherColumn, [g.key]) && g.size == SizeWhere(filtered, WeatherColumn, [g.key]))
    ensures forall k :: k in WeatherKeys && SizeWhere(filtered, WeatherColumn, [k]) > 0 ==> exists g :: g in gs && g.key == k
    ensures KeysDistinct(gs)
  {
    var groups := GroupBy(filtered, WeatherColumn, WeatherKeys, true);
    SortedGroupingFacts(filtered, WeatherColumn, WeatherKeys, true, ByMean);
    WeatherKeysDistinct();
    var gs := SortDesc(groups, ByMean);
    gs
  }

  /** Every weather label that occurs among the rows has its group. */
  lemma RentalsByWeatherListsEveryLabel(filtered: seq<Day>, i: nat)
    requires i < |filtered| && filtered[i].weatherName.Some? && filtered[i].weatherName.value in WeatherKeys
    ensures exists g :: g in RentalsByWeather(filtered) && Some(g.key) == filtered[i].weatherName
  {
    var k := filtered[i].weatherName.value;
    KeyCounted(filtered, WeatherColumn, k, i);
    GroupByComplete(filtered, WeatherColumn, WeatherKeys, true, k);
    SortDescKeepsKey(GroupBy(filtered, WeatherColumn, WeatherKeys, true), ByMean, k);
  }

  /** The weather groups of a filtered table account for every filtered row and its whole count. */
  lemma RentalsByWeatherAddsUp(all: seq<Day>, seasons: seq<string>, weathers: seq<string>)
    requires forall i :: 0 <= i < |all| ==> all[i] == DeriveDay(all[i].raw)
    ensures var filtered := FilterDaily(all, seasons, weathers);
            Totals(RentalsByWeather(filtered)) == Sum(filtered, Cnt) &&
            Sizes(RentalsByWeather(filtered)) == |filtered|
  {
    var filtered := FilterDaily(all, seasons, weathers);
    forall i | 0 <= i < |filtered| ensures HasKey(filtered[i], WeatherColumn, WeatherKeys) {
      var d := filtered[i];
      FilterDailyMembership(all, seasons, weathers, d);
      var j :| 0 <= j < |all| && all[j] == d;
      assert d.weatherName == WeatherName(d.raw.weathersit);
    }
    WeatherKeysDistinct();
    GroupTotalsAddUp(filtered, WeatherColumn, WeatherKeys, true);
  }

  // ---------------------------------------------------------------------
  // Demand tiers

  /** The number of days in one demand tier (`len(df[df['demand_level'] == level])`). */
  function CountLevel(levels: seq<DemandLevel>, l: DemandLevel): (n: nat)
    ensures n <= |levels|
    ensures n > 0 <==> l in levels
  {
    if levels == [] then 0 else (if levels[0] == l then 1 else 0) + CountLevel(levels[1..], l)
  }

  /** The Low, Medium and High day counts add up to the number of days. */
  lemma {:induction false} DemandCountsAddUp(levels: seq<DemandLevel>)
    ensures CountLevel(levels, LowDemand) + CountLevel(levels, MediumDemand) + CountLevel(levels, HighDemand) == |levels|
  {
    if levels != [] {
      DemandCountsAddUp(levels[1..]);
    }
  }

  /**
   * When `cut` accepts the demand edges, every filtered day lands in exactly
   * one tier, so the three tier counts on the segmentation page add up to
   * the number of filtered days.
   */
  lemma DemandTiersPartition(rows: seq<Day>, q1: real, q2: real)
    requires DemandLevels(rows, q1, q2).Ok?
    ensures var levels := DemandLevels(rows, q1, q2).value;
            CountLevel(levels, LowDemand) + CountLevel(levels, MediumDemand) + CountLevel(levels, HighDemand) == |rows|
  {
    DemandCountsAddUp(DemandLevels(rows, q1, q2).value);
  }
}
