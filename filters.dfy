/**
 * The sidebar filters: daily rows are kept when both their season label and
 * their weather label are selected, hourly rows when their season label is.
 * Both are boolean masks, so the rows kept stay in their original order.
 */
module Filters {
  import opened Wrappers
  import opened Records

  /** `isin`: a label passes when it is present and selected; an absent (NaN) label never passes. */
  function Selected(name: Option<string>, selection: seq<string>): (b: bool)
    ensures name.None? ==> !b
    ensures forall v :: name == Some(v) ==> (b <==> v in selection)
  {
    name.Some? && name.value in selection
  }

  /** The mask of `day_filtered`. */
  function DayPasses(d: Day, seasons: seq<string>, weathers: seq<string>): (b: bool)
    ensures d == DeriveDay(d.raw) ==>
              (b <==> 1 <= d.raw.season <= 4 && SeasonOptions[d.raw.season - 1] in seasons &&
                      1 <= d.raw.weathersit <= 4 && WeatherLabels[d.raw.weathersit] in weathers)
  {
    Selected(d.seasonName, seasons) && Selected(d.weatherName, weathers)
  }

  /** The mask of `hour_filtered`: the season label only. */
  function HourPasses(h: Hour, seasons: seq<string>): (b: bool)
    ensures h == DeriveHour(h.raw) ==> (b <==> 1 <= h.raw.season <= 4 && SeasonOptions[h.raw.season - 1] in seasons)
  {
    Selected(h.seasonName, seasons)
  }

  /** `day_filtered`: the daily rows that pass the mask, in their original order. */
  function FilterDaily(rows: seq<Day>, seasons: seq<string>, weathers: seq<string>): (r: seq<Day>)
    ensures |r| <= |rows|
    ensures forall i :: 0 <= i < |r| ==> DayPasses(r[i], seasons, weathers)
  {
    if rows == [] then []
    else (if DayPasses(rows[0], seasons, weathers) then [rows[0]] else []) + FilterDaily(rows[1..], seasons, weathers)
  }

  /** `hour_filtered`: the hourly rows whose season label is selected, in their original order. */
  function FilterHourly(rows: seq<Hour>, seasons: seq<string>): (r: seq<Hour>)
    ensures |r| <= |rows|
    ensures forall i :: 0 <= i < |r| ==> HourPasses(r[i], seasons)
  {
    if rows == [] then []
    else (if HourPasses(rows[0], seasons) then [rows[0]] else []) + FilterHourly(rows[1..], seasons)
  }

  /** A daily row that passes is kept as often as it occurs; any other row is dropped. */
  lemma {:induction false} FilterDailyMultiplicity(rows: seq<Day>, seasons: seq<string>, weathers: seq<string>, d: Day)
    ensures multiset(FilterDaily(rows, seasons, weathers))[d] == if DayPasses(d, seasons, weathers) then multiset(rows)[d] else 0
  {
    if rows != [] {
      FilterDailyMultiplicity(rows[1..], seasons, weathers, d);
      assert rows == [rows[0]] + rows[1..];
    }
  }

  /** An hourly row whose season is selected is kept as often as it occurs; any other row is dropped. */
  lemma {:induction false} FilterHourlyMultiplicity(rows: seq<Hour>, seasons: seq<string>, h: Hour)
    ensures multiset(FilterHourly(rows, seasons))[h] == if HourPasses(h, seasons) then multiset(rows)[h] else 0
  {
    if rows != [] {
      FilterHourlyMultiplicity(rows[1..], seasons, h);
      assert rows == [rows[0]] + rows[1..];
    }
  }

  /** A daily row survives exactly when it is in the table, its season is selected and its weather is selected. */
  lemma FilterDailyMembership(rows: seq<Day>, seasons: seq<string>, weathers: seq<string>, d: Day)
    ensures d in FilterDaily(rows, seasons, weathers) <==>
            d in rows && d.seasonName.Some? && d.seasonName.value in seasons && d.weatherName.Some? && d.weatherName.value in weathers
  {
    FilterDailyMultiplicity(rows, seasons, weathers, d);
  }

  /** An hourly row survives exactly when it is in the table and its season is selected. */
  lemma FilterHourlyMembership(rows: seq<Hour>, seasons: seq<string>, h: Hour)
    ensures h in FilterHourly(rows, seasons) <==> h in rows && h.seasonName.Some? && h.seasonName.value in seasons
  {
    FilterHourlyMultiplicity(rows, seasons, h);
  }

  /** Filtering keeps the original order: filtering a concatenation concatenates the filtered parts. */
  lemma {:induction false} FilterDailyConcat(a: seq<Day>, b: seq<Day>, seasons: seq<string>, weathers: seq<string>)
    ensures FilterDaily(a + b, seasons, weathers) == FilterDaily(a, seasons, weathers) + FilterDaily(b, seasons, weathers)
  {
    if a != [] {
      assert (a + b)[0] == a[0] && (a + b)[1..] == a[1..] + b;
      FilterDailyConcat(a[1..], b, seasons, weathers);
      var head := if DayPasses(a[0], seasons, weathers) then [a[0]] else [];
      calc {
        FilterDaily(a + b, seasons, weathers);
        head + FilterDaily(a[1..] + b, seasons, weathers);
        head + (FilterDaily(a[1..], seasons, weathers) + FilterDaily(b, seasons, weathers));
        (head + FilterDaily(a[1..], seasons, weathers)) + FilterDaily(b, seasons, weathers);
      }
    } else {
      assert a + b == b;
    }
  }

  /** The hourly filter keeps the original order. */
  lemma {:induction false} FilterHourlyConcat(a: seq<Hour>, b: seq<Hour>, seasons: seq<string>)
    ensures FilterHourly(a + b, seasons) == FilterHourly(a, seasons) + FilterHourly(b, seasons)
  {
    if a != [] {
      assert (a + b)[0] == a[0] && (a + b)[1..] == a[1..] + b;
      FilterHourlyConcat(a[1..], b, seasons);
      var head := if HourPasses(a[0], seasons) then [a[0]] else [];
      calc {
        FilterHourly(a + b, seasons);
        head + FilterHourly(a[1..] + b, seasons);
        head + (FilterHourly(a[1..], seasons) + FilterHourly(b, seasons));
        (head + FilterHourly(a[1..], seasons)) + FilterHourly(b, seasons);
      }
    } else {
      assert a + b == b;
    }
  }

  /** The daily filter returns its input exactly when every row passes. */
  lemma {:induction false} FilterDailyKeepsAll(rows: seq<Day>, seasons: seq<string>, weathers: seq<string>)
    ensures FilterDaily(rows, seasons, weathers) == rows <==> forall i :: 0 <= i < |rows| ==> DayPasses(rows[i], seasons, weathers)
  {
    if rows != [] {
      FilterDailyKeepsAll(rows[1..], seasons, weathers);
      assert rows == [rows[0]] + rows[1..];
      if !DayPasses(rows[0], seasons, weathers) {
        assert |FilterDaily(rows, seasons, weathers)| < |rows|;
      }
    }
  }

  /** The hourly filter returns its input exactly when every row passes. */
  lemma {:induction false} FilterHourlyKeepsAll(rows: seq<Hour>, seasons: seq<string>)
    ensures FilterHourly(rows, seasons) == rows <==> forall i :: 0 <= i < |rows| ==> HourPasses(rows[i], seasons)
  {
    if rows != [] {
      FilterHourlyKeepsAll(rows[1..], seasons);
      assert rows == [rows[0]] + rows[1..];
      if !HourPasses(rows[0], seasons) {
        assert |FilterHourly(rows, seasons)| < |rows|;
      }
    }
  }

  /** Filtering an already filtered table with the same selection changes nothing. */
  lemma FilterDailyIdempotent(rows: seq<Day>, seasons: seq<string>, weathers: seq<string>)
    ensures FilterDaily(FilterDaily(rows, seasons, weathers), seasons, weathers) == FilterDaily(rows, seasons, weathers)
  {
    FilterDailyKeepsAll(FilterDaily(rows, seasons, weathers), seasons, weathers);
  }

  /** Filtering hourly rows twice with the same selection is filtering once. */
  lemma FilterHourlyIdempotent(rows: seq<Hour>, seasons: seq<string>)
    ensures FilterHourly(FilterHourly(rows, seasons), seasons) == FilterHourly(rows, seasons)
  {
    FilterHourlyKeepsAll(FilterHourly(rows, seasons), seasons);
  }

  /** An empty season or weather selection leaves no daily row. */
  lemma {:induction false} FilterDailyEmptySelection(rows: seq<Day>, seasons: seq<string>, weathers: seq<string>)
    requires seasons == [] || weathers == []
    ensures FilterDaily(rows, seasons, weathers) == []
  {
    if rows != [] {
      FilterDailyEmptySelection(rows[1..], seasons, weathers);
      assert !DayPasses(rows[0], seasons, weathers);
    }
  }

  /** An empty season selection leaves no hourly row. */
  lemma {:induction false} FilterHourlyEmptySelection(rows: seq<Hour>)
    ensures FilterHourly(rows, []) == []
  {
    if rows != [] {
      FilterHourlyEmptySelection(rows[1..]);
      assert !HourPasses(rows[0], []);
    }
  }

  /**
   * With the weather choices the sidebar offers, a surviving daily row has a
   * season code 1 to 4 and a weather code 1 to 3: unmapped codes never pass,
   * and "Heavy Rain/Snow" (code 4) cannot be selected.
   */
  lemma FilterDailyOnlyOfferedCodes(rows: seq<Day>, seasons: seq<string>, weathers: seq<string>, d: Day)
    requires forall i :: 0 <= i < |rows| ==> rows[i] == DeriveDay(rows[i].raw)
    requires forall w :: w in weathers ==> w in WeatherOptions
    requires d in FilterDaily(rows, seasons, weathers)
    ensures 1 <= d.raw.season <= 4 && 1 <= d.raw.weathersit <= 3
  {
    FilterDailyMembership(rows, seasons, weathers, d);
    var i :| 0 <= i < |rows| && rows[i] == d;
    assert d.weatherName == WeatherName(d.raw.weathersit);
  }

  /** A derived daily row passes the full sidebar selection exactly when its season code is 1 to 4 and its weather code 1 to 3. */
  lemma DayPassesAllOptions(d: Day)
    requires d == DeriveDay(d.raw)
    ensures DayPasses(d, SeasonOptions, WeatherOptions) <==> 1 <= d.raw.season <= 4 && 1 <= d.raw.weathersit <= 3
  {
    if 1 <= d.raw.weathersit <= 3 {
      assert d.weatherName.value == WeatherOptions[d.raw.weathersit - 1];
    }
  }

  /** Every season code is 1 to 4 and every weather code 1 to 3: what the sidebar options can select. */
  predicate OfferedCodes(rows: seq<Day>)
  {
    forall i :: 0 <= i < |rows| ==> 1 <= rows[i].raw.season <= 4 && 1 <= rows[i].raw.weathersit <= 3
  }

  /** Under the full sidebar selection, every row of a table whose codes are all offered passes. */
  lemma OfferedRowsPass(rows: seq<Day>)
    requires forall i :: 0 <= i < |rows| ==> rows[i] == DeriveDay(rows[i].raw)
    requires OfferedCodes(rows)
    ensures forall i :: 0 <= i < |rows| ==> DayPasses(rows[i], SeasonOptions, WeatherOptions)
  {
    forall i | 0 <= i < |rows| ensures DayPasses(rows[i], SeasonOptions, WeatherOptions) {
      DayPassesAllOptions(rows[i]);
    }
  }

  /** With every sidebar option selected, a table whose codes are all offered is kept whole. */
  lemma FilterDailyKeepsOffered(rows: seq<Day>)
    requires forall i :: 0 <= i < |rows| ==> rows[i] == DeriveDay(rows[i].raw)
    requires OfferedCodes(rows)
    ensures FilterDaily(rows, SeasonOptions, WeatherOptions) == rows
  {
    OfferedRowsPass(rows);
    FilterDailyKeepsAll(rows, SeasonOptions, WeatherOptions);
  }

  /** With every sidebar option selected, a row with an unmapped season or a weather code of 4 is still dropped. */
  lemma FilterDailyDropsUnoffered(rows: seq<Day>, i: nat)
    requires i < |rows| && rows[i] == DeriveDay(rows[i].raw)
    requires !(1 <= rows[i].raw.season <= 4 && 1 <= rows[i].raw.weathersit <= 3)
    ensures rows[i] !in FilterDaily(rows, SeasonOptions, WeatherOptions)
  {
    DayPassesAllOptions(rows[i]);
    FilterDailyMembership(rows, SeasonOptions, WeatherOptions, rows[i]);
  }

  /** Selecting every season keeps an hourly table unchanged exactly when all its season codes are 1 to 4. */
  lemma FilterHourlyAllOptions(rows: seq<Hour>)
    requires forall i :: 0 <= i < |rows| ==> rows[i] == DeriveHour(rows[i].raw)
    ensures FilterHourly(rows, SeasonOptions) == rows <==> forall i :: 0 <= i < |rows| ==> 1 <= rows[i].raw.season <= 4
  {
    FilterHourlyKeepsAll(rows, SeasonOptions);
  }
}
