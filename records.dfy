/**
 * The rows of the two tables the dashboard loads (daily and hourly bike
 * rentals), the columns `load_data` derives from them, and the removal of
 * duplicate rows that precedes every derivation.
 */
module Records {
  import opened Wrappers

  /** One line of day.csv, restricted to the columns the dashboard reads. */
  datatype RawDay = RawDay(
    instant: int,
    dteday: string,
    season: int,
    weathersit: int,
    weekday: int,
    temp: real,        // normalised temperature, nominally in [0, 1]
    casual: nat,
    registered: nat,
    cnt: nat)

  /** One line of hour.csv, restricted to the columns the dashboard reads. */
  datatype RawHour = RawHour(
    instant: int,
    dteday: string,
    season: int,
    hr: int,
    weekday: int,
    temp: real,
    cnt: nat)

  /** A daily row after `load_data`: the raw columns plus the derived ones. */
  datatype Day = Day(raw: RawDay, tempCelsius: real, seasonName: Option<string>, weatherName: Option<string>)

  /** An hourly row after `load_data`; hourly rows get no weather label. */
  datatype Hour = Hour(raw: RawHour, tempCelsius: real, seasonName: Option<string>)

  /** The dictionary `season_labels`. */
  const SeasonLabels: map<int, string> := map[1 := "Spring", 2 := "Summer", 3 := "Fall", 4 := "Winter"]

  /** The dictionary `weather_labels`. */
  const WeatherLabels: map<int, string> :=
    map[1 := "Clear/Partly Cloudy", 2 := "Mist/Cloudy", 3 := "Light Snow/Rain", 4 := "Heavy Rain/Snow"]

  /** The options (and defaults) of the season multiselect in the sidebar. */
  const SeasonOptions: seq<string> := ["Spring", "Summer", "Fall", "Winter"]

  /** The options (and defaults) of the weather multiselect; "Heavy Rain/Snow" is not offered. */
  const WeatherOptions: seq<string> := ["Clear/Partly Cloudy", "Mist/Cloudy", "Light Snow/Rain"]

  /** `Series.map(dict)`: the label of a code, absent (NaN) for a code the dictionary lacks. */
  function MapCode(labels: map<int, string>, code: int): (r: Option<string>)
    ensures r.Some? <==> code in labels
    ensures r.Some? ==> r.value == labels[code]
  {
    if code in labels then Some(labels[code]) else None
  }

  /** The season label of a code: exactly codes 1 to 4 get one, and it is a sidebar option. */
  function SeasonName(code: int): (r: Option<string>)
    ensures r.Some? <==> 1 <= code <= 4
    ensures r.Some? ==> r.value in SeasonOptions && r.value == SeasonOptions[code - 1]
  {
    MapCode(SeasonLabels, code)
  }

  /** The weather label of a code: exactly codes 1 to 4 get one; codes 1 to 3 are sidebar options. */
  function WeatherName(code: int): (r: Option<string>)
    ensures r.Some? <==> 1 <= code <= 4
    ensures 1 <= code <= 3 ==> r.Some? && r.value == WeatherOptions[code - 1]
    ensures code == 4 ==> r == Some("Heavy Rain/Snow") && r.value !in WeatherOptions
  {
    MapCode(WeatherLabels, code)
  }

  /** Two codes with the same season label are the same code. */
  lemma SeasonNameInjective(c1: int, c2: int)
    requires SeasonName(c1).Some? && SeasonName(c1) == SeasonName(c2)
    ensures c1 == c2
  {
  }

  /** Two codes with the same weather label are the same code. */
  lemma WeatherNameInjective(c1: int, c2: int)
    requires WeatherName(c1).Some? && WeatherName(c1) == WeatherName(c2)
    ensures c1 == c2
  {
  }

  /** `temp_celsius = temp * 41`: 41 is the dataset's normalisation constant. */
  function Celsius(temp: real): (c: real)
    ensures c / 41.0 == temp
    ensures 0.0 <= temp <= 1.0 ==> 0.0 <= c <= 41.0
    ensures temp == 0.0 ==> c == 0.0
  {
    temp * 41.0
  }

  /** A higher normalised temperature never gives a lower Celsius temperature. */
  lemma CelsiusMonotone(t1: real, t2: real)
    requires t1 <= t2
    ensures Celsius(t1) <= Celsius(t2)
  {
  }

  /** The derived columns of a daily row. */
  function DeriveDay(r: RawDay): (d: Day)
    ensures d.raw == r
    ensures d.tempCelsius == Celsius(r.temp)
    ensures d.seasonName.Some? <==> 1 <= r.season <= 4
    ensures 1 <= r.season <= 4 ==> d.seasonName == Some(SeasonOptions[r.season - 1])
    ensures d.weatherName.Some? <==> 1 <= r.weathersit <= 4
    ensures d.weatherName.Some? ==> d.weatherName.value == WeatherLabels[r.weathersit]
  {
    Day(r, Celsius(r.temp), SeasonName(r.season), WeatherName(r.weathersit))
  }

  /** The derived columns of an hourly row (no weather label is mapped for hours). */
  function DeriveHour(r: RawHour): (h: Hour)
    ensures h.raw == r
    ensures h.tempCelsius == Celsius(r.temp)
    ensures h.seasonName.Some? <==> 1 <= r.season <= 4
    ensures 1 <= r.season <= 4 ==> h.seasonName == Some(SeasonOptions[r.season - 1])
  {
    Hour(r, Celsius(r.temp), SeasonName(r.season))
  }

  // ---------------------------------------------------------------------
  // drop_duplicates(): keep the first occurrence of every row, in order

  /** No value occurs twice. */
  predicate Distinct<T(==,!new)>(s: seq<T>)
  {
    forall i, j :: 0 <= i < j < |s| ==> s[i] != s[j]
  }

  /** The position of the first occurrence of `x` in `s`. */
  function FirstIndex<T(==,!new)>(s: seq<T>, x: T): (k: nat)
    requires x in s
    ensures k < |s| && s[k] == x
    ensures forall j :: 0 <= j < k ==> s[j] != x
  {
    if s[0] == x then 0 else 1 + FirstIndex(s[1..], x)
  }

  /**
   * The rows of `s` without repeats. Each row is kept at its first
   * occurrence, so the rows kept follow their first positions in `s`.
   */
  function Dedup<T(==,!new)>(s: seq<T>): (r: seq<T>)
    ensures forall x :: x in r <==> x in s
    ensures Distinct(r)
    ensures |r| <= |s|
  {
    if s == [] then []
    else
      var p := Dedup(s[..|s| - 1]);
      if s[|s| - 1] in p then p else p + [s[|s| - 1]]
  }

  /** A first occurrence in a prefix is the first occurrence in the whole sequence. */
  lemma {:induction false} FirstIndexPrefix<T(!new)>(s: seq<T>, n: nat, x: T)
    requires n <= |s| && x in s[..n]
    ensures FirstIndex(s[..n], x) == FirstIndex(s, x)
  {
    var k := FirstIndex(s[..n], x);
    assert s[k] == x;
  }

  /** drop_duplicates keeps rows in the order of their first occurrences. */
  lemma {:induction false} DedupKeepsFirstOccurrenceOrder<T(!new)>(s: seq<T>, i: nat, j: nat)
    requires i < j < |Dedup(s)|
    ensures FirstIndex(s, Dedup(s)[i]) < FirstIndex(s, Dedup(s)[j])
    decreases |s|
  {
    var init := s[..|s| - 1];
    var p := Dedup(init);
    var r := Dedup(s);
    assert init + [s[|s| - 1]] == s;
    if j < |p| {
      assert r[i] == p[i] && r[j] == p[j];
      DedupKeepsFirstOccurrenceOrder(init, i, j);
      FirstIndexPrefix(s, |s| - 1, p[i]);
      FirstIndexPrefix(s, |s| - 1, p[j]);
    } else {
      // r[j] is the last row of s, which does not occur earlier
      assert r == p + [s[|s| - 1]] && j == |p|;
      assert r[i] == p[i];
      assert p[i] in init;
      FirstIndexPrefix(s, |s| - 1, p[i]);
      assert s[|s| - 1] !in init;
    }
  }

  /** A table without duplicate rows is left as it is; so drop_duplicates is idempotent. */
  lemma {:induction false} DedupOfDistinct<T(!new)>(s: seq<T>)
    requires Distinct(s)
    ensures Dedup(s) == s
  {
    if s != [] {
      var init := s[..|s| - 1];
      assert Distinct(init);
      DedupOfDistinct(init);
      assert s[|s| - 1] !in init;
      assert init + [s[|s| - 1]] == s;
    }
  }

  /** Removing duplicates twice is the same as removing them once. */
  lemma DedupIdempotent<T(!new)>(s: seq<T>)
    ensures Dedup(Dedup(s)) == Dedup(s)
  {
    DedupOfDistinct(Dedup(s));
  }

  /** `load_data` on the daily table: drop duplicate rows, then derive the label and Celsius columns. */
  function LoadDaily(raw: seq<RawDay>): (days: seq<Day>)
    ensures |days| <= |raw|
    ensures forall i :: 0 <= i < |days| ==> days[i].raw in raw && days[i] == DeriveDay(days[i].raw)
    ensures forall r :: r in raw ==> DeriveDay(r) in days
    ensures forall i, j :: 0 <= i < j < |days| ==> days[i].raw != days[j].raw
    ensures forall i, j :: 0 <= i < j < |days| ==> FirstIndex(raw, days[i].raw) < FirstIndex(raw, days[j].raw)
  {
    var rows := Dedup(raw);
    var days := seq(|rows|, i requires 0 <= i < |rows| => DeriveDay(rows[i]));
    forall i, j | 0 <= i < j < |days|
      ensures FirstIndex(raw, days[i].raw) < FirstIndex(raw, days[j].raw)
    {
      DedupKeepsFirstOccurrenceOrder(raw, i, j);
    }
    assert forall r :: r in raw ==> DeriveDay(r) in days by {
      forall r | r in raw ensures DeriveDay(r) in days {
        var k := FirstIndex(rows, r);
        assert days[k] == DeriveDay(r);
      }
    }
    days
  }

  /** `load_data` on the hourly table: drop duplicate rows, then derive the season label and Celsius columns. */
  function LoadHourly(raw: seq<RawHour>): (hours: seq<Hour>)
    ensures |hours| <= |raw|
    ensures forall i :: 0 <= i < |hours| ==> hours[i].raw in raw && hours[i] == DeriveHour(hours[i].raw)
    ensures forall r :: r in raw ==> DeriveHour(r) in hours
    ensures forall i, j :: 0 <= i < j < |hours| ==> hours[i].raw != hours[j].raw
    ensures forall i, j :: 0 <= i < j < |hours| ==> FirstIndex(raw, hours[i].raw) < FirstIndex(raw, hours[j].raw)
  {
    var rows := Dedup(raw);
    var hours := seq(|rows|, i requires 0 <= i < |rows| => DeriveHour(rows[i]));
    forall i, j | 0 <= i < j < |hours|
      ensures FirstIndex(raw, hours[i].raw) < FirstIndex(raw, hours[j].raw)
    {
      DedupKeepsFirstOccurrenceOrder(raw, i, j);
    }
    assert forall r :: r in raw ==> DeriveHour(r) in hours by {
      forall r | r in raw ensures DeriveHour(r) in hours {
        var k := FirstIndex(rows, r);
        assert hours[k] == DeriveHour(r);
      }
    }
    hours
  }
}
