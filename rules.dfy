/**
 * The categorical rules the segmentation pages add as columns: the day type,
 * the weather quality and the composite condition cluster.
 */
module Rules {
  import opened Wrappers
  import opened Records
  import opened Binning

  /** The values of `day_type`. */
  datatype DayKind = Weekday | Weekend

  /** `day_type`: weekday indices 0 and 6 are the weekend, every other index a weekday. */
  function DayType(weekday: int): (r: DayKind)
    ensures r == Weekend <==> weekday == 0 || weekday == 6
    ensures r == Weekday <==> weekday != 0 && weekday != 6
  {
    if weekday in [0, 6] then Weekend else Weekday
  }

  /** The values of `weather_quality`. */
  datatype Quality = Good | Fair | Bad

  /** `weather_quality`: code 1 is good, code 2 fair, and any other code bad. */
  function WeatherQuality(code: int): (r: Quality)
    ensures r == Good <==> code == 1
    ensures r == Fair <==> code == 2
    ensures r == Bad <==> code != 1 && code != 2
  {
    if code == 1 then Good else if code == 2 then Fair else Bad
  }

  /** Of the week's indices 0 to 6, exactly 0 and 6 are weekend days. */
  lemma WeekendDays()
    ensures (set w | 0 <= w < 7 && DayType(w) == Weekend) == {0, 6}
  {
  }

  /**
   * The weather quality agrees with the weather label: good is "Clear/Partly
   * Cloudy", fair is "Mist/Cloudy", and bad covers the two other labels and
   * the codes without a label.
   */
  lemma WeatherQualityOfLabel(code: int)
    ensures WeatherQuality(code) == Good <==> WeatherName(code) == Some("Clear/Partly Cloudy")
    ensures WeatherQuality(code) == Fair <==> WeatherName(code) == Some("Mist/Cloudy")
    ensures WeatherQuality(code) == Bad <==>
            WeatherName(code) == Some("Light Snow/Rain") || WeatherName(code) == Some("Heavy Rain/Snow") || WeatherName(code) == None
  {
  }

  /** `temp_level.astype(str)`: the label, or "nan" for a temperature in no bin. */
  function LevelText(l: Option<TempLevel>): (t: string)
    ensures LevelFromText(t) == Some(l)
  {
    match l
    case Some(Cold) => "Cold"
    case Some(Moderate) => "Moderate"
    case Some(Hot) => "Hot"
    case None => "nan"
  }

  function QualityText(q: Quality): string
  {
    match q
    case Good => "Good"
    case Fair => "Fair"
    case Bad => "Bad"
  }

  /**
   * `condition_cluster`: the temperature-level text, " + ", then the weather
   * quality; the key splits back into the level and the quality.
   */
  function ClusterKey(l: Option<TempLevel>, q: Quality): (k: string)
    ensures ParseClusterKey(k) == Some((l, q))
  {
    JoinedSplitsBack(l, q);
    LevelText(l) + " + " + QualityText(q)
  }

  /** The cluster key of a daily row: it splits into the row's temperature level and weather quality. */
  function RowClusterKey(celsius: real, weathersit: int): (k: string)
    ensures ParseClusterKey(k) == Some((TempLevelOf(celsius), WeatherQuality(weathersit)))
  {
    ClusterKey(TempLevelOf(celsius), WeatherQuality(weathersit))
  }

  /** The temperature level named by a text, if the text names one ("nan" names none). */
  function LevelFromText(s: string): Option<Option<TempLevel>>
  {
    if s == "Cold" then Some(Some(Cold))
    else if s == "Moderate" then Some(Some(Moderate))
    else if s == "Hot" then Some(Some(Hot))
    else if s == "nan" then Some(None)
    else None
  }

  /** A text that names a level is that level's text. */
  lemma LevelFromTextSound(s: string)
    requires LevelFromText(s).Some?
    ensures LevelText(LevelFromText(s).value) == s
  {
  }

  /** Splits a cluster key back into its temperature level and weather quality. */
  function ParseClusterKey(k: string): (r: Option<(Option<TempLevel>, Quality)>)
  {
    var q :=
      if |k| >= 7 && k[|k| - 7..] == " + Good" then Some((Good, 7))
      else if |k| >= 7 && k[|k| - 7..] == " + Fair" then Some((Fair, 7))
      else if |k| >= 6 && k[|k| - 6..] == " + Bad" then Some((Bad, 6))
      else None;
    if q.None? then None
    else
      var l := LevelFromText(k[..|k| - q.value.1]);
      if l.None? then None else Some((l.value, q.value.0))
  }

  /** The joined level and quality texts split back into the level and the quality. */
  lemma JoinedSplitsBack(l: Option<TempLevel>, q: Quality)
    ensures ParseClusterKey(LevelText(l) + " + " + QualityText(q)) == Some((l, q))
  {
    var lt := LevelText(l);
    var k := lt + " + " + QualityText(q);
    match q
    case Good =>
      assert k == lt + " + Good";
      assert k[|k| - 7..] == " + Good" && k[..|k| - 7] == lt;
    case Fair =>
      assert k == lt + " + Fair";
      assert k[|k| - 7..] == " + Fair" && k[..|k| - 7] == lt;
      assert k[|k| - 7..][3] != " + Good"[3];
    case Bad =>
      assert k == lt + " + Bad";
      assert k[|k| - 6..] == " + Bad" && k[..|k| - 6] == lt;
      assert |k| >= 7 ==> k[|k| - 7..][3] != " + Good"[3] && k[|k| - 7..][3] != " + Fair"[3];
  }

  /** A text the parser accepts is the cluster key of what it returns. */
  lemma ParseClusterKeySound(k: string)
    requires ParseClusterKey(k).Some?
    ensures ClusterKey(ParseClusterKey(k).value.0, ParseClusterKey(k).value.1) == k
  {
    var r := ParseClusterKey(k).value;
    var n := if r.1 == Bad then 6 else 7;
    assert k[|k| - n..] == " + " + QualityText(r.1);
    LevelFromTextSound(k[..|k| - n]);
    assert k[..|k| - n] == LevelText(r.0);
    assert k == k[..|k| - n] + k[|k| - n..];
  }

  /** Distinct (level, quality) pairs give distinct cluster keys, so grouping by the key groups by the pair. */
  lemma ClusterKeyInjective(l1: Option<TempLevel>, q1: Quality, l2: Option<TempLevel>, q2: Quality)
    requires ClusterKey(l1, q1) == ClusterKey(l2, q2)
    ensures l1 == l2 && q1 == q2
  {
  }
}
