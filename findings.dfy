/**
 * A worked case of the season grouping on the main analysis page: with the
 * pandas default before 3.0 (`observed=False`), a season the user filtered
 * out is still listed, with a total of zero.
 */
module Findings {
  import opened Wrappers
  import opened Records
  import opened Filters
  import opened Aggregates

  /** A spring day and a winter day, both with clear weather. */
  const SpringDay: Day := DeriveDay(RawDay(1, "2011-03-21", 1, 1, 1, 0.5, 3, 7, 10))
  const WinterDay: Day := DeriveDay(RawDay(2, "2011-12-21", 4, 1, 3, 0.2, 1, 4, 5))

  /** Selecting only "Spring" keeps the spring day alone. */
  lemma SpringSelection()
    ensures FilterDaily([SpringDay, WinterDay], ["Spring"], WeatherOptions) == [SpringDay]
  {
  }

  /** The loaded table of the two days has the categories "Spring" and "Winter". */
  lemma TwoDayCategories()
    ensures SeasonCategories([SpringDay, WinterDay]) == ["Spring", "Winter"]
  {
    var all := [SpringDay, WinterDay];
    assert all[0].raw.season == 1 && all[1].raw.season == 4;
    assert !(exists i :: 0 <= i < |all| && all[i].raw.season == 2);
    assert !(exists i :: 0 <= i < |all| && all[i].raw.season == 3);
  }

  /**
   * Selecting only "Spring" keeps the spring day alone, yet the grouping
   * with every category listed (as written at line 231 under pandas before
   * 3.0) still reports "Winter" with a total of 0, which is then the season
   * `idxmin` names as the lowest.
   */
  lemma UnselectedSeasonIsListed()
    ensures FilterDaily([SpringDay, WinterDay], ["Spring"], WeatherOptions) == [SpringDay]
    ensures SeasonCategories([SpringDay, WinterDay]) == ["Spring", "Winter"]
    ensures RentalsBySeason([SpringDay], ["Spring", "Winter"], false) == [Group("Spring", 10, 1), Group("Winter", 0, 0)]
  {
    SpringSelection();
    TwoDayCategories();
    var filtered := [SpringDay];
    assert filtered[1..] == [];
    assert TotalWhere(filtered, SeasonColumn, ["Spring"]) == 10;
    assert SizeWhere(filtered, SeasonColumn, ["Spring"]) == 1;
    assert TotalWhere(filtered, SeasonColumn, ["Winter"]) == 0;
    assert SizeWhere(filtered, SeasonColumn, ["Winter"]) == 0;
    var groups := GroupBy(filtered, SeasonColumn, ["Spring", "Winter"], false);
    assert groups == [Group("Spring", 10, 1), Group("Winter", 0, 0)];
  }

  /** With only the observed categories, the same selection lists "Spring" alone. */
  lemma ObservedSeasonsOnly()
    ensures RentalsBySeason([SpringDay], ["Spring", "Winter"], true) == [Group("Spring", 10, 1)]
  {
    var filtered := [SpringDay];
    assert filtered[1..] == [];
    assert TotalWhere(filtered, SeasonColumn, ["Spring"]) == 10;
    assert SizeWhere(filtered, SeasonColumn, ["Spring"]) == 1;
    assert SizeWhere(filtered, SeasonColumn, ["Winter"]) == 0;
    assert GroupBy(filtered, SeasonColumn, ["Spring", "Winter"], true) == [Group("Spring", 10, 1)];
  }
}
