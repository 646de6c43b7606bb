/**
 * The bridge between validated input and the model in backend/app/routes.py:
 * `prepare_model_input`, which encodes a validated record as the thirteen
 * features the regressor was trained on, and `get_productivity_category`,
 * which names the band a prediction falls in.
 */
module ModelInput {
  import opened Wrappers
  import opened Strings
  import opened PyRuntime
  import opened Dates
  import opened Validation

  /** `department_map.get(department, 1)`: Finishing is 0, every other department 1. */
  function DepartmentCode(dept: string): (c: int)
    ensures c == 0 <==> dept == "Finishing"
    ensures c == 0 || c == 1
  {
    var codes := map["Sewing" := 1, "Finishing" := 0];
    if dept in codes then codes[dept] else 1
  }

  /** `incentive_map.get(level, 2)`: a level's position in None, Low, Standard, High. */
  function IncentiveCode(level: string): (c: int)
    ensures 0 <= c <= 3
    ensures level in IncentiveLevels ==> IncentiveLevels[c] == level
    ensures level !in IncentiveLevels ==> c == 2
  {
    var codes := map["None" := 0, "Low" := 1, "Standard" := 2, "High" := 3];
    if level in codes then codes[level] else 2
  }

  /** `data.get("date").month // 3 + 1`, kept as written. */
  function Quarter(month: int): int
  {
    month / 3 + 1
  }

  /**
   * The quarter feature by month: 1 for January and February, 2 for March to
   * May, 3 for June to August, 4 for September to November and 5 for December.
   */
  lemma QuarterBands(month: int)
    requires 1 <= month <= 12
    ensures Quarter(month) == 1 <==> month <= 2
    ensures Quarter(month) == 2 <==> 3 <= month <= 5
    ensures Quarter(month) == 3 <==> 6 <= month <= 8
    ensures Quarter(month) == 4 <==> 9 <= month <= 11
    ensures Quarter(month) == 5 <==> month == 12
  {
  }

  /** The team number: `int(team.split(" ")[1])` when the team contains "Team ", else 1. */
  function TeamNumber(team: string): (r: Outcome<int>)
    requires StartsWith(team, "Team ")
    ensures r.Raise? ==> r.error.ValueError?
  {
    StartsWithContains(team, "Team ");
    TeamSecondField(team);
    if Contains(team, "Team ") then
      var token := SplitSpace(team)[1];
      match IntValue(token)
      case Some(n) => Return(n)
      case None => Raise(ValueError("invalid literal for int() with base 10: '" + token + "'"))
    else Return(1)
  }

  /**
   * `prepare_model_input`: one row of thirteen features, in the order quarter,
   * department, day, team, targeted productivity, SMV, overtime (truncated),
   * incentive, idle time, idle men, style changes, workers, month.
   */
  function PrepareModelInput(vd: map<string, Checked>): (r: Outcome<seq<seq<real>>>)
    requires WellFormed(vd)
    ensures r.Return? ==> |r.value| == 1 && |r.value[0]| == 13
    ensures r.Return? <==> TeamNumber(vd["team"].text).Return?
    ensures r.Raise? ==> r.error.ValueError?
  {
    var d := vd["date"].date;
    match TeamNumber(vd["team"].text)
    case Raise(e) => Raise(e)
    case Return(team) =>
      Return([[
        Quarter(d.month) as real,
        DepartmentCode(vd["department"].text) as real,
        (Weekday(d) + 1) as real,
        team as real,
        vd["targeted_productivity"].x,
        vd["smv_minutes"].x,
        Trunc(vd["over_time_hours"].x) as real,
        IncentiveCode(vd["incentive_level"].text) as real,
        vd["idle_time_minutes"].x,
        vd["idle_men_count"].n as real,
        vd["style_change_count"].n as real,
        vd["worker_count"].n as real,
        d.month as real
      ]])
  }

  /**
   * What each encoded feature means: the quarter is `month // 3 + 1` (whose
   * bands `QuarterBands` gives), the department and incentive
   * codes are the trained encodings, the day is the ISO weekday 1..7, the team
   * is the number after "Team ", overtime is the truncated whole hours 0..8,
   * and the other features are the validated values themselves.
   */
  lemma FeatureEncoding(vd: map<string, Checked>)
    requires WellFormed(vd) && PrepareModelInput(vd).Return?
    ensures var f := PrepareModelInput(vd).value[0];
      var d := vd["date"].date;
      && f[0] == Quarter(d.month) as real
      && (f[1] == 0.0 <==> vd["department"].text == "Finishing") && (f[1] == 1.0 <==> vd["department"].text != "Finishing")
      && 1.0 <= f[2] <= 7.0 && f[2] == (Weekday(d) + 1) as real
      && f[3] == TeamNumber(vd["team"].text).value as real
      && f[4] == vd["targeted_productivity"].x
      && f[5] == vd["smv_minutes"].x
      && f[6] == Trunc(vd["over_time_hours"].x) as real
      && 0.0 <= f[6] <= 8.0 && f[6] <= vd["over_time_hours"].x < f[6] + 1.0
      && IncentiveLevels[f[7].Floor] == vd["incentive_level"].text && f[7] == f[7].Floor as real
      && f[8] == vd["idle_time_minutes"].x
      && f[9] == vd["idle_men_count"].n as real && f[9] >= 0.0
      && f[10] == vd["style_change_count"].n as real && f[10] >= 0.0
      && f[11] == vd["worker_count"].n as real && f[11] >= 1.0
      && 1.0 <= f[12] <= 12.0 && f[12] == d.month as real
  {
    var f := PrepareModelInput(vd).value[0];
    var d := vd["date"].date;
    assert f[0] == Quarter(d.month) as real && f[3] == TeamNumber(vd["team"].text).value as real;
    assert f[7] == IncentiveCode(vd["incentive_level"].text) as real;
    assert f[6] == Trunc(vd["over_time_hours"].x) as real;
  }

  /** A team written "Team <n>", possibly with more words after a space, is encoded as `n`. */
  lemma TeamNumberShowInt(n: int, rest: string)
    requires rest == [] || rest[0] == ' '
    ensures TeamNumber("Team " + ShowInt(n) + rest) == Return(n)
  {
    var team := "Team " + ShowInt(n) + rest;
    var w := ShowInt(n);
    assert StartsWith(team, "Team ") by { assert team[..5] == "Team "; }
    assert team[5..] == w + rest;
    assert ' ' !in w by {
      if n >= 0 {
        assert forall i :: 0 <= i < |w| ==> IsDigit(w[i]);
      } else {
        var digits := w[1..];
        assert forall i :: 0 <= i < |digits| ==> IsDigit(digits[i]);
        assert w == [w[0]] + digits;
      }
    }
    if rest != [] {
      assert (w + rest)[..|w + " "|] == w + " ";
    }
    TakeUntilSpaceWord(w + rest, w);
    TeamSecondField(team);
    StartsWithContains(team, "Team ");
    IntValueShowInt(n);
  }

  /** A team whose second field is not an integer makes prepare_model_input raise ValueError. */
  lemma TeamWithoutNumber(vd: map<string, Checked>)
    requires WellFormed(vd) && IntValue(TakeUntilSpace(vd["team"].text[5..])).None?
    ensures PrepareModelInput(vd).Raise? && PrepareModelInput(vd).error.ValueError?
  {
    TeamSecondField(vd["team"].text);
    StartsWithContains(vd["team"].text, "Team ");
  }

  /** `get_productivity_category`: three bands split at 0.3 and 0.8, upper ends included. */
  function ProductivityCategory(productivity: real): (c: string)
    ensures c == "Below Average Productivity" <==> productivity <= 0.3
    ensures c == "Medium Productivity" <==> 0.3 < productivity <= 0.8
    ensures c == "High Productivity" <==> productivity > 0.8
  {
    if productivity <= 0.3 then "Below Average Productivity"
    else if 0.3 < productivity <= 0.8 then "Medium Productivity"
    else "High Productivity"
  }

  /** The rank of a backend category, from 0 (below average) to 2 (high). */
  function CategoryRank(c: string): nat
  {
    if c == "Below Average Productivity" then 0 else if c == "Medium Productivity" then 1 else 2
  }

  /** A higher prediction never falls in a lower band. */
  lemma CategoryMonotone(p: real, q: real)
    requires p <= q
    ensures CategoryRank(ProductivityCategory(p)) <= CategoryRank(ProductivityCategory(q))
  {
  }

}
