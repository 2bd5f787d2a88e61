/**
 * The popup's statistics: reading the stored usage with fallbacks computed from the query
 * records (`normalizeUsageStats`), the survey-based daily average (`calculateAverageUsage`)
 * and the once-per-question survey increments of the daily value.
 */
module Stats {
  import opened Wrappers
  import Ledger

  /** A JavaScript value where the popup expects a number. */
  datatype JsValue = JsNumber(r: real) | JsNaN | JsOther

  /** A number the popup computes: a real, or NaN once one has been added in. */
  datatype Num = Finite(r: real) | NaN

  /** JavaScript `+` on numbers: NaN absorbs. */
  function Add(a: Num, b: Num): Num {
    if a.Finite? && b.Finite? then Finite(a.r + b.r) else NaN
  }

  /** `isFiniteNumber(v)`: a number that is not NaN. */
  predicate IsFiniteNumber(v: JsValue) {
    v.JsNumber?
  }

  /** `typeof v === 'number' ? v : 0`. */
  function UsageOf(v: JsValue): Num {
    match v
    case JsNumber(r) => Finite(r)
    case JsNaN => NaN
    case JsOther => Finite(0.0)
  }

  /** A stored query record as the popup reads it. */
  datatype Entry = Entry(date: string, waterUsage: JsValue)

  /** The storage keys `normalizeUsageStats` looks at; `queries` is `None` when it is not an array. */
  datatype RawData = RawData(dailyUsage: JsValue, weeklyUsage: JsValue, totalUsage: JsValue, queries: Option<seq<Entry>>)

  /** What `normalizeUsageStats` returns. */
  datatype Normalized = Normalized(queries: seq<Entry>, dailyUsage: Num, weeklyUsage: Num, totalUsage: Num)

  /** The first `reduce`: the usage of the records dated `today`. */
  function ComputedDaily(qs: seq<Entry>, today: string): Num
    decreases |qs|
  {
    if |qs| == 0 then Finite(0.0)
    else
      var q := qs[|qs| - 1];
      var sum := ComputedDaily(qs[..|qs| - 1], today);
      if q.date == today then Add(sum, UsageOf(q.waterUsage)) else sum
  }

  /** The second `reduce`: the usage of all records. */
  function ComputedWeekly(qs: seq<Entry>): Num
    decreases |qs|
  {
    if |qs| == 0 then Finite(0.0) else Add(ComputedWeekly(qs[..|qs| - 1]), UsageOf(qs[|qs| - 1].waterUsage))
  }

  /** `normalizeUsageStats(rawData)`, with `today` the date the popup derives from the clock. */
  function NormalizeUsageStats(raw: RawData, today: string): (n: Normalized)
    ensures n.queries == raw.queries.GetOr([])
    ensures n.dailyUsage == if IsFiniteNumber(raw.dailyUsage) then Finite(raw.dailyUsage.r) else ComputedDaily(n.queries, today)
    ensures n.weeklyUsage == if IsFiniteNumber(raw.weeklyUsage) then Finite(raw.weeklyUsage.r) else ComputedWeekly(n.queries)
    ensures n.totalUsage == if IsFiniteNumber(raw.totalUsage) then Finite(raw.totalUsage.r) else ComputedWeekly(n.queries)
  {
    var queries := raw.queries.GetOr([]);
    var computedDaily := ComputedDaily(queries, today);
    var computedWeekly := ComputedWeekly(queries);
    Normalized(
      queries,
      if IsFiniteNumber(raw.dailyUsage) then Finite(raw.dailyUsage.r) else computedDaily,
      if IsFiniteNumber(raw.weeklyUsage) then Finite(raw.weeklyUsage.r) else computedWeekly,
      if IsFiniteNumber(raw.totalUsage) then Finite(raw.totalUsage.r) else computedWeekly)
  }

  /** A computed sum is NaN exactly when a counted record's usage is NaN. */
  lemma {:induction false} ComputedNaN(qs: seq<Entry>, today: string)
    ensures ComputedWeekly(qs) == NaN <==> exists i :: 0 <= i < |qs| && qs[i].waterUsage == JsNaN
    ensures ComputedDaily(qs, today) == NaN <==> exists i :: 0 <= i < |qs| && qs[i].date == today && qs[i].waterUsage == JsNaN
    decreases |qs|
  {
    if |qs| > 0 {
      var init := qs[..|qs| - 1];
      ComputedNaN(init, today);
      assert forall i :: 0 <= i < |init| ==> init[i] == qs[i];
      if exists i :: 0 <= i < |init| && init[i].waterUsage == JsNaN {
        var i :| 0 <= i < |init| && init[i].waterUsage == JsNaN;
        assert qs[i].waterUsage == JsNaN;
      }
      if exists i :: 0 <= i < |init| && init[i].date == today && init[i].waterUsage == JsNaN {
        var i :| 0 <= i < |init| && init[i].date == today && init[i].waterUsage == JsNaN;
        assert qs[i].date == today && qs[i].waterUsage == JsNaN;
      }
    }
  }

  /**
   * A record whose usage is not a number counts as 0 in both sums: replacing its usage by
   * the number 0 changes neither.
   */
  lemma NonNumberCountsAsZero(qs: seq<Entry>, today: string, i: int)
    requires 0 <= i < |qs| && qs[i].waterUsage == JsOther
    ensures ComputedWeekly(qs) == ComputedWeekly(qs[i := Entry(qs[i].date, JsNumber(0.0))])
    ensures ComputedDaily(qs, today) == ComputedDaily(qs[i := Entry(qs[i].date, JsNumber(0.0))], today)
  {
    NonNumberWeekly(qs, i);
    NonNumberDaily(qs, today, i);
  }

  lemma {:induction false} NonNumberWeekly(qs: seq<Entry>, i: int)
    requires 0 <= i < |qs| && qs[i].waterUsage == JsOther
    ensures ComputedWeekly(qs) == ComputedWeekly(qs[i := Entry(qs[i].date, JsNumber(0.0))])
    decreases |qs|
  {
    var zeroed := qs[i := Entry(qs[i].date, JsNumber(0.0))];
    var n := |qs| - 1;
    if i < n {
      NonNumberWeekly(qs[..n], i);
      assert zeroed[..n] == qs[..n][i := Entry(qs[i].date, JsNumber(0.0))];
      assert zeroed[n] == qs[n];
    } else {
      assert zeroed[..n] == qs[..n];
      assert UsageOf(zeroed[n].waterUsage) == UsageOf(qs[n].waterUsage) == Finite(0.0);
    }
  }

  lemma {:induction false} NonNumberDaily(qs: seq<Entry>, today: string, i: int)
    requires 0 <= i < |qs| && qs[i].waterUsage == JsOther
    ensures ComputedDaily(qs, today) == ComputedDaily(qs[i := Entry(qs[i].date, JsNumber(0.0))], today)
    decreases |qs|
  {
    var zeroed := qs[i := Entry(qs[i].date, JsNumber(0.0))];
    var n := |qs| - 1;
    if i < n {
      NonNumberDaily(qs[..n], today, i);
      assert zeroed[..n] == qs[..n][i := Entry(qs[i].date, JsNumber(0.0))];
      assert zeroed[n] == qs[n];
    } else {
      assert zeroed[..n] == qs[..n];
      assert zeroed[n].date == qs[n].date;
      assert UsageOf(zeroed[n].waterUsage) == UsageOf(qs[n].waterUsage) == Finite(0.0);
    }
  }

  /** A ledger record as the popup reads it back. */
  function FromRecord(r: Ledger.Record): Entry {
    Entry(r.date, JsNumber(r.waterUsage))
  }

  function FromRecords(qs: seq<Ledger.Record>): (es: seq<Entry>)
    ensures |es| == |qs| && forall i :: 0 <= i < |qs| ==> es[i] == FromRecord(qs[i])
  {
    seq(|qs|, i requires 0 <= i < |qs| => FromRecord(qs[i]))
  }

  /**
   * On the records the ledger writes, the popup's fallbacks are the ledger's own sums:
   * the computed weekly value is the total of the records and the computed daily value
   * is the volume of today's records.
   */
  lemma {:induction false} FallbacksMatchLedger(qs: seq<Ledger.Record>, today: string)
    ensures ComputedWeekly(FromRecords(qs)) == Finite(Ledger.SumUsage(qs))
    ensures ComputedDaily(FromRecords(qs), today) == Finite(Ledger.SumOn(qs, today))
    decreases |qs|
  {
    if |qs| > 0 {
      var init := qs[..|qs| - 1];
      FallbacksMatchLedger(init, today);
      assert FromRecords(qs)[..|qs| - 1] == FromRecords(init);
    }
  }

  // ---------------------------------------------------------------------------
  // calculateAverageUsage

  /** The survey answers the average is computed from; `screenTime` is hours per day. */
  datatype SurveyAnswers = SurveyAnswers(usageFrequency: string, usagePurpose: string, screenTime: Num)

  /** The daily base, in ml: about 100 queries of 0.3 ml. */
  const BaseUsage: real := 30.0

  /** `frequencyMultiplier[key] || 1.0`. */
  function FrequencyMultiplier(key: string): real {
    if key == "daily" then 2.0
    else if key == "sometimes" then 0.7
    else if key == "never" then 0.1
    else 1.0
  }

  /** `purposeMultiplier[key] || 1.0`. */
  function PurposeMultiplier(key: string): real {
    if key == "roleplay" then 1.5
    else if key == "discussion" then 1.2
    else if key == "tool" then 0.8
    else 1.0
  }

  /** `Math.min(screenTime / 8, 1.5)`. */
  function ScreenTimeMultiplier(hours: real): real {
    if hours / 8.0 < 1.5 then hours / 8.0 else 1.5
  }

  /** `Math.round(x)`: the integer nearest `x`, halves rounded up. */
  function Round(x: real): (r: int)
    ensures r as real - 0.5 <= x < r as real + 0.5
  {
    (x + 0.5).Floor
  }

  lemma RoundMonotone(x: real, y: real)
    requires x <= y
    ensures Round(x) <= Round(y)
  {
  }

  /** Rounding a value between two whole numbers stays between them. */
  lemma RoundWithin(x: real, lo: int, hi: int)
    requires lo as real <= x <= hi as real
    ensures lo <= Round(x) <= hi
  {
  }

  /** The unrounded average for a known screen time. */
  function Unrounded(a: SurveyAnswers, hours: real): real {
    BaseUsage * FrequencyMultiplier(a.usageFrequency) * PurposeMultiplier(a.usagePurpose) * ScreenTimeMultiplier(hours)
  }

  /** `calculateAverageUsage(surveyAnswers)`, in ml per day. */
  function CalculateAverageUsage(a: SurveyAnswers): Num {
    match a.screenTime
    case NaN => NaN
    case Finite(hours) => Finite(Round(Unrounded(a, hours)) as real)
  }

  /** For a non-negative screen time the unrounded average lies between 0 and 135 ml. */
  lemma UnroundedRange(a: SurveyAnswers, hours: real)
    requires 0.0 <= hours
    ensures 0.0 <= Unrounded(a, hours) <= 135.0
  {
    var f, p, t := FrequencyMultiplier(a.usageFrequency), PurposeMultiplier(a.usagePurpose), ScreenTimeMultiplier(hours);
    assert 0.0 <= f <= 2.0 && 0.0 <= p <= 1.5 && 0.0 <= t <= 1.5;
    assert BaseUsage * f <= 60.0;
    assert BaseUsage * f * p <= 60.0 * p <= 90.0;
    assert BaseUsage * f * p * t <= 90.0 * t;
  }

  /** More screen time never lowers the unrounded average. */
  lemma UnroundedMonotone(a: SurveyAnswers, hours: real, more: real)
    requires 0.0 <= hours <= more
    ensures Unrounded(a, hours) <= Unrounded(a, more)
  {
    var c := BaseUsage * FrequencyMultiplier(a.usageFrequency) * PurposeMultiplier(a.usagePurpose);
    assert 0.0 <= c;
    assert ScreenTimeMultiplier(hours) <= ScreenTimeMultiplier(more);
    assert c * ScreenTimeMultiplier(hours) <= c * ScreenTimeMultiplier(more);
  }

  /**
   * For a known, non-negative screen time the average is a whole number of millilitres
   * between 0 and 135 (daily use, role-play, 12 hours or more), and it never shrinks as
   * screen time grows.
   */
  lemma AverageBounds(a: SurveyAnswers, more: real)
    requires a.screenTime.Finite? && 0.0 <= a.screenTime.r <= more
    ensures var avg := CalculateAverageUsage(a);
      && avg.Finite? && 0.0 <= avg.r <= 135.0
      && avg.r == (avg.r.Floor) as real
      && avg.r <= CalculateAverageUsage(a.(screenTime := Finite(more))).r
  {
    var u, w := Unrounded(a, a.screenTime.r), Unrounded(a, more);
    UnroundedRange(a, a.screenTime.r);
    UnroundedMonotone(a, a.screenTime.r, more);
    RoundMonotone(u, w);
    RoundWithin(u, 0, 135);
    assert w == Unrounded(a.(screenTime := Finite(more)), more);
  }

  /** Beyond 12 hours of screen time the average no longer grows. */
  lemma AverageCapped(a: SurveyAnswers)
    requires a.screenTime.Finite? && 12.0 <= a.screenTime.r
    ensures CalculateAverageUsage(a) == CalculateAverageUsage(a.(screenTime := Finite(12.0)))
  {
    assert ScreenTimeMultiplier(a.screenTime.r) == ScreenTimeMultiplier(12.0);
    assert Unrounded(a, a.screenTime.r) == Unrounded(a.(screenTime := Finite(12.0)), 12.0);
  }

  /** An unknown or missing screen time makes the average NaN. */
  lemma AverageNaN(a: SurveyAnswers)
    ensures CalculateAverageUsage(a) == NaN <==> a.screenTime == NaN
  {
  }

  /** Answers outside the tables weigh 1.0, like the purpose "other". */
  lemma UnknownAnswersNeutral(a: SurveyAnswers)
    requires a.usageFrequency !in {"daily", "sometimes", "never"}
    ensures CalculateAverageUsage(a) == CalculateAverageUsage(a.(usageFrequency := "other"))
    ensures a.usagePurpose !in {"roleplay", "discussion", "tool"} ==>
      CalculateAverageUsage(a) == CalculateAverageUsage(a.(usagePurpose := "other"))
  {
  }

  // ---------------------------------------------------------------------------
  // setupSurveyIncrements

  /** A survey question and the volume, in ml, that answering it adds to the day. */
  datatype Question = Question(id: string, usage: real)

  const Questions: seq<Question> := [
    Question("usage-frequency", 0.5),
    Question("water-awareness", 0.3),
    Question("usage-purpose", 0.4),
    Question("screen-time", 0.3)
  ]

  /** The storage key that marks a question as already counted. */
  function TrackedKey(id: string): string {
    "survey_" + id + "_tracked"
  }

  /** Different questions have different marker keys. */
  lemma TrackedKeyInjective(x: string, y: string)
    requires TrackedKey(x) == TrackedKey(y)
    ensures x == y
  {
    assert x == TrackedKey(x)[7..|TrackedKey(x)| - 8];
    assert y == TrackedKey(y)[7..|TrackedKey(y)| - 8];
  }

  /** The volume added for the questions whose marker key is in `keys`. */
  function AddedFor(qs: seq<Question>, keys: set<string>): real
    decreases |qs|
  {
    if |qs| == 0 then 0.0
    else (if TrackedKey(qs[0].id) in keys then qs[0].usage else 0.0) + AddedFor(qs[1..], keys)
  }

  /** Marking a question not yet marked adds exactly its volume, when ids are distinct. */
  lemma {:induction false} AddedForMark(qs: seq<Question>, keys: set<string>, i: int)
    requires 0 <= i < |qs|
    requires forall j :: 0 <= j < |qs| && j != i ==> qs[j].id != qs[i].id
    requires TrackedKey(qs[i].id) !in keys
    ensures AddedFor(qs, keys + {TrackedKey(qs[i].id)}) == AddedFor(qs, keys) + qs[i].usage
    decreases |qs|
  {
    var k := TrackedKey(qs[i].id);
    if i == 0 {
      AddedForOthers(qs[1..], keys, qs[0].id);
    } else {
      assert qs[0].id != qs[i].id;
      if TrackedKey(qs[0].id) == k {
        TrackedKeyInjective(qs[0].id, qs[i].id);
      }
      forall j | 0 <= j < |qs[1..]| && j != i - 1 ensures qs[1..][j].id != qs[1..][i - 1].id {
        assert qs[1..][j] == qs[j + 1];
      }
      AddedForMark(qs[1..], keys, i - 1);
    }
  }

  /** Marking a question not in the list changes nothing. */
  lemma {:induction false} AddedForOthers(qs: seq<Question>, keys: set<string>, id: string)
    requires forall j :: 0 <= j < |qs| ==> qs[j].id != id
    ensures AddedFor(qs, keys + {TrackedKey(id)}) == AddedFor(qs, keys)
    decreases |qs|
  {
    if |qs| > 0 {
      if TrackedKey(qs[0].id) == TrackedKey(id) {
        TrackedKeyInjective(qs[0].id, id);
      }
      AddedForOthers(qs[1..], keys, id);
    }
  }

  /** The volume added by questions is at least 0 and at most their sum. */
  lemma {:induction false} AddedForBounds(qs: seq<Question>, keys: set<string>)
    requires forall j :: 0 <= j < |qs| ==> qs[j].usage >= 0.0
    ensures 0.0 <= AddedFor(qs, keys) <= AddedFor(qs, set j | 0 <= j < |qs| :: TrackedKey(qs[j].id))
    decreases |qs|
  {
    if |qs| > 0 {
      var all := set j | 0 <= j < |qs| :: TrackedKey(qs[j].id);
      var rest := set j | 0 <= j < |qs[1..]| :: TrackedKey(qs[1..][j].id);
      AddedForBounds(qs[1..], keys);
      assert TrackedKey(qs[0].id) in all;
      assert rest <= all by {
        forall k | k in rest ensures k in all {
          var j :| 0 <= j < |qs[1..]| && k == TrackedKey(qs[1..][j].id);
          assert qs[1..][j] == qs[j + 1];
        }
      }
      AddedForSubset(qs[1..], rest, all);
    }
  }

  lemma {:induction false} AddedForSubset(qs: seq<Question>, small: set<string>, large: set<string>)
    requires small <= large
    requires forall j :: 0 <= j < |qs| ==> qs[j].usage >= 0.0
    ensures AddedFor(qs, small) <= AddedFor(qs, large)
    decreases |qs|
  {
    if |qs| > 0 {
      AddedForSubset(qs[1..], small, large);
    }
  }

  /** However the survey is answered, it adds at most 1.5 ml to the day. */
  lemma SurveyAddsAtMost(keys: set<string>)
    ensures 0.0 <= AddedFor(Questions, keys) <= 1.5
  {
    AddedForBounds(Questions, keys);
    var all := set j | 0 <= j < |Questions| :: TrackedKey(Questions[j].id);
    assert all == {TrackedKey("usage-frequency"), TrackedKey("water-awareness"), TrackedKey("usage-purpose"), TrackedKey("screen-time")} by {
      assert TrackedKey(Questions[0].id) in all && TrackedKey(Questions[1].id) in all;
      assert TrackedKey(Questions[2].id) in all && TrackedKey(Questions[3].id) in all;
    }
    assert AddedFor(Questions, all) == 1.5 by {
      assert Questions[1..][1..][1..][1..] == [];
    }
  }

  /** The question ids are distinct. */
  lemma QuestionsDistinct()
    ensures forall i, j :: 0 <= i < j < |Questions| ==> Questions[i].id != Questions[j].id
  {
  }

  /**
   * The popup's daily value and survey markers. `baseline` is the daily value before any
   * question was counted; the invariant says the daily value is that plus exactly the
   * volumes of the counted questions.
   */
  class SurveyIncrements {
    var dailyUsage: Option<real>
    var trackedKeys: set<string>
    ghost var baseline: real

    ghost predicate Valid()
      reads this
    {
      dailyUsage.GetOr(0.0) == baseline + AddedFor(Questions, trackedKeys)
    }

    constructor(daily: Option<real>, keys: set<string>)
      ensures dailyUsage == daily && trackedKeys == keys && Valid()
    {
      dailyUsage := daily;
      trackedKeys := keys;
      baseline := daily.GetOr(0.0) - AddedFor(Questions, keys);
    }

    /**
     * The `change` listener of question `i`: if its marker is not set, it adds the
     * question's volume to the stored daily value and sets the marker; otherwise nothing.
     */
    method AnswerChanged(i: int)
      requires 0 <= i < |Questions|
      requires Valid()
      modifies this
      ensures Valid() && baseline == old(baseline)
      ensures TrackedKey(Questions[i].id) in old(trackedKeys) ==>
                dailyUsage == old(dailyUsage) && trackedKeys == old(trackedKeys)
      ensures TrackedKey(Questions[i].id) !in old(trackedKeys) ==>
                && dailyUsage == Some(old(dailyUsage).GetOr(0.0) + Questions[i].usage)
                && trackedKeys == old(trackedKeys) + {TrackedKey(Questions[i].id)}
    {
      var id := Questions[i].id;
      var usage := Questions[i].usage;
      var key := TrackedKey(id);
      if key !in trackedKeys {
        var newUsage := dailyUsage.GetOr(0.0) + usage;
        QuestionsDistinct();
        AddedForMark(Questions, trackedKeys, i);
        dailyUsage := Some(newUsage);
        trackedKeys := trackedKeys + {key};
      }
    }
  }

  /**
   * The survey increments share the ledger's daily key, so a counted answer leaves a
   * ledger whose daily value no longer equals the volume of the day's records.
   */
  lemma SurveyBreaksDailyRecordSum(s: Ledger.Store, i: int)
    requires 0 <= i < |Questions|
    requires Ledger.DailyConsistent(s)
    ensures !Ledger.DailyConsistent(s.(dailyUsage := Some(s.dailyUsage.GetOr(0.0) + Questions[i].usage)))
  {
  }
}
