/**
 * The popup's comparison card (`updateComparisonMessage`): which branch today's usage
 * falls in against the survey average, and which real-world tier the message is drawn
 * from. The message wording, its random choice and its number formatting are not part of
 * this model; the branch and tier are.
 */
module Comparison {
  import opened Wrappers
  import Units

  /** Daily water needs, in ml, as the popup defines them. */
  const ChildAvgMl: real := 40.0 * Units.MlPerOunce
  const AdultAvgMl: real := (3700.0 + 2700.0) / 2.0
  const DogMl: real := Units.MlPerOunce * 50.0
  const CatMl: real := 0.8 * Units.MlPerOunce * 10.0
  const ShelterMl: real := 50000.0
  const VillageMl: real := 500000.0

  /** The needs the branch without an average uses instead. */
  const EduAdultMl: real := 3000.0
  const EduChildMl: real := 236.588
  const EduDogMl: real := 1500.0
  const EduCatMl: real := 250.0

  /** The real-world unit a message speaks of; `Generic` is the catch-all list. */
  datatype Tier = Villages | ChildrenThreePlus | Children | Shelters | Adults | Dogs | Cats | Generic

  /** The card the popup shows. */
  datatype Card =
    | FirstQuery
    | Educational(tier: Tier)
    | Positive(tier: Tier)
    | Caution(remainingChildren: int)
    | Negative(tier: Tier)
    | OnTrack

  /** `Math.floor` and `Math.ceil`. */
  function Floor(x: real): int {
    x.Floor
  }

  function Ceil(x: real): int {
    -((-x).Floor)
  }

  /** No average yet, but some usage: the largest tier the day's water covers at least once. */
  function EducationalTier(daily: real): Tier {
    var children := Floor(daily / EduChildMl);
    var adults := Floor(daily / EduAdultMl);
    var dogs := Floor(daily / EduDogMl);
    var cats := Floor(daily / EduCatMl);
    if cats >= 1 then Cats
    else if children >= 1 then Children
    else if adults >= 1 then Adults
    else if dogs >= 1 then Dogs
    else Generic
  }

  /** Under budget by `saved` ml: the first tier, in the popup's order, the saving covers. */
  function PositiveTier(saved: real): Tier {
    var adults := Floor(saved / AdultAvgMl);
    var children := Floor(saved / ChildAvgMl);
    var dogs := Floor(saved / DogMl);
    var cats := Floor(saved / CatMl);
    var shelters := Floor(saved / ShelterMl);
    var villages := Floor(saved / VillageMl);
    if villages > 0 then Villages
    else if children >= 3 then ChildrenThreePlus
    else if children > 0 then Children
    else if shelters > 0 then Shelters
    else if adults > 0 then Adults
    else if dogs > 0 then Dogs
    else if cats > 0 then Cats
    else Generic
  }

  /** Over budget by `excess` ml: the first tier, in the popup's order, with a non-zero count. */
  function NegativeTier(excess: real): Tier {
    var adults := Ceil(excess / AdultAvgMl);
    var children := Ceil(excess / ChildAvgMl);
    var dogs := Ceil(excess / DogMl);
    var shelters := Ceil(excess / ShelterMl);
    if children >= 3 then ChildrenThreePlus
    else if children > 0 then Children
    else if shelters > 0 then Shelters
    else if adults > 0 then Adults
    else if dogs > 0 then Dogs
    else Generic
  }

  /**
   * `updateComparisonMessage(dailyUsage, averageUsage)`; `average` is `None` for an
   * average that is undefined or NaN, which JavaScript treats as falsy like 0.
   */
  function UpdateComparison(daily: real, average: Option<real>): Card {
    if average.None? || average.value == 0.0 then
      if daily == 0.0 then FirstQuery else Educational(EducationalTier(daily))
    else
      var avg := average.value;
      var difference := avg - daily;
      var usageRatio := if avg > 0.0 then daily / avg else 0.0;
      if difference > 0.0 && usageRatio <= 0.85 then Positive(PositiveTier(difference))
      else if difference > 0.0 && usageRatio < 1.0 then
        var remaining := if avg - daily > 0.0 then avg - daily else 0.0;
        Caution(if Ceil(remaining / ChildAvgMl) > 1 then Ceil(remaining / ChildAvgMl) else 1)
      else if difference < 0.0 then Negative(NegativeTier(-difference))
      else OnTrack
  }

  /** With no average the card welcomes a first query or educates, never compares. */
  lemma NoAverageBranches(daily: real, average: Option<real>)
    requires average.None? || average.value == 0.0
    ensures UpdateComparison(daily, average) == FirstQuery <==> daily == 0.0
    ensures daily != 0.0 ==> UpdateComparison(daily, average).Educational?
  {
  }

  lemma RatioBelow(daily: real, avg: real, bound: real)
    requires avg > 0.0
    ensures daily / avg <= bound <==> daily <= bound * avg
    ensures daily / avg < bound <==> daily < bound * avg
  {
    assert daily == (daily / avg) * avg;
    if daily / avg <= bound {
      assert (daily / avg) * avg <= bound * avg;
    }
    if daily <= bound * avg {
      assert daily / avg <= (bound * avg) / avg;
    }
    if daily / avg < bound {
      assert (daily / avg) * avg < bound * avg;
    }
    if daily < bound * avg {
      assert daily / avg < (bound * avg) / avg;
    }
  }

  /**
   * With a positive average the four branches are exclusive and cover every day: at most
   * 85 % of the average is positive, between 85 % and the average is caution, above it
   * negative, and exactly the average is on track.
   */
  lemma PositiveAverageBranches(daily: real, avg: real)
    requires avg > 0.0
    ensures UpdateComparison(daily, Some(avg)).Positive? <==> daily <= 0.85 * avg
    ensures UpdateComparison(daily, Some(avg)).Caution? <==> 0.85 * avg < daily < avg
    ensures UpdateComparison(daily, Some(avg)).Negative? <==> avg < daily
    ensures UpdateComparison(daily, Some(avg)) == OnTrack <==> daily == avg
  {
    RatioBelow(daily, avg, 0.85);
    RatioBelow(daily, avg, 1.0);
  }

  /** A negative average is either beaten (positive), exceeded (negative) or met; never caution. */
  lemma NegativeAverageBranches(daily: real, avg: real)
    requires avg < 0.0
    ensures UpdateComparison(daily, Some(avg)).Positive? <==> daily < avg
    ensures UpdateComparison(daily, Some(avg)).Negative? <==> avg < daily
    ensures UpdateComparison(daily, Some(avg)) == OnTrack <==> daily == avg
    ensures !UpdateComparison(daily, Some(avg)).Caution?
  {
  }

  /** `Math.floor(x / d) >= n` exactly when `x >= n * d`, for a positive `d`. */
  lemma FloorAtLeast(x: real, d: real, n: int)
    requires d > 0.0
    ensures Floor(x / d) >= n <==> x >= n as real * d
  {
    RatioBelow(n as real * d, d, x / d);
    assert (n as real * d) / d == n as real;
    assert x == (x / d) * d;
    if x >= n as real * d {
      assert x / d >= n as real by {
        RatioBelow(n as real * d, d, x / d);
      }
    }
    if x / d >= n as real {
      assert (x / d) * d >= n as real * d;
    }
  }

  /**
   * The tiers of an under-budget day by the water saved: villages from 500 L, three
   * children or more from three children's needs, one child from one, cats from one
   * cat's; shelters, adults and dogs are never reached, since the children tiers come
   * first and a child needs less than any of them.
   */
  lemma PositiveTiers(saved: real)
    requires saved > 0.0
    ensures PositiveTier(saved) == Villages <==> VillageMl <= saved
    ensures PositiveTier(saved) == ChildrenThreePlus <==> 3.0 * ChildAvgMl <= saved < VillageMl
    ensures PositiveTier(saved) == Children <==> ChildAvgMl <= saved < 3.0 * ChildAvgMl
    ensures PositiveTier(saved) == Cats <==> CatMl <= saved < ChildAvgMl
    ensures PositiveTier(saved) == Generic <==> saved < CatMl
    ensures PositiveTier(saved) !in {Shelters, Adults, Dogs}
  {
    FloorAtLeast(saved, VillageMl, 1);
    FloorAtLeast(saved, ChildAvgMl, 3);
    FloorAtLeast(saved, ChildAvgMl, 1);
    FloorAtLeast(saved, ShelterMl, 1);
    FloorAtLeast(saved, AdultAvgMl, 1);
    FloorAtLeast(saved, DogMl, 1);
    FloorAtLeast(saved, CatMl, 1);
  }

  /**
   * An over-budget day always names children: three or more when the excess is more than
   * two children's needs, otherwise at least one; the later tiers are never reached.
   */
  lemma NegativeTiers(excess: real)
    requires excess > 0.0
    ensures NegativeTier(excess) == ChildrenThreePlus <==> 2.0 * ChildAvgMl < excess
    ensures NegativeTier(excess) == Children <==> excess <= 2.0 * ChildAvgMl
  {
    FloorAtLeast(-excess, ChildAvgMl, -2);
    FloorAtLeast(-excess, ChildAvgMl, 0);
  }

  /**
   * With no average, a day that covers one cat's 250 ml is told in cats, one between a
   * child's 236.588 ml and 250 ml in children, and anything less as a fraction; adults and
   * dogs, which need more than a cat, are never reached.
   */
  lemma EducationalTiers(daily: real)
    ensures EducationalTier(daily) == Cats <==> EduCatMl <= daily
    ensures EducationalTier(daily) == Children <==> EduChildMl <= daily < EduCatMl
    ensures EducationalTier(daily) == Generic <==> daily < EduChildMl
  {
    FloorAtLeast(daily, EduCatMl, 1);
    FloorAtLeast(daily, EduChildMl, 1);
    FloorAtLeast(daily, EduAdultMl, 1);
    FloorAtLeast(daily, EduDogMl, 1);
  }

  /** The caution card always speaks of at least one child. */
  lemma CautionChildren(daily: real, avg: real)
    requires UpdateComparison(daily, Some(avg)).Caution?
    ensures UpdateComparison(daily, Some(avg)).remainingChildren >= 1
  {
  }
}
