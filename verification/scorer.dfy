/** The scheme eligibility score of `getRecommendedSchemes`: up to five
    yes/no criteria (state, crop, land size, age, category) checked for one
    farmer against one scheme, and the match percentage
    `Math.round(matchScore / totalCriteria * 100)` computed from them.
    Percentages are computed exactly; with four or five criteria the
    floating-point quotient is within rounding distance of an exact
    multiple of 20 or 25, so `Math.round` yields the same integer. */
module Scorer {
  import opened Wrappers
  import opened Entities
  import opened Text

  /** `!list`: the JSON list is missing, or a falsy non-array value. */
  predicate Unrestricted(l: JsonList)
  {
    l.Absent? || (l.NonList? && !l.truthy)
  }

  /** `!list || (Array.isArray(list) && list.includes(v))`: exact,
      case-sensitive membership; a missing farmer value is in no list. */
  function Admits(l: JsonList, v: Option<string>): (r: bool)
    ensures Unrestricted(l) ==> r
    ensures l.List? ==> (r <==> exists i :: 0 <= i < |l.items| && v == Some(l.items[i]))
    ensures l.NonList? && l.truthy ==> !r
    ensures v.None? ==> (r <==> Unrestricted(l))
  {
    Unrestricted(l) || (l.List? && v.Some? && v.value in l.items)
  }

  /** `farmer.crops.map(c => c.cropName.toLowerCase())`. */
  function CropNames(crops: seq<Crop>): (r: seq<string>)
    ensures |r| == |crops|
    ensures forall j :: 0 <= j < |crops| ==> r[j] == ToLower(crops[j].cropName)
  {
    seq(|crops|, i requires 0 <= i < |crops| => ToLower(crops[i].cropName))
  }

  /** Some target crop, lower-cased, is among the lower-cased names. */
  predicate SharesCrop(targets: seq<string>, names: seq<string>)
  {
    exists i, j :: 0 <= i < |targets| && 0 <= j < |names| && ToLower(targets[i]) == names[j]
  }

  /** `!targetCrops || (Array.isArray(targetCrops) && targetCrops.some(...))`:
      some target crop equals some crop name of the farmer, both compared
      in lower case. */
  function CropMatches(l: JsonList, crops: seq<Crop>): (r: bool)
    ensures Unrestricted(l) ==> r
    ensures l.List? ==>
      (r <==> exists i, j :: 0 <= i < |l.items| && 0 <= j < |crops| &&
                ToLower(l.items[i]) == ToLower(crops[j].cropName))
    ensures l.NonList? && l.truthy ==> !r
    ensures crops == [] ==> (r <==> Unrestricted(l))
  {
    Unrestricted(l) || (l.List? && SharesCrop(l.items, CropNames(crops)))
  }

  /** Inclusive bounds on the total land area; a missing bound is open. */
  function LandMatches(s: Scheme, area: real): (r: bool)
    ensures s.landSizeMin.None? && s.landSizeMax.None? ==> r
    ensures s.landSizeMin.Some? && area < s.landSizeMin.value ==> !r
    ensures s.landSizeMax.Some? && area > s.landSizeMax.value ==> !r
  {
    && (s.landSizeMin.None? || area >= s.landSizeMin.value)
    && (s.landSizeMax.None? || area <= s.landSizeMax.value)
  }

  /** `if (farmer.age)`: the age criterion is counted only for a present,
      non-zero age. */
  function AgeCounted(f: Farmer): (r: bool)
    ensures f.age.None? ==> !r
    ensures f.age == Some(0) ==> !r
    ensures f.age.Some? && f.age.value != 0 ==> r
  {
    f.age.Some? && f.age.value != 0
  }

  /** Inclusive age bounds; a bound that is missing or 0 is open. */
  function AgeMatches(s: Scheme, age: int): (r: bool)
    ensures (s.ageMin.None? || s.ageMin == Some(0)) && (s.ageMax.None? || s.ageMax == Some(0)) ==> r
    ensures s.ageMin.Some? && s.ageMin.value != 0 && age < s.ageMin.value ==> !r
    ensures s.ageMax.Some? && s.ageMax.value != 0 && age > s.ageMax.value ==> !r
  {
    && (s.ageMin.None? || s.ageMin.value == 0 || age >= s.ageMin.value)
    && (s.ageMax.None? || s.ageMax.value == 0 || age <= s.ageMax.value)
  }

  /** The outcome of each criterion; `age` is `None` when not counted. */
  datatype Criteria = Criteria(state: bool, crop: bool, land: bool, age: Option<bool>, category: bool)

  /** A scheme that restricts nothing: no state, crop or category list,
      no land bounds, and age bounds that are missing or 0. */
  predicate OpenToAll(s: Scheme)
  {
    && Unrestricted(s.targetStates) && Unrestricted(s.targetCrops) && Unrestricted(s.applicableCategories)
    && s.landSizeMin.None? && s.landSizeMax.None?
    && (s.ageMin.None? || s.ageMin == Some(0)) && (s.ageMax.None? || s.ageMax == Some(0))
  }

  /** The five criteria of one farmer against one scheme. */
  function Evaluate(p: FarmerProfile, s: Scheme): (c: Criteria)
    ensures c.age.Some? <==> AgeCounted(p.farmer)
    ensures OpenToAll(s) ==> Score(c) == Total(c)
    ensures p.farmer.state.None? ==> (c.state <==> Unrestricted(s.targetStates))
    ensures p.farmer.category.None? ==> (c.category <==> Unrestricted(s.applicableCategories))
    ensures p.crops == [] ==> (c.crop <==> Unrestricted(s.targetCrops))
  {
    Criteria(
      Admits(s.targetStates, p.farmer.state),
      CropMatches(s.targetCrops, p.crops),
      LandMatches(s, TotalArea(p.lands)),
      if AgeCounted(p.farmer) then Some(AgeMatches(s, p.farmer.age.value)) else None,
      Admits(s.applicableCategories, p.farmer.category))
  }

  function Bit(b: bool): nat
  {
    if b then 1 else 0
  }

  /** `totalCriteria`: five when the age is counted, four otherwise. */
  function Total(c: Criteria): (n: nat)
    ensures n == 4 || n == 5
    ensures n == 5 <==> c.age.Some?
  {
    4 + (if c.age.Some? then 1 else 0)
  }

  /** `matchScore`: how many counted criteria hold. */
  function Score(c: Criteria): (n: nat)
    ensures n <= Total(c)
    ensures n == Total(c) <==> c.state && c.crop && c.land && c.category && (c.age.Some? ==> c.age.value)
    ensures n == 0 <==> !c.state && !c.crop && !c.land && !c.category && (c.age.Some? ==> !c.age.value)
  {
    Bit(c.state) + Bit(c.crop) + Bit(c.land) + (if c.age.Some? then Bit(c.age.value) else 0) + Bit(c.category)
  }

  /** `Math.round(100 * score / total)`: the nearest integer, halves
      rounded up. */
  function RoundPercent(score: nat, total: nat): (r: nat)
    requires 0 < total && score <= total
    ensures 2 * total * r <= 200 * score + total < 2 * total * (r + 1)
  {
    (200 * score + total) / (2 * total)
  }

  /** With four or five criteria the percentage is exact: it is 100 times
      the fraction of criteria met, so a multiple of 25 or of 20. */
  lemma RoundPercentExact(score: nat, total: nat)
    requires total == 4 || total == 5
    requires score <= total
    ensures RoundPercent(score, total) * total == 100 * score
    ensures RoundPercent(score, total) <= 100
    ensures total == 4 ==> RoundPercent(score, total) % 25 == 0
    ensures total == 5 ==> RoundPercent(score, total) % 20 == 0
  {
    var r := RoundPercent(score, total);
    if total == 4 {
      assert r == 25 * score by {
        assert 8 * r <= 200 * score + 4 < 8 * (r + 1);
      }
    } else {
      assert r == 20 * score by {
        assert 10 * r <= 200 * score + 5 < 10 * (r + 1);
      }
    }
  }

  /** The match percentage of one scheme for one farmer. */
  function MatchPercentage(p: FarmerProfile, s: Scheme): (r: nat)
    ensures r <= 100
    ensures r * Total(Evaluate(p, s)) == 100 * Score(Evaluate(p, s))
    ensures AgeCounted(p.farmer) ==> r % 20 == 0
    ensures !AgeCounted(p.farmer) ==> r % 25 == 0
    ensures r >= 50 <==> 2 * Score(Evaluate(p, s)) >= Total(Evaluate(p, s))
    ensures r == 100 <==> Score(Evaluate(p, s)) == Total(Evaluate(p, s))
  {
    var c := Evaluate(p, s);
    RoundPercentExact(Score(c), Total(c));
    RoundPercent(Score(c), Total(c))
  }

  /** A missing list, or a falsy non-array value, admits every farmer;
      an empty list, or a truthy non-array value, admits none. */
  lemma ListCriteria(l: JsonList, v: Option<string>, crops: seq<Crop>)
    ensures Unrestricted(l) ==> Admits(l, v) && CropMatches(l, crops)
    ensures l == List([]) ==> !Admits(l, v) && !CropMatches(l, crops)
    ensures l == NonList(true) ==> !Admits(l, v) && !CropMatches(l, crops)
  {
  }

  /** Crop matching ignores case on both sides: lower-casing the target
      list, or a farmer's crop names, changes no outcome. */
  lemma {:induction false} CropMatchIgnoresCase(targets: seq<string>, crops: seq<Crop>)
    ensures var lowered := seq(|targets|, i requires 0 <= i < |targets| => ToLower(targets[i]));
            CropMatches(List(lowered), crops) == CropMatches(List(targets), crops)
    ensures var lowered := seq(|crops|, i requires 0 <= i < |crops| => crops[i].(cropName := ToLower(crops[i].cropName)));
            CropMatches(List(targets), lowered) == CropMatches(List(targets), crops)
  {
    var lowered := seq(|targets|, i requires 0 <= i < |targets| => ToLower(targets[i]));
    forall i | 0 <= i < |targets| ensures ToLower(lowered[i]) == ToLower(targets[i]) {
      ToLowerIdempotent(targets[i]);
    }
    var loweredCrops := seq(|crops|, i requires 0 <= i < |crops| => crops[i].(cropName := ToLower(crops[i].cropName)));
    forall j | 0 <= j < |crops| ensures CropNames(loweredCrops)[j] == CropNames(crops)[j] {
      ToLowerIdempotent(crops[j].cropName);
    }
    assert CropNames(loweredCrops) == CropNames(crops);
  }

  /** State (and category) matching is case-sensitive: "punjab" in the
      scheme list does not admit a farmer in "Punjab". */
  lemma StateMatchIsExact()
    ensures !Admits(List(["punjab"]), Some("Punjab"))
    ensures Admits(List(["Punjab"]), Some("Punjab"))
    ensures !Admits(List(["Punjab"]), None)
  {
    assert "punjab" != "Punjab" by {
      assert "punjab"[0] != "Punjab"[0];
    }
  }

  /** A farmer without a (truthy) age is scored on four criteria, so any
      three of them suffice for 75. */
  lemma ThreeOfFourIs75(p: FarmerProfile, s: Scheme)
    requires !AgeCounted(p.farmer)
    requires Score(Evaluate(p, s)) == 3
    ensures MatchPercentage(p, s) == 75
  {
  }

  /** A farmer with an age is scored on five criteria: three of five met
      gives 60, two gives 40. */
  lemma FiveCriteriaScores(p: FarmerProfile, s: Scheme)
    requires AgeCounted(p.farmer)
    ensures Score(Evaluate(p, s)) == 3 ==> MatchPercentage(p, s) == 60
    ensures Score(Evaluate(p, s)) == 2 ==> MatchPercentage(p, s) == 40
  {
  }
}
