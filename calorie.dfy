/** The metabolic calculator: the Mifflin–St Jeor basal metabolic rate and the
    total daily energy expenditure derived from it. */
module Calorie {
  import opened JsMath

  /** Basal metabolic rate in kcal/day. Any gender other than "male" gets the female offset. */
  function CalcBMR(weightKg: real, heightCm: real, age: real, gender: string): (bmr: real)
    ensures var offset := bmr - (10.0 * weightKg + 6.25 * heightCm - 5.0 * age);
            (gender == "male" ==> offset == 5.0) && (gender != "male" ==> offset == -161.0)
  {
    var s := if gender == "male" then 5.0 else -161.0;
    10.0 * weightKg + 6.25 * heightCm - 5.0 * age + s
  }

  /** Total daily energy expenditure: the BMR scaled by the activity factor, rounded half-up. */
  function CalcTDEE(bmr: real, activityFactor: real): (tdee: int)
    ensures bmr * activityFactor - 0.5 < tdee as real <= bmr * activityFactor + 0.5
  {
    Round(bmr * activityFactor)
  }

  /** The sex offset: with every measurement zero, only the offset remains. */
  lemma SexOffset(gender: string)
    ensures CalcBMR(0.0, 0.0, 0.0, "male") == 5.0
    ensures CalcBMR(0.0, 0.0, 0.0, "female") == -161.0
    ensures gender != "male" ==> CalcBMR(0.0, 0.0, 0.0, gender) == -161.0
  {
  }

  lemma MaleFemaleDifference(weightKg: real, heightCm: real, age: real)
    ensures CalcBMR(weightKg, heightCm, age, "male") - CalcBMR(weightKg, heightCm, age, "female") == 166.0
  {
  }

  /** One more kilogram, centimetre or year moves the BMR by 10, 6.25 and -5. */
  lemma BMRAffine(weightKg: real, heightCm: real, age: real, gender: string)
    ensures CalcBMR(weightKg + 1.0, heightCm, age, gender) == CalcBMR(weightKg, heightCm, age, gender) + 10.0
    ensures CalcBMR(weightKg, heightCm + 1.0, age, gender) == CalcBMR(weightKg, heightCm, age, gender) + 6.25
    ensures CalcBMR(weightKg, heightCm, age + 1.0, gender) == CalcBMR(weightKg, heightCm, age, gender) - 5.0
  {
  }

  lemma BMRWorkedValues()
    ensures CalcBMR(70.0, 175.0, 30.0, "male") == 1648.75
    ensures CalcBMR(70.0, 175.0, 30.0, "female") == 1482.75
  {
  }

  /** 1648.75 * 1.2 is exactly 1978.5, which rounds up. */
  lemma TDEEWorkedValue()
    ensures CalcTDEE(1648.75, 1.2) == 1979
  {
    RoundHalfUp(1978);
  }

  lemma TDEEMonotone(bmr1: real, bmr2: real, activityFactor: real)
    requires bmr1 <= bmr2 && 0.0 <= activityFactor
    ensures CalcTDEE(bmr1, activityFactor) <= CalcTDEE(bmr2, activityFactor)
  {
    assert bmr2 * activityFactor - bmr1 * activityFactor == (bmr2 - bmr1) * activityFactor;
    assert bmr1 * activityFactor <= bmr2 * activityFactor;
    RoundMonotone(bmr1 * activityFactor, bmr2 * activityFactor);
  }

  lemma TDEEUnitFactor(bmr: real)
    ensures CalcTDEE(bmr, 1.0) == Round(bmr)
  {
  }
}
