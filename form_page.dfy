/** The five-step profile wizard: step-1 validation, the step counter, the age
    and weight steppers (in tenths), the activity and equipment toggles with the
    selected-key lists derived from them, and the duplicate-save guard. Age and
    weight are exact rationals; `Math.round` is rounding half up. */
module FormPage {
  import opened Seqs
  import Records

  /** `Math.round`: the nearest integer, halves rounded up. */
  function Round(x: real): (n: int)
    ensures n as real - 0.5 <= x < n as real + 0.5
  {
    (x + 0.5).Floor
  }

  /** `x` is a whole number of tenths. */
  predicate Tenths(x: real)
  {
    (x * 10.0).Floor as real == x * 10.0
  }

  function Max(a: real, b: real): real
  {
    if a >= b then a else b
  }

  /** `handleAgeChange(increment)`: the sum rounded to tenths, at least 0.1. */
  function AgeStep(age: real, increment: real): (a: real)
    ensures a >= 0.1 && Tenths(a)
    ensures a == Max(0.1, Round((age + increment) * 10.0) as real / 10.0)
  {
    var t := Round((age + increment) * 10.0);
    assert (t as real / 10.0) * 10.0 == t as real;
    Max(0.1, t as real / 10.0)
  }

  /** `handleWeightChange(increment)`: both operands rounded to tenths before
      adding, so the sum carries no binary fraction error; at least 0.1. */
  function WeightStep(weight: real, increment: real): (w: real)
    ensures w >= 0.1 && Tenths(w)
    ensures w == Max(0.1, (Round(weight * 10.0) + Round(increment * 10.0)) as real / 10.0)
  {
    var t := Round(weight * 10.0) + Round(increment * 10.0);
    assert (t as real / 10.0) * 10.0 == t as real;
    Max(0.1, t as real / 10.0)
  }

  lemma RoundWhole(n: int)
    ensures Round(n as real) == n
  {
  }

  /** On an age held in tenths, "+" moves up by exactly 0.1 and "-" undoes it. */
  lemma AgeStepUpDown(age: real)
    requires Tenths(age) && age >= 0.1
    ensures AgeStep(age, 0.1) == age + 0.1
    ensures AgeStep(AgeStep(age, 0.1), -0.1) == age
  {
    var n := (age * 10.0).Floor;
    assert (age + 0.1) * 10.0 == (n + 1) as real;
    RoundWhole(n + 1);
    assert (age + 0.1 - 0.1) * 10.0 == n as real;
    RoundWhole(n);
  }

  /** "-" at 0.1 stays at 0.1. */
  lemma AgeStepFloor(age: real)
    requires 0.0 <= age <= 0.1
    ensures AgeStep(age, -0.1) == 0.1
  {
  }

  /** On a weight held in tenths, "+" moves up by exactly 0.1 and "-" undoes it;
      "-" at 0.1 stays at 0.1. */
  lemma WeightStepUpDown(weight: real)
    requires Tenths(weight) && weight >= 0.1
    ensures WeightStep(weight, 0.1) == weight + 0.1
    ensures WeightStep(WeightStep(weight, 0.1), -0.1) == weight
    ensures weight == 0.1 ==> WeightStep(weight, -0.1) == 0.1
  {
    var n := (weight * 10.0).Floor;
    RoundWhole(n);
    RoundWhole(1);
    RoundWhole(-1);
    assert 0.1 * 10.0 == 1 as real && -0.1 * 10.0 == -1 as real;
    assert (weight + 0.1) * 10.0 == (n + 1) as real;
    RoundWhole(n + 1);
  }

  /** `{ ...r, [k]: !r[k] }`: an absent key reads as `undefined`, so it becomes true. */
  function Toggle(r: Records.Record<bool>, k: string): (r': Records.Record<bool>)
    ensures Records.Get(r', k) == Some(!(Records.Get(r, k) == Some(true)))
    ensures forall k' :: k' != k ==> Records.Get(r', k') == Records.Get(r, k')
    ensures k in Records.Keys(r) ==> Records.Keys(r') == Records.Keys(r)
  {
    var r' := Records.Put(r, k, !(Records.Get(r, k) == Some(true)));
    Records.GetPut(r, k, !(Records.Get(r, k) == Some(true)), k);
    forall k' | k' != k ensures Records.Get(r', k') == Records.Get(r, k') {
      Records.GetPut(r, k, !(Records.Get(r, k) == Some(true)), k');
    }
    r'
  }

  /** Toggling a listed key twice restores the map. */
  lemma ToggleTwice(r: Records.Record<bool>, k: string)
    requires Records.DistinctKeys(r) && k in Records.Keys(r)
    ensures Toggle(Toggle(r, k), k) == r
  {
    var v := Records.Get(r, k).value;
    Records.PutPut(r, k, !v, v);
    Records.PutSame(r, k, v);
  }

  /** `Object.keys(r).filter(k => r[k])`. */
  function Selected(r: Records.Record<bool>): seq<string>
  {
    Records.KeysWhere(r, (b: bool) => b)
  }

  /** The selected list names exactly the keys mapped to true, in key order. */
  lemma SelectedExactly(r: Records.Record<bool>, k: string)
    requires Records.DistinctKeys(r)
    ensures k in Selected(r) <==> Records.Get(r, k) == Some(true)
    ensures SubsequenceOf(Selected(r), Records.Keys(r))
  {
    Records.KeysWhereExactly(r, (b: bool) => b, k);
  }

  datatype Preferences = Preferences(selected: seq<string>, intensity: Records.Record<int>)

  /** The wizard's `dogInfo`. */
  datatype FormDog = FormDog(
    name: string,
    age: real,
    breed: string,
    weight: real,
    activityLevel: string,
    healthIssues: seq<string>,
    gender: string,
    preferences: Option<Preferences>,
    equipment: Option<seq<string>>)

  /** Why "next" refused to leave step 1. */
  datatype Blocker = MissingName | MissingGender | MissingBreed

  datatype NextOutcome = Blocked(reason: Blocker) | Advanced | SaveRequested

  function Flags(keys: seq<string>): (r: Records.Record<bool>)
    ensures Records.Keys(r) == keys
    ensures forall i :: 0 <= i < |r| ==> !r[i].1
  {
    seq(|keys|, i requires 0 <= i < |keys| => (keys[i], false))
  }

  function Zeros(keys: seq<string>): (r: Records.Record<int>)
    ensures Records.Keys(r) == keys
  {
    seq(|keys|, i requires 0 <= i < |keys| => (keys[i], 0))
  }

  const ActivityKeys: seq<string> := ["running", "jumping", "climbing", "balance", "holding"]
  const EquipmentKeys: seq<string> :=
    ["cone_bar", "balance_cushion", "balance_disc", "donut_ball", "yoga_block", "platform_board"]

  class ProfileForm {
    var step: int
    var dogInfo: FormDog
    var selectedActivities: Records.Record<bool>
    var intensities: Records.Record<int>
    var selectedEquipment: Records.Record<bool>
    var isSaving: bool
    var isSaved: bool

    /** The step is one of the five; the maps have distinct keys; the dog's
        preferences and equipment, once set, mirror the toggles. */
    ghost predicate Valid()
      reads this
    {
      && 1 <= step <= 5
      && Records.DistinctKeys(selectedActivities)
      && Records.DistinctKeys(selectedEquipment)
      && Records.DistinctKeys(intensities)
      && (dogInfo.preferences.Some? ==>
            dogInfo.preferences.value == Preferences(Selected(selectedActivities), intensities))
      && (dogInfo.equipment.Some? ==> dogInfo.equipment.value == Selected(selectedEquipment))
    }

    constructor ()
      ensures Valid() && step == 1 && !isSaving && !isSaved
      ensures dogInfo == FormDog("", 0.0, "", 0.1, "medium", [], "", None, None)
      ensures selectedActivities == Flags(ActivityKeys) && intensities == Zeros(ActivityKeys)
      ensures selectedEquipment == Flags(EquipmentKeys)
    {
      step := 1;
      dogInfo := FormDog("", 0.0, "", 0.1, "medium", [], "", None, None);
      selectedActivities := Flags(ActivityKeys);
      intensities := Zeros(ActivityKeys);
      selectedEquipment := Flags(EquipmentKeys);
      isSaving, isSaved := false, false;
    }

    /** `handleNext`: at step 1 the name, then the gender, then the breed must be
        non-empty, the first missing one blocking; below step 5 the step
        advances; at step 5 the full profile is to be saved. */
    method Next() returns (outcome: NextOutcome)
      modifies this`step
      ensures outcome == Blocked(MissingName) <==> old(step) == 1 && dogInfo.name == ""
      ensures outcome == Blocked(MissingGender) <==> old(step) == 1 && dogInfo.name != "" && dogInfo.gender == ""
      ensures outcome == Blocked(MissingBreed) <==>
        old(step) == 1 && dogInfo.name != "" && dogInfo.gender != "" && dogInfo.breed == ""
      ensures outcome.Blocked? ==> old(step) == 1
      ensures outcome.Blocked? || outcome == SaveRequested ==> step == old(step)
      ensures outcome == Advanced <==> !outcome.Blocked? && old(step) < 5
      ensures outcome == Advanced ==> step == old(step) + 1
      ensures old(Valid()) ==> Valid()
    {
      if step == 1 {
        if dogInfo.name == "" {
          return Blocked(MissingName);
        }
        if dogInfo.gender == "" {
          return Blocked(MissingGender);
        }
        if dogInfo.breed == "" {
          return Blocked(MissingBreed);
        }
      }
      if step < 5 {
        step := step + 1;
        outcome := Advanced;
      } else {
        outcome := SaveRequested;
      }
    }

    /** `handleBack`, offered only from step 2 on. */
    method Back()
      modifies this`step
      ensures step == old(step) - 1
      ensures old(Valid()) && old(step) > 1 ==> Valid()
    {
      step := step - 1;
    }

    method AgeChange(increment: real)
      modifies this`dogInfo
      ensures dogInfo == old(dogInfo).(age := AgeStep(old(dogInfo.age), increment))
      ensures dogInfo.age >= 0.1 && Tenths(dogInfo.age)
      ensures old(Valid()) ==> Valid()
    {
      dogInfo := dogInfo.(age := Max(0.1, Round((dogInfo.age + increment) * 10.0) as real / 10.0));
    }

    method WeightChange(increment: real)
      modifies this`dogInfo
      ensures dogInfo == old(dogInfo).(weight := WeightStep(old(dogInfo.weight), increment))
      ensures dogInfo.weight >= 0.1 && Tenths(dogInfo.weight)
      ensures old(Valid()) ==> Valid()
    {
      var scaled := Round(dogInfo.weight * 10.0);
      var incrementScaled := Round(increment * 10.0);
      dogInfo := dogInfo.(weight := Max(0.1, (scaled + incrementScaled) as real / 10.0));
    }

    method GenderChange(gender: string)
      modifies this`dogInfo
      ensures dogInfo == old(dogInfo).(gender := gender)
      ensures old(Valid()) ==> Valid()
    {
      dogInfo := dogInfo.(gender := gender);
    }

    method BreedSelect(breed: string)
      modifies this`dogInfo
      ensures dogInfo == old(dogInfo).(breed := breed)
      ensures old(Valid()) ==> Valid()
    {
      dogInfo := dogInfo.(breed := breed);
    }

    /** `toggleActivity` with `updatePreferences`: one key flips and the
        dog's preferences are rebuilt from the new map. */
    method ToggleActivity(activity: string)
      modifies this`selectedActivities, this`dogInfo
      ensures selectedActivities == Toggle(old(selectedActivities), activity)
      ensures dogInfo == old(dogInfo).(preferences := Some(Preferences(Selected(selectedActivities), intensities)))
      ensures old(Valid()) ==> Valid()
    {
      var updated := Records.Put(selectedActivities, activity,
                                 !(Records.Get(selectedActivities, activity) == Some(true)));
      if Records.DistinctKeys(selectedActivities) {
        Records.PutKeepsDistinct(selectedActivities, activity,
                                 !(Records.Get(selectedActivities, activity) == Some(true)));
      }
      selectedActivities := updated;
      dogInfo := dogInfo.(preferences := Some(Preferences(Selected(updated), intensities)));
    }

    /** `updateIntensity` with `updatePreferences`. */
    method UpdateIntensity(activity: string, value: int)
      modifies this`intensities, this`dogInfo
      ensures intensities == Records.Put(old(intensities), activity, value)
      ensures dogInfo == old(dogInfo).(preferences := Some(Preferences(Selected(selectedActivities), intensities)))
      ensures old(Valid()) ==> Valid()
    {
      if Records.DistinctKeys(intensities) {
        Records.PutKeepsDistinct(intensities, activity, value);
      }
      intensities := Records.Put(intensities, activity, value);
      dogInfo := dogInfo.(preferences := Some(Preferences(Selected(selectedActivities), intensities)));
    }

    /** `toggleEquipment` with `updateDogFormEquipment`. */
    method ToggleEquipment(key: string)
      modifies this`selectedEquipment, this`dogInfo
      ensures selectedEquipment == Toggle(old(selectedEquipment), key)
      ensures dogInfo == old(dogInfo).(equipment := Some(Selected(selectedEquipment)))
      ensures old(Valid()) ==> Valid()
    {
      var updated := Records.Put(selectedEquipment, key,
                                 !(Records.Get(selectedEquipment, key) == Some(true)));
      if Records.DistinctKeys(selectedEquipment) {
        Records.PutKeepsDistinct(selectedEquipment, key,
                                 !(Records.Get(selectedEquipment, key) == Some(true)));
      }
      selectedEquipment := updated;
      dogInfo := dogInfo.(equipment := Some(Selected(updated)));
    }

    /** The guard of `handleSaveProfile`: nothing happens while a save is in
        flight or after one succeeded; otherwise a save starts. */
    method BeginSave() returns (started: bool)
      modifies this`isSaving
      ensures started <==> !old(isSaving) && !isSaved
      ensures isSaving == (old(isSaving) || started)
    {
      if isSaved || isSaving {
        return false;
      }
      isSaving := true;
      started := true;
    }

    /** The end of `handleSaveProfile`: `succeeded` is whether the upsert
        reported no error. */
    method FinishSave(succeeded: bool)
      modifies this`isSaving, this`isSaved
      ensures !isSaving && isSaved == (old(isSaved) || succeeded)
    {
      if succeeded {
        isSaved := true;
      }
      isSaving := false;
    }
  }

  /** After a successful save, no further save can start. */
  method SaveOnce(form: ProfileForm) returns (first: bool, second: bool)
    requires !form.isSaving && !form.isSaved
    modifies form
    ensures first && !second
  {
    first := form.BeginSave();
    form.FinishSave(true);
    second := form.BeginSave();
  }

  /** A save in flight blocks a second one. */
  method SaveWhileSaving(form: ProfileForm) returns (first: bool, second: bool)
    requires !form.isSaving && !form.isSaved
    modifies form
    ensures first && !second
  {
    first := form.BeginSave();
    second := form.BeginSave();
  }

  /** From a valid state below step 5, "next" then "back" returns to the same
      step, and a blocked "next" can only happen at step 1. */
  method NextThenBack(form: ProfileForm) returns (outcome: NextOutcome)
    requires form.Valid() && form.step < 5
    modifies form
    ensures form.Valid()
    ensures outcome == Advanced ==> form.step == old(form.step)
    ensures outcome.Blocked? ==> form.step == old(form.step) == 1
  {
    outcome := form.Next();
    if outcome == Advanced {
      form.Back();
    }
  }
}
