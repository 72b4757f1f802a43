/** The records the pages exchange (`Exercise`, `DogInfo`), with the two shapes a
    step list arrives in: plain strings from the local recommender and older
    saves, `{ step, stepDuration }` records from the AI route and the custom
    exercise form. */
module Exercises {
  import opened Seqs

  datatype Difficulty = Easy | Medium | Hard

  /** The string the difficulty is stored and compared as. */
  function DifficultyName(d: Difficulty): string
  {
    match d
    case Easy => "easy"
    case Medium => "medium"
    case Hard => "hard"
  }

  /** One element of an exercise's `steps` array. */
  datatype RawStep = Plain(text: string) | Structured(step: string, stepDuration: int)

  /** An exercise card. `steps` is `None` when the stored record has no `steps`
      at all; `contact` is only present on exercises the AI route produced. */
  datatype Exercise = Exercise(
    id: string,
    name: string,
    description: string,
    difficulty: Difficulty,
    duration: int,
    equipment: seq<string>,
    steps: Option<seq<RawStep>>,
    benefits: seq<string>,
    imageUrl: Option<string>,
    warmupSteps: Option<seq<string>>,
    cooldownSteps: Option<seq<string>>,
    isCustom: bool,
    contact: Option<string>)

  datatype ActivityLevel = Low | Moderate | High

  /** The dog as the result page reads it back from local storage. Age and
      weight are exact rationals. */
  datatype DogInfo = DogInfo(
    name: string,
    gender: string,
    age: real,
    breed: string,
    weight: real,
    activityLevel: ActivityLevel,
    healthIssues: seq<string>)
}
