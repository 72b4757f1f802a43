/** The recommendation carousel: step normalisation, assembly of the card list,
    wrap-around navigation, the custom-exercise form and the image chosen for
    a card. */
module ResultPage {
  import opened Seqs
  import opened Exercises
  import Utils
  import Text

  /** Seconds given to a step that arrives as a plain string. */
  const DefaultStepSeconds: int := 60

  function StepText(x: RawStep): string
  {
    match x
    case Plain(t) => t
    case Structured(t, _) => t
  }

  function Texts(s: seq<RawStep>): (ts: seq<string>)
    ensures |ts| == |s| && forall i :: 0 <= i < |s| ==> ts[i] == StepText(s[i])
  {
    seq(|s|, i requires 0 <= i < |s| => StepText(s[i]))
  }

  /** One step of a list whose head is a plain string: `{ step: s, stepDuration: 60 }`. */
  function WithDefaultDuration(x: RawStep): (y: RawStep)
    ensures y.Structured? && y.step == StepText(x) && y.stepDuration == DefaultStepSeconds
  {
    Structured(StepText(x), DefaultStepSeconds)
  }

  function MapDefaultDuration(s: seq<RawStep>): (r: seq<RawStep>)
    ensures |r| == |s| && forall i :: 0 <= i < |s| ==> r[i] == WithDefaultDuration(s[i])
  {
    seq(|s|, i requires 0 <= i < |s| => WithDefaultDuration(s[i]))
  }

  /** `normalizeSteps` of the load effect: no list gives `[]`; a non-empty list
      whose first element is a string becomes records of 60 seconds; any other
      list is returned as it is, durations unchecked. */
  function NormalizeSteps(steps: Option<seq<RawStep>>): (r: seq<RawStep>)
    ensures steps.None? ==> r == []
    ensures steps.Some? ==> |r| == |steps.value| && Texts(r) == Texts(steps.value)
    ensures steps.Some? && steps.value != [] && steps.value[0].Plain? ==>
      forall i :: 0 <= i < |r| ==> r[i].Structured? && r[i].stepDuration == DefaultStepSeconds
    ensures steps.Some? && (steps.value == [] || steps.value[0].Structured?) ==> r == steps.value
    ensures r == [] || r[0].Structured?
  {
    match steps
    case None => []
    case Some(s) => if |s| > 0 && s[0].Plain? then MapDefaultDuration(s) else s
  }

  /** The copy of `normalizeSteps` in `handleAddCustomExercise`, which tests the
      first element without testing the length first. */
  function NormalizeNewSteps(steps: Option<seq<RawStep>>): seq<RawStep>
  {
    if steps.None? then []
    else
      var s := steps.value;
      if s == [] then s
      else match s[0]
        case Plain(_) => MapDefaultDuration(s)
        case Structured(_, _) => s
  }

  /** The two copies agree on every input. */
  lemma NormalizeCopiesAgree(steps: Option<seq<RawStep>>)
    ensures NormalizeNewSteps(steps) == NormalizeSteps(steps)
  {
  }

  /** Normalising a normalised list changes nothing. */
  lemma NormalizeIdempotent(steps: Option<seq<RawStep>>)
    ensures NormalizeSteps(Some(NormalizeSteps(steps))) == NormalizeSteps(steps)
  {
    var r := NormalizeSteps(steps);
    assert r == [] || r[0].Structured?;
  }

  /** A list written in one shape only comes out all records: no plain string is
      left for the card to render. */
  lemma NormalizeHomogeneous(s: seq<RawStep>)
    requires (forall i :: 0 <= i < |s| ==> s[i].Plain?) || (forall i :: 0 <= i < |s| ==> s[i].Structured?)
    ensures forall i :: 0 <= i < |NormalizeSteps(Some(s))| ==> NormalizeSteps(Some(s))[i].Structured?
  {
  }

  // ---- assembling the card list --------------------------------------------

  /** A stored or generated recommendation: `isCustom` forced to false, steps normalised. */
  function AsRecommendation(e: Exercise): (e': Exercise)
    ensures !e'.isCustom && e'.steps == Some(NormalizeSteps(e.steps))
    ensures e' == e.(isCustom := false, steps := e'.steps)
  {
    e.(isCustom := false, steps := Some(NormalizeSteps(e.steps)))
  }

  /** A stored custom exercise: steps normalised, everything else kept. */
  function AsStoredCustom(e: Exercise): (e': Exercise)
    ensures e' == e.(steps := Some(NormalizeSteps(e.steps)))
  {
    e.(steps := Some(NormalizeSteps(e.steps)))
  }

  function MapRecommendations(xs: seq<Exercise>): (r: seq<Exercise>)
    ensures |r| == |xs| && forall i :: 0 <= i < |xs| ==> r[i] == AsRecommendation(xs[i])
  {
    seq(|xs|, i requires 0 <= i < |xs| => AsRecommendation(xs[i]))
  }

  function MapStoredCustom(xs: seq<Exercise>): (r: seq<Exercise>)
    ensures |r| == |xs| && forall i :: 0 <= i < |xs| ==> r[i] == AsStoredCustom(xs[i])
  {
    seq(|xs|, i requires 0 <= i < |xs| => AsStoredCustom(xs[i]))
  }

  datatype LoadOutcome = RedirectToProfile | Loaded(exercises: seq<Exercise>)

  /** The load effect, given what local storage holds: the selected profile id,
      the dog, the stored recommendations and the stored custom exercises. */
  function Load(profileId: Option<string>, dog: Option<DogInfo>, saved: seq<Exercise>,
                custom: seq<Exercise>): LoadOutcome
  {
    if profileId.None? || profileId.value == "" then RedirectToProfile
    else if |saved| > 0 then Loaded(MapRecommendations(saved) + MapStoredCustom(custom))
    else if dog.Some? then Loaded(MapRecommendations(Utils.Recommend(dog.value)) + MapStoredCustom(custom))
    else RedirectToProfile
  }

  /** Cards load exactly when a profile id is stored and there are stored
      recommendations or a dog to generate them for; otherwise the visitor is
      sent to the profile page. */
  lemma LoadWhen(profileId: Option<string>, dog: Option<DogInfo>, saved: seq<Exercise>,
                 custom: seq<Exercise>)
    ensures Load(profileId, dog, saved, custom).Loaded? <==>
      profileId.Some? && profileId.value != "" && (|saved| > 0 || dog.Some?)
  {
  }

  /** The card list is the recommendations (stored ones when there are any,
      otherwise the generated ones, which are never empty), mapped, followed by
      the custom exercises, mapped; `CardsShape` says what that list holds. */
  lemma LoadShape(profileId: Option<string>, dog: Option<DogInfo>, saved: seq<Exercise>,
                  custom: seq<Exercise>)
    requires profileId.Some? && profileId.value != "" && (|saved| > 0 || dog.Some?)
    ensures var recs := if |saved| > 0 then saved else Utils.Recommend(dog.value);
      && Load(profileId, dog, saved, custom) == Loaded(MapRecommendations(recs) + MapStoredCustom(custom))
      && |recs| > 0
  {
    var recs := if |saved| > 0 then saved else Utils.Recommend(dog.value);
    assert Load(profileId, dog, saved, custom) == Loaded(MapRecommendations(recs) + MapStoredCustom(custom));
    if |saved| == 0 {
      Utils.RecommendNonEmpty(dog.value);
    }
  }

  /** The recommendations, mapped, come first and the custom exercises, mapped, after them. */
  lemma CardsShape(recs: seq<Exercise>, custom: seq<Exercise>)
    ensures var list := MapRecommendations(recs) + MapStoredCustom(custom);
      && |list| == |recs| + |custom|
      && (forall i :: 0 <= i < |recs| ==> list[i] == AsRecommendation(recs[i]) && !list[i].isCustom)
      && (forall j :: 0 <= j < |custom| ==> list[|recs| + j] == AsStoredCustom(custom[j]))
  {
    var list := MapRecommendations(recs) + MapStoredCustom(custom);
    forall j | 0 <= j < |custom| ensures list[|recs| + j] == AsStoredCustom(custom[j]) {
      assert list[|recs| + j] == MapStoredCustom(custom)[j];
    }
  }

  /** Generated recommendations reach the carousel with every step a 60-second record. */
  lemma GeneratedStepsAreTimed(dog: DogInfo, i: nat)
    requires i < |Utils.Recommend(dog)|
    ensures var e := AsRecommendation(Utils.Recommend(dog)[i]);
      && |e.steps.value| > 0
      && forall k :: 0 <= k < |e.steps.value| ==>
           e.steps.value[k].Structured? && e.steps.value[k].stepDuration == DefaultStepSeconds
  {
    Utils.RecommendProperties(dog);
  }

  // ---- carousel navigation --------------------------------------------------

  /** `handleNext`: the last card wraps to the first. */
  function NextIndex(i: int, n: int): (j: int)
    ensures 0 <= i < n ==> 0 <= j < n
    ensures 0 <= i < n ==> j == (i + 1) % n
  {
    if i == n - 1 then 0 else i + 1
  }

  /** `handlePrevious`: the first card wraps to the last. */
  function PrevIndex(i: int, n: int): (j: int)
    ensures 0 <= i < n ==> 0 <= j < n
    ensures 0 <= i < n ==> j == (i - 1 + n) % n
  {
    if i == 0 then n - 1 else i - 1
  }

  /** Next and previous undo each other on a valid index. */
  lemma NextPrevInverse(i: int, n: int)
    requires 0 <= i < n
    ensures PrevIndex(NextIndex(i, n), n) == i && NextIndex(PrevIndex(i, n), n) == i
  {
  }

  function NextTimes(i: int, n: int, k: nat): int
    decreases k
  {
    if k == 0 then i else NextIndex(NextTimes(i, n, k - 1), n)
  }

  /** Pressing next `k` times, for `k` up to the number of cards, moves `k`
      cards forward and wraps once past the last; `n` presses come back to the
      starting card. */
  lemma {:induction false} NextTimesForward(i: int, n: int, k: nat)
    requires 0 <= i < n && k <= n
    ensures NextTimes(i, n, k) == if i + k < n then i + k else i + k - n
    decreases k
  {
    if k > 0 {
      NextTimesForward(i, n, k - 1);
    }
  }

  lemma NextTimesCycle(i: int, n: int)
    requires 0 <= i < n
    ensures NextTimes(i, n, n) == i
  {
    NextTimesForward(i, n, n);
  }

  // ---- card image -------------------------------------------------------------

  const ImageFiles: seq<string> := [
    "agility-pivot_fullBody", "balance-donut_fullBody", "balance-fitbone-stand_fullBody",
    "donut-balance_frontPawsOnly", "fitbone-static-stand_fullBody", "circuit-roll_floorOnly",
    "climbing-lowstep_frontPawsOnly", "confidence-box_fullBody", "core-elevated-push_rearPawsElevated",
    "core-sitstand_bodyweight", "donut-balance_frontPawsOnly", "fitbone-static-stand_fullBody",
    "focus-touchmat_bodyweight", "jump-hurdle_bodyweight", "strength-cavaletti-step_fullBody",
    "strength-plank_fullBody"]

  const DefaultImage: string := "/images/exercises/default.png"

  function ImagePath(f: string): string
  {
    "/images/exercises/" + f + ".png"
  }

  /** The file-name suffix for a `contact` value; a missing or unknown value counts as "bodyweight". */
  function Suffix(contact: Option<string>): (s: string)
    ensures s in ["frontPawsOnly", "rearPawsElevated", "fullBody", "bodyweight"]
    ensures contact.None? ==> s == "bodyweight"
  {
    if contact == Some("frontlegs") then "frontPawsOnly"
    else if contact == Some("hindlegs") then "rearPawsElevated"
    else if contact == Some("wholebody") then "fullBody"
    else "bodyweight"
  }

  /** `normalized`: hyphens and underscores removed, letters lower-cased. */
  function Normalized(s: string): string
  {
    Text.ToLower(Text.StripSeparators(s))
  }

  lemma NormalizedConcat(a: string, b: string)
    ensures Normalized(a + b) == Normalized(a) + Normalized(b)
  {
    Text.StripSeparatorsConcat(a, b);
    Text.ToLowerConcat(Text.StripSeparators(a), Text.StripSeparators(b));
  }

  /** The id with whitespace runs replaced by hyphens, lower-cased. */
  function BaseName(id: string): string
  {
    Text.ToLower(Text.HyphenateSpaces(id))
  }

  predicate Mentions(file: string, part: string)
  {
    Contains(Normalized(file), Normalized(part))
  }

  /** The file `getExerciseImageFilename` settles on: the first listed file
      mentioning both the id and the contact suffix, else the first mentioning
      the id, else the first mentioning the suffix. */
  function ChosenFile(e: Exercise): Option<string>
  {
    ChooseFrom(ImageFiles, BaseName(e.id), Suffix(e.contact))
  }

  function ChooseFrom(files: seq<string>, base: string, suffix: string): Option<string>
  {
    Tiered(files, MentioningBoth(base, suffix), Mentioning(base), Mentioning(suffix))
  }

  /** The first element passing `p1`, else the first passing `p2`, else the first passing `p3`. */
  function Tiered<T(==)>(s: seq<T>, p1: T -> bool, p2: T -> bool, p3: T -> bool): Option<T>
  {
    var first := FirstMatch(s, p1);
    if first.Some? then first
    else
      var second := FirstMatch(s, p2);
      if second.Some? then second else FirstMatch(s, p3)
  }

  lemma TieredChoice<T>(s: seq<T>, p1: T -> bool, p2: T -> bool, p3: T -> bool, k: int)
    requires 0 <= k < |s|
    ensures p3(s[k]) || p2(s[k]) || p1(s[k]) ==> Tiered(s, p1, p2, p3).Some?
    ensures Tiered(s, p1, p2, p3).Some? ==> Tiered(s, p1, p2, p3).value in s
    ensures p1(s[k]) ==> p1(Tiered(s, p1, p2, p3).value)
    ensures p2(s[k]) ==> p1(Tiered(s, p1, p2, p3).value) || p2(Tiered(s, p1, p2, p3).value)
    ensures var f := Tiered(s, p1, p2, p3); f.Some? ==> p1(f.value) || p2(f.value) || p3(f.value)
    ensures p1(s[k]) ==> Tiered(s, p1, p2, p3).Some? && FirstIn(s, p1, Tiered(s, p1, p2, p3).value)
    ensures (forall i :: 0 <= i < |s| ==> !p1(s[i])) && p2(s[k]) ==>
      Tiered(s, p1, p2, p3).Some? && FirstIn(s, p2, Tiered(s, p1, p2, p3).value)
    ensures (forall i :: 0 <= i < |s| ==> !p1(s[i]) && !p2(s[i])) && p3(s[k]) ==>
      Tiered(s, p1, p2, p3).Some? && FirstIn(s, p3, Tiered(s, p1, p2, p3).value)
    ensures (forall i :: 0 <= i < |s| ==> !p1(s[i]) && !p2(s[i]) && !p3(s[i])) ==> Tiered(s, p1, p2, p3).None?
  {
  }

  /** The three tiers over any list of files: a file is found whenever one
      mentions the suffix, and the file found satisfies the best tier some file
      satisfies. */
  lemma ChooseFromTiers(files: seq<string>, base: string, suffix: string, k: int)
    requires 0 <= k < |files|
    ensures Mentions(files[k], suffix) ==> ChooseFrom(files, base, suffix).Some?
    ensures ChooseFrom(files, base, suffix).Some? ==> ChooseFrom(files, base, suffix).value in files
    ensures Mentions(files[k], base) && Mentions(files[k], suffix) ==>
      var f := ChooseFrom(files, base, suffix); f.Some? && Mentions(f.value, base) && Mentions(f.value, suffix)
    ensures Mentions(files[k], base) ==>
      var f := ChooseFrom(files, base, suffix); f.Some? && Mentions(f.value, base)
    ensures var f := ChooseFrom(files, base, suffix);
      f.Some? ==> Mentions(f.value, base) || Mentions(f.value, suffix)
    ensures Mentions(files[k], base) && Mentions(files[k], suffix) ==>
      FirstIn(files, MentioningBoth(base, suffix), ChooseFrom(files, base, suffix).value)
    ensures (forall i :: 0 <= i < |files| ==> !MentioningBoth(base, suffix)(files[i])) && Mentions(files[k], base) ==>
      FirstIn(files, Mentioning(base), ChooseFrom(files, base, suffix).value)
    ensures ((forall i :: 0 <= i < |files| ==> !MentioningBoth(base, suffix)(files[i]) && !Mentioning(base)(files[i]))
             && Mentions(files[k], suffix)) ==>
      FirstIn(files, Mentioning(suffix), ChooseFrom(files, base, suffix).value)
  {
    TieredChoice(files, MentioningBoth(base, suffix), Mentioning(base), Mentioning(suffix), k);
  }

  function Mentioning(part: string): string -> bool
  {
    f => Mentions(f, part)
  }

  function MentioningBoth(a: string, b: string): string -> bool
  {
    f => Mentions(f, a) && Mentions(f, b)
  }

  /** `getExerciseImageFilename`: the chosen file's path, or the default image. */
  function ImageFilename(e: Exercise): string
  {
    var found := ChosenFile(e);
    if found.Some? then ImagePath(found.value) else DefaultImage
  }

  lemma MentionsTail(file: string, head: string, tail: string)
    requires file == head + tail
    ensures Mentions(file, tail)
  {
    NormalizedConcat(head, tail);
    ContainsMiddle(Normalized(head), Normalized(tail), []);
    assert Normalized(head) + Normalized(tail) + [] == Normalized(file);
  }

  /** Every suffix is mentioned by some listed file, so the last tier always finds one. */
  lemma SuffixAlwaysListed(contact: Option<string>)
    ensures exists k :: 0 <= k < |ImageFiles| && Mentions(ImageFiles[k], Suffix(contact))
  {
    var s := Suffix(contact);
    if s == "fullBody" {
      MentionsTail(ImageFiles[0], "agility-pivot_", s);
    } else if s == "frontPawsOnly" {
      MentionsTail(ImageFiles[3], "donut-balance_", s);
    } else if s == "rearPawsElevated" {
      MentionsTail(ImageFiles[8], "core-elevated-push_", s);
    } else {
      MentionsTail(ImageFiles[9], "core-sitstand_", s);
    }
  }

  /** The image is always one of the listed files, chosen by the stated
      precedence: the default is never used. */
  lemma ImageFilenameListed(e: Exercise)
    ensures ChosenFile(e).Some? && ChosenFile(e).value in ImageFiles
    ensures ImageFilename(e) == ImagePath(ChosenFile(e).value)
    ensures Mentions(ChosenFile(e).value, BaseName(e.id)) || Mentions(ChosenFile(e).value, Suffix(e.contact))
  {
    SuffixAlwaysListed(e.contact);
    var k :| 0 <= k < |ImageFiles| && Mentions(ImageFiles[k], Suffix(e.contact));
    ChooseFromTiers(ImageFiles, BaseName(e.id), Suffix(e.contact), k);
  }

  /** The image a card shows: its own `imageUrl` when set, otherwise the inferred file. */
  function CardImage(e: Exercise): (img: string)
    ensures e.imageUrl.Some? && e.imageUrl.value != "" ==> img == e.imageUrl.value
    ensures e.imageUrl.None? || e.imageUrl.value == "" ==>
      ChosenFile(e).Some? && ChosenFile(e).value in ImageFiles && img == ImagePath(ChosenFile(e).value)
  {
    ImageFilenameListed(e);
    if e.imageUrl.Some? && e.imageUrl.value != "" then e.imageUrl.value else ImageFilename(e)
  }

  // ---- the page's state -----------------------------------------------------

  /** The custom-exercise form (`Partial<CustomExercise>`). */
  datatype Draft = Draft(
    name: string,
    description: string,
    difficulty: Option<Difficulty>,
    duration: int,
    equipment: seq<string>,
    steps: seq<RawStep>,
    benefits: seq<string>)

  const EmptyDraft: Draft := Draft("", "", Some(Medium), 10, [], [], [])

  /** The exercise `handleAddCustomExercise` builds from the form at time `now`
      (milliseconds, from `Date.now()`). */
  function NewCustomExercise(d: Draft, now: nat): (e: Exercise)
    ensures e.isCustom && e.id == "custom-" + Text.NatDigits(now)
    ensures e.name == d.name && e.description == d.description
    ensures e.difficulty == (if d.difficulty.Some? then d.difficulty.value else Medium)
    ensures e.duration == (if d.duration == 0 then 10 else d.duration)
    ensures e.steps == Some(NormalizeNewSteps(Some(d.steps)))
    ensures e.equipment == d.equipment && e.benefits == d.benefits
  {
    Exercise("custom-" + Text.NatDigits(now), d.name, d.description,
             if d.difficulty.Some? then d.difficulty.value else Medium,
             if d.duration == 0 then 10 else d.duration,
             d.equipment, Some(NormalizeNewSteps(Some(d.steps))), d.benefits,
             None, None, None, true, None)
  }

  /** Every step the form holds is a record, as `handleAddStep` adds them. */
  predicate StructuredSteps(s: seq<RawStep>)
  {
    forall i :: 0 <= i < |s| ==> s[i].Structured?
  }

  /** The list and index after `handleDeleteCustomExercise` on the card at `i`. */
  function AfterDelete(exercises: seq<Exercise>, i: int): (seq<Exercise>, int)
    requires 0 <= i < |exercises|
  {
    var current := exercises[i];
    if !current.isCustom then (exercises, i)
    else (Filter(exercises, OtherId(current.id)), if i == 0 then 0 else i - 1)
  }

  function OtherId(id: string): Exercise -> bool
  {
    (e: Exercise) => e.id != id
  }

  function SameId(id: string): Exercise -> bool
  {
    (e: Exercise) => e.id == id
  }

  function Occurrences(exercises: seq<Exercise>, id: string): nat
  {
    |Filter(exercises, SameId(id))|
  }

  lemma {:induction false} FilterSplit(s: seq<Exercise>, id: string)
    ensures |Filter(s, OtherId(id))| + |Filter(s, SameId(id))| == |s|
    decreases |s|
  {
    if s != [] {
      FilterSplit(s[1..], id);
    }
  }

  /** Deleting removes every card with the current card's id and no other; when
      that id is on one card only, the index stays on a card (or at 0 when none is left). */
  lemma AfterDeleteProperties(exercises: seq<Exercise>, i: int)
    requires 0 <= i < |exercises|
    ensures var (rest, j) := AfterDelete(exercises, i);
      && (!exercises[i].isCustom ==> rest == exercises && j == i)
      && (exercises[i].isCustom ==>
            && SubsequenceOf(rest, exercises)
            && (forall k :: 0 <= k < |rest| ==> rest[k].id != exercises[i].id)
            && (forall k :: 0 <= k < |exercises| && exercises[k].id != exercises[i].id ==> exercises[k] in rest)
            && j == (if i == 0 then 0 else i - 1))
      && (Occurrences(exercises, exercises[i].id) == 1 ==> 0 <= j && (rest != [] ==> j < |rest|))
  {
    var id := exercises[i].id;
    FilterSplit(exercises, id);
    assert exercises[i] in Filter(exercises, SameId(id));
  }

  /** Two cards sharing the id of the deleted custom card: both go, the index
      moves back by one only and points past the end of the list. */
  lemma AfterDeleteSharedId()
    ensures var other := Utils.Catalogue()[0];
      var mine := NewCustomExercise(EmptyDraft.(name := "a", description := "b"), 7);
      var (rest, j) := AfterDelete([other, mine, mine], 2);
      rest == [other] && j == 1
  {
    var other := Utils.Catalogue()[0];
    var mine := NewCustomExercise(EmptyDraft.(name := "a", description := "b"), 7);
    assert other.id != mine.id by {
      assert other.id == "1";
      assert mine.id[0] == 'c';
    }
    var xs := [other, mine, mine];
    var p := OtherId(mine.id);
    assert xs[1..] == [mine, mine] && [mine, mine][1..] == [mine] && [mine][1..] == [];
    assert Filter([mine], p) == [];
    assert Filter([mine, mine], p) == [];
    assert Filter(xs, p) == [other] + Filter([mine, mine], p);
  }

  class ResultView {
    var exercises: seq<Exercise>
    var currentIndex: int
    var draft: Draft
    var customEquipment: string
    var customStep: string
    var customBenefit: string
    /** The `dogfit-custom-exercises` entry of local storage. */
    var savedCustom: seq<Exercise>

    /** The index never goes negative and points at a card whenever there is
        one; the form only ever holds step records. */
    ghost predicate Valid()
      reads this
    {
      0 <= currentIndex && (exercises != [] ==> currentIndex < |exercises|)
      && StructuredSteps(draft.steps)
    }

    /** The page once the load effect has produced `loaded`. */
    constructor (loaded: seq<Exercise>, storedCustom: seq<Exercise>)
      ensures Valid()
      ensures exercises == loaded && currentIndex == 0 && draft == EmptyDraft
      ensures customEquipment == "" && customStep == "" && customBenefit == ""
      ensures savedCustom == storedCustom
    {
      exercises := loaded;
      currentIndex := 0;
      draft := EmptyDraft;
      customEquipment, customStep, customBenefit := "", "", "";
      savedCustom := storedCustom;
    }

    method Next()
      modifies this`currentIndex
      ensures currentIndex == NextIndex(old(currentIndex), |exercises|)
      ensures old(Valid()) ==> Valid()
    {
      currentIndex := if currentIndex == |exercises| - 1 then 0 else currentIndex + 1;
    }

    method Previous()
      modifies this`currentIndex
      ensures currentIndex == PrevIndex(old(currentIndex), |exercises|)
      ensures old(Valid()) && exercises != [] ==> Valid()
    {
      currentIndex := if currentIndex == 0 then |exercises| - 1 else currentIndex - 1;
    }

    /** `handleAddStep`: a non-empty step text is appended as a 60-second record. */
    method AddStep()
      modifies this`draft, this`customStep
      ensures old(customStep) == "" ==> draft == old(draft) && customStep == old(customStep)
      ensures old(customStep) != "" ==>
        draft == old(draft).(steps := old(draft.steps) + [Structured(old(customStep), DefaultStepSeconds)])
        && customStep == ""
      ensures old(Valid()) ==> Valid()
    {
      if customStep == "" {
        return;
      }
      draft := draft.(steps := draft.steps + [Structured(customStep, DefaultStepSeconds)]);
      customStep := "";
    }

    /** `handleAddEquipment`. */
    method AddEquipment()
      modifies this`draft, this`customEquipment
      ensures old(customEquipment) == "" ==> draft == old(draft) && customEquipment == old(customEquipment)
      ensures old(customEquipment) != "" ==>
        draft == old(draft).(equipment := old(draft.equipment) + [old(customEquipment)])
        && customEquipment == ""
      ensures old(Valid()) ==> Valid()
    {
      if customEquipment == "" {
        return;
      }
      draft := draft.(equipment := draft.equipment + [customEquipment]);
      customEquipment := "";
    }

    /** `handleAddBenefit`. */
    method AddBenefit()
      modifies this`draft, this`customBenefit
      ensures old(customBenefit) == "" ==> draft == old(draft) && customBenefit == old(customBenefit)
      ensures old(customBenefit) != "" ==>
        draft == old(draft).(benefits := old(draft.benefits) + [old(customBenefit)])
        && customBenefit == ""
      ensures old(Valid()) ==> Valid()
    {
      if customBenefit == "" {
        return;
      }
      draft := draft.(benefits := draft.benefits + [customBenefit]);
      customBenefit := "";
    }

    /** `handleAddCustomExercise`: ignored without a name or a description;
        otherwise the new exercise is appended to the cards and to the stored
        custom list, the form is reset and the carousel shows the new card. */
    method AddCustomExercise(now: nat)
      modifies this
      ensures old(draft.name) == "" || old(draft.description) == "" ==>
        exercises == old(exercises) && currentIndex == old(currentIndex) && draft == old(draft)
        && savedCustom == old(savedCustom) && customStep == old(customStep)
        && customEquipment == old(customEquipment) && customBenefit == old(customBenefit)
      ensures old(draft.name) != "" && old(draft.description) != "" ==>
        var added := NewCustomExercise(old(draft), now);
        && exercises == old(exercises) + [added]
        && savedCustom == old(savedCustom) + [added]
        && currentIndex == |exercises| - 1
        && draft == EmptyDraft && customStep == "" && customEquipment == "" && customBenefit == ""
      ensures old(Valid()) ==> Valid()
    {
      if draft.name == "" || draft.description == "" {
        return;
      }
      var added := NewCustomExercise(draft, now);
      exercises := exercises + [added];
      savedCustom := savedCustom + [added];
      draft := EmptyDraft;
      customEquipment, customStep, customBenefit := "", "", "";
      currentIndex := |exercises| - 1;
    }

    /** `handleDeleteCustomExercise` on the card shown. */
    method DeleteCurrent()
      requires 0 <= currentIndex < |exercises|
      modifies this`exercises, this`savedCustom, this`currentIndex
      ensures (exercises, currentIndex) == AfterDelete(old(exercises), old(currentIndex))
      ensures old(exercises[currentIndex].isCustom) ==>
        savedCustom == Filter(exercises, (e: Exercise) => e.isCustom)
      ensures !old(exercises[currentIndex].isCustom) ==> savedCustom == old(savedCustom)
      ensures old(Valid()) && Occurrences(old(exercises), old(exercises[currentIndex].id)) == 1 ==> Valid()
    {
      var current := exercises[currentIndex];
      if !current.isCustom {
        return;
      }
      AfterDeleteProperties(exercises, currentIndex);
      exercises := Filter(exercises, OtherId(current.id));
      savedCustom := Filter(exercises, (e: Exercise) => e.isCustom);
      currentIndex := if currentIndex == 0 then 0 else currentIndex - 1;
    }
  }

  /** A freshly added custom exercise is shown, is deletable, and its steps are
      the form's step records unchanged. */
  method AddThenDelete(view: ResultView, now: nat)
    requires view.Valid() && view.draft.name != "" && view.draft.description != ""
    requires forall k :: 0 <= k < |view.exercises| ==> view.exercises[k].id != "custom-" + Text.NatDigits(now)
    modifies view
    ensures view.Valid()
  {
    ghost var before := view.exercises;
    view.AddCustomExercise(now);
    var added := view.exercises[view.currentIndex];
    assert added.isCustom;
    assert Occurrences(view.exercises, added.id) == 1 by {
      assert view.exercises == before + [added];
      FilterSplit(before, added.id);
      FilterAll(before, OtherId(added.id));
      assert Filter(view.exercises, SameId(added.id)) == [added] by {
        FilterTailOnly(before, added);
      }
    }
    view.DeleteCurrent();
  }

  lemma {:induction false} FilterTailOnly(before: seq<Exercise>, added: Exercise)
    requires forall k :: 0 <= k < |before| ==> before[k].id != added.id
    ensures Filter(before + [added], SameId(added.id)) == [added]
    decreases |before|
  {
    if before == [] {
      assert before + [added] == [added];
    } else {
      assert (before + [added])[1..] == before[1..] + [added];
      FilterTailOnly(before[1..], added);
    }
  }
}
