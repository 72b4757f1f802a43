/** The browser-side helpers: the fixed-catalogue recommender used when no
    AI recommendations are stored, and the stamp counter kept in local storage. */
module Utils {
  import opened Seqs
  import opened Exercises
  import Text

  const Slalom: string := "슬라롬 훈련"

  function Steps(texts: seq<string>): seq<RawStep>
  {
    seq(|texts|, i requires 0 <= i < |texts| => Plain(texts[i]))
  }

  function CatalogueEntry(id: string, name: string, description: string, difficulty: Difficulty,
                          duration: int, equipment: seq<string>, steps: seq<string>,
                          benefits: seq<string>): Exercise
  {
    Exercise(id, name, description, difficulty, duration, equipment, Some(Steps(steps)), benefits,
             Some("/placeholder.svg?height=200&width=200"), None, None, false, None)
  }

  /** The three sample exercises, in their fixed order. */
  function Catalogue(): seq<Exercise>
  {
    [ CatalogueEntry("1", "도넛볼 밸런스", "도넛 모양의 밸런스 볼 위에서 균형을 잡는 운동입니다.",
        Medium, 10, ["도넛볼"],
        ["도넛볼을 평평한 바닥에 놓습니다.", "강아지를 볼 위에 올려 앞발로 균형을 잡도록 합니다.",
         "10초간 유지한 후 휴식합니다.", "3회 반복합니다."],
        ["균형감각 향상", "코어 근육 강화"]),
      CatalogueEntry("2", "터그 오브 워", "로프를 당기며 놀이하는 운동입니다.",
        Easy, 15, ["로프 장난감"],
        ["로프 장난감을 준비합니다.", "강아지가 로프를 물도록 유도합니다.",
         "부드럽게 당기며 놀이합니다.", "15분간 진행합니다."],
        ["턱 근육 강화", "스트레스 해소", "유대감 형성"]),
      CatalogueEntry("3", Slalom, "장애물 사이를 지그재그로 달리는 운동입니다.",
        Hard, 20, ["콘", "간식"],
        ["콘을 일렬로 배치합니다.", "강아지를 콘 사이로 유도합니다.",
         "성공할 때마다 간식으로 보상합니다.", "5회 반복합니다."],
        ["민첩성 향상", "집중력 향상", "순종성 향상"]) ]
  }

  /** Every step list holds at least one step and only plain strings. */
  predicate PlainSteps(e: Exercise)
  {
    e.steps.Some? && |e.steps.value| > 0 && forall i :: 0 <= i < |e.steps.value| ==> e.steps.value[i].Plain?
  }

  /** The activity-level step: "low" keeps the easy exercises, "medium" drops
      the hard ones, "high" keeps all. */
  function ByLevel(all: seq<Exercise>, level: ActivityLevel): (r: seq<Exercise>)
    ensures SubsequenceOf(r, all)
    ensures level == Low ==> forall i :: 0 <= i < |r| ==> r[i].difficulty == Easy
    ensures level == Moderate ==> forall i :: 0 <= i < |r| ==> r[i].difficulty != Hard
    ensures level == High ==> r == all
    ensures forall i :: 0 <= i < |all| && all[i].difficulty == Easy ==> all[i] in r
  {
    SubsequenceRefl(all);
    match level
    case Low => Filter(all, (e: Exercise) => e.difficulty == Easy)
    case Moderate => Filter(all, (e: Exercise) => e.difficulty != Hard)
    case High => all
  }

  /** The health step: a "joint" issue removes the slalom; other issues change nothing. */
  function ByHealth(xs: seq<Exercise>, issues: seq<string>): (r: seq<Exercise>)
    ensures SubsequenceOf(r, xs)
    ensures "joint" in issues ==> forall i :: 0 <= i < |r| ==> r[i].name != Slalom
    ensures "joint" !in issues ==> r == xs
    ensures forall i :: 0 <= i < |xs| && xs[i].name != Slalom ==> xs[i] in r
  {
    SubsequenceRefl(xs);
    if |issues| > 0 && "joint" in issues
    then Filter(xs, (e: Exercise) => e.name != Slalom)
    else xs
  }

  /** `xs.slice(0, 2)`: the first two elements, or all of them when there are fewer. */
  function FirstTwo(xs: seq<Exercise>): (r: seq<Exercise>)
    ensures |r| == (if |xs| < 2 then |xs| else 2) && r <= xs
  {
    if |xs| >= 2 then xs[..2] else xs
  }

  lemma CatalogueFacts()
    ensures |Catalogue()| == 3
    ensures Catalogue()[0].difficulty == Medium && Catalogue()[0].name != Slalom
    ensures Catalogue()[1].difficulty == Easy && Catalogue()[1].name != Slalom
    ensures Catalogue()[2].difficulty == Hard && Catalogue()[2].name == Slalom
    ensures forall i :: 0 <= i < 3 ==> PlainSteps(Catalogue()[i]) && !Catalogue()[i].isCustom
  {
  }

  /** `generateExerciseRecommendations`: the catalogue filtered by activity level,
      then by health issues; the first two entries if nothing is left. */
  function Recommend(dog: DogInfo): seq<Exercise>
  {
    var filtered := ByHealth(ByLevel(Catalogue(), dog.activityLevel), dog.healthIssues);
    if |filtered| > 0 then filtered else FirstTwo(Catalogue())
  }

  /** The fallback is never taken: the easy tug-of-war survives both filters. */
  lemma RecommendNeverFallsBack(dog: DogInfo)
    ensures var filtered := ByHealth(ByLevel(Catalogue(), dog.activityLevel), dog.healthIssues);
            |filtered| > 0 && Recommend(dog) == filtered
  {
    var all := Catalogue();
    CatalogueFacts();
    assert all[1] in ByLevel(all, dog.activityLevel);
    assert all[1] in ByHealth(ByLevel(all, dog.activityLevel), dog.healthIssues);
  }

  /** The recommender never returns an empty list. */
  lemma RecommendNonEmpty(dog: DogInfo)
    ensures |Recommend(dog)| > 0
  {
    RecommendNeverFallsBack(dog);
  }

  /** What the recommender promises: a non-empty, order-preserving selection of
      the catalogue; only easy exercises at "low", no hard one at "medium", no
      slalom with a "joint" issue; every step list plain strings. */
  lemma RecommendProperties(dog: DogInfo)
    ensures var r := Recommend(dog);
      && |r| > 0 && SubsequenceOf(r, Catalogue())
      && (dog.activityLevel == Low ==> forall i :: 0 <= i < |r| ==> r[i].difficulty == Easy)
      && (dog.activityLevel == Moderate ==> forall i :: 0 <= i < |r| ==> r[i].difficulty != Hard)
      && ("joint" in dog.healthIssues ==> forall i :: 0 <= i < |r| ==> r[i].name != Slalom)
      && (forall i :: 0 <= i < |r| ==> PlainSteps(r[i]) && !r[i].isCustom)
  {
    var all := Catalogue();
    var byLevel := ByLevel(all, dog.activityLevel);
    var r := ByHealth(byLevel, dog.healthIssues);
    RecommendNeverFallsBack(dog);
    CatalogueFacts();
    SubsequenceTrans(r, byLevel, all);
    SubsequenceMembers(r, all);
  }

  /** With activity level "high" and no "joint" issue, the whole catalogue is returned. */
  lemma RecommendHighKeepsAll(dog: DogInfo)
    requires dog.activityLevel == High && "joint" !in dog.healthIssues
    ensures Recommend(dog) == Catalogue()
  {
    RecommendNeverFallsBack(dog);
  }

  /** Health issues other than "joint" change nothing. */
  lemma RecommendIgnoresOtherIssues(dog: DogInfo, issues: seq<string>)
    requires "joint" !in dog.healthIssues && "joint" !in issues
    ensures Recommend(dog.(healthIssues := issues)) == Recommend(dog)
  {
    RecommendNeverFallsBack(dog);
    RecommendNeverFallsBack(dog.(healthIssues := issues));
  }

  // ---- local storage ----------------------------------------------------

  const StampKey: string := "dogfit-stamps"

  /** `JSON.stringify` of an integer. */
  function ShowInt(i: int): string
  {
    if i < 0 then "-" + Text.NatDigits(-i) else Text.NatDigits(i)
  }

  predicate AllDigits(s: string)
  {
    forall i :: 0 <= i < |s| ==> '0' <= s[i] <= '9'
  }

  /** `JSON.parse` of a text holding a JSON integer: an optional minus sign and
      digits without a leading zero; anything else throws. */
  function ParseInt(s: string): (r: Option<int>)
    ensures r.Some? ==> s != [] && (s[0] == '-' || '0' <= s[0] <= '9')
  {
    var neg := s != [] && s[0] == '-';
    var digits := if neg then s[1..] else s;
    if digits != [] && AllDigits(digits) && (digits[0] != '0' || |digits| == 1)
    then
      var v: int := Text.DigitsValue(digits);
      Some(if neg then -v else v)
    else None
  }

  /** What is written is read back. */
  lemma ParseShowInt(i: int)
    ensures ParseInt(ShowInt(i)) == Some(i)
  {
    var n: nat := if i < 0 then -i else i;
    var d := Text.NatDigits(n);
    Text.DigitsRoundTrip(n);
    assert AllDigits(d);
    assert d[0] != '0' || |d| == 1 by {
      if d[0] == '0' {
        assert n == 0 && d == "0";
      }
    }
    if i < 0 {
      assert ShowInt(i) == "-" + d && ShowInt(i)[1..] == d;
    } else {
      assert ShowInt(i) == d && d[0] != '-';
    }
  }

  /** The browser's `localStorage`, holding JSON texts by key. On the server
      (`typeof window === "undefined"`) reads give the default and writes do nothing. */
  class LocalStore {
    const inBrowser: bool
    var items: map<string, string>

    constructor (inBrowser: bool, items: map<string, string>)
      ensures this.inBrowser == inBrowser && this.items == items
    {
      this.inBrowser := inBrowser;
      this.items := items;
    }

    /** `getLocalStorageItem<number>(key, default)`. */
    function ReadInt(key: string, default: int): (v: int)
      reads this
      ensures !inBrowser || key !in items || ParseInt(items[key]).None? ==> v == default
      ensures inBrowser && key in items && ParseInt(items[key]).Some? ==> v == ParseInt(items[key]).value
    {
      if !inBrowser then default
      else if key !in items || items[key] == "" then default
      else
        match ParseInt(items[key])
        case Some(n) => n
        case None => default
    }

    /** `setLocalStorageItem(key, value)` for an integer. */
    method WriteInt(key: string, value: int)
      modifies this
      ensures items == if inBrowser then old(items)[key := ShowInt(value)] else old(items)
      ensures inBrowser ==> ReadInt(key, 0) == value
    {
      if inBrowser {
        items := items[key := ShowInt(value)];
        ParseShowInt(value);
      }
    }

    /** `addStamp`: one more than the stored count (0 when there is none) is
        stored and returned; no other key changes. */
    method AddStamp() returns (n: int)
      modifies this
      ensures n == old(ReadInt(StampKey, 0)) + 1
      ensures items == if inBrowser then old(items)[StampKey := ShowInt(n)] else old(items)
      ensures inBrowser ==> ReadInt(StampKey, 0) == n
    {
      var current := ReadInt(StampKey, 0);
      n := current + 1;
      WriteInt(StampKey, n);
    }
  }

  /** Two stamps in a row in the browser add two to the stored count. */
  method AddTwoStamps(store: LocalStore) returns (first: int, second: int)
    requires store.inBrowser
    modifies store
    ensures second == first + 1 == old(store.ReadInt(StampKey, 0)) + 2
  {
    first := store.AddStamp();
    second := store.AddStamp();
  }
}
