/** The `POST /api/exercises` handler: it reads a profile id from the request,
    loads the dog's row, reshapes it for the prompt, asks the language model
    and accepts its reply in any of four shapes. The database and the model are
    parameters: their answers are given as values. */
module ExercisesRoute {
  import opened Seqs
  import opened Json
  import Records

  /** A `dog_profile` row. `age` is in months. `selected` is
      `preferences.selected`, `None` when either is null or absent; the other
      optional columns are `None` when null. */
  datatype ProfileRow = ProfileRow(
    name: string,
    age: int,
    weight: real,
    sex: string,
    breed: string,
    selected: Option<seq<string>>,
    equipmentKeys: Option<seq<string>>,
    healthValues: Option<Records.Record<int>>,
    performanceValues: Option<Records.Record<int>>)

  datatype Age = Age(years: int, months: int)

  /** The reshaped profile sent to the model and echoed in the reply. */
  datatype DogProfile = DogProfile(
    name: string,
    age: Age,
    weight: real,
    gender: string,
    breed: string,
    preferredActivities: seq<string>,
    availableEquipment: seq<string>,
    healthValues: Records.Record<int>,
    performanceValues: Records.Record<int>)

  /** JavaScript's `%`: the remainder takes the sign of the dividend. */
  function JsRem(a: int, b: int): (r: int)
    requires b > 0
    ensures a >= 0 ==> r == a % b
    ensures a < 0 ==> -b < r <= 0 && r == a + b * ((-a) / b)
  {
    if a >= 0 then a % b else -((-a) % b)
  }

  /** `{ years: Math.floor(age / 12), months: age % 12 }`. */
  function SplitAge(months: int): (a: Age)
    ensures months >= 0 ==> a.years >= 0 && 0 <= a.months < 12 && a.years * 12 + a.months == months
  {
    Age(months / 12, JsRem(months, 12))
  }

  /** For a negative age that is not a whole number of years, flooring the
      years and truncating the months lose a year: the prompt's month count
      `years * 12 + months` is twelve short. */
  lemma SplitAgeNegative(m: int)
    requires m < 0 && m % 12 != 0
    ensures SplitAge(m).years * 12 + SplitAge(m).months == m - 12
  {
    var q, r := m / 12, m % 12;
    assert m == q * 12 + r && 0 < r < 12;
    var n := -m;
    assert n % 12 == 12 - r by {
      assert n == (-q - 1) * 12 + (12 - r);
    }
  }

  function OrEmpty<T>(x: Option<seq<T>>): seq<T>
  {
    if x.Some? then x.value else []
  }

  /** The `dogProfile` object built from the row. */
  function BuildDogProfile(row: ProfileRow): (p: DogProfile)
    ensures row.age >= 0 ==> p.age.years * 12 + p.age.months == row.age && 0 <= p.age.months < 12
    ensures p.name == row.name && p.gender == row.sex && p.breed == row.breed && p.weight == row.weight
    ensures p.age.years == row.age / 12 && p.age.months == JsRem(row.age, 12)
    ensures row.selected.None? ==> p.preferredActivities == []
    ensures row.equipmentKeys.None? ==> p.availableEquipment == []
    ensures row.healthValues.None? ==> p.healthValues == []
    ensures row.performanceValues.None? ==> p.performanceValues == []
    ensures row.selected.Some? ==> p.preferredActivities == row.selected.value
    ensures row.equipmentKeys.Some? ==> p.availableEquipment == row.equipmentKeys.value
    ensures row.healthValues.Some? ==> p.healthValues == row.healthValues.value
    ensures row.performanceValues.Some? ==> p.performanceValues == row.performanceValues.value
  {
    DogProfile(row.name, SplitAge(row.age), row.weight, row.sex, row.breed,
               OrEmpty(row.selected), OrEmpty(row.equipmentKeys),
               OrEmpty(row.healthValues), OrEmpty(row.performanceValues))
  }

  const NoneText: string := "없음"

  /** `xs.join(', ') || '없음'`. */
  function JoinOrNone(xs: seq<string>): string
  {
    var joined := Join(xs, ", ");
    if joined == "" then NoneText else joined
  }

  /** The placeholder appears exactly when there is nothing to list; otherwise
      every listed item is mentioned. */
  lemma JoinOrNoneCases(xs: seq<string>)
    ensures xs == [] || xs == [""] ==> JoinOrNone(xs) == NoneText
    ensures !(xs == [] || xs == [""]) ==> JoinOrNone(xs) == Join(xs, ", ")
    ensures !(xs == [] || xs == [""]) ==> forall k :: 0 <= k < |xs| ==> Contains(JoinOrNone(xs), xs[k])
  {
    JoinEmpty(xs, ", ");
    if !(xs == [] || xs == [""]) {
      forall k | 0 <= k < |xs| ensures Contains(JoinOrNone(xs), xs[k]) {
        JoinMentionsEach(xs, ", ", k);
      }
    }
  }

  /** The health-issue names: the keys of the health values whose value is positive. */
  function PositiveKeys(hv: Records.Record<int>): seq<string>
  {
    Records.KeysWhere(hv, (v: int) => v > 0)
  }

  /** The `{healthIssues}` text as written: the health values are always an
      object (`|| {}`), hence always truthy, so the `'없음'` branch of the
      ternary is never taken and the positive keys are joined as they are. */
  function HealthIssuesAsWritten(hv: Records.Record<int>): string
  {
    Join(PositiveKeys(hv), ", ")
  }

  /** A dog with no positive health value gets an empty text, not `'없음'`. */
  lemma HealthIssuesAsWrittenEmpty()
    ensures HealthIssuesAsWritten([("knee", 0)]) == ""
    ensures HealthIssuesAsWritten([("knee", 0)]) != NoneText
  {
    assert PositiveKeys([("knee", 0)]) == [];
  }

  /** The `{healthIssues}` text as evidently intended, like the activity and
      equipment lines: `'없음'` when no value is positive. */
  function HealthIssuesText(hv: Records.Record<int>): string
  {
    JoinOrNone(PositiveKeys(hv))
  }

  /** With distinct keys: every key with a positive value is named, and the
      placeholder is used when no value is positive. */
  lemma HealthIssuesTextCases(hv: Records.Record<int>)
    requires Records.DistinctKeys(hv)
    ensures (forall i :: 0 <= i < |hv| ==> hv[i].1 <= 0) ==> HealthIssuesText(hv) == NoneText
    ensures forall k :: Records.Get(hv, k).Some? && Records.Get(hv, k).value > 0 && k != "" ==>
      Contains(HealthIssuesText(hv), k)
  {
    var ks := PositiveKeys(hv);
    JoinOrNoneCases(ks);
    if forall i :: 0 <= i < |hv| ==> hv[i].1 <= 0 {
      if ks != [] {
        Records.KeysWhereExactly(hv, (v: int) => v > 0, ks[0]);
        assert false;
      }
    }
    forall k | Records.Get(hv, k).Some? && Records.Get(hv, k).value > 0 && k != ""
      ensures Contains(HealthIssuesText(hv), k)
    {
      Records.KeysWhereExactly(hv, (v: int) => v > 0, k);
      var i :| 0 <= i < |ks| && ks[i] == k;
      assert ks != [""];
    }
  }

  /** The profile values written into the prompt. */
  datatype PromptFields = PromptFields(
    years: int,
    months: int,
    ageInMonths: int,
    activities: string,
    equipment: string,
    healthIssues: string)

  /** The age line (years and months), the age again in months for the summary
      part, the activity and equipment lines, and the health-issue line as the
      handler writes it. */
  function PromptFieldsOf(p: DogProfile): PromptFields
  {
    PromptFields(p.age.years, p.age.months, p.age.years * 12 + p.age.months,
                 JoinOrNone(p.preferredActivities), JoinOrNone(p.availableEquipment),
                 HealthIssuesAsWritten(p.healthValues))
  }

  /** The same values with the health-issue line as evidently intended. */
  function IntendedPromptFieldsOf(p: DogProfile): PromptFields
  {
    PromptFieldsOf(p).(healthIssues := HealthIssuesText(p.healthValues))
  }

  /** For a row with a non-negative age, the month count in the prompt is the
      stored age; a row without preferences or equipment shows the placeholder
      on those lines, while a row without health values gets an empty
      health-issue line. */
  lemma PromptFieldsOfRow(row: ProfileRow)
    ensures var f := PromptFieldsOf(BuildDogProfile(row));
      && (row.age >= 0 ==> f.ageInMonths == row.age && 0 <= f.months < 12)
      && (row.selected.None? ==> f.activities == NoneText)
      && (row.equipmentKeys.None? ==> f.equipment == NoneText)
      && (row.healthValues.None? ==> f.healthIssues == "")
  {
    JoinOrNoneCases([]);
    assert PositiveKeys([]) == [];
  }

  /** With the corrected health-issue line, a row without health values, or
      with none positive, shows the placeholder there too; every other value
      is the one the handler computes. */
  lemma IntendedPromptFieldsOfRow(row: ProfileRow)
    requires row.healthValues.Some? ==> Records.DistinctKeys(row.healthValues.value)
    ensures var p := BuildDogProfile(row);
      var f := IntendedPromptFieldsOf(p);
      && f.(healthIssues := "") == PromptFieldsOf(p).(healthIssues := "")
      && ((forall i :: 0 <= i < |p.healthValues| ==> p.healthValues[i].1 <= 0) ==> f.healthIssues == NoneText)
      && (row.healthValues.None? ==> f.healthIssues == NoneText)
  {
    var p := BuildDogProfile(row);
    HealthIssuesTextCases(p.healthValues);
  }

  /** The model's parsed reply reduced to the recommendation list: a bare array;
      an object's `recommendations` array; its `exercises` array; an object with
      a truthy `id` as a one-element list. Anything else, `null` included,
      fails to parse. */
  function SelectRecommendations(j: Json): Option<seq<Json>>
  {
    match j
    case JArr(items) => Some(items)
    case JNull => None
    case JObj(_) =>
      var recs := Member(j, "recommendations");
      var exs := Member(j, "exercises");
      if recs.Some? && recs.value.JArr? then Some(recs.value.items)
      else if exs.Some? && exs.value.JArr? then Some(exs.value.items)
      else if MemberTruthy(j, "id") then Some([j])
      else None
    case _ => None
  }

  /** Exactly which replies are accepted, and what list each gives. */
  lemma SelectRecommendationsCases(j: Json)
    ensures j.JArr? ==> SelectRecommendations(j) == Some(j.items)
    ensures j.JObj? && Member(j, "recommendations").Some? && Member(j, "recommendations").value.JArr? ==>
      SelectRecommendations(j) == Some(Member(j, "recommendations").value.items)
    ensures (j.JObj? && !(Member(j, "recommendations").Some? && Member(j, "recommendations").value.JArr?)
             && Member(j, "exercises").Some? && Member(j, "exercises").value.JArr?) ==>
      SelectRecommendations(j) == Some(Member(j, "exercises").value.items)
    ensures (j.JObj? && !(Member(j, "recommendations").Some? && Member(j, "recommendations").value.JArr?)
             && !(Member(j, "exercises").Some? && Member(j, "exercises").value.JArr?) && MemberTruthy(j, "id")) ==>
      SelectRecommendations(j) == Some([j])
    ensures SelectRecommendations(j).Some? <==>
      j.JArr? ||
      (j.JObj? && ((Member(j, "recommendations").Some? && Member(j, "recommendations").value.JArr?)
                   || (Member(j, "exercises").Some? && Member(j, "exercises").value.JArr?)
                   || MemberTruthy(j, "id")))
  {
  }

  /** The reply format the prompt asks for is accepted whole, whatever the summary. */
  lemma RequestedFormatAccepted(summary: Json, recs: seq<Json>)
    ensures SelectRecommendations(JObj([("summary", summary), ("recommendations", JArr(recs))])) == Some(recs)
  {
    var j := JObj([("summary", summary), ("recommendations", JArr(recs))]);
    assert Records.Get(j.fields, "recommendations") == Some(JArr(recs)) by {
      assert j.fields[1..] == [("recommendations", JArr(recs))];
      assert "summary" != "recommendations";
    }
  }

  /** What the database returned for `.eq('id', profileId).single()`. */
  datatype Lookup = LookupFailed | NoProfile | Found(row: ProfileRow)

  /** What the model returned: the call threw, the content was null or empty,
      the content was not JSON, or the content parsed to `value`. */
  datatype AiReply = CallFailed | NoContent | Unparsable(text: string) | Parsed(text: string, value: Json)

  const NoContentMessage: string := "OpenAI API에서 유효한 응답을 받지 못했습니다."

  /** The response: a failure with its status, `error` text and, when the
      handler attaches one, its `details` or `message` text; or success with
      the profile, the reply's `summary` when it has one, and the list. */
  datatype Response =
    | Failure(status: int, error: string, detail: Option<string>)
    | Success(profile: DogProfile, summary: Option<Json>, recommendations: seq<Json>)

  function Status(r: Response): int
  {
    if r.Failure? then r.status else 200
  }

  /** `POST`. `body` is the parsed request body, `None` when it is not JSON. */
  function Handle(body: Option<Json>, lookup: Lookup, ai: AiReply): (r: Response)
  {
    if body.None? || body.value.JNull? then Failure(500, "Internal server error", None)
    else if !MemberTruthy(body.value, "profileId") then Failure(400, "profileId is required", None)
    else match lookup
      case LookupFailed => Failure(500, "Failed to fetch profile data", None)
      case NoProfile => Failure(404, "Profile not found", None)
      case Found(row) =>
        var profile := BuildDogProfile(row);
        match ai
        case CallFailed => Failure(500, "Internal server error", None)
        case NoContent => Failure(500, "Internal server error", Some(NoContentMessage))
        case Unparsable(text) => Failure(500, "Failed to parse AI response", Some(text))
        case Parsed(text, value) =>
          match SelectRecommendations(value)
          case None => Failure(500, "Failed to parse AI response", Some(text))
          case Some(recs) =>
            var summary := if value.JNull? then None else Member(value, "summary");
            Success(profile, summary, recs)
  }

  /** The status codes and when each is given: 400 for a missing or falsy
      profile id whatever the database and the model say, 404 for a missing
      row, 200 exactly when a row is found and the reply is accepted, and 500
      otherwise. */
  lemma HandleOutcomes(body: Option<Json>, lookup: Lookup, ai: AiReply)
    ensures var r := Handle(body, lookup, ai);
      Status(r) in {200, 400, 404, 500}
    ensures body.Some? && !body.value.JNull? && !MemberTruthy(body.value, "profileId") ==>
      Handle(body, lookup, ai) == Failure(400, "profileId is required", None)
    ensures Status(Handle(body, lookup, ai)) == 400 ==>
      body.Some? && !body.value.JNull? && !MemberTruthy(body.value, "profileId")
    ensures Status(Handle(body, lookup, ai)) == 404 ==> lookup.NoProfile?
    ensures Handle(body, lookup, ai).Success? <==>
      body.Some? && !body.value.JNull? && MemberTruthy(body.value, "profileId")
      && lookup.Found? && ai.Parsed? && SelectRecommendations(ai.value).Some?
    ensures Handle(body, lookup, ai).Success? ==>
      var r := Handle(body, lookup, ai);
      r.profile == BuildDogProfile(lookup.row) && r.recommendations == SelectRecommendations(ai.value).value
  {
  }

  /** A well-formed request for an existing dog, answered in the requested
      format, succeeds with the model's list and the dog's age split correctly. */
  lemma HandleRequestedFormat(id: string, row: ProfileRow, text: string, summary: Json, recs: seq<Json>)
    requires id != "" && row.age >= 0
    ensures var body := JObj([("profileId", JStr(id))]);
      var r := Handle(Some(body), Found(row), Parsed(text, JObj([("summary", summary), ("recommendations", JArr(recs))])));
      r.Success? && r.recommendations == recs && r.summary == Some(summary)
      && r.profile.age.years * 12 + r.profile.age.months == row.age
  {
    RequestedFormatAccepted(summary, recs);
  }
}
