/** The exercise-history page: the rows loaded for the selected dog, the list
    shown under the date and difficulty filters, and deletion of one row or of
    all of them. The database is a parameter (rows handed in) and the clock with
    date parsing is a predicate fixed when the page is created. */
module HistoryPage {
  import opened Seqs
  import opened Json
  import opened Exercises

  /** An `exercise_history` row as far as the page uses it. `steps` is the
      jsonb column; `difficulty` is the optional UI-side field. */
  datatype HistoryItem = HistoryItem(
    id: string,
    date: string,
    exerciseName: string,
    steps: Json,
    difficulty: Option<string>)

  datatype DateFilter = AllDates | Today | Week | Month
  datatype DifficultyFilter = AllLevels | Level(level: Difficulty)

  /** The difficulty test: a truthy `difficulty` inside an object-valued `steps`
      decides; otherwise a truthy `difficulty` field decides; otherwise the row
      is dropped. */
  predicate DifficultyPass(item: HistoryItem, level: Difficulty)
  {
    var want := DifficultyName(level);
    if !item.steps.JNull? && Truthy(item.steps) && MemberTruthy(item.steps, "difficulty") then
      Member(item.steps, "difficulty").value == JStr(want)
    else if item.difficulty.Some? && item.difficulty.value != "" then
      item.difficulty.value == want
    else false
  }

  /** Which source of the difficulty wins. */
  lemma DifficultyPassCases(item: HistoryItem, level: Difficulty)
    ensures item.steps.JObj? && MemberTruthy(item.steps, "difficulty") ==>
      (DifficultyPass(item, level) <==> Member(item.steps, "difficulty") == Some(JStr(DifficultyName(level))))
    ensures !item.steps.JObj? ==>
      (DifficultyPass(item, level) <==> item.difficulty == Some(DifficultyName(level)))
    ensures item.steps.JObj? && !MemberTruthy(item.steps, "difficulty") ==>
      (DifficultyPass(item, level) <==> item.difficulty == Some(DifficultyName(level)))
  {
    var want := DifficultyName(level);
    assert want != "" by {
      assert |want| >= 4;
    }
  }

  function DateKeep(f: DateFilter, inWindow: (DateFilter, string) -> bool): HistoryItem -> bool
  {
    (item: HistoryItem) => inWindow(f, item.date)
  }

  function DifficultyKeep(level: Difficulty): HistoryItem -> bool
  {
    (item: HistoryItem) => DifficultyPass(item, level)
  }

  /** The filter effect: the date filter, then the difficulty filter, each
      skipped when set to "all". `inWindow` says whether a row's date falls in
      today, the past week or this month. */
  function Filtered(history: seq<HistoryItem>, df: DateFilter, lf: DifficultyFilter,
                    inWindow: (DateFilter, string) -> bool): seq<HistoryItem>
  {
    var byDate := if df == AllDates then history else Filter(history, DateKeep(df, inWindow));
    if lf == AllLevels then byDate else Filter(byDate, DifficultyKeep(lf.level))
  }

  /** The list shown keeps the history's order, holds only rows passing both
      filters, holds every row that passes them, and is the whole history when
      both filters are "all". */
  lemma FilteredProperties(history: seq<HistoryItem>, df: DateFilter, lf: DifficultyFilter,
                           inWindow: (DateFilter, string) -> bool)
    ensures var r := Filtered(history, df, lf, inWindow);
      && SubsequenceOf(r, history)
      && (df == AllDates && lf == AllLevels ==> r == history)
      && (forall i :: 0 <= i < |r| ==>
            (df != AllDates ==> inWindow(df, r[i].date)) && (lf != AllLevels ==> DifficultyPass(r[i], lf.level)))
      && (forall i :: 0 <= i < |history| &&
            (df != AllDates ==> inWindow(df, history[i].date)) && (lf != AllLevels ==> DifficultyPass(history[i], lf.level))
            ==> history[i] in r)
  {
    var byDate := if df == AllDates then history else Filter(history, DateKeep(df, inWindow));
    var r := Filtered(history, df, lf, inWindow);
    SubsequenceRefl(history);
    SubsequenceRefl(byDate);
    SubsequenceTrans(r, byDate, history);
    forall i | 0 <= i < |r|
      ensures (df != AllDates ==> inWindow(df, r[i].date)) && (lf != AllLevels ==> DifficultyPass(r[i], lf.level))
    {
      SubsequenceMembers(r, byDate);
      assert r[i] in byDate;
      var k :| 0 <= k < |byDate| && byDate[k] == r[i];
      if lf != AllLevels {
        assert DifficultyKeep(lf.level)(r[i]);
      }
      if df != AllDates {
        assert DateKeep(df, inWindow)(byDate[k]);
      }
    }
    forall i | 0 <= i < |history| &&
        (df != AllDates ==> inWindow(df, history[i].date)) && (lf != AllLevels ==> DifficultyPass(history[i], lf.level))
      ensures history[i] in r
    {
      if df != AllDates {
        assert DateKeep(df, inWindow)(history[i]);
      }
      var k :| 0 <= k < |byDate| && byDate[k] == history[i];
      if lf != AllLevels {
        assert DifficultyKeep(lf.level)(byDate[k]);
      }
    }
  }

  /** The rows a deletion keeps: those not matching both the id and the date. */
  function NotKey(id: string, date: string): HistoryItem -> bool
  {
    (item: HistoryItem) => !(item.id == id && item.date == date)
  }

  /** Deleting from the history and from the shown list separately gives the
      list the filters would show for the new history. */
  lemma {:induction false} DeleteCommutes(history: seq<HistoryItem>, df: DateFilter, lf: DifficultyFilter,
                                          inWindow: (DateFilter, string) -> bool, id: string, date: string)
    ensures Filtered(Filter(history, NotKey(id, date)), df, lf, inWindow)
         == Filter(Filtered(history, df, lf, inWindow), NotKey(id, date))
  {
    var k := NotKey(id, date);
    var p := DateKeep(df, inWindow);
    var byDate := if df == AllDates then history else Filter(history, p);
    var byDate' := if df == AllDates then Filter(history, k) else Filter(Filter(history, k), p);
    assert byDate' == Filter(byDate, k) by {
      if df != AllDates {
        FilterCommute(history, k, p);
      }
    }
    if lf != AllLevels {
      FilterCommute(byDate, k, DifficultyKeep(lf.level));
    }
  }

  class HistoryView {
    /** The clock and date parsing behind the date filters. */
    const inWindow: (DateFilter, string) -> bool
    var selectedProfileId: Option<string>
    var history: seq<HistoryItem>
    var filteredHistory: seq<HistoryItem>
    var dateFilter: DateFilter
    var difficultyFilter: DifficultyFilter
    var loading: bool
    var isDialogOpen: bool
    var isItemDialogOpen: bool
    var selectedItem: Option<HistoryItem>

    /** Once the filter effect has run, the shown list is the filtered history. */
    ghost predicate Valid()
      reads this
    {
      filteredHistory == Filtered(history, dateFilter, difficultyFilter, inWindow)
    }

    predicate HasProfile()
      reads this
    {
      selectedProfileId.Some? && selectedProfileId.value != ""
    }

    constructor (inWindow: (DateFilter, string) -> bool)
      ensures this.inWindow == inWindow && Valid()
      ensures history == [] && filteredHistory == [] && selectedProfileId.None? && loading
      ensures dateFilter == AllDates && difficultyFilter == AllLevels
      ensures !isDialogOpen && !isItemDialogOpen && selectedItem.None?
    {
      this.inWindow := inWindow;
      selectedProfileId := None;
      history, filteredHistory := [], [];
      dateFilter, difficultyFilter := AllDates, AllLevels;
      loading := true;
      isDialogOpen, isItemDialogOpen := false, false;
      selectedItem := None;
    }

    /** The load effect: the stored profile id is kept; with one, the rows the
        database returns (`None` for an error, which clears the list) become the
        history. */
    method Load(profileId: Option<string>, rows: Option<seq<HistoryItem>>)
      modifies this
      ensures selectedProfileId == profileId && !loading
      ensures dateFilter == old(dateFilter) && difficultyFilter == old(difficultyFilter)
      ensures isDialogOpen == old(isDialogOpen) && isItemDialogOpen == old(isItemDialogOpen)
      ensures selectedItem == old(selectedItem)
      ensures !HasProfile() ==> history == old(history) && filteredHistory == old(filteredHistory)
      ensures HasProfile() ==> history == (if rows.Some? then rows.value else [])
      ensures HasProfile() ==> Valid()
      ensures old(Valid()) ==> Valid()
    {
      selectedProfileId := profileId;
      if profileId.Some? && profileId.value != "" {
        history := if rows.Some? then rows.value else [];
        filteredHistory := Filtered(history, dateFilter, difficultyFilter, inWindow);
      }
      loading := false;
    }

    method SetDateFilter(f: DateFilter)
      modifies this`dateFilter, this`filteredHistory
      ensures dateFilter == f && Valid()
    {
      dateFilter := f;
      filteredHistory := Filtered(history, dateFilter, difficultyFilter, inWindow);
    }

    method SetDifficultyFilter(f: DifficultyFilter)
      modifies this`difficultyFilter, this`filteredHistory
      ensures difficultyFilter == f && Valid()
    {
      difficultyFilter := f;
      filteredHistory := Filtered(history, dateFilter, difficultyFilter, inWindow);
    }

    /** `handleClearHistory`: without a selected dog nothing happens; otherwise
        both lists are emptied and the dialog closes. */
    method ClearHistory()
      modifies this`history, this`filteredHistory, this`isDialogOpen
      ensures !HasProfile() ==> history == old(history) && filteredHistory == old(filteredHistory)
                                && isDialogOpen == old(isDialogOpen)
      ensures HasProfile() ==> history == [] && filteredHistory == [] && !isDialogOpen
      ensures old(Valid()) ==> Valid()
    {
      if !HasProfile() {
        return;
      }
      history, filteredHistory := [], [];
      isDialogOpen := false;
      assert Filtered([], dateFilter, difficultyFilter, inWindow) == [] by {
        FilteredProperties([], dateFilter, difficultyFilter, inWindow);
      }
    }

    /** `handleDeleteHistoryItem`: without a selected dog nothing happens;
        otherwise every row with the item's id and date leaves both lists, the
        others stay in order, and the item dialog closes. */
    method DeleteItem(item: HistoryItem)
      modifies this`history, this`filteredHistory, this`isItemDialogOpen, this`selectedItem
      ensures !HasProfile() ==> history == old(history) && filteredHistory == old(filteredHistory)
                                && isItemDialogOpen == old(isItemDialogOpen) && selectedItem == old(selectedItem)
      ensures HasProfile() ==>
        && history == Filter(old(history), NotKey(item.id, item.date))
        && filteredHistory == Filter(old(filteredHistory), NotKey(item.id, item.date))
        && !isItemDialogOpen && selectedItem.None?
      ensures HasProfile() ==> forall i :: 0 <= i < |history| ==> !(history[i].id == item.id && history[i].date == item.date)
      ensures old(Valid()) ==> Valid()
    {
      if !HasProfile() {
        return;
      }
      DeleteCommutes(history, dateFilter, difficultyFilter, inWindow, item.id, item.date);
      history := Filter(history, NotKey(item.id, item.date));
      filteredHistory := Filter(filteredHistory, NotKey(item.id, item.date));
      isItemDialogOpen := false;
      selectedItem := None;
    }
  }
}
