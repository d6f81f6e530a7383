/** The state of the tracker page: user stats and their metric conversion, the food
    search results with their portion choices, today's diary, the history of daily
    totals, and the browser-storage records that mirror them. */
module Page {
  import opened JsMath
  import opened Calorie

  /** A browser-storage record that may be absent. */
  datatype Option<T> = None | Some(value: T)

  datatype Food = Food(foodName: string, nfCalories: real, servingQty: real, servingUnit: string)

  datatype HistoryEntry = HistoryEntry(date: string, total: int)

  /** The stats form, in imperial units. */
  datatype UserStats = UserStats(
    weightLbs: real, heightFt: real, heightIn: real, age: real, gender: string, activity: real)

  const DefaultStats := UserStats(154.0, 5.0, 9.0, 30.0, "male", 1.2)

  // ---------------------------------------------------------------------------
  // Unit conversion and the daily budget

  function WeightKg(weightLbs: real): (kg: real)
    ensures kg * 2.20462 == weightLbs
  {
    weightLbs / 2.20462
  }

  function HeightCm(heightFt: real, heightIn: real): (cm: real)
    ensures cm / 2.54 == 12.0 * heightFt + heightIn
  {
    var totalInches := heightFt * 12.0 + heightIn;
    totalInches * 2.54
  }

  /** The page's BMR in the form's own units: 10 per kilogram of the converted weight
      and 6.25 * 2.54 = 15.875 per inch of total height. */
  function Bmr(stats: UserStats): (bmr: real)
    ensures var offset := if stats.gender == "male" then 5.0 else -161.0;
            bmr == 10.0 * WeightKg(stats.weightLbs)
                   + 15.875 * (12.0 * stats.heightFt + stats.heightIn) - 5.0 * stats.age + offset
  {
    CalcBMR(WeightKg(stats.weightLbs), HeightCm(stats.heightFt, stats.heightIn), stats.age, stats.gender)
  }

  function Tdee(stats: UserStats): (tdee: int)
    ensures Bmr(stats) * stats.activity - 0.5 < tdee as real <= Bmr(stats) * stats.activity + 0.5
  {
    CalcTDEE(Bmr(stats), stats.activity)
  }

  /** With the form's defaults (154 lb, 5 ft 9 in, 30 years, male, sedentary) the budget is 1979 kcal. */
  lemma DefaultBudget()
    ensures Tdee(DefaultStats) == 1979
  {
    var bmr := Bmr(DefaultStats);
    assert 1648.9 < bmr < 1649.0;
    RoundUnique(bmr * 1.2, 1979);
  }

  // ---------------------------------------------------------------------------
  // The diary and its totals

  /** `log.reduce((sum, f) => sum + f.nf_calories, 0)`, folding from the left. */
  function Sum(log: seq<Food>): (s: real)
    ensures log == [] ==> s == 0.0
    ensures (forall i :: 0 <= i < |log| ==> log[i].nfCalories >= 0.0) ==> s >= 0.0
  {
    if log == [] then 0.0 else Sum(log[..|log| - 1]) + log[|log| - 1].nfCalories
  }

  lemma {:induction false} SumAppend(a: seq<Food>, b: seq<Food>)
    ensures Sum(a + b) == Sum(a) + Sum(b)
  {
    if b != [] {
      assert (a + b)[..|a + b| - 1] == a + b[..|b| - 1];
      SumAppend(a, b[..|b| - 1]);
    } else {
      assert a + b == a;
    }
  }

  lemma SumSingleton(f: Food)
    ensures Sum([f]) == f.nfCalories
  {
    assert [f][..0] == [];
  }

  lemma {:induction false} SumWithout(log: seq<Food>, idx: int)
    requires 0 <= idx < |log|
    ensures Sum(WithoutIndex(log, idx)) == Sum(log) - log[idx].nfCalories
  {
    assert log == log[..idx] + [log[idx]] + log[idx + 1..];
    SumAppend(log[..idx] + [log[idx]], log[idx + 1..]);
    SumAppend(log[..idx], [log[idx]]);
    SumSingleton(log[idx]);
    SumAppend(log[..idx], log[idx + 1..]);
  }

  /** `totalConsumed`: the diary's calories, rounded. */
  function TotalConsumed(log: seq<Food>): (total: int)
    ensures Sum(log) - 0.5 < total as real <= Sum(log) + 0.5
  {
    Round(Sum(log))
  }

  /** `remaining`: what is left of the budget; eating never raises it. */
  function Remaining(tdee: int, log: seq<Food>): (remaining: int)
    ensures remaining + TotalConsumed(log) == tdee
    ensures Sum(log) >= 0.0 ==> remaining <= tdee
  {
    tdee - TotalConsumed(log)
  }

  /** The remaining budget as displayed: clamped at zero. */
  function ShownRemaining(remaining: int): (shown: nat)
    ensures shown >= remaining
    ensures remaining > 0 ==> shown == remaining
    ensures remaining <= 0 ==> shown == 0
  {
    if remaining > 0 then remaining else 0
  }

  /** `filter((_, i) => i !== idx)`: keep every element whose position is not idx. */
  function WithoutIndex<T>(s: seq<T>, idx: int): (r: seq<T>)
    ensures 0 <= idx < |s| ==> r == s[..idx] + s[idx + 1..]
    ensures !(0 <= idx < |s|) ==> r == s
  {
    if s == [] then []
    else (if idx == 0 then [] else [s[0]]) + WithoutIndex(s[1..], idx - 1)
  }

  /** `portions[idx] || 1`: a missing or zero portion counts as a full one. */
  function Multiplier(portions: map<int, real>, idx: int): (m: real)
    ensures m != 0.0
    ensures idx in portions && portions[idx] != 0.0 ==> m == portions[idx]
    ensures !(idx in portions && portions[idx] != 0.0) ==> m == 1.0
  {
    if idx in portions && portions[idx] != 0.0 then portions[idx] else 1.0
  }

  /** The copy of a search result that goes into the diary: same name and serving,
      calories scaled by the portion and rounded to a whole number. */
  function Portioned(item: Food, multiplier: real): (f: Food)
    ensures f.foodName == item.foodName
    ensures f.servingQty == item.servingQty && f.servingUnit == item.servingUnit
    ensures IsWhole(f.nfCalories)
    ensures item.nfCalories * multiplier - 0.5 < f.nfCalories <= item.nfCalories * multiplier + 0.5
  {
    var calories := Round(item.nfCalories * multiplier);
    item.(nfCalories := calories as real)
  }

  /** Appending a whole-calorie item raises the displayed total by exactly its calories. */
  lemma TotalAfterAppend(log: seq<Food>, f: Food)
    requires IsWhole(f.nfCalories)
    ensures TotalConsumed(log + [f]) == TotalConsumed(log) + f.nfCalories.Floor
  {
    SumAppend(log, [f]);
    SumSingleton(f);
    RoundShift(Sum(log), f.nfCalories.Floor);
  }

  /** Adding an item raises the displayed total by exactly its rounded portion. */
  lemma TotalAfterAdd(log: seq<Food>, item: Food, multiplier: real)
    ensures TotalConsumed(log + [Portioned(item, multiplier)])
         == TotalConsumed(log) + Round(item.nfCalories * multiplier)
  {
    TotalAfterAppend(log, Portioned(item, multiplier));
  }

  /** Removing a whole-calorie item lowers the displayed total by exactly its calories. */
  lemma TotalAfterRemove(log: seq<Food>, idx: int)
    requires 0 <= idx < |log| && IsWhole(log[idx].nfCalories)
    ensures TotalConsumed(WithoutIndex(log, idx)) == TotalConsumed(log) - log[idx].nfCalories.Floor
  {
    SumWithout(log, idx);
    RoundShift(Sum(log), -log[idx].nfCalories.Floor);
  }

  /** Two items of 250 and 137 kcal total 387 and leave 1613 of a 2000 kcal budget;
      removing the first leaves the second alone. */
  lemma DiaryExample(a: Food, b: Food)
    requires a.nfCalories == 250.0 && b.nfCalories == 137.0
    ensures TotalConsumed([a, b]) == 387
    ensures Remaining(2000, [a, b]) == 1613
    ensures WithoutIndex([a, b], 0) == [b]
    ensures TotalConsumed(WithoutIndex([a, b], 0)) == 137
  {
    assert [a, b] == [a] + [b];
    SumAppend([a], [b]);
    SumSingleton(a);
    SumSingleton(b);
    RoundUnique(387.0, 387);
    RoundUnique(137.0, 137);
  }

  // ---------------------------------------------------------------------------
  // History

  /** The history with one more day archived: the earlier entries untouched, then
      the date with the diary's rounded total. */
  function Archived(history: seq<HistoryEntry>, date: string, diary: seq<Food>): (h: seq<HistoryEntry>)
    ensures |h| == |history| + 1
    ensures h[..|history|] == history
    ensures h[|history|].date == date && h[|history|].total == TotalConsumed(diary)
  {
    history + [HistoryEntry(date, TotalConsumed(diary))]
  }

  /** A stored list, or the empty list when the record is absent. */
  function OrEmpty<T>(stored: Option<seq<T>>): (s: seq<T>)
    ensures stored.Some? ==> s == stored.value
    ensures stored.None? ==> s == []
  {
    if stored.Some? then stored.value else []
  }

  /** `localStorage.getItem("lastLogDate") || today`: an absent or empty record means today. */
  function StoredLastOr(stored: Option<string>, today: string): (date: string)
    ensures date == today || (stored == Some(date) && date != "")
    ensures stored.Some? && stored.value != "" ==> date == stored.value
  {
    if stored.Some? && stored.value != "" then stored.value else today
  }

  /** `res.data.foods.forEach((_, i) => initial[i] = 1)`: every result starts as a full portion. */
  method InitialPortions(foods: seq<Food>) returns (initial: map<int, real>)
    ensures forall i :: i in initial <==> 0 <= i < |foods|
    ensures forall i :: i in initial ==> initial[i] == 1.0
  {
    initial := map[];
    var i := 0;
    while i < |foods|
      invariant 0 <= i <= |foods|
      invariant forall k :: k in initial <==> 0 <= k < i
      invariant forall k :: k in initial ==> initial[k] == 1.0
    {
      initial := initial[i := 1.0];
      i := i + 1;
    }
  }

  // ---------------------------------------------------------------------------
  // The page state

  class Home {
    var stats: UserStats
    var results: seq<Food>
    var portions: map<int, real>
    var log: seq<Food>
    var history: seq<HistoryEntry>
    var lastLogDate: string

    // The browser-storage records "calorieStats", "calorieLog", "calorieHistory" and "lastLogDate".
    var storedStats: Option<UserStats>
    var storedLog: Option<seq<Food>>
    var storedHistory: Option<seq<HistoryEntry>>
    var storedLastLogDate: Option<string>

    /** The storage records reflect the diary, the history and the date in memory. */
    predicate Persisted()
      reads this
      ensures Persisted() ==> storedLog.Some? && storedLog.value == log
      // A load on the in-memory date finds that same date stored, so it archives nothing.
      ensures Persisted() ==> StoredLastOr(storedLastLogDate, lastLogDate) == lastLogDate
    {
      storedLog == Some(log) && OrEmpty(storedHistory) == history && storedLastLogDate == Some(lastLogDate)
    }

    /** The first render: default state over whatever storage already holds. */
    constructor (today: string, stats0: Option<UserStats>, log0: Option<seq<Food>>,
                 history0: Option<seq<HistoryEntry>>, lastLogDate0: Option<string>)
      ensures stats == DefaultStats && results == [] && portions == map[]
      ensures log == [] && history == [] && lastLogDate == today
      ensures storedStats == stats0 && storedLog == log0
      ensures storedHistory == history0 && storedLastLogDate == lastLogDate0
    {
      stats := DefaultStats;
      results := [];
      portions := map[];
      log := [];
      history := [];
      lastLogDate := today;
      storedStats := stats0;
      storedLog := log0;
      storedHistory := history0;
      storedLastLogDate := lastLogDate0;
    }

    /** The diary effect: whenever the diary changes it is written to storage. */
    method PersistDiary()
      modifies this`storedLog
      ensures storedLog == Some(log)
    {
      storedLog := Some(log);
    }

    /** The mount effect: restore the stats, then archive the stored diary if it
        belongs to a different day, or keep it if it is today's. */
    method Load(today: string)
      modifies this
      ensures stats == (if old(storedStats).Some? then old(storedStats).value else old(stats))
      ensures results == old(results) && portions == old(portions) && storedStats == old(storedStats)
      ensures var last := StoredLastOr(old(storedLastLogDate), today);
              if last != today then
                history == Archived(OrEmpty(old(storedHistory)), last, OrEmpty(old(storedLog)))
                && log == [] && storedHistory == Some(history)
              else
                history == OrEmpty(old(storedHistory)) && log == OrEmpty(old(storedLog))
                && storedHistory == old(storedHistory)
      ensures lastLogDate == today && Persisted()
      // A second load on the same day changes nothing.
      ensures old(Persisted()) && old(lastLogDate) == today ==> log == old(log) && history == old(history)
    {
      if storedStats.Some? {
        stats := storedStats.value;
      }
      var hist := OrEmpty(storedHistory);
      var storedLast := StoredLastOr(storedLastLogDate, today);
      var diary := OrEmpty(storedLog);
      var newHistory := hist;
      if storedLast != today {
        var total := TotalConsumed(diary);
        newHistory := hist + [HistoryEntry(storedLast, total)];
        storedHistory := Some(newHistory);
        storedLog := Some([]);
        log := [];
      } else {
        log := diary;
      }
      history := newHistory;
      lastLogDate := today;
      storedLastLogDate := Some(today);
      PersistDiary();
    }

    /** The midnight callback: archive today's diary under its date, clear it and
        move on to the new date. */
    method Rollover(newDate: string)
      modifies this
      ensures history == Archived(old(history), old(lastLogDate), old(log))
      ensures log == [] && lastLogDate == newDate
      ensures storedHistory == Some(history) && storedLog == Some([]) && storedLastLogDate == Some(newDate)
      ensures Persisted()
      ensures stats == old(stats) && results == old(results) && portions == old(portions)
      ensures storedStats == old(storedStats)
    {
      var total := TotalConsumed(log);
      var entry := HistoryEntry(lastLogDate, total);
      var newHistory := history + [entry];
      history := newHistory;
      storedHistory := Some(newHistory);
      log := [];
      storedLog := Some([]);
      lastLogDate := newDate;
      storedLastLogDate := Some(newDate);
      PersistDiary();
    }

    /** The tail of the search handler: show the results, each at a full portion. */
    method ShowResults(foods: seq<Food>)
      modifies this`results, this`portions
      ensures results == foods
      ensures forall i :: i in portions <==> 0 <= i < |foods|
      ensures forall i :: i in portions ==> portions[i] == 1.0
    {
      results := foods;
      portions := InitialPortions(foods);
    }

    method AddToLog(item: Food, idx: int)
      modifies this`log, this`storedLog
      ensures log == old(log) + [Portioned(item, Multiplier(portions, idx))]
      ensures storedLog == Some(log)
      ensures old(Persisted()) ==> Persisted()
    {
      var multiplier := Multiplier(portions, idx);
      log := log + [Portioned(item, multiplier)];
      PersistDiary();
    }

    method RemoveFromLog(idx: int)
      modifies this`log, this`storedLog
      ensures log == WithoutIndex(old(log), idx)
      ensures storedLog == Some(log)
      ensures old(Persisted()) ==> Persisted()
    {
      log := WithoutIndex(log, idx);
      PersistDiary();
    }
  }
}
