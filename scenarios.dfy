/**
  Sequences of user actions on the tracker, with what the handlers' contracts
  guarantee about the outcome.
 */
module Scenarios {
  import opened Habits
  import opened Tracker
  import opened JsString

  /** Clicking the same day twice shows the viewed week as it was before. */
  method ToggleTwiceRestoresView(t: HabitTracker, habitIndex: nat, dayIndex: nat)
    requires t.Valid()
    requires habitIndex < |t.habits|
    requires dayIndex < |t.GetCompletionData(t.habits[habitIndex])|
    modifies t`habits, t`stored
    ensures t.Valid() && |t.habits| == |old(t.habits)|
    ensures t.GetCompletionData(t.habits[habitIndex]) == old(t.GetCompletionData(t.habits[habitIndex]))
    ensures forall i :: 0 <= i < |t.habits| && i != habitIndex ==> t.habits[i] == old(t.habits[i])
  {
    ghost var h := t.habits[habitIndex];
    t.ToggleDay(habitIndex, dayIndex);
    t.ToggleDay(habitIndex, dayIndex);
    ToggleTwiceRestores(h, t.CurrentWeekKey(), dayIndex);
  }

  /** Going one week on and then one week back returns to the same date and week key. */
  method NavigationRoundTrip(t: HabitTracker)
    requires t.Valid()
    modifies t
    ensures t.currentWeek == old(t.currentWeek) && t.CurrentWeekKey() == old(t.CurrentWeekKey())
    ensures t.habits == old(t.habits) && t.newHabit == old(t.newHabit) && t.stored == old(t.stored)
  {
    t.NextWeek();
    t.PreviousWeek();
  }

  /** Empty storage, add "Read", tick its third day: the viewed week shows only that day done. */
  method AddThenTickThirdDay(today: int, weekKeyOf: int -> string, now: int) returns (view: seq<bool>)
    ensures view == [false, false, true, false, false, false, false]
  {
    var t := new HabitTracker(today, weekKeyOf, LoadedArray([]));
    t.SetNewHabit("Read");
    assert !IsWhiteSpace("Read"[0]);
    t.AddHabit(now);
    t.ToggleDay(0, 2);
    FirstToggleCreatesWeek(Habit(now, "Read", map[]), t.CurrentWeekKey(), 2);
    view := t.GetCompletionData(t.habits[0]);
  }

  /** Add "Read" and "Run", remove the first: only "Run" is left, at position 0. */
  method RemoveFirstOfTwo(today: int, weekKeyOf: int -> string, now: int) returns (rest: seq<Habit>)
    ensures |rest| == 1 && rest[0].name == "Run"
  {
    var t := new HabitTracker(today, weekKeyOf, LoadedArray([]));
    t.SetNewHabit("Read");
    assert !IsWhiteSpace("Read"[0]);
    t.AddHabit(now);
    t.SetNewHabit("Run");
    assert !IsWhiteSpace("Run"[0]);
    t.AddHabit(now + 1);
    t.RemoveHabit(0);
    rest := t.habits;
  }

  /** Adding with an empty or all-space input adds nothing and keeps the input. */
  method BlankInputAddsNothing(today: int, weekKeyOf: int -> string, now: int, text: string)
    returns (count: nat, input: string)
    requires text == "" || text == "   "
    ensures count == 0 && input == text
  {
    var t := new HabitTracker(today, weekKeyOf, LoadedArray([]));
    t.SetNewHabit(text);
    t.AddHabit(now);
    count, input := |t.habits|, t.newHabit;
  }

  /** An input with spaces around a word is stored as typed, spaces included. */
  method NameKeptUntrimmed(today: int, weekKeyOf: int -> string, now: int) returns (name: string)
    ensures name == " Read "
  {
    var t := new HabitTracker(today, weekKeyOf, LoadedArray([]));
    t.SetNewHabit(" Read ");
    assert !IsWhiteSpace(" Read "[1]);
    t.AddHabit(now);
    name := t.habits[0].name;
  }
}
