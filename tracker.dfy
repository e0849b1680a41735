/**
  The HabitTracker component as a state machine: the habit list, the text of the
  add-habit input and the viewed date are its fields, each event handler is a
  method, and the effect that persists the list runs at the end of every handler
  that replaces the list.
 */
module Tracker {
  import opened Habits
  import opened JsString

  /** What the storage adapter hands back on mount: a JSON array of habits, or any
      other value. */
  datatype Loaded = LoadedArray(items: seq<Habit>) | LoadedOther

  /** The persisted slot as far as this component is concerned: either it has not
      written it yet (it still holds whatever was there at mount), or the list it
      last saved. */
  datatype Slot = Untouched | Saved(list: seq<Habit>)

  class HabitTracker {
    var habits: seq<Habit>
    var newHabit: string
    /** The viewed date, as a day number. */
    var currentWeek: int
    ghost var stored: Slot
    /** The date library's `format(startOfWeek(date), 'yyyy-MM-dd')`, taken as given.
        Nothing is assumed about which weekday it picks. */
    const weekKeyOf: int -> string

    /** The save effect has run after the last change: a non-empty list is in
        storage, and storage never receives an empty one. */
    ghost predicate Valid()
      reads this
    {
      && (|habits| > 0 ==> stored == Saved(habits))
      && (stored.Saved? ==> |stored.list| > 0)
    }

    /** Mount: the initial state, then the load effect (an array from storage
        seeds the list, anything else gives the empty list), then the save effect. */
    constructor (today: int, weekKeyOf: int -> string, loaded: Loaded)
      ensures Valid()
      ensures habits == if loaded.LoadedArray? then loaded.items else []
      ensures newHabit == "" && currentWeek == today && this.weekKeyOf == weekKeyOf
      ensures stored == if |habits| > 0 then Saved(habits) else Untouched
    {
      this.weekKeyOf := weekKeyOf;
      habits := [];
      newHabit := "";
      currentWeek := today;
      stored := Untouched;
      new;
      if loaded.LoadedArray? {
        habits := loaded.items;
      } else {
        habits := [];
      }
      SaveEffect();
    }

    /** The save effect: the list is written only when it is non-empty. */
    method SaveEffect()
      modifies this`stored
      ensures stored == if |habits| > 0 then Saved(habits) else old(stored)
    {
      if |habits| > 0 {
        stored := Saved(habits);
      }
    }

    /** The key of the week being viewed. */
    function CurrentWeekKey(): string
      reads this
    {
      weekKeyOf(currentWeek)
    }

    /** `getCompletionData(habit)` with its default key, the viewed week. */
    function GetCompletionData(habit: Habit): (r: seq<bool>)
      reads this
      ensures WellFormedHabit(habit) ==> |r| == DaysPerWeek
      ensures CurrentWeekKey() !in habit.completionData ==> r == EmptyWeek()
      ensures CurrentWeekKey() in habit.completionData ==> r == habit.completionData[CurrentWeekKey()]
    {
      CompletionFor(habit, CurrentWeekKey())
    }

    /** The input's change handler. */
    method SetNewHabit(text: string)
      requires Valid()
      modifies this`newHabit
      ensures Valid()
      ensures newHabit == text
    {
      newHabit := text;
    }

    /** Adds a habit named by the input, untrimmed, when the input is not blank;
        `now` is the clock reading that becomes its id. */
    method AddHabit(now: int)
      requires Valid()
      modifies this`habits, this`newHabit, this`stored
      ensures Valid()
      ensures IsBlank(old(newHabit)) ==>
        habits == old(habits) && newHabit == old(newHabit) && stored == old(stored)
      ensures !IsBlank(old(newHabit)) ==>
        && habits == old(habits) + [Habit(now, old(newHabit), map[])]
        && newHabit == ""
        && stored == Saved(habits)
      ensures WellFormed(old(habits)) ==> WellFormed(habits)
    {
      TrimEmptyIffBlank(newHabit);
      if Trim(newHabit) != "" {
        habits := habits + [Habit(now, newHabit, map[])];
        newHabit := "";
        SaveEffect();
      }
    }

    /** Flips day `dayIndex` of habit `habitIndex` in the viewed week, first
        creating that week's all-false vector if the habit has none. The grid has
        one button per entry of the vector, so a longer loaded vector passes days
        past the seventh. */
    method ToggleDay(habitIndex: nat, dayIndex: nat)
      requires Valid()
      requires habitIndex < |habits|
      modifies this`habits, this`stored
      ensures Valid()
      ensures |habits| == |old(habits)|
      ensures habits == old(habits)[habitIndex := ToggledHabit(old(habits)[habitIndex], CurrentWeekKey(), dayIndex)]
      ensures stored == Saved(habits)
      ensures WellFormed(old(habits)) && dayIndex < DaysPerWeek ==> WellFormed(habits)
    {
      var weekKey := CurrentWeekKey();
      var habit := habits[habitIndex];
      var data := habit.completionData;
      if weekKey !in data {
        data := data[weekKey := EmptyWeek()];
      }
      var week := data[weekKey];
      assert week == CompletionFor(habit, weekKey);
      week := WithDay(week, dayIndex, !DayAt(week, dayIndex));
      data := data[weekKey := week];
      assert habit.(completionData := data) == ToggledHabit(habit, weekKey, dayIndex);
      habits := habits[habitIndex := habit.(completionData := data)];
      if WellFormed(old(habits)) && dayIndex < DaysPerWeek {
        ToggledWellFormed(old(habits)[habitIndex], weekKey, dayIndex);
      }
      SaveEffect();
    }

    /** Drops the habit at `index`; any other index leaves the list as it was. */
    method RemoveHabit(index: int)
      requires Valid()
      modifies this`habits, this`stored
      ensures Valid()
      ensures 0 <= index < |old(habits)| ==> habits == old(habits)[..index] + old(habits)[index + 1..]
      ensures !(0 <= index < |old(habits)|) ==> habits == old(habits)
      ensures stored == if |habits| > 0 then Saved(habits) else old(stored)
      ensures |old(habits)| == 1 && index == 0 ==> habits == [] && stored == Saved(old(habits))
      ensures WellFormed(old(habits)) ==> WellFormed(habits)
    {
      if WellFormed(habits) {
        WithoutWellFormed(habits, index);
      }
      habits := Without(habits, index);
      SaveEffect();
    }

    /** Moves the viewed date one week on. */
    method NextWeek()
      requires Valid()
      modifies this`currentWeek
      ensures Valid()
      ensures currentWeek == old(currentWeek) + DaysPerWeek
    {
      currentWeek := currentWeek + DaysPerWeek;
    }

    /** Moves the viewed date one week back. */
    method PreviousWeek()
      requires Valid()
      modifies this`currentWeek
      ensures Valid()
      ensures currentWeek == old(currentWeek) - DaysPerWeek
    {
      currentWeek := currentWeek - DaysPerWeek;
    }
  }
}
