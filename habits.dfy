/**
  The habit records of the tracker and the pure logic on them: reading a week's
  completion vector with its all-false default, flipping one day of a week
  (creating the vector on first use), and dropping a habit by position.
 */
module Habits {

  /** Days in a completion vector; index 0 is the first day of the week. */
  const DaysPerWeek: nat := 7

  /** A tracked habit. `id` is a creation timestamp in milliseconds, `name` the text
      the user typed, and `completionData` maps a week key to that week's vector. */
  datatype Habit = Habit(id: int, name: string, completionData: map<string, seq<bool>>)

  /** Every completion vector of `h` has one entry per day of the week. */
  predicate WellFormedHabit(h: Habit) {
    forall key :: key in h.completionData ==> |h.completionData[key]| == DaysPerWeek
  }

  predicate WellFormed(habits: seq<Habit>) {
    forall i :: 0 <= i < |habits| ==> WellFormedHabit(habits[i])
  }

  /** `new Array(7).fill(false)`: a week with no day done. */
  function EmptyWeek(): (r: seq<bool>)
    ensures |r| == DaysPerWeek
    ensures forall i :: 0 <= i < |r| ==> !r[i]
  {
    seq(DaysPerWeek, _ => false)
  }

  /** Reading `v[d]` on a JavaScript array of booleans: a position past the end
      reads `undefined`, which is falsy and so behaves as `false`. */
  function DayAt(v: seq<bool>, d: nat): (r: bool)
    ensures d < |v| ==> r == v[d]
    ensures d >= |v| ==> !r
  {
    if d < |v| then v[d] else false
  }

  /** Writing `v[d] = b` on a JavaScript array: past the end the array grows to
      `d + 1` entries, and the holes it leaves read as `false`. */
  function WithDay(v: seq<bool>, d: nat, b: bool): (r: seq<bool>)
    ensures |r| == if d < |v| then |v| else d + 1
    ensures DayAt(r, d) == b
    ensures forall j :: 0 <= j < |r| && j != d ==> r[j] == DayAt(v, j)
  {
    if d < |v| then v[d := b] else v + seq(d - |v|, _ => false) + [b]
  }

  /** `habit.completionData[weekKey] || new Array(7).fill(false)`: the week's
      vector when one was ever created, else an all-false week. */
  function CompletionFor(h: Habit, weekKey: string): (r: seq<bool>)
    ensures WellFormedHabit(h) ==> |r| == DaysPerWeek
    ensures weekKey !in h.completionData ==> r == EmptyWeek()
    ensures weekKey in h.completionData ==> r == h.completionData[weekKey]
  {
    if weekKey in h.completionData then h.completionData[weekKey] else EmptyWeek()
  }

  /** The habit after day `d` of week `weekKey` is toggled: the week's vector is
      created all-false if missing, then entry `d` is negated. Nothing else of the
      habit changes. */
  function ToggledHabit(h: Habit, weekKey: string, d: nat): (r: Habit)
    ensures r.id == h.id && r.name == h.name
    ensures r.completionData.Keys == h.completionData.Keys + {weekKey}
    ensures forall k :: k in h.completionData && k != weekKey ==> r.completionData[k] == h.completionData[k]
    ensures DayAt(r.completionData[weekKey], d) == !DayAt(CompletionFor(h, weekKey), d)
    ensures forall j: nat :: j != d ==> DayAt(r.completionData[weekKey], j) == DayAt(CompletionFor(h, weekKey), j)
    ensures |r.completionData[weekKey]| == if d < |CompletionFor(h, weekKey)| then |CompletionFor(h, weekKey)| else d + 1
  {
    var v := CompletionFor(h, weekKey);
    h.(completionData := h.completionData[weekKey := WithDay(v, d, !DayAt(v, d))])
  }

  /** Toggling flips day `d` of the viewed week and leaves every other day of it as it was. */
  lemma ToggleFlipsOnlyThatDay(h: Habit, weekKey: string, d: nat, j: nat)
    requires WellFormedHabit(h) && d < DaysPerWeek && j < DaysPerWeek
    ensures |CompletionFor(ToggledHabit(h, weekKey, d), weekKey)| == DaysPerWeek
    ensures CompletionFor(ToggledHabit(h, weekKey, d), weekKey)[j]
         == if j == d then !CompletionFor(h, weekKey)[j] else CompletionFor(h, weekKey)[j]
  {
  }

  /** Every other week's vector is untouched: reading any other key gives what it gave before. */
  lemma ToggleKeepsOtherWeeks(h: Habit, weekKey: string, d: nat, other: string)
    requires other != weekKey
    ensures CompletionFor(ToggledHabit(h, weekKey, d), other) == CompletionFor(h, other)
  {
  }

  /** The first toggle of a week creates its vector: seven days, only day `d` done. */
  lemma FirstToggleCreatesWeek(h: Habit, weekKey: string, d: nat)
    requires weekKey !in h.completionData && d < DaysPerWeek
    ensures weekKey in ToggledHabit(h, weekKey, d).completionData
    ensures var v := ToggledHabit(h, weekKey, d).completionData[weekKey];
      |v| == DaysPerWeek && v[d] && forall j :: 0 <= j < |v| && j != d ==> !v[j]
  {
  }

  /** Toggling keeps every vector seven days long. */
  lemma ToggledWellFormed(h: Habit, weekKey: string, d: nat)
    requires WellFormedHabit(h) && d < DaysPerWeek
    ensures WellFormedHabit(ToggledHabit(h, weekKey, d))
  {
  }

  /** Toggling the same day twice gives back the week that was shown before, and
      the very same habit when that week's vector already existed. Day `d` must lie
      inside the viewed week's vector; a shorter vector grows on the first toggle. */
  lemma ToggleTwiceRestores(h: Habit, weekKey: string, d: nat)
    requires d < |CompletionFor(h, weekKey)|
    ensures CompletionFor(ToggledHabit(ToggledHabit(h, weekKey, d), weekKey, d), weekKey)
         == CompletionFor(h, weekKey)
    ensures weekKey in h.completionData ==> ToggledHabit(ToggledHabit(h, weekKey, d), weekKey, d) == h
  {
    var h1 := ToggledHabit(h, weekKey, d);
    var h2 := ToggledHabit(h1, weekKey, d);
    var v0, v1, v2 := CompletionFor(h, weekKey), CompletionFor(h1, weekKey), CompletionFor(h2, weekKey);
    assert |v1| == |v0| && |v2| == |v0|;
    forall j | 0 <= j < |v0| ensures v2[j] == v0[j] {
      assert DayAt(v2, j) == DayAt(v0, j);
    }
    assert v2 == v0;
    if weekKey in h.completionData {
      assert h2.completionData[weekKey] == h.completionData[weekKey];
      assert h2.completionData == h.completionData;
    }
  }

  /** `habits.filter((_, i) => i !== index)`: position `index` is dropped when it
      exists; any other index (negative, or past the end) keeps the whole list. */
  function Without<T>(s: seq<T>, index: int): (r: seq<T>)
    ensures 0 <= index < |s| ==> r == s[..index] + s[index + 1..]
    ensures !(0 <= index < |s|) ==> r == s
    decreases |s|
  {
    if s == [] then []
    else (if index == 0 then [] else [s[0]]) + Without(s[1..], index - 1)
  }

  /** Dropping a habit keeps the remaining vectors seven days long. */
  lemma WithoutWellFormed(habits: seq<Habit>, index: int)
    requires WellFormed(habits)
    ensures WellFormed(Without(habits, index))
  {
    var r := Without(habits, index);
    forall i | 0 <= i < |r| ensures WellFormedHabit(r[i]) {
      if 0 <= index < |habits| && i >= index {
        assert r[i] == habits[i + 1];
      }
    }
  }
}
