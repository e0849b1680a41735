# Habit tracker: a verified model of the HabitTracker component

The habit tracker is a single-page widget. The user adds named habits and ticks
the days of the viewed week on which each was done. The list survives reloads
through the browser's local storage. The logic this model covers lives in the React component
`src/components/HabitTracker.jsx`. This project models that component as a state
machine and proves what its event handlers do.

- `habits.dfy` (module `Habits`) holds the `Habit` record and the pure logic:
  - `CompletionFor` is the lookup-or-default read of a week's vector.
  - `ToggledHabit` flips one day, creating an all-false week vector first if the
    habit has none for that week.
  - `Without` drops a habit by position, like `filter` with an index test.
  - Lemmas about each.
- `jsstring.dfy` (module `JsString`) holds `String.prototype.trim`. Its white-space
  set is ECMAScript's WhiteSpace plus LineTerminator. The module proves that
  trimming gives the empty string exactly when the input is blank.
- `tracker.dfy` (module `Tracker`) holds the component as class `HabitTracker`:
  - Fields: `habits`, the add-habit input `newHabit`, and the viewed date
    `currentWeek` as a day number.
  - A ghost `stored` slot stands for what the component last persisted.
  - One method per handler. Every handler that replaces the list ends with the
    save effect.
  - The week key is the constant function `weekKeyOf`, given at construction. It
    stands for the date library's `format(startOfWeek(date), 'yyyy-MM-dd')`.
- `scenarios.dfy` (module `Scenarios`) holds sequences of user actions and the
  outcomes the handlers' contracts guarantee.

Where the code may surprise a reader, the model follows the code:

- A habit's name is the raw input, not the trimmed one. Only the emptiness test
  trims.
- The list is saved only while it is non-empty. Removing the last habit leaves the
  previous one-habit list in storage. After a reload, that habit comes back.
- `startOfWeek` is called without options, and its default week starts on Sunday.
  The day labels run Monday to Sunday. The model takes the key function as given
  and promises nothing about which weekday the key names.
- Ids come from the clock. Two habits added in the same millisecond share an id, so
  the model takes the id as a parameter and does not claim uniqueness.

## Model

| member | source | states |
|---|---|---|
| `Habits.EmptyWeek` | src/components/HabitTracker.jsx:72 | the default week has seven entries and none is done |
| `Habits.WithDay` | src/components/HabitTracker.jsx:76 | writing day `d` makes it read as the new value; every other position reads as before; past the end the vector grows to `d + 1` and the gap reads as not done |
| `Habits.DayAt` | src/components/HabitTracker.jsx:76 | reading a day inside the vector gives its entry; reading past the end gives not done |
| `Habits.CompletionFor` | src/components/HabitTracker.jsx:92-94 | a week that has a vector reads as that vector; a week with no vector reads as the all-false week; a habit whose vectors all have seven days reads as seven days for any week |
| `Habits.ToggledHabit` | src/components/HabitTracker.jsx:71-76 | toggling keeps id and name; the week keys become the old keys plus the viewed week; every other week's vector is unchanged; day `d` of the viewed week reads as the negation of what it read before and every other day of it reads as before, whatever the vector's length; the viewed week keeps its length, or grows to `d + 1` when `d` lies past its end |
| `Habits.ToggleFlipsOnlyThatDay` | src/components/HabitTracker.jsx:65-77 | after a toggle the viewed week still has seven days; day `d` is negated and every other day is as before |
| `Habits.ToggleKeepsOtherWeeks` | src/components/HabitTracker.jsx:71-76 | reading any other week after a toggle gives what it gave before |
| `Habits.FirstToggleCreatesWeek` | src/components/HabitTracker.jsx:71-76 | the first toggle of a week creates a seven-day vector in which only day `d` is done |
| `Habits.ToggledWellFormed` | src/components/HabitTracker.jsx:71-76 | toggling keeps every vector of the habit seven days long |
| `Habits.ToggleTwiceRestores` | src/components/HabitTracker.jsx:65-78 | for a day inside the viewed week's vector, toggling it twice shows the viewed week as before; when the week's vector already existed, the habit is exactly as before |
| `Habits.Without` | src/components/HabitTracker.jsx:80-82 | an index in range removes exactly that element and keeps the others in order; any other index keeps the list |
| `Habits.WithoutWellFormed` | src/components/HabitTracker.jsx:80-82 | removing a habit keeps every remaining vector seven days long |
| `JsString.TrimStart` | src/components/HabitTracker.jsx:52 | the result is a suffix of the input; what was dropped is all white space; the result is empty or starts with a non-space |
| `JsString.TrimEnd` | src/components/HabitTracker.jsx:52 | the result is a prefix of the input; what was dropped is all white space; the result is empty or ends with a non-space |
| `JsString.Trim` | src/components/HabitTracker.jsx:52 | `trim()` is a slice of the input with a blank prefix and a blank suffix removed, and is empty or starts and ends with a non-space |
| `JsString.TrimEmptyIffBlank` | src/components/HabitTracker.jsx:52 | `trim()` is empty exactly when every character is white space |
| `Tracker.HabitTracker.constructor` | src/components/HabitTracker.jsx:7-36 | mount: an array from storage becomes the list and anything else gives the empty list; the input is empty; the viewed date is today; a non-empty loaded list is saved again |
| `Tracker.HabitTracker.SaveEffect` | src/components/HabitTracker.jsx:31-36 | storage receives the list when it is non-empty and is left alone otherwise |
| `Tracker.HabitTracker.CurrentWeekKey` | src/components/HabitTracker.jsx:13-15 | the viewed week's key is the date library's key of the viewed date |
| `Tracker.HabitTracker.GetCompletionData` | src/components/HabitTracker.jsx:92-94 | the viewed week's vector when the habit has one, else all-false; a well-formed habit reads as seven days; nothing changes |
| `Tracker.HabitTracker.SetNewHabit` | src/components/HabitTracker.jsx:126 | the input holds the typed text |
| `Tracker.HabitTracker.AddHabit` | src/components/HabitTracker.jsx:51-63 | a blank input changes nothing; otherwise exactly one habit with the untrimmed input as name, the given id and no weeks is appended after the unchanged earlier ones, the input is cleared and the new list is saved |
| `Tracker.HabitTracker.ToggleDay` | src/components/HabitTracker.jsx:65-78 | only habit `habitIndex` changes, and it becomes the toggled habit for the viewed week; the length is kept; the new list is saved; for a day below seven, vectors stay seven days long |
| `Tracker.HabitTracker.RemoveHabit` | src/components/HabitTracker.jsx:80-82 | an index in range removes exactly that habit and keeps the order of the rest; any other index keeps the list; removing the last habit leaves the old list in storage |
| `Tracker.HabitTracker.NextWeek` | src/components/HabitTracker.jsx:84-86 | the viewed date moves seven days on |
| `Tracker.HabitTracker.PreviousWeek` | src/components/HabitTracker.jsx:88-90 | the viewed date moves seven days back |
| `Scenarios.ToggleTwiceRestoresView` | src/components/HabitTracker.jsx:65-78 | two clicks on a day inside the viewed week's vector show the same week as it was; other habits, the input and the viewed date are untouched |
| `Scenarios.NavigationRoundTrip` | src/components/HabitTracker.jsx:84-90 | next week then previous week restores the viewed date and its week key; nothing else changes |
| `Scenarios.AddThenTickThirdDay` | src/components/HabitTracker.jsx:51-78 | from empty storage, adding "Read" and ticking day 2 shows `[false, false, true, false, false, false, false]` |
| `Scenarios.RemoveFirstOfTwo` | src/components/HabitTracker.jsx:51-82 | after adding "Read" and "Run" and removing position 0, only "Run" is left |
| `Scenarios.BlankInputAddsNothing` | src/components/HabitTracker.jsx:51-63 | adding with an empty or all-space input adds nothing and keeps the input |
| `Scenarios.NameKeptUntrimmed` | src/components/HabitTracker.jsx:53-57 | an input with surrounding spaces is stored as typed |

## Left out

- Rendering, styling, icons and the per-day date labels (src/components/HabitTracker.jsx:96-204) are presentation only.
- The date library (`format`, `startOfWeek`, `addWeeks`, `subWeeks`, `addDays`) is foreign code. The date is an integer day number. A week forward or back is plus or minus seven days. The week key is the uninterpreted function `weekKeyOf`.
- `Date.now()` is a clock read. Its value is the `now` parameter of `AddHabit`.
- `debugStorage` and every `console` call are diagnostics only.
- `src/utils/storage.js` is not part of this model. JSON serialisation and `localStorage` are library code. Storage appears only as the `Loaded` value handed to the constructor and the ghost `stored` slot. So the model does not show that loading a saved list gives the same list back.
- React's scheduling is not modelled. Each handler is one synchronous step, and the save effect runs right after it. On mount the effects run in their source order.
- The shallow copy in `toggleDay` also mutates the habit object of the previous list. That list is discarded, so the model replaces habit `habitIndex` by value.
- JavaScript arrays with holes: a vector that is too short (only possible if storage was edited by hand) grows when a day past its end is toggled. The holes are modelled as `false`, which is how they read. `Array.prototype.map` would skip them when rendering.
- Tracker.HabitTracker.ToggleDay: requires a habit at `habitIndex`. The source does not check it: the buttons only pass positions of rendered habits, and a missing habit makes line 71 throw. Any `dayIndex` is accepted, since a longer loaded vector renders a button for each of its entries.
- Loaded data is assumed to be shaped like habits. The load effect at src/components/HabitTracker.jsx:21 checks only that storage held an array, and `LoadedArray` carries habit records whose `completionData` maps keys to boolean vectors. An array such as `[1]` or `[{"name":"x"}]` is accepted by the source and then fails when the grid reads `completionData` at line 93; the model does not represent such values.
- Habits.ToggleTwiceRestores: requires day `d` to lie inside the viewed week's vector (always so for a missing week or a seven-day vector). For a shorter vector that grows on the first toggle, the week is not restored in the source either.
