# Daily Quest Tracker — progress store model

A Dafny model of the state-management core of the Daily Quest Tracker, a
single-page habit tracker (`app.js`). The tracker shows a fixed catalog of four
quantified tasks (push-ups, sit-ups, squats, running), lets the user raise or
lower each task's value toward its target, and keeps today's values in the
browser's local storage.

The model has five modules:

- `Catalog` (`catalog.dfy`): the task definition, the shipped catalog
  `DefaultTasks`, `tasks.find` as `Find`, and the upper bound `CapOf`. `None`
  stands for `Infinity`, the cap of an id that is not in the catalog.
- `Progress` (`progress.dfy`): the pure rules. It holds the clamp
  `Math.max(0, Math.min(x, cap))`, the `?? 0` read of an entry, the per-task
  `done` rule, the `every` completion rule and the zeroed map built by the
  `forEach` loops. It also gives the effect of `increment` and `setDirect` on
  the progress map, and the lemmas about them: clamping bounds, "only this key
  changes", idempotence, completion, and the bounds invariant over any sequence
  of user actions (`Run`).
- `Store` (`store.dfy`): the persisted snapshot `{dateKey, progress}` and the
  start-up rollover rule `StartUp`.
- `Tracker` (`tracker.dfy`): the `DailyQuestTracker` component as a class. Its
  fields are `dateKey`, `progress` and `stored`, where `stored` is the blob under
  the application's storage key. Its methods are `Start` (the start-up effect),
  `Increment`, `SetDirect` and `ResetToday`. Each method that changes the
  state writes the full snapshot back, as the save-on-change effect does; a
  `SetDirect` whose input parses to NaN changes nothing and writes nothing. `BuildZeroes` is the
  `forEach` loop that fills a zeroed map.
- `Scenarios` (`scenarios.dfy`): example runs of the tracker, as client methods
  that drive the class using only its contracts (push-ups stopping at their
  target, the decrement at zero, a stale snapshot rolled over, NaN input
  ignored, every target reached).

Values are exact reals, so the 0.5 km step is exact. The parse of a typed value
is an `Option<real>` (`None` is NaN). The stored blob is an `Option<Snapshot>`:
a missing, unparseable or falsy blob is `None`. "Today" is a string parameter.

The rollover decision is made only at start-up. A session that stays open past
midnight keeps its date key, as in the source.

`app.js:41` adopts a same-day snapshot verbatim, without clamping its values
or filling in missing tasks (`Store.SameDayAdopted`). So the bounds invariant
holds after start-up when the adopted snapshot already satisfied it
(`Store.StartUpBounded`), and an adopted snapshot that breaks it is kept as it
is (`Store.SameDayAdopted`).

## Model

| member | source | states |
|---|---|---|
| `Catalog.DefaultTasksWellFormed` | app.js:7-12 | The shipped catalog has unique ids, positive targets and non-empty lists of positive steps. |
| `Catalog.Find` | app.js:57 | `tasks.find` finds a task exactly when the id is in the catalog, and what it finds is a catalog task carrying that id. |
| `Catalog.FindIsFirst` | app.js:57 | Like `Array.prototype.find`, the lookup returns the first task carrying the id: no earlier task has it. |
| `Catalog.FindCatalogTask` | app.js:57 | In a catalog with unique ids, looking up a task's id returns that very task. |
| `Catalog.CapOf` | app.js:57-58 | The cap is `None` (Infinity) exactly for ids outside the catalog; otherwise it is the target of a catalog task with that id. |
| `Catalog.CapOfCatalogTask` | app.js:57-58 | A catalog task's cap is its own target, and that target is positive. |
| `Progress.Clamp` | app.js:59 | The clamp is never negative and never above a non-negative cap. It returns x unchanged inside [0, cap], 0 at or below 0, and the cap at or above it. |
| `Progress.ZeroProgress` | app.js:43-44 | The zeroed map has exactly the catalog ids as keys, and every value is 0. |
| `Progress.AfterIncrement` | app.js:55-62 | Increment keeps the same keys and changes no entry but `id`. The new entry is never negative. |
| `Progress.AfterSetDirect` | app.js:64-73 | A NaN parse leaves the map unchanged. A number adds or replaces only the entry for `id`, which is never negative; every other entry is kept. |
| `Progress.IncrementClamps` | app.js:55-59 | For a catalog task the new value lies in [0, target]. It is 0 when prev + amount <= 0 (so -1 at 0 stays 0), the target when the sum reaches it (75+25 and 100+25 give 100), and the sum otherwise. |
| `Progress.SetDirectClamps` | app.js:67-70 | Setting a catalog task to n gives n clamped to [0, target]: 0 for n <= 0, the target for n >= target, and n in between. |
| `Progress.SetDirectUnknown` | app.js:68-70 | For an id outside the catalog the cap is Infinity: `setDirect` stores 0 for a negative number and the number itself otherwise. |
| `Progress.SetDirectIdempotent` | app.js:67-70 | Applying the same `setDirect` twice gives the same map as applying it once. |
| `Progress.SetDirectForgetsPrevious` | app.js:70 | The value that `setDirect` stores does not depend on the previous map. |
| `Progress.ZeroProgressBounded` | app.js:75-79 | The zeroed map gives every catalog task an entry within [0, target]. |
| `Progress.IncrementKeepsBounded` | app.js:55-62 | Increment preserves the invariant that every catalog task has an entry within [0, target]. |
| `Progress.SetDirectKeepsBounded` | app.js:64-73 | `setDirect` preserves the same bounds invariant, whether the input is NaN, a catalog id or an unknown id. |
| `Progress.Step` | app.js:55-79 | Any one user action (increment, typed value, reset) on a bounded map yields a bounded map. |
| `Progress.Run` | app.js:55-79 | After any sequence of user actions, every catalog value is still within [0, target]. |
| `Progress.AllDoneIff` | app.js:35 | The quest is complete exactly when every catalog task's value, with a missing entry read as 0, has reached its target. |
| `Progress.OneShortIsNotDone` | app.js:35 | A single task below its target makes the quest incomplete. |
| `Progress.DoneMeansAtTarget` | app.js:85-86 | Under the bounds invariant, a task is done (its quick steps disabled) exactly when its value equals its target. |
| `Progress.AllDoneMeansAllAtTarget` | app.js:35 | Under the bounds invariant, the quest is complete exactly when every task sits at its target. |
| `Progress.ResetIsNotDone` | app.js:75-79 | After a reset, a non-empty catalog is not complete. |
| `Store.StartUp` | app.js:37-49 | Start-up always settles on today's date key. |
| `Store.SameDayAdopted` | app.js:40-41 | A snapshot for today is adopted verbatim, with no clamping and no filling in of missing keys. |
| `Store.SaveThenLoadSameDay` | app.js:14-24 | Saving a snapshot and starting up again on the same day returns the same date key and progress map. |
| `Store.StaleIsFresh` | app.js:42-46 | A missing or stale snapshot yields a zero for every catalog id and nothing else, whatever the stale snapshot held. |
| `Store.StartUpBounded` | app.js:37-48 | Start-up yields a bounded map, provided any same-day snapshot it adopts was already bounded. |
| `Tracker.BuildZeroes` | app.js:43-44 | The `forEach` loop builds exactly the zeroed map of the catalog. |
| `Tracker.DailyQuestTracker.constructor` | app.js:27-33 | The first render takes its date key from the clock and starts with a zeroed map. That map is bounded and not complete. The store is untouched. |
| `Tracker.DailyQuestTracker.Complete` | app.js:35 | The completion flag is recomputed from `progress`: every catalog task has reached its target. |
| `Tracker.DailyQuestTracker.Save` | app.js:51-53 | After a save, the stored snapshot equals the in-memory date key and progress map. |
| `Tracker.DailyQuestTracker.Start` | app.js:37-53 | The settled state is `StartUp` of the stored blob, and it is persisted. A stale or missing blob leaves a bounded, incomplete map. A bounded same-day blob stays bounded. |
| `Tracker.DailyQuestTracker.Increment` | app.js:55-62 | The new map is `AfterIncrement` of the old one. The date key is unchanged and the new snapshot is persisted. |
| `Tracker.DailyQuestTracker.SetDirect` | app.js:64-73 | The new map is `AfterSetDirect` of the old one and the date key is unchanged. A number is persisted. NaN leaves the store untouched. |
| `Tracker.DailyQuestTracker.ResetToday` | app.js:75-79 | Every catalog task goes to 0 and other keys are dropped. The date key is unchanged, the snapshot is persisted, and the map is bounded and incomplete. |
| `Scenarios.DefaultCaps` | app.js:8-11 | The default caps are 100 reps for the three exercises and 5 km for running. |
| `Scenarios.DefaultZeroes` | app.js:43-44 | The zeroed map of the default catalog is {pushups: 0, situps: 0, squats: 0, running: 0}. |
| `Scenarios.DefaultAllDone` | app.js:35 | The default catalog is complete once each of its four tasks has reached its target. |

## Left out

- Rendering: React element construction, styles, the number input and `ReactDOM.render` (app.js:1-2, 81-116) are view code. The `done` rule that disables the quick steps is kept as `Progress.IsDone`.
- Storage and serialisation: `localStorage`, `JSON.parse`/`JSON.stringify` and the try/catch (app.js:14-24) are foreign calls. The storage slot is the `stored` field. Any blob that is missing, unparseable or falsy reaches the model as `None`. A blob that parses but has the wrong shape is not modelled, for example one whose `progress` is missing or holds non-numbers.
- `Save`: a write that throws (storage full or disabled) is not modelled. Every save succeeds.
- The clock: `new Date().toISOString().slice(0, 10)` (app.js:4) becomes the parameters `clock` (first render) and `today` (start-up effect).
- Number parsing: `Number(val)` becomes the `parsed` parameter. ±Infinity results, which the source clamps to the cap or to 0, cannot be represented. It is the caller's concern that `Number("")` is 0.
- IEEE-754 arithmetic: values are exact reals, so sums of 0.5 km steps carry no rounding.
- `Tracker.DailyQuestTracker.Increment`: requires an existing entry for `id`. In the source, `prev[id] + amount` with no entry is `undefined + amount`, which is NaN, and NaN is then stored. That happens for any id with no entry in the map: an unknown id that has never been set directly, or a catalog id missing from an adopted same-day snapshot. An unknown id that already has an entry is modelled; it gets `max(0, prev + amount)`. NaN values are not modelled.
- `Progress.Run`: increments are restricted to catalog ids, as the view issues them (app.js:95, 99). Typed values and resets may target any id.
- React scheduling: every operation is one atomic step followed by a save. During mount, the save effect first writes the first-render zeroed snapshot, before the adopted state replaces it. This transient write is not modelled; only the settled stored value is.
