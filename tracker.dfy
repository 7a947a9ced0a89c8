/** The DailyQuestTracker component's state and the operations the view calls
    on it. The browser's storage slot is the field `stored`; the clock and
    `Number(...)` parsing are parameters. */
module Tracker {
  import opened Wrappers
  import opened Catalog
  import opened Progress
  import opened Store

  /** `forEach(t => (m[t.id] = 0))` over a catalog. */
  method BuildZeroes(tasks: seq<Task>) returns (m: ProgressMap)
    ensures m == ZeroProgress(tasks)
  {
    m := map[];
    for i := 0 to |tasks|
      invariant m == ZeroProgress(tasks[..i])
    {
      assert tasks[..i + 1][..i] == tasks[..i];
      m := m[tasks[i].id := 0.0];
    }
    assert tasks[..|tasks|] == tasks;
  }

  class DailyQuestTracker {
    /** The catalog the component holds in its state; it never changes. */
    const tasks: seq<Task>
    var dateKey: string
    var progress: ProgressMap
    /** The blob under the application's storage key. */
    var stored: Option<Snapshot>

    /** The catalog can be relied on: it is not empty, ids are unique and
        targets positive. */
    ghost predicate Valid()
      reads this
    {
      WellFormed(tasks) && tasks != []
    }

    /** The persisted copy equals the live state. */
    ghost predicate Persisted()
      reads this
    {
      stored == Some(Snapshot(dateKey, progress))
    }

    /** The first render: today's key from the clock and a zeroed map; the
        store still holds whatever an earlier session left there. */
    constructor (blob: Option<Snapshot>, clock: string)
      ensures Valid() && tasks == DefaultTasks
      ensures dateKey == clock && progress == ZeroProgress(tasks) && stored == blob
      ensures Bounded(tasks, progress) && !AllDone(tasks, progress)
    {
      var init := BuildZeroes(DefaultTasks);
      tasks := DefaultTasks;
      dateKey := clock;
      progress := init;
      stored := blob;
      new;
      DefaultTasksWellFormed();
      ZeroProgressBounded(tasks);
      ResetIsNotDone(tasks);
    }

    /** The derived completion flag, recomputed from `progress`. */
    function Complete(): (b: bool)
      reads this
      ensures b <==> forall i :: 0 <= i < |tasks| ==> ValueOf(progress, tasks[i].id) >= tasks[i].target
    {
      AllDoneIff(tasks, progress);
      AllDone(tasks, progress)
    }

    /** Writes the full snapshot to the store. */
    method Save()
      modifies this`stored
      ensures Persisted()
    {
      stored := Some(Snapshot(dateKey, progress));
    }

    /** The start-up effect: adopt today's stored snapshot, or zero the map
        and save it; then the save-on-change effect writes the settled state. */
    method Start(today: string)
      requires Valid()
      modifies this
      ensures Valid()
      ensures Snapshot(dateKey, progress) == StartUp(tasks, old(stored), today)
      ensures Persisted()
      ensures ForToday(old(stored), today) && Bounded(tasks, old(stored).value.progress)
              ==> Bounded(tasks, progress)
      ensures !ForToday(old(stored), today) ==> Bounded(tasks, progress) && !AllDone(tasks, progress)
    {
      var blob := stored;
      if blob.Some? && blob.value.dateKey == today {
        progress := blob.value.progress;
      } else {
        var reset := BuildZeroes(tasks);
        progress := reset;
        stored := Some(Snapshot(today, reset));
      }
      dateKey := today;
      Save();
      if !ForToday(blob, today) {
        StartUpBounded(tasks, blob, today);
        ResetIsNotDone(tasks);
      }
    }

    /** `increment(id, amount)`: a quick step, or -1 from the decrement. */
    method Increment(id: string, amount: real)
      requires Valid() && id in progress
      modifies this
      ensures Valid()
      ensures progress == AfterIncrement(tasks, old(progress), id, amount)
      ensures dateKey == old(dateKey) && Persisted()
    {
      var cap := CapOf(tasks, id);
      progress := progress[id := Clamp(progress[id] + amount, cap)];
      Save();
    }

    /** `setDirect(id, val)` with `parsed` the result of `Number(val)`:
        NaN (None) is ignored and nothing is written. */
    method SetDirect(id: string, parsed: Option<real>)
      requires Valid()
      modifies this
      ensures Valid()
      ensures progress == AfterSetDirect(tasks, old(progress), id, parsed)
      ensures dateKey == old(dateKey)
      ensures parsed.Some? ==> Persisted()
      ensures parsed.None? ==> stored == old(stored)
    {
      if parsed.Some? {
        var cap := CapOf(tasks, id);
        progress := progress[id := Clamp(parsed.value, cap)];
        Save();
      }
    }

    /** `resetToday()`: every catalog task back to zero, other keys dropped. */
    method ResetToday()
      requires Valid()
      modifies this
      ensures Valid()
      ensures progress == ZeroProgress(tasks)
      ensures dateKey == old(dateKey) && Persisted()
      ensures Bounded(tasks, progress) && !AllDone(tasks, progress)
    {
      var reset := BuildZeroes(tasks);
      progress := reset;
      ZeroProgressBounded(tasks);
      ResetIsNotDone(tasks);
      Save();
    }
  }
}
