/** Example runs of the tracker, checked against the class contracts alone,
    as a client of the component (the view) sees them. */
module Scenarios {
  import opened Wrappers
  import opened Catalog
  import opened Progress
  import opened Store
  import opened Tracker

  /** The caps of the default catalog. */
  lemma DefaultCaps()
    ensures CapOf(DefaultTasks, "pushups") == Some(100.0)
    ensures CapOf(DefaultTasks, "situps") == Some(100.0)
    ensures CapOf(DefaultTasks, "squats") == Some(100.0)
    ensures CapOf(DefaultTasks, "running") == Some(5.0)
  {
    DefaultTasksWellFormed();
    CapOfCatalogTask(DefaultTasks, DefaultTasks[0]);
    CapOfCatalogTask(DefaultTasks, DefaultTasks[1]);
    CapOfCatalogTask(DefaultTasks, DefaultTasks[2]);
    CapOfCatalogTask(DefaultTasks, DefaultTasks[3]);
  }

  /** The zeroed map of the default catalog. */
  lemma DefaultZeroes()
    ensures ZeroProgress(DefaultTasks) == map["pushups" := 0.0, "situps" := 0.0, "squats" := 0.0, "running" := 0.0]
  {
  }

  /** The default catalog is complete once each of its four tasks has
      reached its target. */
  lemma DefaultAllDone(p: ProgressMap)
    requires "pushups" in p && "situps" in p && "squats" in p && "running" in p
    requires p["pushups"] >= 100.0 && p["situps"] >= 100.0 && p["squats"] >= 100.0 && p["running"] >= 5.0
    ensures AllDone(DefaultTasks, p)
  {
    AllDoneIff(DefaultTasks, p);
    forall i | 0 <= i < |DefaultTasks| ensures ValueOf(p, DefaultTasks[i].id) >= DefaultTasks[i].target {
      if i == 0 {
      } else if i == 1 {
      } else if i == 2 {
      } else {
      }
    }
  }

  /** Four steps of 25 push-ups reach the target of 100 and a fifth stays
      there; the quest is not complete while the other tasks are at 0. */
  method PushupsStopAtTarget()
  {
    DefaultCaps();
    DefaultZeroes();
    var q := new DailyQuestTracker(None, "2024-01-02");
    q.Start("2024-01-02");
    assert q.progress == map["pushups" := 0.0, "situps" := 0.0, "squats" := 0.0, "running" := 0.0];
    q.Increment("pushups", 25.0);
    q.Increment("pushups", 25.0);
    q.Increment("pushups", 25.0);
    assert q.progress["pushups"] == 75.0;
    q.Increment("pushups", 25.0);
    assert q.progress["pushups"] == 100.0;
    q.Increment("pushups", 25.0);
    assert q.progress["pushups"] == 100.0;
    assert q.progress["situps"] == 0.0;
    assert !q.Complete() by {
      assert q.tasks[1].id == "situps";
    }
  }

  /** The decrement at 0 stays at 0. */
  method DecrementAtZeroStaysZero()
  {
    DefaultCaps();
    DefaultZeroes();
    var q := new DailyQuestTracker(None, "2024-01-02");
    q.Start("2024-01-02");
    assert q.progress["running"] == 0.0;
    q.Increment("running", -1.0);
    assert q.progress["running"] == 0.0;
  }

  /** Yesterday's snapshot is discarded in favour of a zeroed one for today. */
  method StaleSnapshotRolledOver()
  {
    DefaultZeroes();
    var stale := Some(Snapshot("2024-01-01", map["pushups" := 50.0]));
    var q := new DailyQuestTracker(stale, "2024-01-02");
    q.Start("2024-01-02");
    assert q.dateKey == "2024-01-02";
    assert q.progress == map["pushups" := 0.0, "situps" := 0.0, "squats" := 0.0, "running" := 0.0];
    assert q.stored == Some(Snapshot("2024-01-02", q.progress));
  }

  /** Text that parses to NaN leaves 2 km of running untouched. */
  method NaNInputIgnored()
  {
    DefaultCaps();
    DefaultZeroes();
    var q := new DailyQuestTracker(None, "2024-01-02");
    q.Start("2024-01-02");
    assert q.progress["running"] == 0.0;
    q.Increment("running", 2.0);
    assert q.progress["running"] == 2.0;
    q.SetDirect("running", None);
    assert q.progress["running"] == 2.0;
  }

  /** Every task set to its exact target completes the quest. */
  method AllTargetsComplete()
  {
    DefaultCaps();
    DefaultZeroes();
    var q := new DailyQuestTracker(None, "2024-01-02");
    q.Start("2024-01-02");
    q.SetDirect("pushups", Some(100.0));
    q.SetDirect("situps", Some(100.0));
    q.SetDirect("squats", Some(100.0));
    q.SetDirect("running", Some(5.0));
    assert q.progress["pushups"] == 100.0;
    assert q.progress["situps"] == 100.0;
    assert q.progress["squats"] == 100.0;
    assert q.progress["running"] == 5.0;
    DefaultAllDone(q.progress);
    assert q.Complete();
  }
}
