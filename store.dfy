/** The persisted snapshot and the daily rollover rule applied at start-up. */
module Store {
  import opened Wrappers
  import opened Catalog
  import opened Progress

  /** `{ dateKey, progress }` as written to the browser's storage. A blob that
      is missing, fails to parse, or parses to something falsy reaches the
      model as None. */
  datatype Snapshot = Snapshot(dateKey: string, progress: ProgressMap)

  /** A stored snapshot is adopted only when it belongs to today. */
  predicate ForToday(blob: Option<Snapshot>, today: string)
  {
    blob.Some? && blob.value.dateKey == today
  }

  /** The state the start-up effect settles on: today's key, and either the
      stored progress (taken verbatim) or a freshly zeroed map. */
  function StartUp(tasks: seq<Task>, blob: Option<Snapshot>, today: string): (s: Snapshot)
    ensures s.dateKey == today
  {
    if ForToday(blob, today) then Snapshot(today, blob.value.progress)
    else Snapshot(today, ZeroProgress(tasks))
  }

  /** A same-day snapshot is adopted verbatim: nothing is clamped or filled in. */
  lemma SameDayAdopted(tasks: seq<Task>, blob: Option<Snapshot>, today: string)
    requires ForToday(blob, today)
    ensures StartUp(tasks, blob, today) == blob.value
  {
  }

  /** Saving a snapshot and starting up again on the same day gives back the
      same progress map. */
  lemma SaveThenLoadSameDay(tasks: seq<Task>, p: ProgressMap, today: string)
    ensures StartUp(tasks, Some(Snapshot(today, p)), today) == Snapshot(today, p)
  {
  }

  /** A missing or stale snapshot yields the all-zero map for the catalog,
      whatever the stale snapshot held. */
  lemma StaleIsFresh(tasks: seq<Task>, blob: Option<Snapshot>, today: string)
    requires !ForToday(blob, today)
    ensures StartUp(tasks, blob, today).progress.Keys == Ids(tasks)
    ensures forall id :: id in Ids(tasks) ==> StartUp(tasks, blob, today).progress[id] == 0.0
    ensures StartUp(tasks, blob, today) == StartUp(tasks, None, today)
  {
  }

  /** Start-up establishes the bounds invariant unless it adopts a snapshot
      that breaks it (the source does not clamp what it adopts). */
  lemma StartUpBounded(tasks: seq<Task>, blob: Option<Snapshot>, today: string)
    requires WellFormed(tasks)
    requires ForToday(blob, today) ==> Bounded(tasks, blob.value.progress)
    ensures Bounded(tasks, StartUp(tasks, blob, today).progress)
  {
    if !ForToday(blob, today) {
      ZeroProgressBounded(tasks);
    }
  }
}
