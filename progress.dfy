/** The pure rules of the daily progress store: clamping, the completion rule,
    the zeroed map, and the effect of each user action on the progress map. */
module Progress {
  import opened Wrappers
  import opened Catalog

  /** Task id -> accumulated value for the current day. */
  type ProgressMap = map<string, real>

  /** `Math.max(0, Math.min(x, cap))`, with None standing for Infinity: the
      point of [0, cap] closest to `x`. */
  function Clamp(x: real, cap: Option<real>): (r: real)
    ensures 0.0 <= r
    ensures cap.Some? && 0.0 <= cap.value ==> r <= cap.value
    ensures 0.0 <= x && (cap.None? || x <= cap.value) ==> r == x
    ensures x <= 0.0 ==> r == 0.0
    ensures cap.Some? && 0.0 <= cap.value <= x ==> r == cap.value
  {
    var lowered := match cap case None => x case Some(c) => if x < c then x else c;
    if lowered < 0.0 then 0.0 else lowered
  }

  /** `progress[id] ?? 0`: a missing entry reads as zero. */
  function ValueOf(p: ProgressMap, id: string): real
  {
    if id in p then p[id] else 0.0
  }

  /** A task is done once its value has reached its target; the same test
      disables the task's quick-step buttons (the decrement stays enabled). */
  predicate IsDone(t: Task, p: ProgressMap)
  {
    ValueOf(p, t.id) >= t.target
  }

  /** `tasks.every(...)`: every task of the catalog is done. */
  predicate AllDone(tasks: seq<Task>, p: ProgressMap)
  {
    tasks == [] || (IsDone(tasks[0], p) && AllDone(tasks[1..], p))
  }

  /** Every catalog task has an entry, and it lies in [0, target]. */
  predicate Bounded(tasks: seq<Task>, p: ProgressMap)
  {
    forall t :: t in tasks ==> t.id in p && 0.0 <= p[t.id] <= t.target
  }

  /** The map built by `forEach(t => reset[t.id] = 0)`: one zero per catalog id
      and nothing else. */
  function ZeroProgress(tasks: seq<Task>): (r: ProgressMap)
    ensures r.Keys == Ids(tasks)
    ensures forall id :: id in r ==> r[id] == 0.0
  {
    if tasks == [] then map[]
    else
      var n := |tasks| - 1;
      assert Ids(tasks) == Ids(tasks[..n]) + {tasks[n].id} by {
        assert tasks == tasks[..n] + [tasks[n]];
      }
      ZeroProgress(tasks[..n])[tasks[n].id := 0.0]
  }

  /** `increment(id, amount)`: the entry for `id` becomes its old value plus
      `amount`, clamped to [0, cap]. The source reads `prev[id]`, which is
      undefined (and the sum NaN) unless the entry exists. */
  function AfterIncrement(tasks: seq<Task>, p: ProgressMap, id: string, amount: real): (r: ProgressMap)
    requires id in p
    ensures r.Keys == p.Keys
    ensures forall k :: k in p && k != id ==> r[k] == p[k]
    ensures 0.0 <= r[id]
  {
    p[id := Clamp(p[id] + amount, CapOf(tasks, id))]
  }

  /** `setDirect(id, val)` after `Number(val)`: None (NaN) changes nothing;
      a number replaces the entry, clamped to [0, cap]. */
  function AfterSetDirect(tasks: seq<Task>, p: ProgressMap, id: string, parsed: Option<real>): (r: ProgressMap)
    ensures parsed.None? ==> r == p
    ensures parsed.Some? ==> r.Keys == p.Keys + {id} && 0.0 <= r[id]
    ensures forall k :: k in p && k != id ==> k in r && r[k] == p[k]
  {
    match parsed
    case None => p
    case Some(n) => p[id := Clamp(n, CapOf(tasks, id))]
  }

  // ---------------------------------------------------------------------------
  // Clamped updates

  /** Incrementing a catalog task gives 0 when the sum is not positive, the
      target when the sum reaches it, and the sum otherwise. */
  lemma IncrementClamps(tasks: seq<Task>, p: ProgressMap, t: Task, amount: real)
    requires WellFormed(tasks) && t in tasks && t.id in p
    ensures var v := AfterIncrement(tasks, p, t.id, amount)[t.id];
      && 0.0 <= v <= t.target
      && (p[t.id] + amount <= 0.0 ==> v == 0.0)
      && (p[t.id] + amount >= t.target ==> v == t.target)
      && (0.0 <= p[t.id] + amount <= t.target ==> v == p[t.id] + amount)
  {
    CapOfCatalogTask(tasks, t);
  }

  /** Setting a catalog task directly gives the number clamped to
      [0, target], whatever the previous value was. */
  lemma SetDirectClamps(tasks: seq<Task>, p: ProgressMap, t: Task, n: real)
    requires WellFormed(tasks) && t in tasks
    ensures var v := AfterSetDirect(tasks, p, t.id, Some(n))[t.id];
      && 0.0 <= v <= t.target
      && (n <= 0.0 ==> v == 0.0)
      && (n >= t.target ==> v == t.target)
      && (0.0 <= n <= t.target ==> v == n)
  {
    CapOfCatalogTask(tasks, t);
  }

  /** Setting a value does not depend on the previous entry, so setting it
      twice is the same as setting it once. */
  /** For an id outside the catalog the cap is Infinity, so only the lower
      bound applies: a negative number becomes 0, any other is kept. */
  lemma SetDirectUnknown(tasks: seq<Task>, p: ProgressMap, id: string, n: real)
    requires id !in Ids(tasks)
    ensures AfterSetDirect(tasks, p, id, Some(n))[id] == if n < 0.0 then 0.0 else n
  {
  }

  lemma SetDirectIdempotent(tasks: seq<Task>, p: ProgressMap, id: string, parsed: Option<real>)
    ensures AfterSetDirect(tasks, AfterSetDirect(tasks, p, id, parsed), id, parsed)
         == AfterSetDirect(tasks, p, id, parsed)
  {
  }

  lemma SetDirectForgetsPrevious(tasks: seq<Task>, p: ProgressMap, q: ProgressMap, id: string, n: real)
    ensures AfterSetDirect(tasks, p, id, Some(n))[id] == AfterSetDirect(tasks, q, id, Some(n))[id]
  {
  }

  // ---------------------------------------------------------------------------
  // The bounds invariant

  lemma ZeroProgressBounded(tasks: seq<Task>)
    requires WellFormed(tasks)
    ensures Bounded(tasks, ZeroProgress(tasks))
  {
    var z := ZeroProgress(tasks);
    forall t | t in tasks ensures t.id in z && 0.0 <= z[t.id] <= t.target {
      assert t.id in Ids(tasks);
    }
  }

  lemma IncrementKeepsBounded(tasks: seq<Task>, p: ProgressMap, id: string, amount: real)
    requires WellFormed(tasks) && Bounded(tasks, p) && id in p
    ensures Bounded(tasks, AfterIncrement(tasks, p, id, amount))
  {
    var r := AfterIncrement(tasks, p, id, amount);
    forall t | t in tasks ensures t.id in r && 0.0 <= r[t.id] <= t.target {
      if t.id == id {
        IncrementClamps(tasks, p, t, amount);
      }
    }
  }

  lemma SetDirectKeepsBounded(tasks: seq<Task>, p: ProgressMap, id: string, parsed: Option<real>)
    requires WellFormed(tasks) && Bounded(tasks, p)
    ensures Bounded(tasks, AfterSetDirect(tasks, p, id, parsed))
  {
    var r := AfterSetDirect(tasks, p, id, parsed);
    forall t | t in tasks ensures t.id in r && 0.0 <= r[t.id] <= t.target {
      if t.id == id && parsed.Some? {
        SetDirectClamps(tasks, p, t, parsed.value);
      }
    }
  }

  /** A user action as the view issues it: a quick step or the decrement for a
      catalog task, a typed value for any id, or the reset button. */
  datatype Action = Increment(id: string, amount: real) | SetDirect(id: string, parsed: Option<real>) | Reset

  predicate Issuable(tasks: seq<Task>, actions: seq<Action>)
  {
    forall i :: 0 <= i < |actions| && actions[i].Increment? ==> actions[i].id in Ids(tasks)
  }

  /** The progress map after one action; the bounds invariant survives it. */
  function Step(tasks: seq<Task>, p: ProgressMap, a: Action): (r: ProgressMap)
    requires WellFormed(tasks) && Bounded(tasks, p)
    requires a.Increment? ==> a.id in Ids(tasks)
    ensures Bounded(tasks, r)
  {
    match a
    case Increment(id, amount) =>
      IncrementKeepsBounded(tasks, p, id, amount);
      AfterIncrement(tasks, p, id, amount)
    case SetDirect(id, parsed) =>
      SetDirectKeepsBounded(tasks, p, id, parsed);
      AfterSetDirect(tasks, p, id, parsed)
    case Reset =>
      ZeroProgressBounded(tasks);
      ZeroProgress(tasks)
  }

  /** The progress map after performing `actions` in order, starting from `p`:
      however many actions the user takes, every catalog value stays within
      [0, target]. */
  function Run(tasks: seq<Task>, p: ProgressMap, actions: seq<Action>): (r: ProgressMap)
    requires WellFormed(tasks) && Bounded(tasks, p) && Issuable(tasks, actions)
    ensures Bounded(tasks, r)
    decreases |actions|
  {
    if actions == [] then p
    else
      assert Issuable(tasks, actions[1..]) by {
        forall i | 0 <= i < |actions[1..]| && actions[1..][i].Increment?
          ensures actions[1..][i].id in Ids(tasks)
        {
          assert actions[1..][i] == actions[i + 1];
        }
      }
      Run(tasks, Step(tasks, p, actions[0]), actions[1..])
  }

  // ---------------------------------------------------------------------------
  // Completion

  /** The completion rule, stated over the whole catalog at once. */
  lemma {:induction false} AllDoneIff(tasks: seq<Task>, p: ProgressMap)
    ensures AllDone(tasks, p) <==> forall i :: 0 <= i < |tasks| ==> ValueOf(p, tasks[i].id) >= tasks[i].target
  {
    if tasks != [] {
      AllDoneIff(tasks[1..], p);
      assert forall i :: 1 <= i < |tasks| ==> tasks[1..][i - 1] == tasks[i];
    }
  }

  /** One task below its target is enough to make the catalog incomplete. */
  lemma OneShortIsNotDone(tasks: seq<Task>, p: ProgressMap, t: Task)
    requires t in tasks && ValueOf(p, t.id) < t.target
    ensures !AllDone(tasks, p)
  {
    AllDoneIff(tasks, p);
  }

  /** Under the bounds invariant a task is done exactly when its value is
      pinned at its target, so its quick steps are disabled only there. */
  lemma DoneMeansAtTarget(tasks: seq<Task>, p: ProgressMap, t: Task)
    requires Bounded(tasks, p) && t in tasks
    ensures IsDone(t, p) <==> p[t.id] == t.target
  {
  }

  /** Under the bounds invariant the catalog is complete exactly when every
      task sits at its target. */
  lemma AllDoneMeansAllAtTarget(tasks: seq<Task>, p: ProgressMap)
    requires Bounded(tasks, p)
    ensures AllDone(tasks, p) <==> forall t :: t in tasks ==> p[t.id] == t.target
  {
    AllDoneIff(tasks, p);
    if forall t :: t in tasks ==> p[t.id] == t.target {
      assert forall i :: 0 <= i < |tasks| ==> ValueOf(p, tasks[i].id) >= tasks[i].target by {
        forall i | 0 <= i < |tasks| ensures ValueOf(p, tasks[i].id) >= tasks[i].target {
          assert tasks[i] in tasks;
        }
      }
    }
  }

  /** A reset leaves a non-empty catalog incomplete. */
  lemma ResetIsNotDone(tasks: seq<Task>)
    requires WellFormed(tasks) && tasks != []
    ensures !AllDone(tasks, ZeroProgress(tasks))
  {
    assert tasks[0] in tasks;
    assert tasks[0].id in Ids(tasks);
    OneShortIsNotDone(tasks, ZeroProgress(tasks), tasks[0]);
  }
}
