/**
 * The bookkeeping of the widget scheduler, as a state and pure transition
 * functions. Executors, threads and time are abstracted: a submitted task is
 * an opaque handle with a status, each executor is the set of handles it
 * still holds, and the job registry maps a project widget id to the pair of
 * weak references to its execution task and its result task.
 */
module SchedulerModel {
  import opened Optional
  import opened Entities

  /** Number of threads of each executor; capacity only bounds concurrency, which is not modelled. */
  const EXECUTOR_POOL_SIZE: nat := 60
  /** Delay used to start a widget almost immediately. */
  const SMALL_DELAY: int := 2
  /** Lower bound (inclusive) of the random start delay. */
  const START_DELAY_INCLUSIVE: int := 30
  /** Upper bound (exclusive) of the random start delay. */
  const END_DELAY_EXCLUSIVE: int := 120

  /** Persisted state of a widget instance. */
  datatype WidgetState = STOPPED | RUNNING

  /** What the scheduler receives for one widget instance; `widgetState` is a snapshot and may be null. */
  datatype NashornRequest = NashornRequest(projectWidgetId: int, delay: int, widgetState: Option<WidgetState>)

  /** An opaque scheduled-future handle. */
  type Handle = nat

  /** Life of a scheduled future: waiting, completed, or cancelled. */
  datatype Status = Pending | Done | Cancelled

  /**
   * A submitted task: the widget it is for, its delay, its status and, for a
   * result task, the execution future it waits on.
   */
  datatype Task = Task(widget: int, delay: int, status: Status, awaits: Option<Handle>)

  /** A weak reference; `None` once collected (or never set). */
  type WeakRef = Option<Handle>

  /** A registry entry: weak references to the execution future and the result future. */
  datatype JobPair = JobPair(execution: WeakRef, result: WeakRef)

  datatype SchedulerState = SchedulerState(
    jobs: map<int, JobPair>,           // the job registry
    states: map<int, WidgetState>,     // persisted widget states
    tasks: map<Handle, Task>,          // every future handed out so far
    executeQueue: set<Handle>,         // futures held by the execution executor
    resultQueue: set<Handle>,          // futures held by the result executor
    nextHandle: nat,                   // source of fresh handles
    executorsCreated: bool)            // whether initScheduler has created the executors

  /** The registry entry `p` holds a reference to `h`. */
  predicate Holds(p: JobPair, h: Handle) {
    p.execution == Some(h) || p.result == Some(h)
  }

  /** The weak reference, if set, designates a known task of widget `id`. */
  ghost predicate RefersTo(s: SchedulerState, ref: WeakRef, id: int) {
    ref.Some? ==> ref.value in s.tasks && s.tasks[ref.value].widget == id
  }

  /** The bookkeeping invariant. */
  ghost predicate Valid(s: SchedulerState) {
    && (forall h :: h in s.executeQueue ==> h in s.tasks && s.tasks[h].status == Pending)
    && (forall h :: h in s.resultQueue ==> h in s.tasks && s.tasks[h].status == Pending)
    && s.executeQueue !! s.resultQueue
    && (forall h :: h in s.tasks ==> h < s.nextHandle)
    && (forall id :: id in s.jobs ==>
          && RefersTo(s, s.jobs[id].execution, id)
          && RefersTo(s, s.jobs[id].result, id)
          && (s.jobs[id].execution.Some? && s.jobs[id].result.Some? ==>
                s.tasks[s.jobs[id].result.value].awaits == s.jobs[id].execution))
  }

  /** `Future.isDone()`: true once completed or cancelled. */
  predicate IsDone(st: Status) { st != Pending }

  /** `Future.isCancelled()`. */
  predicate IsCancelled(st: Status) { st == Cancelled }

  /** A task after `cancel(true)`: a pending one becomes cancelled, a finished one is left as it is. */
  function AfterCancel(t: Task): (r: Task)
    ensures r.widget == t.widget && r.delay == t.delay && r.awaits == t.awaits
    ensures r.status != Pending
    ensures t.status != Pending ==> r == t
  {
    if t.status == Pending then t.(status := Cancelled) else t
  }

  /**
   * `future.cancel(true)` on an executor with the remove-on-cancel policy:
   * a pending future is cancelled and leaves its executor's queue.
   */
  function CancelFuture(s: SchedulerState, h: Handle): SchedulerState
    requires h in s.tasks
  {
    if s.tasks[h].status == Pending then
      s.(tasks := s.tasks[h := AfterCancel(s.tasks[h])],
         executeQueue := s.executeQueue - {h},
         resultQueue := s.resultQueue - {h})
    else s
  }

  /**
   * The static `cancel(projectWidgetId, weakReference)`: a null or collected
   * reference is ignored; otherwise the future is cancelled unless it is
   * already both done and cancelled.
   */
  function Cancel(s: SchedulerState, ref: WeakRef): (r: SchedulerState)
    ensures r.jobs == s.jobs && r.states == s.states
    ensures r.nextHandle == s.nextHandle && r.executorsCreated == s.executorsCreated
    ensures r.tasks.Keys == s.tasks.Keys
    ensures forall h :: h in s.tasks && ref != Some(h) ==> r.tasks[h] == s.tasks[h]
    ensures ref.Some? && ref.value in s.tasks ==> r.tasks[ref.value] == AfterCancel(s.tasks[ref.value])
    ensures ref.None? || ref.value !in s.tasks || s.tasks[ref.value].status != Pending ==> r == s
    ensures r.executeQueue == s.executeQueue - (if ref.Some? then {ref.value} else {})
            || r.executeQueue == s.executeQueue
    ensures r.resultQueue == s.resultQueue - (if ref.Some? then {ref.value} else {})
            || r.resultQueue == s.resultQueue
    ensures r.executeQueue <= s.executeQueue && r.resultQueue <= s.resultQueue
    ensures Valid(s) ==> Valid(r)
  {
    if ref.Some? && ref.value in s.tasks then
      var st := s.tasks[ref.value].status;
      if !IsDone(st) || !IsCancelled(st) then CancelFuture(s, ref.value) else s
    else s
  }

  /**
   * `cancelWidgetInstance(id)`: cancel both futures of the registry entry, if
   * there is one, then always mark the widget STOPPED. The entry stays in the
   * registry.
   */
  function CancelWidgetInstance(s: SchedulerState, id: int): (r: SchedulerState)
    ensures r.jobs == s.jobs
    ensures r.states == s.states[id := STOPPED]
    ensures r.tasks.Keys == s.tasks.Keys
    ensures r.nextHandle == s.nextHandle && r.executorsCreated == s.executorsCreated
    ensures id !in s.jobs ==> r.tasks == s.tasks && r.executeQueue == s.executeQueue && r.resultQueue == s.resultQueue
    ensures id in s.jobs ==> forall h :: h in s.tasks && Holds(s.jobs[id], h) ==> r.tasks[h] == AfterCancel(s.tasks[h])
    ensures forall h :: h in s.tasks && (id !in s.jobs || !Holds(s.jobs[id], h)) ==> r.tasks[h] == s.tasks[h]
    ensures r.executeQueue <= s.executeQueue && r.resultQueue <= s.resultQueue
    // only the entry's two futures can leave the executors' queues
    ensures forall h :: h in s.executeQueue && h !in r.executeQueue ==> id in s.jobs && Holds(s.jobs[id], h)
    ensures forall h :: h in s.resultQueue && h !in r.resultQueue ==> id in s.jobs && Holds(s.jobs[id], h)
    ensures Valid(s) ==> Valid(r)
  {
    var c := if id in s.jobs then Cancel(Cancel(s, s.jobs[id].execution), s.jobs[id].result) else s;
    c.(states := c.states[id := STOPPED])
  }

  /**
   * The delay rule of `schedule`: a random draw when starting, the small
   * delay on an initialisation, the request's own delay otherwise.
   */
  function SelectDelay(start: bool, init: bool, requestDelay: int, draw: int): (d: int)
    requires start ==> START_DELAY_INCLUSIVE <= draw < END_DELAY_EXCLUSIVE
    ensures start ==> START_DELAY_INCLUSIVE <= d < END_DELAY_EXCLUSIVE
    ensures !start && init ==> d == SMALL_DELAY
    ensures !start && !init ==> d == requestDelay
  {
    if start then draw else if init then SMALL_DELAY else requestDelay
  }

  /** `nashornService.isNashornRequestExecutable` is foreign: it is a parameter of the model. */
  type Eligibility = NashornRequest -> bool

  /** The executable path of `schedule` needs the executors that `initScheduler` creates. */
  predicate CanSchedule(s: SchedulerState, exec: Eligibility, req: Option<NashornRequest>) {
    req.Some? && exec(req.value) ==> s.executorsCreated
  }

  /**
   * `schedule(request, start, init)` with `draw` the value the random
   * generator returns when `start` holds.
   */
  function Schedule(s: SchedulerState, exec: Eligibility, req: Option<NashornRequest>,
                    start: bool, init: bool, draw: int): (r: SchedulerState)
    requires CanSchedule(s, exec, req)
    requires start ==> START_DELAY_INCLUSIVE <= draw < END_DELAY_EXCLUSIVE
    // a null request changes nothing
    ensures req.None? ==> r == s
    // a non-executable request only marks the widget STOPPED
    ensures req.Some? && !exec(req.value) ==>
              r == s.(states := s.states[req.value.projectWidgetId := STOPPED])
    ensures req.Some? && exec(req.value) ==>
              var id, e, f := req.value.projectWidgetId, s.nextHandle, s.nextHandle + 1;
              // STOPPED -> RUNNING only when the request says STOPPED
              && r.states == (if req.value.widgetState == Some(STOPPED) then s.states[id := RUNNING] else s.states)
              // the registry entry is exactly the new pair, every other entry is kept
              && r.jobs.Keys == s.jobs.Keys + {id}
              && r.jobs[id] == JobPair(Some(e), Some(f))
              && (forall k :: k in s.jobs && k != id ==> r.jobs[k] == s.jobs[k])
              // two fresh pending futures at the same delay
              && r.tasks.Keys == s.tasks.Keys + {e, f}
              && r.tasks[e].status == Pending && r.tasks[f].status == Pending
              && r.tasks[e].widget == id && r.tasks[f].widget == id
              && r.tasks[f].awaits == Some(e)
              && r.tasks[e].delay == r.tasks[f].delay == SelectDelay(start, init, req.value.delay, draw)
              && r.executeQueue == s.executeQueue + {e} && r.resultQueue == s.resultQueue + {f}
    ensures Valid(s) && req.Some? && exec(req.value) ==>
              // the two futures are fresh, and no earlier future, in particular
              // not the replaced pair, is cancelled
              && s.nextHandle !in s.tasks && s.nextHandle + 1 !in s.tasks
              && (forall h :: h in s.tasks ==> r.tasks[h] == s.tasks[h])
    ensures Valid(s) ==> Valid(r)
  {
    if req.None? then s
    else
      var q := req.value;
      var id := q.projectWidgetId;
      if !exec(q) then s.(states := s.states[id := STOPPED])
      else
        var states := if q.widgetState == Some(STOPPED) then s.states[id := RUNNING] else s.states;
        var delay := SelectDelay(start, init, q.delay, draw);
        var e := s.nextHandle;
        var f := e + 1;
        var r := s.(states := states,
                    tasks := s.tasks[e := Task(id, delay, Pending, None)][f := Task(id, delay, Pending, Some(e))],
                    executeQueue := s.executeQueue + {e},
                    resultQueue := s.resultQueue + {f},
                    nextHandle := f + 1,
                    jobs := s.jobs[id := JobPair(Some(e), Some(f))]);
        assert Valid(s) ==> Valid(r) by {
          if Valid(s) {
            forall k | k in r.jobs
              ensures RefersTo(r, r.jobs[k].execution, k) && RefersTo(r, r.jobs[k].result, k)
            {
              if k != id {
                assert RefersTo(s, s.jobs[k].execution, k) && RefersTo(s, s.jobs[k].result, k);
              }
            }
          }
        }
        r
  }

  /** `cancelAndSchedule(request)`: cancel the widget's job, then schedule it as an initialisation. */
  function CancelAndSchedule(s: SchedulerState, exec: Eligibility, req: NashornRequest): SchedulerState
    requires CanSchedule(s, exec, Some(req))
  {
    // no random value is drawn when start is false; 0 stands for it
    Schedule(CancelWidgetInstance(s, req.projectWidgetId), exec, Some(req), false, true, 0)
  }

  /** The random draws of a list of requests are all in range when `start` holds. */
  predicate DrawsInRange(start: bool, draws: seq<int>) {
    start ==> forall i :: 0 <= i < |draws| ==> START_DELAY_INCLUSIVE <= draws[i] < END_DELAY_EXCLUSIVE
  }

  /** Executable requests of a list need executors, as for one request. */
  predicate CanScheduleAll(s: SchedulerState, exec: Eligibility, reqs: seq<Option<NashornRequest>>) {
    forall i :: 0 <= i < |reqs| ==> CanSchedule(s, exec, reqs[i])
  }

  /** `scheduleList`: `schedule` applied to every request, in list order. */
  function ScheduleList(s: SchedulerState, exec: Eligibility, reqs: seq<Option<NashornRequest>>,
                        start: bool, init: bool, draws: seq<int>): (r: SchedulerState)
    requires |draws| == |reqs| && DrawsInRange(start, draws)
    requires CanScheduleAll(s, exec, reqs)
    ensures r.executorsCreated == s.executorsCreated
    decreases |reqs|
  {
    if |reqs| == 0 then s
    else
      var n := |reqs| - 1;
      var m := ScheduleList(s, exec, reqs[..n], start, init, draws[..n]);
      Schedule(m, exec, reqs[n], start, init, draws[n])
  }

  /** `cancelProjectScheduling(project)`: `cancelWidgetInstance` on every widget of the project, in order. */
  function CancelProject(s: SchedulerState, widgets: seq<ProjectWidget>): (r: SchedulerState)
    ensures r.executorsCreated == s.executorsCreated
    decreases |widgets|
  {
    if |widgets| == 0 then s
    else
      var n := |widgets| - 1;
      CancelWidgetInstance(CancelProject(s, widgets[..n]), widgets[n].id)
  }

  /**
   * `initScheduler`: both executors are replaced by new ones (the old ones
   * are shut down, their futures abandoned rather than cancelled), the
   * registry is cleared and every widget state is reset to STOPPED.
   */
  function InitScheduler(s: SchedulerState): (r: SchedulerState)
    ensures r.jobs == map[]
    ensures r.executeQueue == {} && r.resultQueue == {}
    ensures r.executorsCreated
    ensures r.states.Keys == s.states.Keys && forall id :: id in r.states ==> r.states[id] == STOPPED
    ensures r.tasks == s.tasks && r.nextHandle == s.nextHandle
    ensures Valid(s) ==> Valid(r)
  {
    s.(jobs := map[], executeQueue := {}, resultQueue := {}, executorsCreated := true,
       states := map id | id in s.states :: STOPPED)
  }

  /**
   * The executor running a due task (not an operation of the scheduler):
   * the future completes and leaves its queue.
   */
  function RunTask(s: SchedulerState, h: Handle): (r: SchedulerState)
    ensures Valid(s) && h in s.executeQueue + s.resultQueue ==> h in r.tasks && r.tasks[h].status == Done
    ensures Valid(s) ==> h !in r.executeQueue && h !in r.resultQueue
    ensures r.jobs == s.jobs && r.states == s.states && r.tasks.Keys == s.tasks.Keys
    ensures forall k :: k in s.tasks && k != h ==> r.tasks[k] == s.tasks[k]
    ensures Valid(s) ==> Valid(r)
  {
    if h in s.tasks && (h in s.executeQueue || h in s.resultQueue) then
      s.(tasks := s.tasks[h := s.tasks[h].(status := Done)],
         executeQueue := s.executeQueue - {h},
         resultQueue := s.resultQueue - {h})
    else s
  }

  /**
   * A future the executor has already run is done and not cancelled, so
   * `cancel` on it passes the `!isDone || !isCancelled` test yet changes
   * nothing: `Future.cancel` has no effect on a completed future.
   */
  lemma CancelAfterRunTask(s: SchedulerState, h: Handle)
    requires Valid(s) && h in s.executeQueue + s.resultQueue
    ensures var r := RunTask(s, h);
            && (!IsDone(r.tasks[h].status) || !IsCancelled(r.tasks[h].status))
            && Cancel(r, Some(h)) == r
  {
  }

  // ---------------------------------------------------------------------
  // Properties relating several operations
  // ---------------------------------------------------------------------

  /** Cancelling a widget twice is the same as cancelling it once. */
  lemma CancelWidgetInstanceIdempotent(s: SchedulerState, id: int)
    ensures CancelWidgetInstance(CancelWidgetInstance(s, id), id) == CancelWidgetInstance(s, id)
  {
    var once := CancelWidgetInstance(s, id);
    var twice := CancelWidgetInstance(once, id);
    assert twice.tasks == once.tasks by {
      forall h | h in once.tasks ensures twice.tasks[h] == once.tasks[h] {
        if id in s.jobs && Holds(s.jobs[id], h) {
          assert once.tasks[h].status != Pending;
        }
      }
    }
  }

  /**
   * `cancelAndSchedule` of an executable request: the registry entry becomes
   * a fresh pair of pending futures at the small delay, and every future the
   * previous entry referenced is no longer pending.
   */
  lemma CancelAndScheduleReplacesJob(s: SchedulerState, exec: Eligibility, req: NashornRequest)
    requires Valid(s) && s.executorsCreated && exec(req)
    ensures var r := CancelAndSchedule(s, exec, req);
            var id := req.projectWidgetId;
            && Valid(r)
            && r.jobs[id] == JobPair(Some(s.nextHandle), Some(s.nextHandle + 1))
            && r.tasks[s.nextHandle].status == Pending && r.tasks[s.nextHandle + 1].status == Pending
            && r.tasks[s.nextHandle].delay == SMALL_DELAY && r.tasks[s.nextHandle + 1].delay == SMALL_DELAY
            && (id in s.jobs ==> forall h :: h in s.tasks && Holds(s.jobs[id], h) ==> r.tasks[h].status != Pending)
            && (forall k :: k in s.jobs && k != id ==> r.jobs[k] == s.jobs[k])
  {
    var id := req.projectWidgetId;
    var c := CancelWidgetInstance(s, id);
    var r := Schedule(c, exec, Some(req), false, true, 0);
    if id in s.jobs {
      forall h | h in s.tasks && Holds(s.jobs[id], h) ensures r.tasks[h].status != Pending {
        assert c.tasks[h] == AfterCancel(s.tasks[h]);
        assert r.tasks[h] == c.tasks[h];
      }
    }
  }

  /**
   * `cancelAndSchedule` writes STOPPED first and `schedule` writes RUNNING
   * only when the request's snapshot says STOPPED: a request whose snapshot
   * says RUNNING ends with a live job for a widget persisted as STOPPED.
   */
  lemma CancelAndScheduleWithRunningSnapshot(s: SchedulerState, exec: Eligibility, req: NashornRequest)
    requires s.executorsCreated && exec(req) && req.widgetState == Some(RUNNING)
    ensures var r := CancelAndSchedule(s, exec, req);
            && r.states[req.projectWidgetId] == STOPPED
            && r.tasks[r.jobs[req.projectWidgetId].execution.value].status == Pending
  {
    var c := CancelWidgetInstance(s, req.projectWidgetId);
    assert c.states[req.projectWidgetId] == STOPPED;
  }

  /**
   * `schedule` overwrites the registry entry without cancelling it: when the
   * widget already had a pending execution future, that future stays pending
   * in its executor while no registry entry refers to it any more.
   */
  lemma ScheduleOrphansPreviousJob(s: SchedulerState, exec: Eligibility, req: NashornRequest,
                                   start: bool, init: bool, draw: int)
    requires Valid(s) && s.executorsCreated && exec(req)
    requires start ==> START_DELAY_INCLUSIVE <= draw < END_DELAY_EXCLUSIVE
    requires req.projectWidgetId in s.jobs
    requires s.jobs[req.projectWidgetId].execution.Some?
    requires s.jobs[req.projectWidgetId].execution.value in s.executeQueue
    ensures var h := s.jobs[req.projectWidgetId].execution.value;
            var r := Schedule(s, exec, Some(req), start, init, draw);
            && h in r.executeQueue && r.tasks[h].status == Pending
            && forall k :: k in r.jobs ==> !Holds(r.jobs[k], h)
  {
    var id := req.projectWidgetId;
    var h := s.jobs[id].execution.value;
    var r := Schedule(s, exec, Some(req), start, init, draw);
    forall k | k in r.jobs ensures !Holds(r.jobs[k], h) {
      if k != id {
        assert r.jobs[k] == s.jobs[k];
        assert RefersTo(s, s.jobs[k].execution, k) && RefersTo(s, s.jobs[k].result, k);
        assert s.tasks[h].widget == id;
      } else {
        assert h < s.nextHandle;
      }
    }
  }

  /** Splitting a list of requests: scheduling `a + b` is scheduling `a`, then `b`. */
  lemma {:induction false} ScheduleListAppend(s: SchedulerState, exec: Eligibility,
                                              a: seq<Option<NashornRequest>>, b: seq<Option<NashornRequest>>,
                                              start: bool, init: bool, da: seq<int>, db: seq<int>)
    requires |da| == |a| && |db| == |b| && DrawsInRange(start, da) && DrawsInRange(start, db)
    requires CanScheduleAll(s, exec, a + b)
    ensures DrawsInRange(start, da + db) && CanScheduleAll(s, exec, a) && CanScheduleAll(s, exec, b)
    ensures ScheduleList(s, exec, a + b, start, init, da + db)
            == ScheduleList(ScheduleList(s, exec, a, start, init, da), exec, b, start, init, db)
    decreases |b|
  {
    assert CanScheduleAll(s, exec, a) by {
      forall i | 0 <= i < |a| ensures CanSchedule(s, exec, a[i]) { assert (a + b)[i] == a[i]; }
    }
    assert CanScheduleAll(s, exec, b) by {
      forall i | 0 <= i < |b| ensures CanSchedule(s, exec, b[i]) { assert (a + b)[|a| + i] == b[i]; }
    }
    if |b| == 0 {
      assert a + b == a && da + db == da;
    } else {
      var n := |b| - 1;
      assert (a + b)[..|a| + n] == a + b[..n];
      assert (da + db)[..|a| + n] == da + db[..n];
      assert CanScheduleAll(s, exec, a + b[..n]) by {
        forall i | 0 <= i < |a| + n ensures CanSchedule(s, exec, (a + b[..n])[i]) {
          assert (a + b[..n])[i] == (a + b)[i];
        }
      }
      ScheduleListAppend(s, exec, a, b[..n], start, init, da, db[..n]);
    }
  }

  /** The widget ids that a list of requests schedules: those of the non-null executable requests. */
  function ScheduledIds(exec: Eligibility, reqs: seq<Option<NashornRequest>>): set<int>
    decreases |reqs|
  {
    if |reqs| == 0 then {}
    else
      var n := |reqs| - 1;
      ScheduledIds(exec, reqs[..n])
        + (if reqs[n].Some? && exec(reqs[n].value) then {reqs[n].value.projectWidgetId} else {})
  }

  /** The widget ids that a list of requests mentions. */
  function RequestedIds(reqs: seq<Option<NashornRequest>>): set<int>
    decreases |reqs|
  {
    if |reqs| == 0 then {}
    else
      var n := |reqs| - 1;
      RequestedIds(reqs[..n]) + (if reqs[n].Some? then {reqs[n].value.projectWidgetId} else {})
  }

  /**
   * `scheduleList` keeps the bookkeeping invariant; afterwards the registry
   * holds an entry for exactly the old entries and the scheduled ids, entries
   * of other widgets are unchanged, and so are the states of widgets the list
   * does not mention.
   */
  lemma {:induction false} ScheduleListEffect(s: SchedulerState, exec: Eligibility,
                                              reqs: seq<Option<NashornRequest>>,
                                              start: bool, init: bool, draws: seq<int>)
    requires |draws| == |reqs| && DrawsInRange(start, draws) && CanScheduleAll(s, exec, reqs)
    requires Valid(s)
    ensures var r := ScheduleList(s, exec, reqs, start, init, draws);
            && Valid(r)
            && r.jobs.Keys == s.jobs.Keys + ScheduledIds(exec, reqs)
            && (forall k :: k in s.jobs && k !in ScheduledIds(exec, reqs) ==> r.jobs[k] == s.jobs[k])
            && (forall k :: k !in RequestedIds(reqs) ==> (k in r.states <==> k in s.states))
            && (forall k :: k !in RequestedIds(reqs) && k in s.states ==> r.states[k] == s.states[k])
    decreases |reqs|
  {
    if |reqs| > 0 {
      var n := |reqs| - 1;
      assert DrawsInRange(start, draws[..n]);
      assert CanScheduleAll(s, exec, reqs[..n]);
      ScheduleListEffect(s, exec, reqs[..n], start, init, draws[..n]);
    }
  }

  /** Every widget id of the project. */
  function WidgetIds(widgets: seq<ProjectWidget>): set<int>
    decreases |widgets|
  {
    if |widgets| == 0 then {} else WidgetIds(widgets[..|widgets| - 1]) + {widgets[|widgets| - 1].id}
  }

  /**
   * `cancelProjectScheduling` keeps the invariant, leaves the registry as it
   * was (no entry is removed), marks every widget of the project STOPPED,
   * leaves the state of other widgets alone, and leaves no future referenced
   * by a project widget's entry pending.
   */
  lemma {:induction false} CancelProjectEffect(s: SchedulerState, widgets: seq<ProjectWidget>)
    requires Valid(s)
    ensures var r := CancelProject(s, widgets);
            && Valid(r)
            && r.jobs == s.jobs
            && r.tasks.Keys == s.tasks.Keys
            && (forall k :: k in WidgetIds(widgets) ==> k in r.states && r.states[k] == STOPPED)
            && (forall k :: k !in WidgetIds(widgets) ==> (k in r.states <==> k in s.states))
            && (forall k :: k !in WidgetIds(widgets) && k in s.states ==> r.states[k] == s.states[k])
            && (forall k, h :: k in WidgetIds(widgets) && k in r.jobs && h in r.tasks && Holds(r.jobs[k], h)
                  ==> r.tasks[h].status != Pending)
            && (forall h :: h in s.tasks && s.tasks[h].status != Pending ==> r.tasks[h].status != Pending)
    decreases |widgets|
  {
    if |widgets| > 0 {
      var n := |widgets| - 1;
      CancelProjectEffect(s, widgets[..n]);
    }
  }
}
