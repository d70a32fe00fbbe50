/**
 * `NashornWidgetScheduler` as an object whose fields are updated in place.
 * Every method is tied to the transition function of `SchedulerModel` that
 * specifies it, so the properties proved there hold of the object.
 */
module WidgetScheduler {
  import opened Optional
  import opened Entities
  import opened SchedulerModel

  class NashornWidgetScheduler {
    /** The eligibility check of the Nashorn service, injected at construction. */
    const isExecutable: Eligibility

    /** The job registry: project widget id to weak references of its two futures. */
    var jobs: map<int, JobPair>
    /** Widget states as persisted by the project widget service. */
    var states: map<int, WidgetState>
    /** Every future handed out so far, with its status. */
    var tasks: map<Handle, Task>
    /** Futures held by the execution executor. */
    var executeQueue: set<Handle>
    /** Futures held by the result executor. */
    var resultQueue: set<Handle>
    /** Next fresh future handle. */
    var nextHandle: nat
    /** Whether the two executors exist (they are null until `InitScheduler`). */
    var executorsCreated: bool

    /** The abstract value of the object. */
    function State(): SchedulerState
      reads this
    {
      SchedulerState(jobs, states, tasks, executeQueue, resultQueue, nextHandle, executorsCreated)
    }

    ghost predicate Valid()
      reads this
    {
      SchedulerModel.Valid(State())
    }

    /** The injected services; the executors are not created yet and the registry is empty. */
    constructor (isExecutable: Eligibility, persisted: map<int, WidgetState>)
      ensures Valid()
      ensures this.isExecutable == isExecutable
      ensures State() == SchedulerState(map[], persisted, map[], {}, {}, 0, false)
    {
      this.isExecutable := isExecutable;
      jobs, states, tasks := map[], persisted, map[];
      executeQueue, resultQueue := {}, {};
      nextHandle, executorsCreated := 0, false;
    }

    /** The static `cancel` helper: cancel the future a weak reference designates. */
    method CancelReference(ref: WeakRef)
      requires Valid()
      modifies this
      ensures Valid()
      ensures State() == Cancel(old(State()), ref)
    {
      if ref.Some? && ref.value in tasks {
        var h := ref.value;
        var st := tasks[h].status;
        if !IsDone(st) || !IsCancelled(st) {
          if st == Pending {
            tasks := tasks[h := AfterCancel(tasks[h])];
            executeQueue := executeQueue - {h};
            resultQueue := resultQueue - {h};
          }
        }
      }
    }

    /** `initScheduler`: new executors, empty registry, every widget state reset to STOPPED. */
    method InitScheduler()
      requires Valid()
      modifies this
      ensures Valid()
      ensures State() == SchedulerModel.InitScheduler(old(State()))
      ensures jobs == map[] && forall id :: id in states ==> states[id] == STOPPED
    {
      executeQueue := {};
      resultQueue := {};
      executorsCreated := true;
      jobs := map[];
      states := map id | id in states :: STOPPED;
    }

    /**
     * `schedule(request, start, init)`. The random delay drawn when `start`
     * holds is returned as `draw`; on the paths that draw nothing it is an
     * arbitrary in-range value when `start` holds and 0 otherwise, and the
     * specification does not look at it there.
     */
    method Schedule(req: Option<NashornRequest>, start: bool, init: bool) returns (ghost draw: int)
      requires Valid() && CanSchedule(State(), isExecutable, req)
      modifies this
      ensures Valid()
      ensures start ==> START_DELAY_INCLUSIVE <= draw < END_DELAY_EXCLUSIVE
      ensures !start ==> draw == 0
      ensures State() == SchedulerModel.Schedule(old(State()), isExecutable, req, start, init, draw)
    {
      draw := if start then START_DELAY_INCLUSIVE else 0;
      if req.None? {
        return;
      }
      ghost var s0 := State();
      var q := req.value;
      var id := q.projectWidgetId;
      if !isExecutable(q) {
        states := states[id := STOPPED];
        return;
      }
      if q.widgetState == Some(STOPPED) {
        states := states[id := RUNNING];
      }
      var delay := q.delay;
      if start {
        var r :| START_DELAY_INCLUSIVE <= r < END_DELAY_EXCLUSIVE;
        delay := r;
        draw := r;
      } else if init {
        delay := SMALL_DELAY;
      }
      assert delay == SelectDelay(start, init, q.delay, draw);
      var future := nextHandle;
      tasks := tasks[future := Task(id, delay, Pending, None)];
      executeQueue := executeQueue + {future};
      var futureResult := future + 1;
      tasks := tasks[futureResult := Task(id, delay, Pending, Some(future))];
      resultQueue := resultQueue + {futureResult};
      nextHandle := futureResult + 1;
      jobs := jobs[id := JobPair(Some(future), Some(futureResult))];
      assert State() == SchedulerModel.Schedule(s0, isExecutable, req, start, init, draw);
    }

    /** `cancelAndSchedule(request)`: cancel the widget's job, then schedule it as an initialisation. */
    method CancelAndSchedule(req: NashornRequest)
      requires Valid() && CanSchedule(State(), isExecutable, Some(req))
      modifies this
      ensures Valid()
      ensures State() == SchedulerModel.CancelAndSchedule(old(State()), isExecutable, req)
    {
      CancelWidgetInstance(req.projectWidgetId);
      var _ := Schedule(Some(req), false, true);
    }

    /** `scheduleList`: schedule every request in list order; `draws` are the random delays drawn. */
    method ScheduleList(reqs: seq<Option<NashornRequest>>, start: bool, init: bool) returns (ghost draws: seq<int>)
      requires Valid() && CanScheduleAll(State(), isExecutable, reqs)
      modifies this
      ensures Valid()
      ensures |draws| == |reqs| && DrawsInRange(start, draws)
      ensures State() == SchedulerModel.ScheduleList(old(State()), isExecutable, reqs, start, init, draws)
    {
      draws := [];
      var i := 0;
      while i < |reqs|
        invariant 0 <= i <= |reqs|
        invariant Valid()
        invariant executorsCreated == old(executorsCreated)
        invariant |draws| == i && DrawsInRange(start, draws)
        invariant State() == SchedulerModel.ScheduleList(old(State()), isExecutable, reqs[..i], start, init, draws)
      {
        assert reqs[..i + 1][..i] == reqs[..i];
        var d := Schedule(reqs[i], start, init);
        draws := draws + [d];
        assert draws[..i] == draws[..|draws| - 1];
        i := i + 1;
      }
      assert reqs[..i] == reqs;
    }

    /** `cancelProjectScheduling(project)`: cancel every widget instance of the project. */
    method CancelProjectScheduling(project: Project)
      requires Valid()
      modifies this
      ensures Valid()
      ensures State() == CancelProject(old(State()), project.widgets)
    {
      var i := 0;
      while i < |project.widgets|
        invariant 0 <= i <= |project.widgets|
        invariant Valid()
        invariant State() == CancelProject(old(State()), project.widgets[..i])
      {
        assert project.widgets[..i + 1][..i] == project.widgets[..i];
        CancelWidgetInstance(project.widgets[i].id);
        i := i + 1;
      }
      assert project.widgets[..i] == project.widgets;
    }

    /** `cancelWidgetInstance(id)`: cancel both futures of its entry, if any; always persist STOPPED. */
    method CancelWidgetInstance(id: int)
      requires Valid()
      modifies this
      ensures Valid()
      ensures State() == SchedulerModel.CancelWidgetInstance(old(State()), id)
    {
      if id in jobs {
        var pair := jobs[id];
        CancelReference(pair.execution);
        CancelReference(pair.result);
      }
      states := states[id := STOPPED];
    }
  }
}
