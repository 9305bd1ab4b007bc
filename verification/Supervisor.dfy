/** Ownership of pipeline tasks: at most one task of a pipeline is ever unfinished. */
module Supervisor {
  import opened Core
  import opened Checkpoint

  type TaskId = nat

  /** A spawned task. It ends by itself, or because it is cancelled, or by being aborted. */
  datatype Task = Task(pipeline: PipelineId, cancelled: bool, finished: bool)

  datatype SupervisorError = AlreadyRunning(pipeline: PipelineId) | NotRunning(pipeline: PipelineId) | StopTimeout(pipeline: PipelineId)
    | TaskFailed(message: string) | TaskPanicked

  /** The tasks spawned so far, and the one registered for each pipeline. */
  datatype World = World(tasks: map<TaskId, Task>, pipelines: map<PipelineId, TaskId>, nextTask: TaskId)

  function Register(w: World, pipeline: PipelineId): World {
    World(w.tasks[w.nextTask := Task(pipeline, false, false)], w.pipelines[pipeline := w.nextTask], w.nextTask + 1)
  }

  function Ended(w: World, id: TaskId, cancelled: bool): World
    requires id in w.tasks
  {
    w.(tasks := w.tasks[id := w.tasks[id].(finished := true, cancelled := w.tasks[id].cancelled || cancelled)])
  }

  /** Tasks are registered under their own pipeline, and a task that is not registered has ended. */
  ghost predicate WorldOk(w: World) {
    && (forall p | p in w.pipelines :: w.pipelines[p] in w.tasks && w.tasks[w.pipelines[p]].pipeline == p)
    && (forall i | i in w.tasks :: i < w.nextTask &&
          (w.tasks[i].finished || (w.tasks[i].pipeline in w.pipelines && w.pipelines[w.tasks[i].pipeline] == i)))
  }

  class PipelineSupervisor {
    var tasks: map<TaskId, Task>
    var pipelines: map<PipelineId, TaskId>
    var nextTask: TaskId

    function State(): World
      reads this
    {
      World(tasks, pipelines, nextTask)
    }

    ghost predicate Valid()
      reads this
    {
      WorldOk(State())
    }

    constructor ()
      ensures Valid() && tasks == map[] && pipelines == map[]
    {
      tasks, pipelines, nextTask := map[], map[], 0;
    }

    /** A finished predecessor is reaped first; an unfinished one refuses the start. */
    method Start(pipeline: PipelineId) returns (r: Result<TaskId, SupervisorError>)
      requires Valid()
      modifies this
      ensures Valid()
      ensures pipeline in old(pipelines) && !old(tasks)[old(pipelines)[pipeline]].finished ==>
        r == Err(AlreadyRunning(pipeline)) && State() == old(State())
      ensures pipeline !in old(pipelines) || old(tasks)[old(pipelines)[pipeline]].finished ==>
        r == Ok(old(nextTask)) && State() == Register(old(State()), pipeline)
      ensures r.Ok? ==>
        && r.value !in old(tasks) && tasks == old(tasks)[r.value := Task(pipeline, false, false)]
        && pipelines == old(pipelines)[pipeline := r.value]
    {
      if pipeline in pipelines {
        if !tasks[pipelines[pipeline]].finished { return Err(AlreadyRunning(pipeline)); }
        pipelines := pipelines - {pipeline};
      }
      tasks := tasks[nextTask := Task(pipeline, false, false)];
      pipelines := pipelines[pipeline := nextTask];
      nextTask := nextTask + 1;
      assert State() == Register(old(State()), pipeline);
      return Ok(nextTask - 1);
    }

    /** Cancels the task and waits. `joined` is what the task comes to if it ends within the timeout, which is
        then returned; otherwise it is aborted and waited for. Either way it has ended on return. */
    method StopWithTimeout(pipeline: PipelineId, joined: Option<Result<(), SupervisorError>>) returns (r: Result<(), SupervisorError>)
      requires Valid()
      modifies this
      ensures Valid() && pipeline !in pipelines && nextTask == old(nextTask)
      ensures pipeline !in old(pipelines) ==> r == Err(NotRunning(pipeline)) && State() == old(State())
      ensures pipeline in old(pipelines) ==>
        && r == (if joined.Some? then joined.value else Err(StopTimeout(pipeline)))
        && State() == Ended(old(State()), old(pipelines)[pipeline], true).(pipelines := old(pipelines) - {pipeline})
        && tasks == old(tasks)[old(pipelines)[pipeline] := Task(pipeline, true, true)]
    {
      if pipeline !in pipelines { return Err(NotRunning(pipeline)); }
      var id := pipelines[pipeline];
      pipelines := pipelines - {pipeline};
      tasks := tasks[id := tasks[id].(cancelled := true)];
      tasks := tasks[id := tasks[id].(finished := true)];
      return if joined.Some? then joined.value else Err(StopTimeout(pipeline));
    }

    /** Takes out every task that has ended, and no other. */
    method ReapFinished() returns (reaped: set<PipelineId>)
      requires Valid()
      modifies this`pipelines
      ensures Valid()
      ensures reaped == set p | p in old(pipelines) && tasks[old(pipelines)[p]].finished
      ensures pipelines == old(pipelines) - reaped
    {
      var ids := pipelines.Keys;
      reaped := {};
      while ids != {}
        invariant ids <= pipelines.Keys && pipelines == old(pipelines) - reaped
        invariant forall p | p in old(pipelines) :: p in ids || p in reaped || !tasks[old(pipelines)[p]].finished
        invariant forall p | p in reaped :: p in old(pipelines) && p !in ids && tasks[old(pipelines)[p]].finished
        decreases |ids|
      {
        var p :| p in ids;
        ids := ids - {p};
        if tasks[pipelines[p]].finished {
          reaped := reaped + {p};
          pipelines := pipelines - {p};
        }
      }
    }
  }

  // ---- Runs -----------------------------------------------------------------------------------

  /** Operations of the supervisor, serialised by its lifecycle lock, and tasks ending by themselves. */
  datatype Event = Starts(pipeline: PipelineId) | Stops(pipeline: PipelineId) | Reaps | Finishes(id: TaskId)

  function Finished(w: World): set<PipelineId>
    requires WorldOk(w)
  {
    set p | p in w.pipelines && w.tasks[w.pipelines[p]].finished
  }

  function Happen(w: World, e: Event): World
    requires WorldOk(w)
  {
    match e
    case Starts(p) => if p in w.pipelines && !w.tasks[w.pipelines[p]].finished then w else Register(w, p)
    case Stops(p) => if p !in w.pipelines then w else Ended(w, w.pipelines[p], true).(pipelines := w.pipelines - {p})
    case Reaps => w.(pipelines := w.pipelines - Finished(w))
    case Finishes(id) => if id in w.tasks then Ended(w, id, false) else w
  }

  lemma EventKeeps(w: World, e: Event)
    requires WorldOk(w)
    ensures WorldOk(Happen(w, e))
  {
  }

  function HappenAll(w: World, events: seq<Event>): (r: World)
    requires WorldOk(w)
    ensures WorldOk(r)
    decreases |events|
  {
    if events == [] then w
    else
      EventKeeps(w, events[0]);
      HappenAll(Happen(w, events[0]), events[1..])
  }

  ghost predicate OnePerPipeline(w: World) {
    forall i, j | i in w.tasks && j in w.tasks && !w.tasks[i].finished && !w.tasks[j].finished && w.tasks[i].pipeline == w.tasks[j].pipeline :: i == j
  }

  /** Tasks stay with their pipeline, and one that has finished does not start again. */
  ghost predicate TasksStay(a: World, b: World) {
    forall i | i in a.tasks :: i in b.tasks && b.tasks[i].pipeline == a.tasks[i].pipeline && (a.tasks[i].finished ==> b.tasks[i].finished)
  }

  lemma EventStays(w: World, e: Event)
    requires WorldOk(w)
    ensures TasksStay(w, Happen(w, e)) && OnePerPipeline(w)
  {
  }

  /** In every run, two unfinished tasks of one pipeline are the same task, and once a task has finished it
      stays so. */
  lemma {:induction false} OneUnfinishedTask(w: World, events: seq<Event>)
    requires WorldOk(w)
    ensures OnePerPipeline(HappenAll(w, events)) && TasksStay(w, HappenAll(w, events))
    decreases |events|
  {
    hide WorldOk, Happen, OnePerPipeline;
    if events == [] {
      EventStays(w, Reaps);
    } else {
      EventKeeps(w, events[0]);
      EventStays(w, events[0]);
      OneUnfinishedTask(Happen(w, events[0]), events[1..]);
    }
  }

  /** When a stop returns, nothing of the pipeline is running. */
  lemma StopLeavesNothingRunning(w: World, events: seq<Event>, pipeline: PipelineId)
    requires WorldOk(w)
    ensures var r := Happen(HappenAll(w, events), Stops(pipeline));
      forall i | i in r.tasks && r.tasks[i].pipeline == pipeline :: r.tasks[i].finished
  {
    hide HappenAll;
  }

  /** After a start, at any point of any run, the pipeline has a registered task that runs. */
  lemma StartLeavesOneRunning(w: World, events: seq<Event>, pipeline: PipelineId)
    requires WorldOk(w)
    ensures var r := Happen(HappenAll(w, events), Starts(pipeline));
      && pipeline in r.pipelines && r.pipelines[pipeline] in r.tasks
      && r.tasks[r.pipelines[pipeline]].pipeline == pipeline && !r.tasks[r.pipelines[pipeline]].finished
  {
    hide HappenAll;
  }
}
