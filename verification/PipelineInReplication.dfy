/** The replication loop of one job, as actions of the replication machine. */
module PipelineInReplication {
  import opened Core
  import opened Transactions
  import opened Checkpoint
  import opened Batch
  import opened Pipeline
  import R = Replication

  // ---- A turn of the loop, as actions ---------------------------------------------------------

  function ApplyActions(i: nat, outcome: Outcome): seq<R.Action> {
    match outcome
    case Done => [R.CommitBatch(i), R.AcknowledgeBatch(i)]
    case ApplyFailed => [R.Stop(i)]
    case AckFailed => [R.CommitBatch(i), R.Stop(i)]
    case CancelledBeforeCommit => [R.Stop(i)]
    case CancelledAfterCommit => [R.CommitBatch(i), R.Stop(i)]
  }

  /** What job `i` does in one turn; `TimerFires` stands for any flush of the pending batch. */
  function TurnActions(limits: BatchLimits, i: nat, l: Loop, turn: Turn): seq<R.Action> {
    match turn.wake
    case Cancelled => [R.Stop(i)]
    case SourceFailed => [R.Stop(i)]
    case TimerDue => if l.pending == [] then [] else [R.TimerFires(i)] + ApplyActions(i, turn.outcome)
    case StreamEnded =>
      if l.pending == [] then [R.Stop(i)]
      else [R.TimerFires(i)] + ApplyActions(i, turn.outcome) + (if turn.outcome == Done then [R.Stop(i)] else [])
    case Delivered(t) =>
      if ValidateOrder(l.pending, t).Some? then [R.Stop(i)]
      else [R.Deliver(i)] + (if MustFlush(limits, l.pending, t) then ApplyActions(i, turn.outcome) else [])
  }

  function LoopActions(limits: BatchLimits, i: nat, l: Loop, turns: seq<Turn>): seq<R.Action>
    decreases |turns|
  {
    if turns == [] || l.exit != Running then []
    else TurnActions(limits, i, l, turns[0]) + LoopActions(limits, i, TakeTurn(limits, l, turns[0]), turns[1..])
  }

  // ---- What one job does in a run of the machine ----------------------------------------------

  /** The actions of job `i` that touch its batches. */
  predicate Own(i: nat, a: R.Action) {
    a == R.Deliver(i) || a == R.TimerFires(i) || a == R.CommitBatch(i) || a == R.AcknowledgeBatch(i) || a == R.Stop(i)
  }

  function OwnOf(i: nat, actions: seq<R.Action>): seq<R.Action> {
    if actions == [] then [] else (if Own(i, actions[0]) then [actions[0]] else []) + OwnOf(i, actions[1..])
  }

  /** What job `i` commits or acknowledges by one action. */
  function Deed(s: R.System, i: nat, a: R.Action): seq<Act> {
    if i !in s.workers then []
    else if a == R.CommitBatch(i) then [Commit(BatchOf(s.workers[i].inflight))]
    else if a == R.AcknowledgeBatch(i) && s.workers[i].acking != [] then [Acknowledge(Last(s.workers[i].acking))]
    else []
  }

  /** What job `i` commits and acknowledges in a run, in order. */
  function Deeds(c: R.Config, s: R.System, i: nat, actions: seq<R.Action>): seq<Act>
    requires R.Run(c, s, actions).Some?
    decreases |actions|
  {
    if actions == [] then []
    else Deed(s, i, actions[0]) + Deeds(c, R.Act(c, s, actions[0]).value, i, actions[1..])
  }

  /** Job `i` is neither started again nor dropped from outside. */
  predicate LeavesAlone(i: nat, fence: Fence, a: R.Action) {
    (a.Resume? ==> a.worker != i) && (a.ActivateOwner? ==> a.fence != fence)
  }

  // ---- The batches of one job, apart from everything else -------------------------------------

  datatype Job = Ended | Job(pending: seq<SourceTransaction>, inflight: seq<SourceTransaction>, acking: seq<SourceTransaction>, next: nat)

  function JobOf(s: R.System, i: nat): Job {
    if i in s.workers then Job(s.workers[i].pending, s.workers[i].inflight, s.workers[i].acking, s.workers[i].next) else Ended
  }

  function Step(limits: BatchLimits, log: R.Log, j: Job, a: R.Action): (Job, seq<Act>) {
    if j.Ended? then (j, [])
    else match a
      case Deliver(_) =>
        if j.next >= |log| then (j, [])
        else if MustFlush(limits, j.pending, log[j.next]) then (Job([log[j.next]], j.pending, j.acking, j.next + 1), [])
        else (Job(j.pending + [log[j.next]], j.inflight, j.acking, j.next + 1), [])
      case TimerFires(_) => (Job([], j.pending, j.acking, j.next), [])
      case CommitBatch(_) => (Job(j.pending, [], j.inflight, j.next), [Commit(BatchOf(j.inflight))])
      case AcknowledgeBatch(_) => (Job(j.pending, j.inflight, [], j.next), if j.acking == [] then [] else [Acknowledge(Last(j.acking))])
      case Stop(_) => (Ended, [])
      case _ => (j, [])
  }

  function Steps(limits: BatchLimits, log: R.Log, j: Job, actions: seq<R.Action>): (Job, seq<Act>)
    decreases |actions|
  {
    if actions == [] then (j, [])
    else
      var first := Step(limits, log, j, actions[0]);
      var rest := Steps(limits, log, first.0, actions[1..]);
      (rest.0, first.1 + rest.1)
  }

  lemma {:induction false} StepsAppend(limits: BatchLimits, log: R.Log, j: Job, one: seq<R.Action>, two: seq<R.Action>)
    ensures var first := Steps(limits, log, j, one);
      var rest := Steps(limits, log, first.0, two);
      Steps(limits, log, j, one + two) == (rest.0, first.1 + rest.1)
    decreases |one|
  {
    hide Step;
    if one == [] {
      assert one + two == two && [] + Steps(limits, log, j, two).1 == Steps(limits, log, j, two).1;
    } else {
      assert (one + two)[0] == one[0] && (one + two)[1..] == one[1..] + two;
      var first := Step(limits, log, j, one[0]);
      var middle := Steps(limits, log, first.0, one[1..]);
      StepsAppend(limits, log, first.0, one[1..], two);
      assert first.1 + (middle.1 + Steps(limits, log, middle.0, two).1) == (first.1 + middle.1) + Steps(limits, log, middle.0, two).1;
    }
  }

  lemma TwoSteps(limits: BatchLimits, log: R.Log, j: Job, a: R.Action, b: R.Action)
    ensures var first := Step(limits, log, j, a);
      var second := Step(limits, log, first.0, b);
      Steps(limits, log, j, [a, b]) == (second.0, first.1 + second.1)
  {
    hide Step;
    assert [a, b][1..] == [b];
    OneStep(limits, log, Step(limits, log, j, a).0, b);
  }

  lemma OneStep(limits: BatchLimits, log: R.Log, j: Job, a: R.Action)
    ensures Steps(limits, log, j, [a]) == Step(limits, log, j, a)
  {
    hide Step;
    assert [a][1..] == [];
    assert Step(limits, log, j, a).1 + [] == Step(limits, log, j, a).1;
  }

  // ---- The machine moves one job as its own actions say ---------------------------------------

  /** Every action of the machine either is a step of job `i` or leaves its batches alone, whoever acts. */
  lemma ActIsStep(c: R.Config, s: R.System, i: nat, fence: Fence, a: R.Action, log: R.Log)
    requires R.Act(c, s, a).Some? && R.Act(c, s, a).value.log <= log
    requires LeavesAlone(i, fence, a) && (i in s.workers ==> s.workers[i].fence == fence)
    ensures var n := R.Act(c, s, a).value;
      && s.log <= n.log && (i in n.workers ==> n.workers[i].fence == fence)
      && (if Own(i, a) then Step(c.limits, log, JobOf(s, i), a) == (JobOf(n, i), Deed(s, i, a))
          else JobOf(n, i) == JobOf(s, i) && Deed(s, i, a) == [])
  {
    hide MustFlush, ValidateOrder, BatchOf, R.RequestOf, R.AcknowledgeLast, Last;
    if a.AcknowledgeBatch? && a.worker in s.workers { AcknowledgedWorker(c, s.workers[a.worker]); }
  }

  lemma AcknowledgedWorker(c: R.Config, w: R.Worker)
    ensures w.acking != [] && R.AcknowledgeLast(c, w).Ok? ==>
      var v := R.AcknowledgeLast(c, w).value;
      v.acking == [] && v.pending == w.pending && v.inflight == w.inflight && v.next == w.next && v.fence == w.fence
  {
  }

  lemma {:induction false} RunIsSteps(c: R.Config, s: R.System, i: nat, fence: Fence, actions: seq<R.Action>)
    requires R.Run(c, s, actions).Some?
    requires (forall a | a in actions :: LeavesAlone(i, fence, a)) && (i in s.workers ==> s.workers[i].fence == fence)
    ensures var e := R.Run(c, s, actions).value;
      s.log <= e.log && Steps(c.limits, e.log, JobOf(s, i), OwnOf(i, actions)) == (JobOf(e, i), Deeds(c, s, i, actions))
    decreases |actions|
  {
    hide R.Act, Step, JobOf, Deed, Own, LeavesAlone;
    if actions != [] {
      var a, n, e := actions[0], R.Act(c, s, actions[0]).value, R.Run(c, s, actions).value;
      RunLogGrows(c, n, actions[1..]);
      ActIsStep(c, s, i, fence, a, e.log);
      RunIsSteps(c, n, i, fence, actions[1..]);
      if Own(i, a) {
        assert OwnOf(i, actions)[0] == a && OwnOf(i, actions)[1..] == OwnOf(i, actions[1..]);
      } else {
        assert OwnOf(i, actions) == OwnOf(i, actions[1..]) && Deeds(c, s, i, actions) == Deeds(c, n, i, actions[1..]);
      }
    }
  }

  lemma {:induction false} RunLogGrows(c: R.Config, s: R.System, actions: seq<R.Action>)
    ensures R.Run(c, s, actions).Some? ==> s.log <= R.Run(c, s, actions).value.log
    decreases |actions|
  {
    hide R.Act;
    if actions != [] && R.Act(c, s, actions[0]).Some? {
      ActLogGrows(c, s, actions[0]);
      RunLogGrows(c, R.Act(c, s, actions[0]).value, actions[1..]);
    }
  }

  lemma ActLogGrows(c: R.Config, s: R.System, a: R.Action)
    ensures R.Act(c, s, a).Some? ==> s.log <= R.Act(c, s, a).value.log
  {
    hide R.RequestOf, R.AcknowledgeLast, R.Received;
  }

  // ---- The loop takes the same steps ----------------------------------------------------------

  /** The job as the loop leaves it between two turns. */
  function Standing(l: Loop, next: nat): Job {
    if l.exit == Running then Job(l.pending, [], [], next) else Ended
  }

  lemma ApplySteps(limits: BatchLimits, log: R.Log, j: Job, i: nat, outcome: Outcome)
    requires j.Job? && j.inflight != [] && j.acking == []
    ensures var (acts, exit) := Attempt(j.inflight, outcome);
      Steps(limits, log, j, ApplyActions(i, outcome)) == (Standing(Loop(j.pending, [], exit), j.next), acts)
  {
    hide Steps, BatchOf, Last, MustFlush;
    var done := [Commit(BatchOf(j.inflight))];
    assert done + [] == done && done + [Acknowledge(Last(j.inflight))] == [Commit(BatchOf(j.inflight)), Acknowledge(Last(j.inflight))];
    match outcome
    case Done => TwoSteps(limits, log, j, R.CommitBatch(i), R.AcknowledgeBatch(i));
    case ApplyFailed => OneStep(limits, log, j, R.Stop(i));
    case AckFailed => TwoSteps(limits, log, j, R.CommitBatch(i), R.Stop(i));
    case CancelledBeforeCommit => OneStep(limits, log, j, R.Stop(i));
    case CancelledAfterCommit => TwoSteps(limits, log, j, R.CommitBatch(i), R.Stop(i));
  }

  /** Flushing the pending batch and applying it. */
  lemma FlushSteps(limits: BatchLimits, log: R.Log, l: Loop, i: nat, outcome: Outcome, next: nat)
    requires l.exit == Running && l.pending != []
    ensures var m := Applied(l, l.pending, outcome, []);
      var done := Steps(limits, log, Standing(l, next), [R.TimerFires(i)] + ApplyActions(i, outcome));
      done.0 == Standing(m, next) && m.acts == l.acts + done.1
  {
    hide Steps, Attempt, ApplyActions;
    var j := Job([], l.pending, [], next);
    OneStep(limits, log, Standing(l, next), R.TimerFires(i));
    ApplySteps(limits, log, j, i, outcome);
    StepsAppend(limits, log, Standing(l, next), [R.TimerFires(i)], ApplyActions(i, outcome));
  }

  lemma DeliverySteps(limits: BatchLimits, log: R.Log, l: Loop, i: nat, turn: Turn, next: nat)
    requires l.exit == Running && turn.wake.Delivered? && next < |log| && log[next] == turn.wake.transaction
    requires ValidateOrder(l.pending, turn.wake.transaction).None?
    ensures var m := TakeTurn(limits, l, turn);
      var done := Steps(limits, log, Standing(l, next), TurnActions(limits, i, l, turn));
      done.0 == Standing(m, next + 1) && m.acts == l.acts + done.1
  {
    hide Steps, Attempt, ApplyActions, ValidateOrder, MustFlush;
    var t, j := turn.wake.transaction, Standing(l, next);
    FlushNeedsPending(limits, l.pending, t);
    OneStep(limits, log, j, R.Deliver(i));
    if MustFlush(limits, l.pending, t) {
      ApplySteps(limits, log, Job([t], l.pending, [], next + 1), i, turn.outcome);
      StepsAppend(limits, log, j, [R.Deliver(i)], ApplyActions(i, turn.outcome));
    } else {
      assert [R.Deliver(i)] + [] == [R.Deliver(i)];
    }
  }

  lemma StreamEndSteps(limits: BatchLimits, log: R.Log, l: Loop, i: nat, turn: Turn, next: nat)
    requires l.exit == Running && turn.wake.StreamEnded? && l.pending != []
    ensures var m := TakeTurn(limits, l, turn);
      var done := Steps(limits, log, Standing(l, next), TurnActions(limits, i, l, turn));
      done.0 == Standing(m, next) && m.acts == l.acts + done.1
  {
    hide Steps, ApplyActions;
    var flush, j := [R.TimerFires(i)] + ApplyActions(i, turn.outcome), Standing(l, next);
    FlushSteps(limits, log, l, i, turn.outcome, next);
    if turn.outcome == Done {
      OneStep(limits, log, Steps(limits, log, j, flush).0, R.Stop(i));
      StepsAppend(limits, log, j, flush, [R.Stop(i)]);
    } else {
      assert flush + [] == flush;
    }
  }

  /** One turn of the loop. */
  lemma TurnSteps(limits: BatchLimits, log: R.Log, l: Loop, i: nat, turn: Turn, next: nat)
    requires l.exit == Running && (turn.wake.Delivered? ==> next < |log| && log[next] == turn.wake.transaction)
    ensures var m := TakeTurn(limits, l, turn);
      var done := Steps(limits, log, Standing(l, next), TurnActions(limits, i, l, turn));
      done.0 == Standing(m, next + |Delivery([turn])|) && m.acts == l.acts + done.1
  {
    hide Steps, Attempt, ApplyActions, ValidateOrder, MustFlush, Standing;
    var j := Standing(l, next);
    assert |Delivery([turn])| == if turn.wake.Delivered? then 1 else 0;
    match turn.wake
    case Cancelled => StopSteps(limits, log, l, i, Stopped, next, next);
    case SourceFailed => StopSteps(limits, log, l, i, Failed, next, next);
    case TimerDue =>
      if l.pending != [] { FlushSteps(limits, log, l, i, turn.outcome, next); } else { NoSteps(limits, log, j); }
    case StreamEnded =>
      if l.pending != [] { StreamEndSteps(limits, log, l, i, turn, next); } else { StopSteps(limits, log, l, i, Stopped, next, next); }
    case Delivered(t) =>
      if ValidateOrder(l.pending, t).Some? { StopSteps(limits, log, l, i, Failed, next, next + 1); }
      else { DeliverySteps(limits, log, l, i, turn, next); }
  }

  lemma NoSteps(limits: BatchLimits, log: R.Log, j: Job)
    ensures Steps(limits, log, j, []) == (j, [])
  {
  }

  lemma StopSteps(limits: BatchLimits, log: R.Log, l: Loop, i: nat, exit: Exit, next: nat, after: nat)
    requires l.exit == Running && exit != Running
    ensures Steps(limits, log, Standing(l, next), [R.Stop(i)]) == (Standing(l.(exit := exit), after), [])
    ensures l.acts + [] == l.acts
  {
    OneStep(limits, log, Standing(l, next), R.Stop(i));
    hide Steps;
  }

  lemma {:induction false} LoopSteps(limits: BatchLimits, log: R.Log, l: Loop, i: nat, turns: seq<Turn>, next: nat)
    requires next <= |log| && Delivery(turns) <= log[next..]
    ensures var m := TakeTurns(limits, l, turns);
      var done := Steps(limits, log, Standing(l, next), LoopActions(limits, i, l, turns));
      && m.acts == l.acts + done.1
      && (m.exit == Running ==> done.0 == Standing(m, next + |Delivery(turns)|)) && (m.exit != Running ==> done.0 == Standing(m, 0))
    decreases |turns|
  {
    hide TakeTurn, TurnActions, Steps, Delivery;
    if turns == [] || l.exit != Running {
      NoSteps(limits, log, Standing(l, next));
      if turns == [] { NothingDelivered(); }
    } else {
      FirstDelivery(turns);
      var more := Delivery([turns[0]]);
      var m, rest := TakeTurn(limits, l, turns[0]), turns[1..];
      assert log[next..][|more|..] == log[next + |more|..];
      assert forall k | 0 <= k < |more| :: log[next + k] == more[k];
      TurnSteps(limits, log, l, i, turns[0], next);
      LoopSteps(limits, log, m, i, rest, next + |more|);
      StepsAppend(limits, log, Standing(l, next), TurnActions(limits, i, l, turns[0]), LoopActions(limits, i, m, rest));
    }
  }

  lemma FirstDelivery(turns: seq<Turn>)
    requires turns != []
    ensures Delivery(turns) == Delivery([turns[0]]) + Delivery(turns[1..])
    ensures turns[0].wake.Delivered? ==> Delivery([turns[0]]) == [turns[0].wake.transaction]
  {
    assert [turns[0]][1..] == [];
  }

  // ---- Together -------------------------------------------------------------------------------

  /** A job of the machine is a run of the loop. Whatever other jobs, the source and the fences do in between:
      when the actions of job `i` are those of the loop on some turns, and the turns deliver what comes next
      in the log, then the job commits and acknowledges exactly what the loop does, holds the same pending
      batch, and runs for as long as the loop runs. */
  lemma JobFollowsLoop(c: R.Config, s: R.System, i: nat, l: Loop, turns: seq<Turn>, actions: seq<R.Action>)
    requires R.Run(c, s, actions).Some?
    requires i in s.workers && s.workers[i].Idle() && l.exit == Running && s.workers[i].pending == l.pending
    requires forall a | a in actions :: LeavesAlone(i, s.workers[i].fence, a)
    requires OwnOf(i, actions) == LoopActions(c.limits, i, l, turns)
    requires s.workers[i].next <= |R.Run(c, s, actions).value.log|
    requires Delivery(turns) <= R.Run(c, s, actions).value.log[s.workers[i].next..]
    ensures var e, m := R.Run(c, s, actions).value, TakeTurns(c.limits, l, turns);
      && m.acts == l.acts + Deeds(c, s, i, actions)
      && (m.exit == Running <==> i in e.workers)
      && (m.exit == Running ==>
        e.workers[i].Idle() && e.workers[i].pending == m.pending && e.workers[i].next == s.workers[i].next + |Delivery(turns)|)
  {
    hide R.Run, Steps, OwnOf, LoopActions, Deeds, TakeTurns, LeavesAlone, Delivery;
    var e := R.Run(c, s, actions).value;
    RunIsSteps(c, s, i, s.workers[i].fence, actions);
    LoopSteps(c.limits, e.log, l, i, turns, s.workers[i].next);
  }

  /** So what a freshly resumed job commits is, in order, the log from where it resumed; every acknowledgement
      directly follows the commit of the batch that ends in it, and at most the last commit goes without. */
  lemma JobCommitsInOrder(c: R.Config, s: R.System, i: nat, turns: seq<Turn>, actions: seq<R.Action>)
    requires R.Run(c, s, actions).Some?
    requires i in s.workers && s.workers[i].Idle() && s.workers[i].pending == []
    requires forall a | a in actions :: LeavesAlone(i, s.workers[i].fence, a)
    requires OwnOf(i, actions) == LoopActions(c.limits, i, Loop([], [], Running), turns)
    requires s.workers[i].next <= |R.Run(c, s, actions).value.log|
    requires Delivery(turns) <= R.Run(c, s, actions).value.log[s.workers[i].next..]
    ensures CommittedBy(Deeds(c, s, i, actions)) <= R.Run(c, s, actions).value.log[s.workers[i].next..]
    ensures Paired(Deeds(c, s, i, actions), if i in R.Run(c, s, actions).value.workers then Running else Stopped)
  {
    hide R.Run, OwnOf, LoopActions, Deeds, TakeTurns, LeavesAlone, Delivery, CommittedBy, Paired;
    var start := Loop([], [], Running);
    JobFollowsLoop(c, s, i, start, turns, actions);
    EmptyLoopOk();
    NothingIsAcknowledgedEarly(c.limits, start, [], turns);
    var m := TakeTurns(c.limits, start, turns);
    assert [] + Deeds(c, s, i, actions) == Deeds(c, s, i, actions) && [] + Delivery(turns) == Delivery(turns);
    ExitsAlike(m.acts, m.exit);
  }

  lemma EmptyLoopOk()
    ensures LoopOk(Loop([], [], Running), [])
  {
  }

  lemma ExitsAlike(acts: seq<Act>, exit: Exit)
    requires Paired(acts, exit)
    ensures exit != Running ==> Paired(acts, Stopped)
  {
    if exit != Running {
      forall k | 0 <= k < |acts| ensures CommitAt(acts, k, Stopped) { assert CommitAt(acts, k, exit); }
    }
  }
}
