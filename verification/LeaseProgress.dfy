/** What the lease machine gets done: a free lease is taken over, a held one is renewed, a released one is free. */
module LeaseProgress {
  import opened Core
  import opened Leases

  // ---- Waiting for an answer ------------------------------------------------------------------

  /** Steps of others: neither a step of `h` nor the execution of its request. */
  predicate Elsewhere(h: Holder, id: nat, a: Action) {
    (a.Take? ==> a.node != h) && (a.Execute? ==> a.id != id)
  }

  /** Where a request stands while its sender waits. */
  ghost predicate SameAnswer(v: World, w: World, id: nat) {
    && (id in v.requests <==> id in w.requests) && (id in v.requests ==> v.requests[id] == w.requests[id])
    && (id in v.responses <==> id in w.responses) && (id in v.responses ==> v.responses[id] == w.responses[id])
  }

  ghost predicate Waits(v: World, w: World, h: Holder, id: nat) {
    && v.now <= w.now && v.nextId <= w.nextId && h in v.nodes && h in w.nodes && w.nodes[h] == v.nodes[h] && SameAnswer(v, w, id)
  }

  lemma ExecutionWaits(w: World, h: Holder, id: nat, other: nat)
    requires h in w.nodes && other in w.requests && other != id && w.requests[other].holder in w.nodes
    ensures Waits(w, ExecuteRequest(w, other), h, id)
  {
  }

  lemma StepWaits(w: World, h: Holder, id: nat, g: Holder, step: Step)
    requires h in w.nodes && g != h && id < w.nextId && Possible(w, g, step) && w.nodes[g].timing.Valid()
    ensures Waits(w, NodeStep(w, g, step), h, id)
  {
    NodeStepFrame(w, g, step);
    NodeStepIssuesNothing(w, g, step);
    hide NodeStep, Possible;
  }

  lemma OneWaits(w: World, h: Holder, id: nat, a: Action)
    requires Inv(w) && h in w.nodes && id < w.nextId && Elsewhere(h, id, a)
    ensures (forall g | g in w.nodes :: w.nodes[g].timing.Valid()) && (forall r | r in w.requests :: w.requests[r].holder in w.nodes)
    ensures Act(w, a).Some? ==> Waits(w, Act(w, a).value, h, id)
  {
    InvAllowsActing(w);
    hide Inv, NodeStep, ExecuteRequest, Possible;
    match a
    case TimePasses(elapsed) =>
    case Execute(other) => if other in w.requests { ExecutionWaits(w, h, id, other); }
    case Take(g, step) => if Possible(w, g, step) { StepWaits(w, h, id, g, step); }
  }

  lemma WaitsOn(u: World, v: World, w: World, h: Holder, id: nat)
    requires Waits(u, v, h, id) && Waits(v, w, h, id)
    ensures Waits(u, w, h, id)
  {
  }

  lemma {:induction false} OthersRun(w: World, h: Holder, id: nat, actions: seq<Action>)
    requires Inv(w) && h in w.nodes && id < w.nextId && forall a | a in actions :: Elsewhere(h, id, a)
    ensures Run(w, actions).Some? ==> Inv(Run(w, actions).value) && Waits(w, Run(w, actions).value, h, id)
    decreases |actions|
  {
    hide Inv, Act, Elsewhere, Waits;
    if actions == [] {
      WaitsStarts(w, h, id);
    } else {
      InvAllowsActing(w);
      OneWaits(w, h, id, actions[0]);
      ActKeepsInv(w, actions[0]);
      if Act(w, actions[0]).Some? {
        var next := Act(w, actions[0]).value;
        WaitsNext(w, next, h, id);
        OthersRun(next, h, id, actions[1..]);
        if Run(next, actions[1..]).Some? { WaitsOn(w, next, Run(next, actions[1..]).value, h, id); }
      }
    }
  }

  lemma WaitsStarts(w: World, h: Holder, id: nat)
    requires h in w.nodes
    ensures Waits(w, w, h, id)
  {
  }

  lemma WaitsNext(v: World, w: World, h: Holder, id: nat)
    requires Waits(v, w, h, id) && id < v.nextId
    ensures h in w.nodes && id < w.nextId
  {
  }

  // ---- Taking over ----------------------------------------------------------------------------

  /** The lease is nobody's, has run out, or is one's own. */
  predicate Free(w: World, h: Holder) {
    w.row.None? || w.row.value.expires <= w.now || w.row.value.holder == h
  }

  /** The request of `h` was sent at `sent`, and `w` is where the store executes it. */
  ghost predicate Requested(sent: World, w: World, h: Holder) {
    && h in sent.nodes && h in w.nodes && sent.now <= w.now && w.nodes[h] == sent.nodes[h].(phase := Acquiring(sent.nextId, sent.now))
    && sent.nextId in w.requests && w.requests[sent.nextId] == AcquireRequest(h) && sent.nextId < w.nextId
  }

  lemma SendsRequest(w: World, h: Holder)
    requires Inv(w) && h in w.nodes && w.nodes[h].phase.Idle?
    ensures (forall g | g in w.nodes :: w.nodes[g].timing.Valid()) && (forall r | r in w.requests :: w.requests[r].holder in w.nodes)
    ensures Act(w, Take(h, SendAcquire)).Some? && Inv(Act(w, Take(h, SendAcquire)).value)
    ensures Requested(w, Act(w, Take(h, SendAcquire)).value, h)
  {
    InvAllowsActing(w);
    ActKeepsInv(w, Take(h, SendAcquire));
    hide Inv;
  }

  lemma StillRequested(sent: World, v: World, w: World, h: Holder)
    requires Requested(sent, v, h) && Waits(v, w, h, sent.nextId)
    ensures Requested(sent, w, h)
  {
  }

  /** Executed: granted exactly when the lease is free then, under the next token, from now on for `ttl`. */
  lemma ExecutedRequest(sent: World, w: World, h: Holder)
    requires Inv(w) && Requested(sent, w, h)
    ensures (forall g | g in w.nodes :: w.nodes[g].timing.Valid()) && (forall r | r in w.requests :: w.requests[r].holder in w.nodes)
    ensures Act(w, Execute(sent.nextId)).Some? && Inv(Act(w, Execute(sent.nextId)).value)
    ensures var next, token := Act(w, Execute(sent.nextId)).value, if w.row.Some? then w.row.value.token + 1 else 1;
      && next.now == w.now && next.nodes == w.nodes && next.nextId == w.nextId && sent.nextId in next.responses
      && (if Free(w, h) then
            && next.row == Some(LeaseRow(h, token, w.now + w.nodes[h].timing.ttl)) && next.issued == w.issued + [token]
            && (forall k | 0 <= k < |w.issued| :: w.issued[k] < token) && next.responses[sent.nextId] == Granted(token)
          else
            next.row == w.row && next.issued == w.issued && next.responses[sent.nextId] == Refused)
  {
    InvAllowsActing(w);
    ActKeepsInv(w, Execute(sent.nextId));
    IssuedBelow(w);
    hide Inv;
  }

  lemma IssuedBelow(w: World)
    requires Inv(w)
    ensures if w.row.Some? then forall k | 0 <= k < |w.issued| :: w.issued[k] <= w.row.value.token else w.issued == []
  {
    hide NodeOk, RequestsOk;
  }

  /** Answered: a grant in time makes a lease with its deadline, a late one is given back, a refusal is taken. */
  lemma ReceivesAnswer(w: World, h: Holder, id: nat, started: nat)
    requires Inv(w) && h in w.nodes && w.nodes[h].phase == Acquiring(id, started) && id in w.responses
    ensures (forall g | g in w.nodes :: w.nodes[g].timing.Valid()) && (forall r | r in w.requests :: w.requests[r].holder in w.nodes)
    ensures Act(w, Take(h, ReceiveAcquire)).Some? && Inv(Act(w, Take(h, ReceiveAcquire)).value)
    ensures var next, stopAt := Act(w, Take(h, ReceiveAcquire)).value, started + w.nodes[h].timing.ttl - w.nodes[h].timing.margin;
      && h in next.nodes && next.now == w.now && next.row == w.row
      && match w.responses[id] {
           case Refused => next.nodes[h] == w.nodes[h].(phase := Idle) && next.requests == w.requests
           case Granted(token) =>
             if w.now < stopAt then next.nodes[h] == w.nodes[h].(phase := Creating(token, stopAt)) && next.requests == w.requests
             else next.nodes[h] == w.nodes[h].(phase := Idle) && next.requests == w.requests[w.nextId := ReleaseRequest(h, token)]
         }
  {
    InvAllowsActing(w);
    ActKeepsInv(w, Take(h, ReceiveAcquire));
    hide Inv;
  }

  /** What the next acquisition is numbered. */
  function NextToken(w: World): nat {
    if w.row.Some? then w.row.value.token + 1 else 1
  }

  /** The answer is there, and its sender still waits for it. */
  ghost predicate Answered(sent: World, before: World, after: World, h: Holder) {
    && h in sent.nodes && h in after.nodes && after.nodes[h] == sent.nodes[h].(phase := Acquiring(sent.nextId, sent.now))
    && sent.nextId in after.responses
    && after.responses[sent.nextId] == (if Free(before, h) then Granted(NextToken(before)) else Refused)
  }

  lemma RequestReachesStore(w: World, h: Holder, first: seq<Action>, before: World)
    requires Inv(w) && h in w.nodes && w.nodes[h].phase.Idle?
    requires (forall a | a in first :: Elsewhere(h, w.nextId, a)) && Run(w, [Take(h, SendAcquire)] + first) == Some(before)
    ensures Requested(w, before, h)
  {
    hide Inv, Act, Elsewhere, Waits;
    SendsRequest(w, h);
    var sent := Act(w, Take(h, SendAcquire)).value;
    assert ([Take(h, SendAcquire)] + first)[1..] == first;
    RequestedThere(w, sent, h);
    OthersRun(sent, h, w.nextId, first);
    StillRequested(w, sent, before, h);
  }

  lemma AnswerReachesSender(sent: World, before: World, h: Holder, second: seq<Action>, after: World)
    requires Inv(before) && Requested(sent, before, h)
    requires (forall a | a in second :: Elsewhere(h, sent.nextId, a)) && Run(before, [Execute(sent.nextId)] + second) == Some(after)
    ensures Answered(sent, before, after, h)
  {
    hide Inv, Act, Elsewhere, Free, Waits;
    ExecutedRequest(sent, before, h);
    var executed := Act(before, Execute(sent.nextId)).value;
    assert ([Execute(sent.nextId)] + second)[1..] == second;
    RequestedThere(sent, before, h);
    OthersRun(executed, h, sent.nextId, second);
    AnswerStays(executed, after, h, sent.nextId);
  }

  /** From every reachable world: an idle reconciler sends a request, others do what they like, the store
      executes it in `before`, others do what they like again, and the answer arrives in `after`. It gets the
      lease if and only if the lease was free when executed, with a token above all issued before, and
      holds it if the answer came before the deadline counted from sending; a late grant is given back. */
  lemma FreeLeaseIsTaken(w: World, h: Holder, first: seq<Action>, before: World, second: seq<Action>, after: World)
    requires Inv(w) && h in w.nodes && w.nodes[h].phase.Idle?
    requires forall a | a in first + second :: Elsewhere(h, w.nextId, a)
    requires Run(w, [Take(h, SendAcquire)] + first) == Some(before)
    requires Inv(before) && Run(before, [Execute(w.nextId)] + second) == Some(after)
    requires Inv(after)
    ensures Run(after, [Take(h, ReceiveAcquire)]).Some?
    ensures var end, timing := Run(after, [Take(h, ReceiveAcquire)]).value, w.nodes[h].timing;
      var token, stopAt := if before.row.Some? then before.row.value.token + 1 else 1, w.now + timing.ttl - timing.margin;
      && Inv(end) && h in end.nodes && end.now == after.now
      && (if before.row.None? || before.row.value.expires <= before.now || before.row.value.holder == h then
            && (forall k | 0 <= k < |before.issued| :: before.issued[k] < token)
            && end.nodes[h].phase == (if after.now < stopAt then Creating(token, stopAt) else Idle)
            && (after.now >= stopAt ==> after.nextId in end.requests && end.requests[after.nextId] == ReleaseRequest(h, token))
          else
            end.nodes[h].phase == Idle)
  {
    hide Inv, Act, Elsewhere, Requested;
    RequestReachesStore(w, h, first, before);
    AnswerReachesSender(w, before, h, second, after);
    ReceivesAnswer(after, h, w.nextId, w.now);
    TokenIsNext(before);
    assert [Take(h, ReceiveAcquire)][1..] == [];
  }

  lemma TokenIsNext(w: World)
    requires Inv(w)
    ensures forall k | 0 <= k < |w.issued| :: w.issued[k] < NextToken(w)
  {
    hide Inv;
    IssuedBelow(w);
  }

  lemma RequestedThere(sent: World, w: World, h: Holder)
    requires Requested(sent, w, h)
    ensures h in w.nodes && sent.nextId < w.nextId
  {
  }

  lemma AnswerStays(v: World, w: World, h: Holder, id: nat)
    requires Waits(v, w, h, id) && id in v.responses
    ensures h in w.nodes && w.nodes[h] == v.nodes[h] && v.now <= w.now && id in w.responses && w.responses[id] == v.responses[id]
  {
  }

  /** With a lease in hand and time left, the job starts. */
  lemma LeaseStartsJob(w: World, h: Holder)
    requires Inv(w) && h in w.nodes && w.nodes[h].phase.Creating? && w.now < w.nodes[h].phase.stopAt
    ensures (forall g | g in w.nodes :: w.nodes[g].timing.Valid()) && (forall r | r in w.requests :: w.requests[r].holder in w.nodes)
    ensures Act(w, Take(h, StartJob)).Some?
    ensures var next := Act(w, Take(h, StartJob)).value;
      Working(next, h) && next.nodes[h].phase == Owned(w.nodes[h].phase.token, w.nodes[h].phase.stopAt) && next.nodes[h].job
  {
    InvAllowsActing(w);
    assert NodeOk(w, h, w.nodes[h]);
    hide Inv, NodeOk;
  }

  // ---- Renewing -------------------------------------------------------------------------------

  /** A renewal executed before the old deadline finds the lease unexpired and its holder's. */
  lemma RenewalFindsLease(w: World, h: Holder)
    requires Inv(w) && h in w.nodes && w.nodes[h].phase.Renewing? && w.now < w.nodes[h].phase.stopAt
    ensures w.row.Some? && w.row.value.holder == h && w.row.value.expires > w.now && w.nodes[h].phase.token <= w.row.value.token
    ensures w.nodes[h].timing.Valid()
  {
    assert NodeOk(w, h, w.nodes[h]);
    hide Inv;
  }

  ghost predicate Renews(sent: World, w: World, h: Holder, token: nat, stopAt: nat) {
    && h in sent.nodes && h in w.nodes && sent.now <= w.now
    && w.nodes[h] == sent.nodes[h].(phase := Renewing(token, stopAt, sent.nextId, sent.now))
    && sent.nextId in w.requests && w.requests[sent.nextId] == RenewRequest(h, token) && sent.nextId < w.nextId
  }

  lemma SendsRenewal(w: World, h: Holder)
    requires Inv(w) && h in w.nodes && w.nodes[h].phase.Owned?
    ensures (forall g | g in w.nodes :: w.nodes[g].timing.Valid()) && (forall r | r in w.requests :: w.requests[r].holder in w.nodes)
    ensures Act(w, Take(h, SendRenew)).Some? && Inv(Act(w, Take(h, SendRenew)).value)
    ensures Renews(w, Act(w, Take(h, SendRenew)).value, h, w.nodes[h].phase.token, w.nodes[h].phase.stopAt)
  {
    InvAllowsActing(w);
    ActKeepsInv(w, Take(h, SendRenew));
    hide Inv;
  }

  lemma StillRenews(sent: World, v: World, w: World, h: Holder, token: nat, stopAt: nat)
    requires Renews(sent, v, h, token, stopAt) && Waits(v, w, h, sent.nextId)
    ensures Renews(sent, w, h, token, stopAt)
  {
  }

  lemma RenewsThere(sent: World, w: World, h: Holder, token: nat, stopAt: nat)
    requires Renews(sent, w, h, token, stopAt)
    ensures h in w.nodes && sent.nextId < w.nextId && w.nodes[h].phase.Renewing? && w.nodes[h].phase.stopAt == stopAt
  {
  }

  lemma ExecutedRenewal(sent: World, w: World, h: Holder, token: nat, stopAt: nat)
    requires Inv(w) && Renews(sent, w, h, token, stopAt) && w.now < stopAt
    ensures (forall g | g in w.nodes :: w.nodes[g].timing.Valid()) && (forall r | r in w.requests :: w.requests[r].holder in w.nodes)
    ensures Act(w, Execute(sent.nextId)).Some? && Inv(Act(w, Execute(sent.nextId)).value)
    ensures w.row.Some?
    ensures var next := Act(w, Execute(sent.nextId)).value;
      && next.now == w.now && next.nodes == w.nodes && next.nextId == w.nextId && sent.nextId in next.responses
      && (if w.row.value.token == token then
            next.row == Some(LeaseRow(h, token, w.now + w.nodes[h].timing.ttl)) && next.responses[sent.nextId] == Granted(token)
          else
            next.row == w.row && next.responses[sent.nextId] == Refused)
  {
    InvAllowsActing(w);
    ActKeepsInv(w, Execute(sent.nextId));
    RenewalFindsLease(w, h);
    hide Inv;
  }

  lemma ReceivesRenewal(w: World, h: Holder, token: nat, stopAt: nat, id: nat, started: nat)
    requires Inv(w) && h in w.nodes && w.nodes[h].phase == Renewing(token, stopAt, id, started) && w.now < stopAt && id in w.responses
    requires w.responses[id].Granted? ==> w.responses[id] == Granted(token)
    ensures (forall g | g in w.nodes :: w.nodes[g].timing.Valid()) && (forall r | r in w.requests :: w.requests[r].holder in w.nodes)
    ensures Act(w, Take(h, ReceiveRenew)).Some? && Inv(Act(w, Take(h, ReceiveRenew)).value)
    ensures var next, later := Act(w, Take(h, ReceiveRenew)).value, started + w.nodes[h].timing.ttl - w.nodes[h].timing.margin;
      h in next.nodes && next.nodes[h] == w.nodes[h].(phase :=
        if w.responses[id].Refused? then Stopping(token, stopAt) else if w.now < later then Owned(token, later) else Stopping(token, later))
  {
    InvAllowsActing(w);
    ActKeepsInv(w, Take(h, ReceiveRenew));
    hide Inv;
  }

  /** From every reachable world: a holder's renewal that the store executes, and whose answer arrives, before
      the old deadline moves the deadline to where it is counted from sending, and the job goes on. The one thing
      that can refuse it is a later token of the holder itself: an old request of its own, executed late. */
  lemma LeaseIsRenewed(w: World, h: Holder, first: seq<Action>, before: World, second: seq<Action>, after: World)
    requires Inv(w) && h in w.nodes && w.nodes[h].phase.Owned?
    requires forall a | a in first + second :: Elsewhere(h, w.nextId, a)
    requires Run(w, [Take(h, SendRenew)] + first) == Some(before)
    requires Inv(before) && Run(before, [Execute(w.nextId)] + second) == Some(after)
    requires Inv(after) && after.now < w.nodes[h].phase.stopAt
    ensures Run(after, [Take(h, ReceiveRenew)]).Some?
    ensures var end, n, timing := Run(after, [Take(h, ReceiveRenew)]).value, w.nodes[h], w.nodes[h].timing;
      var later := w.now + timing.ttl - timing.margin;
      && before.row.Some? && before.row.value.holder == h && n.phase.token <= before.row.value.token
      && h in end.nodes && end.nodes[h] == n.(phase :=
           if before.row.value.token != n.phase.token then Stopping(n.phase.token, n.phase.stopAt)
           else if after.now < later then Owned(n.phase.token, later) else Stopping(n.phase.token, later))
  {
    hide Inv, Act, Elsewhere, Renews;
    var token, stopAt := w.nodes[h].phase.token, w.nodes[h].phase.stopAt;
    RenewalReachesStore(w, h, first, before);
    RenewalAnswered(w, before, h, token, stopAt, second, after);
    ReceivesRenewal(after, h, token, stopAt, w.nextId, w.now);
    assert [Take(h, ReceiveRenew)][1..] == [];
  }

  lemma RenewalReachesStore(w: World, h: Holder, first: seq<Action>, before: World)
    requires Inv(w) && h in w.nodes && w.nodes[h].phase.Owned?
    requires (forall a | a in first :: Elsewhere(h, w.nextId, a)) && Run(w, [Take(h, SendRenew)] + first) == Some(before)
    ensures Renews(w, before, h, w.nodes[h].phase.token, w.nodes[h].phase.stopAt)
  {
    hide Inv, Act, Elsewhere, Waits;
    var token, stopAt := w.nodes[h].phase.token, w.nodes[h].phase.stopAt;
    SendsRenewal(w, h);
    var sent := Act(w, Take(h, SendRenew)).value;
    assert ([Take(h, SendRenew)] + first)[1..] == first;
    RenewsThere(w, sent, h, token, stopAt);
    OthersRun(sent, h, w.nextId, first);
    StillRenews(w, sent, before, h, token, stopAt);
  }

  lemma RenewalAnswered(sent: World, before: World, h: Holder, token: nat, stopAt: nat, second: seq<Action>, after: World)
    requires Inv(before) && Renews(sent, before, h, token, stopAt) && after.now < stopAt
    requires (forall a | a in second :: Elsewhere(h, sent.nextId, a)) && Run(before, [Execute(sent.nextId)] + second) == Some(after)
    ensures before.row.Some? && before.row.value.holder == h && token <= before.row.value.token
    ensures h in sent.nodes && h in after.nodes && after.nodes[h] == sent.nodes[h].(phase := Renewing(token, stopAt, sent.nextId, sent.now))
    ensures sent.nextId in after.responses
    ensures after.responses[sent.nextId] == if before.row.value.token == token then Granted(token) else Refused
  {
    hide Inv, Act, Elsewhere, Waits;
    RenewsThere(sent, before, h, token, stopAt);
    InvAllowsActing(before);
    ActKeepsInv(before, Execute(sent.nextId));
    ExecutionIsAtOnce(before, sent.nextId);
    var executed := Act(before, Execute(sent.nextId)).value;
    assert ([Execute(sent.nextId)] + second)[1..] == second;
    OthersRun(executed, h, sent.nextId, second);
    WaitsTime(executed, after, h, sent.nextId);
    RenewalFindsLease(before, h);
    ExecutedRenewal(sent, before, h, token, stopAt);
    AnswerStays(executed, after, h, sent.nextId);
  }

  lemma WaitsTime(v: World, w: World, h: Holder, id: nat)
    requires Waits(v, w, h, id)
    ensures v.now <= w.now
  {
  }

  lemma ExecutionIsAtOnce(w: World, id: nat)
    requires Inv(w) && id in w.requests
    ensures (forall g | g in w.nodes :: w.nodes[g].timing.Valid()) && (forall r | r in w.requests :: w.requests[r].holder in w.nodes)
    ensures Act(w, Execute(id)).Some?
    ensures var next := Act(w, Execute(id)).value; next.now == w.now && next.nodes == w.nodes && next.nextId == w.nextId
  {
    InvAllowsActing(w);
    hide Inv;
  }

  // ---- Releasing ------------------------------------------------------------------------------

  /** A release that still matches frees the lease for everyone at once and keeps its token; one that does
      not match changes nothing. */
  lemma ReleaseFrees(w: World, id: nat, g: Holder)
    requires Inv(w) && id in w.requests && w.requests[id].ReleaseRequest?
    ensures (forall n | n in w.nodes :: w.nodes[n].timing.Valid()) && (forall r | r in w.requests :: w.requests[r].holder in w.nodes)
    ensures Act(w, Execute(id)).Some?
    ensures var next, r := Act(w, Execute(id)).value, w.requests[id];
      if w.row.Some? && w.row.value.holder == r.holder && w.row.value.token == r.token then
        next.row == Some(LeaseRow(r.holder, r.token, w.now)) && Free(next, g)
      else next.row == w.row
  {
    InvAllowsActing(w);
    hide Inv;
  }
}
