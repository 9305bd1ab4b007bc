/** Time-bounded pipeline leases: the stored row, the local deadline and the supervised job. */
module Leases {
  import opened Core
  import opened Checkpoint

  type Holder = nat

  datatype LeaseRow = LeaseRow(holder: Holder, token: nat, expires: nat)

  datatype StoreError = InvalidLeaseDuration

  /** A day in milliseconds, the longest lease the store accepts. */
  const MAX_TTL: nat := 86_400_000

  // ---- The store's three statements -----------------------------------------------------------

  /** Takes a missing or expired row, or one's own; every success issues the next token. */
  function Acquired(row: Option<LeaseRow>, holder: Holder, ttl: nat, now: nat): Option<LeaseRow> {
    match row
    case None => Some(LeaseRow(holder, 1, now + ttl))
    case Some(r) => if r.expires <= now || r.holder == holder then Some(LeaseRow(holder, r.token + 1, now + ttl)) else None
  }

  function Renewed(row: Option<LeaseRow>, holder: Holder, token: nat, ttl: nat, now: nat): Option<LeaseRow> {
    if row.Some? && row.value.holder == holder && row.value.token == token && row.value.expires > now
    then Some(row.value.(expires := now + ttl)) else None
  }

  /** Expires the row at once when holder and token still match. */
  function Released(row: Option<LeaseRow>, holder: Holder, token: nat, now: nat): Option<LeaseRow> {
    if row.Some? && row.value.holder == holder && row.value.token == token then Some(row.value.(expires := now)) else row
  }

  class LeaseStore {
    var rows: map<PipelineId, LeaseRow>

    constructor ()
      ensures rows == map[]
    {
      rows := map[];
    }

    function Row(pipeline: PipelineId): Option<LeaseRow>
      reads this
    {
      if pipeline in rows then Some(rows[pipeline]) else None
    }

    method TryAcquireLease(pipeline: PipelineId, holder: Holder, ttl: nat, now: nat)
      returns (lease: Result<Option<LeaseRow>, StoreError>)
      modifies this
      ensures lease.Err? <==> ttl == 0 || ttl > MAX_TTL
      ensures lease.Ok? ==> lease.value == Acquired(old(Row(pipeline)), holder, ttl, now)
      ensures lease.Ok? ==>
        (lease.value.Some? <==>
           pipeline !in old(rows) || old(rows)[pipeline].expires <= now || old(rows)[pipeline].holder == holder)
      ensures lease.Ok? && lease.value.Some? ==>
        lease.value.value == LeaseRow(holder, if pipeline in old(rows) then old(rows)[pipeline].token + 1 else 1, now + ttl)
      ensures rows == if lease.Ok? && lease.value.Some? then old(rows)[pipeline := lease.value.value] else old(rows)
    {
      if ttl == 0 || ttl > MAX_TTL { return Err(InvalidLeaseDuration); }
      if pipeline !in rows {
        rows := rows[pipeline := LeaseRow(holder, 1, now + ttl)];
      } else if rows[pipeline].expires <= now || rows[pipeline].holder == holder {
        rows := rows[pipeline := LeaseRow(holder, rows[pipeline].token + 1, now + ttl)];
      } else {
        return Ok(None);
      }
      return Ok(Some(rows[pipeline]));
    }

    method RenewLease(pipeline: PipelineId, holder: Holder, token: nat, ttl: nat, now: nat)
      returns (lease: Result<Option<LeaseRow>, StoreError>)
      modifies this
      ensures lease.Err? <==> ttl == 0 || ttl > MAX_TTL
      ensures lease.Ok? ==> lease.value == Renewed(old(Row(pipeline)), holder, token, ttl, now)
      ensures lease.Ok? ==>
        (lease.value.Some? <==>
           pipeline in old(rows) && old(rows)[pipeline].holder == holder && old(rows)[pipeline].token == token && old(rows)[pipeline].expires > now)
      ensures lease.Ok? && lease.value.Some? ==> lease.value.value == LeaseRow(holder, token, now + ttl)
      ensures rows == if lease.Ok? && lease.value.Some? then old(rows)[pipeline := lease.value.value] else old(rows)
    {
      if ttl == 0 || ttl > MAX_TTL { return Err(InvalidLeaseDuration); }
      if pipeline !in rows { return Ok(None); }
      var row := rows[pipeline];
      if row.holder != holder || row.token != token || row.expires <= now { return Ok(None); }
      rows := rows[pipeline := row.(expires := now + ttl)];
      return Ok(Some(rows[pipeline]));
    }

    method ReleaseLease(pipeline: PipelineId, holder: Holder, token: nat, now: nat)
      modifies this
      ensures Row(pipeline) == Released(old(Row(pipeline)), holder, token, now)
      ensures pipeline in old(rows) && old(rows)[pipeline].holder == holder && old(rows)[pipeline].token == token ==>
        Row(pipeline) == Some(LeaseRow(holder, token, now))
      ensures forall p | p != pipeline :: Row(p) == old(Row(p))
    {
      if pipeline in rows && rows[pipeline].holder == holder && rows[pipeline].token == token {
        rows := rows[pipeline := rows[pipeline].(expires := now)];
      }
    }
  }

  // ---- The local deadline ---------------------------------------------------------------------

  /** A reconciler's lease length and how long before expiry it stops by itself. */
  datatype Timing = Timing(ttl: nat, margin: nat)
  {
    predicate Valid() {
      0 < ttl <= MAX_TTL && 0 < margin <= ttl / 3
    }

    /** Counted from before the request was sent, so it can only be early. */
    function StopAt(started: nat): nat
      requires Valid()
    {
      started + ttl - margin
    }
  }

  class LeaseDeadlineGuard {
    const timing: Timing
    var deadline: nat
    var cancelled: bool

    constructor (timing: Timing, started: nat)
      requires timing.Valid()
      ensures this.timing == timing && deadline == timing.StopAt(started) && !cancelled
    {
      this.timing, deadline, cancelled := timing, timing.StopAt(started), false;
    }

    predicate Expired(now: nat)
      reads this
    {
      cancelled || now >= deadline
    }

    /** Never revives an expired guard, and reports failure when the new deadline has passed too. */
    method Rearm(started: nat, now: nat) returns (rearmed: bool)
      requires timing.Valid()
      modifies this`deadline
      ensures rearmed <==> !old(Expired(now)) && now < timing.StopAt(started)
      ensures deadline == if old(Expired(now)) then old(deadline) else timing.StopAt(started)
    {
      if Expired(now) { return false; }
      deadline := timing.StopAt(started);
      return !Expired(now);
    }
  }

  // ---- One pipeline, many reconcilers ---------------------------------------------------------

  datatype Request = AcquireRequest(holder: Holder) | RenewRequest(holder: Holder, token: nat) | ReleaseRequest(holder: Holder, token: nat)

  datatype Response = Granted(token: nat) | Refused

  /** What a reconciler is doing about the pipeline. A job exists only from `Owned` on, and `Stopping`
      waits until it has ended. */
  datatype Phase =
    | Idle
    | Acquiring(request: nat, started: nat)
    | Creating(token: nat, stopAt: nat)
    | Owned(token: nat, stopAt: nat)
    | Renewing(token: nat, stopAt: nat, request: nat, started: nat)
    | Stopping(token: nat, stopAt: nat)
  {
    predicate HasLease() {
      Creating? || Owned? || Renewing? || Stopping?
    }

    predicate Awaits(id: nat) {
      (Acquiring? || Renewing?) && request == id
    }
  }

  datatype Node = Node(timing: Timing, phase: Phase, job: bool)

  /** A request may be executed by the store at any time after it was sent, also when its sender has
      given up on it, or never. `issued` lists every token handed out, oldest first. */
  datatype World = World(now: nat, row: Option<LeaseRow>, requests: map<nat, Request>, responses: map<nat, Response>,
                         nextId: nat, nodes: map<Holder, Node>, issued: seq<nat>)

  datatype Step = SendAcquire | ReceiveAcquire | GiveUpAcquire | StartJob | AbandonStart | SendRenew | ReceiveRenew
    | LoseLease | JobEnds | Release | Crash

  datatype Action = TimePasses(elapsed: nat) | Execute(id: nat) | Take(node: Holder, step: Step)

  function SetPhase(w: World, h: Holder, phase: Phase): World
    requires h in w.nodes
  {
    w.(nodes := w.nodes[h := w.nodes[h].(phase := phase)])
  }

  function Send(w: World, request: Request): World {
    w.(requests := w.requests[w.nextId := request], nextId := w.nextId + 1)
  }

  /** The store executes one request in one statement, at its own present time. */
  function ExecuteRequest(w: World, id: nat): World
    requires id in w.requests
    requires w.requests[id].holder in w.nodes
  {
    var rest := w.requests - {id};
    var timing := w.nodes[w.requests[id].holder].timing;
    match w.requests[id]
    case AcquireRequest(h) =>
      (match Acquired(w.row, h, timing.ttl, w.now)
       case None => w.(requests := rest, responses := w.responses[id := Refused])
       case Some(row) => w.(requests := rest, responses := w.responses[id := Granted(row.token)], row := Some(row), issued := w.issued + [row.token]))
    case RenewRequest(h, token) =>
      (match Renewed(w.row, h, token, timing.ttl, w.now)
       case None => w.(requests := rest, responses := w.responses[id := Refused])
       case Some(row) => w.(requests := rest, responses := w.responses[id := Granted(row.token)], row := Some(row)))
    case ReleaseRequest(h, token) => w.(requests := rest, row := Released(w.row, h, token, w.now))
  }

  function ReceiveGrant(w: World, h: Holder): World
    requires h in w.nodes && w.nodes[h].phase.Acquiring? && w.nodes[h].timing.Valid()
    requires w.nodes[h].phase.request in w.responses
  {
    var phase, timing := w.nodes[h].phase, w.nodes[h].timing;
    match w.responses[phase.request]
    case Refused => SetPhase(w, h, Idle)
    case Granted(token) =>
      if w.now >= timing.StopAt(phase.started) then Send(SetPhase(w, h, Idle), ReleaseRequest(h, token))
      else SetPhase(w, h, Creating(token, timing.StopAt(phase.started)))
  }

  function ReceiveRenewal(w: World, h: Holder): World
    requires h in w.nodes && w.nodes[h].phase.Renewing? && w.nodes[h].timing.Valid()
    requires w.nodes[h].phase.request in w.responses
  {
    var phase, timing := w.nodes[h].phase, w.nodes[h].timing;
    match w.responses[phase.request]
    case Refused => SetPhase(w, h, Stopping(phase.token, phase.stopAt))
    case Granted(token) =>
      if w.now >= phase.stopAt then SetPhase(w, h, Stopping(phase.token, phase.stopAt))
      else if w.now >= timing.StopAt(phase.started) then SetPhase(w, h, Stopping(phase.token, timing.StopAt(phase.started)))
      else SetPhase(w, h, Owned(token, timing.StopAt(phase.started)))
  }

  /** Whether node `h` can take the step `a`. */
  predicate Possible(w: World, h: Holder, a: Step) {
    h in w.nodes &&
    var n := w.nodes[h];
    match a
    case SendAcquire => n.phase.Idle?
    case ReceiveAcquire => n.phase.Acquiring? && n.phase.request in w.responses
    case GiveUpAcquire => n.phase.Acquiring?
    case StartJob => n.phase.Creating?
    case AbandonStart => n.phase.Creating?
    case SendRenew => n.phase.Owned?
    case ReceiveRenew => n.phase.Renewing? && n.phase.request in w.responses
    case LoseLease => n.phase.Owned? || n.phase.Renewing?
    case JobEnds => n.job
    case Release => n.phase.Stopping? && !n.job
    case Crash => true
  }

  /** The steps of one node: an acquired lease is given back when the start is too late, a job is only
      started before its deadline, and a lease is released only after its job has ended. */
  function NodeStep(w: World, h: Holder, a: Step): World
    requires Possible(w, h, a) && w.nodes[h].timing.Valid()
  {
    var n := w.nodes[h];
    match a
    case SendAcquire => SetPhase(Send(w, AcquireRequest(h)), h, Acquiring(w.nextId, w.now))
    case ReceiveAcquire => ReceiveGrant(w, h)
    case GiveUpAcquire => SetPhase(w, h, Idle)
    case StartJob =>
      if w.now >= n.phase.stopAt || n.job then Send(SetPhase(w, h, Idle), ReleaseRequest(h, n.phase.token))
      else w.(nodes := w.nodes[h := n.(phase := Owned(n.phase.token, n.phase.stopAt), job := true)])
    case AbandonStart => Send(SetPhase(w, h, Idle), ReleaseRequest(h, n.phase.token))
    case SendRenew =>
      SetPhase(Send(w, RenewRequest(h, n.phase.token)), h, Renewing(n.phase.token, n.phase.stopAt, w.nextId, w.now))
    case ReceiveRenew => ReceiveRenewal(w, h)
    case LoseLease => SetPhase(w, h, Stopping(n.phase.token, n.phase.stopAt))
    case JobEnds => w.(nodes := w.nodes[h := n.(job := false)])
    case Release => Send(SetPhase(w, h, Idle), ReleaseRequest(h, n.phase.token))
    case Crash => w.(nodes := w.nodes[h := n.(phase := Idle, job := false)])
  }

  /** One step, or `None` when it is not possible. */
  function Act(w: World, a: Action): Option<World>
    requires forall h | h in w.nodes :: w.nodes[h].timing.Valid()
    requires forall id | id in w.requests :: w.requests[id].holder in w.nodes
  {
    match a
    case TimePasses(elapsed) => Some(w.(now := w.now + elapsed))
    case Execute(id) => if id in w.requests then Some(ExecuteRequest(w, id)) else None
    case Take(h, step) => if Possible(w, h, step) then Some(NodeStep(w, h, step)) else None
  }

  // ---- The invariant --------------------------------------------------------------------------

  /** The row is `h`'s and outlasts `stopAt`, as long as `stopAt` has not passed. */
  predicate Covers(w: World, h: Holder, stopAt: nat) {
    w.now < stopAt ==> w.row.Some? && w.row.value.holder == h && stopAt < w.row.value.expires
  }

  predicate TokenKnown(w: World, token: nat) {
    w.row.Some? && token <= w.row.value.token
  }

  /** No release on its way carries this token or a later one of the same holder. */
  ghost predicate NoRelease(w: World, h: Holder, token: nat) {
    forall id | id in w.requests && w.requests[id].ReleaseRequest? && w.requests[id].holder == h :: w.requests[id].token < token
  }

  ghost predicate LeaseOk(w: World, h: Holder, token: nat, stopAt: nat) {
    Covers(w, h, stopAt) && TokenKnown(w, token) && NoRelease(w, h, token)
  }

  ghost predicate NodeOk(w: World, h: Holder, n: Node) {
    && n.timing.Valid()
    && (n.job ==> n.phase.Owned? || n.phase.Renewing? || n.phase.Stopping?)
    && (n.phase.HasLease() ==> LeaseOk(w, h, n.phase.token, n.phase.stopAt) && n.phase.stopAt <= n.timing.StopAt(w.now))
    && (n.phase.Acquiring? || n.phase.Renewing? ==>
          && n.phase.started <= w.now && n.phase.request < w.nextId
          && (n.phase.request in w.requests ==>
                w.requests[n.phase.request] == if n.phase.Acquiring? then AcquireRequest(h) else RenewRequest(h, n.phase.token))
          && (n.phase.request in w.responses && w.responses[n.phase.request].Granted? ==>
                && n.phase.request !in w.requests
                && LeaseOk(w, h, w.responses[n.phase.request].token, n.timing.StopAt(n.phase.started))
                && (n.phase.Renewing? ==> w.responses[n.phase.request].token == n.phase.token)))
  }

  ghost predicate RequestsOk(w: World) {
    && (forall id | id in w.requests :: id < w.nextId && w.requests[id].holder in w.nodes && id !in w.responses
          && (!w.requests[id].AcquireRequest? ==> TokenKnown(w, w.requests[id].token)))
    && (forall id | id in w.responses :: id < w.nextId)
  }

  ghost predicate TokensOk(w: World) {
    && (forall i, j | 0 <= i < j < |w.issued| :: w.issued[i] < w.issued[j])
    && (if w.row.None? then w.issued == [] else w.issued != [] && w.issued[|w.issued| - 1] == w.row.value.token)
  }

  ghost predicate Inv(w: World) {
    && RequestsOk(w) && TokensOk(w)
    && (forall h | h in w.nodes :: NodeOk(w, h, w.nodes[h]))
    && (forall g, h, id | g in w.nodes && h in w.nodes && g != h :: !(w.nodes[g].phase.Awaits(id) && w.nodes[h].phase.Awaits(id)))
  }

  // ---- Each step keeps it ---------------------------------------------------------------------

  /** Nodes other than the sender are not disturbed by what it sends. */
  lemma SendKeepsOthers(w: World, request: Request, h: Holder, n: Node)
    requires RequestsOk(w) && NodeOk(w, h, n) && request.holder != h
    ensures NodeOk(Send(w, request), h, n)
  {
    var next := Send(w, request);
    assert w.nextId !in w.requests && w.nextId !in w.responses;
  }

  lemma TimeKeeps(w: World, elapsed: nat)
    requires Inv(w)
    ensures Inv(w.(now := w.now + elapsed))
  {
    var next := w.(now := w.now + elapsed);
    forall h | h in w.nodes ensures NodeOk(next, h, w.nodes[h]) {
      assert NodeOk(w, h, w.nodes[h]);
    }
  }

  /** What one executed request may do to the row, as a node with a lease sees it. */
  lemma ExecutionCovers(w: World, id: nat, h: Holder, token: nat, stopAt: nat)
    requires RequestsOk(w) && id in w.requests && h in w.nodes
    requires LeaseOk(w, h, token, stopAt) && w.nodes[h].timing.Valid() && stopAt <= w.nodes[h].timing.StopAt(w.now)
    requires w.requests[id].holder in w.nodes && w.nodes[w.requests[id].holder].timing.Valid()
    ensures LeaseOk(ExecuteRequest(w, id), h, token, stopAt)
  {
    var next := ExecuteRequest(w, id);
    assert NoRelease(next, h, token);
    match w.requests[id]
    case ReleaseRequest(g, t) => assert g == h ==> t < token;
    case _ =>
  }

  lemma ExecuteKeepsNode(w: World, id: nat, h: Holder)
    requires Inv(w) && id in w.requests && h in w.nodes
    ensures NodeOk(ExecuteRequest(w, id), h, w.nodes[h])
  {
    var n, next := w.nodes[h], ExecuteRequest(w, id);
    assert NodeOk(w, h, n);
    var g := w.requests[id].holder;
    assert NodeOk(w, g, w.nodes[g]);
    if n.phase.HasLease() { ExecutionCovers(w, id, h, n.phase.token, n.phase.stopAt); }
    if n.phase.Acquiring? || n.phase.Renewing? {
      if n.phase.request == id {
        GrantCovers(w, id, h);
      } else if n.phase.request in w.responses && w.responses[n.phase.request].Granted? {
        ExecutionCovers(w, id, h, w.responses[n.phase.request].token, n.timing.StopAt(n.phase.started));
      }
    }
    hide LeaseOk, RequestsOk, TokensOk;
  }

  /** A grant covers the deadline counted from before the request was sent. */
  lemma GrantCovers(w: World, id: nat, h: Holder)
    requires Inv(w) && id in w.requests && h in w.nodes && w.nodes[h].phase.Awaits(id)
    ensures w.requests[id].holder == h
    ensures var next, n := ExecuteRequest(w, id), w.nodes[h];
      id in next.responses && id !in next.requests &&
      (next.responses[id].Granted? ==>
         && LeaseOk(next, h, next.responses[id].token, n.timing.StopAt(n.phase.started))
         && (n.phase.Renewing? ==> next.responses[id].token == n.phase.token))
  {
    var n := w.nodes[h];
    assert NodeOk(w, h, n);
    var next := ExecuteRequest(w, id);
    if next.responses[id].Granted? {
      assert NoRelease(next, h, next.responses[id].token);
    }
  }

  lemma ExecuteKeeps(w: World, id: nat)
    requires Inv(w) && id in w.requests
    ensures Inv(ExecuteRequest(w, id))
  {
    var next := ExecuteRequest(w, id);
    assert RequestsOk(next);
    assert TokensOk(next);
    forall h | h in w.nodes ensures NodeOk(next, h, w.nodes[h]) { ExecuteKeepsNode(w, id, h); }
    hide RequestsOk, TokensOk, NodeOk;
  }

  /** A step of one node: the row and the clock stay, at most one request of its own is sent. */
  lemma NodeStepFrame(w: World, h: Holder, a: Step)
    requires Possible(w, h, a) && w.nodes[h].timing.Valid()
    ensures var next := NodeStep(w, h, a);
      && h in next.nodes && next.nodes == w.nodes[h := next.nodes[h]] && next.nodes[h].timing == w.nodes[h].timing
      && (next == w.(nodes := next.nodes) ||
          exists r: Request | r.holder == h :: next == Send(w, r).(nodes := next.nodes))
  {
    var next, n := NodeStep(w, h, a), w.nodes[h];
    match a
    case SendAcquire => assert next == Send(w, AcquireRequest(h)).(nodes := next.nodes);
    case SendRenew => assert next == Send(w, RenewRequest(h, n.phase.token)).(nodes := next.nodes);
    case StartJob => assert w.now >= n.phase.stopAt || n.job ==> next == Send(w, ReleaseRequest(h, n.phase.token)).(nodes := next.nodes);
    case AbandonStart => assert next == Send(w, ReleaseRequest(h, n.phase.token)).(nodes := next.nodes);
    case Release => assert next == Send(w, ReleaseRequest(h, n.phase.token)).(nodes := next.nodes);
    case ReceiveAcquire =>
      if w.responses[n.phase.request].Granted? && w.now >= n.timing.StopAt(n.phase.started) {
        assert next == Send(w, ReleaseRequest(h, w.responses[n.phase.request].token)).(nodes := next.nodes);
      }
    case _ =>
  }

  lemma OthersKeep(w: World, h: Holder, a: Step, o: Holder)
    requires Inv(w) && Possible(w, h, a) && w.nodes[h].timing.Valid() && o in w.nodes && o != h
    ensures NodeOk(NodeStep(w, h, a), o, w.nodes[o])
  {
    NodeStepFrame(w, h, a);
    var next, n := NodeStep(w, h, a), w.nodes[o];
    assert NodeOk(w, o, n);
    hide NodeStep, TokensOk;
    if next != w.(nodes := next.nodes) {
      var r: Request :| r.holder == h && next == Send(w, r).(nodes := next.nodes);
      SendKeepsOthers(w, r, o, n);
      NodesDoNotMatter(Send(w, r), next.nodes, o, n);
    } else {
      NodesDoNotMatter(w, next.nodes, o, n);
    }
  }

  lemma NodesDoNotMatter(w: World, nodes: map<Holder, Node>, h: Holder, n: Node)
    requires NodeOk(w, h, n)
    ensures NodeOk(w.(nodes := nodes), h, n)
  {
  }

  lemma SelfNode(w: World, h: Holder, a: Step)
    requires RequestsOk(w) && Possible(w, h, a) && NodeOk(w, h, w.nodes[h])
    ensures NodeOk(NodeStep(w, h, a), h, NodeStep(w, h, a).nodes[h])
  {
    var n := w.nodes[h];
    assert w.nextId !in w.requests && w.nextId !in w.responses;
    match a
    case SendAcquire =>
    case SendRenew => hide RequestsOk; assert NoRelease(NodeStep(w, h, a), h, n.phase.token);
    case ReceiveAcquire => hide RequestsOk;
    case ReceiveRenew => hide RequestsOk;
    case _ => hide RequestsOk;
  }

  lemma SendsKnownToken(w: World, request: Request)
    requires RequestsOk(w) && request.holder in w.nodes && (!request.AcquireRequest? ==> TokenKnown(w, request.token))
    ensures RequestsOk(Send(w, request))
  {
  }

  lemma SelfRequests(w: World, h: Holder, a: Step)
    requires RequestsOk(w) && Possible(w, h, a) && NodeOk(w, h, w.nodes[h])
    ensures RequestsOk(NodeStep(w, h, a))
  {
    var n, next := w.nodes[h], NodeStep(w, h, a);
    match a {
      case SendAcquire => SendsKnownToken(w, AcquireRequest(h));
      case SendRenew => SendsKnownToken(w, RenewRequest(h, n.phase.token));
      case StartJob => SendsKnownToken(w, ReleaseRequest(h, n.phase.token));
      case AbandonStart => SendsKnownToken(w, ReleaseRequest(h, n.phase.token));
      case Release => SendsKnownToken(w, ReleaseRequest(h, n.phase.token));
      case ReceiveAcquire =>
        if w.responses[n.phase.request].Granted? { SendsKnownToken(w, ReleaseRequest(h, w.responses[n.phase.request].token)); }
      case _ =>
    }
  }

  lemma NodeStepKeeps(w: World, h: Holder, a: Step)
    requires Inv(w) && Possible(w, h, a) && w.nodes[h].timing.Valid()
    ensures Inv(NodeStep(w, h, a))
  {
    SelfNode(w, h, a);
    SelfRequests(w, h, a);
    NodeStepFrame(w, h, a);
    var next := NodeStep(w, h, a);
    forall o | o in w.nodes && o != h ensures NodeOk(next, o, next.nodes[o]) { OthersKeep(w, h, a, o); }
    AwaitsFresh(w, h, a);
    assert TokensOk(next);
    hide NodeStep, NodeOk, RequestsOk, TokensOk;
  }

  lemma AwaitsFresh(w: World, h: Holder, a: Step)
    requires Inv(w) && Possible(w, h, a) && w.nodes[h].timing.Valid()
    ensures var next := NodeStep(w, h, a);
      forall o, id | o in w.nodes && o != h :: !(w.nodes[o].phase.Awaits(id) && next.nodes[h].phase.Awaits(id))
  {
    var next := NodeStep(w, h, a);
    forall o, id | o in w.nodes && o != h ensures !(w.nodes[o].phase.Awaits(id) && next.nodes[h].phase.Awaits(id)) {
      assert NodeOk(w, o, w.nodes[o]);
    }
  }

  // ---- Every run ------------------------------------------------------------------------------

  lemma InvAllowsActing(w: World)
    requires Inv(w)
    ensures forall h | h in w.nodes :: w.nodes[h].timing.Valid()
    ensures forall id | id in w.requests :: w.requests[id].holder in w.nodes
  {
    forall h | h in w.nodes ensures w.nodes[h].timing.Valid() { assert NodeOk(w, h, w.nodes[h]); }
  }

  function Run(w: World, actions: seq<Action>): (r: Option<World>)
    requires Inv(w)
    decreases |actions|
  {
    InvAllowsActing(w);
    if actions == [] then Some(w)
    else match Act(w, actions[0])
      case None => None
      case Some(next) => (ActKeepsInv(w, actions[0]); Run(next, actions[1..]))
  }

  lemma ActKeepsInv(w: World, a: Action)
    requires Inv(w)
    ensures (forall h | h in w.nodes :: w.nodes[h].timing.Valid()) && (forall id | id in w.requests :: w.requests[id].holder in w.nodes)
    ensures Act(w, a).Some? ==> Inv(Act(w, a).value)
    ensures Act(w, a).Some? ==> w.now <= Act(w, a).value.now && w.issued <= Act(w, a).value.issued
  {
    InvAllowsActing(w);
    hide Inv, NodeStep, ExecuteRequest, Possible;
    match a {
      case TimePasses(elapsed) => TimeKeeps(w, elapsed);
      case Execute(id) => if id in w.requests { ExecuteKeeps(w, id); ExecuteIssues(w, id); }
      case Take(h, step) =>
        if Possible(w, h, step) {
          NodeStepKeeps(w, h, step);
          NodeStepIssuesNothing(w, h, step);
        }
    }
  }

  lemma NodeStepIssuesNothing(w: World, h: Holder, a: Step)
    requires Possible(w, h, a) && w.nodes[h].timing.Valid()
    ensures NodeStep(w, h, a).now == w.now && NodeStep(w, h, a).issued == w.issued
  {
  }

  lemma ExecuteIssues(w: World, id: nat)
    requires id in w.requests && w.requests[id].holder in w.nodes
    ensures w.issued <= ExecuteRequest(w, id).issued && ExecuteRequest(w, id).now == w.now
  {
  }

  /** Nothing stored, nothing sent, nobody working. */
  ghost predicate Fresh(w: World) {
    && w.row.None? && w.requests == map[] && w.responses == map[] && w.issued == []
    && (forall h | h in w.nodes :: w.nodes[h].timing.Valid() && w.nodes[h].phase.Idle? && !w.nodes[h].job)
  }

  lemma FreshIsInv(w: World)
    requires Fresh(w)
    ensures Inv(w)
  {
  }

  predicate Working(w: World, h: Holder) {
    h in w.nodes && w.nodes[h].job && w.nodes[h].phase.HasLease() && w.now < w.nodes[h].phase.stopAt
  }

  lemma {:induction false} RunsKeepInv(w: World, actions: seq<Action>)
    requires Inv(w)
    ensures Run(w, actions).Some? ==> Inv(Run(w, actions).value) && w.issued <= Run(w, actions).value.issued
    decreases |actions|
  {
    hide Inv, Act;
    InvAllowsActing(w);
    if actions != [] {
      ActKeepsInv(w, actions[0]);
      if Act(w, actions[0]).Some? { RunsKeepInv(Act(w, actions[0]).value, actions[1..]); }
    }
  }

  /** In every run two holders are never at work at once, a job always has a lease with a deadline, and
      the deadline of whoever works precedes the expiry of its own stored row. */
  lemma NeverTwoAtWork(w: World, actions: seq<Action>, g: Holder, h: Holder)
    requires Fresh(w)
    ensures Inv(w)
    ensures Run(w, actions).Some? ==>
      var e := Run(w, actions).value;
      && (Working(e, g) && Working(e, h) ==> g == h)
      && (h in e.nodes && e.nodes[h].job ==> e.nodes[h].phase.HasLease())
      && (Working(e, h) ==> e.row.Some? && e.row.value.holder == h && e.nodes[h].phase.stopAt < e.row.value.expires)
  {
    FreshIsInv(w);
    RunsKeepInv(w, actions);
    if Run(w, actions).Some? {
      var e := Run(w, actions).value;
      hide Run;
      if g in e.nodes { assert NodeOk(e, g, e.nodes[g]); }
      if h in e.nodes { assert NodeOk(e, h, e.nodes[h]); }
    }
  }

  /** Tokens handed out for the pipeline strictly increase over every run, whatever expires, is
      released, renewed or taken over, and no lease in use carries a token that was not handed out. */
  lemma TokensStrictlyIncrease(w: World, actions: seq<Action>)
    requires Fresh(w)
    ensures Inv(w)
    ensures Run(w, actions).Some? ==>
      var e := Run(w, actions).value;
      && (forall i, j | 0 <= i < j < |e.issued| :: e.issued[i] < e.issued[j])
      && (e.row.Some? ==> e.issued != [] && e.row.value.token == e.issued[|e.issued| - 1])
      && (forall h | h in e.nodes && e.nodes[h].phase.HasLease() :: e.issued != [] && e.nodes[h].phase.token <= e.issued[|e.issued| - 1])
  {
    FreshIsInv(w);
    RunsKeepInv(w, actions);
    if Run(w, actions).Some? {
      var e := Run(w, actions).value;
      hide Run, RequestsOk;
      forall h | h in e.nodes && e.nodes[h].phase.HasLease() ensures TokenKnown(e, e.nodes[h].phase.token) {
        assert NodeOk(e, h, e.nodes[h]);
      }
    }
  }
}
