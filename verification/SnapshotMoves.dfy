/** A list of renames executed one after another inside one transaction. */
module SnapshotMoves {
  import opened Core
  import opened Manifest
  import opened Snapshot

  predicate Leaves(moves: seq<Move>, name: QualifiedName) {
    exists i | 0 <= i < |moves| :: moves[i].source == name
  }

  predicate Arrives(moves: seq<Move>, name: QualifiedName) {
    exists i | 0 <= i < |moves| :: moves[i].destination == name
  }

  predicate Logs(moves: seq<Move>, request: ActivationRequest, k: LogKey) {
    exists i | 0 <= i < |moves| :: moves[i].reason.Some? && (request.groupId, moves[i].source) == k
  }

  /** Every relation moved exists and moves once; a destination is free, or an earlier move freed it. */
  ghost predicate Legal(t: Target, request: ActivationRequest, moves: seq<Move>) {
    && t.managed.Keys <= t.relations.Keys
    && (forall i | 0 <= i < |moves| :: moves[i].source in t.managed)
    && (forall i, j | 0 <= i < j < |moves| :: moves[i].source != moves[j].source && moves[i].destination != moves[j].destination)
    && (forall i, j | 0 <= i <= j < |moves| :: moves[i].destination != moves[j].source)
    && (forall i | 0 <= i < |moves| && moves[i].destination in t.relations :: Leaves(moves[..i], moves[i].destination))
    && (forall i | 0 <= i < |moves| && moves[i].reason.Some? :: (request.groupId, moves[i].source) !in t.log)
  }

  /** What neither leaves nor arrives stays as it is; what leaves is gone. */
  ghost predicate RestKept<V>(before: map<QualifiedName, V>, moves: seq<Move>, after: map<QualifiedName, V>) {
    forall n | !Arrives(moves, n) :: (n in after <==> n in before && !Leaves(moves, n)) && (n in after ==> after[n] == before[n])
  }

  ghost predicate MovedRelations(before: map<QualifiedName, nat>, moves: seq<Move>, after: map<QualifiedName, nat>) {
    && (forall i | 0 <= i < |moves| :: moves[i].source in before && moves[i].destination in after
          && after[moves[i].destination] == before[moves[i].source])
    && RestKept(before, moves, after)
  }

  ghost predicate MovedRows(before: map<QualifiedName, Record>, moves: seq<Move>, after: map<QualifiedName, Record>) {
    && (forall i | 0 <= i < |moves| :: moves[i].source in before && moves[i].destination in after
          && after[moves[i].destination] == moves[i].record)
    && RestKept(before, moves, after)
  }

  ghost predicate MovedLog(t: Target, request: ActivationRequest, moves: seq<Move>, after: map<LogKey, LogEntry>) {
    && (forall i | 0 <= i < |moves| :: moves[i].source in t.managed)
    && (forall i | 0 <= i < |moves| && moves[i].reason.Some? ::
          (request.groupId, moves[i].source) in after
          && after[(request.groupId, moves[i].source)] == LogEntryFor(t, request, moves[i], t.managed[moves[i].source]))
    && (forall k | !Logs(moves, request, k) :: k in after <==> k in t.log)
    && (forall k | !Logs(moves, request, k) && k in after :: after[k] == t.log[k])
  }

  /** All moves at once: everything that moved is under its new name, the rest is where it was. */
  ghost predicate Moved(t: Target, request: ActivationRequest, moves: seq<Move>, r: Target) {
    && r == t.(relations := r.relations, managed := r.managed, log := r.log)
    && MovedRelations(t.relations, moves, r.relations) && MovedRows(t.managed, moves, r.managed) && MovedLog(t, request, moves, r.log)
  }

  lemma LeavesSplit(moves: seq<Move>, n: QualifiedName)
    requires moves != []
    ensures var k := |moves| - 1;
      && (Leaves(moves, n) <==> Leaves(moves[..k], n) || moves[k].source == n)
      && (Arrives(moves, n) <==> Arrives(moves[..k], n) || moves[k].destination == n)
  {
    var k := |moves| - 1;
    assert forall i | 0 <= i < k :: moves[..k][i] == moves[i];
    if Leaves(moves[..k], n) { var i :| 0 <= i < k && moves[..k][i].source == n; assert moves[i].source == n; }
    if Arrives(moves[..k], n) { var i :| 0 <= i < k && moves[..k][i].destination == n; assert moves[i].destination == n; }
    if Leaves(moves, n) && moves[k].source != n { var i :| 0 <= i < |moves| && moves[i].source == n; assert moves[..k][i].source == n; }
    if Arrives(moves, n) && moves[k].destination != n { var i :| 0 <= i < |moves| && moves[i].destination == n; assert moves[..k][i].destination == n; }
  }

  lemma LogsSplit(moves: seq<Move>, request: ActivationRequest, key: LogKey)
    requires moves != []
    ensures var k := |moves| - 1;
      Logs(moves, request, key) <==> Logs(moves[..k], request, key) || (moves[k].reason.Some? && (request.groupId, moves[k].source) == key)
  {
    var k := |moves| - 1;
    assert forall i | 0 <= i < k :: moves[..k][i] == moves[i];
    if Logs(moves[..k], request, key) {
      var i :| 0 <= i < k && moves[..k][i].reason.Some? && (request.groupId, moves[..k][i].source) == key;
      assert moves[i].reason.Some?;
    }
    if Logs(moves, request, key) && !(moves[k].reason.Some? && (request.groupId, moves[k].source) == key) {
      var i :| 0 <= i < |moves| && moves[i].reason.Some? && (request.groupId, moves[i].source) == key;
      assert moves[..k][i].reason.Some?;
    }
  }

  lemma LegalPrefix(t: Target, request: ActivationRequest, moves: seq<Move>)
    requires Legal(t, request, moves) && moves != []
    ensures Legal(t, request, moves[..|moves| - 1])
  {
    var k := |moves| - 1;
    forall i | 0 <= i < k && moves[..k][i].destination in t.relations ensures Leaves(moves[..k][..i], moves[..k][i].destination) {
      assert moves[..k][..i] == moves[..i];
      assert moves[..k][i] == moves[i];
    }
  }

  /** Legal moves all succeed, and come to what moving everything at once would. */
  lemma {:induction false} LegalMovesSucceed(t: Target, request: ActivationRequest, moves: seq<Move>)
    requires Legal(t, request, moves)
    ensures ApplyMoves(t, request, moves).Ok? && Moved(t, request, moves, ApplyMoves(t, request, moves).value)
    decreases |moves|
  {
    if moves == [] {
      assert forall n :: !Arrives(moves, n) && !Leaves(moves, n);
    } else {
      var k := |moves| - 1;
      LegalPrefix(t, request, moves);
      LegalMovesSucceed(t, request, moves[..k]);
      LastMove(t, request, moves, ApplyMoves(t, request, moves[..k]).value);
    }
  }

  lemma LastMovePossible(t: Target, request: ActivationRequest, moves: seq<Move>, mid: Target)
    requires Legal(t, request, moves) && moves != [] && Moved(t, request, moves[..|moves| - 1], mid)
    ensures ApplyMove(mid, request, moves[|moves| - 1]).Ok?
    ensures moves[|moves| - 1].source in t.managed && moves[|moves| - 1].source in t.relations
    ensures mid.managed[moves[|moves| - 1].source] == t.managed[moves[|moves| - 1].source]
    ensures mid.relations[moves[|moves| - 1].source] == t.relations[moves[|moves| - 1].source]
    ensures !Arrives(moves[..|moves| - 1], moves[|moves| - 1].destination)
  {
    var k := |moves| - 1;
    var m := moves[k];
    assert forall i | 0 <= i < k :: moves[..k][i] == moves[i];
    assert !Arrives(moves[..k], m.source) && !Leaves(moves[..k], m.source);
    assert !Arrives(moves[..k], m.destination);
    assert m.destination in t.relations ==> Leaves(moves[..k], m.destination);
    assert m.destination !in mid.relations && m.destination !in mid.managed;
    if m.reason.Some? {
      assert !Logs(moves[..k], request, (request.groupId, m.source));
    }
  }

  /** The last move is apart from those before it. */
  ghost predicate Apart(moves: seq<Move>, m: Move) {
    forall i | 0 <= i < |moves| :: moves[i].destination != m.source && moves[i].destination != m.destination && moves[i].source != m.source
  }

  lemma OneMoreRest<V>(before: map<QualifiedName, V>, moves: seq<Move>, mid: map<QualifiedName, V>, m: Move, v: V)
    requires RestKept(before, moves, mid)
    ensures RestKept(before, moves + [m], (mid - {m.source})[m.destination := v])
  {
    var all, after := moves + [m], (mid - {m.source})[m.destination := v];
    assert all[..|all| - 1] == moves && all[|all| - 1] == m;
    hide Leaves, Arrives;
    forall n | !Arrives(all, n)
      ensures n in after <==> n in before && !Leaves(all, n)
      ensures n in after ==> after[n] == before[n]
    {
      LeavesSplit(all, n);
    }
  }

  lemma OneMoreRelation(before: map<QualifiedName, nat>, moves: seq<Move>, mid: map<QualifiedName, nat>, m: Move)
    requires MovedRelations(before, moves, mid) && Apart(moves, m) && m.source in mid && m.source in before && mid[m.source] == before[m.source]
    ensures MovedRelations(before, moves + [m], (mid - {m.source})[m.destination := mid[m.source]])
  {
    var all, after := moves + [m], (mid - {m.source})[m.destination := mid[m.source]];
    OneMoreRest(before, moves, mid, m, mid[m.source]);
    hide RestKept;
    forall i | 0 <= i < |all|
      ensures all[i].source in before && all[i].destination in after && after[all[i].destination] == before[all[i].source]
    {
      if i < |moves| { assert all[i] == moves[i]; } else { assert all[i] == m; }
    }
  }

  lemma OneMoreRow(before: map<QualifiedName, Record>, moves: seq<Move>, mid: map<QualifiedName, Record>, m: Move)
    requires MovedRows(before, moves, mid) && Apart(moves, m) && m.source in before
    ensures MovedRows(before, moves + [m], (mid - {m.source})[m.destination := m.record])
  {
    var all, after := moves + [m], (mid - {m.source})[m.destination := m.record];
    OneMoreRest(before, moves, mid, m, m.record);
    hide RestKept;
    forall i | 0 <= i < |all|
      ensures all[i].source in before && all[i].destination in after && after[all[i].destination] == all[i].record
    {
      if i < |moves| { assert all[i] == moves[i]; } else { assert all[i] == m; }
    }
  }

  lemma OneMoreLogged(t: Target, request: ActivationRequest, moves: seq<Move>, mid: map<LogKey, LogEntry>, m: Move)
    requires MovedLog(t, request, moves, mid) && Apart(moves, m) && m.source in t.managed
    ensures MovedLog(t, request, moves + [m],
      if m.reason.Some? then mid[(request.groupId, m.source) := LogEntryFor(t, request, m, t.managed[m.source])] else mid)
  {
    var all := moves + [m];
    assert all[..|all| - 1] == moves && all[|all| - 1] == m;
    forall key ensures Logs(all, request, key) <==> Logs(moves, request, key) || (m.reason.Some? && (request.groupId, m.source) == key) {
      LogsSplit(all, request, key);
    }
    hide Logs;
  }

  lemma LastMove(t: Target, request: ActivationRequest, moves: seq<Move>, mid: Target)
    requires Legal(t, request, moves) && moves != [] && Moved(t, request, moves[..|moves| - 1], mid)
    ensures ApplyMove(mid, request, moves[|moves| - 1]).Ok?
    ensures Moved(t, request, moves, ApplyMove(mid, request, moves[|moves| - 1]).value)
  {
    var k := |moves| - 1;
    var init, m := moves[..k], moves[k];
    LastMovePossible(t, request, moves, mid);
    assert Apart(init, m) by { assert forall i | 0 <= i < k :: init[i] == moves[i]; }
    hide Legal, MovedRelations, MovedRows, MovedLog, Apart;
    assert init + [m] == moves;
    OneMoreRelation(t.relations, init, mid.relations, m);
    OneMoreRow(t.managed, init, mid.managed, m);
    OneMoreLogged(t, request, init, mid.log, m);
    assert mid.now == t.now;
  }
}
