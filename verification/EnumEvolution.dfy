/** Planning how an existing enum type becomes the desired one, label by label. */
module EnumEvolution {
  import opened Core

  type Labels = seq<string>

  datatype Alteration = AddBefore(added: string, before: string) | Append(appended: string) | Rename(replaced: string, replacement: string)

  datatype EvolutionError = ReorderingUnsupported | EvolutionUnsupported

  // ---- What the alterations do ----------------------------------------------------------------

  /** One `ALTER TYPE` on a duplicate-free label list; `None` when the server refuses it. */
  function Alter(labels: Labels, a: Alteration): Option<Labels> {
    match a
    case AddBefore(added, before) =>
      if added in labels || before !in labels then None
      else
        var i := IndexOf(labels, before);
        Some(labels[..i] + [added] + labels[i..])
    case Append(added) => if added in labels then None else Some(labels + [added])
    case Rename(old_, new_) => if old_ !in labels || new_ in labels then None else Some(labels[IndexOf(labels, old_) := new_])
  }

  function AlterAll(labels: Labels, alterations: seq<Alteration>): Option<Labels>
    decreases |alterations|
  {
    if alterations == [] then Some(labels)
    else match Alter(labels, alterations[0])
      case None => None
      case Some(next) => AlterAll(next, alterations[1..])
  }

  // ---- The planner ----------------------------------------------------------------------------

  /** Greedy search for `existing` inside `desired`, in order. */
  predicate FoundInOrder(existing: Labels, desired: Labels)
    decreases |desired|
  {
    if existing == [] then true
    else if desired == [] then false
    else if existing[0] == desired[0] then FoundInOrder(existing[1..], desired[1..])
    else FoundInOrder(existing, desired[1..])
  }

  predicate FreshRenames(existing: Labels, desired: Labels) {
    |existing| == |desired| && forall i | 0 <= i < |existing| :: existing[i] == desired[i] || desired[i] !in existing
  }

  function Renames(existing: Labels, desired: Labels): seq<Alteration>
    requires |existing| == |desired|
  {
    if existing == [] then []
    else (if existing[0] == desired[0] then [] else [Rename(existing[0], desired[0])]) + Renames(existing[1..], desired[1..])
  }

  /** The insertions that turn `current`, which already agrees up to `position`, into `desired`. */
  function Insertions(current: Labels, desired: Labels, position: nat): Result<seq<Alteration>, EvolutionError>
    requires position <= |desired| && position <= |current|
    decreases |desired| - position
  {
    if position == |desired| then Ok([])
    else if position < |current| && current[position] == desired[position] then Insertions(current, desired, position + 1)
    else if desired[position] in current then Err(ReorderingUnsupported)
    else
      var step := if position < |current| then AddBefore(desired[position], current[position]) else Append(desired[position]);
      match Insertions(current[..position] + [desired[position]] + current[position..], desired, position + 1)
      case Err(e) => Err(e)
      case Ok(rest) => Ok([step] + rest)
  }

  function PlanEvolution(existing: Labels, desired: Labels): Result<seq<Alteration>, EvolutionError> {
    if existing == desired then Ok([])
    else if FoundInOrder(existing, desired) then Insertions(existing, desired, 0)
    else if FreshRenames(existing, desired) then Ok(Renames(existing, desired))
    else Err(EvolutionUnsupported)
  }

  function Joined(done: seq<Alteration>, rest: Result<seq<Alteration>, EvolutionError>): Result<seq<Alteration>, EvolutionError> {
    match rest case Ok(more) => Ok(done + more) case Err(e) => Err(e)
  }

  /** The planner as it runs: search with a moving position, then insert into a working copy. */
  method Plan(existing: Labels, desired: Labels) returns (plan: Result<seq<Alteration>, EvolutionError>)
    ensures plan == PlanEvolution(existing, desired)
  {
    if existing == desired { return Ok([]); }
    var found := FindInOrder(existing, desired);
    if found {
      var current, alterations: seq<Alteration> := existing, [];
      assert Joined([], Insertions(existing, desired, 0)) == Insertions(existing, desired, 0) by {
        if Insertions(existing, desired, 0).Ok? { assert [] + Insertions(existing, desired, 0).value == Insertions(existing, desired, 0).value; }
      }
      var position := 0;
      while position < |desired|
        invariant position <= |desired| && position <= |current|
        invariant Insertions(existing, desired, 0) == Joined(alterations, Insertions(current, desired, position))
      {
        var wanted := desired[position];
        if !(position < |current| && current[position] == wanted) {
          if wanted in current { return Err(ReorderingUnsupported); }
          var step := if position < |current| then AddBefore(wanted, current[position]) else Append(wanted);
          ghost var rest := Insertions(current[..position] + [wanted] + current[position..], desired, position + 1);
          if rest.Ok? { assert alterations + ([step] + rest.value) == alterations + [step] + rest.value; }
          alterations := alterations + [step];
          current := current[..position] + [wanted] + current[position..];
        }
        position := position + 1;
      }
      assert alterations + [] == alterations;
      return Ok(alterations);
    }
    if FreshRenames(existing, desired) { return Ok(Renames(existing, desired)); }
    return Err(EvolutionUnsupported);
  }

  method FindInOrder(existing: Labels, desired: Labels) returns (found: bool)
    ensures found == FoundInOrder(existing, desired)
  {
    var i, position := 0, 0;
    while i < |existing|
      invariant i <= |existing| && position <= |desired|
      invariant FoundInOrder(existing, desired) == FoundInOrder(existing[i..], desired[position..])
    {
      while position < |desired| && desired[position] != existing[i]
        invariant position <= |desired|
        invariant FoundInOrder(existing, desired) == FoundInOrder(existing[i..], desired[position..])
      {
        assert desired[position..][1..] == desired[position + 1..];
        position := position + 1;
      }
      if position == |desired| { return false; }
      assert desired[position..][1..] == desired[position + 1..] && existing[i..][1..] == existing[i + 1..];
      i, position := i + 1, position + 1;
    }
    return true;
  }

  // ---- Subsequences, independently of the search ----------------------------------------------

  /** `existing` picked out of `desired` at strictly increasing places. */
  ghost predicate Picks(existing: Labels, desired: Labels, places: seq<nat>) {
    && |places| == |existing|
    && (forall i | 0 <= i < |places| :: places[i] < |desired| && desired[places[i]] == existing[i])
    && (forall i, j | 0 <= i < j < |places| :: places[i] < places[j])
  }

  lemma {:induction false} FoundMeansPicks(existing: Labels, desired: Labels) returns (places: seq<nat>)
    requires FoundInOrder(existing, desired)
    ensures Picks(existing, desired, places)
    decreases |desired|
  {
    if existing == [] {
      places := [];
    } else if existing[0] == desired[0] {
      var rest := FoundMeansPicks(existing[1..], desired[1..]);
      places := [0] + seq(|rest|, i requires 0 <= i < |rest| => rest[i] + 1);
    } else {
      var rest := FoundMeansPicks(existing, desired[1..]);
      places := seq(|rest|, i requires 0 <= i < |rest| => rest[i] + 1);
    }
  }

  lemma {:induction false} PicksMeansFound(existing: Labels, desired: Labels, places: seq<nat>)
    requires Picks(existing, desired, places)
    ensures FoundInOrder(existing, desired)
    decreases |desired|
  {
    if existing != [] {
      assert desired[places[0]] == existing[0];
      if existing[0] == desired[0] {
        var rest := seq(|places| - 1, i requires 0 <= i < |places| - 1 => places[i + 1] - 1);
        PicksMeansFound(existing[1..], desired[1..], rest);
      } else {
        var rest := seq(|places|, i requires 0 <= i < |places| => places[i] - 1);
        PicksMeansFound(existing, desired[1..], rest);
      }
    }
  }

  // ---- The plan works -------------------------------------------------------------------------

  /** The working copy agrees with `desired` up to `position` and is still picked out of it. */
  ghost predicate Aligned(current: Labels, desired: Labels, position: nat, places: seq<nat>) {
    && position <= |current| && position <= |desired| && Distinct(current) && Distinct(desired)
    && Picks(current, desired, places)
    && (forall i | 0 <= i < position :: places[i] == i)
  }

  /** The label wanted next is not yet there, and what follows was picked from beyond it. */
  lemma MissingLabel(current: Labels, desired: Labels, position: nat, places: seq<nat>)
    requires Aligned(current, desired, position, places) && position < |desired|
    requires position < |current| ==> current[position] != desired[position]
    ensures desired[position] !in current
    ensures forall i | position <= i < |places| :: places[i] > position
  {
    forall i | position <= i < |current| ensures places[i] > position {
      PlacesAtLeast(places, position);
      if position < i { assert places[position] < places[i]; }
    }
    forall i | 0 <= i < |current| ensures current[i] != desired[position] {
      assert i < position ==> places[i] == i;
    }
  }

  lemma InsertDistinct(current: Labels, i: nat, x: string)
    requires Distinct(current) && i <= |current| && x !in current
    ensures Distinct(current[..i] + [x] + current[i..])
  {
  }

  lemma InsertPicks(current: Labels, desired: Labels, position: nat, places: seq<nat>)
    requires Picks(current, desired, places) && position <= |current| && position < |desired|
    requires (forall i | 0 <= i < position :: places[i] == i) && (forall i | position <= i < |places| :: places[i] > position)
    ensures Picks(current[..position] + [desired[position]] + current[position..], desired,
                  places[..position] + [position] + places[position..])
  {
  }

  /** Inserting the missing label keeps the rest where it was picked. */
  lemma InsertAligned(current: Labels, desired: Labels, position: nat, places: seq<nat>) returns (next: seq<nat>)
    requires Aligned(current, desired, position, places) && position < |desired|
    requires position < |current| ==> current[position] != desired[position]
    ensures desired[position] !in current
    ensures Aligned(current[..position] + [desired[position]] + current[position..], desired, position + 1, next)
  {
    MissingLabel(current, desired, position, places);
    InsertDistinct(current, position, desired[position]);
    InsertPicks(current, desired, position, places);
    next := places[..position] + [position] + places[position..];
    hide Picks, Distinct;
  }

  lemma KeepAligned(current: Labels, desired: Labels, position: nat, places: seq<nat>) returns (next: seq<nat>)
    requires Aligned(current, desired, position, places) && position < |desired|
    requires position < |current| && current[position] == desired[position]
    ensures Aligned(current, desired, position + 1, next)
  {
    assert desired[places[position]] == desired[position];
    assert places[position] == position;
    next := places;
  }

  lemma InsertIsAlter(current: Labels, desired: Labels, position: nat)
    requires position <= |current| && position < |desired| && Distinct(current) && desired[position] !in current
    ensures Alter(current, if position < |current| then AddBefore(desired[position], current[position]) else Append(desired[position]))
            == Some(current[..position] + [desired[position]] + current[position..])
  {
    if position < |current| {
      var i := IndexOf(current, current[position]);
      assert i == position;
    } else {
      assert current[..position] + [desired[position]] + current[position..] == current + [desired[position]];
    }
  }

  lemma {:induction false} InsertionsWork(current: Labels, desired: Labels, position: nat, places: seq<nat>)
    requires Aligned(current, desired, position, places)
    ensures Insertions(current, desired, position).Ok?
    ensures AlterAll(current, Insertions(current, desired, position).value) == Some(desired)
    decreases |desired| - position
  {
    if position == |desired| {
      AlignedToTheEnd(current, desired, places);
    } else if position < |current| && current[position] == desired[position] {
      var next := KeepAligned(current, desired, position, places);
      InsertionsWork(current, desired, position + 1, next);
    } else {
      var grown := current[..position] + [desired[position]] + current[position..];
      var next := InsertAligned(current, desired, position, places);
      InsertIsAlter(current, desired, position);
      InsertionsWork(grown, desired, position + 1, next);
      hide Alter;
      var rest := Insertions(grown, desired, position + 1).value;
      var step := if position < |current| then AddBefore(desired[position], current[position]) else Append(desired[position]);
      assert ([step] + rest)[1..] == rest;
    }
  }

  lemma AlignedToTheEnd(current: Labels, desired: Labels, places: seq<nat>)
    requires Aligned(current, desired, |desired|, places)
    ensures current == desired
  {
    if current != [] { PlacesAtLeast(places, |current| - 1); }
    assert |current| == |desired|;
  }

  lemma {:induction false} PlacesAtLeast(places: seq<nat>, i: nat)
    requires forall a, b | 0 <= a < b < |places| :: places[a] < places[b]
    requires i < |places|
    ensures places[i] >= i
  {
    if i > 0 { PlacesAtLeast(places, i - 1); }
  }

  /** Renaming position by position, each step on a list whose remaining part is untouched. */
  lemma {:induction false} RenamesWork(existing: Labels, desired: Labels, i: nat)
    requires Distinct(existing) && Distinct(desired) && FreshRenames(existing, desired) && i <= |existing|
    ensures AlterAll(desired[..i] + existing[i..], Renames(existing[i..], desired[i..])) == Some(desired)
    decreases |existing| - i
  {
    var current := desired[..i] + existing[i..];
    if i == |existing| {
      assert current == desired;
    } else {
      var next := desired[..i + 1] + existing[i + 1..];
      assert existing[i..][1..] == existing[i + 1..] && desired[i..][1..] == desired[i + 1..];
      assert existing[i..][0] == existing[i] && desired[i..][0] == desired[i];
      RenamesWork(existing, desired, i + 1);
      if existing[i] == desired[i] {
        assert current == next;
        assert Renames(existing[i..], desired[i..]) == Renames(existing[i + 1..], desired[i + 1..]);
      } else {
        RenameIsAlter(existing, desired, i);
        var rest := Renames(existing[i + 1..], desired[i + 1..]);
        assert ([Rename(existing[i], desired[i])] + rest)[1..] == rest;
      }
    }
  }

  lemma RenameIsAlter(existing: Labels, desired: Labels, i: nat)
    requires Distinct(existing) && Distinct(desired) && FreshRenames(existing, desired) && i < |existing|
    requires existing[i] != desired[i]
    ensures Alter(desired[..i] + existing[i..], Rename(existing[i], desired[i])) == Some(desired[..i + 1] + existing[i + 1..])
  {
    var current := desired[..i] + existing[i..];
    assert current[i] == existing[i];
    forall j | 0 <= j < |current| && j != i ensures current[j] != existing[i] && current[j] != desired[i] {
      if j < i {
        assert desired[j] == existing[j] || desired[j] !in existing;
      } else {
        assert current[j] == existing[j];
      }
    }
    assert IndexOf(current, existing[i]) == i;
    assert current[i := desired[i]] == desired[..i + 1] + existing[i + 1..];
  }

  /** For duplicate-free label lists a plan is made exactly when the existing labels are a subsequence
      of the desired ones or a position-wise renaming to fresh labels; every step of the plan is legal
      where it is taken, and together they give exactly the desired list. */
  lemma PlanReachesDesired(existing: Labels, desired: Labels)
    requires Distinct(existing) && Distinct(desired)
    ensures PlanEvolution(existing, desired).Ok? <==>
      (exists places :: Picks(existing, desired, places)) || FreshRenames(existing, desired)
    ensures PlanEvolution(existing, desired).Ok? ==> AlterAll(existing, PlanEvolution(existing, desired).value) == Some(desired)
  {
    if FoundInOrder(existing, desired) {
      var places := FoundMeansPicks(existing, desired);
      InsertionsWork(existing, desired, 0, places);
    } else if places :| Picks(existing, desired, places) {
      PicksMeansFound(existing, desired, places);
    }
    if FreshRenames(existing, desired) {
      RenamesWork(existing, desired, 0);
      assert desired[..0] + existing[0..] == existing && existing[0..] == existing && desired[0..] == desired;
    }
    if existing == desired { assert FreshRenames(existing, desired); }
  }
}
