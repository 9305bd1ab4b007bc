/** Which target table and staging name each relation generation is bound to. */
module Bindings {
  import opened Core
  import opened PrimaryKey

  type RelationKey = (nat, nat)

  datatype TableBinding = TableBinding(schema: TableSchema, target: string, stagingName: string)
  {
    function BindingKey(): RelationKey {
      (schema.relationId, schema.generation)
    }
  }

  type Registry = map<RelationKey, TableBinding>

  datatype RegistryError =
    | DuplicateBinding(relationId: nat, generation: nat)
    | DuplicateTarget(target: string)
    | DuplicateStagingName(stagingName: string)

  /** One target table and one staging name per relation generation. */
  ghost predicate RegistryOk(r: Registry) {
    && (forall k | k in r :: r[k].BindingKey() == k)
    && (forall j, k | j in r && k in r && j != k :: r[j].target != r[k].target && r[j].stagingName != r[k].stagingName)
  }

  function KeysOf(s: seq<TableBinding>): set<RelationKey> {
    set b | b in s :: b.BindingKey()
  }

  function TargetsOf(s: seq<TableBinding>): set<string> {
    set b | b in s :: b.target
  }

  function StagingNamesOf(s: seq<TableBinding>): set<string> {
    set b | b in s :: b.stagingName
  }

  /** How a binding clashes with those accepted before it. */
  function Clash(accepted: seq<TableBinding>, b: TableBinding): Option<RegistryError> {
    if b.BindingKey() in KeysOf(accepted) then Some(DuplicateBinding(b.schema.relationId, b.schema.generation))
    else if b.target in TargetsOf(accepted) then Some(DuplicateTarget(b.target))
    else if b.stagingName in StagingNamesOf(accepted) then Some(DuplicateStagingName(b.stagingName))
    else None
  }

  /** `r` holds exactly the accepted bindings. */
  ghost predicate Holds(r: Registry, accepted: seq<TableBinding>) {
    && RegistryOk(r) && r.Keys == KeysOf(accepted)
    && (forall k | k in r :: r[k] in accepted)
    && (forall b | b in accepted :: b.BindingKey() in r && r[b.BindingKey()] == b)
  }

  lemma AcceptOne(r: Registry, accepted: seq<TableBinding>, b: TableBinding)
    requires Holds(r, accepted) && Clash(accepted, b).None?
    ensures Holds(r[b.BindingKey() := b], accepted + [b])
  {
    var next := r[b.BindingKey() := b];
    forall j, k | j in next && k in next && j != k
      ensures next[j].target != next[k].target && next[j].stagingName != next[k].stagingName
    {
      assert j != b.BindingKey() ==> r[j] in accepted;
      assert k != b.BindingKey() ==> r[k] in accepted;
    }
  }

  lemma SetsExtend(s: seq<TableBinding>, b: TableBinding)
    ensures KeysOf(s + [b]) == KeysOf(s) + {b.BindingKey()}
    ensures TargetsOf(s + [b]) == TargetsOf(s) + {b.target}
    ensures StagingNamesOf(s + [b]) == StagingNamesOf(s) + {b.stagingName}
  {
  }

  /** The first clash met when `rest` is accepted binding by binding. */
  function FirstClash(accepted: seq<TableBinding>, rest: seq<TableBinding>): Option<RegistryError>
    decreases |rest|
  {
    if rest == [] then None
    else if Clash(accepted, rest[0]).Some? then Clash(accepted, rest[0])
    else FirstClash(accepted + [rest[0]], rest[1..])
  }

  method NewRegistry(bindings: seq<TableBinding>) returns (registry: Result<Registry, RegistryError>)
    ensures FirstClash([], bindings) == if registry.Err? then Some(registry.error) else None
    ensures registry.Ok? ==> Holds(registry.value, bindings)
  {
    var byKey: Registry := map[];
    var targets: set<string> := {};
    var stagingNames: set<string> := {};
    ghost var accepted: seq<TableBinding> := [];
    assert Holds(byKey, accepted);
    hide Holds, RegistryOk, KeysOf, TargetsOf, StagingNamesOf;
    NothingAccepted();
    var i := 0;
    while i < |bindings|
      invariant i <= |bindings| && accepted == bindings[..i]
      invariant FirstClash([], bindings) == FirstClash(accepted, bindings[i..])
      invariant byKey.Keys == KeysOf(accepted)
      invariant targets == TargetsOf(accepted) && stagingNames == StagingNamesOf(accepted)
      invariant Holds(byKey, accepted)
    {
      var b := bindings[i];
      assert bindings[i..][0] == b && bindings[i..][1..] == bindings[i + 1..];
      assert accepted + [b] == bindings[..i + 1];
      SetsExtend(accepted, b);
      if b.BindingKey() in byKey { return Err(DuplicateBinding(b.schema.relationId, b.schema.generation)); }
      if b.target in targets { return Err(DuplicateTarget(b.target)); }
      targets := targets + {b.target};
      if b.stagingName in stagingNames { return Err(DuplicateStagingName(b.stagingName)); }
      stagingNames := stagingNames + {b.stagingName};
      AcceptOne(byKey, accepted, b);
      byKey := byKey[b.BindingKey() := b];
      accepted := accepted + [b];
      i := i + 1;
    }
    return Ok(byKey);
  }

  lemma NothingAccepted()
    ensures KeysOf([]) == {} && TargetsOf([]) == {} && StagingNamesOf([]) == {}
  {
  }

  /** Bindings are accepted if and only if no two of them share a relation generation, a target or a staging name. */
  ghost predicate NoClash(s: seq<TableBinding>) {
    forall i, j | 0 <= i < j < |s| ::
      s[i].BindingKey() != s[j].BindingKey() && s[i].target != s[j].target && s[i].stagingName != s[j].stagingName
  }

  lemma {:induction false} AcceptedExactly(accepted: seq<TableBinding>, rest: seq<TableBinding>)
    requires NoClash(accepted)
    ensures FirstClash(accepted, rest).None? <==> NoClash(accepted + rest)
    decreases |rest|
  {
    if rest == [] {
      assert accepted + rest == accepted;
    } else {
      var more := accepted + [rest[0]];
      assert accepted + rest == more + rest[1..];
      OneMoreClash(accepted, rest[0]);
      if Clash(accepted, rest[0]).None? { AcceptedExactly(more, rest[1..]); }
      else if NoClash(accepted + rest) { PrefixNoClash(more, accepted + rest); }
      hide Clash, NoClash;
    }
  }

  lemma PrefixNoClash(a: seq<TableBinding>, b: seq<TableBinding>)
    requires NoClash(b) && a <= b
    ensures NoClash(a)
  {
  }

  lemma OneMoreClash(accepted: seq<TableBinding>, b: TableBinding)
    requires NoClash(accepted)
    ensures Clash(accepted, b).None? <==> NoClash(accepted + [b])
  {
    var more := accepted + [b];
    if NoClash(more) {
      forall x | x in accepted ensures x.BindingKey() != b.BindingKey() && x.target != b.target && x.stagingName != b.stagingName {
        var i :| 0 <= i < |accepted| && accepted[i] == x;
        assert more[i] == x && more[|accepted|] == b;
      }
    }
  }

  /** A registry is built if and only if the bindings do not clash. */
  lemma RegistryBuiltExactly(bindings: seq<TableBinding>)
    ensures FirstClash([], bindings).None? <==> NoClash(bindings)
  {
    assert [] + bindings == bindings;
    AcceptedExactly([], bindings);
  }
}
