/** A write from end to end: the contract is chosen for the entity, its name selects a predicate
    group, and the group is replaced. */
module ContractWrites {
  import opened Text
  import opened Contracts
  import opened GroupWriter
  import opened WriteRetry

  function GroupNames(c: Contract): set<string> {
    set name | name in PredicatesOf(c) && c.group.Some?
  }

  function At(facts: Facts, name: string): Option<seq<string>> {
    if name in facts then Some(facts[name]) else None
  }

  /** A contract with this name, which is all the write names. */
  method Lookup(contracts: map<Key, Contract>, keys: seq<Key>, name: string) returns (found: Option<Key>)
    requires forall key :: key in keys ==> key in contracts
    ensures found.Some? ==> found.value in contracts && contracts[found.value].name == name
    ensures found.None? ==> forall key :: key in keys ==> contracts[key].name != name
  {
    for k := 0 to |keys|
      invariant forall i :: 0 <= i < k ==> contracts[keys[i]].name != name
    {
      if contracts[keys[k]].name == name {
        return Some(keys[k]);
      }
    }
    return None;
  }

  /** No writer but the owner has its contract named like one of the owner's. */
  ghost predicate Unshadowed(contracts: map<Key, Contract>, owner: string) {
    forall k, b :: k in contracts && k.owner == owner && b in contracts && b.owner != owner ==>
      !Shadows(contracts.Keys, k, b) && !Shadows(contracts.Keys, b, k)
  }

  /** A group selected by the name of one of the owner's contracts holds no predicate that
      another writer stamps. */
  lemma SelectedIsOwn(t: Tables, contracts: map<Key, Contract>, chosen: Key, found: Key, name: string)
    requires NamesUnique(t) && Partitions(t, contracts) && chosen in contracts && found in contracts
    requires contracts[found].name == contracts[chosen].name && Unshadowed(contracts, chosen.owner)
    requires name in GroupNames(contracts[found])
    ensures forall q :: q in t.predicates && q.name == name ==> q.writer == chosen.owner
  {
    hide PredicatesOf, Shadows, Partitions, NamesUnique;
    NameIsolatesIff(t, contracts, chosen);
    assert WrittenBy(t, name, chosen.owner);
    forall q | q in t.predicates && q.name == name
      ensures q.writer == chosen.owner
    {
      OneWriter(t, name, chosen.owner, q);
    }
  }

  lemma OneWriter(t: Tables, name: string, owner: string, q: Predicate)
    requires NamesUnique(t) && WrittenBy(t, name, owner) && q in t.predicates && q.name == name
    ensures q.writer == owner
  {
    var p :| p in t.predicates && p.name == name && p.writer == owner;
    var i :| 0 <= i < |t.predicates| && t.predicates[i] == p;
    var j :| 0 <= j < |t.predicates| && t.predicates[j] == q;
    assert i == j;
  }

  lemma OutsideGroup(facts: Facts, others: Facts, group: set<string>, name: string)
    requires Others(facts, group) == others && name !in group
    ensures At(facts, name) == At(others, name)
  {
    assert name in facts <==> name in Others(facts, group);
  }

  /** One fact write: it is sent when one and only one contract of the owner claims the entity and
      the group of its name holds what is written. When no other writer's contract shares a name
      with one of the owner's, then whatever is interleaved and however the requests are answered,
      every predicate that another writer stamps ends as the other writers left it. */
  method WriteFacts(t: Tables, contracts: map<Key, Contract>, keys: seq<Key>, owner: string, matches: string -> bool,
                    entity: Entity,
                    desired: Facts) returns (ok: bool, ghost group: set<string>, ghost log: seq<Answer>)
    requires forall key :: key in keys <==> key in contracts
    requires forall i, j :: 0 <= i < j < |keys| ==> keys[i] != keys[j]
    requires NamesUnique(t) && Partitions(t, contracts)
    modifies entity
    ensures ok ==> Owned(entity.facts, group) == desired
    ensures entity.issued == old(entity.issued) + log && |log| <= TRANSPORT_ATTEMPTS
    ensures log == [] ==> !ok && entity.facts == old(entity.facts)
    ensures log != [] <==> (exists key :: Only(contracts, owner, matches, key)) && desired.Keys <= group
    ensures forall chosen :: Only(contracts, owner, matches, chosen) ==>
              exists key :: key in contracts && contracts[key].name == contracts[chosen].name
                  && group == GroupNames(contracts[key])
    ensures log != [] && Unshadowed(contracts, owner) ==>
              forall q :: q in t.predicates && q.writer != owner ==>
                q.name !in group
                && At(entity.facts, q.name) == At(OthersAfter(old(entity.facts), old(entity.interleaved), |log|, group),
                                                  q.name)
  {
    hide Partitions, NamesUnique, PredicatesOf, Shadows, Owned, Others, OthersAfter, GroupNames, At;
    group, log := {}, [];
    var choice := ContractFor(contracts, keys, owner, matches);
    if !choice.Chosen? {
      return false, group, log;
    }
    ghost var chosen :| Only(contracts, owner, matches, chosen);
    var found := Lookup(contracts, keys, choice.name);
    var names := GroupNames(contracts[found.value]);
    group := names;
    if !(desired.Keys <= names) {
      return false, group, log;
    }
    ok, log := entity.Replace(names, desired);
    if Unshadowed(contracts, owner) {
      forall q | q in t.predicates && q.writer != owner
        ensures q.name !in names
        ensures At(entity.facts, q.name) == At(OthersAfter(old(entity.facts), old(entity.interleaved), |log|, names),
                                               q.name)
      {
        if q.name in names {
          SelectedIsOwn(t, contracts, chosen, found.value, q.name);
        }
        OutsideGroup(entity.facts, OthersAfter(old(entity.facts), old(entity.interleaved), |log|, names), names,
                     q.name);
      }
    }
  }
}
