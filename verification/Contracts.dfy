/** deriveContracts over arbitrary tables: one contract per writer and entity class, and the
    name by which a write selects its contract. */
module Contracts {
  import opened Text

  datatype Predicate = Predicate(name: string, writer: string)

  /** The package-level tables the derivation reads. */
  datatype Tables = Tables(
    predicates: seq<Predicate>,
    entityClass: map<string, string>,
    unwired: set<string>,
    ruleWriters: set<string>,
    createOwners: set<string>)

  datatype Key = Key(owner: string, pattern: string)

  /** Birth predicates are authorized on the create lane only; a group is what one reconcile
      replaces. */
  datatype Contract = Contract(name: string, birth: seq<string>, group: Option<seq<string>>)

  datatype Defect = UnwiredButClassified(name: string) | Unclassified(name: string, writer: string)

  datatype Result<+T> = Ok(value: T) | Err(defect: Defect)

  function PredicatesOf(c: Contract): seq<string> {
    c.birth + (if c.group.Some? then c.group.value else [])
  }

  const RUN_PATTERN := "*.*.agent.chain.execution.*"
  const LOOP_PATTERN := "*.*.agent.agentic-loop.execution.*"
  const ADMISSION_PATTERN := "*.*.forge.intake.event.*"
  const AGENT_EXEC_PATTERN := "*.*.agent.*.execution.*"
  const STANDARDS_SOURCE_PATTERN := "*.*.repo.standards.source.*"

  /** classSuffix; a pattern without an entry reads as empty. */
  function ClassSuffix(pattern: string): string {
    if pattern == RUN_PATTERN then "run"
    else if pattern == LOOP_PATTERN then "loop"
    else if pattern == ADMISSION_PATTERN then "admission"
    else if pattern == AGENT_EXEC_PATTERN then "agent-exec"
    else if pattern == STANDARDS_SOURCE_PATTERN then "standards-source"
    else ""
  }

  predicate KnownClass(pattern: string) {
    pattern == RUN_PATTERN || pattern == LOOP_PATTERN || pattern == ADMISSION_PATTERN
    || pattern == AGENT_EXEC_PATTERN || pattern == STANDARDS_SOURCE_PATTERN
  }

  /** contractName: the owner alone, or owner and class. */
  function ContractName(key: Key, multiClass: bool): string {
    if multiClass then key.owner + "-" + ClassSuffix(key.pattern) else key.owner
  }

  /** The owner claims another entity class too. */
  predicate HasSibling(keys: set<Key>, key: Key) {
    exists other :: other in keys && other.owner == key.owner && other != key
  }

  function NameOf(keys: set<Key>, key: Key): string {
    ContractName(key, HasSibling(keys, key))
  }

  /** A predicate some Go writer stamps. */
  predicate IsGoWritten(t: Tables, p: Predicate) {
    p.name !in t.unwired && p.writer !in t.ruleWriters
  }

  predicate IsDefective(t: Tables, p: Predicate) {
    (p.name in t.unwired && p.name in t.entityClass) || (IsGoWritten(t, p) && p.name !in t.entityClass)
  }

  predicate NamesUnique(t: Tables) {
    forall i, j :: 0 <= i < j < |t.predicates| ==> t.predicates[i].name != t.predicates[j].name
  }

  /** The predicates collected so far under each key. */
  ghost predicate Collected(t: Tables, k: nat, byKey: map<Key, seq<string>>)
    requires k <= |t.predicates|
  {
    && (forall i :: 0 <= i < k && IsGoWritten(t, t.predicates[i]) ==>
          t.predicates[i].name in t.entityClass && HeldUnder(byKey, KeyOf(t, t.predicates[i]), t.predicates[i].name))
    && (forall key, name :: HeldUnder(byKey, key, name) ==> DeclaredUnder(t, k, key, name))
    && (forall key :: key in byKey ==> byKey[key] != [])
  }

  predicate HeldUnder(byKey: map<Key, seq<string>>, key: Key, name: string) {
    key in byKey && name in byKey[key]
  }

  function KeyOf(t: Tables, p: Predicate): Key {
    Key(p.writer, if p.name in t.entityClass then t.entityClass[p.name] else "")
  }

  predicate DeclaredUnder(t: Tables, k: nat, key: Key, name: string)
    requires k <= |t.predicates|
  {
    exists i :: 0 <= i < k && t.predicates[i].name == name && IsGoWritten(t, t.predicates[i])
        && KeyOf(t, t.predicates[i]) == key
  }

  lemma CollectStep(t: Tables, k: nat, byKey: map<Key, seq<string>>)
    requires k < |t.predicates| && Collected(t, k, byKey)
    ensures !IsGoWritten(t, t.predicates[k]) ==> Collected(t, k + 1, byKey)
    ensures IsGoWritten(t, t.predicates[k]) && t.predicates[k].name in t.entityClass ==>
              var key := KeyOf(t, t.predicates[k]);
              Collected(t, k + 1, byKey[key := (if key in byKey then byKey[key] else []) + [t.predicates[k].name]])
  {
    var p := t.predicates[k];
    hide IsGoWritten;
    if IsGoWritten(t, p) && p.name in t.entityClass {
      var key := KeyOf(t, p);
      var more := byKey[key := (if key in byKey then byKey[key] else []) + [p.name]];
      forall other, name | HeldUnder(more, other, name)
        ensures DeclaredUnder(t, k + 1, other, name)
      {
        if HeldUnder(byKey, other, name) {
          assert DeclaredUnder(t, k, other, name);
        }
      }
      forall i | 0 <= i < k + 1 && IsGoWritten(t, t.predicates[i])
        ensures t.predicates[i].name in t.entityClass && HeldUnder(more, KeyOf(t, t.predicates[i]),
                                                                   t.predicates[i].name)
      {
        if i < k {
          assert HeldUnder(byKey, KeyOf(t, t.predicates[i]), t.predicates[i].name);
        }
      }
    } else if !IsGoWritten(t, p) {
      forall other, name | HeldUnder(byKey, other, name)
        ensures DeclaredUnder(t, k + 1, other, name)
      {
        assert DeclaredUnder(t, k, other, name);
      }
    }
  }

  /** What a derivation must satisfy: each Go-written predicate is in the contract of its
      writer and class and in no other, nothing else is in any, and the two lanes are kept
      apart. Each contract holds something and carries the name of its writer and class. */
  ghost predicate Partitions(t: Tables, contracts: map<Key, Contract>) {
    && (forall p :: p in t.predicates && IsGoWritten(t, p) ==>
          KeyOf(t, p) in contracts && p.name in PredicatesOf(contracts[KeyOf(t, p)]))
    && (forall key, name :: key in contracts && name in PredicatesOf(contracts[key]) ==>
          exists p :: p in t.predicates && p.name == name && IsGoWritten(t, p) && KeyOf(t, p) == key)
    && (forall key :: key in contracts ==>
      PredicatesOf(contracts[key]) != [] && contracts[key].name == NameOf(contracts.Keys, key))
    && (forall key :: key in contracts ==>
          if key.owner in t.createOwners then contracts[key].group.None?
              else contracts[key].birth == [] && contracts[key].group.Some?)
  }

  /** One contract per key: birth predicates for a create owner, one group otherwise. */
  function ContractOf(t: Tables, key: Key, multiClass: bool, preds: seq<string>): (c: Contract)
    ensures PredicatesOf(c) == preds
  {
    if key.owner in t.createOwners then assert preds + [] == preds; Contract(ContractName(key, multiClass), preds, None)
    else assert [] + preds == preds; Contract(ContractName(key, multiClass), [], Some(preds))
  }

  /** ownerClasses holds each owner's entity classes. */
  ghost predicate ClassesOf(keys: set<Key>, ownerClasses: map<string, set<string>>) {
    forall owner, pattern :: Key(owner, pattern) in keys <==> owner in ownerClasses && pattern in ownerClasses[owner]
  }

  function WithClass(ownerClasses: map<string, set<string>>, key: Key): map<string, set<string>> {
    var classes := if key.owner in ownerClasses then ownerClasses[key.owner] else {};
    ownerClasses[key.owner := classes + {key.pattern}]
  }

  function ManyClasses(ownerClasses: map<string, set<string>>, owner: string): bool {
    owner in ownerClasses && |ownerClasses[owner]| > 1
  }

  lemma ManyIsSibling(keys: set<Key>, ownerClasses: map<string, set<string>>, key: Key)
    requires ClassesOf(keys, ownerClasses) && key in keys
    ensures ManyClasses(ownerClasses, key.owner) <==> HasSibling(keys, key)
  {
    assert Key(key.owner, key.pattern) in keys;
    var classes := ownerClasses[key.owner];
    assert classes == {key.pattern} + (classes - {key.pattern});
    if |classes| > 1 {
      assert classes - {key.pattern} != {};
      var pattern :| pattern in classes - {key.pattern};
      assert Key(key.owner, pattern) in keys;
    }
    if HasSibling(keys, key) {
      var other :| other in keys && other.owner == key.owner && other != key;
      assert Key(other.owner, other.pattern) in keys;
      assert |classes - {key.pattern}| > 0;
    }
  }

  method DeriveContracts(t: Tables) returns (r: Result<map<Key, Contract>>)
    ensures r.Ok? <==> forall i :: 0 <= i < |t.predicates| ==> !IsDefective(t, t.predicates[i])
    ensures r.Ok? ==> Partitions(t, r.value)
    ensures r.Err? ==> exists p :: p in t.predicates && IsDefective(t, p) && p.name == r.defect.name
  {
    hide Collected, Partitions, ContractOf, ClassesOf;
    var byKey: map<Key, seq<string>> := map[];
    var ownerClasses: map<string, set<string>> := map[];
    NoClasses();
    assert byKey.Keys == {};
    NothingCollected(t);
    for k := 0 to |t.predicates|
      invariant Collected(t, k, byKey) && ClassesOf(byKey.Keys, ownerClasses)
      invariant forall i :: 0 <= i < k ==> !IsDefective(t, t.predicates[i])
    {
      var p := t.predicates[k];
      CollectStep(t, k, byKey);
      if p.name in t.unwired {
        if p.name in t.entityClass {
          return Err(UnwiredButClassified(p.name));
        }
        continue;
      }
      if p.writer in t.ruleWriters {
        continue;
      }
      if p.name !in t.entityClass {
        return Err(Unclassified(p.name, p.writer));
      }
      var key := Key(p.writer, t.entityClass[p.name]);
      ClassAdded(byKey.Keys, ownerClasses, key);
      ghost var before := byKey.Keys;
      byKey := byKey[key := (if key in byKey then byKey[key] else []) + [p.name]];
      assert byKey.Keys == before + {key};
      ownerClasses := WithClass(ownerClasses, key);
    }
    var contracts := map key | key in byKey :: ContractOf(t, key, ManyClasses(ownerClasses, key.owner), byKey[key]);
    AllCollected(t, byKey, ownerClasses, contracts);
    return Ok(contracts);
  }

  lemma NothingCollected(t: Tables)
    ensures Collected(t, 0, map[])
  {
  }

  lemma NoClasses()
    ensures ClassesOf({}, map[])
  {
  }

  lemma ClassAdded(keys: set<Key>, ownerClasses: map<string, set<string>>, key: Key)
    requires ClassesOf(keys, ownerClasses)
    ensures ClassesOf(keys + {key}, WithClass(ownerClasses, key))
  {
    var more := WithClass(ownerClasses, key);
    forall owner, pattern
      ensures Key(owner, pattern) in keys + {key} <==> owner in more && pattern in more[owner]
    {
      assert Key(owner, pattern) in keys <==> owner in ownerClasses && pattern in ownerClasses[owner];
    }
  }

  lemma AllCollected(t: Tables, byKey: map<Key, seq<string>>, ownerClasses: map<string, set<string>>,
                     contracts: map<Key, Contract>)
    requires Collected(t, |t.predicates|, byKey) && ClassesOf(byKey.Keys, ownerClasses)
    requires contracts == map key | key in byKey :: ContractOf(t, key, ManyClasses(ownerClasses, key.owner), byKey[key])
    ensures Partitions(t, contracts)
  {
    hide IsGoWritten, KeyOf, PredicatesOf, ClassesOf, HasSibling, ManyClasses, ContractName;
    assert contracts.Keys == byKey.Keys;
    forall key | key in contracts
      ensures contracts[key].name == NameOf(contracts.Keys, key)
    {
      ManyIsSibling(byKey.Keys, ownerClasses, key);
    }
    forall p | p in t.predicates && IsGoWritten(t, p)
      ensures KeyOf(t, p) in contracts && p.name in PredicatesOf(contracts[KeyOf(t, p)])
    {
      var i :| 0 <= i < |t.predicates| && t.predicates[i] == p;
      assert HeldUnder(byKey, KeyOf(t, p), p.name);
    }
    forall key, name | key in contracts && name in PredicatesOf(contracts[key])
      ensures exists p :: p in t.predicates && p.name == name && IsGoWritten(t, p) && KeyOf(t, p) == key
    {
      assert HeldUnder(byKey, key, name);
      assert DeclaredUnder(t, |t.predicates|, key, name);
    }
  }

  /** With unique predicate names, no predicate is in two contracts, so replacing one
      writer's group never touches another writer's predicate. */
  lemma GroupsAreDisjoint(t: Tables, contracts: map<Key, Contract>, a: Key, b: Key, name: string)
    requires NamesUnique(t) && Partitions(t, contracts) && a in contracts && b in contracts
    requires name in PredicatesOf(contracts[a]) && name in PredicatesOf(contracts[b])
    ensures a == b
    ensures exists p :: p in t.predicates && p.name == name && p.writer == a.owner
  {
    hide IsGoWritten, KeyOf;
    var p :| p in t.predicates && p.name == name && IsGoWritten(t, p) && KeyOf(t, p) == a;
    var q :| q in t.predicates && q.name == name && IsGoWritten(t, q) && KeyOf(t, q) == b;
    var i :| 0 <= i < |t.predicates| && t.predicates[i] == p;
    var j :| 0 <= j < |t.predicates| && t.predicates[j] == q;
    assert i == j;
    OwnerIsWriter(t, p);
  }

  lemma OwnerIsWriter(t: Tables, p: Predicate)
    ensures KeyOf(t, p).owner == p.writer
  {
  }

  // --- choosing the contract of a write ---

  datatype Choice = Chosen(name: string) | NoContract | NoMatch | Overlap

  /** The owner's keys that match, and how many it has in all. */
  method MatchedKeys(keys: seq<Key>, owner: string, matches: string -> bool) returns (owned: nat, matched: seq<Key>)
    requires forall i, j :: 0 <= i < j < |keys| ==> keys[i] != keys[j]
    ensures owned > 0 <==> exists key :: key in keys && key.owner == owner
    ensures forall key :: key in matched <==> key in keys && key.owner == owner && matches(key.pattern)
    ensures forall i, j :: 0 <= i < j < |matched| ==> matched[i] != matched[j]
  {
    owned, matched := 0, [];
    for k := 0 to |keys|
      invariant owned > 0 <==> exists key :: key in keys[..k] && key.owner == owner
      invariant forall key :: key in matched <==> key in keys[..k] && key.owner == owner && matches(key.pattern)
      invariant forall i, j :: 0 <= i < j < |matched| ==> matched[i] != matched[j]
    {
      assert keys[..k + 1] == keys[..k] + [keys[k]];
      if keys[k].owner == owner {
        owned := owned + 1;
        if matches(keys[k].pattern) {
          matched := matched + [keys[k]];
        }
      }
    }
    assert keys[..|keys|] == keys;
  }

  predicate Claims(contracts: map<Key, Contract>, owner: string, matches: string -> bool, key: Key) {
    key in contracts && key.owner == owner && matches(key.pattern)
  }

  /** The only contract of the owner that claims the entity. */
  ghost predicate Only(contracts: map<Key, Contract>, owner: string, matches: string -> bool, key: Key) {
    Claims(contracts, owner, matches, key) && forall other :: Claims(contracts, owner, matches, other) ==> other == key
  }

  /** ContractFor: the owner's contracts are matched against the entity, exactly one must claim
      it, and its name is what the write is sent under. */
  method ContractFor(contracts: map<Key, Contract>, keys: seq<Key>, owner: string, matches: string -> bool)
      returns (choice: Choice)
    requires forall key :: key in keys <==> key in contracts
    requires forall i, j :: 0 <= i < j < |keys| ==> keys[i] != keys[j]
    ensures choice.Chosen? <==> exists key :: Only(contracts, owner, matches, key)
    ensures forall key :: Only(contracts, owner, matches, key) ==> choice == Chosen(contracts[key].name)
    ensures choice.NoContract? <==> forall key :: key in contracts ==> key.owner != owner
    ensures choice.NoMatch? <==> (exists key :: key in contracts && key.owner == owner)
                                 && forall key :: !Claims(contracts, owner, matches, key)
  {
    var owned, matched := MatchedKeys(keys, owner, matches);
    assert forall key :: key in matched <==> Claims(contracts, owner, matches, key);
    if owned == 0 {
      choice := NoContract;
    } else if |matched| == 1 {
      assert matched[0] in matched;
      choice := Chosen(contracts[matched[0]].name);
      assert Only(contracts, owner, matches, matched[0]);
    } else if matched == [] {
      choice := NoMatch;
    } else {
      choice := Overlap;
      assert matched[0] in matched && matched[1] in matched && matched[0] != matched[1];
      assert Claims(contracts, owner, matches, matched[0]) && Claims(contracts, owner, matches, matched[1]);
    }
  }

  // --- contract names ---

  /** The single-class owner b is spelled as the name of a class of the multi-class owner a. */
  predicate Shadows(keys: set<Key>, a: Key, b: Key) {
    HasSibling(keys, a) && !HasSibling(keys, b) && b.owner == a.owner + "-" + ClassSuffix(a.pattern)
  }

  lemma DashInside(a: string, s: string, b: string, u: string)
    requires a + "-" + s == b + "-" + u && |a| < |b|
    ensures |s| == |b| - |a| + |u| && s[|b| - |a| - 1] == '-' && s[|b| - |a|..] == u
  {
    var name := a + "-" + s;
    assert name == b + "-" + u;
    assert s == name[|a| + 1..] && u == name[|b| + 1..];
    assert s[|b| - |a| - 1] == name[|b|];
  }

  /** No class suffix ends in another one behind a dash, so a name splits in one way. */
  lemma SplitsOnce(a: string, b: string, p: string, q: string)
    requires a + "-" + ClassSuffix(p) == b + "-" + ClassSuffix(q)
    ensures a == b && ClassSuffix(p) == ClassSuffix(q)
  {
    hide ClassSuffix;
    var s, u := ClassSuffix(p), ClassSuffix(q);
    if |a| < |b| {
      DashInside(a, s, b, u);
      DashPlaces(p, q, |b| - |a| - 1);
    } else if |b| < |a| {
      DashInside(b, u, a, s);
      DashPlaces(q, p, |a| - |b| - 1);
    } else {
      var name := a + "-" + s;
      assert name == b + "-" + u;
      assert a == name[..|a|] && b == name[..|b|];
      assert s == name[|a| + 1..] && u == name[|b| + 1..];
    }
  }

  /** Where a suffix has a dash, what follows is no other suffix. */
  lemma DashPlaces(p: string, q: string, k: nat)
    requires |ClassSuffix(p)| == k + 1 + |ClassSuffix(q)|
    ensures !(ClassSuffix(p)[k] == '-' && ClassSuffix(p)[k + 1..] == ClassSuffix(q))
  {
  }

  lemma SuffixKnown(p: string, q: string)
    ensures ClassSuffix(p) == ClassSuffix(q) <==> p == q || (!KnownClass(p) && !KnownClass(q))
  {
  }

  /** Two derived contracts share a name if and only if a single-class owner is spelled as a
      class name of a multi-class owner, or one owner claims two classes without a suffix. */
  lemma SharedNameIff(keys: set<Key>, a: Key, b: Key)
    requires a in keys && b in keys && a != b
    ensures NameOf(keys, a) == NameOf(keys, b)
       <==> || Shadows(keys, a, b) || Shadows(keys, b, a)
            || (a.owner == b.owner && !KnownClass(a.pattern) && !KnownClass(b.pattern))
  {
    hide ClassSuffix, KnownClass;
    SuffixKnown(a.pattern, b.pattern);
    if a.owner == b.owner {
      assert HasSibling(keys, a) && HasSibling(keys, b);
      if NameOf(keys, a) == NameOf(keys, b) {
        SplitsOnce(a.owner, b.owner, a.pattern, b.pattern);
      }
    } else if HasSibling(keys, a) && HasSibling(keys, b) && NameOf(keys, a) == NameOf(keys, b) {
      SplitsOnce(a.owner, b.owner, a.pattern, b.pattern);
    }
  }

  ghost predicate WrittenBy(t: Tables, name: string, owner: string) {
    exists p :: p in t.predicates && p.name == name && p.writer == owner
  }

  /** Every contract that carries the name of k's holds predicates of k's owner alone. */
  ghost predicate NameIsolates(t: Tables, contracts: map<Key, Contract>, k: Key)
    requires k in contracts
  {
    forall key, name :: key in contracts && contracts[key].name == contracts[k].name
        && name in PredicatesOf(contracts[key])
      ==> WrittenBy(t, name, k.owner)
  }

  /** A write sent under the name of its contract reaches predicates of its own writer only,
      if and only if no contract of another writer shares that name. */
  lemma NameIsolatesIff(t: Tables, contracts: map<Key, Contract>, k: Key)
    requires NamesUnique(t) && Partitions(t, contracts) && k in contracts
    ensures NameIsolates(t, contracts, k)
       <==> forall b :: b in contracts && b.owner != k.owner ==>
           !Shadows(contracts.Keys, k, b) && !Shadows(contracts.Keys, b, k)
  {
    hide IsGoWritten, PredicatesOf, NamesUnique, Shadows, HasSibling, ContractName, KeyOf;
    forall b | b in contracts && b.owner != k.owner
      ensures contracts[b].name == contracts[k].name <==> Shadows(contracts.Keys, k, b) || Shadows(contracts.Keys, b, k)
    {
      SharedNameIff(contracts.Keys, k, b);
    }
    forall key, name | key in contracts && name in PredicatesOf(contracts[key])
      ensures WrittenBy(t, name, k.owner) <==> key.owner == k.owner
    {
      HoldsOwn(t, contracts, key, name, k.owner);
    }
    if NameIsolates(t, contracts, k) {
      forall b | b in contracts && b.owner != k.owner
        ensures contracts[b].name != contracts[k].name
      {
        var name := PredicatesOf(contracts[b])[0];
        assert name in PredicatesOf(contracts[b]) && !WrittenBy(t, name, k.owner);
      }
    }
  }

  lemma HoldsOwn(t: Tables, contracts: map<Key, Contract>, key: Key, name: string, owner: string)
    requires NamesUnique(t) && Partitions(t, contracts) && key in contracts && name in PredicatesOf(contracts[key])
    ensures WrittenBy(t, name, owner) <==> key.owner == owner
  {
    hide IsGoWritten, PredicatesOf, NameOf;
    var p :| p in t.predicates && p.name == name && IsGoWritten(t, p) && KeyOf(t, p) == key;
    if WrittenBy(t, name, owner) {
      var q :| q in t.predicates && q.name == name && q.writer == owner;
      var i :| 0 <= i < |t.predicates| && t.predicates[i] == p;
      var j :| 0 <= j < |t.predicates| && t.predicates[j] == q;
      assert i == j;
    }
  }

  /** Tables on which two writers' contracts share a name: "author" writes runs and loops,
      "author-run" writes loops only. */
  lemma NamesCanCollide()
    ensures var keys := {Key("author", RUN_PATTERN), Key("author", LOOP_PATTERN), Key("author-run", LOOP_PATTERN)};
            NameOf(keys, Key("author", RUN_PATTERN)) == NameOf(keys, Key("author-run", LOOP_PATTERN))
  {
    var keys := {Key("author", RUN_PATTERN), Key("author", LOOP_PATTERN), Key("author-run", LOOP_PATTERN)};
    assert Key("author", LOOP_PATTERN) in keys && Key("author", LOOP_PATTERN) != Key("author", RUN_PATTERN);
    assert "author" + "-" + "run" == "author-run";
    SharedNameIff(keys, Key("author", RUN_PATTERN), Key("author-run", LOOP_PATTERN));
  }
}
