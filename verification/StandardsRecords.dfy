/** The record store one repo shares with others: what a sync makes of it, and the laws. */
module StandardsRecords {
  import opened Seqs
  import opened Text
  import opened StandardsFile

  datatype Status = Proposed | Active | Retired

  datatype Record = Record(category: string, appliesTo: seq<string>, summary: string, evidence: seq<string>,
                           status: Status)

  /** Source entities and the repo each declares; None for an entity that declares none. */
  type Entities = map<string, Option<string>>

  type Records = map<string, Record>

  predicate SameContent(a: Record, b: Record) {
    a.category == b.category && a.appliesTo == b.appliesTo && a.summary == b.summary && a.evidence == b.evidence
  }

  /** The digest over repo and bytes, taken as injective. */
  function SourceId(repo: string, raw: string): string {
    "repo.standards.source." + repo + [US()] + raw
  }

  function Birth(s: Standard, source: string): Record {
    Record(CATEGORY, AppliesTo(s.roles), s.text, [source], Proposed)
  }

  /** The declared records, newborn. */
  function Births(stds: seq<Standard>, source: string): Records {
    if stds == [] then map[]
    else var last := stds[|stds| - 1];
      Births(stds[..|stds| - 1], source)[RecordId(last, source) := Birth(last, source)]
  }

  function WithSource(entities: Entities, source: string, repo: string): Entities {
    if source in entities then entities else entities[source := Some(repo)]
  }

  predicate Cites(entities: Entities, evidence: seq<string>, repo: string) {
    exists i :: 0 <= i < |evidence| && evidence[i] in entities && entities[evidence[i]] == Some(repo)
  }

  predicate IsLive(r: Record) {
    r.category == CATEGORY && (r.status == Active || r.status == Proposed)
  }

  /** A live repo-standard record of this repo. */
  predicate LiveOf(entities: Entities, r: Record, repo: string) {
    IsLive(r) && Cites(entities, r.evidence, repo)
  }

  // --- what a successful sync computes ---

  function Activated(records: Records, births: Records, id: string): Record
    requires id in births
  {
    (if id in records then records[id] else births[id]).(status := Active)
  }

  function AfterBirths(records: Records, births: Records): Records {
    map id | id in records.Keys + births.Keys :: if id in births then Activated(records, births, id) else records[id]
  }

  /** The records of visited retired where they are this repo's and no longer declared. */
  function AfterRetiring(records: Records, births: Records, entities: Entities, repo: string,
                         visited: set<string>): Records {
    map id | id in records ::
      if id in visited && id !in births && LiveOf(entities, records[id], repo) then records[id].(status := Retired)
          else records[id]
  }

  function Final(records: Records, births: Records, entities: Entities, repo: string): Records {
    var born := AfterBirths(records, births);
    AfterRetiring(born, births, entities, repo, born.Keys)
  }

  function BornIds(records: Records, births: Records): set<string> {
    births.Keys - records.Keys
  }

  function PromotedIds(records: Records, births: Records): set<string> {
    set id | id in births && (id !in records || records[id].status != Active)
  }

  function RetiredIds(records: Records, births: Records, entities: Entities, repo: string): set<string> {
    set id | id in records && id !in births && LiveOf(entities, records[id], repo)
  }

  /** Somewhere between where a sync started and where it ends. */
  predicate Between(start: Records, births: Records, entities: Entities, repo: string, now: Records) {
    && start.Keys <= now.Keys <= start.Keys + births.Keys
    && forall id :: id in now ==> BetweenAt(start, births, entities, repo, id, now[id])
  }

  /** The same while records are still being born. */
  predicate BirthsPart(start: Records, births: Records, now: Records) {
    && start.Keys <= now.Keys <= start.Keys + births.Keys
    && forall id :: id in now ==> BirthAt(start, births, id, now[id])
  }

  predicate BirthAt(start: Records, births: Records, id: string, r: Record) {
    if id in births then r == Activated(start, births, id) || r == (if id in start then start[id] else births[id])
    else id in start && r == start[id]
  }

  predicate BetweenAt(start: Records, births: Records, entities: Entities, repo: string, id: string, r: Record) {
    if id in births then
      r == Activated(start, births, id) || r == (if id in start then start[id] else births[id])
    else
      id in start && (r == start[id] || (LiveOf(entities, start[id], repo) && r == start[id].(status := Retired)))
  }

  datatype Outcome = Synced(born: nat, promoted: nat, retired: nat) | DeclarationFault | SubstrateFault

  function Declared(file: RawFile): seq<Standard> {
    Map(StandardOf, file.standards)
  }

  function DeclaredIds(stds: seq<Standard>, source: string): set<string> {
    set i | 0 <= i < |stds| :: RecordId(stds[i], source)
  }

  /** Whatever the store holds under a declared id is that record. */
  predicate Matching(records: Records, births: Records) {
    forall id :: id in births && id in records ==> SameContent(records[id], births[id])
  }

  function Counted(records: Records, births: Records, entities: Entities, repo: string): Outcome {
    Synced(|BornIds(records, births)|, |PromotedIds(records, births)|, |RetiredIds(records, births, entities, repo)|)
  }

  /** This repo's live records. */
  function LiveIds(entities: Entities, records: Records, repo: string): set<string> {
    set id | id in records && LiveOf(entities, records[id], repo)
  }

  // --- births ---

  lemma BirthStep(stds: seq<Standard>, source: string, k: nat)
    requires k < |stds|
    ensures Births(stds[..k + 1], source) == Births(stds[..k],
                                                    source)[RecordId(stds[k], source) := Birth(stds[k], source)]
  {
    hide RecordId, Birth;
    assert stds[..k + 1][..k] == stds[..k];
  }

  lemma {:induction false} BirthKeys(stds: seq<Standard>, source: string)
    ensures Births(stds, source).Keys == DeclaredIds(stds, source)
  {
    hide RecordId, Birth;
    if stds != [] {
      var front := stds[..|stds| - 1];
      BirthKeys(front, source);
      assert forall i :: 0 <= i < |front| ==> front[i] == stds[i];
      assert DeclaredIds(stds, source) == DeclaredIds(front, source) + {RecordId(stds[|stds| - 1], source)};
    }
  }

  lemma NewId(stds: seq<Standard>, source: string, k: nat)
    requires DistinctRecords(stds) && k < |stds|
    ensures RecordId(stds[k], source) !in Births(stds[..k], source)
  {
    hide RecordId, Birth;
    BirthKeys(stds[..k], source);
  }

  /** Later births do not touch earlier ones. */
  lemma {:induction false} BirthKept(stds: seq<Standard>, source: string, k: nat, n: nat)
    requires DistinctRecords(stds) && k <= n <= |stds|
    ensures forall id :: id in Births(stds[..k], source) ==>
            id in Births(stds[..n], source) && Births(stds[..n], source)[id] == Births(stds[..k], source)[id]
  {
    hide RecordId, Birth, DistinctRecords, Births;
    if k < n {
      BirthKept(stds, source, k, n - 1);
      NewId(stds, source, n - 1);
      BirthStep(stds, source, n - 1);
    }
  }

  lemma NoBirths(start: Records)
    ensures AfterBirths(start, map[]) == start && BornIds(start, map[]) == {} && PromotedIds(start, map[]) == {}
    ensures Matching(start, map[])
  {
  }

  lemma FirstBirths(stds: seq<Standard>, source: string)
    ensures Births(stds[..0], source) == map[]
  {
  }

  /** What one more declared record changes. */
  lemma OneMore(start: Records, births: Records, id: string, birth: Record)
    requires id !in births && birth.status == Proposed
    ensures var more := births[id := birth];
            && AfterBirths(start, more) == AfterBirths(start, births)[id := Activated(start, more, id)]
            && (id in AfterBirths(start, births) <==> id in start)
            && (id in start ==> AfterBirths(start, births)[id] == start[id])
            && BornIds(start, more) == BornIds(start, births) + (if id in start then {} else {id})
            && PromotedIds(start, more) == PromotedIds(start, births)
               + (if id in start && start[id].status == Active then {} else {id})
            && id !in BornIds(start, births) && id !in PromotedIds(start, births)
  {
  }

  /** Each state on the way of one more birth lies between. */
  lemma OnTheWay(start: Records, births: Records, id: string, birth: Record, now: Records)
    requires id !in births && birth.status == Proposed
    requires var base := AfterBirths(start, births);
             var newborn := if id in start then base else base[id := birth];
             now == base || now == newborn || now == AfterBirths(start, births[id := birth])
    ensures BirthsPart(start, births[id := birth], now)
  {
    OneMore(start, births, id, birth);
  }

  lemma PartOfAll(start: Records, stds: seq<Standard>, source: string, k: nat, now: Records)
    requires DistinctRecords(stds) && k <= |stds| && BirthsPart(start, Births(stds[..k], source), now)
    ensures BirthsPart(start, Births(stds, source), now)
  {
    BirthKept(stds, source, k, |stds|);
    assert stds[..|stds|] == stds;
    hide RecordId, Birth, DistinctRecords, Births;
    var some, all := Births(stds[..k], source), Births(stds, source);
    forall id | id in now
      ensures BirthAt(start, all, id, now[id])
    {
      assert BirthAt(start, some, id, now[id]);
    }
  }

  lemma BirthsDone(start: Records, births: Records)
    ensures BirthsPart(start, births, AfterBirths(start, births))
  {
  }

  lemma PartIsBetween(start: Records, births: Records, entities: Entities, repo: string, now: Records)
    requires BirthsPart(start, births, now)
    ensures Between(start, births, entities, repo, now)
  {
    hide LiveOf;
    forall id | id in now
      ensures BetweenAt(start, births, entities, repo, id, now[id])
    {
      assert BirthAt(start, births, id, now[id]);
    }
  }

  lemma MatchingStep(start: Records, births: Records, id: string, birth: Record)
    requires Matching(start, births) && (id in start ==> SameContent(start[id], birth))
    ensures Matching(start, births[id := birth])
  {
    hide SameContent;
  }

  lemma MatchingPart(start: Records, stds: seq<Standard>, source: string, k: nat)
    requires DistinctRecords(stds) && k < |stds| && Matching(start, Births(stds, source))
    ensures RecordId(stds[k], source) in start ==> SameContent(start[RecordId(stds[k], source)], Birth(stds[k], source))
  {
    hide RecordId, Birth, DistinctRecords, Births, SameContent;
    BirthKept(stds, source, k + 1, |stds|);
    assert stds[..|stds|] == stds;
    BirthStep(stds, source, k);
  }

  // --- retirement ---

  lemma RetireNone(start: Records, births: Records, entities: Entities, repo: string)
    ensures AfterRetiring(start, births, entities, repo, {}) == start
    ensures RetiredIds(start, births, entities, repo) * {} == {}
  {
    hide LiveOf;
  }

  lemma RetireStep(start: Records, births: Records, entities: Entities, repo: string, visited: set<string>, id: string)
    requires id in start && id !in visited
    ensures var now := AfterRetiring(start, births, entities, repo, visited);
            var mine := id !in births && LiveOf(entities, start[id], repo);
            && id in now && now[id] == start[id]
            && AfterRetiring(start, births, entities, repo, visited + {id})
               == (if mine then now[id := start[id].(status := Retired)] else now)
            && (mine <==> id in RetiredIds(start, births, entities, repo))
  {
    hide LiveOf;
  }

  /** The first k of a list, as a set. */
  function Firsts(ids: seq<string>, k: nat): set<string>
    requires k <= |ids|
  {
    set i | 0 <= i < k :: ids[i]
  }

  predicate AllDifferent(ids: seq<string>) {
    forall i, j :: 0 <= i < j < |ids| ==> ids[i] != ids[j]
  }

  lemma FirstsNone(ids: seq<string>)
    ensures Firsts(ids, 0) == {}
  {
  }

  lemma FirstsMore(ids: seq<string>, id: string)
    requires AllDifferent(ids) && id !in Firsts(ids, |ids|)
    ensures AllDifferent(ids + [id]) && Firsts(ids + [id], |ids + [id]|) == Firsts(ids, |ids|) + {id}
  {
    var more := ids + [id];
    assert more[|ids|] == id;
    assert forall i :: 0 <= i < |ids| ==> more[i] == ids[i];
  }

  lemma FirstsStep(ids: seq<string>, k: nat)
    requires AllDifferent(ids) && k < |ids|
    ensures Firsts(ids, k + 1) == Firsts(ids, k) + {ids[k]} && ids[k] !in Firsts(ids, k) && ids[k] in Firsts(ids, |ids|)
  {
  }

  /** The elements of a set, each once, in some order. */
  method Enumerate(keys: set<string>) returns (ids: seq<string>)
    ensures Firsts(ids, |ids|) == keys && AllDifferent(ids)
  {
    hide Firsts, AllDifferent;
    ids := [];
    FirstsNone(ids);
    OneOrNone();
    var rest := keys;
    while rest != {}
      invariant rest <= keys && Firsts(ids, |ids|) == keys - rest && AllDifferent(ids)
      decreases |rest|
    {
      var id :| id in rest;
      FirstsMore(ids, id);
      rest := rest - {id};
      ids := ids + [id];
    }
  }

  lemma OneOrNone()
    ensures AllDifferent([])
  {
  }

  lemma OneCounted(ids: set<string>, visited: set<string>, id: string)
    requires id !in visited
    ensures |ids * (visited + {id})| == |ids * visited| + if id in ids then 1 else 0
  {
    assert ids * (visited + {id}) == ids * visited + (if id in ids then {id} else {});
  }

  lemma RetireAll(start: Records, births: Records, entities: Entities, repo: string)
    ensures RetiredIds(start, births, entities, repo) * start.Keys == RetiredIds(start, births, entities, repo)
  {
    hide LiveOf;
  }

  lemma RetiringBetween(start: Records, births: Records, entities: Entities, repo: string, visited: set<string>)
    ensures Between(start, births, entities, repo, AfterRetiring(AfterBirths(start, births), births, entities, repo,
                                                                 visited))
  {
    hide LiveOf;
  }

  lemma RetiredAfterBirths(start: Records, births: Records, entities: Entities, repo: string)
    ensures RetiredIds(AfterBirths(start, births), births, entities, repo) == RetiredIds(start, births, entities, repo)
  {
    hide LiveOf;
  }

  lemma StartBetween(start: Records, births: Records, entities: Entities, repo: string)
    ensures Between(start, births, entities, repo, start)
  {
    hide LiveOf;
  }

  // --- main results ---

  lemma {:induction false} BirthShape(stds: seq<Standard>, source: string, id: string)
    requires id in Births(stds, source)
    ensures var b := Births(stds, source)[id];
            b.category == CATEGORY && b.evidence == [source] && b.status == Proposed
  {
    hide RecordId, AppliesTo;
    if stds != [] && id in Births(stds[..|stds| - 1], source) {
      BirthShape(stds[..|stds| - 1], source, id);
    }
  }

  /** After a successful sync this repo's live records are exactly the declared ones, all
      active, if and only if nothing is declared or the source entity names this repo. */
  lemma ExactlyDeclared(start: Records, stds: seq<Standard>, source: string, entities: Entities, repo: string)
    requires source in entities && Matching(start, Births(stds, source))
    ensures var births := Births(stds, source);
            var final := Final(start, births, entities, repo);
            && (forall id :: id in births ==> id in final && final[id].status == Active)
            && (LiveIds(entities, final, repo) == births.Keys <==> births.Keys == {} || entities[source] == Some(repo))
            && (entities[source] != Some(repo) ==> LiveIds(entities, final, repo) == {})
  {
    var births := Births(stds, source);
    var final := Final(start, births, entities, repo);
    forall id | id in final
      ensures LiveOf(entities, final[id], repo) <==> id in births && entities[source] == Some(repo)
      ensures id in births ==> final[id].status == Active
    {
      DeclaredOrRetired(start, stds, source, entities, repo, id);
    }
    hide LiveOf, Births;
    if births.Keys != {} && entities[source] != Some(repo) {
      var id :| id in births.Keys;
      assert id !in LiveIds(entities, final, repo);
    }
  }

  lemma DeclaredOrRetired(start: Records, stds: seq<Standard>, source: string, entities: Entities, repo: string,
                          id: string)
    requires source in entities && Matching(start, Births(stds, source))
             && id in Final(start, Births(stds, source), entities, repo)
    ensures var r := Final(start, Births(stds, source), entities, repo)[id];
            && (LiveOf(entities, r, repo) <==> id in Births(stds, source) && entities[source] == Some(repo))
            && (id in Births(stds, source) ==> r.status == Active)
  {
    hide RecordId, Birth, AppliesTo, Births;
    var births := Births(stds, source);
    if id in births {
      BirthShape(stds, source, id);
      var r := Final(start, births, entities, repo)[id];
      assert r == Activated(start, births, id);
      assert r.category == CATEGORY && r.evidence == [source];
      CitesOne(entities, source, repo);
    }
  }

  lemma CitesOne(entities: Entities, source: string, repo: string)
    requires source in entities
    ensures Cites(entities, [source], repo) <==> entities[source] == Some(repo)
  {
    assert [source][0] == source;
  }

  /** Undeclared records that do not resolve to this repo are left exactly as they were, and
      no record disappears. */
  lemma OthersUntouched(start: Records, births: Records, entities: Entities, repo: string, id: string)
    requires id in start && id !in births && !Cites(entities, start[id].evidence, repo)
    ensures id in Final(start, births, entities, repo) && Final(start, births, entities, repo)[id] == start[id]
  {
  }

  /** The final record under one id. */
  function Settled(records: Records, births: Records, entities: Entities, repo: string, id: string): Record
    requires id in records || id in births
  {
    if id in births then Activated(records, births, id)
    else if LiveOf(entities, records[id], repo) then records[id].(status := Retired)
    else records[id]
  }

  lemma FinalAt(records: Records, births: Records, entities: Entities, repo: string)
    ensures var final := Final(records, births, entities, repo);
            final.Keys == records.Keys + births.Keys && forall id :: id in final ==>
                final[id] == Settled(records, births, entities, repo, id)
  {
    hide LiveOf;
  }

  lemma SettledTwice(records: Records, births: Records, entities: Entities, repo: string, id: string, r: Record)
    requires id in records || id in births
    requires id !in births ==> r == records[id] || (LiveOf(entities, records[id], repo)
                                                    && r == records[id].(status := Retired))
    requires id in births ==> r == Activated(records, births, id) || r == if id in records then records[id]
             else births[id]
    ensures Settled(map[id := r], births, entities, repo, id) == Settled(records, births, entities, repo, id)
  {
    hide Cites;
  }

  lemma SettledLocal(records: Records, births: Records, entities: Entities, repo: string, id: string)
    requires id in records
    ensures Settled(records, births, entities, repo, id) == Settled(map[id := records[id]], births, entities, repo, id)
  {
    hide LiveOf;
  }

  /** From wherever a failed pass left the store, a successful one reaches the same state. */
  lemma Converges(start: Records, births: Records, entities: Entities, repo: string, now: Records)
    requires Between(start, births, entities, repo, now)
    ensures Final(now, births, entities, repo) == Final(start, births, entities, repo)
    ensures Matching(start, births) ==> Matching(now, births)
  {
    hide LiveOf, Final, Settled, SameContent, Activated;
    FinalAt(now, births, entities, repo);
    FinalAt(start, births, entities, repo);
    forall id | id in now
      ensures Settled(now, births, entities, repo, id) == Settled(start, births, entities, repo, id)
      ensures id in births && Matching(start, births) ==> SameContent(now[id], births[id])
    {
      assert BetweenAt(start, births, entities, repo, id, now[id]);
      SettledLocal(now, births, entities, repo, id);
      SettledTwice(start, births, entities, repo, id, now[id]);
      if id in births {
        ContentKept(start, births, id);
      }
    }
    forall id | id in births && id !in now
      ensures Settled(now, births, entities, repo, id) == Settled(start, births, entities, repo, id)
    {
      NeverBorn(start, now, births, entities, repo, id);
    }
  }

  lemma ContentKept(start: Records, births: Records, id: string)
    requires id in births
    ensures var base := if id in start then start[id] else births[id];
            SameContent(Activated(start, births, id), base) && SameContent(base, base)
            && (SameContent(base, births[id]) ==> SameContent(Activated(start, births, id), births[id]))
    ensures SameContent(births[id], births[id])
  {
  }

  lemma NeverBorn(a: Records, b: Records, births: Records, entities: Entities, repo: string, id: string)
    requires id in births && id !in a && id !in b
    ensures Settled(a, births, entities, repo, id) == Settled(b, births, entities, repo, id)
  {
  }

  lemma FinalIsBetween(start: Records, births: Records, entities: Entities, repo: string)
    ensures Between(start, births, entities, repo, Final(start, births, entities, repo))
  {
    hide AfterRetiring, AfterBirths, Between;
    RetiringBetween(start, births, entities, repo, AfterBirths(start, births).Keys);
  }

  /** The same sync again changes nothing and counts nothing. */
  lemma SecondSyncIdle(start: Records, births: Records, entities: Entities, repo: string)
    requires Matching(start, births)
    ensures var final := Final(start, births, entities, repo);
            && Final(final, births, entities, repo) == final
               && Counted(final, births, entities, repo) == Synced(0, 0, 0)
            && Matching(final, births)
  {
    hide Final, Between, Matching, Cites;
    var final := Final(start, births, entities, repo);
    FinalIsBetween(start, births, entities, repo);
    Converges(start, births, entities, repo, final);
    FinalAt(start, births, entities, repo);
    assert BornIds(final, births) == {};
    assert PromotedIds(final, births) == {};
    assert RetiredIds(final, births, entities, repo) == {};
  }

  /** The source entity is created at most once, whichever pass got there. */
  lemma SourceSettles(entities: Entities, source: string, repo: string)
    ensures WithSource(WithSource(entities, source, repo), source, repo) == WithSource(entities, source, repo)
    ensures source in WithSource(entities, source, repo)
    ensures source !in entities ==> WithSource(entities, source, repo)[source] == Some(repo)
  {
  }
}
