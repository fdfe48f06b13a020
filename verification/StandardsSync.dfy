/** Sync: the declared standards of one repo projected onto a record store it shares with
    others. Every call to the store may be answered by a fault, with or without the effect. */
module StandardsSync {
  import opened Seqs
  import opened Text
  import opened StandardsFile
  import opened StandardsRecords

  datatype Answer = Fine | FaultBefore | FaultAfter | Refuse

  datatype Reply = Done | Conflict | Refused | Fault

  class Syncer {
    var entities: Entities
    var records: Records
    /** How the environment answers the calls to come; Fine once it is used up. */
    var answers: seq<Answer>

    constructor (entities: Entities, records: Records, answers: seq<Answer>)
      ensures this.entities == entities && this.records == records && this.answers == answers
    {
      this.entities, this.records, this.answers := entities, records, answers;
    }

    ghost predicate Faultless()
      reads this
    {
      forall i :: 0 <= i < |answers| ==> answers[i].Fine?
    }

    method Ask() returns (a: Answer)
      modifies this`answers
      ensures old(Faultless()) ==> a.Fine? && Faultless()
    {
      if answers == [] {
        return Fine;
      }
      a := answers[0];
      answers := answers[1..];
    }

    /** The strict create lane: an existing entity is a conflict, whoever made it. */
    method CreateSource(id: string, repo: string) returns (reply: Reply)
      modifies this`answers, this`entities
      ensures entities == old(entities) || entities == WithSource(old(entities), id, repo)
      ensures reply.Done? || reply.Conflict? ==> entities == WithSource(old(entities), id, repo)
      ensures old(Faultless()) ==> Faultless() && (reply.Done? || reply.Conflict?)
    {
      var a := Ask();
      if a.FaultBefore? || a.Refuse? {
        return Fault;
      }
      if id in entities {
        return if a.FaultAfter? then Fault else Conflict;
      }
      entities := entities[id := Some(repo)];
      return if a.FaultAfter? then Fault else Done;
    }

    /** The record is left alone when it exists; other content under its id is an error. */
    method CreateLesson(id: string, birth: Record) returns (reply: Reply, created: bool)
      modifies this`answers, this`records
      ensures records == old(records) || (id !in old(records) && records == old(records)[id := birth])
      ensures reply.Done? ==> id in records && SameContent(records[id], birth) && (created <==> id !in old(records))
      ensures old(Faultless()) && (id in old(records) ==> SameContent(old(records)[id], birth)) ==> reply.Done?
      ensures old(Faultless()) ==> Faultless()
    {
      var a := Ask();
      created := false;
      if a.FaultBefore? || a.Refuse? {
        return Fault, false;
      }
      if id in records {
        reply := if a.FaultAfter? || !SameContent(records[id], birth) then Fault else Done;
      } else {
        records := records[id := birth];
        created := true;
        reply := if a.FaultAfter? then Fault else Done;
      }
    }

    method ReadStatus(id: string) returns (reply: Reply, status: Option<Status>)
      modifies this`answers
      ensures reply.Done? ==> status == if id in records then Some(records[id].status) else None
      ensures old(Faultless()) ==> reply.Done? && Faultless()
    {
      var a := Ask();
      reply := if a.Fine? then Done else Fault;
      status := if id in records then Some(records[id].status) else None;
    }

    method SetStatus(id: string, status: Status) returns (reply: Reply)
      requires id in records
      modifies this`answers, this`records
      ensures records == old(records) || records == old(records)[id := old(records)[id].(status := status)]
      ensures reply.Done? ==> records == old(records)[id := old(records)[id].(status := status)]
      ensures reply.Refused? ==> records == old(records)
      ensures old(Faultless()) ==> reply.Done? && Faultless()
    {
      var a := Ask();
      if a.FaultBefore? {
        return Fault;
      }
      if a.Refuse? {
        return Refused;
      }
      records := records[id := records[id].(status := status)];
      return if a.FaultAfter? then Fault else Done;
    }

    method SourceRepo(id: string) returns (reply: Reply, repo: Option<string>)
      modifies this`answers
      ensures reply.Done? ==> repo == if id in entities then entities[id] else None
      ensures old(Faultless()) ==> reply.Done? && Faultless()
    {
      var a := Ask();
      reply := if a.Fine? then Done else Fault;
      repo := if id in entities then entities[id] else None;
    }

    /** evidenceMatchesRepo: one read per distinct source. */
    method EvidenceMatches(evidence: seq<string>, repo: string, seen0: map<string, Option<string>>)
      returns (reply: Reply, matches: bool, seen: map<string, Option<string>>)
      requires forall ev :: ev in seen0 ==> seen0[ev] == if ev in entities then entities[ev] else None
      modifies this`answers
      ensures forall ev :: ev in seen ==> seen[ev] == if ev in entities then entities[ev] else None
      ensures reply.Done? || reply.Fault?
      ensures reply.Done? ==> (matches <==> Cites(entities, evidence, repo))
      ensures old(Faultless()) ==> reply.Done? && Faultless()
    {
      seen, matches := seen0, false;
      for k := 0 to |evidence|
        invariant forall ev :: ev in seen ==> seen[ev] == if ev in entities then entities[ev] else None
        invariant forall i :: 0 <= i < k ==> !(evidence[i] in entities && entities[evidence[i]] == Some(repo))
        invariant old(Faultless()) ==> Faultless()
      {
        var ev := evidence[k];
        if ev !in seen {
          var r, found := SourceRepo(ev);
          if !r.Done? {
            return Fault, false, seen;
          }
          seen := seen[ev := found];
        }
        if seen[ev] == Some(repo) {
          return Done, true, seen;
        }
      }
      return Done, false, seen;
    }

    /** Birth, status read and promotion of one declared standard. */
    method Ensure(id: string, birth: Record, ghost start: Records, ghost births: Records) returns (outcome: Outcome)
      requires id !in births && birth.status == Proposed && records == AfterBirths(start, births)
      modifies this`answers, this`records
      ensures BirthsPart(start, births[id := birth], records)
      ensures outcome.Synced?
              ==> records == AfterBirths(start, births[id := birth]) && (id in start ==> SameContent(start[id], birth))
      ensures outcome.Synced? ==> outcome.born == (if id in start then 0 else 1) && outcome.retired == 0
      ensures outcome.Synced? ==> outcome.promoted == (if id in start && start[id].status == Active then 0 else 1)
      ensures old(Faultless()) && (id in start ==> SameContent(start[id], birth)) ==> outcome.Synced? && Faultless()
    {
      hide SameContent, AfterBirths, BirthsPart, BornIds, PromotedIds;
      OneMore(start, births, id, birth);
      OnTheWay(start, births, id, birth, records);
      OnTheWay(start, births, id, birth, if id in start then records else records[id := birth]);
      OnTheWay(start, births, id, birth, AfterBirths(start, births[id := birth]));
      var reply, created := CreateLesson(id, birth);
      if !reply.Done? {
        return SubstrateFault;
      }
      var read, status := ReadStatus(id);
      if !read.Done? {
        return SubstrateFault;
      }
      if status == Some(Active) {
        return Synced(if created then 1 else 0, 0, 0);
      }
      ghost var at := records;
      assert at[id := at[id].(status := Active)] == AfterBirths(start, births[id := birth]);
      var promoted := SetStatus(id, Active);
      if promoted.Refused? {
        return DeclarationFault;
      }
      if !promoted.Done? {
        return SubstrateFault;
      }
      return Synced(if created then 1 else 0, 1, 0);
    }

    /** Is this candidate live, no longer declared, and ours? */
    method Withdrawn(c: Record, declared: bool, repo: string, seen0: map<string, Option<string>>)
      returns (reply: Reply, withdrawn: bool, seen: map<string, Option<string>>)
      requires forall ev :: ev in seen0 ==> seen0[ev] == if ev in entities then entities[ev] else None
      modifies this`answers
      ensures forall ev :: ev in seen ==> seen[ev] == if ev in entities then entities[ev] else None
      ensures reply.Done? || reply.Fault?
      ensures reply.Done? ==> (withdrawn <==> !declared && LiveOf(entities, c, repo))
      ensures old(Faultless()) ==> reply.Done? && Faultless()
    {
      hide Cites;
      if c.category != CATEGORY || declared {
        return Done, false, seen0;
      }
      if c.status != Active && c.status != Proposed {
        return Done, false, seen0;
      }
      reply, withdrawn, seen := EvidenceMatches(c.evidence, repo, seen0);
    }

    /** One candidate, retired when it is withdrawn. */
    method RetireOne(id: string, c: Record, declared: bool, repo: string, seen0: map<string, Option<string>>,
                     ghost start: Records, ghost births: Records, ghost visited: set<string>)
      returns (reply: Reply, retired: bool, seen: map<string, Option<string>>)
      requires id in start && id !in visited && c == start[id] && (declared <==> id in births)
      requires records == AfterRetiring(start, births, entities, repo, visited)
      requires forall ev :: ev in seen0 ==> seen0[ev] == if ev in entities then entities[ev] else None
      modifies this`answers, this`records
      ensures forall ev :: ev in seen ==> seen[ev] == if ev in entities then entities[ev] else None
      ensures reply.Done? ==> records == AfterRetiring(start, births, entities, repo, visited + {id})
      ensures reply.Done? ==> (retired <==> id in RetiredIds(start, births, entities, repo))
      ensures records == AfterRetiring(start, births, entities, repo, visited)
           || records == AfterRetiring(start, births, entities, repo, visited + {id})
      ensures old(Faultless()) ==> reply.Done? && Faultless()
    {
      hide LiveOf, AfterRetiring;
      RetireStep(start, births, entities, repo, visited, id);
      reply, retired, seen := Withdrawn(c, declared, repo, seen0);
      if !reply.Done? {
        return Fault, false, seen;
      }
      if retired {
        reply := SetStatus(id, Retired);
      }
    }

    /** The listing: every record once, in an order the store picks. */
    method ListRecords() returns (reply: Reply, ids: seq<string>)
      modifies this`answers
      ensures reply.Done? ==> Firsts(ids, |ids|) == records.Keys && AllDifferent(ids)
      ensures reply.Done? || reply.Fault?
      ensures old(Faultless()) ==> reply.Done? && Faultless()
    {
      hide Firsts, AllDifferent;
      var a := Ask();
      if !a.Fine? {
        return Fault, [];
      }
      ids := Enumerate(records.Keys);
      return Done, ids;
    }

    /** retireRemoved. */
    method RetireRemoved(repo: string, declared: set<string>, ghost births: Records)
        returns (outcome: Outcome, ghost visited: set<string>)
      requires declared == births.Keys
      modifies this`answers, this`records
      ensures records == AfterRetiring(old(records), births, entities, repo, visited)
      ensures outcome.Synced? ==> visited == old(records).Keys
      ensures outcome.Synced? ==> outcome == Synced(0, 0, |RetiredIds(old(records), births, entities, repo)|)
      ensures !outcome.DeclarationFault?
      ensures old(Faultless()) ==> outcome.Synced? && Faultless()
    {
      hide LiveOf, RetiredIds, AfterRetiring, Firsts, AllDifferent;
      ghost var start := records;
      ghost var targets := RetiredIds(start, births, entities, repo);
      visited := {};
      RetireNone(start, births, entities, repo);
      RetireAll(start, births, entities, repo);
      var listed, ids := ListRecords();
      if !listed.Done? {
        return SubstrateFault, visited;
      }
      var candidates := records;
      var seen: map<string, Option<string>> := map[];
      var retired := 0;
      FirstsNone(ids);
      for k := 0 to |ids|
        invariant visited == Firsts(ids, k)
        invariant records == AfterRetiring(start, births, entities, repo, visited)
        invariant retired == |targets * visited|
        invariant forall ev :: ev in seen ==> seen[ev] == if ev in entities then entities[ev] else None
        invariant old(Faultless()) ==> Faultless()
      {
        var id := ids[k];
        FirstsStep(ids, k);
        var reply, one;
        reply, one, seen := RetireOne(id, candidates[id], id in declared, repo, seen, start, births, visited);
        OneCounted(targets, visited, id);
        if !reply.Done? {
          if records != AfterRetiring(start, births, entities, repo, visited) {
            visited := visited + {id};
          }
          return SubstrateFault, visited;
        }
        if one {
          retired := retired + 1;
        }
        visited := visited + {id};
      }
      return Synced(0, 0, retired), visited;
    }

    method EnsureAll(stds: seq<Standard>, source: string) returns (outcome: Outcome)
      requires DistinctRecords(stds)
      modifies this`answers, this`records
      ensures BirthsPart(old(records), Births(stds, source), records)
      ensures outcome.Synced?
              ==> records == AfterBirths(old(records), Births(stds, source)) &&
                  Matching(old(records), Births(stds, source))
      ensures outcome.Synced? ==> outcome == Synced(|BornIds(old(records), Births(stds, source))|,
                                                    |PromotedIds(old(records), Births(stds, source))|, 0)
      ensures old(Faultless()) && Matching(old(records), Births(stds, source)) ==> outcome.Synced? && Faultless()
    {
      hide RecordId, BirthsPart, AfterBirths, SameContent, Activated, BornIds, PromotedIds, DistinctRecords, AppliesTo,
           Matching, Births;
      ghost var start := records;
      var born, promoted := 0, 0;
      NoBirths(start);
      FirstBirths(stds, source);
      for k := 0 to |stds|
        invariant records == AfterBirths(start, Births(stds[..k], source)) && Matching(start, Births(stds[..k], source))
        invariant born == |BornIds(start, Births(stds[..k], source))|
                  && promoted == |PromotedIds(start, Births(stds[..k], source))|
        invariant old(Faultless()) ==> Faultless()
      {
        var id := RecordId(stds[k], source);
        var birth := Birth(stds[k], source);
        ghost var sofar := Births(stds[..k], source);
        NewId(stds, source, k);
        BirthStep(stds, source, k);
        OneMore(start, sofar, id, birth);
        if Matching(start, Births(stds, source)) {
          MatchingPart(start, stds, source, k);
        }
        var one := Ensure(id, birth, start, sofar);
        if !one.Synced? {
          PartOfAll(start, stds, source, k + 1, records);
          return one;
        }
        MatchingStep(start, sofar, id, birth);
        born, promoted := born + one.born, promoted + one.promoted;
      }
      assert stds[..|stds|] == stds;
      BirthsDone(start, Births(stds, source));
      return Synced(born, promoted, 0);
    }

    /** What a pass over an accepted file leaves behind, however it ends. */
    method SyncAccepted(stds: seq<Standard>, source: string, repo: string) returns (outcome: Outcome)
      requires DistinctRecords(stds)
      modifies this
      ensures var births, after := Births(stds, source), WithSource(old(entities), source, repo);
              && (entities == old(entities) || entities == after)
              && Between(old(records), births, after, repo, records)
              && (outcome.Synced? ==>
                    && entities == after && records == Final(old(records), births, after, repo)
                       && Matching(old(records), births)
                    && outcome == Counted(old(records), births, after, repo))
              && (old(Faultless()) && Matching(old(records), births) ==> outcome.Synced?)
    {
      hide RecordId, Between, BirthsPart, AfterBirths, AfterRetiring, Matching, Births, BornIds, PromotedIds,
           RetiredIds, DistinctRecords;
      ghost var start := records;
      ghost var births := Births(stds, source);
      ghost var after := WithSource(entities, source, repo);
      StartBetween(start, births, after, repo);
      var created := CreateSource(source, repo);
      if !created.Done? && !created.Conflict? {
        return SubstrateFault;
      }
      outcome := EnsureAll(stds, source);
      PartIsBetween(start, births, after, repo, records);
      if !outcome.Synced? {
        return;
      }
      BirthKeys(stds, source);
      var retire, visited := RetireRemoved(repo, DeclaredIds(stds, source), births);
      RetiringBetween(start, births, after, repo, visited);
      if !retire.Synced? {
        return retire;
      }
      RetiredAfterBirths(start, births, after, repo);
      return Synced(outcome.born, outcome.promoted, retire.retired);
    }

    /** Sync: a file that does not decode or validate is the repo's fault and writes nothing. */
    method Sync(raw: string, decoded: Option<RawFile>, repo: string) returns (outcome: Outcome)
      modifies this
      ensures !(decoded.Some? && Accepts(decoded.value))
              ==> outcome == DeclarationFault && entities == old(entities) && records == old(records)
      ensures decoded.Some? && Accepts(decoded.value) ==>
                var source := SourceId(repo, raw);
                var births, after := Births(Declared(decoded.value), source), WithSource(old(entities), source, repo);
                && (entities == old(entities) || entities == after)
                && Between(old(records), births, after, repo, records)
                && (outcome.Synced? ==>
                      && entities == after && records == Final(old(records), births, after, repo)
                         && Matching(old(records), births)
                      && outcome == Counted(old(records), births, after, repo))
                && (old(Faultless()) && Matching(old(records), births) ==> outcome.Synced?)
    {
      hide Accepts, Between, Final, Matching, Births, Counted, StandardOf, SourceId, DistinctRecords;
      if decoded.None? {
        return DeclarationFault;
      }
      var file := Parse(decoded.value);
      if file.Err? {
        return DeclarationFault;
      }
      assert file.value == Declared(decoded.value);
      AcceptedAreDistinct(decoded.value, file.value);
      outcome := SyncAccepted(file.value, SourceId(repo, raw), repo);
    }

    /** The file is gone: retirement only. */
    method SyncAbsent(repo: string) returns (outcome: Outcome)
      modifies this
      ensures entities == old(entities) && Between(old(records), map[], entities, repo, records)
              && !outcome.DeclarationFault?
      ensures outcome.Synced? ==> records == Final(old(records), map[], entities, repo)
      ensures outcome.Synced? ==> outcome == Counted(old(records), map[], entities, repo)
      ensures old(Faultless()) ==> outcome.Synced?
    {
      hide Between, AfterRetiring, AfterBirths, RetiredIds, BornIds, PromotedIds, Matching;
      ghost var start := records;
      NoBirths(start);
      ghost var visited;
      outcome, visited := RetireRemoved(repo, {}, map[]);
      RetiringBetween(start, map[], entities, repo, visited);
    }
  }
}
