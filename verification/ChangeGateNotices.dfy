/** What a thread is left with: when an announcement stays open, and when the exhaustion
    notice is true. */
module ChangeGateNotices {
  import opened Text
  import opened Seqs
  import opened WriteRetry
  import opened ChangeGate
  import opened ChangeGateSafety

  // --- reading the history ---

  predicate AnyLanded(log: seq<Event>) {
    exists i :: 0 <= i < |log| && log[i].Wrote? && log[i].landed
  }

  /** The last write request that landed, of any process. */
  function LastWrite(log: seq<Event>): (r: Option<Event>)
    ensures r.Some? ==> r.value.Wrote?
  {
    if log == [] then None else
      var e := log[|log| - 1];
      if e.Wrote? && e.landed then Some(e) else LastWrite(log[..|log| - 1])
  }

  predicate OwnLanded(log: seq<Event>, p: nat) {
    exists i :: 0 <= i < |log| && log[i].Wrote? && log[i].landed && log[i].who == p
  }

  predicate OthersLanded(log: seq<Event>, p: nat) {
    exists i :: 0 <= i < |log| && log[i].Wrote? && log[i].landed && log[i].who != p
  }

  predicate WroteLanded(log: seq<Event>, p: nat, d: Decision) {
    exists i :: 0 <= i < |log| && log[i].Wrote? && log[i].landed && log[i].who == p && log[i].decision == d
  }

  predicate OwnAcknowledged(log: seq<Event>, p: nat) {
    exists i :: 0 <= i < |log| && log[i].Wrote? && log[i].who == p && log[i].error.None?
  }

  /** The process saw one of its writes answered by a kind that may have landed. */
  predicate OwnUncertain(log: seq<Event>, p: nat) {
    exists i :: 0 <= i < |log| && log[i].Wrote? && log[i].who == p && log[i].error.Some?
        && MayHaveLanded(log[i].error.value)
  }

  predicate FoundStanding(log: seq<Event>, p: nat, d: Decision) {
    Stood(p, d) in log
  }

  /** A correction of announced decision d that a reader of the thread can see. */
  predicate CorrectionLanded(log: seq<Event>, p: nat, d: Decision) {
    exists i :: 0 <= i < |log| && log[i].Corrected? && log[i].who == p && log[i].announced == d
        && !log[i].fate.NotLanded?
  }

  /** The process neither found a decision standing nor corrected itself. */
  predicate NoVerdict(log: seq<Event>, p: nat) {
    forall i :: 0 <= i < |log| && log[i].who == p ==> !log[i].Stood? && !log[i].Corrected?
  }

  predicate NotCorrected(log: seq<Event>, p: nat) {
    forall i :: 0 <= i < |log| && log[i].who == p ==> !log[i].Corrected?
  }

  /** The dispatch itself answered for d: it wrote d, or found d standing, or its correction of
      d is on the thread. What other stamps write later is another matter. */
  predicate Answered(log: seq<Event>, p: nat, d: Decision) {
    WroteLanded(log, p, d) || FoundStanding(log, p, d) || CorrectionLanded(log, p, d)
  }

  /** The thread does not assert d against the record: d stands, or a correction of d is on the
      thread. */
  predicate ThreadHolds(w: World, p: nat, d: Decision) {
    StandingDecision(w.run) == Some(d) || CorrectionLanded(w.log, p, d)
  }

  lemma LastWriteSnoc(log: seq<Event>, e: Event)
    ensures LastWrite(log + [e]) == if e.Wrote? && e.landed then Some(e) else LastWrite(log)
  {
    assert (log + [e])[..|log|] == log;
  }

  lemma {:induction false} LastWriteIsAny(log: seq<Event>)
    ensures LastWrite(log).Some? <==> AnyLanded(log)
    ensures LastWrite(log).Some? ==> LastWrite(log).value in log && LastWrite(log).value.landed
  {
    if log != [] {
      var before, e := log[..|log| - 1], log[|log| - 1];
      LastWriteIsAny(before);
      assert log == before + [e];
      Snoc1(before, e, 0);
    }
  }

  lemma Snoc1(log: seq<Event>, e: Event, p: nat)
    ensures AnyLanded(log + [e]) <==> AnyLanded(log) || (e.Wrote? && e.landed)
    ensures OwnLanded(log + [e], p) <==> OwnLanded(log, p) || (e.Wrote? && e.landed && e.who == p)
    ensures OwnAcknowledged(log + [e], p) <==> OwnAcknowledged(log, p) || (e.Wrote? && e.who == p && e.error.None?)
    ensures NoVerdict(log + [e], p) <==> NoVerdict(log, p) && (e.who == p ==> !e.Stood? && !e.Corrected?)
    ensures NotCorrected(log, p) && (e.who == p ==> !e.Corrected?) ==> NotCorrected(log + [e], p)
    ensures NoVerdict(log, p) ==> NotCorrected(log, p)
  {
    var next := log + [e];
    assert next[|log|] == e;
    assert forall i :: 0 <= i < |log| ==> next[i] == log[i];
    if AnyLanded(log) {
      var i :| 0 <= i < |log| && log[i].Wrote? && log[i].landed;
      assert next[i] == log[i];
    }
    if OwnLanded(log, p) {
      var i :| 0 <= i < |log| && log[i].Wrote? && log[i].landed && log[i].who == p;
      assert next[i] == log[i];
    }
    if OwnAcknowledged(log, p) {
      var i :| 0 <= i < |log| && log[i].Wrote? && log[i].who == p && log[i].error.None?;
      assert next[i] == log[i];
    }
    if NoVerdict(next, p) {
      forall i | 0 <= i < |log| && log[i].who == p
        ensures !log[i].Stood? && !log[i].Corrected?
      {
        assert next[i] == log[i];
      }
    }
  }

  lemma Snoc2(log: seq<Event>, e: Event, p: nat, d: Decision)
    ensures WroteLanded(log + [e], p, d)
            <==> WroteLanded(log, p, d) || (e.Wrote? && e.landed && e.who == p && e.decision == d)
    ensures FoundStanding(log + [e], p, d) <==> FoundStanding(log, p, d) || e == Stood(p, d)
    ensures CorrectionLanded(log, p, d) ==> CorrectionLanded(log + [e], p, d)
  {
    var next := log + [e];
    assert next[|log|] == e;
    assert forall i :: 0 <= i < |log| ==> next[i] == log[i];
    if WroteLanded(log, p, d) {
      var i :| 0 <= i < |log| && log[i].Wrote? && log[i].landed && log[i].who == p && log[i].decision == d;
      assert next[i] == log[i];
    }
    if CorrectionLanded(log, p, d) {
      var i :| 0 <= i < |log| && log[i].Corrected? && log[i].who == p && log[i].announced == d
          && !log[i].fate.NotLanded?;
      assert next[i] == log[i];
    }
  }

  // --- the invariant ---

  /** Guard 1 saw an undecided gate, so nothing of this dispatch had landed by then, and it
      has not written since. */
  predicate BeforeWriting(pc: ApplyPc) {
    pc.ResolveThread? || pc.Notify? || pc.Authorize? || pc.Announce? || pc.ReadGate? || pc.Correct?
  }

  predicate Compared(pc: ApplyPc) {
    pc.Correct? || pc == Finished(Applied) || pc == Finished(Superseded)
  }

  predicate ApplyTrace(log: seq<Event>, p: nat, pc: ApplyPc, posted: Option<Announcement>) {
    && (!Compared(pc) ==> NoVerdict(log, p))
    && (BeforeWriting(pc) ==> !OwnLanded(log, p))
    && (Compared(pc) ==> AnyLanded(log))
    && (pc != Finished(Superseded) ==> NotCorrected(log, p))
    && (pc != Finished(Applied) ==> !OwnAcknowledged(log, p))
    && (pc.Correct? ==> posted.Some? && !FoundStanding(log, p, posted.value.decision))
    && (pc == Finished(Applied) ==>
          posted.Some? && (WroteLanded(log, p, posted.value.decision) || FoundStanding(log, p, posted.value.decision)))
    && (pc == Finished(Superseded) ==>
          posted.Some? && !OwnLanded(log, p) && !FoundStanding(log, p, posted.value.decision))
  }

  predicate TraceOk(log: seq<Event>, p: nat, proc: Proc) {
    proc.Apply? ==> ApplyTrace(log, p, proc.pc, proc.posted)
  }

  /** Past its first read of the run, a process knows that the run exists. */
  predicate KnowsRun(proc: Proc) {
    (proc.Apply? && !proc.pc.Fetch? && !proc.pc.Exhausted? && !proc.pc.Finished?)
    || (proc.Command? && (proc.cpc.CommandRead? || proc.cpc.CommandWrite?))
  }

  /** Only kinds that may land have landed while reporting failure. */
  predicate KindsTold(log: seq<Event>) {
    forall i :: 0 <= i < |log| && log[i].Wrote? && log[i].landed && log[i].error.Some?
        ==> MayHaveLanded(log[i].error.value)
  }

  /** What stands is what the last write request to land has written, whoever sent it. */
  predicate GateMatches(run: Option<Run>, log: seq<Event>) {
    StandingDecision(run) == if LastWrite(log).Some? then Some(LastWrite(log).value.decision) else None
  }

  ghost predicate Traced(w: World) {
    && Inv(w)
    && GateMatches(w.run, w.log) && KindsTold(w.log)
    && (forall p :: 0 <= p < |w.procs| ==> TraceOk(w.log, p, w.procs[p]) && (KnowsRun(w.procs[p]) ==> w.run.Some?))
  }

  // --- one step of one process ---

  ghost predicate StepTraced(run: Option<Run>, log: seq<Event>, p: nat, e: Effect) {
    && TraceOk(Logged(log, e.event), p, e.proc)
    && GateMatches(e.run, Logged(log, e.event))
    && KindsTold(Logged(log, e.event))
    && (KnowsRun(e.proc) ==> e.run.Some?) && (run.Some? ==> e.run.Some?)
  }

  lemma OwnIsAny(log: seq<Event>, p: nat)
    ensures OwnLanded(log, p) ==> AnyLanded(log)
  {
  }

  lemma WroteIsOwn(log: seq<Event>, p: nat, d: Decision)
    ensures WroteLanded(log, p, d) ==> OwnLanded(log, p)
  {
  }

  lemma AnsweredNeedsVerdict(log: seq<Event>, p: nat, d: Decision)
    requires NoVerdict(log, p)
    ensures Answered(log, p, d) <==> WroteLanded(log, p, d)
  {
    assert !FoundStanding(log, p, d) && !CorrectionLanded(log, p, d);
  }

  lemma KindsSnoc(log: seq<Event>, e: Event)
    ensures KindsTold(log + [e]) <==> KindsTold(log) && (e.Wrote? && e.landed && e.error.Some?
                                                         ==> MayHaveLanded(e.error.value))
  {
    var next := log + [e];
    assert next[|log|] == e;
    if KindsTold(next) {
      forall i | 0 <= i < |log| && log[i].Wrote? && log[i].landed && log[i].error.Some?
        ensures MayHaveLanded(log[i].error.value)
      {
        assert next[i] == log[i];
      }
    }
  }

  predicate Silent(e: Event) {
    !e.Wrote? && !e.Stood? && !e.Corrected?
  }

  /** An event that neither writes nor compares leaves the claims of every process alone, and
      so does whatever another process does. */
  lemma TraceSnoc(log: seq<Event>, e: Event, p: nat, proc: Proc)
    requires TraceOk(log, p, proc) && (Silent(e) || e.who != p)
    ensures TraceOk(log + [e], p, proc)
  {
    hide AnyLanded, OwnLanded, OwnAcknowledged, NoVerdict, NotCorrected, WroteLanded, FoundStanding, CorrectionLanded;
    if proc.Apply? {
      Snoc1(log, e, p);
      if proc.posted.Some? {
        Snoc2(log, e, p, proc.posted.value.decision);
      }
    }
  }

  /** While the dispatch is still at work: no verdict, nothing acknowledged. */
  predicate AtWork(log: seq<Event>, p: nat) {
    NoVerdict(log, p) && NotCorrected(log, p) && !OwnAcknowledged(log, p)
  }

  lemma WorkSnoc(log: seq<Event>, e: Event, p: nat)
    requires AtWork(log, p) && e.who == p && !e.Stood? && !e.Corrected? && (e.Wrote? ==> e.error.Some?)
    ensures AtWork(log + [e], p)
  {
    hide OwnLanded, OwnAcknowledged, NoVerdict, NotCorrected, AnyLanded;
    Snoc1(log, e, p);
  }

  lemma GateSnoc(run: Option<Run>, log: seq<Event>, e: Event)
    requires GateMatches(run, log) && !e.Wrote?
    ensures GateMatches(run, log + [e])
  {
    hide LastWrite;
    LastWriteSnoc(log, e);
  }

  lemma RetryTraced(log: seq<Event>, p: nat, proc: Proc)
    requires proc.Apply? && AtWork(log, p)
    ensures TraceOk(log, p, Retry(proc)) && !KnowsRun(Retry(proc))
  {
    hide OwnLanded, OwnAcknowledged, NoVerdict, NotCorrected;
  }

  lemma SnapshotTraced(log: seq<Event>, p: nat, proc: Proc, snap: Run)
    requires proc.Apply? && AtWork(log, p) && (snap.decision.None? ==> !OwnLanded(log, p))
    ensures TraceOk(log, p, OnSnapshot(proc, snap))
  {
    hide OwnLanded, OwnAcknowledged, NoVerdict, NotCorrected;
  }

  lemma FetchTraced(run: Option<Run>, log: seq<Event>, p: nat, proc: Proc, reply: Reply)
    requires proc.Apply? && proc.pc.Fetch? && TraceOk(log, p, proc) && GateMatches(run, log) && KindsTold(log)
    ensures StepTraced(run, log, p, StepFetch(run, p, proc, reply))
  {
    hide OwnLanded, OwnAcknowledged, NoVerdict, NotCorrected, AnyLanded, KindsTold, Retry, OnSnapshot, FoundStanding,
         WroteLanded, LastWrite;
    assert AtWork(log, p);
    RetryTraced(log, p, proc);
    if reply.Ok? && run.Some? {
      var e := Fetched(p, run.value);
      OwnIsAny(log, p);
      LastWriteIsAny(log);
      LastWriteSnoc(log, e);
      WorkSnoc(log, e, p);
      Snoc1(log, e, p);
      KindsSnoc(log, e);
      SnapshotTraced(log + [e], p, proc, run.value);
    }
  }

  /** The calls between the snapshot and the gate. */
  lemma GuardTraced(run: Option<Run>, log: seq<Event>, p: nat, proc: Proc, reply: Reply)
    requires proc.Apply? && (proc.pc.ResolveThread? || proc.pc.Notify? || proc.pc.Authorize? || proc.pc.Announce?)
    requires TraceOk(log, p, proc) && GateMatches(run, log) && KindsTold(log) && run.Some?
    requires ProcOk(log, p, proc)
    ensures StepTraced(run, log, p, StepApply(run, p, proc, reply))
  {
    hide OwnLanded, OwnAcknowledged, NoVerdict, NotCorrected, AnyLanded, KindsTold, Retry, FoundStanding, WroteLanded,
         LastFetch, LastAcked, GateMatches;
    assert AtWork(log, p) && !OwnLanded(log, p);
    var effect := StepApply(run, p, proc, reply);
    RetryTraced(log, p, proc);
    if effect.event.Some? {
      var e := effect.event.value;
      WorkSnoc(log, e, p);
      Snoc1(log, e, p);
      KindsSnoc(log, e);
      GateSnoc(run, log, e);
      RetryTraced(log + [e], p, proc);
    }
  }

  lemma ReadTraced(run: Option<Run>, log: seq<Event>, p: nat, proc: Proc, snap: Run, reply: Reply)
    requires proc.Apply? && proc.pc == ReadGate(snap) && ProcOk(log, p, proc)
    requires TraceOk(log, p, proc) && GateMatches(run, log) && KindsTold(log) && run.Some?
    ensures StepTraced(run, log, p, StepReadGate(run, p, proc, snap, reply))
  {
    hide OwnLanded, OwnAcknowledged, NoVerdict, NotCorrected, AnyLanded, KindsTold, Retry, FoundStanding, WroteLanded,
         LastFetch, LastAcked, GateMatches;
    assert AtWork(log, p) && !OwnLanded(log, p);
    RetryTraced(log, p, proc);
    if reply.Ok? && StandingDecision(run).Some? {
      var e := Stood(p, StandingDecision(run).value);
      var d := AnnouncementOf(snap).decision;
      NotFound(log, p, d);
      GateIsAny(run, log);
      Snoc1(log, e, p);
      Snoc2(log, e, p, d);
      KindsSnoc(log, e);
      GateSnoc(run, log, e);
    }
  }

  lemma GateIsAny(run: Option<Run>, log: seq<Event>)
    requires GateMatches(run, log)
    ensures StandingDecision(run).Some? <==> AnyLanded(log)
  {
    hide LastWrite, AnyLanded;
    LastWriteIsAny(log);
  }

  lemma NotFound(log: seq<Event>, p: nat, d: Decision)
    requires NoVerdict(log, p)
    ensures !FoundStanding(log, p, d)
  {
  }

  lemma LandDecides(run: Option<Run>, log: seq<Event>, e: Event, d: Decision, reply: Reply)
    requires GateMatches(run, log) && run.Some? && e.Wrote? && e.decision == d && e.landed == WriteLands(reply)
    ensures GateMatches(if WriteLands(reply) then Land(run, d) else run, log + [e])
  {
    hide LastWrite;
    LastWriteSnoc(log, e);
  }

  lemma WriteTraced(run: Option<Run>, log: seq<Event>, p: nat, proc: Proc, snap: Run, request: nat, reply: Reply)
    requires proc.Apply? && proc.pc == Write(snap, request) && ProcOk(log, p, proc)
    requires TraceOk(log, p, proc) && GateMatches(run, log) && KindsTold(log) && run.Some?
    ensures StepTraced(run, log, p, StepWrite(run, p, proc, snap, request, reply))
  {
    hide OwnLanded, OwnAcknowledged, NoVerdict, NotCorrected, AnyLanded, KindsTold, Retry, FoundStanding, WroteLanded,
         LastFetch, LastAcked, GateMatches;
    assert AtWork(log, p);
    var d := AnnouncementOf(snap).decision;
    var e := Wrote(p, ClassifiedLane, d, WriteError(reply), WriteLands(reply));
    Snoc1(log, e, p);
    Snoc2(log, e, p, d);
    KindsSnoc(log, e);
    LandDecides(run, log, e, d, reply);
    if !reply.Ok? {
      WorkSnoc(log, e, p);
      RetryTraced(log + [e], p, proc);
    }
  }

  lemma CorrectTraced(run: Option<Run>, log: seq<Event>, p: nat, proc: Proc, snap: Run, stands: Decision, reply: Reply)
    requires proc.Apply? && proc.pc == Correct(snap, stands) && ProcOk(log, p, proc)
    requires TraceOk(log, p, proc) && GateMatches(run, log) && KindsTold(log) && run.Some?
    ensures StepTraced(run, log, p, StepApply(run, p, proc, reply))
  {
    hide OwnLanded, OwnAcknowledged, NoVerdict, NotCorrected, AnyLanded, KindsTold, FoundStanding, WroteLanded,
         LastFetch, LastAcked, GateMatches;
    var d := AnnouncementOf(snap).decision;
    var e := Corrected(p, d, stands, FateOf(reply));
    Snoc1(log, e, p);
    Snoc2(log, e, p, d);
    KindsSnoc(log, e);
    GateSnoc(run, log, e);
  }

  lemma ExhaustedTraced(run: Option<Run>, log: seq<Event>, p: nat, proc: Proc, reply: Reply)
    requires proc.Apply? && proc.pc.Exhausted?
    requires TraceOk(log, p, proc) && GateMatches(run, log) && KindsTold(log)
    ensures StepTraced(run, log, p, StepApply(run, p, proc, reply))
  {
    hide OwnLanded, OwnAcknowledged, NoVerdict, NotCorrected, AnyLanded, KindsTold, FoundStanding, WroteLanded,
         GateMatches;
    assert AtWork(log, p);
    var e := GaveUp(p, FateOf(reply));
    WorkSnoc(log, e, p);
    KindsSnoc(log, e);
    GateSnoc(run, log, e);
  }

  lemma ApplyTraced(run: Option<Run>, log: seq<Event>, p: nat, proc: Proc, reply: Reply)
    requires proc.Apply? && ProcOk(log, p, proc) && (KnowsRun(proc) ==> run.Some?)
    requires TraceOk(log, p, proc) && GateMatches(run, log) && KindsTold(log)
    ensures StepTraced(run, log, p, StepApply(run, p, proc, reply))
  {
    hide TraceOk, GateMatches, KindsTold, StepFetch, StepAuthorize, StepAnnounce, StepReadGate, StepWrite, StepTraced,
         LastFetch, LastAcked;
    match proc.pc
    case Fetch => FetchTraced(run, log, p, proc, reply);
    case ResolveThread(snap) => GuardTraced(run, log, p, proc, reply);
    case Notify(_) => GuardTraced(run, log, p, proc, reply);
    case Authorize(snap) => GuardTraced(run, log, p, proc, reply);
    case Announce(snap) => GuardTraced(run, log, p, proc, reply);
    case ReadGate(snap) => ReadTraced(run, log, p, proc, snap, reply);
    case Write(snap, request) => WriteTraced(run, log, p, proc, snap, request, reply);
    case Correct(snap, stands) => CorrectTraced(run, log, p, proc, snap, stands, reply);
    case Exhausted => ExhaustedTraced(run, log, p, proc, reply);
    case Finished(_) => Idle(run, log, p, proc);
  }

  lemma Idle(run: Option<Run>, log: seq<Event>, p: nat, proc: Proc)
    requires TraceOk(log, p, proc) && GateMatches(run, log) && KindsTold(log) && (KnowsRun(proc) ==> run.Some?)
    ensures StepTraced(run, log, p, Effect(proc, run, None))
  {
    hide TraceOk, GateMatches, KindsTold;
  }

  lemma CommandTraced(run: Option<Run>, log: seq<Event>, p: nat, proc: Proc, reply: Reply)
    requires proc.Command? && (KnowsRun(proc) ==> run.Some?) && GateMatches(run, log) && KindsTold(log)
    ensures StepTraced(run, log, p, StepCommand(run, p, proc, reply))
  {
    hide GateMatches, KindsTold;
    var effect := StepCommand(run, p, proc, reply);
    if effect.event.Some? {
      KindsSnoc(log, effect.event.value);
      if effect.event.value.Wrote? {
        LandDecides(run, log, effect.event.value, proc.decision, reply);
      } else {
        GateSnoc(run, log, effect.event.value);
      }
    }
  }

  lemma StepProcTraced(run: Option<Run>, log: seq<Event>, p: nat, proc: Proc, reply: Reply)
    requires ProcOk(log, p, proc) && (KnowsRun(proc) ==> run.Some?)
    requires TraceOk(log, p, proc) && GateMatches(run, log) && KindsTold(log)
    ensures StepTraced(run, log, p, StepProc(run, p, proc, reply))
  {
    hide TraceOk, GateMatches, KindsTold, StepApply, StepCommand, StepTraced, PcOk, LastFetch, LastAcked, LastResolved;
    match proc
    case Apply(_, _, _, _, _) => ApplyTraced(run, log, p, proc, reply);
    case Command(_, _, _, _) => CommandTraced(run, log, p, proc, reply);
    case Crashed => Idle(run, log, p, proc);
  }

  // --- the machine ---

  lemma AdvanceTraced(w: World, p: nat, reply: Reply)
    requires Traced(w) && p < |w.procs|
    ensures Traced(Do(w, Advance(p, reply)))
  {
    hide Inv, TraceOk, GateMatches, KindsTold, StepProc, KnowsRun, Do;
    var effect := StepProc(w.run, p, w.procs[p], reply);
    DoInv(w, Advance(p, reply));
    InvProc(w, p);
    StepProcTraced(w.run, w.log, p, w.procs[p], reply);
    AdvanceIs(w, p, reply);
    EventIsOwn(w, p, reply);
    forall q | 0 <= q < |w.procs| && q != p
      ensures TraceOk(Logged(w.log, effect.event), q, w.procs[q])
    {
      if effect.event.Some? {
        TraceSnoc(w.log, effect.event.value, q, w.procs[q]);
      }
    }
  }

  lemma InvProc(w: World, p: nat)
    requires Inv(w) && p < |w.procs|
    ensures ProcOk(w.log, p, w.procs[p]) && PostsDiffer(w.log, p)
  {
    hide ProcOk, PostsDiffer, AllJustified, Below;
  }

  lemma AdvanceIs(w: World, p: nat, reply: Reply)
    requires p < |w.procs|
    ensures var e := StepProc(w.run, p, w.procs[p], reply);
            Do(w, Advance(p, reply)) == World(e.run, w.procs[p := e.proc], Logged(w.log, e.event))
  {
    hide StepProc;
  }

  lemma EventIsOwn(w: World, p: nat, reply: Reply)
    requires Inv(w) && p < |w.procs|
    ensures var e := StepProc(w.run, p, w.procs[p], reply).event; e.Some? ==> e.value.who == p
  {
    hide StepProc, Inv, ProcOk, PostsDiffer, Justified;
    InvProc(w, p);
    StepProcOk(w.run, w.log, p, w.procs[p], reply);
  }

  /** A new process has left no event yet. */
  lemma NewTraced(log: seq<Event>, n: nat, proc: Proc)
    requires Below(log, n) && (proc.Apply? ==> proc.pc.Fetch?)
    ensures TraceOk(log, n, proc)
  {
  }

  lemma SpawnTraced(w: World, proc: Proc)
    requires Traced(w) && (proc == Apply0() || (proc.Command? && proc.cpc.CommandAuthorize?))
    ensures Traced(w.(procs := w.procs + [proc]))
  {
    hide TraceOk, GateMatches, KindsTold, AllJustified, ProcOk, PostsDiffer;
    SpawnInv(w, proc);
    NewTraced(w.log, |w.procs|, proc);
  }

  lemma DoTraced(w: World, a: Action)
    requires Traced(w)
    ensures Traced(Do(w, a))
  {
    hide TraceOk, KindsTold, AnyLanded, AllJustified, ProcOk, PostsDiffer, StepProc, Below;
    match a
    case Dispatch => SpawnTraced(w, Apply0());
    case Say(author, at, decision) => SpawnTraced(w, Command(author, at, decision, CommandAuthorize));
    case Crash(p) =>
      DoInv(w, a);
      CrashedTraced(w.log, p);
    case Advance(p, reply) =>
      if p < |w.procs| {
        AdvanceTraced(w, p, reply);
      }
    case _ => DoInv(w, a);
  }

  lemma CrashedTraced(log: seq<Event>, p: nat)
    ensures TraceOk(log, p, Crashed) && !KnowsRun(Crashed)
  {
  }

  lemma {:induction false} RunTraced(w: World, actions: seq<Action>)
    requires Traced(w)
    ensures Traced(Execute(w, actions))
    decreases |actions|
  {
    hide Traced, Do;
    if actions != [] {
      DoTraced(w, actions[0]);
      RunTraced(Do(w, actions[0]), actions[1..]);
    }
  }

  lemma EveryRunTraced(actions: seq<Action>)
    ensures Traced(Execute(INIT, actions))
  {
    InitInv();
    assert Traced(INIT);
    hide Traced, Execute;
    RunTraced(INIT, actions);
  }

  // --- whose writes are whose ---

  /** Whatever of its own landed carries the decision it announced last. */
  predicate OwnAgree(log: seq<Event>, p: nat, posted: Option<Announcement>) {
    forall i :: 0 <= i < |log| && log[i].Wrote? && log[i].landed && log[i].who == p ==>
      posted.Some? && log[i].decision == posted.value.decision
  }

  ghost predicate AllAgree(w: World) {
    forall p :: 0 <= p < |w.procs| && w.procs[p].Apply? ==> OwnAgree(w.log, p, w.procs[p].posted)
  }

  lemma AgreeSnoc(log: seq<Event>, e: Event, p: nat, posted: Option<Announcement>)
    requires OwnAgree(log, p, posted)
    requires e.Wrote? && e.landed && e.who == p ==> posted.Some? && e.decision == posted.value.decision
    ensures OwnAgree(log + [e], p, posted)
  {
  }

  lemma NoneAgrees(log: seq<Event>, p: nat, posted: Option<Announcement>)
    requires !OwnLanded(log, p)
    ensures OwnAgree(log, p, posted)
  {
  }

  /** Every way on from a snapshot or a failed call keeps the announcement and is not an end. */
  lemma Routing(proc: Proc, snap: Run)
    requires proc.Apply?
    ensures Retry(proc).Apply? && Retry(proc).posted == proc.posted && !Compared(Retry(proc).pc)
    ensures OnSnapshot(proc, snap).Apply? && OnSnapshot(proc, snap).posted == proc.posted
            && !Compared(OnSnapshot(proc, snap).pc)
    ensures Directive(snap) ==>
              && WithThread(proc, snap).Apply? && WithThread(proc, snap).posted == proc.posted
                 && !Compared(WithThread(proc, snap).pc)
              && ToAnnounce(proc, snap).Apply? && ToAnnounce(proc, snap).posted == proc.posted
                 && !Compared(ToAnnounce(proc, snap).pc)
  {
  }

  function SnapOf(run: Option<Run>, pc: ApplyPc): Run {
    match pc
    case ResolveThread(snap) => snap
    case Authorize(snap) => snap
    case _ => if run.Some? then run.value else Run(None, NoDirective, "", false, false, 0)
  }

  /** Only an acknowledged post changes what was announced last, and it precedes any write. */
  lemma PostedStep(run: Option<Run>, log: seq<Event>, p: nat, proc: Proc, reply: Reply)
    requires proc.Apply? && ProcOk(log, p, proc)
    ensures var e := StepApply(run, p, proc, reply);
            && e.proc.Apply?
            && (e.proc.posted != proc.posted ==> proc.pc.Announce?)
            && (e.event.Some? && e.event.value.Wrote? ==>
                  proc.posted.Some? && e.event.value.decision == proc.posted.value.decision
                      && e.proc.posted == proc.posted)
  {
    hide LastFetch, LastAcked, WasAuthorized, Retry, OnSnapshot, WithThread, ToAnnounce, Land, FateOf, WriteLands,
         WriteError;
    var snap := SnapOf(run, proc.pc);
    Routing(proc, snap);
    Routing(proc.(threadKnown := true), snap);
    Routing(proc.(authorized := snap.author), snap);
  }

  lemma AgreeStep(run: Option<Run>, log: seq<Event>, p: nat, proc: Proc, reply: Reply)
    requires proc.Apply? && ProcOk(log, p, proc) && TraceOk(log, p, proc) && OwnAgree(log, p, proc.posted)
    ensures var e := StepApply(run, p, proc, reply); e.proc.Apply? && OwnAgree(Logged(log, e.event), p, e.proc.posted)
  {
    hide StepApply, PcOk, OwnAgree, LastFetch, LastAcked, WasAuthorized, NoVerdict, OwnAcknowledged, OwnLanded,
         WroteLanded, FoundStanding;
    var e := StepApply(run, p, proc, reply);
    PostedStep(run, log, p, proc, reply);
    if e.proc.posted != proc.posted {
      NoneAgrees(log, p, e.proc.posted);
    }
    if e.event.Some? {
      AgreeSnoc(log, e.event.value, p, e.proc.posted);
    }
  }

  lemma AdvanceAgrees(w: World, p: nat, reply: Reply)
    requires Traced(w) && AllAgree(w) && p < |w.procs|
    ensures AllAgree(Do(w, Advance(p, reply)))
  {
    hide Inv, TraceOk, GateMatches, KindsTold, StepProc, KnowsRun, Do, OwnAgree;
    var effect := StepProc(w.run, p, w.procs[p], reply);
    InvProc(w, p);
    AdvanceIs(w, p, reply);
    EventIsOwn(w, p, reply);
    OwnStep(w.run, w.log, p, w.procs[p], reply);
    forall q | 0 <= q < |w.procs| && q != p && w.procs[q].Apply?
      ensures OwnAgree(Logged(w.log, effect.event), q, w.procs[q].posted)
    {
      if effect.event.Some? {
        AgreeSnoc(w.log, effect.event.value, q, w.procs[q].posted);
      }
    }
  }

  lemma OwnStep(run: Option<Run>, log: seq<Event>, p: nat, proc: Proc, reply: Reply)
    requires ProcOk(log, p, proc) && TraceOk(log, p, proc) && (proc.Apply? ==> OwnAgree(log, p, proc.posted))
    ensures var e := StepProc(run, p, proc, reply); e.proc.Apply? ==>
            proc.Apply? && OwnAgree(Logged(log, e.event), p, e.proc.posted)
  {
    hide TraceOk, StepApply, PcOk, LastFetch, LastAcked, LastResolved, OwnAgree;
    if proc.Apply? {
      AgreeStep(run, log, p, proc, reply);
    }
  }

  lemma NewAgrees(log: seq<Event>, n: nat)
    requires Below(log, n)
    ensures OwnAgree(log, n, None)
  {
  }

  lemma DoAgrees(w: World, a: Action)
    requires Traced(w) && AllAgree(w)
    ensures AllAgree(Do(w, a))
  {
    hide TraceOk, KindsTold, GateMatches, AllJustified, ProcOk, PostsDiffer, StepProc, OwnAgree, Below;
    match a
    case Dispatch => NewAgrees(w.log, |w.procs|);
    case Advance(p, reply) =>
      if p < |w.procs| {
        AdvanceAgrees(w, p, reply);
      }
    case _ =>
  }

  lemma {:induction false} RunAgrees(w: World, actions: seq<Action>)
    requires Traced(w) && AllAgree(w)
    ensures AllAgree(Execute(w, actions))
    decreases |actions|
  {
    hide Traced, AllAgree, Do;
    if actions != [] {
      DoTraced(w, actions[0]);
      DoAgrees(w, actions[0]);
      RunAgrees(Do(w, actions[0]), actions[1..]);
    }
  }

  lemma EveryRunAgrees(actions: seq<Action>)
    ensures AllAgree(Execute(INIT, actions))
  {
    InitInv();
    assert Traced(INIT) && AllAgree(INIT);
    hide Traced, AllAgree, Execute;
    RunAgrees(INIT, actions);
  }

  // --- main results ---

  /** Whatever a dispatch got acknowledged, its last acknowledged announcement is as late on
      the thread. */
  lemma {:induction false} EarlierAnswered(log: seq<Event>, p: nat, i: nat)
    requires i < |log| && log[i].Announced? && log[i].who == p && log[i].fate.Confirmed?
    ensures LastAcked(log, p).Some?
    ensures exists j :: i <= j < |log| && log[j] == Announced(p, LastAcked(log, p).value, Confirmed)
    decreases |log|
  {
    var e := log[|log| - 1];
    if !(e.Announced? && e.who == p && e.fate.Confirmed?) {
      EarlierAnswered(log[..|log| - 1], p, i);
    }
  }

  /** In every run, for a dispatch that finished with a as its last acknowledged announcement
      (an earlier one of the same dispatch is followed on the thread by a itself): at any time
      after, the thread asserts a against the record if and only if no correction of it is on
      the thread and either no write request of any process has landed, or the last one to land
      wrote the other decision. That one is then another process's, and only a dispatch that
      was superseded corrects. */
  lemma AnnouncementOpenIff(actions: seq<Action>, p: nat)
    requires p < |Execute(INIT, actions).procs|
    requires var proc := Execute(INIT, actions).procs[p]; proc.Apply? && proc.pc.Finished? && proc.posted.Some?
    ensures var w := Execute(INIT, actions);
            var d, outcome, last := w.procs[p].posted.value.decision, w.procs[p].pc.outcome, LastWrite(w.log);
            && LastAcked(w.log, p) == w.procs[p].posted
            && (!ThreadHolds(w, p, d) <==> !CorrectionLanded(w.log, p, d) && (last.None? || last.value.decision != d))
            && (last.Some? && last.value.decision != d ==> last.value.who != p)
            && (last.None? ==> !outcome.Applied? && !outcome.Superseded?)
            && (CorrectionLanded(w.log, p, d) ==> outcome.Superseded?)
  {
    hide Execute, Inv, KindsTold, NoVerdict, OwnLanded, WroteLanded, FoundStanding, CorrectionLanded, OwnAcknowledged,
         LastAcked, LastWrite,
         OwnAgree, AnyLanded, NotCorrected;
    EveryRunTraced(actions);
    EveryRunAgrees(actions);
    var w := Execute(INIT, actions);
    var d := w.procs[p].posted.value.decision;
    InvProc(w, p);
    assert OwnAgree(w.log, p, w.procs[p].posted);
    OthersLast(w.log, p, w.procs[p].posted.value);
    LastWriteIsAny(w.log);
    if !w.procs[p].pc.outcome.Superseded? {
      NoCorrection(w.log, p, d);
    }
  }

  lemma NoCorrection(log: seq<Event>, p: nat, d: Decision)
    requires NotCorrected(log, p)
    ensures !CorrectionLanded(log, p, d)
  {
  }

  lemma OthersLast(log: seq<Event>, p: nat, a: Announcement)
    requires OwnAgree(log, p, Some(a))
    ensures LastWrite(log).Some? && LastWrite(log).value.decision != a.decision ==> LastWrite(log).value.who != p
  {
    hide LastWrite;
    LastWriteIsAny(log);
  }

  /** What the dispatch itself did about a: it left a unanswered if and only if it ended without
      comparing a to the gate and none of its write requests for that decision landed, or it
      found the other decision standing and its correction did not land. */
  lemma DispatchAnswersIff(actions: seq<Action>, p: nat)
    requires p < |Execute(INIT, actions).procs|
    requires var proc := Execute(INIT, actions).procs[p]; proc.Apply? && proc.pc.Finished? && proc.posted.Some?
    ensures var w := Execute(INIT, actions);
            var d, outcome := w.procs[p].posted.value.decision, w.procs[p].pc.outcome;
            && LastAcked(w.log, p) == w.procs[p].posted
            && (!Answered(w.log, p, d)
                <==> || ((outcome.Guarded? || outcome.Unattributed? || outcome.OutOfAttempts? || outcome.Failed?)
                         && !WroteLanded(w.log, p, d))
                     || (outcome.Superseded? && !CorrectionLanded(w.log, p, d)))
  {
    hide Execute, Inv, GateMatches, KindsTold, NoVerdict, OwnLanded, WroteLanded, FoundStanding, CorrectionLanded,
         OwnAcknowledged, LastAcked,
         AnyLanded, NotCorrected;
    EveryRunTraced(actions);
    var w := Execute(INIT, actions);
    var d := w.procs[p].posted.value.decision;
    InvProc(w, p);
    WroteIsOwn(w.log, p, d);
    if !Compared(w.procs[p].pc) {
      AnsweredNeedsVerdict(w.log, p, d);
    }
  }

  /** The step that ends a dispatch as applied leaves the decision it announced standing; the
      step that finds it superseded found the other one standing. */
  lemma FinishedIsSettled(actions: seq<Action>, p: nat, reply: Reply)
    requires p < |Execute(INIT, actions).procs| && Execute(INIT, actions).procs[p].Apply?
    ensures var w := Execute(INIT, actions);
            var v := Do(w, Advance(p, reply));
            && p < |v.procs| && v.procs[p].Apply?
            && (v.procs[p].pc == Finished(Applied) && w.procs[p].pc != Finished(Applied) ==>
                  v.procs[p].posted.Some? && StandingDecision(v.run) == Some(v.procs[p].posted.value.decision))
            && (v.procs[p].pc.Correct? && !w.procs[p].pc.Correct? ==>
                  v.procs[p].posted.Some? && StandingDecision(v.run) == Some(v.procs[p].pc.stands)
                  && v.procs[p].pc.stands != v.procs[p].posted.value.decision)
  {
    hide Execute, Inv, GateMatches, KindsTold, TraceOk, StepApply, LastFetch, LastAcked, PcOk;
    EveryRunTraced(actions);
    var w := Execute(INIT, actions);
    InvProc(w, p);
    EndsStanding(w.run, w.log, p, w.procs[p], reply);
  }

  lemma EndsStanding(run: Option<Run>, log: seq<Event>, p: nat, proc: Proc, reply: Reply)
    requires proc.Apply? && ProcOk(log, p, proc) && (KnowsRun(proc) ==> run.Some?)
    ensures var e := StepApply(run, p, proc, reply);
            && e.proc.Apply?
            && (e.proc.pc == Finished(Applied) && proc.pc != Finished(Applied) ==>
                  e.proc.posted.Some? && StandingDecision(e.run) == Some(e.proc.posted.value.decision))
            && (e.proc.pc.Correct? && !proc.pc.Correct? ==>
                  e.proc.posted.Some? && StandingDecision(e.run) == Some(e.proc.pc.stands)
                  && e.proc.pc.stands != e.proc.posted.value.decision)
  {
    hide LastFetch, LastAcked, WasAuthorized, Retry, OnSnapshot, WithThread, ToAnnounce, FateOf, WriteError;
    var snap := SnapOf(run, proc.pc);
    Routing(proc, snap);
    Routing(proc.(threadKnown := true), snap);
    Routing(proc.(authorized := snap.author), snap);
  }

  lemma OwnOrOthers(log: seq<Event>, p: nat)
    ensures AnyLanded(log) <==> OwnLanded(log, p) || OthersLanded(log, p)
  {
  }

  /** A request of its own that landed without being acknowledged was answered by a kind
      that may have landed. */
  lemma LandedIsUncertain(log: seq<Event>, p: nat)
    requires KindsTold(log) && !OwnAcknowledged(log, p) && OwnLanded(log, p)
    ensures OwnUncertain(log, p)
  {
    var i :| 0 <= i < |log| && log[i].Wrote? && log[i].landed && log[i].who == p;
    assert log[i].error.Some?;
  }

  /** In every run, where a dispatch posts the notice that nothing has been decided: it is
      true if and only if no write request of any process has landed. If no request of its
      own was answered by a kind that may have landed, which the dispatch can see, then only
      another process can have made the notice untrue. */
  lemma ExhaustionNoticeIff(actions: seq<Action>, p: nat, reply: Reply)
    requires p < |Execute(INIT, actions).procs|
    requires var proc := Execute(INIT, actions).procs[p]; proc.Apply? && proc.pc.Exhausted?
    ensures var w := Execute(INIT, actions);
            && Do(w, Advance(p, reply)).log == w.log + [GaveUp(p, FateOf(reply))]
            && (StandingDecision(w.run).None? <==> !AnyLanded(w.log))
            && (!OwnUncertain(w.log, p) ==> (StandingDecision(w.run).None? <==> !OthersLanded(w.log, p)))
  {
    hide Execute, Inv, KindsTold, GateMatches, NotCorrected, NoVerdict, OwnLanded, OthersLanded, AnyLanded,
         OwnAcknowledged, OwnUncertain;
    EveryRunTraced(actions);
    var w := Execute(INIT, actions);
    assert TraceOk(w.log, p, w.procs[p]);
    GateIsAny(w.run, w.log);
    OwnOrOthers(w.log, p);
    if OwnLanded(w.log, p) {
      LandedIsUncertain(w.log, p);
    }
  }
}
