/** What holds in every interleaving of dispatches, commands, re-classifications, lifecycle
    steps, crashes and faults. */
module ChangeGateSafety {
  import opened Text
  import opened Seqs
  import opened WriteRetry
  import opened ChangeGate

  // --- the claims, as statements about the history ---

  /** Why a dispatch may ask for decision d: the last snapshot it took was undecided and
      carries d, the author of that snapshot was authorized in this dispatch, and the last
      announcement it got acknowledged is exactly that decision and author. */
  predicate DispatchJustified(log: seq<Event>, p: nat, d: Decision) {
    var snap := LastFetch(log, p);
    && snap.Some? && snap.value.decision.None? && DecisionFor(snap.value.intent) == Some(d)
    && snap.value.author != "" && WasAuthorized(log, p, snap.value.author)
    && LastAcked(log, p) == Some(Announcement(d, snap.value.author))
  }

  /** Why a command may: its author was authorized, said exactly d, and it found the run at
      the gate with the message written for that gate. */
  predicate CommandJustified(log: seq<Event>, p: nat, d: Decision) {
    var r := LastResolved(log, p);
    r.Some? && r.value.said == d && r.value.snap.gated && Fresh(r.value.at, r.value.snap.openedAt)
        && WasAuthorized(log, p, r.value.author)
  }

  predicate Justified(log: seq<Event>, e: Event) {
    e.Wrote? ==> match e.lane
                 case ClassifiedLane => DispatchJustified(log, e.who, e.decision)
                 case CommandLane => CommandJustified(log, e.who, e.decision)
  }

  /** Every write request ever issued was justified by the history before it. */
  predicate AllJustified(log: seq<Event>) {
    forall i :: 0 <= i < |log| ==> Justified(log[..i], log[i])
  }

  /** No announcement is posted again once it has been acknowledged. */
  predicate PostsDiffer(log: seq<Event>, p: nat) {
    log == [] ||
    var e, before := log[|log| - 1], log[..|log| - 1];
    PostsDiffer(before, p) && (e.Announced? && e.who == p ==> LastAcked(before, p) != Some(e.announcement))
  }

  // --- the invariant ---

  predicate SnapOk(log: seq<Event>, p: nat, snap: Run) {
    LastFetch(log, p) == Some(snap) && snap.decision.None? && Directive(snap) && snap.refParses
  }

  predicate AuthorOk(proc: Proc, snap: Run)
    requires proc.Apply?
  {
    proc.authorized == snap.author && snap.author != "" && proc.threadKnown
  }

  predicate PcOk(log: seq<Event>, p: nat, proc: Proc)
    requires proc.Apply?
  {
    match proc.pc
    case Fetch => true
    case ResolveThread(snap) => SnapOk(log, p, snap)
    case Notify(snap) => SnapOk(log, p, snap) && proc.threadKnown
    case Authorize(snap) => SnapOk(log, p, snap) && snap.author != "" && proc.threadKnown
    case Announce(snap) => SnapOk(log, p, snap) && AuthorOk(proc, snap) && proc.posted != Some(AnnouncementOf(snap))
    case ReadGate(snap) => SnapOk(log, p, snap) && AuthorOk(proc, snap) && proc.posted == Some(AnnouncementOf(snap))
    case Write(snap, request) =>
      SnapOk(log, p, snap) && AuthorOk(proc, snap) && proc.posted == Some(AnnouncementOf(snap))
          && 1 <= request <= TRANSPORT_ATTEMPTS
    case Correct(snap, _) => SnapOk(log, p, snap) && proc.posted == Some(AnnouncementOf(snap))
    case Exhausted => proc.threadKnown
    case Finished(_) => true
  }

  predicate ProcOk(log: seq<Event>, p: nat, proc: Proc) {
    match proc
    case Apply(attempt, posted, _, authorized, _) =>
      && 1 <= attempt <= MAX_ATTEMPTS && posted == LastAcked(log, p)
      && (authorized != "" ==> WasAuthorized(log, p, authorized))
      && PcOk(log, p, proc)
    case Command(author, at, decision, cpc) =>
      && (!cpc.CommandAuthorize? && !cpc.CommandDone? ==> WasAuthorized(log, p, author))
      && (cpc.CommandRead? || cpc.CommandWrite? ==>
            CommandJustified(log, p, decision) && LastResolved(log, p).value.author == author
                && LastResolved(log, p).value.at == at)
      && (cpc.CommandWrite? ==> 1 <= cpc.request <= TRANSPORT_ATTEMPTS)
    case Crashed => true
  }

  /** Nothing happened yet under a number that has not been given out. */
  predicate Below(log: seq<Event>, n: nat) {
    forall i :: 0 <= i < |log| ==> log[i].who < n
  }

  ghost predicate Inv(w: World) {
    && Below(w.log, |w.procs|) && AllJustified(w.log)
    && (forall p: nat :: PostsDiffer(w.log, p))
    && (forall p :: 0 <= p < |w.procs| ==> ProcOk(w.log, p, w.procs[p]))
  }

  // --- how the history readers see one more event ---

  lemma Snoc(log: seq<Event>, e: Event, p: nat)
    ensures LastFetch(log + [e], p) == if e.Fetched? && e.who == p then Some(e.snap) else LastFetch(log, p)
    ensures LastResolved(log + [e], p) == if e.Resolved? && e.who == p then Some(e) else LastResolved(log, p)
    ensures LastAcked(log + [e], p) == if e.Announced? && e.who == p && e.fate.Confirmed? then Some(e.announcement)
            else LastAcked(log, p)
    ensures LastLanded(log + [e], p) == if e.Announced? && e.who == p && !e.fate.NotLanded? then Some(e.announcement)
            else LastLanded(log, p)
    ensures PostsDiffer(log + [e], p)
        <==> PostsDiffer(log, p) && (e.Announced? && e.who == p ==> LastAcked(log, p) != Some(e.announcement))
    ensures forall author :: WasAuthorized(log, p, author) ==> WasAuthorized(log + [e], p, author)
  {
    assert (log + [e])[..|log|] == log;
  }

  lemma {:induction false} NothingYet(log: seq<Event>, n: nat)
    requires Below(log, n)
    ensures LastAcked(log, n) == None
  {
    if log != [] {
      NothingYet(log[..|log| - 1], n);
    }
  }

  lemma JustifiedSnoc(log: seq<Event>, e: Event)
    requires AllJustified(log) && Justified(log, e)
    ensures AllJustified(log + [e])
  {
    hide Justified;
    forall i | 0 <= i < |log + [e]|
      ensures Justified((log + [e])[..i], (log + [e])[i])
    {
      assert (log + [e])[..i] == log[..i];
      assert log[..|log|] == log;
    }
  }

  // --- one step of one process ---

  /** What one call may do to its own process and to the history. */
  ghost predicate StepOk(log: seq<Event>, p: nat, e: Effect) {
    && ProcOk(Logged(log, e.event), p, e.proc)
    && (e.event.Some? ==> e.event.value.who == p && Justified(log, e.event.value))
    && PostsDiffer(Logged(log, e.event), p)
  }

  lemma RetryOk(log: seq<Event>, p: nat, proc: Proc)
    requires proc.Apply? && ProcOk(log, p, proc)
    ensures ProcOk(log, p, Retry(proc))
  {
  }

  lemma SnapshotOk(log: seq<Event>, p: nat, proc: Proc, snap: Run)
    requires proc.Apply? && ProcOk(log, p, proc) && LastFetch(log, p) == Some(snap)
    ensures ProcOk(log, p, OnSnapshot(proc, snap))
  {
  }

  lemma FetchOk(run: Option<Run>, log: seq<Event>, p: nat, proc: Proc, reply: Reply)
    requires proc.Apply? && ProcOk(log, p, proc) && PostsDiffer(log, p) && proc.pc.Fetch?
    ensures StepOk(log, p, StepFetch(run, p, proc, reply))
  {
    hide LastFetch, LastAcked, LastResolved, PostsDiffer, WasAuthorized, Retry, OnSnapshot;
    if reply.Ok? && run.Some? {
      var e := Fetched(p, run.value);
      Snoc(log, e, p);
      SnapshotOk(log + [e], p, proc, run.value);
    } else {
      RetryOk(log, p, proc);
    }
  }

  lemma AuthorizeOk(run: Option<Run>, log: seq<Event>, p: nat, proc: Proc, snap: Run, reply: Reply)
    requires proc.Apply? && ProcOk(log, p, proc) && PostsDiffer(log, p) && proc.pc == Authorize(snap)
    ensures StepOk(log, p, StepAuthorize(run, p, proc, snap, reply))
  {
    hide LastFetch, LastAcked, LastResolved, PostsDiffer, Retry;
    RetryOk(log, p, proc);
    Snoc(log, Authorized(p, snap.author), p);
  }

  lemma AnnounceOk(run: Option<Run>, log: seq<Event>, p: nat, proc: Proc, snap: Run, reply: Reply)
    requires proc.Apply? && ProcOk(log, p, proc) && PostsDiffer(log, p) && proc.pc == Announce(snap)
    ensures StepOk(log, p, StepAnnounce(run, p, proc, snap, reply))
  {
    hide LastFetch, LastAcked, LastResolved, PostsDiffer, WasAuthorized, Retry;
    var e := StepAnnounce(run, p, proc, snap, reply).event.value;
    Snoc(log, e, p);
    if !reply.Ok? {
      RetryOk(log + [e], p, proc);
    }
  }

  lemma ReadOk(run: Option<Run>, log: seq<Event>, p: nat, proc: Proc, snap: Run, reply: Reply)
    requires proc.Apply? && ProcOk(log, p, proc) && PostsDiffer(log, p) && proc.pc == ReadGate(snap)
    ensures StepOk(log, p, StepReadGate(run, p, proc, snap, reply))
  {
    hide LastFetch, LastAcked, LastResolved, PostsDiffer, WasAuthorized, Retry;
    RetryOk(log, p, proc);
    if reply.Ok? && StandingDecision(run).Some? {
      Snoc(log, Stood(p, StandingDecision(run).value), p);
    }
  }

  lemma CorrectOk(run: Option<Run>, log: seq<Event>, p: nat, proc: Proc, snap: Run, stands: Decision, reply: Reply)
    requires proc.Apply? && ProcOk(log, p, proc) && PostsDiffer(log, p) && proc.pc == Correct(snap, stands)
    ensures StepOk(log, p, StepApply(run, p, proc, reply))
  {
    hide LastFetch, LastAcked, LastResolved, PostsDiffer, WasAuthorized;
    Snoc(log, Corrected(p, AnnouncementOf(snap).decision, stands, FateOf(reply)), p);
  }

  lemma WriteOk(run: Option<Run>, log: seq<Event>, p: nat, proc: Proc, snap: Run, request: nat, reply: Reply)
    requires proc.Apply? && ProcOk(log, p, proc) && PostsDiffer(log, p) && proc.pc == Write(snap, request)
    ensures StepOk(log, p, StepWrite(run, p, proc, snap, request, reply))
  {
    hide LastFetch, LastAcked, LastResolved, PostsDiffer, WasAuthorized, Retry;
    var e := StepWrite(run, p, proc, snap, request, reply).event.value;
    Snoc(log, e, p);
    RetryOk(log + [e], p, proc);
  }

  lemma ApplyOk(run: Option<Run>, log: seq<Event>, p: nat, proc: Proc, reply: Reply)
    requires proc.Apply? && ProcOk(log, p, proc) && PostsDiffer(log, p)
    ensures StepOk(log, p, StepApply(run, p, proc, reply))
  {
    hide LastFetch, LastAcked, LastResolved, PostsDiffer, WasAuthorized, Retry, StepFetch, StepAuthorize, StepAnnounce,
         StepReadGate, StepWrite;
    RetryOk(log, p, proc);
    match proc.pc
    case Fetch => FetchOk(run, log, p, proc, reply);
    case ResolveThread(snap) =>
    case Notify(_) =>
    case Authorize(snap) => AuthorizeOk(run, log, p, proc, snap, reply);
    case Announce(snap) => AnnounceOk(run, log, p, proc, snap, reply);
    case ReadGate(snap) => ReadOk(run, log, p, proc, snap, reply);
    case Write(snap, request) => WriteOk(run, log, p, proc, snap, request, reply);
    case Correct(snap, stands) => CorrectOk(run, log, p, proc, snap, stands, reply);
    case Exhausted => Snoc(log, GaveUp(p, FateOf(reply)), p);
    case Finished(_) =>
  }

  lemma CommandOk(run: Option<Run>, log: seq<Event>, p: nat, proc: Proc, reply: Reply)
    requires proc.Command? && ProcOk(log, p, proc) && PostsDiffer(log, p)
    ensures StepOk(log, p, StepCommand(run, p, proc, reply))
  {
    hide LastFetch, LastAcked, LastResolved, PostsDiffer;
    var e := StepCommand(run, p, proc, reply);
    if e.event.Some? {
      Snoc(log, e.event.value, p);
    }
  }

  // --- the machine ---

  /** A step of one process leaves every other process's claims alone. */
  lemma OthersOk(log: seq<Event>, e: Event, q: nat, proc: Proc)
    requires ProcOk(log, q, proc) && PostsDiffer(log, q) && e.who != q
    ensures ProcOk(log + [e], q, proc) && PostsDiffer(log + [e], q)
  {
    hide LastFetch, LastAcked, LastResolved, PostsDiffer;
    Snoc(log, e, q);
  }

  lemma AdvanceInv(w: World, p: nat, reply: Reply)
    requires Inv(w) && p < |w.procs|
    ensures Inv(Do(w, Advance(p, reply)))
  {
    hide ProcOk, PostsDiffer, Justified, StepApply, StepCommand, AllJustified;
    var proc := w.procs[p];
    var e := StepProc(w.run, p, proc, reply);
    StepProcOk(w.run, w.log, p, proc, reply);
    if e.event.Some? {
      JustifiedSnoc(w.log, e.event.value);
      forall q: nat
        ensures PostsDiffer(w.log + [e.event.value], q)
      {
        assert PostsDiffer(w.log, q);
        if q != p {
          OthersOk(w.log, e.event.value, q, Crashed) by {
            CrashedOk(w.log, q);
          }
        }
      }
      forall q | 0 <= q < |w.procs| && q != p
        ensures ProcOk(w.log + [e.event.value], q, w.procs[q])
      {
        assert PostsDiffer(w.log, q);
        OthersOk(w.log, e.event.value, q, w.procs[q]);
      }
    }
  }

  lemma CrashedOk(log: seq<Event>, p: nat)
    ensures ProcOk(log, p, Crashed)
  {
  }

  lemma StepProcOk(run: Option<Run>, log: seq<Event>, p: nat, proc: Proc, reply: Reply)
    requires ProcOk(log, p, proc) && PostsDiffer(log, p)
    ensures StepOk(log, p, StepProc(run, p, proc, reply))
  {
    hide StepApply, StepCommand, PostsDiffer, Justified, LastFetch, LastAcked, LastResolved, PcOk;
    match proc
    case Apply(_, _, _, _, _) => ApplyOk(run, log, p, proc, reply);
    case Command(_, _, _, _) => CommandOk(run, log, p, proc, reply);
    case Crashed =>
  }

  lemma SpawnInv(w: World, proc: Proc)
    requires Inv(w) && (proc == Apply0() || (proc.Command? && proc.cpc.CommandAuthorize?))
    ensures Inv(w.(procs := w.procs + [proc]))
  {
    hide PostsDiffer, Justified, AllJustified, LastFetch, LastResolved, LastAcked;
    NothingYet(w.log, |w.procs|);
  }

  lemma DoInv(w: World, a: Action)
    requires Inv(w)
    ensures Inv(Do(w, a))
  {
    match a
    case Materialize(_) =>
    case Reclassify(_, _) =>
    case Transition(_, _) =>
    case Dispatch => SpawnInv(w, Apply0());
    case Say(author, at, decision) => SpawnInv(w, Command(author, at, decision, CommandAuthorize));
    case Crash(p) =>
    case Advance(p, reply) =>
      if p < |w.procs| {
        AdvanceInv(w, p, reply);
      }
  }

  lemma {:induction false} RunInv(w: World, actions: seq<Action>)
    requires Inv(w)
    ensures Inv(Execute(w, actions))
    decreases |actions|
  {
    hide Inv, Do;
    if actions != [] {
      DoInv(w, actions[0]);
      RunInv(Do(w, actions[0]), actions[1..]);
    }
  }

  // --- main results ---

  /** In every run: each write a dispatch issues was announced to, and acknowledged by, the
      thread as exactly (decision, author) of the snapshot it acts on, that author having
      been authorized in the same dispatch; each write a command issues is the decision an
      authorized author asked for, for a run at the gate, in a message written for it. */
  lemma EveryWriteJustified(actions: seq<Action>)
    ensures AllJustified(Execute(INIT, actions).log)
  {
    hide AllJustified, PostsDiffer;
    InitInv();
    RunInv(INIT, actions);
  }

  lemma InitInv()
    ensures Inv(INIT)
  {
  }

  lemma {:induction false} LandedIsAcked(log: seq<Event>, p: nat)
    requires PostsDiffer(log, p) && LastAcked(log, p).Some?
    ensures LastLanded(log, p) == LastAcked(log, p) <==> !Unconfirmed(log, p)
  {
    if log != [] {
      var e := log[|log| - 1];
      if !(e.Announced? && e.who == p && !e.fate.NotLanded?) {
        LandedIsAcked(log[..|log| - 1], p);
      }
    }
  }

  lemma {:induction false} PostsDifferPrefix(log: seq<Event>, p: nat, i: nat)
    requires PostsDiffer(log, p) && i <= |log|
    ensures PostsDiffer(log[..i], p)
  {
    if i == |log| {
      assert log[..i] == log;
    } else {
      PostsDifferPrefix(log[..|log| - 1], p, i);
      assert log[..|log| - 1][..i] == log[..i];
    }
  }

  /** In every run: at each write of a dispatch, the last announcement a reader of the thread
      can see from it is the decision written, by the author acted on, if and only if no post
      since the last acknowledged one landed while reporting failure. */
  lemma LatestShownIff(actions: seq<Action>, i: nat)
    requires i < |Execute(INIT, actions).log|
    requires Execute(INIT, actions).log[i].Wrote? && Execute(INIT, actions).log[i].lane.ClassifiedLane?
    ensures var log := Execute(INIT, actions).log;
            var before, p := log[..i], log[i].who;
            && DispatchJustified(before, p, log[i].decision)
            && (LastLanded(before, p) == Some(Announcement(log[i].decision, LastFetch(before, p).value.author))
                <==> !Unconfirmed(before, p))
  {
    hide Execute, PostsDiffer, LastAcked, LastLanded, LastFetch, Unconfirmed, LastResolved;
    var log := Execute(INIT, actions).log;
    InitInv();
    RunInv(INIT, actions);
    assert Justified(log[..i], log[i]);
    assert PostsDiffer(log, log[i].who);
    PostsDifferPrefix(log, log[i].who, i);
    LandedIsAcked(log[..i], log[i].who);
  }

  // --- a dispatch that announced and then stopped at a guard ---

  /** On its first attempt a dispatch has announced nothing before it reaches the gate. */
  predicate FirstAttemptQuiet(proc: Proc) {
    proc.Apply? && proc.attempt == 1 && !proc.pc.ReadGate? && !proc.pc.Write? && !proc.pc.Correct?
    && !(proc.pc.Finished? && !proc.pc.outcome.Guarded?)
    ==> proc.posted.None?
  }

  ghost predicate Quiet(w: World) {
    forall p :: 0 <= p < |w.procs| ==> FirstAttemptQuiet(w.procs[p])
  }

  lemma RetryQuiet(proc: Proc)
    requires proc.Apply? && proc.attempt >= 1
    ensures FirstAttemptQuiet(Retry(proc))
  {
  }

  lemma SnapshotQuiet(proc: Proc, snap: Run)
    requires proc.Apply? && (proc.attempt == 1 ==> proc.posted.None?)
    ensures FirstAttemptQuiet(OnSnapshot(proc, snap))
    ensures Directive(snap) ==> FirstAttemptQuiet(WithThread(proc.(threadKnown := true), snap))
    ensures Directive(snap) ==> FirstAttemptQuiet(ToAnnounce(proc.(authorized := snap.author), snap))
  {
  }

  lemma ApplyQuiet(run: Option<Run>, p: nat, proc: Proc, reply: Reply)
    requires proc.Apply? && proc.attempt >= 1 && FirstAttemptQuiet(proc)
    ensures FirstAttemptQuiet(StepApply(run, p, proc, reply).proc)
  {
    hide Retry, OnSnapshot, WithThread, ToAnnounce, Land;
    RetryQuiet(proc);
    match proc.pc
    case Fetch => SnapshotQuiet(proc, if run.Some? then run.value else Run(None, NoDirective, "", false, false, 0));
    case ResolveThread(snap) => SnapshotQuiet(proc, snap);
    case Authorize(snap) => SnapshotQuiet(proc, snap);
    case _ =>
  }

  lemma StepQuiet(run: Option<Run>, log: seq<Event>, p: nat, proc: Proc, reply: Reply)
    requires FirstAttemptQuiet(proc) && ProcOk(log, p, proc)
    ensures FirstAttemptQuiet(StepProc(run, p, proc, reply).proc)
  {
    hide StepApply, StepCommand, PcOk, FirstAttemptQuiet, LastFetch, LastAcked, LastResolved;
    match proc
    case Apply(_, _, _, _, _) => ApplyQuiet(run, p, proc, reply);
    case Command(_, _, _, _) => CommandQuiet(run, p, proc, reply);
    case Crashed =>
  }

  lemma CommandQuiet(run: Option<Run>, p: nat, proc: Proc, reply: Reply)
    requires proc.Command?
    ensures FirstAttemptQuiet(StepCommand(run, p, proc, reply).proc)
  {
  }

  lemma {:induction false} RunQuiet(w: World, actions: seq<Action>)
    requires Inv(w) && Quiet(w)
    ensures Quiet(Execute(w, actions))
    decreases |actions|
  {
    hide StepProc, ProcOk, PostsDiffer, AllJustified, FirstAttemptQuiet;
    if actions != [] {
      DoInv(w, actions[0]);
      DoQuiet(w, actions[0]);
      RunQuiet(Do(w, actions[0]), actions[1..]);
    }
  }

  lemma SpawnQuiet(proc: Proc)
    requires proc.Apply? ==> proc.posted.None?
    ensures FirstAttemptQuiet(proc)
  {
  }

  lemma DoQuiet(w: World, a: Action)
    requires Inv(w) && Quiet(w)
    ensures Quiet(Do(w, a))
  {
    hide StepProc, ProcOk, PostsDiffer, AllJustified, FirstAttemptQuiet;
    match a
    case Dispatch => SpawnQuiet(Apply0());
    case Say(author, at, decision) => SpawnQuiet(Command(author, at, decision, CommandAuthorize));
    case Crash(p) => SpawnQuiet(Crashed);
    case Advance(p, reply) =>
      if p < |w.procs| {
        assert ProcOk(w.log, p, w.procs[p]) && FirstAttemptQuiet(w.procs[p]);
        StepQuiet(w.run, w.log, p, w.procs[p], reply);
      }
    case _ =>
  }

  /** In every run: a dispatch that stopped at a guard after announcing a decision did so on
      a retry, never on its first attempt. */
  lemma OnlyRetriesAbandonAnnouncements(actions: seq<Action>, p: nat)
    ensures var w := Execute(INIT, actions);
            p < |w.procs| && w.procs[p].Apply? && w.procs[p].pc == Finished(Guarded) && w.procs[p].posted.Some?
            ==> 2 <= w.procs[p].attempt <= MAX_ATTEMPTS
  {
    hide Execute, PostsDiffer, AllJustified, LastFetch, LastAcked, LastResolved;
    InitInv();
    RunInv(INIT, actions);
    RunQuiet(INIT, actions);
    var w := Execute(INIT, actions);
    if p < |w.procs| {
      assert ProcOk(w.log, p, w.procs[p]) && FirstAttemptQuiet(w.procs[p]);
    }
  }
}
