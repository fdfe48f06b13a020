/** First decision wins, how far it holds, and the runs that show where it stops. */
module ChangeGateDecision {
  import opened Text
  import opened Seqs
  import opened WriteRetry
  import opened ChangeGate

  /** A stamp is open from its read of an undecided gate to the end of its last request. */
  predicate OpenStamp(proc: Proc) {
    (proc.Apply? && proc.pc.Write?) || (proc.Command? && proc.cpc.CommandWrite?)
  }

  function RequestsLeft(request: nat): nat {
    if request < TRANSPORT_ATTEMPTS then TRANSPORT_ATTEMPTS + 1 - request else 1
  }

  /** Requests an open stamp may still issue. */
  function Remaining(proc: Proc): nat {
    if proc.Apply? && proc.pc.Write? then RequestsLeft(proc.pc.request)
    else if proc.Command? && proc.cpc.CommandWrite? then RequestsLeft(proc.cpc.request)
    else 0
  }

  function Potential(w: World): nat {
    Sum(Remaining, w.procs)
  }

  function Standing(w: World): Option<Decision> {
    StandingDecision(w.run)
  }

  /** How often the standing decision changed along the run. */
  function Overwrites(w: World, actions: seq<Action>): nat
    decreases |actions|
  {
    if actions == [] then 0
    else (if Standing(Do(w, actions[0])) != Standing(w) then 1 else 0) + Overwrites(Do(w, actions[0]), actions[1..])
  }

  // --- the bound ---

  lemma StepPotential(run: Option<Run>, p: nat, proc: Proc, reply: Reply)
    requires StandingDecision(run).Some?
    ensures var e := StepProc(run, p, proc, reply);
            && StandingDecision(e.run).Some?
            && Remaining(e.proc) + (if StandingDecision(e.run) != StandingDecision(run) then 1 else 0)
               <= Remaining(proc)
  {
  }

  lemma DoPotential(w: World, a: Action)
    requires Standing(w).Some?
    ensures Standing(Do(w, a)).Some?
    ensures Potential(Do(w, a)) + (if Standing(Do(w, a)) != Standing(w) then 1 else 0) <= Potential(w)
  {
    hide StepProc, Remaining, Sum;
    match a
    case Dispatch => SumSnoc(Remaining, w.procs, Apply0()); NewIsIdle(Apply0());
    case Say(author, at, decision) =>
      var proc := Command(author, at, decision, CommandAuthorize);
      SumSnoc(Remaining, w.procs, proc);
      NewIsIdle(proc);
    case Crash(p) =>
      if p < |w.procs| {
        SumUpdate(Remaining, w.procs, p, Crashed);
        NewIsIdle(Crashed);
      }
    case Advance(p, reply) =>
      if p < |w.procs| {
        StepPotential(w.run, p, w.procs[p], reply);
        SumUpdate(Remaining, w.procs, p, StepProc(w.run, p, w.procs[p], reply).proc);
      }
    case _ =>
  }

  lemma NewIsIdle(proc: Proc)
    requires !OpenStamp(proc)
    ensures Remaining(proc) == 0
  {
  }

  /** Once the gate is decided it stays decided, and the decision changes at most as often as
      the stamps that had read it undecided may still write. */
  lemma {:induction false} OverwritesBounded(w: World, actions: seq<Action>)
    requires Standing(w).Some?
    ensures Standing(Execute(w, actions)).Some?
    ensures Overwrites(w, actions) + Potential(Execute(w, actions)) <= Potential(w)
    decreases |actions|
  {
    hide Do, Potential, Standing;
    if actions != [] {
      DoPotential(w, actions[0]);
      OverwritesBounded(Do(w, actions[0]), actions[1..]);
    }
  }

  lemma {:induction false} NoOverwriteKeeps(w: World, actions: seq<Action>)
    ensures Overwrites(w, actions) == 0 ==> Standing(Execute(w, actions)) == Standing(w)
    decreases |actions|
  {
    hide Do, Standing;
    if actions != [] {
      NoOverwriteKeeps(Do(w, actions[0]), actions[1..]);
    }
  }

  /** Stable for ever once no stamp is open. */
  lemma StableOnceQuiet(w: World, actions: seq<Action>)
    requires Standing(w).Some? && forall p :: 0 <= p < |w.procs| ==> !OpenStamp(w.procs[p])
    ensures Standing(Execute(w, actions)) == Standing(w)
  {
    hide Execute, OpenStamp, Remaining, Standing;
    SumZero(Remaining, w.procs);
    forall p | 0 <= p < |w.procs|
      ensures Remaining(w.procs[p]) == 0
    {
      NewIsIdle(w.procs[p]);
    }
    OverwritesBounded(w, actions);
    NoOverwriteKeeps(w, actions);
  }

  // --- how many overwrites, exactly ---

  function IsOpen(proc: Proc): nat {
    if OpenStamp(proc) then 1 else 0
  }

  function OpenStamps(w: World): nat {
    Sum(IsOpen, w.procs)
  }

  /** The decision an open stamp writes at each of its requests. */
  function AskOf(proc: Proc): Option<Decision> {
    if proc.Apply? && proc.pc.Write? then DecisionFor(proc.pc.snap.intent)
    else if proc.Command? && proc.cpc.CommandWrite? then Some(proc.decision)
    else None
  }

  function Approving(proc: Proc): nat {
    if AskOf(proc) == Some(Approve) then Remaining(proc) else 0
  }

  function Rejecting(proc: Proc): nat {
    if AskOf(proc) == Some(Reject) then Remaining(proc) else 0
  }

  /** Requests the open stamps have left for decision d. */
  function RequestsFor(w: World, d: Decision): nat {
    if d.Approve? then Sum(Approving, w.procs) else Sum(Rejecting, w.procs)
  }

  function Opposite(d: Decision): Decision {
    if d.Approve? then Reject else Approve
  }

  /** Overwrites take turns: one needs a request against what stands, the next one a request
      for it. */
  function MostOverwrites(w: World): nat
    requires Standing(w).Some?
  {
    var against, same := RequestsFor(w, Opposite(Standing(w).value)), RequestsFor(w, Standing(w).value);
    if against <= same then 2 * against else 2 * same + 1
  }

  /** A write request that lands although its caller is told it failed. */
  predicate LandsUnseen(w: World, a: Action) {
    a.Advance? && a.p < |w.procs| && OpenStamp(w.procs[a.p]) && a.reply.Lost? && WriteLands(a.reply)
  }

  predicate Truthful(w: World, actions: seq<Action>)
    decreases |actions|
  {
    actions != [] ==> !LandsUnseen(w, actions[0]) && Truthful(Do(w, actions[0]), actions[1..])
  }

  lemma StepCounts(run: Option<Run>, p: nat, proc: Proc, reply: Reply)
    requires StandingDecision(run).Some?
    ensures var e := StepProc(run, p, proc, reply);
            && IsOpen(e.proc) <= IsOpen(proc) && Approving(e.proc) <= Approving(proc)
               && Rejecting(e.proc) <= Rejecting(proc)
            && (StandingDecision(run) == Some(Reject) && StandingDecision(e.run) == Some(Approve)
                ==> Approving(e.proc) < Approving(proc))
            && (StandingDecision(run) == Some(Approve) && StandingDecision(e.run) == Some(Reject)
                ==> Rejecting(e.proc) < Rejecting(proc))
            && (StandingDecision(run) != StandingDecision(e.run) && !(reply.Lost? && WriteLands(reply))
                ==> IsOpen(e.proc) < IsOpen(proc))
            && (StandingDecision(run) != StandingDecision(e.run) ==> OpenStamp(proc))
  {
  }

  lemma IdleCounts(proc: Proc)
    requires !OpenStamp(proc)
    ensures IsOpen(proc) == 0 && Approving(proc) == 0 && Rejecting(proc) == 0
  {
  }

  lemma SnocCounts(w: World, proc: Proc)
    requires !OpenStamp(proc)
    ensures var v := w.(procs := w.procs + [proc]);
            OpenStamps(v) == OpenStamps(w) && forall d :: RequestsFor(v, d) == RequestsFor(w, d)
  {
    hide OpenStamp, IsOpen, Approving, Rejecting, Sum;
    IdleCounts(proc);
    SumSnoc(IsOpen, w.procs, proc);
    SumSnoc(Approving, w.procs, proc);
    SumSnoc(Rejecting, w.procs, proc);
  }

  lemma UpdateCounts(w: World, p: nat, proc: Proc)
    requires p < |w.procs|
    ensures var procs := w.procs[p := proc];
            && Sum(IsOpen, procs) + IsOpen(w.procs[p]) == Sum(IsOpen, w.procs) + IsOpen(proc)
            && Sum(Approving, procs) + Approving(w.procs[p]) == Sum(Approving, w.procs) + Approving(proc)
            && Sum(Rejecting, procs) + Rejecting(w.procs[p]) == Sum(Rejecting, w.procs) + Rejecting(proc)
  {
    hide IsOpen, Approving, Rejecting, Sum;
    SumUpdate(IsOpen, w.procs, p, proc);
    SumUpdate(Approving, w.procs, p, proc);
    SumUpdate(Rejecting, w.procs, p, proc);
  }

  lemma DoCounts(w: World, a: Action)
    requires Standing(w).Some?
    ensures var v := Do(w, a);
            && Standing(v).Some?
            && OpenStamps(v) <= OpenStamps(w) && (forall d :: RequestsFor(v, d) <= RequestsFor(w, d))
            && (Standing(v) != Standing(w) ==> RequestsFor(v, Standing(v).value) < RequestsFor(w, Standing(v).value))
            && (Standing(v) != Standing(w) && !LandsUnseen(w, a) ==> OpenStamps(v) < OpenStamps(w))
  {
    hide StepProc, IsOpen, Approving, Rejecting, Sum, OpenStamp, WriteLands;
    match a
    case Dispatch => FreshClosed(); SnocCounts(w, Apply0());
    case Say(author, at, decision) =>
      CommandClosed(author, at, decision);
      SnocCounts(w, Command(author, at, decision, CommandAuthorize));
    case Crash(p) =>
      if p < |w.procs| {
        FreshClosed();
        IdleCounts(Crashed);
        UpdateCounts(w, p, Crashed);
      }
    case Advance(p, reply) =>
      if p < |w.procs| {
        StepPotential(w.run, p, w.procs[p], reply);
        StepCounts(w.run, p, w.procs[p], reply);
        UpdateCounts(w, p, StepProc(w.run, p, w.procs[p], reply).proc);
        match Standing(Do(w, a)).value
        case Approve => assert Standing(w).value.Approve? || Standing(w).value.Reject?;
        case Reject => assert Standing(w).value.Approve? || Standing(w).value.Reject?;
      }
    case _ =>
  }

  lemma MostDrops(w: World, v: World)
    requires Standing(w).Some? && Standing(v).Some? && forall d :: RequestsFor(v, d) <= RequestsFor(w, d)
    requires Standing(v) != Standing(w) ==> RequestsFor(v, Standing(v).value) < RequestsFor(w, Standing(v).value)
    ensures MostOverwrites(v) + (if Standing(v) != Standing(w) then 1 else 0) <= MostOverwrites(w)
  {
    hide RequestsFor, Standing;
    assert RequestsFor(v, Approve) <= RequestsFor(w, Approve) && RequestsFor(v, Reject) <= RequestsFor(w, Reject);
  }

  lemma {:induction false} OverwritesAtMost(w: World, actions: seq<Action>)
    requires Standing(w).Some?
    ensures Overwrites(w, actions) <= MostOverwrites(w)
    decreases |actions|
  {
    hide Do, MostOverwrites, Standing, RequestsFor, LandsUnseen;
    if actions != [] {
      DoCounts(w, actions[0]);
      MostDrops(w, Do(w, actions[0]));
      OverwritesAtMost(Do(w, actions[0]), actions[1..]);
    }
  }

  const UNSEEN := Lost(CommitUnknown, true)

  /** One request against what stands, landing while reporting failure. */
  lemma FlipCounts(w: World, p: nat)
    requires p < |w.procs| && Standing(w).Some? && AskOf(w.procs[p]) == Some(Opposite(Standing(w).value))
    ensures var v := Do(w, Advance(p, UNSEEN));
            && Standing(v) == Some(Opposite(Standing(w).value))
            && RequestsFor(v, Standing(w).value) == RequestsFor(w, Standing(w).value)
            && RequestsFor(v, Opposite(Standing(w).value)) + 1 == RequestsFor(w, Opposite(Standing(w).value))
  {
    hide StepProc, IsOpen, Approving, Rejecting, Sum, AskOf;
    FlipStep(w.run, p, w.procs[p]);
    UpdateCounts(w, p, StepProc(w.run, p, w.procs[p], UNSEEN).proc);
  }

  lemma FlipStep(run: Option<Run>, p: nat, proc: Proc)
    requires StandingDecision(run).Some? && AskOf(proc) == Some(Opposite(StandingDecision(run).value))
    ensures var e := StepProc(run, p, proc, UNSEEN);
            && StandingDecision(e.run) == AskOf(proc)
            && (AskOf(proc) == Some(Approve)
              ==> Approving(e.proc) + 1 == Approving(proc) && Rejecting(e.proc) == Rejecting(proc))
            && (AskOf(proc) == Some(Reject)
              ==> Rejecting(e.proc) + 1 == Rejecting(proc) && Approving(e.proc) == Approving(proc))
  {
  }

  lemma {:induction false} Asker(w: World, d: Decision) returns (p: nat)
    requires RequestsFor(w, d) > 0
    ensures p < |w.procs| && AskOf(w.procs[p]) == Some(d)
  {
    hide Sum, Remaining, AskOf;
    if d.Approve? {
      SumZero(Approving, w.procs);
      p :| 0 <= p < |w.procs| && Approving(w.procs[p]) != 0;
    } else {
      SumZero(Rejecting, w.procs);
      p :| 0 <= p < |w.procs| && Rejecting(w.procs[p]) != 0;
    }
  }

  /** The bound is met: this run overwrites as often as any can. */
  lemma {:induction false} MostReached(w: World) returns (actions: seq<Action>)
    requires Standing(w).Some?
    ensures Overwrites(w, actions) == MostOverwrites(w)
    decreases MostOverwrites(w)
  {
    hide Do, Standing, RequestsFor, AskOf;
    if MostOverwrites(w) == 0 {
      actions := [];
    } else {
      var d := Opposite(Standing(w).value);
      var p := Asker(w, d);
      FlipCounts(w, p);
      var v := Do(w, Advance(p, UNSEEN));
      actions := MostReached(v);
      assert ([Advance(p, UNSEEN)] + actions)[1..] == actions;
      actions := [Advance(p, UNSEEN)] + actions;
    }
  }

  /** From every decided state, MostOverwrites is the largest number of overwrites any run
      has: none exceeds it and one reaches it. */
  lemma MostOverwritesIsMaximum(w: World)
    requires Standing(w).Some?
    ensures forall actions :: Overwrites(w, actions) <= MostOverwrites(w)
    ensures exists actions :: Overwrites(w, actions) == MostOverwrites(w)
  {
    hide Overwrites, MostOverwrites, Standing;
    forall actions
      ensures Overwrites(w, actions) <= MostOverwrites(w)
    {
      OverwritesAtMost(w, actions);
    }
    var actions := MostReached(w);
    assert Overwrites(w, actions) == MostOverwrites(w);
  }

  /** One overwrite for each open stamp is the limit of every run if and only if the requests
      left do not allow more. */
  lemma StampBoundIff(w: World)
    requires Standing(w).Some?
    ensures (forall actions :: Overwrites(w, actions) <= OpenStamps(w)) <==> MostOverwrites(w) <= OpenStamps(w)
  {
    hide Overwrites, MostOverwrites, OpenStamps, Standing;
    MostOverwritesIsMaximum(w);
  }

  /** In every run in which no write request lands while reporting failure, each overwrite
      uses up one stamp that had read the gate undecided. */
  lemma {:induction false} TruthfulOverwrites(w: World, actions: seq<Action>)
    requires Standing(w).Some? && Truthful(w, actions)
    ensures Overwrites(w, actions) + OpenStamps(Execute(w, actions)) <= OpenStamps(w)
    decreases |actions|
  {
    hide Do, OpenStamps, Standing, RequestsFor, LandsUnseen;
    if actions != [] {
      DoCounts(w, actions[0]);
      TruthfulOverwrites(Do(w, actions[0]), actions[1..]);
    }
  }

  // --- without overlap, the first decision wins ---

  predicate Alone(procs: seq<Proc>) {
    forall i, j :: 0 <= i < |procs| && 0 <= j < |procs| && OpenStamp(procs[i]) && OpenStamp(procs[j]) ==> i == j
  }

  /** At no moment of the run are two stamps open. */
  predicate Serial(w: World, actions: seq<Action>)
    decreases |actions|
  {
    Alone(w.procs) && (actions != [] ==> Serial(Do(w, actions[0]), actions[1..]))
  }

  /** What an open stamp will write. */
  predicate Asks(proc: Proc, d: Decision) {
    (proc.Apply? && proc.pc.Write? ==> DecisionFor(proc.pc.snap.intent) == Some(d))
    && (proc.Command? && proc.cpc.CommandWrite? ==> proc.decision == d)
  }

  /** Whoever may still write agrees with what stands. */
  predicate Agreed(w: World) {
    Standing(w).Some? ==> forall p :: 0 <= p < |w.procs| ==> Asks(w.procs[p], Standing(w).value)
  }

  lemma StepAsks(run: Option<Run>, p: nat, proc: Proc, reply: Reply, d: Decision)
    requires StandingDecision(run) == Some(d) && Asks(proc, d)
    ensures var e := StepProc(run, p, proc, reply);
            StandingDecision(e.run) == Some(d) && Asks(e.proc, d)
  {
  }

  lemma StepFirst(run: Option<Run>, p: nat, proc: Proc, reply: Reply)
    requires StandingDecision(run).None?
    ensures var e := StepProc(run, p, proc, reply);
            StandingDecision(e.run).Some? ==> OpenStamp(proc) && Asks(e.proc, StandingDecision(e.run).value)
  {
  }

  lemma ClosedAsks(proc: Proc, d: Decision)
    requires !OpenStamp(proc)
    ensures Asks(proc, d)
  {
  }

  lemma DoAgreed(w: World, a: Action)
    requires Agreed(w) && Alone(w.procs)
    ensures Agreed(Do(w, a))
    ensures Standing(w).Some? ==> Standing(Do(w, a)) == Standing(w)
  {
    hide StepProc, Asks, OpenStamp;
    match a
    case Dispatch =>
      if Standing(w).Some? {
        ClosedAsks(Apply0(), Standing(w).value) by {
          FreshClosed();
        }
      }
    case Say(author, at, decision) =>
      if Standing(w).Some? {
        CommandClosed(author, at, decision);
        ClosedAsks(Command(author, at, decision, CommandAuthorize), Standing(w).value);
      }
    case Crash(p) =>
      if p < |w.procs| && Standing(w).Some? {
        ClosedAsks(Crashed, Standing(w).value) by {
          FreshClosed();
        }
      }
    case Advance(p, reply) =>
      if p < |w.procs| {
        var e := StepProc(w.run, p, w.procs[p], reply);
        if Standing(w).Some? {
          StepAsks(w.run, p, w.procs[p], reply, Standing(w).value);
        } else if StandingDecision(e.run).Some? {
          StepFirst(w.run, p, w.procs[p], reply);
          forall q | 0 <= q < |w.procs| && q != p
            ensures Asks(w.procs[q], StandingDecision(e.run).value)
          {
            ClosedAsks(w.procs[q], StandingDecision(e.run).value);
          }
        }
      }
    case _ =>
  }

  lemma FreshClosed()
    ensures !OpenStamp(Apply0()) && !OpenStamp(Crashed)
  {
  }

  lemma CommandClosed(author: string, at: int, decision: Decision)
    ensures !OpenStamp(Command(author, at, decision, CommandAuthorize))
  {
  }

  lemma {:induction false} SerialKeeps(w: World, actions: seq<Action>)
    requires Agreed(w) && Serial(w, actions)
    ensures Agreed(Execute(w, actions))
    ensures Standing(w).Some? ==> Standing(Execute(w, actions)) == Standing(w)
    decreases |actions|
  {
    hide Do, Agreed, Standing, Alone;
    if actions != [] {
      DoAgreed(w, actions[0]);
      SerialKeeps(Do(w, actions[0]), actions[1..]);
    }
  }

  lemma {:induction false} SerialSplit(w: World, actions: seq<Action>, k: nat)
    requires Serial(w, actions) && k <= |actions|
    ensures Serial(w, actions[..k]) && Serial(Execute(w, actions[..k]), actions[k..])
    ensures Execute(Execute(w, actions[..k]), actions[k..]) == Execute(w, actions)
    decreases |actions|
  {
    hide Do, Alone;
    if k > 0 {
      SerialSplit(Do(w, actions[0]), actions[1..], k - 1);
      assert actions[..k] == [actions[0]] + actions[1..][..k - 1];
      assert actions[1..][k - 1..] == actions[k..];
      FoldCons(Do, w, actions[0], actions[1..][..k - 1]);
    } else {
      assert actions[..0] == [] && actions[0..] == actions;
    }
  }

  /** In every run whose stamps never overlap, the first decision stands for the rest of it. */
  lemma FirstDecisionWins(actions: seq<Action>, k: nat)
    requires Serial(INIT, actions) && k <= |actions|
    requires Standing(Execute(INIT, actions[..k])).Some?
    ensures Standing(Execute(INIT, actions)) == Standing(Execute(INIT, actions[..k]))
  {
    hide Execute, Serial, Agreed, Standing;
    InitAgreed();
    SerialSplit(INIT, actions, k);
    SerialKeeps(INIT, actions[..k]);
    SerialKeeps(Execute(INIT, actions[..k]), actions[k..]);
  }

  lemma InitAgreed()
    ensures Agreed(INIT)
  {
  }
}
