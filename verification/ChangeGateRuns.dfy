/** Concrete runs of the gate that show where its guarantees stop. */
module ChangeGateRuns {
  import opened Text
  import opened Seqs
  import opened WriteRetry
  import opened ChangeGate
  import opened ChangeGateSafety
  import opened ChangeGateNotices
  import opened ChangeGateDecision

  /** One more action at the end of a run. */
  lemma Then(actions: seq<Action>, w: World, a: Action) returns (next: seq<Action>, v: World)
    requires Execute(INIT, actions) == w
    ensures next == actions + [a] && v == Do(w, a) && Execute(INIT, next) == v
  {
    next, v := actions + [a], Do(w, a);
    FoldConcat(Do, INIT, actions, [a]);
    FoldOne(Do, w, a);
  }

  const FAULT := Lost(Unavailable, false)
  const LANDED := Lost(CommitUnknown, true)

  function AtGate(intent: Intent, author: string): Run {
    Run(None, intent, author, true, true, 1000)
  }

  const ALICE := Announcement(Approve, "alice")
  const BOB := Announcement(Reject, "bob")

  const ALICES_RUN := AtGate(ApproveIntent, "alice")

  /** Alice's approval is announced and acknowledged; the gate is read next. */
  lemma AliceShown() returns (actions: seq<Action>, w: World)
    ensures Execute(INIT, actions) == w
    ensures w == World(Some(ALICES_RUN), [Apply(1, Some(ALICE), true, "alice", ReadGate(ALICES_RUN))],
                       [Fetched(0, ALICES_RUN), Authorized(0, "alice"), Announced(0, ALICE, Confirmed)])
  {
    actions, w := [], INIT;
    hide Execute;
    assert Execute(INIT, []) == INIT by {
      NothingRun();
    }
    actions, w := Then(actions, w, Materialize(AtGate(ApproveIntent, "alice")));
    actions, w := Then(actions, w, Dispatch);
    actions, w := Then(actions, w, Advance(0, Ok));
    actions, w := Then(actions, w, Advance(0, Ok));
    actions, w := Then(actions, w, Advance(0, Ok));
    actions, w := Then(actions, w, Advance(0, Ok));
  }

  /** Then the gate read fails. */
  lemma Announced1() returns (actions: seq<Action>, w: World)
    ensures Execute(INIT, actions) == w
    ensures w == World(Some(ALICES_RUN), [Apply(2, Some(ALICE), true, "alice", Fetch)],
                       [Fetched(0, ALICES_RUN), Authorized(0, "alice"), Announced(0, ALICE, Confirmed)])
  {
    actions, w := AliceShown();
    hide Execute;
    actions, w := Then(actions, w, Advance(0, FAULT));
  }

  lemma NothingRun()
    ensures Execute(INIT, []) == INIT
  {
  }

  /** Then a re-classification is announced on the thread, and its post reports failure. */
  lemma BobShown() returns (actions: seq<Action>, w: World)
    ensures Execute(INIT, actions) == w
    ensures w.run == Some(AtGate(ApproveIntent, "alice")) && w.procs == [Apply(3, Some(ALICE), true, "bob", Fetch)]
    ensures w.log != [] && w.log[|w.log| - 1] == Announced(0, BOB, LandedUnconfirmed)
  {
    actions, w := Announced1();
    hide Execute;
    actions, w := Then(actions, w, Reclassify(RejectIntent, "bob"));
    actions, w := Then(actions, w, Advance(0, Ok));
    actions, w := Then(actions, w, Advance(0, Ok));
    actions, w := Then(actions, w, Advance(0, LANDED));
    actions, w := Then(actions, w, Reclassify(ApproveIntent, "alice"));
  }

  /** The last attempt finds the first classification back, posts nothing, and writes it
      under the other announcement. */
  lemma ShownOneDecisionWroteAnother() returns (actions: seq<Action>, i: nat)
    ensures var log := Execute(INIT, actions).log;
            && i < |log| && log[i] == Wrote(0, ClassifiedLane, Approve, None, true)
            && LastLanded(log[..i], 0) == Some(Announcement(Reject, "bob"))
  {
    var w;
    actions, w := BobShown();
    hide Execute, LastLanded;
    ghost var log0 := w.log;
    BobLast(log0);
    actions, w := Then(actions, w, Advance(0, Ok));
    actions, w := Then(actions, w, Advance(0, Ok));
    NotShown(log0, Fetched(0, AtGate(ApproveIntent, "alice")));
    NotShown(log0 + [Fetched(0, AtGate(ApproveIntent, "alice"))], Authorized(0, "alice"));
    actions, w := Then(actions, w, Advance(0, Ok));
    i := |w.log|;
    ghost var before := w.log;
    actions, w := Then(actions, w, Advance(0, Ok));
    assert w.log[..i] == before;
  }

  lemma BobLast(log: seq<Event>)
    requires log != [] && log[|log| - 1] == Announced(0, BOB, LandedUnconfirmed)
    ensures LastLanded(log, 0) == Some(BOB)
  {
  }

  lemma NotShown(log: seq<Event>, e: Event)
    requires !e.Announced?
    ensures LastLanded(log + [e], 0) == LastLanded(log, 0)
  {
    assert (log + [e])[..|log|] == log;
  }

  /** Carol's command rejects the change while Alice's dispatch is between two calls. */
  lemma CarolRejects(before: seq<Action>, v: World) returns (actions: seq<Action>, w: World)
    requires Execute(INIT, before) == v && v.run == Some(ALICES_RUN) && |v.procs| == 1
    ensures Execute(INIT, actions) == w
    ensures w == World(Some(ALICES_RUN.(decision := Some(Reject))), v.procs
                       + [Command("carol", 2000, Reject, CommandDone)],
                       v.log + [Authorized(1, "carol"), Resolved(1, "carol", 2000, Reject, ALICES_RUN),
                                Wrote(1, CommandLane, Reject, None, true)])
  {
    actions, w := before, v;
    hide Execute;
    actions, w := Then(actions, w, Say("carol", 2000, Reject));
    actions, w := Then(actions, w, Advance(1, Ok));
    actions, w := Then(actions, w, Advance(1, Ok));
    actions, w := Then(actions, w, Advance(1, Ok));
    actions, w := Then(actions, w, Advance(1, Ok));
  }

  /** The announcement stands uncorrected while the run follows the opposite decision: a
      command decided the gate between two attempts, and guard 1 ends the second one. */
  lemma AnnouncedAndAbandoned() returns (actions: seq<Action>)
    ensures var w := Execute(INIT, actions);
            && |w.procs| == 2 && w.procs[0] == Apply(2, Some(Announcement(Approve, "alice")), true, "alice",
                                                     Finished(Guarded))
            && Standing(w) == Some(Reject) && !Answered(w.log, 0, Approve) && !ThreadHolds(w, 0, Approve)
  {
    var w;
    actions, w := Announced1();
    hide Execute, Answered, CorrectionLanded;
    actions, w := CarolRejects(actions, w);
    actions, w := Then(actions, w, Advance(0, Ok));
    DispatchAnswersIff(actions, 0);
    AnnouncementOpenIff(actions, 0);
  }

  /** Here the gate is found decided the other way, and the correction is never seen. */
  lemma CorrectionLost() returns (actions: seq<Action>)
    ensures var w := Execute(INIT, actions);
            && |w.procs| == 2 && w.procs[0] == Apply(1, Some(Announcement(Approve, "alice")), true, "alice",
                                                     Finished(Superseded))
            && Standing(w) == Some(Reject) && !Answered(w.log, 0, Approve) && !ThreadHolds(w, 0, Approve)
  {
    var w;
    actions, w := AliceShown();
    hide Execute, Answered, WroteLanded;
    actions, w := CarolRejects(actions, w);
    actions, w := Then(actions, w, Advance(0, Ok));
    actions, w := Then(actions, w, Advance(0, FAULT));
    DispatchAnswersIff(actions, 0);
  }

  /** Here the dispatch applies its announcement, and a command whose stamp was open at the same
      time overwrites it: nobody corrects the thread. */
  lemma AppliedThenOverwritten() returns (actions: seq<Action>)
    ensures var w := Execute(INIT, actions);
            && |w.procs| == 2 && w.procs[0] == Apply(1, Some(Announcement(Approve, "alice")), true, "alice",
                                                     Finished(Applied))
            && Standing(w) == Some(Reject) && Answered(w.log, 0, Approve) && !ThreadHolds(w, 0, Approve)
  {
    var w;
    actions, w := AliceShown();
    hide Execute, Answered, CorrectionLanded, WroteLanded;
    actions, w := Then(actions, w, Say("carol", 2000, Reject));
    actions, w := Then(actions, w, Advance(1, Ok));
    actions, w := Then(actions, w, Advance(1, Ok));
    actions, w := Then(actions, w, Advance(1, Ok));
    actions, w := Then(actions, w, Advance(0, Ok));
    actions, w := Then(actions, w, Advance(0, Ok));
    actions, w := Then(actions, w, Advance(1, Ok));
    DispatchAnswersIff(actions, 0);
    AnnouncementOpenIff(actions, 0);
  }

  function Asked(d: Decision, request: nat): Proc {
    Command("alice", 2000, d, CommandWrite(request))
  }

  function Decided(d: Decision): Option<Run> {
    Some(AtGate(NoDirective, "").(decision := Some(d)))
  }

  /** Two commands read the gate undecided; the first write lands. */
  lemma TwoOpenStamps() returns (actions: seq<Action>)
    ensures var w := Execute(INIT, actions);
            w.run == Decided(Approve) && w.procs == [Asked(Approve, 2), Asked(Reject, 1)]
  {
    var w;
    actions, w := [], INIT;
    NothingRun();
    hide Execute;
    actions, w := Then(actions, w, Materialize(AtGate(NoDirective, "")));
    actions, w := Then(actions, w, Say("alice", 2000, Approve));
    actions, w := Then(actions, w, Say("alice", 2000, Reject));
    actions, w := Then(actions, w, Advance(0, Ok));
    actions, w := Then(actions, w, Advance(0, Ok));
    actions, w := Then(actions, w, Advance(0, Ok));
    actions, w := Then(actions, w, Advance(1, Ok));
    actions, w := Then(actions, w, Advance(1, Ok));
    actions, w := Then(actions, w, Advance(1, Ok));
    actions, w := Then(actions, w, Advance(0, LANDED));
  }

  lemma Flip(w: World, p: nat, actions: seq<Action>)
    ensures Overwrites(w, [Advance(p, LANDED)] + actions)
         == (if Standing(Do(w, Advance(p, LANDED))) != Standing(w) then 1 else 0)
             + Overwrites(Do(w, Advance(p, LANDED)), actions)
  {
    hide Do, Standing;
    assert ([Advance(p, LANDED)] + actions)[1..] == actions;
  }

  /** One landed request of a command that reports failure: the decision flips, and the
      command has one request fewer. */
  lemma OneFlip(w: World, p: nat, d: Decision, request: nat)
    requires p < |w.procs| && w.procs[p] == Asked(d, request) && w.run.Some? && request < TRANSPORT_ATTEMPTS
    ensures var v := Do(w, Advance(p, LANDED));
            v.run == Some(w.run.value.(decision := Some(d))) && v.procs == w.procs[p := Asked(d, request + 1)]
  {
  }

  /** Two stamps overwrite each other more than twice: overwrites are bounded by requests,
      not by stamps. */
  lemma OverwritesExceedStamps() returns (actions: seq<Action>, more: seq<Action>)
    ensures var w := Execute(INIT, actions);
            && Standing(w).Some? && OpenStamps(w) == 2 && Overwrites(w, more) == 4
  {
    actions := TwoOpenStamps();
    SumTwo(IsOpen, Asked(Approve, 2), Asked(Reject, 1));
    hide Execute, Do, Overwrites, Sum;
    var w := Execute(INIT, actions);
    var b, a := Advance(1, LANDED), Advance(0, LANDED);
    OneFlip(w, 1, Reject, 1);
    var w1 := Do(w, b);
    OneFlip(w1, 0, Approve, 2);
    var w2 := Do(w1, a);
    OneFlip(w2, 1, Reject, 2);
    var w3 := Do(w2, b);
    OneFlip(w3, 0, Approve, 3);
    var w4 := Do(w3, a);
    NoOverwrites(w4);
    Flip(w3, 0, []);
    Flip(w2, 1, [a] + []);
    Flip(w1, 0, [b] + ([a] + []));
    Flip(w, 1, [a] + ([b] + ([a] + [])));
    more := [b] + ([a] + ([b] + ([a] + [])));
  }

  lemma NoOverwrites(w: World)
    ensures Overwrites(w, []) == 0
  {
  }

  /** The third attempt has one write request left. */
  lemma LastRequest() returns (actions: seq<Action>, w: World)
    ensures Execute(INIT, actions) == w
    ensures w.run == Some(AtGate(ApproveIntent, "alice"))
    ensures w.procs == [Apply(3, Some(ALICE), true, "alice", Write(AtGate(ApproveIntent, "alice"), 4))]
    ensures forall i :: 0 <= i < |w.log| ==> w.log[i].who == 0
  {
    actions, w := Announced1();
    hide Execute;
    actions, w := Then(actions, w, Advance(0, FAULT));
    actions, w := Then(actions, w, Advance(0, Ok));
    actions, w := Then(actions, w, Advance(0, Ok));
    actions, w := Then(actions, w, Advance(0, FAULT));
    actions, w := Then(actions, w, Advance(0, FAULT));
    actions, w := Then(actions, w, Advance(0, FAULT));
  }

  /** The exhaustion notice says nothing has been decided; a last request that landed while
      reporting failure makes that untrue. */
  lemma NoticeCanBeWrong() returns (actions: seq<Action>)
    ensures var w := Execute(INIT, actions);
            && |w.procs| == 1 && w.procs[0].Apply? && w.procs[0].pc.Exhausted? && Standing(w) == Some(Approve)
            && Do(w, Advance(0, Ok)).log == w.log + [GaveUp(0, Confirmed)]
            && OwnUncertain(w.log, 0) && !OthersLanded(w.log, 0)
  {
    var w;
    actions, w := LastRequest();
    hide Execute;
    ghost var before := w.log;
    actions, w := Then(actions, w, Advance(0, LANDED));
    assert w.log[|before|] == Wrote(0, ClassifiedLane, Approve, Some(CommitUnknown), true);
  }
}
