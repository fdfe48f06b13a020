/** Intake: record the admission, then wake the coordinator, under crashes, redelivery and
    faults that may have landed. */
module IntakeWake {
  import opened Text
  import opened Seqs

  /** A delivery of an issue event; builds says whether its wake can be built. */
  datatype Event = Event(ref: string, delivery: string, builds: bool)

  /** The content-derived record id, taken as injective. */
  datatype RecordId = RecordId(ref: string, delivery: string)

  function RecordOf(e: Event): RecordId {
    RecordId(e.ref, e.delivery)
  }

  datatype Ack = Rejected | Duplicate | Unbuildable | Woken

  datatype Pc = Decide | Record | Check | Build | Publish | Acked(ack: Ack) | Redelivered | Crashed

  datatype Handler = Handler(event: Event, pc: Pc)

  datatype World = World(records: set<RecordId>, runs: set<string>, wakes: seq<RecordId>, handlers: seq<Handler>)

  const INIT := World({}, {}, [], [])

  /** How one call is answered; a lost one may have landed. */
  datatype Reply = Ok | Refused | Lost(landed: bool)

  datatype Action =
    | Deliver(event: Event)
    | Mint(ref: string)
    | Crash(h: nat)
    | Step(h: nat, reply: Reply)

  /** Admission lets the event through, refuses it, or cannot say. */
  function Decided(reply: Reply): Pc {
    match reply
    case Ok => Record
    case Refused => Acked(Rejected)
    case Lost(_) => Redelivered
  }

  function StepHandler(w: World, h: nat, reply: Reply): World
    requires h < |w.handlers|
  {
    var x := w.handlers[h];
    var id := RecordOf(x.event);
    match x.pc
    case Decide =>
      w.(handlers := w.handlers[h := x.(pc := Decided(reply))])
    case Record =>
      if reply.Lost? then
        var records := if reply.landed then w.records + {id} else w.records;
        w.(records := records, handlers := w.handlers[h := x.(pc := Redelivered)])
      else if id in w.records then w.(handlers := w.handlers[h := x.(pc := Check)])
      else w.(records := w.records + {id}, handlers := w.handlers[h := x.(pc := Build)])
    case Check =>
      var next := if !reply.Ok? then Redelivered else if x.event.ref in w.runs then Acked(Duplicate) else Build;
      w.(handlers := w.handlers[h := x.(pc := next)])
    case Build => w.(handlers := w.handlers[h := x.(pc := if x.event.builds then Publish else Acked(Unbuildable))])
    case Publish =>
      if reply.Ok? then w.(wakes := w.wakes + [id], handlers := w.handlers[h := x.(pc := Acked(Woken))])
      else
        var wakes := if reply.Lost? && reply.landed then w.wakes + [id] else w.wakes;
        w.(wakes := wakes, handlers := w.handlers[h := x.(pc := Redelivered)])
    case _ => w
  }

  /** A delivery may be repeated at any time; runs are minted by others. */
  function Do(w: World, a: Action): World {
    match a
    case Deliver(event) => w.(handlers := w.handlers + [Handler(event, Decide)])
    case Mint(ref) => w.(runs := w.runs + {ref})
    case Crash(h) => if h < |w.handlers| then w.(handlers := w.handlers[h := w.handlers[h].(pc := Crashed)]) else w
    case Step(h, reply) => if h < |w.handlers| then StepHandler(w, h, reply) else w
  }

  function Execute(w: World, actions: seq<Action>): World {
    Fold(Do, w, actions)
  }

  // --- the invariant ---

  predicate HandlerOk(w: World, x: Handler) {
    match x.pc
    case Check => RecordOf(x.event) in w.records
    case Build => RecordOf(x.event) in w.records
    case Publish => RecordOf(x.event) in w.records && x.event.builds
    case Acked(Duplicate) => RecordOf(x.event) in w.records && x.event.ref in w.runs
    case Acked(Unbuildable) => !x.event.builds
    case Acked(Woken) => RecordOf(x.event) in w.wakes
    case _ => true
  }

  /** No wake is out before its record exists, and every acknowledgement has its reason. */
  predicate Inv(w: World) {
    && (forall i :: 0 <= i < |w.wakes| ==> w.wakes[i] in w.records)
    && (forall h :: 0 <= h < |w.handlers| ==> HandlerOk(w, w.handlers[h]))
  }

  /** Records, runs and wakes are never taken back. */
  predicate Extends(v: World, w: World) {
    w.records <= v.records && w.runs <= v.runs && w.wakes <= v.wakes
  }

  lemma StillOk(w: World, v: World, x: Handler)
    requires HandlerOk(w, x) && Extends(v, w)
    ensures HandlerOk(v, x)
  {
    if x.pc == Acked(Woken) {
      var i :| 0 <= i < |w.wakes| && w.wakes[i] == RecordOf(x.event);
      assert v.wakes[i] == w.wakes[i];
    }
  }

  lemma StepOk(w: World, h: nat, reply: Reply)
    requires h < |w.handlers| && Inv(w)
    ensures var v := StepHandler(w, h, reply);
            && Extends(v, w) && |v.handlers| == |w.handlers| && HandlerOk(v, v.handlers[h])
            && (forall i :: 0 <= i < |v.wakes| ==> v.wakes[i] in v.records)
            && (forall k :: 0 <= k < |w.handlers| && k != h ==> v.handlers[k] == w.handlers[k])
  {
    assert HandlerOk(w, w.handlers[h]);
    var v := StepHandler(w, h, reply);
    if w.handlers[h].pc.Publish? && |v.wakes| > |w.wakes| {
      assert v.wakes[|w.wakes|] == RecordOf(w.handlers[h].event);
    }
  }

  lemma DoInv(w: World, a: Action)
    requires Inv(w)
    ensures Inv(Do(w, a)) && Extends(Do(w, a), w)
  {
    hide StepHandler, HandlerOk;
    var v := Do(w, a);
    match a {
      case Deliver(event) => FreshOk(v, event);
      case Mint(ref) =>
      case Crash(h) =>
        if h < |w.handlers| {
          CrashedOk(v, w.handlers[h].event);
        }
      case Step(h, reply) =>
        if h < |w.handlers| {
          StepOk(w, h, reply);
        }
    }
    forall k | 0 <= k < |v.handlers|
      ensures HandlerOk(v, v.handlers[k])
    {
      if k < |w.handlers| && v.handlers[k] == w.handlers[k] {
        StillOk(w, v, w.handlers[k]);
      }
    }
  }

  lemma FreshOk(w: World, event: Event)
    ensures HandlerOk(w, Handler(event, Decide))
  {
  }

  lemma CrashedOk(w: World, event: Event)
    ensures HandlerOk(w, Handler(event, Crashed))
  {
  }

  lemma {:induction false} RunInv(w: World, actions: seq<Action>)
    requires Inv(w)
    ensures Inv(Execute(w, actions)) && Extends(Execute(w, actions), w)
    decreases |actions|
  {
    hide Do, Inv;
    if actions != [] {
      DoInv(w, actions[0]);
      RunInv(Do(w, actions[0]), actions[1..]);
    }
  }

  // --- main results ---

  /** In every run, with crashes and redelivery: each published wake has its admission
      record, and an acknowledged, admitted, buildable event has its wake published or a
      run that carries its ref. */
  lemma RecordThenWake(actions: seq<Action>, h: nat)
    ensures var w := Execute(INIT, actions);
            && (forall i :: 0 <= i < |w.wakes| ==> w.wakes[i] in w.records)
            && (h < |w.handlers| && w.handlers[h].pc.Acked? && w.handlers[h].pc.ack != Rejected
                && w.handlers[h].event.builds
                ==> RecordOf(w.handlers[h].event) in w.wakes || w.handlers[h].event.ref in w.runs)
  {
    hide Execute;
    RunInv(INIT, actions);
    var w := Execute(INIT, actions);
    if h < |w.handlers| {
      assert HandlerOk(w, w.handlers[h]);
    }
  }

  // --- when an event has no wake of its own ---

  predicate Publishes(w: World, a: Action, id: RecordId) {
    && a.Step? && a.h < |w.handlers| && w.handlers[a.h].pc.Publish? && RecordOf(w.handlers[a.h].event) == id
    && (a.reply.Ok? || (a.reply.Lost? && a.reply.landed))
  }

  function PublishBit(id: RecordId): (World, Action) -> nat {
    (w: World, a: Action) => if Publishes(w, a, id) then 1 else 0
  }

  /** How many publish requests for this record land, along a run. */
  function Published(w: World, actions: seq<Action>, id: RecordId): nat {
    CountAlong(Do, PublishBit(id), w, actions)
  }

  lemma DoPublishes(w: World, a: Action, id: RecordId)
    ensures id in Do(w, a).wakes <==> id in w.wakes || PublishBit(id)(w, a) == 1
  {
  }

  lemma {:induction false} WakesArePublished(w: World, actions: seq<Action>, id: RecordId)
    ensures id in Execute(w, actions).wakes <==> id in w.wakes || Published(w, actions, id) > 0
    decreases |actions|
  {
    hide Do;
    if actions != [] {
      DoPublishes(w, actions[0], id);
      WakesArePublished(Do(w, actions[0]), actions[1..], id);
    }
  }

  /** At step j, handler h asked whether its issue has a run, and a run carried its ref. */
  predicate MetRun(w: World, actions: seq<Action>, j: nat, h: nat)
    requires j < |actions|
  {
    var v := Execute(w, actions[..j]);
    actions[j] == Step(h, Ok) && h < |v.handlers| && v.handlers[h].pc.Check? && v.handlers[h].event.ref in v.runs
  }

  lemma DuplicateStep(w: World, a: Action, h: nat)
    requires h < |Do(w, a).handlers| && Do(w, a).handlers[h].pc == Acked(Duplicate)
    ensures h < |w.handlers| && Do(w, a).handlers[h].event == w.handlers[h].event
    ensures w.handlers[h].pc == Acked(Duplicate)
         || (a == Step(h, Ok) && w.handlers[h].pc.Check? && w.handlers[h].event.ref in w.runs)
  {
  }

  lemma {:induction false} DuplicateMetRun(w: World, actions: seq<Action>, h: nat) returns (j: nat)
    requires forall k :: 0 <= k < |w.handlers| ==> w.handlers[k].pc != Acked(Duplicate)
    requires var v := Execute(w, actions); h < |v.handlers| && v.handlers[h].pc == Acked(Duplicate)
    ensures j < |actions| && MetRun(w, actions, j, h)
    decreases |actions|
  {
    hide Do;
    if actions != [] {
      var before, last := actions[..|actions| - 1], actions[|actions| - 1];
      assert actions == before + [last];
      FoldConcat(Do, w, before, [last]);
      FoldOne(Do, Execute(w, before), last);
      DuplicateStep(Execute(w, before), last, h);
      if Execute(w, before).handlers[h].pc == Acked(Duplicate) {
        j := DuplicateMetRun(w, before, h);
        assert before[..j] == actions[..j];
      } else {
        j := |before|;
      }
    }
  }

  /** In every run, for an acknowledged, admitted, buildable event: it has no wake of its own if
      and only if it was acknowledged as a duplicate, a run with its ref having stood when it
      asked, and no publish request for it has landed. That run is then none that this event
      has woken. */
  lemma NoWakeIff(actions: seq<Action>, h: nat)
    requires h < |Execute(INIT, actions).handlers|
    requires var x := Execute(INIT, actions).handlers[h]; x.pc.Acked? && x.pc.ack != Rejected && x.event.builds
    ensures var w := Execute(INIT, actions);
            var id := RecordOf(w.handlers[h].event);
            id !in w.wakes
            <==> w.handlers[h].pc == Acked(Duplicate) && (exists j :: 0 <= j < |actions| && MetRun(INIT, actions, j, h))
                 && Published(INIT, actions, id) == 0
  {
    hide Execute, Published, MetRun;
    RunInv(INIT, actions);
    var w := Execute(INIT, actions);
    assert HandlerOk(w, w.handlers[h]);
    WakesArePublished(INIT, actions, RecordOf(w.handlers[h].event));
    if w.handlers[h].pc == Acked(Duplicate) {
      var j := DuplicateMetRun(INIT, actions, h);
    }
  }

  /** Such a run: an issue that was worked on before is triggered again, the process crashes
      between the record and the wake, and the redelivery takes the old run for its own. */
  lemma OlderRunHidesEvent(e: Event)
    ensures var w := Execute(INIT, [Mint(e.ref), Deliver(e), Step(0, Ok), Step(0, Ok), Crash(0),
                                    Deliver(e), Step(1, Ok), Step(1, Ok), Step(1, Ok)]);
            |w.handlers| == 2 && w.handlers[1] == Handler(e, Acked(Duplicate)) && w.records == {RecordOf(e)}
                && w.wakes == []
  {
    var a, b := [Mint(e.ref), Deliver(e), Step(0, Ok), Step(0, Ok), Crash(0)],
        [Deliver(e), Step(1, Ok), Step(1, Ok), Step(1, Ok)];
    FoldConcat(Do, INIT, a, b);
    assert a + b == [Mint(e.ref), Deliver(e), Step(0, Ok), Step(0, Ok), Crash(0), Deliver(e), Step(1, Ok), Step(1, Ok),
                     Step(1, Ok)];
    CrashesAfterRecord(e);
    TakenForDuplicate(Execute(INIT, a), e);
  }

  lemma CrashesAfterRecord(e: Event)
    ensures Execute(INIT, [Mint(e.ref), Deliver(e), Step(0, Ok), Step(0, Ok), Crash(0)])
         == World({RecordOf(e)}, {e.ref}, [], [Handler(e, Crashed)])
  {
    var w1 := Do(Do(INIT, Mint(e.ref)), Deliver(e));
    var w2 := Do(w1, Step(0, Ok));
    var w3 := Do(w2, Step(0, Ok));
    FoldTwo(Do, INIT, Mint(e.ref), Deliver(e));
    FoldTwo(Do, w1, Step(0, Ok), Step(0, Ok));
    FoldOne(Do, w3, Crash(0));
    FoldConcat(Do, INIT, [Mint(e.ref), Deliver(e)], [Step(0, Ok), Step(0, Ok)] + [Crash(0)]);
    FoldConcat(Do, w1, [Step(0, Ok), Step(0, Ok)], [Crash(0)]);
    assert [Mint(e.ref), Deliver(e)] + ([Step(0, Ok), Step(0, Ok)] + [Crash(0)])
        == [Mint(e.ref), Deliver(e), Step(0, Ok), Step(0, Ok), Crash(0)];
    assert {e.ref} == {} + {e.ref} && {RecordOf(e)} == {} + {RecordOf(e)};
  }

  lemma TakenForDuplicate(w: World, e: Event)
    requires w == World({RecordOf(e)}, {e.ref}, [], [Handler(e, Crashed)])
    ensures Execute(w, [Deliver(e), Step(1, Ok), Step(1, Ok), Step(1, Ok)])
         == w.(handlers := [Handler(e, Crashed), Handler(e, Acked(Duplicate))])
  {
    var w1 := Do(Do(w, Deliver(e)), Step(1, Ok));
    FoldTwo(Do, w, Deliver(e), Step(1, Ok));
    FoldTwo(Do, w1, Step(1, Ok), Step(1, Ok));
    FoldConcat(Do, w, [Deliver(e), Step(1, Ok)], [Step(1, Ok), Step(1, Ok)]);
    assert [Deliver(e), Step(1, Ok)] + [Step(1, Ok), Step(1, Ok)]
           == [Deliver(e), Step(1, Ok), Step(1, Ok), Step(1, Ok)];
  }

  /** Past its check, a handler publishes whatever has happened since. */
  predicate Committed(x: Handler, e: Event) {
    RecordOf(x.event) == RecordOf(e) && (x.pc.Build? || x.pc.Publish?)
  }

  function CommittedBit(e: Event): Handler -> nat {
    (x: Handler) => if Committed(x, e) then 1 else 0
  }

  /** Handlers of this event that are past their check. */
  function Pending(w: World, e: Event): nat {
    Sum(CommittedBit(e), w.handlers)
  }

  function WakesFor(wakes: seq<RecordId>, id: RecordId): nat {
    multiset(wakes)[id]
  }

  /** Neither on the way to a wake nor done with one. */
  predicate NeverWakes(x: Handler, e: Event) {
    RecordOf(x.event) == RecordOf(e) ==> !Committed(x, e) && x.pc != Acked(Woken)
  }

  lemma WakesSnoc(wakes: seq<RecordId>, x: RecordId, id: RecordId)
    ensures WakesFor(wakes + [x], id) == WakesFor(wakes, id) + if x == id then 1 else 0
  {
  }

  lemma StepSilent(w: World, h: nat, reply: Reply, e: Event)
    requires h < |w.handlers| && RecordOf(e) in w.records && e.ref in w.runs
    ensures var v := StepHandler(w, h, reply);
            && v.handlers == w.handlers[h := v.handlers[h]] && w.records <= v.records && v.runs == w.runs
            && WakesFor(w.wakes, RecordOf(e)) <= WakesFor(v.wakes, RecordOf(e))
            && WakesFor(v.wakes, RecordOf(e)) + CommittedBit(e)(v.handlers[h])
               <= WakesFor(w.wakes, RecordOf(e)) + CommittedBit(e)(w.handlers[h])
            && (NeverWakes(w.handlers[h], e) ==> NeverWakes(v.handlers[h], e))
  {
    hide WakesFor;
    WakesSnoc(w.wakes, RecordOf(w.handlers[h].event), RecordOf(e));
  }

  lemma DoSilent(w: World, a: Action, e: Event)
    requires RecordOf(e) in w.records && e.ref in w.runs
    ensures var v := Do(w, a);
            && RecordOf(e) in v.records && e.ref in v.runs && |w.handlers| <= |v.handlers|
            && WakesFor(w.wakes, RecordOf(e)) <= WakesFor(v.wakes, RecordOf(e))
            && WakesFor(v.wakes, RecordOf(e)) + Pending(v, e) <= WakesFor(w.wakes, RecordOf(e)) + Pending(w, e)
            && (forall h :: |w.handlers| <= h < |v.handlers| ==> NeverWakes(v.handlers[h], e))
            && (forall h :: 0 <= h < |w.handlers| && NeverWakes(w.handlers[h], e) ==> NeverWakes(v.handlers[h], e))
  {
    hide StepHandler, Sum, WakesFor;
    match a
    case Deliver(event) => SumSnoc(CommittedBit(e), w.handlers, Handler(event, Decide));
    case Mint(_) =>
    case Crash(h) =>
      if h < |w.handlers| {
        SumUpdate(CommittedBit(e), w.handlers, h, w.handlers[h].(pc := Crashed));
      }
    case Step(h, reply) =>
      if h < |w.handlers| {
        StepSilent(w, h, reply, e);
        SumUpdate(CommittedBit(e), w.handlers, h, StepHandler(w, h, reply).handlers[h]);
      }
  }

  lemma {:induction false} RunSilent(w: World, actions: seq<Action>, e: Event, base: nat)
    requires RecordOf(e) in w.records && e.ref in w.runs && base <= |w.handlers|
    requires forall h :: base <= h < |w.handlers| ==> NeverWakes(w.handlers[h], e)
    ensures var v := Execute(w, actions);
            && WakesFor(w.wakes, RecordOf(e)) <= WakesFor(v.wakes, RecordOf(e))
            && WakesFor(v.wakes, RecordOf(e)) + Pending(v, e) <= WakesFor(w.wakes, RecordOf(e)) + Pending(w, e)
            && forall h :: base <= h < |v.handlers| ==> NeverWakes(v.handlers[h], e)
    decreases |actions|
  {
    hide Do, WakesFor, Pending, NeverWakes;
    if actions != [] {
      DoSilent(w, actions[0], e);
      RunSilent(Do(w, actions[0]), actions[1..], e, base);
    }
  }

  /** Once a run carries the ref of a recorded event, whatever is redelivered and however it
      interleaves: deliveries from then on never publish its wake, and the wakes still to
      come are at most the handlers already past their check. Without any, none. */
  lemma RedeliveryIsSilent(w: World, actions: seq<Action>, e: Event)
    requires RecordOf(e) in w.records && e.ref in w.runs
    ensures var v := Execute(w, actions);
            var before, after := WakesFor(w.wakes, RecordOf(e)), WakesFor(v.wakes, RecordOf(e));
            && before <= after <= before + Pending(w, e)
            && (forall h :: |w.handlers| <= h < |v.handlers| && RecordOf(v.handlers[h].event) == RecordOf(e)
                  ==> !Committed(v.handlers[h], e) && v.handlers[h].pc != Acked(Woken))
    ensures (forall h :: 0 <= h < |w.handlers| ==> !Committed(w.handlers[h], e))
            ==> WakesFor(Execute(w, actions).wakes, RecordOf(e)) == WakesFor(w.wakes, RecordOf(e))
  {
    RunSilent(w, actions, e, |w.handlers|);
    hide Execute, Committed;
    SumZero(CommittedBit(e), w.handlers);
  }

  /** A crash between the record and the wake is repaired: with no run yet, a redelivery that
      meets no fault publishes the wake. */
  lemma CrashIsRepaired(w: World, e: Event)
    requires RecordOf(e) in w.records && e.ref !in w.runs && e.builds
    ensures var h := |w.handlers|;
            var v := Execute(w, [Deliver(e), Step(h, Ok), Step(h, Ok), Step(h, Ok), Step(h, Ok), Step(h, Ok)]);
            v.wakes == w.wakes + [RecordOf(e)] && h < |v.handlers| && v.handlers[h].pc == Acked(Woken)
  {
    var h := |w.handlers|;
    var w1 := Do(w, Deliver(e));
    var w2 := Do(w1, Step(h, Ok));
    var w3 := Do(w2, Step(h, Ok));
    var w4 := Do(w3, Step(h, Ok));
    var w5 := Do(w4, Step(h, Ok));
    var s := [Step(h, Ok)];
    FoldTwo(Do, w4, Step(h, Ok), Step(h, Ok));
    FoldCons(Do, w3, Step(h, Ok), [Step(h, Ok), Step(h, Ok)]);
    FoldCons(Do, w2, Step(h, Ok), [Step(h, Ok), Step(h, Ok), Step(h, Ok)]);
    FoldCons(Do, w1, Step(h, Ok), [Step(h, Ok), Step(h, Ok), Step(h, Ok), Step(h, Ok)]);
    FoldCons(Do, w, Deliver(e), [Step(h, Ok), Step(h, Ok), Step(h, Ok), Step(h, Ok), Step(h, Ok)]);
    assert s + [Step(h, Ok), Step(h, Ok)] == [Step(h, Ok), Step(h, Ok), Step(h, Ok)];
    assert s + [Step(h, Ok), Step(h, Ok), Step(h, Ok)] == [Step(h, Ok), Step(h, Ok), Step(h, Ok), Step(h, Ok)];
    assert s + [Step(h, Ok), Step(h, Ok), Step(h, Ok), Step(h, Ok)]
           == [Step(h, Ok), Step(h, Ok), Step(h, Ok), Step(h, Ok), Step(h, Ok)];
    assert [Deliver(e)] + [Step(h, Ok), Step(h, Ok), Step(h, Ok), Step(h, Ok), Step(h, Ok)]
        == [Deliver(e), Step(h, Ok), Step(h, Ok), Step(h, Ok), Step(h, Ok), Step(h, Ok)];
  }
}
