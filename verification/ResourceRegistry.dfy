/** The run-resource registries as one step system: warm sandboxes, checkouts and verify
    clones. Any number of calls interleave; only the map updates are under the lock. */
module ResourceRegistry {
  import opened Text
  import opened Seqs

  datatype Kind = Sandbox | Checkout | VerifyClone

  datatype Key = Key(kind: Kind, run: string)

  /** Which slots a teardown call empties. */
  datatype Which = These(keys: set<Key>) | Everything

  datatype Pc =
    | Begin                        // Provision, Materialize, CloneForVerify
    | Fill(res: nat)               // the container or directory exists, not yet ready
    | Install(res: nat)            // ready; about to take the lock
    | Take                         // Down, Remove, CloseAll: about to take the lock
    | TearDown(pending: set<nat>)  // outside the lock, one teardown at a time
    | Done

  /** A call: what it works on and where it is. needs is the slot it copies from. */
  datatype Call = Call(key: Key, needs: Option<Key>, which: Which, pc: Pc)

  datatype Cause = StartFailed | TeardownFailed

  /** A container or directory that is alive although no slot and no call knows of it: a
      container that failed to start after it was created, or one whose teardown failed. */
  datatype Loss = Loss(res: nat, kind: Kind, cause: Cause)

  /** made lists the kind of every resource ever created, gone those that were torn down. */
  datatype World = World(slots: map<Key, nat>, calls: seq<Call>, made: seq<Kind>, gone: seq<nat>, lost: seq<Loss>)

  const INIT := World(map[], [], [], [], [])

  datatype Action =
    | Make(key: Key, needs: Option<Key>)
    | Remove(which: Which)
    | Step(call: nat, ok: bool, pick: nat)

  function Taken(slots: map<Key, nat>, which: Which): set<Key> {
    match which
    case These(keys) => keys * slots.Keys
    case Everything => slots.Keys
  }

  function Finish(pending: set<nat>): Pc {
    if pending == {} then Done else TearDown(pending)
  }

  function KindOf(w: World, r: nat): Kind {
    if r < |w.made| then w.made[r] else Sandbox
  }

  function StepCall(w: World, c: nat, ok: bool, pick: nat): World
    requires c < |w.calls|
  {
    var call := w.calls[c];
    match call.pc
    case Begin =>
      if !ok || (call.needs.Some? && call.needs.value !in w.slots) then w.(calls := w.calls[c := call.(pc := Done)])
      else w.(calls := w.calls[c := call.(pc := Fill(|w.made|))], made := w.made + [call.key.kind])
    case Fill(res) =>
      if ok then w.(calls := w.calls[c := call.(pc := Install(res))])
      else if call.key.kind.Sandbox? then
        var lost := w.lost + [Loss(res, Sandbox, StartFailed)];
        w.(calls := w.calls[c := call.(pc := Done)], lost := lost)
      else w.(calls := w.calls[c := call.(pc := TearDown({res}))])
    case Install(res) =>
      var prior := if call.key in w.slots then {w.slots[call.key]} else {};
      w.(slots := w.slots[call.key := res], calls := w.calls[c := call.(pc := Finish(prior))])
    case Take =>
      var keys := Taken(w.slots, call.which);
      w.(slots := w.slots - keys, calls := w.calls[c := call.(pc := Finish(set k | k in keys :: w.slots[k]))])
    case TearDown(pending) =>
      if pick !in pending then w
      else
        var v := w.(calls := w.calls[c := call.(pc := Finish(pending - {pick}))]);
        if ok then v.(gone := w.gone + [pick]) else v.(lost := w.lost + [Loss(pick, KindOf(w, pick), TeardownFailed)])
    case Done => w
  }

  function Do(w: World, a: Action): World {
    match a
    case Make(key, needs) => w.(calls := w.calls + [Call(key, needs, Everything, Begin)])
    case Remove(which) => w.(calls := w.calls + [Call(Key(Sandbox, ""), None, which, Take)])
    case Step(c, ok, pick) => if c < |w.calls| then StepCall(w, c, ok, pick) else w
  }

  function Execute(w: World, actions: seq<Action>): World {
    Fold(Do, w, actions)
  }

  // --- ownership ---

  /** What a call in flight is responsible for. */
  function Held(call: Call): set<nat> {
    match call.pc
    case Fill(res) => {res}
    case Install(res) => {res}
    case TearDown(pending) => pending
    case _ => {}
  }

  /** Where a resource can be. */
  datatype Place = Slot(key: Key) | InFlight(call: int) | Gone(index: int) | Lost(index: int)

  predicate IsAt(w: World, r: nat, p: Place) {
    match p
    case Slot(key) => key in w.slots && w.slots[key] == r
    case InFlight(c) => 0 <= c < |w.calls| && r in Held(w.calls[c])
    case Gone(i) => 0 <= i < |w.gone| && w.gone[i] == r
    case Lost(i) => 0 <= i < |w.lost| && w.lost[i].res == r
  }

  ghost predicate Placed(w: World, r: nat) {
    exists p :: IsAt(w, r, p)
  }

  /** Every resource ever created is in exactly one place: one slot, one call in flight, gone,
      or lost; and nothing else is anywhere. */
  ghost predicate Conserved(w: World) {
    && (forall r: nat, p, q :: IsAt(w, r, p) && IsAt(w, r, q) ==> p == q)
    && (forall r: nat, p :: IsAt(w, r, p) ==> r < |w.made|)
    && (forall r: nat :: r < |w.made| ==> Placed(w, r))
  }

  /** Where a step puts a resource that was at p. */
  function Moved(w: World, c: nat, ok: bool, pick: nat, r: nat, p: Place): Place
    requires c < |w.calls|
  {
    var call := w.calls[c];
    match call.pc
    case Fill(res) => if !ok && call.key.kind.Sandbox? && p == InFlight(c) then Lost(|w.lost|) else p
    case Install(res) => if p == InFlight(c) then Slot(call.key) else if p == Slot(call.key) then InFlight(c) else p
    case Take => if p.Slot? && p.key in Taken(w.slots, call.which) then InFlight(c) else p
    case TearDown(pending) => if p != InFlight(c) || r != pick then p else if ok then Gone(|w.gone|) else Lost(|w.lost|)
    case _ => p
  }

  /** A step moves resources without losing, copying or merging any. */
  lemma StepMoves(w: World, c: nat, ok: bool, pick: nat, r: nat, p: Place)
    requires c < |w.calls| && Conserved(w) && IsAt(w, r, p)
    ensures IsAt(StepCall(w, c, ok, pick), r, Moved(w, c, ok, pick, r, p))
  {
  }

  lemma StepComesFrom(w: World, c: nat, ok: bool, pick: nat, r: nat, q: Place) returns (p: Place)
    requires c < |w.calls| && Conserved(w) && IsAt(StepCall(w, c, ok, pick), r, q)
    ensures (IsAt(w, r, p) && q == Moved(w, c, ok, pick, r, p))
            || (r == |w.made| && q == InFlight(c) && |StepCall(w, c, ok, pick).made| == |w.made| + 1)
  {
    var call := w.calls[c];
    p := q;
    if !IsAt(w, r, q) || q != Moved(w, c, ok, pick, r, q) {
      match call.pc {
        case Fill(res) =>
          p := InFlight(c);
        case Install(res) =>
          if q == Slot(call.key) {
            p := InFlight(c);
          } else {
            p := Slot(call.key);
          }
        case Take =>
          assert q == InFlight(c);
          var keys := Taken(w.slots, call.which);
          var k :| k in keys && w.slots[k] == r;
          p := Slot(k);
        case TearDown(pending) =>
          p := InFlight(c);
        case _ =>
      }
    }
  }

  lemma StepConserves(w: World, c: nat, ok: bool, pick: nat)
    requires c < |w.calls| && Conserved(w)
    ensures Conserved(StepCall(w, c, ok, pick))
  {
    var v := StepCall(w, c, ok, pick);
    NextGrows(w, c, ok, pick);
    hide StepCall, Moved, IsAt;
    forall r: nat, p, q | IsAt(v, r, p) && IsAt(v, r, q)
      ensures p == q && r < |v.made|
    {
      var a := StepComesFrom(w, c, ok, pick, r, p);
      var b := StepComesFrom(w, c, ok, pick, r, q);
      if IsAt(w, r, a) && IsAt(w, r, b) {
        assert a == b;
      }
    }
    forall r: nat | r < |v.made|
      ensures Placed(v, r)
    {
      if r < |w.made| {
        assert Placed(w, r);
        var p :| IsAt(w, r, p);
        StepMoves(w, c, ok, pick, r, p);
      } else {
        NewIsHeld(w, c, ok, pick);
      }
    }
  }

  lemma NextGrows(w: World, c: nat, ok: bool, pick: nat)
    requires c < |w.calls|
    ensures |w.made| <= |StepCall(w, c, ok, pick).made| <= |w.made| + 1
  {
  }

  lemma NewIsHeld(w: World, c: nat, ok: bool, pick: nat)
    requires c < |w.calls| && |StepCall(w, c, ok, pick).made| == |w.made| + 1
    ensures IsAt(StepCall(w, c, ok, pick), |w.made|, InFlight(c))
  {
  }

  lemma SpawnConserves(w: World, call: Call)
    requires Conserved(w) && Held(call) == {}
    ensures Conserved(w.(calls := w.calls + [call]))
  {
    var v := w.(calls := w.calls + [call]);
    assert forall r: nat, p :: IsAt(v, r, p) <==> IsAt(w, r, p);
    forall r: nat | r < |v.made|
      ensures Placed(v, r)
    {
      assert Placed(w, r);
      var p :| IsAt(w, r, p);
      assert IsAt(v, r, p);
    }
  }

  lemma {:induction false} RunConserves(w: World, actions: seq<Action>)
    requires Conserved(w)
    ensures Conserved(Execute(w, actions))
    decreases |actions|
  {
    hide Conserved, StepCall;
    if actions != [] {
      match actions[0] {
        case Make(key, needs) => SpawnConserves(w, Call(key, needs, Everything, Begin));
        case Remove(which) => SpawnConserves(w, Call(Key(Sandbox, ""), None, which, Take));
        case Step(c, ok, pick) =>
          if c < |w.calls| {
            StepConserves(w, c, ok, pick);
          }
      }
      RunConserves(Do(w, actions[0]), actions[1..]);
    }
  }

  // --- main results ---

  lemma InitConserved()
    ensures Conserved(INIT)
  {
  }

  /** In every interleaving: no teardown of a container or directory is attempted twice, whether
      it worked or not, and none of one that a slot or a call still holds. */
  lemma NeverTwice(actions: seq<Action>)
    ensures Conserved(Execute(INIT, actions))
    ensures var w := Execute(INIT, actions);
            && (forall i, j :: 0 <= i < j < |w.gone| ==> w.gone[i] != w.gone[j])
            && (forall i, j :: 0 <= i < j < |w.lost| ==> w.lost[i].res != w.lost[j].res)
            && (forall i :: 0 <= i < |w.lost| ==> w.lost[i].res !in w.gone)
            && (forall key :: key in w.slots ==> w.slots[key] !in w.gone && !IsLost(w, w.slots[key]))
  {
    InitConserved();
    RunConserves(INIT, actions);
    var w := Execute(INIT, actions);
    hide Execute;
    PlacesOf(w);
  }

  predicate IsLost(w: World, r: nat) {
    exists i :: 0 <= i < |w.lost| && w.lost[i].res == r
  }

  predicate InSlot(w: World, r: nat) {
    exists key :: key in w.slots && w.slots[key] == r
  }

  lemma PlacesOf(w: World)
    ensures forall i :: 0 <= i < |w.gone| ==> IsAt(w, w.gone[i], Gone(i))
    ensures forall i :: 0 <= i < |w.lost| ==> IsAt(w, w.lost[i].res, Lost(i))
    ensures forall key :: key in w.slots ==> IsAt(w, w.slots[key], Slot(key))
  {
  }

  predicate Quiet(w: World) {
    forall c :: 0 <= c < |w.calls| ==> Held(w.calls[c]) == {}
  }

  /** Once every call has finished, each resource ever created is in a slot, or really gone, or
      lost, and only one of these. */
  lemma WhereResourcesEnd(actions: seq<Action>, r: nat)
    requires Quiet(Execute(INIT, actions)) && r < |Execute(INIT, actions).made|
    ensures var w := Execute(INIT, actions);
            && (IsLost(w, r) <==> !InSlot(w, r) && r !in w.gone)
            && (r in w.gone <==> !InSlot(w, r) && !IsLost(w, r))
  {
    InitConserved();
    RunConserves(INIT, actions);
    var w := Execute(INIT, actions);
    hide Execute;
    assert Placed(w, r);
    var p :| IsAt(w, r, p);
    PlacesOf(w);
  }

  // --- a call that fails ---

  /** How far a call is. */
  function Stage(pc: Pc): nat {
    match pc
    case Begin => 0
    case Fill(_) => 1
    case Install(_) => 2
    case Take => 2
    case TearDown(_) => 3
    case Done => 4
  }

  predicate IsStepOf(a: Action, c: nat) {
    a.Step? && a.call == c
  }

  lemma StageStep(w: World, a: Action, c: nat)
    requires c < |w.calls|
    ensures c < |Do(w, a).calls| && Stage(Do(w, a).calls[c].pc) >= Stage(w.calls[c].pc)
  {
    hide Taken;
  }

  lemma SlotsKept(w: World, a: Action, c: nat)
    requires c < |w.calls| && IsStepOf(a, c) && Stage(w.calls[c].pc) != 2
    ensures Do(w, a).slots == w.slots
  {
    hide Taken;
  }

  lemma {:induction false} StageGrows(w: World, actions: seq<Action>, c: nat)
    requires c < |w.calls|
    ensures var v := Execute(w, actions); c < |v.calls| && Stage(v.calls[c].pc) >= Stage(w.calls[c].pc)
    decreases |actions|
  {
    hide Do, Stage;
    if actions != [] {
      StageStep(w, actions[0], c);
      StageGrows(Do(w, actions[0]), actions[1..], c);
    }
  }

  /** A call fails before what it makes is ready: the creation fails, or what it copies from is
      missing, or the copy or start does. */
  predicate Fails(w: World, call: Call, ok: bool) {
    match call.pc
    case Begin => !ok || (call.needs.Some? && call.needs.value !in w.slots)
    case Fill(_) => !ok
    case _ => false
  }

  /** Call c fails at step j of the run. */
  predicate FailsAt(w: World, actions: seq<Action>, j: nat, c: nat)
    requires j < |actions|
  {
    var v := Execute(w, actions[..j]);
    IsStepOf(actions[j], c) && c < |v.calls| && Fails(v, v.calls[c], actions[j].ok)
  }

  lemma Between(w: World, actions: seq<Action>, i: nat, j: nat)
    requires i <= j <= |actions|
    ensures Execute(w, actions[..j]) == Execute(Execute(w, actions[..i]), actions[i..j])
  {
    FoldConcat(Do, w, actions[..i], actions[i..j]);
    assert actions[..i] + actions[i..j] == actions[..j];
  }

  /** The failing step itself: a half-made checkout or clone is torn down, a container that does
      not start is lost. */
  lemma FailureCleansUp(w: World, c: nat, ok: bool, pick: nat)
    requires c < |w.calls| && Fails(w, w.calls[c], ok)
    ensures var v, call := StepCall(w, c, ok, pick), w.calls[c];
            && v.gone == w.gone && v.made == w.made && Stage(v.calls[c].pc) >= 3
            && (call.pc.Begin? ==> v.calls[c].pc == Done && v.lost == w.lost)
            && (call.pc.Fill? && !call.key.kind.Sandbox?
                ==> v.calls[c].pc == TearDown({call.pc.res}) && v.lost == w.lost)
            && (call.pc.Fill? && call.key.kind.Sandbox?
                ==> v.calls[c].pc == Done && v.lost == w.lost + [Loss(call.pc.res, Sandbox, StartFailed)])
  {
  }

  lemma OneFurther(w: World, actions: seq<Action>, j: nat)
    requires j < |actions|
    ensures Execute(w, actions[..j + 1]) == Do(Execute(w, actions[..j]), actions[j])
  {
    hide Do;
    Between(w, actions, j, j + 1);
    assert actions[j..j + 1] == [actions[j]];
    FoldOne(Do, Execute(w, actions[..j]), actions[j]);
  }

  /** A provisioning, a copy or a clone that fails, at whatever point of a run and among
      whatever other calls, never touches a slot, before or after: of all the steps of the run
      its own leave every slot as they find it. */
  lemma FailureKeepsEntries(w: World, actions: seq<Action>, j: nat, c: nat, k: nat)
    requires c < |w.calls| && j < |actions| && FailsAt(w, actions, j, c)
    requires k < |actions| && IsStepOf(actions[k], c)
    ensures Execute(w, actions[..k + 1]).slots == Execute(w, actions[..k]).slots
  {
    hide Execute, Do, Stage;
    var v := Execute(w, actions[..k]);
    StageGrows(w, actions[..k], c);
    OneFurther(w, actions, k);
    if k <= j {
      Between(w, actions, k, j);
      StageGrows(v, actions[k..j], c);
      EarlyStages(Execute(w, actions[..j]), c, actions[j].ok);
    } else {
      OneFurther(w, actions, j);
      FailureCleansUp(Execute(w, actions[..j]), c, actions[j].ok, actions[j].pick);
      StepIs(Execute(w, actions[..j]), actions[j]);
      Between(w, actions, j + 1, k);
      StageGrows(w, actions[..j], c);
      StageStep(Execute(w, actions[..j]), actions[j], c);
      StageGrows(Execute(w, actions[..j + 1]), actions[j + 1..k], c);
    }
    SlotsKept(v, actions[k], c);
  }

  lemma StepIs(w: World, a: Action)
    requires a.Step? && a.call < |w.calls|
    ensures Do(w, a) == StepCall(w, a.call, a.ok, a.pick)
  {
  }

  lemma EarlyStages(w: World, c: nat, ok: bool)
    requires c < |w.calls| && Fails(w, w.calls[c], ok)
    ensures Stage(w.calls[c].pc) <= 1
  {
  }

  // --- what leaks ---

  predicate FailsStart(w: World, a: Action) {
    a.Step? && a.call < |w.calls| && !a.ok && w.calls[a.call].pc.Fill? && w.calls[a.call].key.kind.Sandbox?
  }

  predicate FailsTeardown(w: World, a: Action, kind: Kind) {
    && a.Step? && a.call < |w.calls| && !a.ok && w.calls[a.call].pc.TearDown?
    && a.pick in w.calls[a.call].pc.pending && KindOf(w, a.pick) == kind
  }

  function StartFailure(w: World, a: Action): nat {
    if FailsStart(w, a) then 1 else 0
  }

  function TeardownFailure(kind: Kind): (World, Action) -> nat {
    (w: World, a: Action) => if FailsTeardown(w, a, kind) then 1 else 0
  }

  /** How many sandbox containers fail to start after they were created, along a run. */
  function StartFailures(w: World, actions: seq<Action>): nat {
    CountAlong(Do, StartFailure, w, actions)
  }

  /** How many teardowns of this kind of resource fail, along a run. */
  function TeardownFailures(w: World, actions: seq<Action>, kind: Kind): nat {
    CountAlong(Do, TeardownFailure(kind), w, actions)
  }

  function LossBit(kind: Kind): Loss -> nat {
    (l: Loss) => if l.kind == kind then 1 else 0
  }

  function Losses(w: World, kind: Kind): nat {
    Sum(LossBit(kind), w.lost)
  }

  lemma LossStep(w: World, a: Action, kind: Kind)
    ensures Losses(Do(w, a), kind)
         == Losses(w, kind) + (if kind.Sandbox? then StartFailure(w, a) else 0) + TeardownFailure(kind)(w, a)
  {
    var v := Do(w, a);
    if |v.lost| > |w.lost| {
      SumSnoc(LossBit(kind), w.lost, v.lost[|w.lost|]);
      assert v.lost == w.lost + [v.lost[|w.lost|]];
    } else {
      assert v.lost == w.lost;
    }
  }

  lemma {:induction false} LossesCounted(w: World, actions: seq<Action>, kind: Kind)
    ensures Losses(Execute(w, actions), kind)
         == Losses(w, kind) + (if kind.Sandbox? then StartFailures(w, actions) else 0)
             + TeardownFailures(w, actions, kind)
    decreases |actions|
  {
    hide Do, Losses, FailsStart, TeardownFailure;
    if actions != [] {
      LossStep(w, actions[0], kind);
      LossesCounted(Do(w, actions[0]), actions[1..], kind);
    }
  }

  /** Calls and losses are of the kind their resource was made as. */
  ghost predicate KindsOk(w: World) {
    && (forall c :: 0 <= c < |w.calls| && w.calls[c].pc.Fill? ==>
          w.calls[c].pc.res < |w.made| && w.made[w.calls[c].pc.res] == w.calls[c].key.kind)
    && (forall i :: 0 <= i < |w.lost| ==> w.lost[i].res < |w.made| && w.made[w.lost[i].res] == w.lost[i].kind)
  }

  lemma KindStep(w: World, a: Action)
    requires KindsOk(w) && Conserved(w)
    ensures KindsOk(Do(w, a))
  {
    if a.Step? && a.call < |w.calls| && w.calls[a.call].pc.TearDown? && a.pick in w.calls[a.call].pc.pending {
      assert IsAt(w, a.pick, InFlight(a.call));
    }
  }

  lemma {:induction false} RunKinds(w: World, actions: seq<Action>)
    requires KindsOk(w) && Conserved(w)
    ensures KindsOk(Execute(w, actions))
    decreases |actions|
  {
    hide Do, KindsOk, Conserved;
    if actions != [] {
      KindStep(w, actions[0]);
      RunConserves(w, [actions[0]]);
      FoldOne(Do, w, actions[0]);
      RunKinds(Do(w, actions[0]), actions[1..]);
    }
  }

  /** Each resource of this kind is in a slot or really gone. */
  ghost predicate NoLeak(w: World, kind: Kind) {
    forall r: nat :: r < |w.made| && w.made[r] == kind ==> InSlot(w, r) || r in w.gone
  }

  /** Once every call has finished, no resource of a kind has leaked if and only if no teardown
      of one failed and, for sandboxes, no container failed to start after it was created. */
  lemma NothingLeaks(actions: seq<Action>, kind: Kind)
    requires Quiet(Execute(INIT, actions))
    ensures NoLeak(Execute(INIT, actions), kind)
       <==> TeardownFailures(INIT, actions, kind) == 0 && (kind.Sandbox? ==> StartFailures(INIT, actions) == 0)
  {
    hide Execute, StartFailures, TeardownFailures, InSlot, Quiet, Conserved, LossBit;
    var w := Execute(INIT, actions);
    LossesCounted(INIT, actions, kind);
    InitConserved();
    assert KindsOk(INIT);
    RunKinds(INIT, actions);
    SumZero(LossBit(kind), w.lost);
    LossBits(w.lost, kind);
    forall r: nat | r < |w.made|
      ensures InSlot(w, r) || r in w.gone <==> !IsLost(w, r)
    {
      WhereResourcesEnd(actions, r);
    }
    if i :| 0 <= i < |w.lost| && w.lost[i].kind == kind {
      assert IsLost(w, w.lost[i].res);
    }
  }

  lemma LossBits(lost: seq<Loss>, kind: Kind)
    ensures forall i :: 0 <= i < |lost| ==> (LossBit(kind)(lost[i]) == 0 <==> lost[i].kind != kind)
  {
  }

  /** A run of the code with such a loss: the sandbox is taken out of its slot, and then its
      teardown fails. */
  lemma TeardownCanLose(run: string)
    ensures var key := Key(Sandbox, run);
            var w := Execute(INIT, [Make(key, None), Step(0, true, 0), Step(0, true, 0), Step(0, true, 0),
                                    Remove(These({key})), Step(1, true, 0), Step(1, false, 0)]);
            Quiet(w) && w.slots == map[] && w.gone == [] && w.lost == [Loss(0, Sandbox, TeardownFailed)]
  {
    var key := Key(Sandbox, run);
    var a := [Make(key, None), Step(0, true, 0), Step(0, true, 0), Step(0, true, 0)];
    var b := [Remove(These({key})), Step(1, true, 0), Step(1, false, 0)];
    SandboxInstalled(key);
    FoldConcat(Do, INIT, a, b);
    assert a + b == [Make(key, None), Step(0, true, 0), Step(0, true, 0), Step(0, true, 0),
                     Remove(These({key})), Step(1, true, 0), Step(1, false, 0)];
    SandboxLost(Execute(INIT, a), key);
  }

  lemma SandboxInstalled(key: Key)
    ensures var w := Execute(INIT, [Make(key, None), Step(0, true, 0), Step(0, true, 0), Step(0, true, 0)]);
            w == World(map[key := 0], [Call(key, None, Everything, Done)], [key.kind], [], [])
  {
    var w1 := Do(INIT, Make(key, None));
    var w2 := Do(w1, Step(0, true, 0));
    var w3 := Do(w2, Step(0, true, 0));
    FoldTwo(Do, w2, Step(0, true, 0), Step(0, true, 0));
    FoldCons(Do, w1, Step(0, true, 0), [Step(0, true, 0), Step(0, true, 0)]);
    FoldCons(Do, INIT, Make(key, None), [Step(0, true, 0), Step(0, true, 0), Step(0, true, 0)]);
    assert [Step(0, true, 0)] + [Step(0, true, 0), Step(0, true, 0)]
           == [Step(0, true, 0), Step(0, true, 0), Step(0, true, 0)];
    assert [Make(key, None)] + [Step(0, true, 0), Step(0, true, 0), Step(0, true, 0)]
        == [Make(key, None), Step(0, true, 0), Step(0, true, 0), Step(0, true, 0)];
    assert w3.calls == [Call(key, None, Everything, Install(0))];
  }

  lemma SandboxLost(w: World, key: Key)
    requires key.kind.Sandbox? && w == World(map[key := 0], [Call(key, None, Everything, Done)], [Sandbox], [], [])
    ensures var v := Execute(w, [Remove(These({key})), Step(1, true, 0), Step(1, false, 0)]);
            Quiet(v) && v.slots == map[] && v.gone == [] && v.lost == [Loss(0, Sandbox, TeardownFailed)]
  {
    var w1 := Do(w, Remove(These({key})));
    var w2 := Do(w1, Step(1, true, 0));
    FoldTwo(Do, w1, Step(1, true, 0), Step(1, false, 0));
    FoldCons(Do, w, Remove(These({key})), [Step(1, true, 0), Step(1, false, 0)]);
    assert [Remove(These({key}))] + [Step(1, true, 0), Step(1, false, 0)]
           == [Remove(These({key})), Step(1, true, 0), Step(1, false, 0)];
    var keys := Taken(w1.slots, These({key}));
    assert keys == {key};
    assert (set k | k in keys :: w1.slots[k]) == {0};
    assert w2.calls[1].pc == TearDown({0});
    assert {0} - {0} == {};
    assert w2.slots == map[];
  }
}
