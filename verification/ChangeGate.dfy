/** The change-approval gate as a state machine: any number of classified-intent dispatches
    and exact commands race on one single-valued decision fact. Every external call is one
    step whose answer the environment picks, a failed call may have landed all the same, and
    other steps may come between any two calls. */
module ChangeGate {
  import opened Text
  import opened Seqs
  import opened WriteRetry

  datatype Decision = Approve | Reject

  /** The closed taxonomy; an absent or unknown value counts as no directive. */
  datatype Intent = ApproveIntent | RejectIntent | NoDirective

  function DecisionFor(intent: Intent): Option<Decision> {
    match intent
    case ApproveIntent => Some(Approve)
    case RejectIntent => Some(Reject)
    case NoDirective => None
  }

  /** One entity snapshot. Times are seconds; 0 is the zero time. */
  datatype Run = Run(decision: Option<Decision>, intent: Intent, author: string, refParses: bool, gated: bool,
                     openedAt: int)

  datatype Announcement = Announcement(decision: Decision, author: string)

  function AnnouncementOf(snap: Run): Announcement
    requires DecisionFor(snap.intent).Some?
  {
    Announcement(DecisionFor(snap.intent).value, snap.author)
  }

  const MAX_ATTEMPTS: nat := 3
  const SKEW := 30

  // --- processes ---

  datatype Outcome =
    | Guarded       // a guard found nothing to do
    | Applied       // the announced decision stands
    | Superseded    // another decision stands; a correction was attempted
    | Unattributed  // the notice about a missing author was posted
    | OutOfAttempts // the exhaustion notice was posted
    | Failed        // the error went back for redelivery

  datatype ApplyPc =
    | Fetch
    | ResolveThread(snap: Run)
    | Notify(snap: Run)
    | Authorize(snap: Run)
    | Announce(snap: Run)
    | ReadGate(snap: Run)
    | Write(snap: Run, request: nat)
    | Correct(snap: Run, stands: Decision)
    | Exhausted
    | Finished(outcome: Outcome)

  datatype CommandPc =
    | CommandAuthorize
    | CommandResolve
    | CommandRead
    | CommandWrite(request: nat)
    | CommandDone

  datatype Proc =
    | Apply(attempt: nat, posted: Option<Announcement>, threadKnown: bool, authorized: string, pc: ApplyPc)
    | Command(author: string, at: int, decision: Decision, cpc: CommandPc)
    | Crashed

  /** A post that reports failure may be on the thread all the same. */
  datatype Fate = Confirmed | LandedUnconfirmed | NotLanded

  datatype Lane = ClassifiedLane | CommandLane

  /** What has happened, in order. */
  datatype Event =
    | Fetched(who: nat, snap: Run)
    | Authorized(who: nat, author: string)
    | Announced(who: nat, announcement: Announcement, fate: Fate)
    | Stood(who: nat, stands: Decision)
    | Corrected(who: nat, announced: Decision, stands: Decision, fate: Fate)
    | GaveUp(who: nat, fate: Fate)
    | Resolved(who: nat, author: string, at: int, said: Decision, snap: Run)
    | Wrote(who: nat, lane: Lane, decision: Decision, error: Option<ErrorKind>, landed: bool)

  datatype World = World(run: Option<Run>, procs: seq<Proc>, log: seq<Event>)

  const INIT := World(None, [], [])

  /** The environment's answer to one call. */
  datatype Reply = Ok | Denied | Lost(kind: ErrorKind, landed: bool)

  datatype Action =
    | Materialize(created: Run)
    | Reclassify(intent: Intent, author: string)
    | Transition(gated: bool, openedAt: int)
    | Dispatch
    | Say(author: string, at: int, decision: Decision)
    | Crash(p: nat)
    | Advance(p: nat, reply: Reply)

  function FateOf(reply: Reply): Fate {
    match reply
    case Ok => Confirmed
    case Denied => NotLanded
    case Lost(_, landed) => if landed then LandedUnconfirmed else NotLanded
  }

  /** What the writer's caller sees of one request; a rejected contract is bug-shaped. */
  function WriteError(reply: Reply): Option<ErrorKind> {
    match reply
    case Ok => None
    case Denied => Some(BugShaped)
    case Lost(kind, _) => Some(kind)
  }

  predicate WriteLands(reply: Reply) {
    reply.Ok? || (reply.Lost? && reply.landed && MayHaveLanded(reply.kind))
  }

  // --- one apply dispatch ---

  datatype Effect = Effect(proc: Proc, run: Option<Run>, event: Option<Event>)

  /** handleDispatch returned an error: another attempt, or the notice that ends the last one. */
  function Retry(proc: Proc): Proc
    requires proc.Apply?
  {
    if proc.attempt < MAX_ATTEMPTS then proc.(attempt := proc.attempt + 1, pc := Fetch)
    else if proc.threadKnown then proc.(pc := Exhausted)
    else proc.(pc := Finished(Failed))
  }

  /** Guard 3 is skipped only for the very announcement already acknowledged. */
  function ToAnnounce(proc: Proc, snap: Run): Proc
    requires proc.Apply? && DecisionFor(snap.intent).Some?
  {
    proc.(pc := if proc.posted == Some(AnnouncementOf(snap)) then ReadGate(snap) else Announce(snap))
  }

  function WithThread(proc: Proc, snap: Run): Proc
    requires proc.Apply? && DecisionFor(snap.intent).Some?
  {
    if snap.author == "" then proc.(pc := Notify(snap))
    else if proc.authorized != snap.author then proc.(pc := Authorize(snap))
    else ToAnnounce(proc, snap)
  }

  /** Guard 1 and the reads that share its snapshot. */
  function OnSnapshot(proc: Proc, snap: Run): Proc
    requires proc.Apply?
  {
    if snap.decision.Some? || DecisionFor(snap.intent).None? || !snap.refParses then proc.(pc := Finished(Guarded))
    else if proc.threadKnown then WithThread(proc, snap)
    else proc.(pc := ResolveThread(snap))
  }

  function StandingDecision(run: Option<Run>): Option<Decision> {
    if run.Some? then run.value.decision else None
  }

  function Land(run: Option<Run>, d: Decision): Option<Run> {
    if run.Some? then Some(run.value.(decision := Some(d))) else None
  }

  predicate Directive(snap: Run) {
    DecisionFor(snap.intent).Some?
  }

  function StepFetch(run: Option<Run>, p: nat, proc: Proc, reply: Reply): Effect
    requires proc.Apply?
  {
    match reply
    case Ok =>
      if run.None? then Effect(Retry(proc), run, None)
      else Effect(OnSnapshot(proc, run.value), run, Some(Fetched(p, run.value)))
    case _ => Effect(Retry(proc), run, None)
  }

  function StepAuthorize(run: Option<Run>, p: nat, proc: Proc, snap: Run, reply: Reply): Effect
    requires proc.Apply? && Directive(snap)
  {
    match reply
    case Ok => Effect(ToAnnounce(proc.(authorized := snap.author), snap), run, Some(Authorized(p, snap.author)))
    case Denied => Effect(proc.(pc := Finished(Guarded)), run, None)
    case Lost(_, _) => Effect(Retry(proc), run, None)
  }

  function StepAnnounce(run: Option<Run>, p: nat, proc: Proc, snap: Run, reply: Reply): Effect
    requires proc.Apply? && Directive(snap)
  {
    var a := AnnouncementOf(snap);
    match reply
    case Ok => Effect(proc.(posted := Some(a), pc := ReadGate(snap)), run, Some(Announced(p, a, Confirmed)))
    case _ => Effect(Retry(proc), run, Some(Announced(p, a, FateOf(reply))))
  }

  function StepReadGate(run: Option<Run>, p: nat, proc: Proc, snap: Run, reply: Reply): Effect
    requires proc.Apply? && Directive(snap)
  {
    if !reply.Ok? then Effect(Retry(proc), run, None)
    else match StandingDecision(run)
      case None => Effect(proc.(pc := Write(snap, 1)), run, None)
      case Some(d) =>
        Effect(proc.(pc := if d == AnnouncementOf(snap).decision then Finished(Applied) else Correct(snap, d)), run,
               Some(Stood(p, d)))
  }

  function StepWrite(run: Option<Run>, p: nat, proc: Proc, snap: Run, request: nat, reply: Reply): Effect
    requires proc.Apply? && Directive(snap)
  {
    var d := AnnouncementOf(snap).decision;
    Effect(match reply
           case Ok => proc.(pc := Finished(Applied))
           case Lost(kind, _) =>
             if RetriesWrite(kind, request) then proc.(pc := Write(snap, request + 1)) else Retry(proc)
           case Denied => Retry(proc),
           if WriteLands(reply) then Land(run, d) else run,
           Some(Wrote(p, ClassifiedLane, d, WriteError(reply), WriteLands(reply))))
  }

  /** One external call of a dispatch, answered. */
  function StepApply(run: Option<Run>, p: nat, proc: Proc, reply: Reply): Effect
    requires proc.Apply?
  {
    match proc.pc
    case Fetch => StepFetch(run, p, proc, reply)
    case ResolveThread(snap) =>
      if reply.Ok? && Directive(snap) then Effect(WithThread(proc.(threadKnown := true), snap), run, None)
      else Effect(Retry(proc), run, None)
    case Notify(_) => Effect(if reply.Ok? then proc.(pc := Finished(Unattributed)) else Retry(proc), run, None)
    case Authorize(snap) =>
      if Directive(snap) then StepAuthorize(run, p, proc, snap, reply) else Effect(proc, run, None)
    case Announce(snap) => if Directive(snap) then StepAnnounce(run, p, proc, snap, reply) else Effect(proc, run, None)
    case ReadGate(snap) => if Directive(snap) then StepReadGate(run, p, proc, snap, reply) else Effect(proc, run, None)
    case Write(snap, request) =>
      if Directive(snap) then StepWrite(run, p, proc, snap, request, reply) else Effect(proc, run, None)
    case Correct(snap, stands) =>
      Effect(proc.(pc := Finished(Superseded)), run,
             if Directive(snap) then Some(Corrected(p, AnnouncementOf(snap).decision, stands, FateOf(reply))) else None)
    case Exhausted => Effect(proc.(pc := Finished(if reply.Ok? then OutOfAttempts else Failed)), run,
                             Some(GaveUp(p, FateOf(reply))))
    case Finished(_) => Effect(proc, run, None)
  }

  // --- one exact command ---

  /** freshForGate: written for the gate that is open, within the clock tolerance. */
  predicate Fresh(at: int, openedAt: int) {
    openedAt != 0 && at != 0 && at > openedAt - SKEW
  }

  function StepCommandWrite(run: Option<Run>, p: nat, proc: Proc, request: nat, reply: Reply): Effect
    requires proc.Command?
  {
    var retries := reply.Lost? && RetriesWrite(reply.kind, request);
    Effect(proc.(cpc := if retries then CommandWrite(request + 1) else CommandDone),
           if WriteLands(reply) then Land(run, proc.decision) else run,
           Some(Wrote(p, CommandLane, proc.decision, WriteError(reply), WriteLands(reply))))
  }

  function StepCommand(run: Option<Run>, p: nat, proc: Proc, reply: Reply): Effect
    requires proc.Command?
  {
    match proc.cpc
    case CommandAuthorize =>
      if reply.Ok? then Effect(proc.(cpc := CommandResolve), run, Some(Authorized(p, proc.author)))
      else Effect(proc.(cpc := CommandDone), run, None)
    case CommandResolve =>
      if !reply.Ok? || run.None? then Effect(proc.(cpc := CommandDone), run, None)
      else
        var open := run.value.gated && Fresh(proc.at, run.value.openedAt);
        Effect(proc.(cpc := if open then CommandRead else CommandDone), run,
               Some(Resolved(p, proc.author, proc.at, proc.decision, run.value)))
    case CommandRead =>
      if reply.Ok? && StandingDecision(run).None? then Effect(proc.(cpc := CommandWrite(1)), run, None)
      else Effect(proc.(cpc := CommandDone), run, None)
    case CommandWrite(request) => StepCommandWrite(run, p, proc, request, reply)
    case CommandDone => Effect(proc, run, None)
  }

  // --- the machine ---

  function StepProc(run: Option<Run>, p: nat, proc: Proc, reply: Reply): Effect {
    match proc
    case Apply(_, _, _, _, _) => StepApply(run, p, proc, reply)
    case Command(_, _, _, _) => StepCommand(run, p, proc, reply)
    case Crashed => Effect(proc, run, None)
  }

  function Logged(log: seq<Event>, e: Option<Event>): seq<Event> {
    if e.Some? then log + [e.value] else log
  }

  function Apply0(): Proc {
    Apply(1, None, false, "", Fetch)
  }

  /** Only stamps touch the decision; classification and lifecycle rules touch the rest. */
  function Do(w: World, a: Action): World {
    match a
    case Materialize(created) => if w.run.None? then w.(run := Some(created.(decision := None))) else w
    case Reclassify(intent, author) =>
      if w.run.Some? then w.(run := Some(w.run.value.(intent := intent, author := author))) else w
    case Transition(gated, openedAt) =>
      if w.run.Some? then w.(run := Some(w.run.value.(gated := gated, openedAt := openedAt))) else w
    case Dispatch => w.(procs := w.procs + [Apply0()])
    case Say(author, at, decision) => w.(procs := w.procs + [Command(author, at, decision, CommandAuthorize)])
    case Crash(p) => if p < |w.procs| then w.(procs := w.procs[p := Crashed]) else w
    case Advance(p, reply) =>
      if p < |w.procs| then
        var e := StepProc(w.run, p, w.procs[p], reply);
        World(e.run, w.procs[p := e.proc], Logged(w.log, e.event))
      else w
  }

  function Execute(w: World, actions: seq<Action>): World {
    Fold(Do, w, actions)
  }

  // --- reading the history ---

  /** The last snapshot this dispatch took. */
  function LastFetch(log: seq<Event>, p: nat): Option<Run> {
    if log == [] then None else
      var e := log[|log| - 1];
      if e.Fetched? && e.who == p then Some(e.snap) else LastFetch(log[..|log| - 1], p)
  }

  /** The last time this command resolved its run. */
  function LastResolved(log: seq<Event>, p: nat): (r: Option<Event>)
    ensures r.Some? ==> r.value.Resolved?
  {
    if log == [] then None else
      var e := log[|log| - 1];
      if e.Resolved? && e.who == p then Some(e) else LastResolved(log[..|log| - 1], p)
  }

  /** The last announcement whose post was acknowledged to this dispatch. */
  function LastAcked(log: seq<Event>, p: nat): Option<Announcement> {
    if log == [] then None else
      var e := log[|log| - 1];
      if e.Announced? && e.who == p && e.fate.Confirmed? then Some(e.announcement) else LastAcked(log[..|log| - 1], p)
  }

  /** The last announcement of this dispatch that a reader of the thread can see. */
  function LastLanded(log: seq<Event>, p: nat): Option<Announcement> {
    if log == [] then None else
      var e := log[|log| - 1];
      if e.Announced? && e.who == p && !e.fate.NotLanded? then Some(e.announcement) else LastLanded(log[..|log| - 1], p)
  }

  /** Since its last acknowledged announcement, a post of this dispatch landed that was
      reported as failed. */
  predicate Unconfirmed(log: seq<Event>, p: nat) {
    log != [] &&
    var e := log[|log| - 1];
    if e.Announced? && e.who == p && !e.fate.NotLanded? then e.fate.LandedUnconfirmed?
        else Unconfirmed(log[..|log| - 1], p)
  }

  predicate WasAuthorized(log: seq<Event>, p: nat, author: string) {
    Authorized(p, author) in log
  }
}
