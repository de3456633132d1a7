/**
 The client that consumes submission attempts, composed with the controller.

 Its shared state is the protocol gate behind a mutex, the installed authority
 behind a read/write lock, a refresh mutex and a serial submission mutex. Each
 client thread takes one step per lock, gate access, read of the installed pair
 or awaited answer; the answers of the network and of the order builder are
 inputs. Its `revalidate` and its POST are calls into the controller, whose own
 steps interleave with everything else.
 */
module ClientProtocol {
  import opened Authority
  import opened ControllerIdentity
  import opened ProtocolGate
  import Ctl = SubmissionProtocol
  import Errors = OperationErrors

  /** An attempt handed to this client: minted by its own controller, or by the controller
      of another reservation and for the given authority. */
  datatype Attempt = Own(cap: nat) | Foreign(reservation: nat, authority: ProtocolAuthority) | Absent

  /** The serial section serves order preparation and the two kinds of submission. */
  datatype Job = Prepare | SubmitBuilt(attempt: Attempt) | SubmitPrepared(attempt: Attempt)

  /** What a POST came back with. */
  type Answer = Result<Errors.PostResponse, Errors.SdkError>

  datatype Pc =
    | Out
      // prepare_* and submit_*
    | WantSerial(job: Job)
    | WantPermit(job: Job)
    | WantGuard(job: Job, permit: ProtocolAuthority)
    | ReadVersion(job: Job, permit: ProtocolAuthority)
    | MatchFirst(job: Job, permit: ProtocolAuthority, version: nat)
    | RevalidateFirst(job: Job, permit: ProtocolAuthority, called: bool)
    | Build(job: Job, permit: ProtocolAuthority)
    | ReadVersionAgain(job: Job, permit: ProtocolAuthority, order: nat)
    | MatchAgain(job: Job, permit: ProtocolAuthority, order: nat, version: nat)
    | RevalidateAgain(job: Job, permit: ProtocolAuthority, order: nat, called: bool)
    | Sign(job: Job, permit: ProtocolAuthority, order: nat)
    | MatchSigned(job: Job, permit: ProtocolAuthority, order: nat)
    | Posting(job: Job, permit: ProtocolAuthority, order: nat, called: bool)
    | Posted(job: Job, permit: ProtocolAuthority)
    | Marking(job: Job, permit: ProtocolAuthority)
    | AfterPost(job: Job, permit: ProtocolAuthority, revokes: bool)
    | Quarantining(job: Job, permit: ProtocolAuthority)
    | Leave(job: Job, guard: bool, serial: bool)
      // refresh_authenticated_capital_authority
    | WantRefresh
    | CloseGate
    | ReadInstalled
    | Rebuilding(generation: nat)
    | Installing(authority: ProtocolAuthority)
      // activate_authenticated_protocol_authority_if
    | WantActivation(expected: ProtocolAuthority)
    | WantActivationGuard(expected: ProtocolAuthority)
    | CompareInstalled(expected: ProtocolAuthority)
    | Observe(expected: ProtocolAuthority)
    | WantGate(expected: ProtocolAuthority)
    | Closure(expected: ProtocolAuthority)

  /** `reservation` is the one this client's controller was made by. */
  datatype Client = Client(
    reservation: nat,
    gate: Gate,
    gateHolder: Option<nat>,
    installed: Option<ProtocolAuthority>,
    readers: set<nat>,
    refreshing: Option<nat>,
    serial: Option<nat>,
    pcs: seq<Pc>)

  datatype System = System(ctl: Ctl.State, client: Client)

  /** What the environment answers at an awaited step. */
  datatype Observation = Observation(ok: bool, version: nat, identity: nat, answer: Answer)

  datatype Action =
    | Engine(step: Ctl.Action)
    | Drive(thread: nat, step: Ctl.Action)
    | Begin(thread: nat, entry: Pc)
    | Go(thread: nat, seen: Observation)
    | Abandon(thread: nat)
    | RevokeGate

  function Generation(a: Option<ProtocolAuthority>): nat {
    if a.Some? then a.value.generation else 0
  }

  function AttemptOf(job: Job): Attempt {
    match job
    case Prepare => Absent
    case SubmitBuilt(a) => a
    case SubmitPrepared(a) => a
  }

  function ClientBinding(c: Client): nat {
    BindingOf(c.reservation)
  }

  /** Another controller's attempt gets as far as its own controller's state only if its
      binding and authority are the ones this client expects; `ok` is what that says. */
  predicate ForeignPasses(c: Client, job: Job, p: ProtocolAuthority, ok: bool) {
    && AttemptOf(job).Foreign?
    && BindingOf(AttemptOf(job).reservation) == ClientBinding(c) && AttemptOf(job).authority == p
    && ok
  }

  /** The answer leaves acceptance unknowable. */
  predicate IsIndeterminate(answer: Answer) {
    Errors.ClassifyPost(answer) == Errors.Failed(Errors.PostSendIndeterminate)
  }

  /** The venue's definite answer revokes the protocol authority. */
  predicate RevokesAuthority(answer: Answer) {
    Errors.ClassifyPost(answer) == Errors.Failed(Errors.ProtocolAuthorityRevoked)
  }

  // ---- what a client point holds -------------------------------------------------------

  predicate HoldsSerial(pc: Pc) {
    match pc
    case Out | WantSerial(_) => false
    case WantRefresh | CloseGate | ReadInstalled | Rebuilding(_) | Installing(_) => false
    case WantActivation(_) | WantActivationGuard(_) | CompareInstalled(_) => false
    case Observe(_) | WantGate(_) | Closure(_) => false
    case Leave(_, _, serial) => serial
    case _ => true
  }

  predicate HoldsGuard(pc: Pc) {
    match pc
    case Out | WantSerial(_) | WantPermit(_) | WantGuard(_, _) => false
    case WantRefresh | CloseGate | ReadInstalled | Rebuilding(_) | Installing(_) => false
    case WantActivation(_) | WantActivationGuard(_) => false
    case Leave(_, guard, _) => guard
    case _ => true
  }

  predicate HoldsRefresh(pc: Pc) {
    match pc
    case CloseGate | ReadInstalled | Rebuilding(_) | Installing(_) => true
    case WantActivationGuard(_) | CompareInstalled(_) | Observe(_) | WantGate(_) | Closure(_) => true
    case _ => false
  }

  predicate HoldsGate(pc: Pc) {
    pc.Closure?
  }

  /** A dropped future lets go of what it holds at these points. */
  predicate Awaits(pc: Pc) {
    match pc
    case WantSerial(_) | WantGuard(_, _) | ReadVersion(_, _) | Build(_, _) => true
    case ReadVersionAgain(_, _, _) | Sign(_, _, _) | Posted(_, _) | AfterPost(_, _, _) => true
    case Posting(_, _, _, called) => !called
    case WantRefresh | ReadInstalled | Rebuilding(_) | Installing(_) => true
    case WantActivation(_) | WantActivationGuard(_) | Observe(_) => true
    case _ => false
  }

  // ---- client steps ----------------------------------------------------------------------

  function At(c: Client, t: nat, pc: Pc): (c': Client)
    requires t < |c.pcs|
    ensures |c'.pcs| == |c.pcs|
  {
    c.(pcs := c.pcs[t := pc])
  }

  predicate InSubmission(pc: Pc) {
    !pc.Out? && (HoldsSerial(pc) || pc.WantSerial? || pc.Leave?)
  }

  predicate CanEnterSection(c: Client, t: nat) {
    && t < |c.pcs|
    && match c.pcs[t]
       case WantSerial(_) => c.serial.None?
       case WantPermit(_) => c.gateHolder.None?
       case WantGuard(_, _) => true
       case ReadVersion(_, _) => true
       case MatchFirst(_, _, _) => c.gateHolder.None?
       case _ => false
  }

  /** From queueing for the serial mutex to the first match of permit and pair. */
  function EnterSection(c: Client, t: nat, seen: Observation): (c': Client)
    requires CanEnterSection(c, t)
    ensures |c'.pcs| == |c.pcs|
  {
    match c.pcs[t]
    case WantSerial(job) => c.(pcs := c.pcs[t := WantPermit(job)], serial := Some(t))
    case WantPermit(job) =>
      At(c, t, if Permit(c.gate).Some? then WantGuard(job, Permit(c.gate).value)
         else Leave(job, false, true))
    case WantGuard(job, p) => c.(pcs := c.pcs[t := ReadVersion(job, p)], readers := c.readers + {t})
    case ReadVersion(job, p) =>
      At(c, t, if c.installed.None? || !seen.ok then Leave(job, true, true)
         else MatchFirst(job, p, seen.version))
    case MatchFirst(job, p, v) =>
      At(c, t, if c.installed != Some(p) || v != p.version || !Matches(c.gate, p) then Quarantining(job, p)
         else if job.Prepare? then Build(job, p)
         else RevalidateFirst(job, p, false))
  }

  predicate CanReachPost(c: Client, t: nat) {
    && t < |c.pcs|
    && match c.pcs[t]
       case Build(_, _) => true
       case ReadVersionAgain(_, _, _) => true
       case MatchAgain(_, _, _, _) => c.gateHolder.None?
       case Sign(_, _, _) => true
       case MatchSigned(_, _, _) => c.gateHolder.None?
       case _ => false
  }

  /** Building, matching again, signing and the match before the POST. */
  function ReachPost(c: Client, t: nat, seen: Observation): (c': Client)
    requires CanReachPost(c, t)
    ensures |c'.pcs| == |c.pcs|
  {
    match c.pcs[t]
    case Build(job, p) =>
      At(c, t, if !seen.ok then Leave(job, true, true)
         else if job.Prepare? then Sign(job, p, seen.version)
         else ReadVersionAgain(job, p, seen.version))
    case ReadVersionAgain(job, p, o) =>
      At(c, t, if c.installed.None? || !seen.ok then Leave(job, true, true) else MatchAgain(job, p, o, seen.version))
    case MatchAgain(job, p, o, v) =>
      At(c, t, if c.installed != Some(p) || o != v || v != p.version || !Matches(c.gate, p)
         then Quarantining(job, p) else RevalidateAgain(job, p, o, false))
    case Sign(job, p, o) =>
      At(c, t, if !seen.ok then Leave(job, true, true) else MatchSigned(job, p, o))
    case MatchSigned(job, p, o) =>
      At(c, t, if !Matches(c.gate, p) then Quarantining(job, p)
         else if job.Prepare? then Leave(job, true, true)
         else Posting(job, p, o, false))
  }

  predicate CanCallController(c: Client, t: nat, ctl: Ctl.Pc) {
    && t < |c.pcs|
    && match c.pcs[t]
       case RevalidateFirst(_, _, called) => !called || ctl.Idle? || ctl.Confirmed?
       case RevalidateAgain(_, _, _, called) => !called || ctl.Idle? || ctl.Confirmed?
       case Posting(_, _, _, called) => !called || ctl.Idle?
       case Posted(_, _) => ctl.Idle?
       case _ => false
  }

  /** Calls into the controller and their results; `ctl` is where this thread's call is. */
  function CallController(c: Client, t: nat, seen: Observation, ctl: Ctl.Pc): (c': Client)
    requires CanCallController(c, t, ctl)
    ensures |c'.pcs| == |c.pcs|
  {
    match c.pcs[t]
    case RevalidateFirst(job, p, called) =>
      At(c, t, if !called && AttemptOf(job).Own? then RevalidateFirst(job, p, true)
         else if (called && ctl.Idle?) || (!called && !ForeignPasses(c, job, p, seen.ok)) then Quarantining(job, p)
         else if job.SubmitPrepared? then ReadVersionAgain(job, p, seen.version)
         else Build(job, p))
    case RevalidateAgain(job, p, o, called) =>
      At(c, t, if !called && AttemptOf(job).Own? then RevalidateAgain(job, p, o, true)
         else if (called && ctl.Idle?) || (!called && !ForeignPasses(c, job, p, seen.ok)) then Quarantining(job, p)
         else if job.SubmitPrepared? then Posting(job, p, o, false)
         else Sign(job, p, o))
    case Posting(job, p, o, called) =>
      At(c, t, if !called && AttemptOf(job).Own? then Posting(job, p, o, true)
         else if !called && ForeignPasses(c, job, p, seen.ok) then Posted(job, p)
         else Quarantining(job, p))
    case Posted(job, p) =>
      At(c, t, if IsIndeterminate(seen.answer) then Marking(job, p)
         else AfterPost(job, p, RevokesAuthority(seen.answer)))
  }

  predicate CanExitSection(c: Client, t: nat) {
    && t < |c.pcs|
    && match c.pcs[t]
       case Marking(_, _) => c.gateHolder.None?
       case AfterPost(_, _, _) => c.gateHolder.None?
       case Quarantining(_, _) => c.gateHolder.None?
       case Leave(_, _, _) => true
       case _ => false
  }

  /** Classifying the answer, quarantining, and dropping the guards in order. */
  function ExitSection(c: Client, t: nat, seen: Observation): (c': Client)
    requires CanExitSection(c, t)
    ensures |c'.pcs| == |c.pcs|
  {
    match c.pcs[t]
    case Marking(job, p) =>
      c.(pcs := c.pcs[t := Leave(job, true, true)], gate := MarkIndeterminate(c.gate, p))
    case AfterPost(job, p, revokes) =>
      At(c, t, if revokes || !seen.ok || seen.version != p.version || !Matches(c.gate, p)
         then Quarantining(job, p) else Leave(job, true, true))
    case Quarantining(job, p) =>
      c.(pcs := c.pcs[t := Leave(job, true, true)], gate := Quarantine(c.gate, p))
    case Leave(job, guard, serial) =>
      if guard then c.(pcs := c.pcs[t := Leave(job, false, serial)], readers := c.readers - {t})
      else if serial then c.(pcs := c.pcs[t := Leave(job, false, false)], serial := None)
      else At(c, t, Out)
  }

  predicate CanRefresh(c: Client, t: nat) {
    && t < |c.pcs|
    && match c.pcs[t]
       case WantRefresh => c.refreshing.None?
       case CloseGate => c.gateHolder.None?
       case ReadInstalled => true
       case Rebuilding(_) => true
       case Installing(_) => c.readers == {}
       case _ => false
  }

  function RefreshStep(c: Client, t: nat, seen: Observation): (c': Client)
    requires CanRefresh(c, t)
    ensures |c'.pcs| == |c.pcs|
  {
    match c.pcs[t]
    case WantRefresh => c.(pcs := c.pcs[t := CloseGate], refreshing := Some(t))
    case CloseGate => c.(pcs := c.pcs[t := ReadInstalled], gate := Close(c.gate))
    case ReadInstalled =>
      if Generation(c.installed) < U64_MAX then At(c, t, Rebuilding(Generation(c.installed) + 1))
      else c.(pcs := c.pcs[t := Out], refreshing := None)
    case Rebuilding(g) =>
      if seen.ok then At(c, t, Installing(ProtocolAuthority(seen.version, g, seen.identity)))
      else c.(pcs := c.pcs[t := Out], refreshing := None)
    case Installing(a) => c.(pcs := c.pcs[t := Out], refreshing := None, installed := Some(a))
  }

  predicate CanActivateStep(c: Client, t: nat) {
    && t < |c.pcs|
    && match c.pcs[t]
       case WantActivation(_) => c.refreshing.None?
       case WantActivationGuard(_) => true
       case CompareInstalled(_) => true
       case Observe(_) => true
       case WantGate(_) => c.gateHolder.None?
       case Closure(_) => true
       case _ => false
  }

  /** `seen.ok` at the closure is the caller's `activate()` answering true. */
  function ActivationStep(c: Client, t: nat, seen: Observation): (c': Client)
    requires CanActivateStep(c, t)
    ensures |c'.pcs| == |c.pcs|
  {
    match c.pcs[t]
    case WantActivation(e) => c.(pcs := c.pcs[t := WantActivationGuard(e)], refreshing := Some(t))
    case WantActivationGuard(e) =>
      c.(pcs := c.pcs[t := CompareInstalled(e)], readers := c.readers + {t})
    case CompareInstalled(e) =>
      if c.installed == Some(e) then At(c, t, Observe(e)) else Finished(c, t)
    case Observe(e) =>
      if seen.ok && seen.version == e.version then At(c, t, WantGate(e)) else Finished(c, t)
    case WantGate(e) =>
      if CanActivate(c.gate, e) then c.(pcs := c.pcs[t := Closure(e)], gateHolder := Some(t))
      else Finished(c, t)
    case Closure(e) =>
      c.(pcs := c.pcs[t := Out], refreshing := None, readers := c.readers - {t}, gateHolder := None,
      gate := if seen.ok then Activate(c.gate, e) else c.gate)
  }

  /** An activation returning early drops its guard and the refresh mutex. */
  function Finished(c: Client, t: nat): (c': Client)
    requires t < |c.pcs|
    ensures |c'.pcs| == |c.pcs|
  {
    c.(pcs := c.pcs[t := Out], refreshing := None, readers := c.readers - {t})
  }

  predicate CanGo(c: Client, t: nat, ctl: Ctl.Pc) {
    || CanEnterSection(c, t) || CanReachPost(c, t) || CanCallController(c, t, ctl)
    || CanExitSection(c, t) || CanRefresh(c, t) || CanActivateStep(c, t)
  }

  function ClientStep(c: Client, t: nat, seen: Observation, ctl: Ctl.Pc): (c': Client)
    requires CanGo(c, t, ctl)
    ensures |c'.pcs| == |c.pcs|
  {
    if CanEnterSection(c, t) then EnterSection(c, t, seen)
    else if CanReachPost(c, t) then ReachPost(c, t, seen)
    else if CanCallController(c, t, ctl) then CallController(c, t, seen, ctl)
    else if CanExitSection(c, t) then ExitSection(c, t, seen)
    else if CanRefresh(c, t) then RefreshStep(c, t, seen)
    else ActivationStep(c, t, seen)
  }

  /** A future dropped at an await. A submission still drops its guards one by one. */
  function AbandonStep(c: Client, t: nat): (c': Client)
    requires t < |c.pcs| && Awaits(c.pcs[t])
    ensures |c'.pcs| == |c.pcs|
  {
    var pc := c.pcs[t];
    if InSubmission(pc) then At(c, t, Leave(pc.job, HoldsGuard(pc), HoldsSerial(pc)))
    else c.(pcs := c.pcs[t := Out], readers := c.readers - {t},
         refreshing := if c.refreshing == Some(t) then None else c.refreshing)
  }

  // ---- the controller's side of a client step ---------------------------------------------

  /** What a client step does to the controller: begin a call, collect its result, or
      drop the attempt it owned. */
  function Effect(pc: Pc, t: nat, binding: nat, ctl: Ctl.Pc): Option<Ctl.Action> {
    match pc
    case RevalidateFirst(job, p, called) => RevalidateEffect(job, p, called, t, binding, ctl)
    case RevalidateAgain(job, p, _, called) => RevalidateEffect(job, p, called, t, binding, ctl)
    case Posting(job, p, _, called) =>
      if !called && AttemptOf(job).Own?
      then Some(Ctl.Start(t, Ctl.Post(AttemptOf(job).cap, binding, p))) else None
    case Leave(job, guard, serial) =>
      if !guard && !serial && AttemptOf(job).Own? then Some(Ctl.DropCapability(AttemptOf(job).cap)) else None
    case _ => None
  }

  function RevalidateEffect(job: Job, p: ProtocolAuthority, called: bool, t: nat, binding: nat, ctl: Ctl.Pc):
    Option<Ctl.Action>
  {
    if !called && AttemptOf(job).Own? then Some(Ctl.Start(t, Ctl.Revalidate(AttemptOf(job).cap, binding, p)))
    else if called && ctl.Confirmed? then Some(Ctl.Return(t))
    else None
  }

  predicate CtlAllows(s: Ctl.State, effect: Option<Ctl.Action>) {
    effect.Some? ==> Ctl.Enabled(s, effect.value)
  }

  function CtlAfter(s: Ctl.State, effect: Option<Ctl.Action>): Ctl.State
    requires CtlAllows(s, effect)
  {
    if effect.Some? then Ctl.Apply(s, effect.value) else s
  }

  /** The controller step belongs to a thread outside the client: the client alone
      revalidates and posts, and a capability inside a submission cannot be dropped. */
  predicate EngineMay(s: System, step: Ctl.Action) {
    match step
    case DropCapability(c) => forall t :: 0 <= t < |s.client.pcs| ==> !Owns(s.client.pcs[t], c)
    case Start(t, op) => t < |s.client.pcs| && s.client.pcs[t].Out? && !op.Post? && !op.Revalidate?
    case _ => step.thread < |s.client.pcs| && s.client.pcs[step.thread].Out?
  }

  predicate Owns(pc: Pc, c: nat) {
    InSubmission(pc) && AttemptOf(pc.job) == Own(c)
  }

  /** The controller step carries on a call this client thread has made. */
  predicate ClientMayDrive(s: System, t: nat, step: Ctl.Action) {
    && t < |s.client.pcs|
    && (step == Ctl.Advance(t) || step == Ctl.UpgradeFails(t)
        || (step.FirstPollReturns? && step.thread == t) || (step.LaterPoll? && step.thread == t))
    && match s.client.pcs[t]
       case RevalidateFirst(_, _, called) => called
       case RevalidateAgain(_, _, _, called) => called
       case Posting(_, _, _, called) => called
       case Posted(_, _) => true
       case _ => false
  }

  predicate CanBegin(s: System, t: nat, entry: Pc) {
    && t < |s.client.pcs| && t < |s.ctl.pcs| && s.client.pcs[t].Out? && s.ctl.pcs[t].Idle?
    && match entry
       case WantSerial(job) =>
         (match job
          case Prepare => true
          case _ =>
            match AttemptOf(job)
            case Own(c) =>
              c in s.ctl.caps && forall u :: 0 <= u < |s.client.pcs| ==> !Owns(s.client.pcs[u], c)
            case Foreign(r, _) => r != s.client.reservation && Identity(r).Some?
            case Absent => false)
       case WantRefresh => true
       case WantActivation(_) => true
       case _ => false
  }

  predicate Enabled(s: System, action: Action) {
    match action
    case Engine(step) => Ctl.Enabled(s.ctl, step) && EngineMay(s, step)
    case Drive(t, step) => Ctl.Enabled(s.ctl, step) && ClientMayDrive(s, t, step)
    case Begin(t, entry) => CanBegin(s, t, entry)
    case Go(t, _) =>
      t < |s.client.pcs| && t < |s.ctl.pcs| && CanGo(s.client, t, s.ctl.pcs[t])
      && CtlAllows(s.ctl, Effect(s.client.pcs[t], t, ClientBinding(s.client), s.ctl.pcs[t]))
    case Abandon(t) =>
      t < |s.client.pcs| && t < |s.ctl.pcs| && Awaits(s.client.pcs[t])
      && (s.ctl.pcs[t].Idle? || s.ctl.pcs[t].InFlight?)
    case RevokeGate => s.client.gateHolder.None?
  }

  /** The first poll moves the client thread on from Posting. */
  function AfterDrive(c: Client, t: nat, first: bool): (c': Client)
    requires t < |c.pcs|
    ensures |c'.pcs| == |c.pcs|
  {
    if first && c.pcs[t].Posting? then At(c, t, Posted(c.pcs[t].job, c.pcs[t].permit)) else c
  }

  function Apply(s: System, action: Action): (s': System)
    requires Enabled(s, action)
    ensures |s'.client.pcs| == |s.client.pcs|
  {
    match action
    case Engine(step) => s.(ctl := Ctl.Apply(s.ctl, step))
    case Drive(t, step) =>
      System(Ctl.Apply(s.ctl, step), AfterDrive(s.client, t, Ctl.FirstPoll(s.ctl, step)))
    case Begin(t, entry) => s.(client := At(s.client, t, entry))
    case Go(t, seen) =>
      System(CtlAfter(s.ctl, Effect(s.client.pcs[t], t, ClientBinding(s.client), s.ctl.pcs[t])),
             ClientStep(s.client, t, seen, s.ctl.pcs[t]))
    case Abandon(t) =>
      System(if s.ctl.pcs[t].InFlight? then Ctl.Apply(s.ctl, Ctl.Cancel(t)) else s.ctl,
             AbandonStep(s.client, t))
    case RevokeGate => s.(client := s.client.(gate := Close(s.client.gate)))
  }

  predicate Initial(s: System) {
    && Ctl.Initial(s.ctl) && Identity(s.client.reservation) == Some(s.ctl.binding) && |s.ctl.pcs| == |s.client.pcs|
    && s.client.gate == INITIAL_GATE && s.client.gateHolder.None? && s.client.installed.None?
    && s.client.readers == {} && s.client.refreshing.None? && s.client.serial.None?
    && forall t :: 0 <= t < |s.client.pcs| ==> s.client.pcs[t] == Out
  }

  ghost predicate StepAt(states: seq<System>, actions: seq<Action>, i: nat)
    requires i < |actions| < |states|
  {
    Enabled(states[i], actions[i]) && states[i + 1] == Apply(states[i], actions[i])
  }

  ghost predicate IsRun(states: seq<System>, actions: seq<Action>) {
    && |states| == |actions| + 1
    && Initial(states[0])
    && forall i :: 0 <= i < |actions| ==> StepAt(states, actions, i)
  }

  // ---- the events the theorems speak of ------------------------------------------------------

  predicate FirstPost(s: System, action: Action) {
    match action
    case Engine(step) => Ctl.FirstPoll(s.ctl, step)
    case Drive(_, step) => Ctl.FirstPoll(s.ctl, step)
    case Go(t, seen) => t < |s.client.pcs| && PostsForeign(s.client, s.client.pcs[t], seen.ok)
    case _ => false
  }

  /** Another controller's attempt begins its transport from here. */
  predicate PostsForeign(c: Client, pc: Pc, ok: bool) {
    pc.Posting? && !pc.called && ForeignPasses(c, pc.job, pc.permit, ok)
  }

  predicate AtPc(s: System, action: Action) {
    action.Go? && action.thread < |s.client.pcs|
  }

  /** A submission marks its generation indeterminate. */
  predicate Marks(s: System, action: Action) {
    AtPc(s, action) && s.client.pcs[action.thread].Marking?
  }

  /** A submission's POST comes back with an answer that leaves acceptance unknowable. */
  predicate ComesBackUnknown(s: System, action: Action) {
    AtPc(s, action) && s.client.pcs[action.thread].Posted? && IsIndeterminate(action.seen.answer)
  }

  /** A refresh installs a new pair. */
  predicate Installs(s: System, action: Action) {
    AtPc(s, action) && s.client.pcs[action.thread].Installing?
  }

  /** An activation publishes `a` as active. */
  predicate Opens(s: System, action: Action, a: ProtocolAuthority) {
    AtPc(s, action) && s.client.pcs[action.thread] == Closure(a) && action.seen.ok
  }
}
