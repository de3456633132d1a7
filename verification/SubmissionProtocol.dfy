/**
 The live-submission authority protocol as a transition system.

 Any fixed number of threads share one controller: a revocation epoch, a sticky
 poison flag, the mutex-guarded active grant, and a read/write fence whose read
 guards travel with minted capabilities. A thread takes one step per lock,
 atomic load, atomic store or guarded write, so every interleaving of those is
 a run. `Pc` names the point a thread has reached in the call it is executing.
 */
module SubmissionProtocol {
  import opened Authority

  /** The authority activated for one revocation epoch. */
  datatype Grant = Grant(epoch: nat, authority: ProtocolAuthority)

  /** A minted attempt: the controller it is bound to and the grant it copied. */
  datatype Capability = Capability(binding: nat, grant: Grant)

  /** Who holds a read guard of the fence: a call in progress or a live capability. */
  datatype Reader = Call(thread: nat) | Attempt(cap: nat)

  /** The four callers of the guarded section that first tests for poison. */
  datatype Caller =
    | Authorizer(expected: ProtocolAuthority, authorized: bool)
    | Activator(epoch: nat, authority: ProtocolAuthority)
    | Poster(cap: nat)
    | Revalidator(cap: nat)

  datatype Pc =
    | Idle
      // request_revocation; `fenced` when authorize_if is revoking for itself
    | RevokeLock(fenced: bool)
    | RevokeNote(fenced: bool)
    | RevokeBump(fenced: bool)
    | RevokePoison(fenced: bool)
    | RevokeClear(fenced: bool)
      // authorize_if
    | AuthorizePredicate(expected: ProtocolAuthority)
    | UnwindStore
    | UnwindLock
    | UnwindClear
    | AuthorizeEpoch(expected: ProtocolAuthority, authorized: bool)
    | AuthorizeDecide(expected: ProtocolAuthority, authorized: bool, epoch: nat)
    | AuthorizeMint(grant: Grant)
    | AuthorizeNone
      // lock_active
    | LockWant(caller: Caller)
    | LockTest(caller: Caller)
    | LockStore(caller: Caller)
      // the exclusive lease and its activate
    | Leased
    | ActivatePoison(epoch: nat, authority: ProtocolAuthority)
    | ActivateEpoch(epoch: nat, authority: ProtocolAuthority)
    | ActivateRetest(epoch: nat, authority: ProtocolAuthority)
    | ActivateRecheck(epoch: nat, authority: ProtocolAuthority)
    | ActivateWrite(epoch: nat, authority: ProtocolAuthority)
      // revalidate and the transport polls
    | Compare(caller: Caller, binding: nat, authority: ProtocolAuthority)
    | CheckPoison(caller: Caller)
    | CheckGrant(caller: Caller)
    | Confirmed(cap: nat)
    | Validated(cap: nat)
    | Polling(cap: nat)
    | PollClear(cap: nat)
    | PollStore(cap: nat)
    | InFlight(cap: nat)

  /** `activated` and `overflowed` are history: which authority each epoch was
      opened for, and whether a revocation ever found the counter exhausted. */
  datatype State = State(
    binding: nat,
    epoch: nat,
    poisoned: bool,
    mutexPoisoned: bool,
    active: Option<Grant>,
    holder: Option<nat>,
    readers: set<Reader>,
    writer: Option<nat>,
    caps: map<nat, Capability>,
    nextCap: nat,
    pcs: seq<Pc>,
    activated: map<nat, ProtocolAuthority>,
    overflowed: bool)

  datatype Operation =
    | Revoke
    | Authorize(expected: ProtocolAuthority)
    | AcquireExclusive
    | Activate(epoch: nat, authority: ProtocolAuthority)
    | DropLease
    | Post(cap: nat, binding: nat, authority: ProtocolAuthority)
    | Revalidate(cap: nat, binding: nat, authority: ProtocolAuthority)

  datatype PredicateOutcome = Approves | Refuses | Unwinds
  datatype PollOutcome = Ready | Pending | Panicked

  datatype Action =
    | Start(thread: nat, operation: Operation)
    | Advance(thread: nat)
    | Decide(thread: nat, verdict: PredicateOutcome)
    | UpgradeFails(thread: nat)
    | FirstPollReturns(thread: nat, poll: PollOutcome)
    | LaterPoll(thread: nat, done: bool)
    | Cancel(thread: nat)
    | Return(thread: nat)
    | DropCapability(dropped: nat)
    | HolderPanics(thread: nat)

  // ---- what a program point holds ------------------------------------------

  predicate Critical(pc: Pc) {
    match pc
    case RevokeNote(_) | RevokeBump(_) | RevokePoison(_) | RevokeClear(_) => true
    case UnwindClear | AuthorizeEpoch(_, _) | AuthorizeDecide(_, _, _) => true
    case LockTest(_) | LockStore(_) => true
    case ActivateRetest(_, _) | ActivateRecheck(_, _) | ActivateWrite(_, _) => true
    case CheckPoison(_) | CheckGrant(_) => true
    case Validated(_) | Polling(_) | PollClear(_) | PollStore(_) => true
    case _ => false
  }

  predicate ReadFenced(pc: Pc) {
    match pc
    case RevokeLock(f) => f
    case RevokeNote(f) => f
    case RevokeBump(f) => f
    case RevokePoison(f) => f
    case RevokeClear(f) => f
    case AuthorizePredicate(_) | UnwindStore | UnwindLock | UnwindClear => true
    case AuthorizeEpoch(_, _) | AuthorizeDecide(_, _, _) | AuthorizeMint(_) | AuthorizeNone => true
    case LockWant(k) => k.Authorizer?
    case LockTest(k) => k.Authorizer?
    case LockStore(k) => k.Authorizer?
    case _ => false
  }

  predicate WriteFenced(pc: Pc) {
    match pc
    case Leased | ActivatePoison(_, _) | ActivateEpoch(_, _) => true
    case ActivateRetest(_, _) | ActivateRecheck(_, _) | ActivateWrite(_, _) => true
    case LockWant(k) => k.Activator?
    case LockTest(k) => k.Activator?
    case LockStore(k) => k.Activator?
    case _ => false
  }

  function CallerCap(k: Caller): Option<nat> {
    match k
    case Poster(c) => Some(c)
    case Revalidator(c) => Some(c)
    case _ => None
  }

  /** The capability a program point borrows. */
  function Borrowed(pc: Pc): Option<nat> {
    match pc
    case LockWant(k) => CallerCap(k)
    case LockTest(k) => CallerCap(k)
    case LockStore(k) => CallerCap(k)
    case Compare(k, _, _) => CallerCap(k)
    case CheckPoison(k) => CallerCap(k)
    case CheckGrant(k) => CallerCap(k)
    case Confirmed(c) => Some(c)
    case Validated(c) => Some(c)
    case Polling(c) => Some(c)
    case PollClear(c) => Some(c)
    case PollStore(c) => Some(c)
    case InFlight(c) => Some(c)
    case _ => None
  }

  /** A begun transport that has not finished. */
  predicate Underway(pc: Pc) {
    pc.Polling? || pc.InFlight?
  }

  // ---- steps ----------------------------------------------------------------

  function Moved(s: State, t: nat, pc: Pc): (s': State)
    requires t < |s.pcs|
    ensures |s'.pcs| == |s.pcs|
  {
    s.(pcs := s.pcs[t := pc])
  }

  /** Where a caller goes when the guarded section refuses to open. */
  function Refused(k: Caller): Pc {
    match k
    case Authorizer(_, _) => AuthorizeNone
    case Activator(_, _) => Leased
    case Poster(_) => Idle
    case Revalidator(_) => Idle
  }

  function Opened(k: Caller): Pc {
    match k
    case Authorizer(a, ok) => AuthorizeEpoch(a, ok)
    case Activator(e, a) => ActivateRetest(e, a)
    case Poster(_) => CheckPoison(k)
    case Revalidator(_) => CheckPoison(k)
  }

  predicate CanStart(s: State, t: nat, op: Operation) {
    && t < |s.pcs|
    && match op
       case Revoke => s.pcs[t] == Idle
       case Authorize(_) => s.pcs[t] == Idle && s.writer.None?
       case AcquireExclusive => s.pcs[t] == Idle && s.writer.None? && s.readers == {}
       case Activate(_, _) => s.pcs[t] == Leased
       case DropLease => s.pcs[t] == Leased
       case Post(c, _, _) => s.pcs[t] == Idle && c in s.caps
       case Revalidate(c, _, _) => s.pcs[t] == Idle && c in s.caps
  }

  function StartStep(s: State, t: nat, op: Operation): (s': State)
    requires CanStart(s, t, op)
    ensures |s'.pcs| == |s.pcs|
  {
    match op
    case Revoke => Moved(s, t, RevokeLock(false))
    case Authorize(a) => s.(pcs := s.pcs[t := AuthorizePredicate(a)], readers := s.readers + {Call(t)})
    case AcquireExclusive => s.(pcs := s.pcs[t := Leased], writer := Some(t))
    case Activate(e, a) => Moved(s, t, ActivatePoison(e, a))
    case DropLease => s.(pcs := s.pcs[t := Idle], writer := None)
    case Post(c, b, a) => Moved(s, t, Compare(Poster(c), b, a))
    case Revalidate(c, b, a) => Moved(s, t, Compare(Revalidator(c), b, a))
  }

  predicate AtRevoke(pc: Pc) {
    pc.RevokeLock? || pc.RevokeNote? || pc.RevokeBump? || pc.RevokePoison? || pc.RevokeClear?
  }

  function RevokeStep(s: State, t: nat): (s': State)
    requires t < |s.pcs| && AtRevoke(s.pcs[t])
    requires s.pcs[t].RevokeLock? ==> s.holder.None?
    ensures |s'.pcs| == |s.pcs|
  {
    match s.pcs[t]
    case RevokeLock(f) =>
      s.(pcs := s.pcs[t := if s.mutexPoisoned then RevokeNote(f) else RevokeBump(f)], holder := Some(t))
    case RevokeNote(f) => s.(pcs := s.pcs[t := RevokeBump(f)], poisoned := true)
    case RevokeBump(f) =>
      if s.epoch < U64_MAX then s.(pcs := s.pcs[t := RevokeClear(f)], epoch := s.epoch + 1)
      else s.(pcs := s.pcs[t := RevokePoison(f)], overflowed := true)
    case RevokePoison(f) => s.(pcs := s.pcs[t := RevokeClear(f)], poisoned := true)
    case RevokeClear(f) =>
      s.(pcs := s.pcs[t := if f then AuthorizeNone else Idle], active := None, holder := None)
  }

  predicate AtAuthorize(pc: Pc) {
    || pc.UnwindStore? || pc.UnwindLock? || pc.UnwindClear?
    || pc.AuthorizeEpoch? || pc.AuthorizeDecide? || pc.AuthorizeMint?
  }

  function AuthorizeStep(s: State, t: nat): (s': State)
    requires t < |s.pcs| && AtAuthorize(s.pcs[t])
    requires s.pcs[t].UnwindLock? ==> s.holder.None?
    ensures |s'.pcs| == |s.pcs|
  {
    match s.pcs[t]
    case UnwindStore => s.(pcs := s.pcs[t := UnwindLock], poisoned := true)
    case UnwindLock => s.(pcs := s.pcs[t := UnwindClear], holder := Some(t))
    case UnwindClear => s.(pcs := s.pcs[t := AuthorizeNone], active := None, holder := None)
    case AuthorizeEpoch(a, ok) => Moved(s, t, AuthorizeDecide(a, ok, s.epoch))
    case AuthorizeDecide(a, ok, e) =>
      if !ok || s.poisoned || s.active != Some(Grant(e, a))
      then s.(pcs := s.pcs[t := RevokeLock(true)], holder := None)
      else s.(pcs := s.pcs[t := AuthorizeMint(Grant(e, a))], holder := None)
    case AuthorizeMint(g) =>
      s.(pcs := s.pcs[t := Idle], caps := s.caps[s.nextCap := Capability(s.binding, g)],
      readers := (s.readers - {Call(t)}) + {Attempt(s.nextCap)},
      nextCap := s.nextCap + 1)
  }

  predicate AtLock(pc: Pc) {
    pc.LockWant? || pc.LockTest? || pc.LockStore?
  }

  function LockStep(s: State, t: nat): (s': State)
    requires t < |s.pcs| && AtLock(s.pcs[t])
    requires s.pcs[t].LockWant? ==> s.holder.None?
    ensures |s'.pcs| == |s.pcs|
  {
    match s.pcs[t]
    case LockWant(k) => s.(pcs := s.pcs[t := LockTest(k)], holder := Some(t))
    case LockTest(k) =>
      if s.mutexPoisoned then s.(pcs := s.pcs[t := LockStore(k)], active := None)
      else if s.poisoned then s.(pcs := s.pcs[t := Refused(k)], active := None, holder := None)
      else Moved(s, t, Opened(k))
    case LockStore(k) => s.(pcs := s.pcs[t := Refused(k)], poisoned := true, holder := None)
  }

  predicate AtActivate(pc: Pc) {
    || pc.ActivatePoison? || pc.ActivateEpoch?
    || pc.ActivateRetest? || pc.ActivateRecheck? || pc.ActivateWrite?
  }

  function ActivateStep(s: State, t: nat): (s': State)
    requires t < |s.pcs| && AtActivate(s.pcs[t])
    ensures |s'.pcs| == |s.pcs|
  {
    match s.pcs[t]
    case ActivatePoison(e, a) => Moved(s, t, if s.poisoned then Leased else ActivateEpoch(e, a))
    case ActivateEpoch(e, a) =>
      Moved(s, t, if s.epoch != e then Leased else LockWant(Activator(e, a)))
    case ActivateRetest(e, a) =>
      if s.poisoned || s.active.Some? then s.(pcs := s.pcs[t := Leased], holder := None)
      else Moved(s, t, ActivateRecheck(e, a))
    case ActivateRecheck(e, a) =>
      if s.epoch != e then s.(pcs := s.pcs[t := Leased], holder := None)
      else Moved(s, t, ActivateWrite(e, a))
    case ActivateWrite(e, a) =>
      s.(pcs := s.pcs[t := Leased], active := Some(Grant(e, a)), holder := None, activated := s.activated[e := a])
  }

  predicate AtCheck(pc: Pc) {
    || (pc.Compare? && CallerCap(pc.caller).Some?)
    || (pc.CheckPoison? && CallerCap(pc.caller).Some?)
    || (pc.CheckGrant? && CallerCap(pc.caller).Some?)
  }

  function CheckStep(s: State, t: nat): (s': State)
    requires t < |s.pcs| && AtCheck(s.pcs[t]) && CallerCap(s.pcs[t].caller).value in s.caps
    ensures |s'.pcs| == |s.pcs|
  {
    var cap := s.caps[CallerCap(s.pcs[t].caller).value];
    match s.pcs[t]
    case Compare(k, b, a) =>
      Moved(s, t, if cap.binding != b || cap.grant.authority != a then Idle else LockWant(k))
    case CheckPoison(k) =>
      if s.poisoned then s.(pcs := s.pcs[t := Idle], holder := None) else Moved(s, t, CheckGrant(k))
    case CheckGrant(k) =>
      if s.epoch != cap.grant.epoch || s.active != Some(cap.grant)
      then s.(pcs := s.pcs[t := Idle], holder := None)
      else if k.Poster? then Moved(s, t, Validated(k.cap))
      else s.(pcs := s.pcs[t := Confirmed(CallerCap(k).value)], holder := None)
  }

  predicate AtPoll(pc: Pc) {
    pc.Validated? || pc.PollClear? || pc.PollStore?
  }

  function PollStep(s: State, t: nat): (s': State)
    requires t < |s.pcs| && AtPoll(s.pcs[t])
    ensures |s'.pcs| == |s.pcs|
  {
    match s.pcs[t]
    case Validated(c) => Moved(s, t, Polling(c))
    case PollClear(c) => s.(pcs := s.pcs[t := PollStore(c)], active := None)
    case PollStore(c) => s.(pcs := s.pcs[t := Idle], poisoned := true, holder := None)
  }

  predicate CanAdvance(s: State, t: nat) {
    && t < |s.pcs|
    && var pc := s.pcs[t];
       && (pc.RevokeLock? || pc.UnwindLock? || pc.LockWant? ==> s.holder.None?)
       && (AtCheck(pc) ==> CallerCap(pc.caller).value in s.caps)
       && (AtRevoke(pc) || AtAuthorize(pc) || AtLock(pc) || AtActivate(pc) || AtCheck(pc) || AtPoll(pc))
  }

  function AdvanceStep(s: State, t: nat): (s': State)
    requires CanAdvance(s, t)
    ensures |s'.pcs| == |s.pcs|
  {
    var pc := s.pcs[t];
    if AtRevoke(pc) then RevokeStep(s, t)
    else if AtAuthorize(pc) then AuthorizeStep(s, t)
    else if AtLock(pc) then LockStep(s, t)
    else if AtActivate(pc) then ActivateStep(s, t)
    else if AtCheck(pc) then CheckStep(s, t)
    else PollStep(s, t)
  }

  predicate Enabled(s: State, action: Action) {
    match action
    case Start(t, op) => CanStart(s, t, op)
    case Advance(t) => CanAdvance(s, t)
    case Decide(t, _) => t < |s.pcs| && s.pcs[t].AuthorizePredicate?
    case UpgradeFails(t) => t < |s.pcs| && s.pcs[t].Compare?
    case FirstPollReturns(t, _) => t < |s.pcs| && s.pcs[t].Polling?
    case LaterPoll(t, _) => t < |s.pcs| && s.pcs[t].InFlight?
    case Cancel(t) => t < |s.pcs| && s.pcs[t].InFlight?
    case Return(t) => t < |s.pcs| && (s.pcs[t].AuthorizeNone? || s.pcs[t].Confirmed?)
    case DropCapability(c) =>
      c in s.caps && forall t :: 0 <= t < |s.pcs| ==> Borrowed(s.pcs[t]) != Some(c)
    case HolderPanics(t) => s.holder == Some(t) && t < |s.pcs|
  }

  /** Every way one step can change the shared state. */
  function Apply(s: State, action: Action): (s': State)
    requires Enabled(s, action)
    ensures |s'.pcs| == |s.pcs|
  {
    match action
    case Start(t, op) => StartStep(s, t, op)
    case Advance(t) => AdvanceStep(s, t)
    case Decide(t, outcome) =>
      var a := s.pcs[t].expected;
      Moved(s, t, match outcome
                  case Approves => LockWant(Authorizer(a, true))
                  case Refuses => LockWant(Authorizer(a, false))
                  case Unwinds => UnwindStore)
    case UpgradeFails(t) => Moved(s, t, Idle)
    case FirstPollReturns(t, outcome) =>
      (match outcome
       case Ready => s.(pcs := s.pcs[t := Idle], holder := None)
       case Pending => s.(pcs := s.pcs[t := InFlight(s.pcs[t].cap)], holder := None)
       case Panicked => Moved(s, t, PollClear(s.pcs[t].cap)))
    case LaterPoll(t, done) => if done then Moved(s, t, Idle) else s
    case Cancel(t) => Moved(s, t, Idle)
    case Return(t) => s.(pcs := s.pcs[t := Idle], readers := s.readers - {Call(t)})
    case DropCapability(c) => s.(caps := s.caps - {c}, readers := s.readers - {Attempt(c)})
    case HolderPanics(t) =>
      s.(pcs := s.pcs[t := Idle], mutexPoisoned := true, holder := None,
      readers := s.readers - {Call(t)},
      writer := if s.writer == Some(t) then None else s.writer)
  }

  predicate Initial(s: State) {
    && s.epoch == 0 && !s.poisoned && !s.mutexPoisoned && s.active.None?
    && s.holder.None? && s.readers == {} && s.writer.None?
    && s.caps == map[] && s.nextCap == 0
    && (forall t :: 0 <= t < |s.pcs| ==> s.pcs[t] == Idle)
    && s.activated == map[] && !s.overflowed
  }

  /** `states[i + 1]` results from `states[i]` by `actions[i]`. */
  ghost predicate StepAt(states: seq<State>, actions: seq<Action>, i: nat)
    requires i < |actions| < |states|
  {
    Enabled(states[i], actions[i]) && states[i + 1] == Apply(states[i], actions[i])
  }

  ghost predicate IsRun(states: seq<State>, actions: seq<Action>) {
    && |states| == |actions| + 1
    && Initial(states[0])
    && forall i :: 0 <= i < |actions| ==> StepAt(states, actions, i)
  }

  /** The first poll of a transport begins with this action. */
  predicate FirstPoll(s: State, action: Action) {
    action.Advance? && action.thread < |s.pcs| && s.pcs[action.thread].Validated?
  }

  /** The action gives the transport of capability `c` a poll, first or later. */
  predicate PollsCapability(s: State, action: Action, c: nat) {
    || (FirstPoll(s, action) && s.pcs[action.thread].cap == c)
    || (action.LaterPoll? && action.thread < |s.pcs| && s.pcs[action.thread] == InFlight(c))
  }

  /** A revocation publishes when it clears the active grant and unlocks. */
  predicate Publishes(s: State, action: Action) {
    action.Advance? && action.thread < |s.pcs| && s.pcs[action.thread].RevokeClear?
  }

  /** A lease writes the active grant. */
  predicate Activates(s: State, action: Action) {
    action.Advance? && action.thread < |s.pcs| && s.pcs[action.thread].ActivateWrite?
  }
}
