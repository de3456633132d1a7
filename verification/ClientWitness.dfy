/** One run of client and controller that reaches a first POST with the gate closed and the
    poison flag set: neither is locked across that poll. */
module ClientWitness {
  import opened Authority
  import opened ControllerIdentity
  import opened ProtocolGate
  import opened ClientProtocol
  import Ctl = SubmissionProtocol
  import Errors = OperationErrors

  ghost predicate Reachable(s: System) {
    exists states: seq<System>, actions: seq<Action> :: Reaches(states, actions, s)
  }

  ghost predicate Reaches(states: seq<System>, actions: seq<Action>, s: System) {
    IsRun(states, actions) && states[|actions|] == s
  }

  lemma StepTo(s: System, action: Action, s': System)
    requires Reachable(s) && Enabled(s, action) && Apply(s, action) == s'
    ensures Reachable(s')
  {
    hide Enabled, Apply, Initial;
    var states: seq<System>, actions: seq<Action> :| Reaches(states, actions, s);
    var longer, taken := states + [s'], actions + [action];
    forall i | 0 <= i < |taken| ensures StepAt(longer, taken, i) {
      assert i < |actions| ==> StepAt(states, actions, i);
    }
    assert Reaches(longer, taken, s');
  }

  lemma FirstIdentity()
    ensures Identity(0) == Some(1) && BindingOf(0) == 1
  {
  }

  lemma EngineTo(c: Ctl.State, k: Client, step: Ctl.Action, c': Ctl.State)
    requires Reachable(System(c, k)) && Ctl.Enabled(c, step) && Ctl.Apply(c, step) == c'
    requires EngineMay(System(c, k), step)
    ensures Reachable(System(c', k))
  {
    hide Reachable, Ctl.Enabled, Ctl.Apply, EngineMay;
    StepTo(System(c, k), Engine(step), System(c', k));
  }

  lemma GoTo(c: Ctl.State, k: Client, t: nat, seen: Observation, k': Client)
    requires Reachable(System(c, k)) && |c.pcs| == |k.pcs| == 2 && t < 2 && CanGo(k, t, c.pcs[t])
    requires k.reservation == 0 && c.binding == 1
    requires Effect(k.pcs[t], t, c.binding, c.pcs[t]).None? && ClientStep(k, t, seen, c.pcs[t]) == k'
    ensures Reachable(System(c, k'))
  {
    hide Reachable, CanGo, ClientStep;
    FirstIdentity();
    StepTo(System(c, k), Go(t, seen), System(c, k'));
  }

  lemma CallTo(c: Ctl.State, k: Client, seen: Observation, step: Ctl.Action, c': Ctl.State, k': Client)
    requires Reachable(System(c, k)) && |c.pcs| == |k.pcs| == 2 && CanGo(k, 0, c.pcs[0])
    requires k.reservation == 0 && c.binding == 1
    requires Effect(k.pcs[0], 0, c.binding, c.pcs[0]) == Some(step) && ClientStep(k, 0, seen, c.pcs[0]) == k'
    requires Ctl.Enabled(c, step) && Ctl.Apply(c, step) == c'
    ensures Reachable(System(c', k'))
  {
    hide Reachable, CanGo, ClientStep, Ctl.Enabled, Ctl.Apply;
    FirstIdentity();
    StepTo(System(c, k), Go(0, seen), System(c', k'));
  }

  lemma DriveTo(c: Ctl.State, k: Client, c': Ctl.State)
    requires Reachable(System(c, k)) && |c.pcs| == |k.pcs| == 2 && !c.pcs[0].Validated?
    requires Ctl.CanAdvance(c, 0) && Ctl.AdvanceStep(c, 0) == c'
    requires ClientMayDrive(System(c, k), 0, Ctl.Advance(0))
    ensures Reachable(System(c', k))
  {
    hide Reachable, Ctl.CanAdvance, Ctl.AdvanceStep;
    StepTo(System(c, k), Drive(0, Ctl.Advance(0)), System(c', k));
  }

  // ---- the states the run goes through ------------------------------------------------------

  const A := ProtocolAuthority(1, 1, 0)
  const G := Ctl.Grant(0, A)
  const SEEN := Observation(true, 1, 0, Ok(Errors.PostResponse(true, "")))

  function Quiet(): Ctl.State {
    Ctl.State(1, 0, false, false, None, None, {}, None, map[], 0, [Ctl.Idle, Ctl.Idle], map[], false)
  }

  function Leased(pc: Ctl.Pc, holder: Option<nat>): Ctl.State {
    Quiet().(pcs := [Ctl.Idle, pc], writer := Some(1), holder := holder)
  }

  function Live(): Ctl.State {
    Quiet().(active := Some(G), activated := map[0 := A])
  }

  function Minting(pc: Ctl.Pc, holder: Option<nat>): Ctl.State {
    Live().(pcs := [Ctl.Idle, pc], readers := {Ctl.Call(1)}, holder := holder)
  }

  function Minted(pc: Ctl.Pc, holder: Option<nat>): Ctl.State {
    Live().(pcs := [pc, Ctl.Idle], readers := {Ctl.Attempt(0)}, caps := map[0 := Ctl.Capability(1, G)],
    nextCap := 1, holder := holder)
  }

  function Unwinding(pc: Ctl.Pc, poisoned: bool): Ctl.State {
    Minted(Ctl.Validated(0), Some(0)).(pcs := [Ctl.Validated(0), pc], poisoned := poisoned,
    readers := {Ctl.Attempt(0), Ctl.Call(1)})
  }

  function Refreshing(pc: Pc, holder: Option<nat>): Client {
    Client(0, INITIAL_GATE, None, None, {}, holder, None, [pc, Out])
  }

  function Activating(pc: Pc, readers: set<nat>, holder: Option<nat>, gateHolder: Option<nat>): Client {
    Client(0, INITIAL_GATE, gateHolder, Some(A), readers, holder, None, [pc, Out])
  }

  function Ready(pc: Pc): Client {
    Client(0, Activate(INITIAL_GATE, A), None, Some(A), {}, None, None, [pc, Out])
  }

  function Submitting(pc: Pc): Client {
    Ready(pc).(serial := Some(0), readers := {0})
  }

  const JOB := SubmitPrepared(Own(0))

  // ---- the run ------------------------------------------------------------------------------

  /** A refresh installs generation 1 and an activation opens the gate for it. */
  lemma GateOpened()
    ensures Reachable(System(Quiet(), Ready(Out)))
  {
    hide Reachable;
    var c := Quiet();
    PairObserved();
    GoTo(c, Activating(Observe(A), {0}, Some(0), None), 0, SEEN, Activating(WantGate(A), {0}, Some(0), None));
    GoTo(c, Activating(WantGate(A), {0}, Some(0), None), 0, SEEN, Activating(Closure(A), {0}, Some(0), Some(0)));
    GoTo(c, Activating(Closure(A), {0}, Some(0), Some(0)), 0, SEEN, Ready(Out));
  }

  lemma PairObserved()
    ensures Reachable(System(Quiet(), Activating(Observe(A), {0}, Some(0), None)))
  {
    hide Reachable;
    var c := Quiet();
    PairInstalled();
    BeginTo(c, Activating(Out, {}, None, None), 0, WantActivation(A), Activating(WantActivation(A), {}, None, None));
    GoTo(c, Activating(WantActivation(A), {}, None, None), 0, SEEN, Activating(WantActivationGuard(A), {}, Some(0), None));
    GoTo(c, Activating(WantActivationGuard(A), {}, Some(0), None), 0, SEEN, Activating(CompareInstalled(A), {0}, Some(0), None));
    GoTo(c, Activating(CompareInstalled(A), {0}, Some(0), None), 0, SEEN, Activating(Observe(A), {0}, Some(0), None));
  }

  lemma PairInstalled()
    ensures Reachable(System(Quiet(), Activating(Out, {}, None, None)))
  {
    hide Reachable;
    var c := Quiet();
    RefreshStarted();
    GoTo(c, Refreshing(ReadInstalled, Some(0)), 0, SEEN, Refreshing(Rebuilding(1), Some(0)));
    GoTo(c, Refreshing(Rebuilding(1), Some(0)), 0, SEEN, Refreshing(Installing(A), Some(0)));
    GoTo(c, Refreshing(Installing(A), Some(0)), 0, SEEN, Activating(Out, {}, None, None));
  }

  lemma RefreshStarted()
    ensures Reachable(System(Quiet(), Refreshing(ReadInstalled, Some(0))))
  {
    hide Reachable;
    var c := Quiet();
    Begins();
    BeginTo(c, Refreshing(Out, None), 0, WantRefresh, Refreshing(WantRefresh, None));
    GoTo(c, Refreshing(WantRefresh, None), 0, SEEN, Refreshing(CloseGate, Some(0)));
    GoTo(c, Refreshing(CloseGate, Some(0)), 0, SEEN, Refreshing(ReadInstalled, Some(0)));
  }

  lemma Begins()
    ensures Reachable(System(Quiet(), Refreshing(Out, None)))
  {
    FirstIdentity();
    assert Reaches([System(Quiet(), Refreshing(Out, None))], [], System(Quiet(), Refreshing(Out, None)));
  }

  lemma BeginTo(c: Ctl.State, k: Client, t: nat, entry: Pc, k': Client)
    requires Reachable(System(c, k)) && CanBegin(System(c, k), t, entry) && At(k, t, entry) == k'
    ensures Reachable(System(c, k'))
  {
    hide Reachable, CanBegin, At;
    StepTo(System(c, k), Begin(t, entry), System(c, k'));
  }

  /** A lease activates the authority for epoch 0. */
  lemma LeaseActivated()
    ensures Reachable(System(Live(), Ready(Out)))
  {
    hide Reachable;
    var k := Ready(Out);
    LeaseTaken();
    EngineTo(Leased(Ctl.LockWant(Ctl.Activator(0, A)), None), k, Ctl.Advance(1), Leased(Ctl.LockTest(Ctl.Activator(0, A)), Some(1)));
    EngineTo(Leased(Ctl.LockTest(Ctl.Activator(0, A)), Some(1)), k, Ctl.Advance(1), Leased(Ctl.ActivateRetest(0, A), Some(1)));
    EngineTo(Leased(Ctl.ActivateRetest(0, A), Some(1)), k, Ctl.Advance(1), Leased(Ctl.ActivateRecheck(0, A), Some(1)));
    EngineTo(Leased(Ctl.ActivateRecheck(0, A), Some(1)), k, Ctl.Advance(1), Leased(Ctl.ActivateWrite(0, A), Some(1)));
    EngineTo(Leased(Ctl.ActivateWrite(0, A), Some(1)), k, Ctl.Advance(1), Live().(pcs := [Ctl.Idle, Ctl.Leased], writer := Some(1)));
    EngineTo(Live().(pcs := [Ctl.Idle, Ctl.Leased], writer := Some(1)), k, Ctl.Start(1, Ctl.DropLease), Live());
  }

  lemma LeaseTaken()
    ensures Reachable(System(Leased(Ctl.LockWant(Ctl.Activator(0, A)), None), Ready(Out)))
  {
    hide Reachable;
    var k := Ready(Out);
    GateOpened();
    EngineTo(Quiet(), k, Ctl.Start(1, Ctl.AcquireExclusive), Leased(Ctl.Leased, None));
    EngineTo(Leased(Ctl.Leased, None), k, Ctl.Start(1, Ctl.Activate(0, A)), Leased(Ctl.ActivatePoison(0, A), None));
    EngineTo(Leased(Ctl.ActivatePoison(0, A), None), k, Ctl.Advance(1), Leased(Ctl.ActivateEpoch(0, A), None));
    EngineTo(Leased(Ctl.ActivateEpoch(0, A), None), k, Ctl.Advance(1), Leased(Ctl.LockWant(Ctl.Activator(0, A)), None));
  }

  /** An authorization mints capability 0. */
  lemma CapabilityMinted()
    ensures Reachable(System(Minted(Ctl.Idle, None), Ready(Out)))
  {
    hide Reachable;
    var k := Ready(Out);
    AuthorizationLocked();
    EngineTo(Minting(Ctl.AuthorizeEpoch(A, true), Some(1)), k, Ctl.Advance(1), Minting(Ctl.AuthorizeDecide(A, true, 0), Some(1)));
    EngineTo(Minting(Ctl.AuthorizeDecide(A, true, 0), Some(1)), k, Ctl.Advance(1), Minting(Ctl.AuthorizeMint(G), None));
    EngineTo(Minting(Ctl.AuthorizeMint(G), None), k, Ctl.Advance(1), Minted(Ctl.Idle, None));
  }

  lemma AuthorizationLocked()
    ensures Reachable(System(Minting(Ctl.AuthorizeEpoch(A, true), Some(1)), Ready(Out)))
  {
    hide Reachable;
    var k := Ready(Out);
    var caller := Ctl.Authorizer(A, true);
    AuthorizationApproved();
    EngineTo(Minting(Ctl.LockWant(caller), None), k, Ctl.Advance(1), Minting(Ctl.LockTest(caller), Some(1)));
    EngineTo(Minting(Ctl.LockTest(caller), Some(1)), k, Ctl.Advance(1), Minting(Ctl.AuthorizeEpoch(A, true), Some(1)));
  }

  lemma AuthorizationApproved()
    ensures Reachable(System(Minting(Ctl.LockWant(Ctl.Authorizer(A, true)), None), Ready(Out)))
  {
    hide Reachable;
    var k := Ready(Out);
    var caller := Ctl.Authorizer(A, true);
    LeaseActivated();
    EngineTo(Live(), k, Ctl.Start(1, Ctl.Authorize(A)), Minting(Ctl.AuthorizePredicate(A), None));
    EngineTo(Minting(Ctl.AuthorizePredicate(A), None), k, Ctl.Decide(1, Ctl.Approves), Minting(Ctl.LockWant(caller), None));
  }

  /** The submission enters the serial section and takes its permit and its guard. */
  lemma PermitTaken(job: Job)
    requires AttemptOf(job) == Own(0)
    ensures Reachable(System(Minted(Ctl.Idle, None), Submitting(ReadVersion(job, A))))
  {
    hide Reachable;
    var c := Minted(Ctl.Idle, None);
    CapabilityMinted();
    BeginTo(c, Ready(Out), 0, WantSerial(job), Ready(WantSerial(job)));
    GoTo(c, Ready(WantSerial(job)), 0, SEEN, Ready(WantPermit(job)).(serial := Some(0)));
    GoTo(c, Ready(WantPermit(job)).(serial := Some(0)), 0, SEEN, Ready(WantGuard(job, A)).(serial := Some(0)));
    GoTo(c, Ready(WantGuard(job, A)).(serial := Some(0)), 0, SEEN, Submitting(ReadVersion(job, A)));
  }

  lemma PermitMatched(job: Job)
    requires AttemptOf(job) == Own(0)
    ensures Reachable(System(Minted(Ctl.Idle, None), Submitting(RevalidateFirst(job, A, false))))
  {
    hide Reachable;
    var c := Minted(Ctl.Idle, None);
    PermitTaken(job);
    GoTo(c, Submitting(ReadVersion(job, A)), 0, SEEN, Submitting(MatchFirst(job, A, 1)));
    GoTo(c, Submitting(MatchFirst(job, A, 1)), 0, SEEN, Submitting(RevalidateFirst(job, A, false)));
  }

  predicate InCall(pc: Pc) {
    (pc.RevalidateFirst? || pc.RevalidateAgain? || pc.Posting?) && pc.called
  }

  /** A call of the submission into the controller, up to its last check. */
  lemma CallLocked(pc: Pc, caller: Ctl.Caller)
    requires InCall(pc) && (caller == Ctl.Poster(0) || caller == Ctl.Revalidator(0))
    requires Reachable(System(Minted(Ctl.Compare(caller, 1, A), None), Submitting(pc)))
    ensures Reachable(System(Minted(Ctl.CheckPoison(caller), Some(0)), Submitting(pc)))
  {
    hide Reachable;
    var k := Submitting(pc);
    CallCompared(pc, caller);
    DriveTo(Minted(Ctl.LockWant(caller), None), k, Minted(Ctl.LockTest(caller), Some(0)));
    DriveTo(Minted(Ctl.LockTest(caller), Some(0)), k, Minted(Ctl.CheckPoison(caller), Some(0)));
  }

  lemma CallCompared(pc: Pc, caller: Ctl.Caller)
    requires InCall(pc) && (caller == Ctl.Poster(0) || caller == Ctl.Revalidator(0))
    requires Reachable(System(Minted(Ctl.Compare(caller, 1, A), None), Submitting(pc)))
    ensures Reachable(System(Minted(Ctl.LockWant(caller), None), Submitting(pc)))
  {
    hide Reachable;
    DriveTo(Minted(Ctl.Compare(caller, 1, A), None), Submitting(pc), Minted(Ctl.LockWant(caller), None));
  }

  lemma RevalidationConfirms(pc: Pc)
    requires InCall(pc)
    requires Reachable(System(Minted(Ctl.Compare(Ctl.Revalidator(0), 1, A), None), Submitting(pc)))
    ensures Reachable(System(Minted(Ctl.Confirmed(0), None), Submitting(pc)))
  {
    hide Reachable;
    var k, caller := Submitting(pc), Ctl.Revalidator(0);
    CallLocked(pc, caller);
    DriveTo(Minted(Ctl.CheckPoison(caller), Some(0)), k, Minted(Ctl.CheckGrant(caller), Some(0)));
    DriveTo(Minted(Ctl.CheckGrant(caller), Some(0)), k, Minted(Ctl.Confirmed(0), None));
  }

  lemma PostValidates(pc: Pc)
    requires InCall(pc)
    requires Reachable(System(Minted(Ctl.Compare(Ctl.Poster(0), 1, A), None), Submitting(pc)))
    ensures Reachable(System(Minted(Ctl.Validated(0), Some(0)), Submitting(pc)))
  {
    hide Reachable;
    var k, caller := Submitting(pc), Ctl.Poster(0);
    CallLocked(pc, caller);
    DriveTo(Minted(Ctl.CheckPoison(caller), Some(0)), k, Minted(Ctl.CheckGrant(caller), Some(0)));
    DriveTo(Minted(Ctl.CheckGrant(caller), Some(0)), k, Minted(Ctl.Validated(0), Some(0)));
  }

  lemma FirstConfirmed(job: Job)
    requires AttemptOf(job) == Own(0)
    ensures Reachable(System(Minted(Ctl.Confirmed(0), None), Submitting(RevalidateFirst(job, A, true))))
  {
    hide Reachable;
    PermitMatched(job);
    CallTo(Minted(Ctl.Idle, None), Submitting(RevalidateFirst(job, A, false)), SEEN, Ctl.Start(0, Ctl.Revalidate(0, 1, A)),
           Minted(Ctl.Compare(Ctl.Revalidator(0), 1, A), None), Submitting(RevalidateFirst(job, A, true)));
    RevalidationConfirms(RevalidateFirst(job, A, true));
  }

  lemma FirstRevalidated()
    ensures Reachable(System(Minted(Ctl.Idle, None), Submitting(RevalidateAgain(JOB, A, 1, false))))
  {
    hide Reachable;
    var idle := Minted(Ctl.Idle, None);
    FirstConfirmed(JOB);
    CallTo(Minted(Ctl.Confirmed(0), None), Submitting(RevalidateFirst(JOB, A, true)), SEEN, Ctl.Return(0),
           idle, Submitting(ReadVersionAgain(JOB, A, 1)));
    MatchedAgain(JOB);
  }

  lemma MatchedAgain(job: Job)
    requires AttemptOf(job) == Own(0)
    requires Reachable(System(Minted(Ctl.Idle, None), Submitting(ReadVersionAgain(job, A, 1))))
    ensures Reachable(System(Minted(Ctl.Idle, None), Submitting(RevalidateAgain(job, A, 1, false))))
  {
    hide Reachable;
    var idle := Minted(Ctl.Idle, None);
    GoTo(idle, Submitting(ReadVersionAgain(job, A, 1)), 0, SEEN, Submitting(MatchAgain(job, A, 1, 1)));
    GoTo(idle, Submitting(MatchAgain(job, A, 1, 1)), 0, SEEN, Submitting(RevalidateAgain(job, A, 1, false)));
  }

  /** Both revalidations confirm, and the POST validates its attempt under the mutex. */
  lemma PostValidated()
    ensures Reachable(System(Minted(Ctl.Validated(0), Some(0)), Submitting(Posting(JOB, A, 1, true))))
  {
    hide Reachable;
    var idle := Minted(Ctl.Idle, None);
    FirstRevalidated();
    CallTo(idle, Submitting(RevalidateAgain(JOB, A, 1, false)), SEEN, Ctl.Start(0, Ctl.Revalidate(0, 1, A)),
           Minted(Ctl.Compare(Ctl.Revalidator(0), 1, A), None), Submitting(RevalidateAgain(JOB, A, 1, true)));
    RevalidationConfirms(RevalidateAgain(JOB, A, 1, true));
    CallTo(Minted(Ctl.Confirmed(0), None), Submitting(RevalidateAgain(JOB, A, 1, true)), SEEN, Ctl.Return(0),
           idle, Submitting(Posting(JOB, A, 1, false)));
    CallTo(idle, Submitting(Posting(JOB, A, 1, false)), SEEN, Ctl.Start(0, Ctl.Post(0, 1, A)),
           Minted(Ctl.Compare(Ctl.Poster(0), 1, A), None), Submitting(Posting(JOB, A, 1, true)));
    PostValidates(Posting(JOB, A, 1, true));
  }

  /** Between the last check and the first poll another thread closes the gate, and an
      authorization predicate unwinds. */
  lemma Overtaken()
    ensures Reachable(System(Unwinding(Ctl.UnwindLock, true), Submitting(Posting(JOB, A, 1, true)).(gate := Gate(Closed, 1))))
  {
    hide Reachable;
    var validated, k := Minted(Ctl.Validated(0), Some(0)), Submitting(Posting(JOB, A, 1, true));
    var closed := k.(gate := Gate(Closed, 1));
    PostValidated();
    StepTo(System(validated, k), RevokeGate, System(validated, closed));
    EngineTo(validated, closed, Ctl.Start(1, Ctl.Authorize(A)), Unwinding(Ctl.AuthorizePredicate(A), false));
    EngineTo(Unwinding(Ctl.AuthorizePredicate(A), false), closed, Ctl.Decide(1, Ctl.Unwinds), Unwinding(Ctl.UnwindStore, false));
    EngineTo(Unwinding(Ctl.UnwindStore, false), closed, Ctl.Advance(1), Unwinding(Ctl.UnwindLock, true));
  }

  /** A POST can receive its first poll while the gate is no longer open for its permit and
      the controller's poison flag is set. */
  lemma FirstPostMayBeOvertaken() returns (states: seq<System>, actions: seq<Action>, i: nat)
    ensures IsRun(states, actions) && i < |actions| && FirstPost(states[i], actions[i])
    ensures states[i].client.gate.state == Closed && states[i].ctl.poisoned
  {
    Overtaken();
    var s := System(Unwinding(Ctl.UnwindLock, true), Submitting(Posting(JOB, A, 1, true)).(gate := Gate(Closed, 1)));
    var before, taken :| Reaches(before, taken, s);
    var action := Drive(0, Ctl.Advance(0));
    states, actions, i := before + [Apply(s, action)], taken + [action], |taken|;
    forall j | 0 <= j < |actions| ensures StepAt(states, actions, j) {
      assert j < |taken| ==> StepAt(before, taken, j);
    }
  }

  // ---- an order built on the spot -------------------------------------------------------------

  const BUILT := SubmitBuilt(Own(0))

  lemma OrderBuilt()
    ensures Reachable(System(Minted(Ctl.Idle, None), Submitting(RevalidateAgain(BUILT, A, 1, false))))
  {
    hide Reachable;
    var idle := Minted(Ctl.Idle, None);
    FirstConfirmed(BUILT);
    CallTo(Minted(Ctl.Confirmed(0), None), Submitting(RevalidateFirst(BUILT, A, true)), SEEN, Ctl.Return(0),
           idle, Submitting(Build(BUILT, A)));
    GoTo(idle, Submitting(Build(BUILT, A)), 0, SEEN, Submitting(ReadVersionAgain(BUILT, A, 1)));
    MatchedAgain(BUILT);
  }

  lemma OrderSigned()
    ensures Reachable(System(Minted(Ctl.Idle, None), Submitting(Posting(BUILT, A, 1, false))))
  {
    hide Reachable;
    var idle := Minted(Ctl.Idle, None);
    OrderBuilt();
    CallTo(idle, Submitting(RevalidateAgain(BUILT, A, 1, false)), SEEN, Ctl.Start(0, Ctl.Revalidate(0, 1, A)),
           Minted(Ctl.Compare(Ctl.Revalidator(0), 1, A), None), Submitting(RevalidateAgain(BUILT, A, 1, true)));
    RevalidationConfirms(RevalidateAgain(BUILT, A, 1, true));
    CallTo(Minted(Ctl.Confirmed(0), None), Submitting(RevalidateAgain(BUILT, A, 1, true)), SEEN, Ctl.Return(0),
           idle, Submitting(Sign(BUILT, A, 1)));
    GoTo(idle, Submitting(Sign(BUILT, A, 1)), 0, SEEN, Submitting(MatchSigned(BUILT, A, 1)));
    GoTo(idle, Submitting(MatchSigned(BUILT, A, 1)), 0, SEEN, Submitting(Posting(BUILT, A, 1, false)));
  }

  lemma BuiltOrderValidated()
    ensures Reachable(System(Minted(Ctl.Validated(0), Some(0)), Submitting(Posting(BUILT, A, 1, true))))
  {
    hide Reachable;
    OrderSigned();
    CallTo(Minted(Ctl.Idle, None), Submitting(Posting(BUILT, A, 1, false)), SEEN, Ctl.Start(0, Ctl.Post(0, 1, A)),
           Minted(Ctl.Compare(Ctl.Poster(0), 1, A), None), Submitting(Posting(BUILT, A, 1, true)));
    PostValidates(Posting(BUILT, A, 1, true));
  }

  /** An order that is built, signed and posted on the spot gets its first poll too, with the
      gate still open for its permit. */
  lemma BuiltOrderMayPost() returns (states: seq<System>, actions: seq<Action>, i: nat)
    ensures IsRun(states, actions) && i < |actions| && FirstPost(states[i], actions[i])
    ensures actions[i] == Drive(0, Ctl.Advance(0)) && |states[i].client.pcs| == 2
    ensures states[i].client.pcs[0] == Posting(BUILT, A, 1, true) && Matches(states[i].client.gate, A)
  {
    BuiltOrderValidated();
    var s := System(Minted(Ctl.Validated(0), Some(0)), Submitting(Posting(BUILT, A, 1, true)));
    var before, taken :| Reaches(before, taken, s);
    var action := Drive(0, Ctl.Advance(0));
    states, actions, i := before + [Apply(s, action)], taken + [action], |taken|;
    forall j | 0 <= j < |actions| ensures StepAt(states, actions, j) {
      assert j < |taken| ==> StepAt(before, taken, j);
    }
  }
}
