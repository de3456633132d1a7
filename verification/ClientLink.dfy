/** How a client thread's point corresponds to the controller call it has made. */
module ClientLink {
  import opened Authority
  import opened ControllerIdentity
  import opened ProtocolGate
  import opened ClientProtocol
  import opened ClientProofs
  import Ctl = SubmissionProtocol
  import CtlProofs = SubmissionProofs
  import CtlSafety = SubmissionSafety

  /** Within `lock_active` or the checks that follow it, for the caller `k`. */
  predicate Checking(pc: Ctl.Pc, k: Ctl.Caller) {
    pc == Ctl.LockWant(k) || pc == Ctl.LockTest(k) || pc == Ctl.LockStore(k)
    || pc == Ctl.CheckPoison(k) || pc == Ctl.CheckGrant(k)
  }

  /** The attempt is this controller's and carries exactly authority `a`. */
  predicate Carries(s: Ctl.State, c: nat, a: ProtocolAuthority) {
    c in s.caps && s.caps[c].binding == s.binding && s.caps[c].grant.authority == a
  }

  predicate Revalidating(s: Ctl.State, pc: Ctl.Pc, c: nat, p: ProtocolAuthority) {
    || pc.Idle?
    || pc == Ctl.Compare(Ctl.Revalidator(c), s.binding, p)
    || Checking(pc, Ctl.Revalidator(c))
    || pc == Ctl.Confirmed(c)
  }

  predicate BeforePoll(s: Ctl.State, pc: Ctl.Pc, c: nat, p: ProtocolAuthority) {
    || pc.Idle?
    || pc == Ctl.Compare(Ctl.Poster(c), s.binding, p)
    || ((Checking(pc, Ctl.Poster(c)) || pc == Ctl.Validated(c)) && Carries(s, c, p))
  }

  predicate FromPoll(pc: Ctl.Pc) {
    pc.Idle? || pc.Polling? || pc.PollClear? || pc.PollStore? || pc.InFlight?
  }

  predicate Link(s: Ctl.State, client: Pc, ctl: Ctl.Pc) {
    match client
    case Out => Ctl.Borrowed(ctl).None?
    case RevalidateFirst(job, p, called) => RevalidateLink(s, job, p, called, ctl)
    case RevalidateAgain(job, p, _, called) => RevalidateLink(s, job, p, called, ctl)
    case Posting(job, p, _, called) =>
      if called then AttemptOf(job).Own? && BeforePoll(s, ctl, AttemptOf(job).cap, p) else ctl.Idle?
    case Posted(_, _) => FromPoll(ctl)
    case _ => ctl.Idle?
  }

  predicate RevalidateLink(s: Ctl.State, job: Job, p: ProtocolAuthority, called: bool, ctl: Ctl.Pc) {
    if called then AttemptOf(job).Own? && Revalidating(s, ctl, AttemptOf(job).cap, p) else ctl.Idle?
  }

  predicate LinkOk(s: System, t: nat)
    requires t < |s.client.pcs| && |s.client.pcs| == |s.ctl.pcs|
  {
    Link(s.ctl, s.client.pcs[t], s.ctl.pcs[t])
  }

  ghost predicate SystemInv(s: System) {
    && CtlProofs.Inv(s.ctl) && ClientInv(s.client)
    && Identity(s.client.reservation) == Some(s.ctl.binding)
    && |s.client.pcs| == |s.ctl.pcs|
    && forall t :: 0 <= t < |s.client.pcs| ==> LinkOk(s, t)
  }

  // ---- controller steps and the link ----------------------------------------------------------

  /** A controller step moves only its own thread and keeps every borrowed attempt. */
  ghost predicate CtlFrame(s: Ctl.State, s': Ctl.State, step: Ctl.Action) {
    && s'.binding == s.binding && |s'.pcs| == |s.pcs|
    && (forall u :: 0 <= u < |s.pcs| && (step.DropCapability? || u != step.thread) ==> s'.pcs[u] == s.pcs[u])
    && (forall c :: c in s.caps && !(step.DropCapability? && step.dropped == c) ==>
                      c in s'.caps && s'.caps[c] == s.caps[c])
  }

  lemma DropFrames(s: Ctl.State, c: nat)
    requires Ctl.Enabled(s, Ctl.DropCapability(c))
    ensures CtlFrame(s, Ctl.Apply(s, Ctl.DropCapability(c)), Ctl.DropCapability(c))
  {
  }

  lemma StepFrames(s: Ctl.State, step: Ctl.Action)
    requires CtlProofs.Inv(s) && Ctl.Enabled(s, step)
    ensures CtlFrame(s, Ctl.Apply(s, step), step)
  {
    hide Ctl.Apply, Ctl.Enabled;
    CtlProofs.StepKeeps(s, step);
    if step.DropCapability? { DropFrames(s, step.dropped); }
  }

  /** A thread's link survives a controller step that is not its own, unless the step
      drops an attempt it has in a call, which is never enabled. */
  lemma LinkSurvives(s: Ctl.State, step: Ctl.Action, client: Pc, t: nat)
    requires CtlProofs.Inv(s) && Ctl.Enabled(s, step) && t < |s.pcs| && Link(s, client, s.pcs[t])
    requires !step.DropCapability? ==> step.thread != t
    ensures Link(Ctl.Apply(s, step), client, Ctl.Apply(s, step).pcs[t])
  {
    hide Ctl.Apply;
    StepFrames(s, step);
    assert CtlProofs.ThreadOk(s, t);
  }

  // ---- a client thread's own controller calls ---------------------------------------------------

  /** Where a checked attempt call can go in one step. */
  predicate Onward(pc: Ctl.Pc, k: Ctl.Caller, c: nat) {
    pc.Idle? || Checking(pc, k) || pc == (if k.Poster? then Ctl.Validated(c) else Ctl.Confirmed(c))
  }

  lemma LockOnward(s: Ctl.State, t: nat, k: Ctl.Caller, c: nat)
    requires t < |s.pcs| && Ctl.AtLock(s.pcs[t]) && (s.pcs[t].LockWant? ==> s.holder.None?)
    requires s.pcs[t].caller == k && k in {Ctl.Poster(c), Ctl.Revalidator(c)}
    ensures Onward(Ctl.LockStep(s, t).pcs[t], k, c)
  {
  }

  lemma CheckOnward(s: Ctl.State, t: nat, k: Ctl.Caller, c: nat)
    requires t < |s.pcs| && (s.pcs[t] == Ctl.CheckPoison(k) || s.pcs[t] == Ctl.CheckGrant(k))
    requires k in {Ctl.Poster(c), Ctl.Revalidator(c)} && c in s.caps
    ensures Onward(Ctl.CheckStep(s, t).pcs[t], k, c)
  {
  }

  lemma CompareOnward(s: Ctl.State, t: nat, k: Ctl.Caller, c: nat, p: ProtocolAuthority)
    requires t < |s.pcs| && s.pcs[t] == Ctl.Compare(k, s.binding, p)
    requires k in {Ctl.Poster(c), Ctl.Revalidator(c)} && c in s.caps
    ensures var pc' := Ctl.CheckStep(s, t).pcs[t];
            pc'.Idle? || (pc' == Ctl.LockWant(k) && Carries(s, c, p))
  {
  }

  lemma CallOnward(s: Ctl.State, t: nat, k: Ctl.Caller, c: nat, p: ProtocolAuthority)
    requires Ctl.CanAdvance(s, t) && k in {Ctl.Poster(c), Ctl.Revalidator(c)} && c in s.caps
    requires s.pcs[t] == Ctl.Compare(k, s.binding, p) || Checking(s.pcs[t], k)
    ensures var pc' := Ctl.AdvanceStep(s, t).pcs[t];
            && Onward(pc', k, c)
            && (s.pcs[t].Compare? ==> pc'.Idle? || (pc' == Ctl.LockWant(k) && Carries(s, c, p)))
  {
    hide Ctl.LockStep, Ctl.CheckStep;
    if s.pcs[t].Compare? { CompareOnward(s, t, k, c, p); }
    else if Ctl.AtLock(s.pcs[t]) { LockOnward(s, t, k, c); }
    else { CheckOnward(s, t, k, c); }
  }

  /** Steps of a client thread inside a call it made, other than beginning the transport. */
  lemma DriveKeepsLink(s: Ctl.State, step: Ctl.Action, client: Pc, t: nat)
    requires CtlProofs.Inv(s) && Ctl.Enabled(s, step) && t < |s.pcs| && Link(s, client, s.pcs[t])
    requires step == Ctl.Advance(t) || step == Ctl.UpgradeFails(t)
             || (step.FirstPollReturns? && step.thread == t) || (step.LaterPoll? && step.thread == t)
    requires client.RevalidateFirst? || client.RevalidateAgain? || client.Posting?
    requires client.called && !Ctl.FirstPoll(s, step)
    ensures Link(Ctl.Apply(s, step), client, Ctl.Apply(s, step).pcs[t])
  {
    hide Ctl.AdvanceStep, Ctl.Apply, Link, CtlProofs.Inv, CtlFrame;
    if step.Advance? {
      AdvanceKeepsLink(s, client, t);
    } else {
      RefusalKeepsLink(s, step, client, t);
    }
  }

  lemma AdvanceKeepsLink(s: Ctl.State, client: Pc, t: nat)
    requires CtlProofs.Inv(s) && Ctl.Enabled(s, Ctl.Advance(t)) && Link(s, client, s.pcs[t])
    requires client.RevalidateFirst? || client.RevalidateAgain? || client.Posting?
    requires client.called && !Ctl.FirstPoll(s, Ctl.Advance(t))
    ensures Link(Ctl.Apply(s, Ctl.Advance(t)), client, Ctl.Apply(s, Ctl.Advance(t)).pcs[t])
  {
    hide Ctl.AdvanceStep, CtlProofs.Inv;
    var c := AttemptOf(client.job).cap;
    var k := if client.Posting? then Ctl.Poster(c) else Ctl.Revalidator(c);
    assert s.pcs[t] == Ctl.Compare(k, s.binding, client.permit) || Checking(s.pcs[t], k);
    CallIsLive(s, t, k, c);
    StepFrames(s, Ctl.Advance(t));
    CallOnward(s, t, k, c, client.permit);
  }

  lemma CallIsLive(s: Ctl.State, t: nat, k: Ctl.Caller, c: nat)
    requires CtlProofs.Inv(s) && t < |s.pcs| && k in {Ctl.Poster(c), Ctl.Revalidator(c)}
    requires (s.pcs[t].Compare? && s.pcs[t].caller == k) || Checking(s.pcs[t], k)
    ensures c in s.caps
  {
    assert CtlProofs.ThreadOk(s, t);
  }

  /** A failed upgrade ends the call; nothing is polled before the first poll. */
  lemma RefusalKeepsLink(s: Ctl.State, step: Ctl.Action, client: Pc, t: nat)
    requires Ctl.Enabled(s, step) && t < |s.pcs| && Link(s, client, s.pcs[t]) && !step.Advance?
    requires step == Ctl.UpgradeFails(t) || (step.FirstPollReturns? && step.thread == t) || (step.LaterPoll? && step.thread == t)
    requires client.RevalidateFirst? || client.RevalidateAgain? || client.Posting?
    requires client.called
    ensures Link(Ctl.Apply(s, step), client, Ctl.Apply(s, step).pcs[t])
  {
  }

  lemma PostBegins(s: Ctl.State, step: Ctl.Action, t: nat)
    requires Ctl.Enabled(s, step) && Ctl.FirstPoll(s, step) && step.thread == t
    ensures FromPoll(Ctl.Apply(s, step).pcs[t])
  {
  }

  lemma PostContinues(s: Ctl.State, step: Ctl.Action, t: nat)
    requires Ctl.Enabled(s, step) && t < |s.pcs| && FromPoll(s.pcs[t])
    requires step == Ctl.Advance(t) || step == Ctl.UpgradeFails(t)
             || (step.FirstPollReturns? && step.thread == t) || (step.LaterPoll? && step.thread == t)
    ensures FromPoll(Ctl.Apply(s, step).pcs[t]) && !Ctl.FirstPoll(s, step)
  {
    hide Ctl.RevokeStep, Ctl.AuthorizeStep, Ctl.LockStep, Ctl.ActivateStep, Ctl.CheckStep;
    if step.Advance? { assert Ctl.Apply(s, step) == Ctl.PollStep(s, t); }
  }

  // ---- threads outside the client borrow nothing -------------------------------------------------

  lemma LockBorrowsNothing(s: Ctl.State, t: nat)
    requires t < |s.pcs| && Ctl.AtLock(s.pcs[t]) && (s.pcs[t].LockWant? ==> s.holder.None?)
    requires Ctl.Borrowed(s.pcs[t]).None?
    ensures Ctl.Borrowed(Ctl.LockStep(s, t).pcs[t]).None?
  {
  }

  lemma AdvanceBorrowsNothing(s: Ctl.State, t: nat)
    requires Ctl.CanAdvance(s, t) && Ctl.Borrowed(s.pcs[t]).None?
    ensures Ctl.Borrowed(Ctl.AdvanceStep(s, t).pcs[t]).None?
  {
    hide Ctl.RevokeStep, Ctl.AuthorizeStep, Ctl.LockStep, Ctl.ActivateStep, Ctl.CheckStep, Ctl.PollStep;
    var pc := s.pcs[t];
    if Ctl.AtRevoke(pc) { CtlSafety.RevokeBorrowsNothing(s, t); }
    else if Ctl.AtAuthorize(pc) { CtlSafety.AuthorizeBorrowsNothing(s, t); }
    else if Ctl.AtLock(pc) { LockBorrowsNothing(s, t); }
    else if Ctl.AtActivate(pc) { CtlSafety.ActivateBorrowsNothing(s, t); }
  }

  lemma EventBorrowsNothing(s: Ctl.State, step: Ctl.Action)
    requires Ctl.Enabled(s, step) && !step.Advance? && !step.DropCapability? && !step.Start?
    requires step.thread < |s.pcs| && Ctl.Borrowed(s.pcs[step.thread]).None?
    ensures Ctl.Borrowed(Ctl.Apply(s, step).pcs[step.thread]).None?
  {
  }

  lemma StartBorrowsNothing(s: Ctl.State, t: nat, op: Ctl.Operation)
    requires Ctl.CanStart(s, t, op) && !op.Post? && !op.Revalidate?
    ensures Ctl.Borrowed(Ctl.StartStep(s, t, op).pcs[t]).None?
  {
  }

  lemma EngineBorrowsNothing(s: Ctl.State, step: Ctl.Action)
    requires Ctl.Enabled(s, step) && !step.DropCapability? && step.thread < |s.pcs|
    requires Ctl.Borrowed(s.pcs[step.thread]).None?
    requires step.Start? ==> !step.operation.Post? && !step.operation.Revalidate?
    ensures Ctl.Borrowed(Ctl.Apply(s, step).pcs[step.thread]).None?
  {
    hide Ctl.StartStep, Ctl.AdvanceStep;
    match step
    case Advance(t) => AdvanceBorrowsNothing(s, t);
    case Start(t, op) => StartBorrowsNothing(s, t, op);
    case _ => EventBorrowsNothing(s, step);
  }

  // ---- every composed step -------------------------------------------------------------------------

  lemma EngineKeeps(s: System, step: Ctl.Action)
    requires SystemInv(s) && Enabled(s, Engine(step))
    ensures SystemInv(Apply(s, Engine(step)))
  {
    hide Ctl.Apply, Ctl.Enabled;
    var s' := Apply(s, Engine(step));
    CtlProofs.StepKeeps(s.ctl, step);
    StepFrames(s.ctl, step);
    forall t | 0 <= t < |s'.client.pcs| ensures LinkOk(s', t) {
      assert LinkOk(s, t);
      if step.DropCapability? || step.thread != t {
        LinkSurvives(s.ctl, step, s.client.pcs[t], t);
      } else {
        EngineBorrowsNothing(s.ctl, step);
      }
    }
  }

  /** The parts a composed step by thread `t` must establish. */
  lemma ThreadStepComposes(s: System, s': System, step: Ctl.Action, t: nat)
    requires SystemInv(s) && t < |s.client.pcs| && Ctl.Enabled(s.ctl, step)
    requires s'.ctl == Ctl.Apply(s.ctl, step) && (step.DropCapability? || step.thread == t)
    requires Keeps(s.client, s'.client, t) && Link(s'.ctl, s'.client.pcs[t], s'.ctl.pcs[t])
    ensures SystemInv(s')
  {
    hide Ctl.Apply, Ctl.Enabled;
    CtlProofs.StepKeeps(s.ctl, step);
    StepFrames(s.ctl, step);
    StepComposes(s.client, s'.client, t);
    forall u | 0 <= u < |s'.client.pcs| ensures LinkOk(s', u) {
      assert LinkOk(s, u);
      if u != t { LinkSurvives(s.ctl, step, s.client.pcs[u], u); }
    }
  }

  /** The same when the controller does not move. */
  lemma ClientStepComposes(s: System, s': System, t: nat)
    requires SystemInv(s) && t < |s.client.pcs| && s'.ctl == s.ctl
    requires Keeps(s.client, s'.client, t) && Link(s'.ctl, s'.client.pcs[t], s'.ctl.pcs[t])
    ensures SystemInv(s')
  {
    StepComposes(s.client, s'.client, t);
    forall u | 0 <= u < |s'.client.pcs| ensures LinkOk(s', u) {
      assert LinkOk(s, u);
    }
  }

  lemma DriveKeeps(s: System, t: nat, step: Ctl.Action)
    requires SystemInv(s) && Enabled(s, Drive(t, step))
    ensures SystemInv(Apply(s, Drive(t, step)))
  {
    hide Ctl.Apply, Ctl.Enabled;
    var s' := Apply(s, Drive(t, step));
    var first := Ctl.FirstPoll(s.ctl, step);
    assert LinkOk(s, t) && ThreadOk(s.client, t);
    AfterDriveKeeps(s.client, t, first);
    if s.client.pcs[t].Posted? { PostContinues(s.ctl, step, t); }
    else if first { PostBegins(s.ctl, step, t); }
    else { DriveKeepsLink(s.ctl, step, s.client.pcs[t], t); }
    ThreadStepComposes(s, s', step, t);
  }

  lemma BeginStepKeeps(s: System, t: nat, entry: Pc)
    requires SystemInv(s) && Enabled(s, Begin(t, entry))
    ensures SystemInv(Apply(s, Begin(t, entry)))
  {
    assert LinkOk(s, t) && ThreadOk(s.client, t);
    BeginKeeps(s.client, t, entry);
    ClientStepComposes(s, Apply(s, Begin(t, entry)), t);
  }

  lemma RevokeGateStepKeeps(s: System)
    requires SystemInv(s) && Enabled(s, RevokeGate)
    ensures SystemInv(Apply(s, RevokeGate))
  {
    var s' := Apply(s, RevokeGate);
    RevokeGateKeeps(s.client);
    forall u | 0 <= u < |s'.client.pcs| ensures LinkOk(s', u) {
      assert LinkOk(s, u);
    }
  }

  // ---- the client's own steps -------------------------------------------------------------------------

  /** A call flag is only ever raised for an attempt of this controller. */
  predicate CallsOwn(pc: Pc) {
    (pc.RevalidateFirst? || pc.RevalidateAgain? || pc.Posting?) && pc.called ==> AttemptOf(pc.job).Own?
  }

  lemma IdleLinks(s: Ctl.State, pc: Pc)
    requires CallsOwn(pc)
    ensures Link(s, pc, Ctl.Idle)
  {
  }

  lemma GoCallsOwn(c: Client, t: nat, seen: Observation, ctl: Ctl.Pc)
    requires CanGo(c, t, ctl) && CallsOwn(c.pcs[t])
    ensures CallsOwn(ClientStep(c, t, seen, ctl).pcs[t])
  {
    hide CanEnterSection, CanReachPost, CanExitSection, CanRefresh, CanActivateStep;
    if CanEnterSection(c, t) { EnterCallsOwn(c, t, seen); }
    else if CanReachPost(c, t) { ReachCallsOwn(c, t, seen); }
    else if CanCallController(c, t, ctl) {}
    else if CanExitSection(c, t) { ExitCallsOwn(c, t, seen); }
    else if CanRefresh(c, t) { RefreshCallsOwn(c, t, seen); }
    else { ActivationCallsOwn(c, t, seen); }
  }

  lemma EnterCallsOwn(c: Client, t: nat, seen: Observation)
    requires CanEnterSection(c, t)
    ensures CallsOwn(EnterSection(c, t, seen).pcs[t])
  {
  }

  lemma ReachCallsOwn(c: Client, t: nat, seen: Observation)
    requires CanReachPost(c, t)
    ensures CallsOwn(ReachPost(c, t, seen).pcs[t])
  {
  }

  lemma ExitCallsOwn(c: Client, t: nat, seen: Observation)
    requires CanExitSection(c, t)
    ensures CallsOwn(ExitSection(c, t, seen).pcs[t])
  {
  }

  lemma RefreshCallsOwn(c: Client, t: nat, seen: Observation)
    requires CanRefresh(c, t)
    ensures CallsOwn(RefreshStep(c, t, seen).pcs[t])
  {
  }

  lemma ActivationCallsOwn(c: Client, t: nat, seen: Observation)
    requires CanActivateStep(c, t)
    ensures CallsOwn(ActivationStep(c, t, seen).pcs[t])
  {
  }

  /** With no effect on the controller the thread had no call open. */
  lemma NoEffectMeansIdle(s: System, t: nat)
    requires SystemInv(s) && t < |s.client.pcs| && CanGo(s.client, t, s.ctl.pcs[t])
    requires Effect(s.client.pcs[t], t, ClientBinding(s.client), s.ctl.pcs[t]).None?
    ensures s.ctl.pcs[t].Idle? && CallsOwn(s.client.pcs[t])
  {
    assert LinkOk(s, t);
  }

  /** A call begun or collected leaves the two threads linked. */
  lemma EffectLinks(s: System, t: nat, seen: Observation, effect: Ctl.Action)
    requires SystemInv(s) && t < |s.client.pcs| && CanGo(s.client, t, s.ctl.pcs[t])
    requires Effect(s.client.pcs[t], t, ClientBinding(s.client), s.ctl.pcs[t]) == Some(effect)
    requires Ctl.Enabled(s.ctl, effect)
    ensures effect.DropCapability? || effect.thread == t
    ensures Link(Ctl.Apply(s.ctl, effect), ClientStep(s.client, t, seen, s.ctl.pcs[t]).pcs[t],
                 Ctl.Apply(s.ctl, effect).pcs[t])
  {
    assert LinkOk(s, t);
    if effect.Start? {
      StartedLinks(s, t, seen, effect);
    } else {
      CollectedLinks(s, t, seen, effect);
    }
  }

  lemma StartedLinks(s: System, t: nat, seen: Observation, effect: Ctl.Action)
    requires Identity(s.client.reservation) == Some(s.ctl.binding)
    requires t < |s.client.pcs| && |s.client.pcs| == |s.ctl.pcs| && CanGo(s.client, t, s.ctl.pcs[t])
    requires Effect(s.client.pcs[t], t, ClientBinding(s.client), s.ctl.pcs[t]) == Some(effect)
    requires Ctl.Enabled(s.ctl, effect) && effect.Start?
    ensures effect.thread == t
    ensures Link(Ctl.Apply(s.ctl, effect), ClientStep(s.client, t, seen, s.ctl.pcs[t]).pcs[t],
                 Ctl.Apply(s.ctl, effect).pcs[t])
  {
    var pc := s.client.pcs[t];
    assert CanCallController(s.client, t, s.ctl.pcs[t]);
    assert !CanEnterSection(s.client, t) && !CanReachPost(s.client, t);
  }

  lemma CollectedLinks(s: System, t: nat, seen: Observation, effect: Ctl.Action)
    requires t < |s.client.pcs| && |s.client.pcs| == |s.ctl.pcs| && CanGo(s.client, t, s.ctl.pcs[t]) && LinkOk(s, t)
    requires Effect(s.client.pcs[t], t, ClientBinding(s.client), s.ctl.pcs[t]) == Some(effect)
    requires Ctl.Enabled(s.ctl, effect) && !effect.Start?
    ensures effect.DropCapability? || effect.thread == t
    ensures Link(Ctl.Apply(s.ctl, effect), ClientStep(s.client, t, seen, s.ctl.pcs[t]).pcs[t],
                 Ctl.Apply(s.ctl, effect).pcs[t])
  {
    hide Link;
    var pc' := ClientStep(s.client, t, seen, s.ctl.pcs[t]).pcs[t];
    assert CallsOwn(pc') by { CollectedCallsOwn(s, t, seen, effect); }
    assert Ctl.Apply(s.ctl, effect).pcs[t].Idle? by { CollectedIsIdle(s, t, effect); }
    IdleLinks(Ctl.Apply(s.ctl, effect), pc');
  }

  lemma CollectedCallsOwn(s: System, t: nat, seen: Observation, effect: Ctl.Action)
    requires t < |s.client.pcs| && |s.client.pcs| == |s.ctl.pcs| && CanGo(s.client, t, s.ctl.pcs[t]) && LinkOk(s, t)
    requires Effect(s.client.pcs[t], t, ClientBinding(s.client), s.ctl.pcs[t]) == Some(effect) && !effect.Start?
    ensures CallsOwn(ClientStep(s.client, t, seen, s.ctl.pcs[t]).pcs[t])
  {
    GoCallsOwn(s.client, t, seen, s.ctl.pcs[t]);
  }

  /** What a collected call or a dropped attempt is, seen from the client's point. */
  lemma CollectedEffect(s: System, t: nat, effect: Ctl.Action)
    requires t < |s.client.pcs| && |s.client.pcs| == |s.ctl.pcs| && LinkOk(s, t)
    requires Effect(s.client.pcs[t], t, ClientBinding(s.client), s.ctl.pcs[t]) == Some(effect) && !effect.Start?
    ensures effect == Ctl.Return(t) || (effect.DropCapability? && s.ctl.pcs[t].Idle?)
  {
  }

  lemma ReturnIsIdle(s: Ctl.State, t: nat)
    requires Ctl.Enabled(s, Ctl.Return(t))
    ensures Ctl.Apply(s, Ctl.Return(t)).pcs[t].Idle?
  {
  }

  lemma DropMovesNobody(s: Ctl.State, c: nat)
    requires Ctl.Enabled(s, Ctl.DropCapability(c))
    ensures Ctl.Apply(s, Ctl.DropCapability(c)).pcs == s.pcs
  {
  }

  lemma CollectedIsIdle(s: System, t: nat, effect: Ctl.Action)
    requires t < |s.client.pcs| && |s.client.pcs| == |s.ctl.pcs| && LinkOk(s, t)
    requires Effect(s.client.pcs[t], t, ClientBinding(s.client), s.ctl.pcs[t]) == Some(effect) && !effect.Start?
    requires Ctl.Enabled(s.ctl, effect)
    ensures Ctl.Apply(s.ctl, effect).pcs[t].Idle?
    ensures effect.DropCapability? || effect.thread == t
  {
    hide Ctl.Enabled, Ctl.Apply, Effect, Link;
    CollectedEffect(s, t, effect);
    if effect.DropCapability? { DropMovesNobody(s.ctl, effect.dropped); } else { ReturnIsIdle(s.ctl, t); }
  }

  lemma GoKeeps(s: System, t: nat, seen: Observation)
    requires SystemInv(s) && Enabled(s, Go(t, seen))
    ensures SystemInv(Apply(s, Go(t, seen)))
  {
    hide Ctl.Apply, Ctl.Enabled, Link, CanGo, ClientStep, Effect;
    var s' := Apply(s, Go(t, seen));
    var effect := Effect(s.client.pcs[t], t, ClientBinding(s.client), s.ctl.pcs[t]);
    assert ThreadOk(s.client, t);
    ClientStepKeeps(s.client, t, seen, s.ctl.pcs[t]);
    if effect.None? {
      NoEffectMeansIdle(s, t);
      GoCallsOwn(s.client, t, seen, s.ctl.pcs[t]);
      IdleLinks(s.ctl, s'.client.pcs[t]);
      ClientStepComposes(s, s', t);
    } else {
      EffectLinks(s, t, seen, effect.value);
      ThreadStepComposes(s, s', effect.value, t);
    }
  }

  lemma AbandonLinks(c: Client, t: nat)
    requires t < |c.pcs| && Awaits(c.pcs[t])
    ensures CallsOwn(AbandonStep(c, t).pcs[t])
  {
  }

  lemma CancelIsIdle(s: Ctl.State, t: nat)
    requires Ctl.Enabled(s, Ctl.Cancel(t))
    ensures Ctl.Apply(s, Ctl.Cancel(t)).pcs[t].Idle?
  {
  }

  lemma AbandonStepKeeps(s: System, t: nat)
    requires SystemInv(s) && Enabled(s, Abandon(t))
    ensures SystemInv(Apply(s, Abandon(t)))
  {
    hide Ctl.Apply, Link;
    var s' := Apply(s, Abandon(t));
    assert ThreadOk(s.client, t);
    AbandonKeeps(s.client, t);
    AbandonLinks(s.client, t);
    if s.ctl.pcs[t].InFlight? {
      CancelIsIdle(s.ctl, t);
      IdleLinks(s'.ctl, s'.client.pcs[t]);
      ThreadStepComposes(s, s', Ctl.Cancel(t), t);
    } else {
      IdleLinks(s'.ctl, s'.client.pcs[t]);
      ClientStepComposes(s, s', t);
    }
  }

  lemma SystemStepKeeps(s: System, action: Action)
    requires SystemInv(s) && Enabled(s, action)
    ensures SystemInv(Apply(s, action))
  {
    hide Apply, Enabled, SystemInv;
    match action
    case Engine(step) => EngineKeeps(s, step);
    case Drive(t, step) => DriveKeeps(s, t, step);
    case Begin(t, entry) => BeginStepKeeps(s, t, entry);
    case Go(t, seen) => GoKeeps(s, t, seen);
    case Abandon(t) => AbandonStepKeeps(s, t);
    case RevokeGate => RevokeGateStepKeeps(s);
  }
}
