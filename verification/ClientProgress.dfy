/** No thread of the client is ever stuck: what it can wait for, and that nothing else stops it. */
module ClientProgress {
  import opened Authority
  import opened ProtocolGate
  import opened ClientProtocol
  import opened ClientProofs
  import opened ClientLink
  import opened ClientOwnership
  import opened ClientSafety
  import Ctl = SubmissionProtocol
  import CtlProofs = SubmissionProofs

  // ---- no client call is ever stuck -----------------------------------------------------------------

  /** What a client thread at `pc` may have to wait for: a mutex, a lock, or its own call into the
      controller. */
  predicate Waits(c: Client, pc: Pc, ctl: Ctl.Pc) {
    match pc
    case WantSerial(_) => c.serial.Some?
    case WantPermit(_) | MatchFirst(_, _, _) | MatchAgain(_, _, _, _) | MatchSigned(_, _, _) => c.gateHolder.Some?
    case Marking(_, _) | AfterPost(_, _, _) | Quarantining(_, _) => c.gateHolder.Some?
    case RevalidateFirst(_, _, called) => called && !ctl.Idle? && !ctl.Confirmed?
    case RevalidateAgain(_, _, _, called) => called && !ctl.Idle? && !ctl.Confirmed?
    case Posting(_, _, _, called) => called && !ctl.Idle?
    case Posted(_, _) => !ctl.Idle?
    case WantRefresh | WantActivation(_) => c.refreshing.Some?
    case CloseGate | WantGate(_) => c.gateHolder.Some?
    case Installing(_) => c.readers != {}
    case _ => false
  }

  lemma CanGoIff(c: Client, t: nat, ctl: Ctl.Pc)
    requires t < |c.pcs| && !c.pcs[t].Out?
    ensures CanGo(c, t, ctl) <==> !Waits(c, c.pcs[t], ctl)
  {
  }

  /** A begun transport is of the attempt its submission was handed. */
  predicate PollsOwn(client: Pc, ctl: Ctl.Pc) {
    client.Posted? && Ctl.Borrowed(ctl).Some? ==> AttemptOf(client.job) == Own(Ctl.Borrowed(ctl).value)
  }

  ghost predicate AllPollOwn(s: System) {
    |s.client.pcs| == |s.ctl.pcs| && forall t :: 0 <= t < |s.client.pcs| ==> PollsOwn(s.client.pcs[t], s.ctl.pcs[t])
  }

  lemma DriveKeepsAttempt(s: Ctl.State, step: Ctl.Action, t: nat)
    requires Ctl.Enabled(s, step) && t < |s.pcs| && (FromPoll(s.pcs[t]) || s.pcs[t].Validated?)
    requires step == Ctl.Advance(t) || step == Ctl.UpgradeFails(t)
             || (step.FirstPollReturns? && step.thread == t) || (step.LaterPoll? && step.thread == t)
    ensures Ctl.Borrowed(Ctl.Apply(s, step).pcs[t]).None? || Ctl.Borrowed(Ctl.Apply(s, step).pcs[t]) == Ctl.Borrowed(s.pcs[t])
  {
    if step.Advance? {
      AdvanceIsPoll(s, t);
      hide Ctl.Apply, Ctl.Enabled, Ctl.PollStep, Ctl.Borrowed;
      PollStepKeepsAttempt(s, t);
    } else {
      hide Ctl.Apply, Ctl.Enabled, Ctl.Borrowed;
      EventKeepsAttempt(s, step, t);
    }
  }

  lemma AdvanceIsPoll(s: Ctl.State, t: nat)
    requires Ctl.CanAdvance(s, t) && (FromPoll(s.pcs[t]) || s.pcs[t].Validated?)
    ensures Ctl.AtPoll(s.pcs[t]) && Ctl.Apply(s, Ctl.Advance(t)) == Ctl.PollStep(s, t)
  {
    hide Ctl.RevokeStep, Ctl.AuthorizeStep, Ctl.LockStep, Ctl.ActivateStep, Ctl.CheckStep, Ctl.PollStep;
  }

  lemma EventKeepsAttempt(s: Ctl.State, step: Ctl.Action, t: nat)
    requires Ctl.Enabled(s, step) && t < |s.pcs|
    requires step == Ctl.UpgradeFails(t)
             || (step.FirstPollReturns? && step.thread == t) || (step.LaterPoll? && step.thread == t)
    ensures Ctl.Borrowed(Ctl.Apply(s, step).pcs[t]).None? || Ctl.Borrowed(Ctl.Apply(s, step).pcs[t]) == Ctl.Borrowed(s.pcs[t])
  {
    hide Ctl.AdvanceStep, Ctl.StartStep, Ctl.Borrowed;
    var pc, pc' := s.pcs[t], Ctl.Apply(s, step).pcs[t];
    assert pc'.Idle? || pc' == pc || (pc.Polling? && (pc' == Ctl.InFlight(pc.cap) || pc' == Ctl.PollClear(pc.cap)));
    PolledBorrows(pc);
    PolledBorrows(pc');
  }

  lemma PolledBorrows(pc: Ctl.Pc)
    ensures pc.Idle? ==> Ctl.Borrowed(pc) == None
    ensures pc.Polling? || pc.InFlight? || pc.PollClear? ==> Ctl.Borrowed(pc) == Some(pc.cap)
  {
  }

  lemma PollStepKeepsAttempt(s: Ctl.State, t: nat)
    requires t < |s.pcs| && Ctl.AtPoll(s.pcs[t])
    ensures Ctl.Borrowed(Ctl.PollStep(s, t).pcs[t]).None? || Ctl.Borrowed(Ctl.PollStep(s, t).pcs[t]) == Ctl.Borrowed(s.pcs[t])
  {
  }

  lemma DrivePollsOwn(s: System, t: nat, step: Ctl.Action)
    requires SystemInv(s) && Enabled(s, Drive(t, step)) && PollsOwn(s.client.pcs[t], s.ctl.pcs[t])
    ensures var s' := Apply(s, Drive(t, step)); PollsOwn(s'.client.pcs[t], s'.ctl.pcs[t])
  {
    hide Ctl.Apply, Ctl.Enabled, CtlProofs.Inv, Ctl.Borrowed;
    assert LinkOk(s, t);
    if s.client.pcs[t].Posted? || Ctl.FirstPoll(s.ctl, step) {
      DriveKeepsAttempt(s.ctl, step, t);
      ValidatedBorrows(s.ctl.pcs[t]);
    }
  }

  lemma ValidatedBorrows(pc: Ctl.Pc)
    ensures pc.Validated? ==> Ctl.Borrowed(pc) == Some(pc.cap)
    ensures pc.Idle? ==> Ctl.Borrowed(pc) == None
  {
  }

  /** Nobody else's step moves a thread's call, nor its place in the client. */
  lemma OthersKeepCall(s: System, action: Action, t: nat)
    requires SystemInv(s) && Enabled(s, action) && t < |s.client.pcs|
    requires action.Engine? || action.RevokeGate? || action.thread != t
    ensures Apply(s, action).client.pcs[t] == s.client.pcs[t]
    ensures !s.client.pcs[t].Out? ==> Apply(s, action).ctl.pcs[t] == s.ctl.pcs[t]
  {
    hide Ctl.Apply, Ctl.Enabled, CtlStepOf, ClientStep, AbandonStep, CanGo;
    StepMovesClient(s, action);
    StepMovesController(s, action);
    if CtlStepOf(s, action).Some? {
      StepFrames(s.ctl, CtlStepOf(s, action).value);
      StepIsItsThreads(s, action);
    }
  }

  /** The controller step of a composed step is of the same thread, or drops an attempt. */
  lemma StepIsItsThreads(s: System, action: Action)
    requires Enabled(s, action) && CtlStepOf(s, action).Some?
    ensures var step := CtlStepOf(s, action).value;
            || step.DropCapability?
            || (action.Engine? && step.thread < |s.client.pcs| && s.client.pcs[step.thread].Out?)
            || (!action.Engine? && !action.RevokeGate? && step.thread == action.thread)
  {
    hide Ctl.Apply, Ctl.Enabled, ClientStep, AbandonStep, CanGo;
  }

  lemma StepPollsOwn(s: System, action: Action, t: nat)
    requires SystemInv(s) && Enabled(s, action) && t < |s.client.pcs| && PollsOwn(s.client.pcs[t], s.ctl.pcs[t])
    ensures PollsOwn(Apply(s, action).client.pcs[t], Apply(s, action).ctl.pcs[t])
  {
    hide Ctl.Apply, Ctl.Enabled, CtlProofs.Inv, ClientStep, AbandonStep, CanGo, Ctl.Borrowed;
    if action.Engine? || action.RevokeGate? || action.thread != t {
      OthersKeepCall(s, action, t);
    } else {
      match action
      case Drive(_, step) => DrivePollsOwn(s, t, step);
      case Go(_, seen) => GoPollsOwn(s, t, seen);
      case Abandon(_) => AbandonedIsNotPosted(s.client, t);
      case _ =>
    }
  }

  lemma AbandonedIsNotPosted(c: Client, t: nat)
    requires t < |c.pcs| && Awaits(c.pcs[t])
    ensures !AbandonStep(c, t).pcs[t].Posted?
  {
  }

  /** Going on reaches a begun transport only with an attempt of another controller. */
  lemma GoPollsOwn(s: System, t: nat, seen: Observation)
    requires SystemInv(s) && Enabled(s, Go(t, seen))
    ensures var s' := Apply(s, Go(t, seen)); PollsOwn(s'.client.pcs[t], s'.ctl.pcs[t])
  {
    hide Ctl.Apply, Ctl.Enabled, CtlProofs.Inv, CanGo, ClientStep, Effect;
    var pc' := ClientStep(s.client, t, seen, s.ctl.pcs[t]).pcs[t];
    if pc'.Posted? {
      PostedByGo(s.client, t, seen, s.ctl.pcs[t]);
      assert LinkOk(s, t);
      NoEffectWhenForeign(s.client.pcs[t], t, ClientBinding(s.client), s.ctl.pcs[t]);
    }
  }

  lemma PostedByGo(c: Client, t: nat, seen: Observation, ctl: Ctl.Pc)
    requires CanGo(c, t, ctl) && ClientStep(c, t, seen, ctl).pcs[t].Posted?
    ensures c.pcs[t].Posting? && !c.pcs[t].called && !AttemptOf(c.pcs[t].job).Own?
  {
    hide CanEnterSection, CanReachPost, CanExitSection, CanRefresh, CanActivateStep;
    hide EnterSection, ReachPost, ExitSection, RefreshStep, ActivationStep;
    if CanEnterSection(c, t) { EnterPostsNothing(c, t, seen); }
    else if CanReachPost(c, t) { ReachPostsNothing(c, t, seen); }
    else if CanCallController(c, t, ctl) {}
    else if CanExitSection(c, t) { ExitPostsNothing(c, t, seen); }
    else { OutsidePostsNothing(c, t, seen); }
  }

  lemma EnterPostsNothing(c: Client, t: nat, seen: Observation)
    requires CanEnterSection(c, t)
    ensures !EnterSection(c, t, seen).pcs[t].Posted?
  {
  }

  lemma ReachPostsNothing(c: Client, t: nat, seen: Observation)
    requires CanReachPost(c, t)
    ensures !ReachPost(c, t, seen).pcs[t].Posted?
  {
  }

  lemma ExitPostsNothing(c: Client, t: nat, seen: Observation)
    requires CanExitSection(c, t)
    ensures !ExitSection(c, t, seen).pcs[t].Posted?
  {
  }

  lemma OutsidePostsNothing(c: Client, t: nat, seen: Observation)
    ensures CanRefresh(c, t) ==> !RefreshStep(c, t, seen).pcs[t].Posted?
    ensures CanActivateStep(c, t) ==> !ActivationStep(c, t, seen).pcs[t].Posted?
  {
  }

  lemma NoEffectWhenForeign(pc: Pc, t: nat, binding: nat, ctl: Ctl.Pc)
    requires pc.Posting? && !AttemptOf(pc.job).Own?
    ensures Effect(pc, t, binding, ctl) == None
  {
  }

  lemma {:induction false} RunPollsOwn(states: seq<System>, actions: seq<Action>, i: nat)
    requires IsRun(states, actions) && i < |states|
    ensures AllPollOwn(states[i])
  {
    hide Apply, Enabled, SystemInv, OwnersOk, PollsOwn, Initial;
    if i == 0 {
      NothingIsPolledYet(states[0]);
    } else {
      RunPollsOwn(states, actions, i - 1);
      RunKeeps(states, actions, i - 1);
      RunKeeps(states, actions, i);
      assert StepAt(states, actions, i - 1);
      SameThreads(states[i]);
      forall t | 0 <= t < |states[i].client.pcs| ensures PollsOwn(states[i].client.pcs[t], states[i].ctl.pcs[t]) {
        StepPollsOwn(states[i - 1], actions[i - 1], t);
      }
    }
  }

  lemma NothingIsPolledYet(s: System)
    requires Initial(s)
    ensures AllPollOwn(s)
  {
  }

  lemma SameThreads(s: System)
    requires SystemInv(s)
    ensures |s.client.pcs| == |s.ctl.pcs|
  {
  }

  /** Whoever borrows an attempt in the controller owns it in the client. */
  lemma BorrowerOwns(s: System, u: nat, c: nat)
    requires SystemInv(s) && AllPollOwn(s) && u < |s.client.pcs| && Ctl.Borrowed(s.ctl.pcs[u]) == Some(c)
    ensures Owns(s.client.pcs[u], c) && !s.client.pcs[u].Leave?
  {
    hide CtlProofs.Inv, ClientInv;
    assert LinkOk(s, u) && PollsOwn(s.client.pcs[u], s.ctl.pcs[u]);
  }

  /** An attempt whose owner is leaving is borrowed by nobody. */
  lemma LeaverMayDrop(s: System, t: nat, c: nat)
    requires SystemInv(s) && OwnersOk(s) && AllPollOwn(s) && t < |s.client.pcs|
    requires Owns(s.client.pcs[t], c) && s.client.pcs[t].Leave?
    ensures Ctl.Enabled(s.ctl, Ctl.DropCapability(c))
  {
    hide CtlProofs.Inv, ClientInv, LinkOk, Ctl.Borrowed, Owns, PollsOwn;
    forall u | 0 <= u < |s.ctl.pcs| ensures Ctl.Borrowed(s.ctl.pcs[u]) != Some(c) {
      if Ctl.Borrowed(s.ctl.pcs[u]) == Some(c) { BorrowerOwns(s, u, c); }
    }
  }

  /** The controller allows what the client thread wants of it. */
  lemma EffectIsAllowed(s: System, t: nat)
    requires SystemInv(s) && OwnersOk(s) && AllPollOwn(s) && t < |s.client.pcs| && !s.client.pcs[t].Out?
    requires !Waits(s.client, s.client.pcs[t], s.ctl.pcs[t])
    ensures CtlAllows(s.ctl, Effect(s.client.pcs[t], t, ClientBinding(s.client), s.ctl.pcs[t]))
  {
    hide ClientInv, CtlProofs.Inv, ForeignOk;
    assert LinkOk(s, t);
    var pc := s.client.pcs[t];
    if InSubmission(pc) && AttemptOf(pc.job).Own? {
      assert Owns(pc, AttemptOf(pc.job).cap);
      if pc.Leave? { LeaverMayDrop(s, t, AttemptOf(pc.job).cap); }
    }
  }

  /** In every state of every run a client thread can go on, whatever it is then answered, unless
      it waits for a mutex or lock somebody holds, or for its own call into the controller: a
      refused or confirmed call can always be collected, and an attempt always be given back. */
  lemma GoesOnIffNotWaiting(states: seq<System>, actions: seq<Action>, i: nat, t: nat, seen: Observation)
    requires IsRun(states, actions) && i < |states| && t < |states[i].client.pcs| && !states[i].client.pcs[t].Out?
    ensures t < |states[i].ctl.pcs|
    ensures Enabled(states[i], Go(t, seen)) <==> !Waits(states[i].client, states[i].client.pcs[t], states[i].ctl.pcs[t])
  {
    hide Apply, SystemInv, OwnersOk, CanGo, Effect, CtlAllows, Waits, AllPollOwn;
    var s := states[i];
    RunKeeps(states, actions, i);
    RunPollsOwn(states, actions, i);
    SameThreads(s);
    CanGoIff(s.client, t, s.ctl.pcs[t]);
    if !Waits(s.client, s.client.pcs[t], s.ctl.pcs[t]) { EffectIsAllowed(s, t); }
  }
}
