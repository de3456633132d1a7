/** Who owns which attempt: a submission keeps the one it was handed until it leaves. */
module ClientOwnership {
  import opened Authority
  import opened ControllerIdentity
  import opened ProtocolGate
  import opened ClientProtocol
  import opened ClientProofs
  import opened ClientLink
  import Ctl = SubmissionProtocol
  import CtlProofs = SubmissionProofs

  /** Two submissions never own the same attempt, an owned attempt is live, and an attempt of
      another controller was minted by a successful reservation other than this client's. */
  ghost predicate OwnersOk(s: System) {
    && (forall t, u, c ::
          0 <= t < |s.client.pcs| && 0 <= u < |s.client.pcs| && Owns(s.client.pcs[t], c) && Owns(s.client.pcs[u], c)
          ==> t == u)
    && (forall t, c :: 0 <= t < |s.client.pcs| && Owns(s.client.pcs[t], c) ==> c in s.ctl.caps)
    && (forall t :: 0 <= t < |s.client.pcs| ==> ForeignOk(s.client, s.client.pcs[t]))
  }

  predicate ForeignOk(c: Client, pc: Pc) {
    InSubmission(pc) && AttemptOf(pc.job).Foreign? ==>
      var r := AttemptOf(pc.job).reservation;
      r != c.reservation && Identity(r).Some?
  }

  // ---- a submission keeps its job ------------------------------------------------------------

  /** The attempt is already past its POST, however that went, or was never to be posted. */
  predicate PastPosting(pc: Pc) {
    pc.Posted? || pc.Marking? || pc.AfterPost? || pc.Quarantining? || pc.Leave?
  }

  predicate JobKept(pc: Pc, pc': Pc) {
    && (InSubmission(pc') ==> InSubmission(pc) && pc'.job == pc.job)
    && (PastPosting(pc) && InSubmission(pc') ==> PastPosting(pc'))
    && (InSubmission(pc) && !InSubmission(pc') ==> pc == Leave(pc.job, false, false))
  }

  lemma EnterKeepsJob(c: Client, t: nat, seen: Observation)
    requires CanEnterSection(c, t)
    ensures JobKept(c.pcs[t], EnterSection(c, t, seen).pcs[t])
  {
  }

  lemma ReachKeepsJob(c: Client, t: nat, seen: Observation)
    requires CanReachPost(c, t)
    ensures JobKept(c.pcs[t], ReachPost(c, t, seen).pcs[t])
  {
  }

  lemma CallKeepsJob(c: Client, t: nat, seen: Observation, ctl: Ctl.Pc)
    requires CanCallController(c, t, ctl)
    ensures JobKept(c.pcs[t], CallController(c, t, seen, ctl).pcs[t])
  {
    hide IsIndeterminate, RevokesAuthority, ForeignPasses;
  }

  lemma ExitKeepsJob(c: Client, t: nat, seen: Observation)
    requires CanExitSection(c, t)
    ensures JobKept(c.pcs[t], ExitSection(c, t, seen).pcs[t])
  {
  }

  lemma RefreshKeepsJob(c: Client, t: nat, seen: Observation)
    requires CanRefresh(c, t)
    ensures JobKept(c.pcs[t], RefreshStep(c, t, seen).pcs[t])
  {
  }

  lemma ActivationKeepsJob(c: Client, t: nat, seen: Observation)
    requires CanActivateStep(c, t)
    ensures JobKept(c.pcs[t], ActivationStep(c, t, seen).pcs[t])
  {
  }

  lemma AbandonKeepsJob(c: Client, t: nat)
    requires t < |c.pcs| && Awaits(c.pcs[t])
    ensures JobKept(c.pcs[t], AbandonStep(c, t).pcs[t])
  {
  }

  lemma GoKeepsJob(c: Client, t: nat, seen: Observation, ctl: Ctl.Pc)
    requires CanGo(c, t, ctl)
    ensures JobKept(c.pcs[t], ClientStep(c, t, seen, ctl).pcs[t])
  {
    hide CanEnterSection, CanReachPost, CanCallController, CanExitSection, CanRefresh, CanActivateStep, JobKept;
    if CanEnterSection(c, t) { EnterKeepsJob(c, t, seen); }
    else if CanReachPost(c, t) { ReachKeepsJob(c, t, seen); }
    else if CanCallController(c, t, ctl) { CallKeepsJob(c, t, seen, ctl); }
    else if CanExitSection(c, t) { ExitKeepsJob(c, t, seen); }
    else if CanRefresh(c, t) { RefreshKeepsJob(c, t, seen); }
    else { ActivationKeepsJob(c, t, seen); }
  }

  // ---- how a composed step moves jobs and attempts --------------------------------------------

  /** The controller step a composed step performs, if any. */
  function CtlStepOf(s: System, action: Action): Option<Ctl.Action> {
    match action
    case Engine(step) => Some(step)
    case Drive(_, step) => Some(step)
    case Go(t, _) =>
      if t < |s.client.pcs| && t < |s.ctl.pcs|
      then Effect(s.client.pcs[t], t, ClientBinding(s.client), s.ctl.pcs[t]) else None
    case Abandon(t) => if t < |s.ctl.pcs| && s.ctl.pcs[t].InFlight? then Some(Ctl.Cancel(t)) else None
    case _ => None
  }

  lemma StepMovesController(s: System, action: Action)
    requires Enabled(s, action)
    ensures CtlAllows(s.ctl, CtlStepOf(s, action))
    ensures Apply(s, action).ctl == CtlAfter(s.ctl, CtlStepOf(s, action))
  {
    hide Ctl.Apply;
  }

  /** A composed step moves at most its own thread, and that one keeps its job. */
  ghost predicate JobsMove(s: System, s': System, action: Action) {
    && |s'.client.pcs| == |s.client.pcs| && s'.client.reservation == s.client.reservation
    && forall u :: 0 <= u < |s.client.pcs| ==>
                     s'.client.pcs[u] == s.client.pcs[u]
                     || (action == Begin(u, s'.client.pcs[u]) && s.client.pcs[u].Out?)
                     || (!action.Begin? && JobKept(s.client.pcs[u], s'.client.pcs[u]))
  }

  lemma StepMovesJobs(s: System, action: Action)
    requires SystemInv(s) && Enabled(s, action)
    ensures JobsMove(s, Apply(s, action), action)
  {
    hide Ctl.Apply, Ctl.Enabled, CtlProofs.Inv, ClientStep, AbandonStep, CanGo, InSubmission;
    match action
    case Go(t, seen) =>
      assert ThreadOk(s.client, t);
      ClientStepKeeps(s.client, t, seen, s.ctl.pcs[t]);
      GoKeepsJob(s.client, t, seen, s.ctl.pcs[t]);
    case Abandon(t) =>
      assert ThreadOk(s.client, t);
      AbandonKeeps(s.client, t);
      AbandonKeepsJob(s.client, t);
    case Drive(t, step) => DriveKeepsJob(s.client, t, Ctl.FirstPoll(s.ctl, step));
    case _ =>
  }

  lemma DriveKeepsJob(c: Client, t: nat, first: bool)
    requires t < |c.pcs|
    ensures AfterDrive(c, t, first) == c.(pcs := c.pcs[t := AfterDrive(c, t, first).pcs[t]])
    ensures AfterDrive(c, t, first).pcs[t] == c.pcs[t] || JobKept(c.pcs[t], AfterDrive(c, t, first).pcs[t])
  {
  }

  /** An owned attempt disappears only when its owner leaves. */
  lemma OnlyLeavingDrops(s: System, action: Action, c: nat, t: nat)
    requires SystemInv(s) && Enabled(s, action) && c in s.ctl.caps && c !in Apply(s, action).ctl.caps
    requires t < |s.client.pcs| && Owns(s.client.pcs[t], c)
    ensures action.Go? && action.thread < |s.client.pcs| && Owns(s.client.pcs[action.thread], c)
    ensures s.client.pcs[action.thread] == Leave(s.client.pcs[action.thread].job, false, false)
  {
    hide Ctl.Apply, Ctl.Enabled, ClientStep, AbandonStep, CanGo;
    StepMovesController(s, action);
    var step := CtlStepOf(s, action).value;
    StepFrames(s.ctl, step);
    assert step == Ctl.DropCapability(c);
    match action
    case Engine(_) => assert false;
    case Drive(_, _) => assert false;
    case Go(u, _) =>
      assert Effect(s.client.pcs[u], u, ClientBinding(s.client), s.ctl.pcs[u]) == Some(Ctl.DropCapability(c));
      assert s.client.pcs[u].Leave?;
    case Abandon(_) => assert false;
    case _ => assert false;
  }

  lemma StepKeepsOwners(s: System, action: Action)
    requires SystemInv(s) && Enabled(s, action) && OwnersOk(s)
    ensures OwnersOk(Apply(s, action))
  {
    hide Apply, Enabled, SystemInv, InSubmission, JobKept, Owns;
    var s' := Apply(s, action);
    StepMovesJobs(s, action);
    forall t, c | 0 <= t < |s'.client.pcs| && Owns(s'.client.pcs[t], c) ensures c in s'.ctl.caps {
      OwnerStays(s, action, t, c);
    }
    forall t, u, c | 0 <= t < |s'.client.pcs| && 0 <= u < |s'.client.pcs|
                     && Owns(s'.client.pcs[t], c) && Owns(s'.client.pcs[u], c)
      ensures t == u
    {
      OwnerStays(s, action, t, c);
      OwnerStays(s, action, u, c);
    }
    forall t | 0 <= t < |s'.client.pcs| ensures ForeignOk(s'.client, s'.client.pcs[t]) {
      ForeignStays(s, action, t);
    }
  }

  lemma OwnerStays(s: System, action: Action, t: nat, c: nat)
    requires SystemInv(s) && Enabled(s, action) && OwnersOk(s)
    requires t < |s.client.pcs| && Owns(Apply(s, action).client.pcs[t], c)
    ensures c in Apply(s, action).ctl.caps
    ensures Owns(s.client.pcs[t], c) || (action.Begin? && action.thread == t)
    ensures !Owns(s.client.pcs[t], c) ==> forall u :: 0 <= u < |s.client.pcs| ==> !Owns(s.client.pcs[u], c)
  {
    hide Apply, Enabled, SystemInv;
    StepMovesJobs(s, action);
    if action.Begin? {
      BeginChecksOwner(s, action, t, c);
    } else if c !in Apply(s, action).ctl.caps {
      assert Owns(s.client.pcs[t], c);
      OnlyLeavingDrops(s, action, c, t);
      LeavingLets(s, action);
    }
  }

  lemma BeginChecksOwner(s: System, action: Action, t: nat, c: nat)
    requires Enabled(s, action) && action.Begin? && OwnersOk(s)
    requires t < |s.client.pcs| && Owns(Apply(s, action).client.pcs[t], c)
    ensures c in s.ctl.caps && Apply(s, action).ctl == s.ctl
    ensures Owns(s.client.pcs[t], c) || (action.thread == t && forall u :: 0 <= u < |s.client.pcs| ==> !Owns(s.client.pcs[u], c))
  {
  }

  lemma LeavingLets(s: System, action: Action)
    requires Enabled(s, action) && action.Go? && action.thread < |s.client.pcs|
    requires s.client.pcs[action.thread].Leave? && !s.client.pcs[action.thread].guard && !s.client.pcs[action.thread].serial
    ensures Apply(s, action).client.pcs[action.thread].Out?
  {
    hide Ctl.Apply, Ctl.Enabled;
  }

  lemma ForeignStays(s: System, action: Action, t: nat)
    requires SystemInv(s) && Enabled(s, action) && OwnersOk(s) && t < |s.client.pcs|
    ensures ForeignOk(Apply(s, action).client, Apply(s, action).client.pcs[t])
  {
    hide Apply, Enabled, SystemInv, Identity;
    StepMovesJobs(s, action);
    assert ForeignOk(s.client, s.client.pcs[t]);
    if action.Begin? { BeginChecksReservation(s, action, t); }
  }

  lemma BeginChecksReservation(s: System, action: Action, t: nat)
    requires Enabled(s, action) && action.Begin? && t < |s.client.pcs| && ForeignOk(s.client, s.client.pcs[t])
    ensures ForeignOk(Apply(s, action).client, Apply(s, action).client.pcs[t])
  {
    hide Identity;
  }

  /** An attempt of another controller never passes the comparison: its binding is the answer
      of another reservation of the same counter. */
  lemma ForeignNeverPasses(s: System, t: nat, ok: bool)
    requires SystemInv(s) && OwnersOk(s) && t < |s.client.pcs| && InSubmission(s.client.pcs[t])
    ensures forall p :: !ForeignPasses(s.client, s.client.pcs[t].job, p, ok)
  {
    assert ForeignOk(s.client, s.client.pcs[t]);
    if AttemptOf(s.client.pcs[t].job).Foreign? {
      IdentitiesDiffer(AttemptOf(s.client.pcs[t].job).reservation, s.client.reservation);
    }
  }
}
