/** Safety of the client and its controller together, over every run. */
module ClientSafety {
  import opened Authority
  import opened ProtocolGate
  import opened ClientProtocol
  import opened ClientProofs
  import opened ClientLink
  import opened ClientOwnership
  import Ctl = SubmissionProtocol
  import CtlProofs = SubmissionProofs
  import CtlSafety = SubmissionSafety
  import Errors = OperationErrors

  lemma InitialIsSound(s: System)
    requires Initial(s)
    ensures SystemInv(s) && OwnersOk(s)
  {
    CtlSafety.InitialIsSound(s.ctl);
  }

  lemma {:induction false} RunKeeps(states: seq<System>, actions: seq<Action>, i: nat)
    requires IsRun(states, actions) && i < |states|
    ensures SystemInv(states[i]) && OwnersOk(states[i])
  {
    hide Apply, Enabled, Initial, SystemInv, OwnersOk;
    if i == 0 {
      InitialIsSound(states[0]);
    } else {
      RunKeeps(states, actions, i - 1);
      assert StepAt(states, actions, i - 1);
      SystemStepKeeps(states[i - 1], actions[i - 1]);
      StepKeepsOwners(states[i - 1], actions[i - 1]);
    }
  }

  // ---- how the client's shared state moves -------------------------------------------------

  /** One composed step, as the client's shared state sees it. */
  ghost predicate ClientMoves(s: System, s': System, action: Action) {
    match action
    case Engine(_) => s'.client == s.client
    case RevokeGate => s'.client == s.client.(gate := Close(s.client.gate))
    case _ => Guarantee(s.client, s'.client, action.thread)
  }

  lemma StepMovesClient(s: System, action: Action)
    requires SystemInv(s) && Enabled(s, action)
    ensures ClientMoves(s, Apply(s, action), action)
    ensures SystemInv(Apply(s, action))
  {
    hide Ctl.Apply, Ctl.Enabled, CtlProofs.Inv, ClientStep, AbandonStep, Guarantee;
    SystemStepKeeps(s, action);
    if !action.Engine? && !action.RevokeGate? { assert ThreadOk(s.client, action.thread); }
    match action
    case Drive(t, step) => AfterDriveKeeps(s.client, t, Ctl.FirstPoll(s.ctl, step));
    case Begin(t, entry) => BeginKeeps(s.client, t, entry);
    case Go(t, seen) => ClientStepKeeps(s.client, t, seen, s.ctl.pcs[t]);
    case Abandon(t) => AbandonKeeps(s.client, t);
    case _ =>
  }

  // ---- the first poll of a POST --------------------------------------------------------------

  /** The submission whose transport receives its first poll, and that everything it
      depends on agrees at that instant. */
  ghost predicate AllAgree(s: System, t: nat) {
    && t < |s.client.pcs| && t < |s.ctl.pcs| && s.client.pcs[t].Posting?
    && AttemptOf(s.client.pcs[t].job).Own?
    && var p, c := s.client.pcs[t].permit, AttemptOf(s.client.pcs[t].job).cap;
       && s.client.installed == Some(p)
       && s.client.pcs[t].order == p.version
       && c in s.ctl.caps && s.ctl.caps[c].binding == s.ctl.binding == ClientBinding(s.client)
       && s.ctl.caps[c].grant.authority == p
       && s.ctl.active == Some(s.ctl.caps[c].grant) && s.ctl.epoch == s.ctl.caps[c].grant.epoch
       && s.ctl.holder == Some(t) && s.client.serial == Some(t) && t in s.client.readers
       && GateFits(s.client.gate, p)
  }

  lemma OnlyClientsPost(s: System, action: Action)
    requires SystemInv(s) && OwnersOk(s) && Enabled(s, action) && FirstPost(s, action)
    ensures action.Drive? && action.step == Ctl.Advance(action.thread)
    ensures s.client.pcs[action.thread].Posting? && s.client.pcs[action.thread].called
  {
    if action.Go? {
      ForeignNeverPasses(s, action.thread, action.seen.ok);
      assert false;
    } else {
      assert CtlProofs.ThreadOk(s.ctl, action.step.thread);
      assert LinkOk(s, action.step.thread);
    }
  }

  /** At every first poll of a POST the installed pair, the gate permit, the attempt, the
      controller's active grant and the order's protocol version all agree, and the
      submission owns the serial section. The attempt is of this client's controller: one of
      another controller carries the answer of another reservation, and never gets through
      the comparison of bindings. */
  lemma FirstPostAllAgree(states: seq<System>, actions: seq<Action>, i: nat)
    requires IsRun(states, actions) && i < |actions| && FirstPost(states[i], actions[i])
    ensures actions[i].Drive? && AllAgree(states[i], actions[i].thread)
  {
    hide Apply;
    RunKeeps(states, actions, i);
    assert StepAt(states, actions, i);
    OnlyClientsPost(states[i], actions[i]);
    var s, t := states[i], actions[i].thread;
    assert LinkOk(s, t) && ThreadOk(s.client, t);
    assert CtlProofs.ThreadOk(s.ctl, t);
  }

  lemma UnderwayHoldsSerial(s: System, t: nat)
    requires SystemInv(s) && t < |s.ctl.pcs| && Ctl.Underway(s.ctl.pcs[t])
    ensures s.client.serial == Some(t)
  {
    hide CtlProofs.Inv, Knows;
    assert LinkOk(s, t) && ThreadOk(s.client, t);
  }

  /** The serial section at work: at most one thread's transport is begun and unfinished. */
  lemma OneTransportAtATime(states: seq<System>, actions: seq<Action>, i: nat, t: nat, u: nat)
    requires IsRun(states, actions) && i < |states|
    requires t < |states[i].ctl.pcs| && Ctl.Underway(states[i].ctl.pcs[t])
    requires u < |states[i].ctl.pcs| && Ctl.Underway(states[i].ctl.pcs[u])
    ensures t == u
  {
    hide SystemInv, OwnersOk;
    RunKeeps(states, actions, i);
    UnderwayHoldsSerial(states[i], t);
    UnderwayHoldsSerial(states[i], u);
  }

  // ---- the installed pair -----------------------------------------------------------------------

  /** The gate is never open for anything but the installed authority. */
  lemma OpenGateMatchesInstalled(states: seq<System>, actions: seq<Action>, i: nat)
    requires IsRun(states, actions) && i < |states| && states[i].client.gate.state.Active?
    ensures states[i].client.installed == Some(states[i].client.gate.state.authority)
    ensures states[i].client.gate.state.authority.generation > states[i].client.gate.watermark
  {
    RunKeeps(states, actions, i);
  }

  /** Installed generations never decrease, and one generation names one pair. */
  lemma {:induction false} InstalledGenerationsIncrease(
    states: seq<System>, actions: seq<Action>, i: nat, j: nat)
    requires IsRun(states, actions) && i <= j < |states|
    ensures Generation(states[i].client.installed) <= Generation(states[j].client.installed)
    ensures states[i].client.installed != states[j].client.installed ==>
              Generation(states[i].client.installed) < Generation(states[j].client.installed)
    ensures states[i].client.gate.watermark <= states[j].client.gate.watermark
    decreases j
  {
    hide Apply, Enabled, SystemInv;
    if i < j {
      InstalledGenerationsIncrease(states, actions, i, j - 1);
      RunKeeps(states, actions, j - 1);
      assert StepAt(states, actions, j - 1);
      StepMovesClient(states[j - 1], actions[j - 1]);
    }
  }

  // ---- after an indeterminate answer ---------------------------------------------------------------

  /** Nothing at or below generation `g` can be posted any more. */
  ghost predicate NewerOnly(c: Client, g: nat) {
    && g <= c.gate.watermark
    && forall t :: 0 <= t < |c.pcs| && Matched(c.pcs[t]) ==> c.pcs[t].permit.generation > g
  }

  /** How a thread comes to hold a matched permit. */
  predicate MatchedFrom(c: Client, pc: Pc, pc': Pc) {
    Matched(pc') ==>
      || (Matched(pc) && pc'.permit == pc.permit)
      || (pc.MatchFirst? && pc'.permit == pc.permit && Matches(c.gate, pc.permit))
  }

  lemma EnterMatches(c: Client, t: nat, seen: Observation)
    requires CanEnterSection(c, t)
    ensures MatchedFrom(c, c.pcs[t], EnterSection(c, t, seen).pcs[t])
  {
  }

  lemma ReachMatches(c: Client, t: nat, seen: Observation)
    requires CanReachPost(c, t)
    ensures MatchedFrom(c, c.pcs[t], ReachPost(c, t, seen).pcs[t])
  {
  }

  lemma CallMatches(c: Client, t: nat, seen: Observation, ctl: Ctl.Pc)
    requires CanCallController(c, t, ctl)
    ensures MatchedFrom(c, c.pcs[t], CallController(c, t, seen, ctl).pcs[t])
  {
  }

  lemma ExitMatchesNothing(c: Client, t: nat, seen: Observation)
    requires CanExitSection(c, t)
    ensures !Matched(ExitSection(c, t, seen).pcs[t])
  {
  }

  lemma RefreshMatchesNothing(c: Client, t: nat, seen: Observation)
    requires CanRefresh(c, t)
    ensures !Matched(RefreshStep(c, t, seen).pcs[t])
  {
  }

  lemma ActivationMatchesNothing(c: Client, t: nat, seen: Observation)
    requires CanActivateStep(c, t)
    ensures !Matched(ActivationStep(c, t, seen).pcs[t])
  {
  }

  lemma GoMatches(c: Client, t: nat, seen: Observation, ctl: Ctl.Pc)
    requires CanGo(c, t, ctl)
    ensures MatchedFrom(c, c.pcs[t], ClientStep(c, t, seen, ctl).pcs[t])
  {
    hide CanEnterSection, CanReachPost, CanCallController, CanExitSection, CanRefresh, CanActivateStep;
    if CanEnterSection(c, t) { EnterMatches(c, t, seen); }
    else if CanReachPost(c, t) { ReachMatches(c, t, seen); }
    else if CanCallController(c, t, ctl) { CallMatches(c, t, seen, ctl); }
    else if CanExitSection(c, t) { ExitMatchesNothing(c, t, seen); }
    else if CanRefresh(c, t) { RefreshMatchesNothing(c, t, seen); }
    else { ActivationMatchesNothing(c, t, seen); }
  }

  lemma AbandonMatchesNothing(c: Client, t: nat)
    requires t < |c.pcs| && Awaits(c.pcs[t])
    ensures !Matched(AbandonStep(c, t).pcs[t])
  {
  }

  /** Across any composed step a matched permit was matched before, or has just matched. */
  lemma StepMatches(s: System, action: Action, t: nat)
    requires SystemInv(s) && Enabled(s, action) && t < |s.client.pcs|
    ensures MatchedFrom(s.client, s.client.pcs[t], Apply(s, action).client.pcs[t])
    ensures Matched(Apply(s, action).client.pcs[t]) && !Matched(s.client.pcs[t]) ==>
              action.Go? && action.thread == t
  {
    hide Ctl.Apply, Ctl.Enabled, CtlProofs.Inv, ClientStep, AbandonStep, CanGo;
    StepMovesClient(s, action);
    match action
    case Go(u, seen) => if u == t { GoMatches(s.client, t, seen, s.ctl.pcs[t]); }
    case Abandon(u) => if u == t { AbandonMatchesNothing(s.client, t); }
    case _ =>
  }

  lemma StepKeepsNewerOnly(s: System, action: Action, g: nat)
    requires SystemInv(s) && Enabled(s, action) && NewerOnly(s.client, g)
    ensures NewerOnly(Apply(s, action).client, g)
  {
    hide Apply, Enabled, SystemInv;
    var s' := Apply(s, action);
    StepMovesClient(s, action);
    forall t | 0 <= t < |s'.client.pcs| && Matched(s'.client.pcs[t])
      ensures s'.client.pcs[t].permit.generation > g
    {
      StepMatches(s, action, t);
    }
  }

  lemma MarkingBarsGeneration(s: System, action: Action)
    requires SystemInv(s) && Enabled(s, action) && Marks(s, action)
    ensures NewerOnly(Apply(s, action).client, s.client.pcs[action.thread].permit.generation)
    ensures Apply(s, action).client.gate.state == Indeterminate(s.client.pcs[action.thread].permit)
    ensures forall t :: 0 <= t < |s.client.pcs| ==> !Matched(Apply(s, action).client.pcs[t])
    ensures s.client.installed == Some(s.client.pcs[action.thread].permit)
  {
    hide Ctl.Apply, Ctl.Enabled, CtlProofs.Inv;
    var c, m := s.client, action.thread;
    assert ThreadOk(c, m);
    forall t | 0 <= t < |c.pcs| ensures !Matched(Apply(s, action).client.pcs[t]) {
      assert ThreadOk(c, t);
    }
  }

  lemma {:induction false} StaysNewerOnly(states: seq<System>, actions: seq<Action>, i: nat, j: nat, g: nat)
    requires IsRun(states, actions) && i <= j < |states| && NewerOnly(states[i].client, g)
    ensures NewerOnly(states[j].client, g)
    decreases j
  {
    hide Apply, Enabled, SystemInv;
    if i < j {
      StaysNewerOnly(states, actions, i, j - 1, g);
      RunKeeps(states, actions, j - 1);
      assert StepAt(states, actions, j - 1);
      StepKeepsNewerOnly(states[j - 1], actions[j - 1], g);
    }
  }

  // ---- the gate inside a composed run --------------------------------------------------------------

  /** The latch operation a client thread performs when it goes on from `pc`. */
  function GoOp(pc: Pc, ok: bool): Option<Operation> {
    match pc
    case CloseGate => Some(DoClose)
    case Quarantining(_, p) => Some(DoQuarantine(p))
    case Marking(_, p) => Some(DoMark(p))
    case Closure(p) => if ok then Some(DoActivate(p, true)) else None
    case _ => None
  }

  /** The latch operation a composed step performs, if any. */
  function GateOpOf(s: System, action: Action): Option<Operation> {
    match action
    case Go(t, seen) => if t < |s.client.pcs| then GoOp(s.client.pcs[t], seen.ok) else None
    case RevokeGate => Some(DoClose)
    case _ => None
  }

  function GateAfter(g: Gate, op: Option<Operation>): Gate {
    if op.Some? then Step(g, op.value) else g
  }

  lemma SectionLeavesGate(c: Client, t: nat, seen: Observation, ctl: Ctl.Pc)
    ensures CanEnterSection(c, t) ==> EnterSection(c, t, seen).gate == c.gate && GoOp(c.pcs[t], seen.ok).None?
    ensures CanReachPost(c, t) ==> ReachPost(c, t, seen).gate == c.gate && GoOp(c.pcs[t], seen.ok).None?
  {
  }

  lemma CallLeavesGate(c: Client, t: nat, seen: Observation, ctl: Ctl.Pc)
    requires CanCallController(c, t, ctl)
    ensures CallController(c, t, seen, ctl).gate == c.gate && GoOp(c.pcs[t], seen.ok).None?
  {
    hide IsIndeterminate, RevokesAuthority, ForeignPasses;
  }

  lemma ExitMovesGate(c: Client, t: nat, seen: Observation)
    requires CanExitSection(c, t)
    ensures ExitSection(c, t, seen).gate == GateAfter(c.gate, GoOp(c.pcs[t], seen.ok))
  {
  }

  lemma RefreshMovesGate(c: Client, t: nat, seen: Observation)
    requires CanRefresh(c, t)
    ensures RefreshStep(c, t, seen).gate == GateAfter(c.gate, GoOp(c.pcs[t], seen.ok))
  {
  }

  lemma ActivationMovesGate(c: Client, t: nat, seen: Observation)
    requires CanActivateStep(c, t) && ThreadOk(c, t)
    ensures ActivationStep(c, t, seen).gate == GateAfter(c.gate, GoOp(c.pcs[t], seen.ok))
  {
  }

  lemma GoMovesGate(c: Client, t: nat, seen: Observation, ctl: Ctl.Pc)
    requires CanGo(c, t, ctl) && t < |c.pcs| && ThreadOk(c, t)
    ensures ClientStep(c, t, seen, ctl).gate == GateAfter(c.gate, GoOp(c.pcs[t], seen.ok))
  {
    hide CanEnterSection, CanReachPost, CanCallController, CanExitSection, CanRefresh, CanActivateStep;
    hide EnterSection, ReachPost, CallController, ExitSection, RefreshStep, ActivationStep, ThreadOk, GoOp, Step;
    if CanEnterSection(c, t) { SectionLeavesGate(c, t, seen, ctl); }
    else if CanReachPost(c, t) { SectionLeavesGate(c, t, seen, ctl); }
    else if CanCallController(c, t, ctl) { CallLeavesGate(c, t, seen, ctl); }
    else if CanExitSection(c, t) { ExitMovesGate(c, t, seen); }
    else if CanRefresh(c, t) { RefreshMovesGate(c, t, seen); }
    else { ActivationMovesGate(c, t, seen); }
  }

  /** Every composed step leaves the gate alone or performs one latch operation on it. */
  lemma StepMovesGate(s: System, action: Action)
    requires SystemInv(s) && Enabled(s, action)
    ensures Apply(s, action).client.gate == GateAfter(s.client.gate, GateOpOf(s, action))
  {
    hide Ctl.Apply, Ctl.Enabled, CtlProofs.Inv, ClientStep, CanGo, GoOp;
    if action.Go? {
      assert ThreadOk(s.client, action.thread);
      GoMovesGate(s.client, action.thread, action.seen, s.ctl.pcs[action.thread]);
    }
  }

  lemma GateOpensByClosure(s: System, action: Action, p: ProtocolAuthority)
    requires SystemInv(s) && Enabled(s, action)
    requires s.client.gate.state != Active(p) && Apply(s, action).client.gate.state == Active(p)
    ensures Opens(s, action, p)
  {
    hide Apply, Enabled, SystemInv;
    StepMovesGate(s, action);
  }

  lemma PairInstalledByRefresh(s: System, action: Action, p: ProtocolAuthority)
    requires SystemInv(s) && Enabled(s, action)
    requires s.client.installed != Some(p) && Apply(s, action).client.installed == Some(p)
    ensures Installs(s, action) && s.client.pcs[action.thread] == Installing(p)
  {
    hide Ctl.Apply, Ctl.Enabled, CtlProofs.Inv;
  }

  /** A refresh in the run installs `p`. */
  predicate InstallsPair(s: System, action: Action, p: ProtocolAuthority) {
    Installs(s, action) && s.client.pcs[action.thread] == Installing(p)
  }

  /** If `p` was unheard of at `i` and is installed at `j`, it was installed in between. */
  lemma {:induction false} InstalledMeanwhile(
    states: seq<System>, actions: seq<Action>, i: nat, j: nat, p: ProtocolAuthority)
    requires IsRun(states, actions) && i <= j < |states|
    requires states[i].client.installed != Some(p) && states[j].client.installed == Some(p)
    ensures exists k :: i <= k < j && InstallsPair(states[k], actions[k], p)
    decreases j
  {
    hide Apply, Enabled, SystemInv;
    RunKeeps(states, actions, j - 1);
    assert StepAt(states, actions, j - 1);
    if states[j - 1].client.installed == Some(p) {
      InstalledMeanwhile(states, actions, i, j - 1, p);
    } else {
      PairInstalledByRefresh(states[j - 1], actions[j - 1], p);
      assert InstallsPair(states[j - 1], actions[j - 1], p);
    }
  }

  /** No submission has matched `p`, and the gate is not open for it. */
  ghost predicate Unopened(c: Client, p: ProtocolAuthority) {
    && c.gate.state != Active(p)
    && forall t :: 0 <= t < |c.pcs| && Matched(c.pcs[t]) ==> c.pcs[t].permit != p
  }

  lemma StepKeepsUnopened(s: System, action: Action, p: ProtocolAuthority)
    requires SystemInv(s) && Enabled(s, action) && Unopened(s.client, p) && !Opens(s, action, p)
    ensures Unopened(Apply(s, action).client, p)
  {
    hide Apply, Enabled, SystemInv;
    var s' := Apply(s, action);
    StepMovesClient(s, action);
    if s'.client.gate.state == Active(p) { GateOpensByClosure(s, action, p); }
    forall t | 0 <= t < |s'.client.pcs| && Matched(s'.client.pcs[t])
      ensures s'.client.pcs[t].permit != p
    {
      StepMatches(s, action, t);
    }
  }

  lemma {:induction false} OpenedMeanwhile(
    states: seq<System>, actions: seq<Action>, i: nat, j: nat, p: ProtocolAuthority)
    requires IsRun(states, actions) && i <= j < |states|
    requires Unopened(states[i].client, p) && !Unopened(states[j].client, p)
    ensures exists k :: i <= k < j && Opens(states[k], actions[k], p)
    decreases j
  {
    hide Apply, Enabled, SystemInv, Unopened;
    RunKeeps(states, actions, j - 1);
    assert StepAt(states, actions, j - 1);
    if Unopened(states[j - 1].client, p) {
      if !Opens(states[j - 1], actions[j - 1], p) {
        StepKeepsUnopened(states[j - 1], actions[j - 1], p);
      }
    } else {
      OpenedMeanwhile(states, actions, i, j - 1, p);
    }
  }

  /** At an activation's closure the authority it opens is the installed one. */
  lemma OpeningFindsInstalled(s: System, action: Action, p: ProtocolAuthority)
    requires SystemInv(s) && Enabled(s, action) && Opens(s, action, p)
    ensures s.client.installed == Some(p)
  {
    assert ThreadOk(s.client, action.thread);
  }

  /** Once a submission marks generation `g` indeterminate, every later POST carries a
      strictly newer generation, which a refresh installed after the mark and an activation
      opened after that. */
  lemma AfterMarkOnlyNewerPosts(states: seq<System>, actions: seq<Action>, i: nat, j: nat)
    returns (installed: nat, opening: nat)
    requires IsRun(states, actions) && i < j < |actions|
    requires Marks(states[i], actions[i]) && FirstPost(states[j], actions[j])
    ensures actions[j].Drive? && AllAgree(states[j], actions[j].thread)
    ensures i < installed < opening < j
    ensures var marked := states[i].client.pcs[actions[i].thread].permit;
            var p := states[j].client.pcs[actions[j].thread].permit;
            && p.generation > marked.generation
            && InstallsPair(states[installed], actions[installed], p)
            && Opens(states[opening], actions[opening], p)
  {
    hide Apply, Enabled, SystemInv, OwnersOk, AllAgree;
    var p := PostedAfterMark(states, actions, i, j);
    OpenedMeanwhile(states, actions, i + 1, j, p);
    opening :| i + 1 <= opening < j && Opens(states[opening], actions[opening], p);
    RunKeeps(states, actions, opening);
    assert StepAt(states, actions, opening);
    OpeningFindsInstalled(states[opening], actions[opening], p);
    InstalledMeanwhile(states, actions, i + 1, opening, p);
    installed :| i + 1 <= installed < opening && InstallsPair(states[installed], actions[installed], p);
  }

  /** What is posted after a mark is newer, and was neither installed nor open when it was made. */
  lemma PostedAfterMark(states: seq<System>, actions: seq<Action>, i: nat, j: nat) returns (p: ProtocolAuthority)
    requires IsRun(states, actions) && i < j < |actions|
    requires Marks(states[i], actions[i]) && FirstPost(states[j], actions[j])
    ensures actions[j].Drive? && AllAgree(states[j], actions[j].thread)
    ensures p == states[j].client.pcs[actions[j].thread].permit
    ensures p.generation > states[i].client.pcs[actions[i].thread].permit.generation
    ensures states[i + 1].client.installed != Some(p)
    ensures Unopened(states[i + 1].client, p) && !Unopened(states[j].client, p)
  {
    hide Apply, Enabled, SystemInv, OwnersOk;
    RunKeeps(states, actions, i);
    assert StepAt(states, actions, i);
    MarkingBarsGeneration(states[i], actions[i]);
    var marked := states[i].client.pcs[actions[i].thread].permit;
    StaysNewerOnly(states, actions, i + 1, j, marked.generation);
    FirstPostAllAgree(states, actions, j);
    p := states[j].client.pcs[actions[j].thread].permit;
    assert Matched(states[j].client.pcs[actions[j].thread]);
    StepMovesClient(states[i], actions[i]);
    MarkLeavesPair(states[i], actions[i]);
  }

  lemma MarkLeavesPair(s: System, action: Action)
    requires SystemInv(s) && Enabled(s, action) && Marks(s, action)
    ensures Apply(s, action).client.installed == s.client.installed
  {
    hide Ctl.Apply, Ctl.Enabled, CtlProofs.Inv;
  }

  lemma ComingBackLeadsToMarking(s: System, action: Action)
    requires SystemInv(s) && Enabled(s, action) && ComesBackUnknown(s, action)
    ensures var pc := s.client.pcs[action.thread];
            Apply(s, action).client.pcs[action.thread] == Marking(pc.job, pc.permit)
  {
    hide Ctl.Apply, Ctl.Enabled, CtlProofs.Inv, IsIndeterminate;
  }

  /** A submission about to mark can do nothing else. */
  lemma MarkingOnlyMarks(s: System, action: Action, t: nat)
    requires SystemInv(s) && Enabled(s, action) && t < |s.client.pcs| && s.client.pcs[t].Marking?
    ensures Apply(s, action).client.pcs[t] == s.client.pcs[t] || (Marks(s, action) && action.thread == t)
  {
    hide Ctl.Apply, Ctl.Enabled, CtlProofs.Inv, ClientStep;
    StepMovesClient(s, action);
    if action.Go? { assert ThreadOk(s.client, action.thread); }
  }

  /** From the answer on, thread `t` either still has to mark, or has marked. */
  lemma {:induction false} MarksMeanwhile(
    states: seq<System>, actions: seq<Action>, i: nat, j: nat, t: nat) returns (m: nat)
    requires IsRun(states, actions) && i <= j < |states| && t < |states[i].client.pcs|
    requires states[i].client.pcs[t].Marking?
    ensures i <= m <= j && t < |states[m].client.pcs| && states[m].client.pcs[t] == states[i].client.pcs[t]
    ensures m < j ==> Marks(states[m], actions[m]) && actions[m].thread == t
    decreases j
  {
    hide Apply, Enabled, SystemInv, OwnersOk;
    m := j;
    if i < j {
      m := MarksMeanwhile(states, actions, i, j - 1, t);
      if m == j - 1 {
        RunKeeps(states, actions, j - 1);
        assert StepAt(states, actions, j - 1);
        StepMovesClient(states[j - 1], actions[j - 1]);
        MarkingOnlyMarks(states[j - 1], actions[j - 1], t);
        if !(Marks(states[m], actions[m]) && actions[m].thread == t) { m := j; }
      }
    }
  }

  /** While one submission still has to mark, it owns the serial section: nobody else posts. */
  lemma NobodyPostsBeforeMark(states: seq<System>, actions: seq<Action>, j: nat, t: nat)
    requires IsRun(states, actions) && j < |actions| && t < |states[j].client.pcs|
    requires states[j].client.pcs[t].Marking?
    ensures !FirstPost(states[j], actions[j])
  {
    hide Apply, Enabled;
    RunKeeps(states, actions, j);
    assert ThreadOk(states[j].client, t);
    if FirstPost(states[j], actions[j]) { FirstPostAllAgree(states, actions, j); }
  }

  /** From the very step at which a POST comes back with an answer that leaves acceptance
      unknowable, every later POST carries a strictly newer generation, which a refresh
      installed and then an activation opened, both after that step: the mark is made before
      the serial section is left. */
  lemma AfterUnknownAnswerOnlyNewerPosts(states: seq<System>, actions: seq<Action>, i: nat, j: nat)
    returns (installed: nat, opening: nat)
    requires IsRun(states, actions) && i < j < |actions|
    requires ComesBackUnknown(states[i], actions[i]) && FirstPost(states[j], actions[j])
    ensures actions[j].Drive? && AllAgree(states[j], actions[j].thread)
    ensures i < installed < opening < j
    ensures var unknown := states[i].client.pcs[actions[i].thread].permit;
            var p := states[j].client.pcs[actions[j].thread].permit;
            && p.generation > unknown.generation
            && InstallsPair(states[installed], actions[installed], p)
            && Opens(states[opening], actions[opening], p)
  {
    hide Apply, Enabled, SystemInv, OwnersOk;
    var t := actions[i].thread;
    RunKeeps(states, actions, i);
    assert StepAt(states, actions, i);
    StepMovesClient(states[i], actions[i]);
    ComingBackLeadsToMarking(states[i], actions[i]);
    var m := MarksMeanwhile(states, actions, i + 1, j, t);
    if m == j { NobodyPostsBeforeMark(states, actions, j, t); }
    installed, opening := AfterMarkOnlyNewerPosts(states, actions, m, j);
  }

  /** Which answers those are, read off the venue's response or the raw failure. */
  lemma UnknownAnswersAre(s: System, action: Action, f: Errors.Failure)
    requires AtPc(s, action) && s.client.pcs[action.thread].Posted?
    ensures action.seen.answer == Err(Errors.Built(f)) ==>
              (ComesBackUnknown(s, action) <==> f.Lost? || (f.Answered? && f.code / 100 == 5))
    ensures action.seen.answer.Ok? ==>
              (ComesBackUnknown(s, action) <==> Errors.ClassifyPost(action.seen.answer).Failed?)
  {
  }

  // ---- one attempt, one POST ---------------------------------------------------------------------

  /** The attempt is gone, or its owner is past its POST. */
  ghost predicate Spent(s: System, c: nat) {
    && c < s.ctl.nextCap
    && (c in s.ctl.caps ==>
          exists t :: 0 <= t < |s.client.pcs| && Owns(s.client.pcs[t], c) && PastPosting(s.client.pcs[t]))
  }

  lemma PostingSpends(s: System, action: Action)
    requires SystemInv(s) && OwnersOk(s) && Enabled(s, action) && FirstPost(s, action)
    ensures action.Drive? && AttemptOf(s.client.pcs[action.thread].job).Own?
    ensures Spent(Apply(s, action), AttemptOf(s.client.pcs[action.thread].job).cap)
  {
    hide Ctl.Apply, Ctl.Enabled;
    OnlyClientsPost(s, action);
    var t := action.thread;
    assert LinkOk(s, t);
    CtlProofs.StepKeeps(s.ctl, action.step);
    assert Owns(Apply(s, action).client.pcs[t], AttemptOf(s.client.pcs[t].job).cap);
  }

  lemma StepKeepsSpent(s: System, action: Action, c: nat)
    requires SystemInv(s) && OwnersOk(s) && Enabled(s, action) && Spent(s, c)
    ensures Spent(Apply(s, action), c)
  {
    hide Apply, Enabled, SystemInv, OwnersOk, CtlProofs.Inv;
    var s' := Apply(s, action);
    StepIsLater(s, action);
    if c in s'.ctl.caps {
      var t :| 0 <= t < |s.client.pcs| && Owns(s.client.pcs[t], c) && PastPosting(s.client.pcs[t]);
      StepMovesJobs(s, action);
      StepKeepsOwners(s, action);
      if s'.client.pcs[t] != s.client.pcs[t] {
        LeavingDropsAttempt(s, action, t, c);
      }
      assert Owns(s'.client.pcs[t], c) && PastPosting(s'.client.pcs[t]);
    }
  }

  lemma StepIsLater(s: System, action: Action)
    requires SystemInv(s) && Enabled(s, action)
    ensures CtlProofs.Later(s.ctl, Apply(s, action).ctl)
  {
    hide Ctl.Apply, Ctl.Enabled, CtlStepOf;
    StepMovesController(s, action);
    if CtlStepOf(s, action).Some? { CtlProofs.StepKeeps(s.ctl, CtlStepOf(s, action).value); }
  }

  /** A submission that goes out of the section takes its attempt with it. */
  lemma LeavingDropsAttempt(s: System, action: Action, t: nat, c: nat)
    requires SystemInv(s) && Enabled(s, action) && t < |s.client.pcs| && Owns(s.client.pcs[t], c)
    requires Apply(s, action).client.pcs[t] != s.client.pcs[t]
    ensures InSubmission(Apply(s, action).client.pcs[t]) || c !in Apply(s, action).ctl.caps
  {
    hide Ctl.Apply, Ctl.Enabled, CtlProofs.Inv, ClientStep, AbandonStep;
    StepMovesJobs(s, action);
    if !InSubmission(Apply(s, action).client.pcs[t]) {
      assert s.client.pcs[t] == Leave(s.client.pcs[t].job, false, false);
      LeaveIsLeftByItself(s, action, t);
      StepMovesController(s, action);
      assert CtlStepOf(s, action) == Some(Ctl.DropCapability(c));
      DroppedIsGone(s.ctl, c);
    }
  }

  lemma LeaveIsLeftByItself(s: System, action: Action, t: nat)
    requires SystemInv(s) && Enabled(s, action) && t < |s.client.pcs| && s.client.pcs[t].Leave?
    requires Apply(s, action).client.pcs[t] != s.client.pcs[t]
    ensures action.Go? && action.thread == t
  {
    hide Ctl.Apply, Ctl.Enabled, CtlProofs.Inv, ClientStep;
    StepMovesClient(s, action);
  }

  lemma DroppedIsGone(s: Ctl.State, c: nat)
    requires Ctl.Enabled(s, Ctl.DropCapability(c))
    ensures c !in Ctl.Apply(s, Ctl.DropCapability(c)).caps
  {
  }

  lemma {:induction false} StaysSpent(states: seq<System>, actions: seq<Action>, i: nat, j: nat, c: nat)
    requires IsRun(states, actions) && i <= j < |states| && Spent(states[i], c)
    ensures Spent(states[j], c)
    decreases j
  {
    hide Apply, Enabled, SystemInv, OwnersOk, Spent;
    if i < j {
      StaysSpent(states, actions, i, j - 1, c);
      RunKeeps(states, actions, j - 1);
      assert StepAt(states, actions, j - 1);
      StepKeepsSpent(states[j - 1], actions[j - 1], c);
    }
  }

  /** One capability pays for one POST: no two first polls of a run are of the same attempt. */
  lemma OneAttemptPostsOnce(states: seq<System>, actions: seq<Action>, i: nat, j: nat)
    requires IsRun(states, actions) && i < j < |actions|
    requires FirstPost(states[i], actions[i]) && FirstPost(states[j], actions[j])
    ensures actions[i].Drive? && AllAgree(states[i], actions[i].thread)
    ensures actions[j].Drive? && AllAgree(states[j], actions[j].thread)
    ensures AttemptOf(states[i].client.pcs[actions[i].thread].job).cap
         != AttemptOf(states[j].client.pcs[actions[j].thread].job).cap
  {
    hide Apply, Enabled, SystemInv;
    FirstPostAllAgree(states, actions, i);
    FirstPostAllAgree(states, actions, j);
    RunKeeps(states, actions, i);
    assert StepAt(states, actions, i);
    PostingSpends(states[i], actions[i]);
    var c := AttemptOf(states[i].client.pcs[actions[i].thread].job).cap;
    StaysSpent(states, actions, i + 1, j, c);
    RunKeeps(states, actions, j);
    assert c == AttemptOf(states[j].client.pcs[actions[j].thread].job).cap ==>
        Owns(states[j].client.pcs[actions[j].thread], c);
  }

  // ---- the gate at the first poll -----------------------------------------------------------------------

  /** The two closes that do not belong to the submission itself. */
  predicate ClosesAside(s: System, action: Action) {
    action.RevokeGate? || (AtPc(s, action) && s.client.pcs[action.thread].CloseGate?)
  }

  /** From step `k`, where the permit matched, up to `i`, thread `t` stays matched. */
  ghost predicate MatchedSince(states: seq<System>, actions: seq<Action>, t: nat, k: nat, i: nat) {
    && k < i < |states| && |states| == |actions| + 1
    && actions[k].Go? && actions[k].thread == t && t < |states[k].client.pcs|
    && states[k].client.pcs[t].MatchFirst?
    && Matches(states[k].client.gate, states[k].client.pcs[t].permit)
    && forall m :: k < m <= i ==>
                     && t < |states[m].client.pcs| && Matched(states[m].client.pcs[t])
                     && states[m].client.pcs[t].permit == states[k].client.pcs[t].permit
  }

  lemma {:induction false} LastMatch(states: seq<System>, actions: seq<Action>, t: nat, i: nat)
    returns (k: nat)
    requires IsRun(states, actions) && i < |states| && t < |states[i].client.pcs|
    requires Matched(states[i].client.pcs[t])
    ensures MatchedSince(states, actions, t, k, i)
    decreases i
  {
    hide Apply, Enabled, SystemInv;
    assert i > 0;
    RunKeeps(states, actions, i - 1);
    assert StepAt(states, actions, i - 1);
    StepMovesClient(states[i - 1], actions[i - 1]);
    StepMatches(states[i - 1], actions[i - 1], t);
    if Matched(states[i - 1].client.pcs[t]) {
      k := LastMatch(states, actions, t, i - 1);
    } else {
      k := i - 1;
    }
  }

  /** While matched, only an outside close takes the gate from a permit; and it does. */
  lemma OnlyOutsideCloses(s: System, action: Action, t: nat)
    requires SystemInv(s) && Enabled(s, action) && t < |s.client.pcs|
    requires Matched(s.client.pcs[t]) && Matched(Apply(s, action).client.pcs[t])
    ensures Apply(s, action).client.gate.state == Active(s.client.pcs[t].permit) <==>
            s.client.gate.state == Active(s.client.pcs[t].permit) && !ClosesAside(s, action)
  {
    hide Ctl.Apply, Ctl.Enabled, CtlProofs.Inv;
    StepMovesClient(s, action);
    assert ThreadOk(s.client, t);
    if AtPc(s, action) && action.thread != t {
      assert ThreadOk(s.client, action.thread);
    }
  }

  lemma {:induction false} OpenUnlessClosed(
    states: seq<System>, actions: seq<Action>, t: nat, k: nat, i: nat)
    requires IsRun(states, actions) && MatchedSince(states, actions, t, k, i)
    ensures states[i].client.gate.state == Active(states[i].client.pcs[t].permit) <==>
            forall m :: k < m < i ==> !ClosesAside(states[m], actions[m])
    decreases i
  {
    hide Apply, Enabled, SystemInv;
    RunKeeps(states, actions, i - 1);
    assert StepAt(states, actions, i - 1);
    if i == k + 1 {
      MatchingLeavesGate(states[k], actions[k]);
    } else {
      OpenUnlessClosed(states, actions, t, k, i - 1);
      OnlyOutsideCloses(states[i - 1], actions[i - 1], t);
    }
  }

  lemma MatchingLeavesGate(s: System, action: Action)
    requires SystemInv(s) && Enabled(s, action) && AtPc(s, action) && s.client.pcs[action.thread].MatchFirst?
    ensures Apply(s, action).client.gate == s.client.gate
  {
    hide Ctl.Apply, Ctl.Enabled, CtlProofs.Inv;
  }

  /** The gate itself is not locked across the first poll: a revocation of the gate or a
      refresh that starts after the permit matched leaves it closed while the POST still
      goes out. At a first poll the gate is open for the permit exactly when neither
      happened since the match; otherwise it is closed with that generation retired. */
  lemma GateOpenAtFirstPostIffNotClosedSince(states: seq<System>, actions: seq<Action>, i: nat)
    returns (k: nat)
    requires IsRun(states, actions) && i < |actions| && FirstPost(states[i], actions[i])
    ensures actions[i].Drive? && AllAgree(states[i], actions[i].thread)
    ensures MatchedSince(states, actions, actions[i].thread, k, i)
    ensures states[i].client.gate.state == Active(states[i].client.pcs[actions[i].thread].permit) <==>
            forall m :: k < m < i ==> !ClosesAside(states[m], actions[m])
  {
    hide Apply, Enabled, SystemInv;
    FirstPostAllAgree(states, actions, i);
    k := LastMatch(states, actions, actions[i].thread, i);
    OpenUnlessClosed(states, actions, actions[i].thread, k, i);
  }
}
