/** What a submission checks, and what becomes of the gate when a check fails, when the POST is
    settled, and when the submission is dropped. */
module ClientChecks {
  import opened Authority
  import opened ProtocolGate
  import opened ClientProtocol
  import opened ClientProofs
  import opened ClientLink
  import opened ClientOwnership
  import opened ClientSafety
  import Ctl = SubmissionProtocol
  import CtlProofs = SubmissionProofs
  import Errors = OperationErrors
  import Hints = RetryHint
  import Bytes = Text
  import Witness = ClientWitness

  // ---- a failed check ---------------------------------------------------------------------------

  /** The permit is the gate's and the installed pair is the permit's. */
  predicate StillAuthorized(c: Client, p: ProtocolAuthority) {
    c.installed == Some(p) && Matches(c.gate, p)
  }

  /** What a call into the controller, or the comparison in front of it, says of an attempt. */
  predicate Declined(c: Client, job: Job, p: ProtocolAuthority, called: bool, ok: bool, ctl: Ctl.Pc) {
    if called then ctl.Idle? else !AttemptOf(job).Own? && !ForeignPasses(c, job, p, ok)
  }

  /** A submission that goes on from `pc` learns that something it depends on is not as its permit
      says. A version that cannot be read before the POST only ends the submission. */
  predicate FailsAt(c: Client, pc: Pc, seen: Observation, ctl: Ctl.Pc) {
    match pc
    case ReadVersion(_, p) => c.installed.Some? && seen.ok && seen.version != p.version
    case MatchFirst(_, p, v) => v != p.version || !StillAuthorized(c, p)
    case RevalidateFirst(job, p, called) => Declined(c, job, p, called, seen.ok, ctl)
    case ReadVersionAgain(_, p, o) => c.installed.Some? && seen.ok && (seen.version != p.version || o != seen.version)
    case MatchAgain(_, p, o, v) => v != p.version || o != v || !StillAuthorized(c, p)
    case RevalidateAgain(job, p, _, called) => Declined(c, job, p, called, seen.ok, ctl)
    case MatchSigned(_, p, _) => !Matches(c.gate, p)
    case Posting(job, p, _, called) => Declined(c, job, p, called, seen.ok, ctl)
    case Posted(_, _) => RevokesAuthority(seen.answer)
    case AfterPost(_, p, _) => !seen.ok || seen.version != p.version || !Matches(c.gate, p)
    case _ => false
  }

  predicate FailsCheck(s: System, action: Action) {
    AtPc(s, action) && action.thread < |s.ctl.pcs|
    && FailsAt(s.client, s.client.pcs[action.thread], action.seen, s.ctl.pcs[action.thread])
  }

  function PermitOf(pc: Pc): Option<ProtocolAuthority> {
    match pc
    case WantGuard(_, p) => Some(p)
    case ReadVersion(_, p) => Some(p)
    case MatchFirst(_, p, _) => Some(p)
    case RevalidateFirst(_, p, _) => Some(p)
    case Build(_, p) => Some(p)
    case ReadVersionAgain(_, p, _) => Some(p)
    case MatchAgain(_, p, _, _) => Some(p)
    case RevalidateAgain(_, p, _, _) => Some(p)
    case Sign(_, p, _) => Some(p)
    case MatchSigned(_, p, _) => Some(p)
    case Posting(_, p, _, _) => Some(p)
    case Posted(_, p) => Some(p)
    case Marking(_, p) => Some(p)
    case AfterPost(_, p, _) => Some(p)
    case Quarantining(_, p) => Some(p)
    case _ => None
  }

  /** Points of a submission that will quarantine its permit unless it is abandoned. */
  predicate Doomed(pc: Pc) {
    match pc
    case MatchFirst(_, p, v) => v != p.version
    case MatchAgain(_, p, o, v) => v != p.version || o != v
    case AfterPost(_, _, revokes) => revokes
    case Quarantining(_, _) => true
    case _ => false
  }

  /** Going on from `pc` to `pc'` leads towards quarantine exactly when a check has failed. */
  predicate DoomMoves(c: Client, pc: Pc, pc': Pc, seen: Observation, ctl: Ctl.Pc) {
    && (Doomed(pc') <==> FailsAt(c, pc, seen, ctl) || (Doomed(pc) && !pc.Quarantining?))
    && (Doomed(pc') ==> PermitOf(pc') == PermitOf(pc))
  }

  lemma EnterDooms(c: Client, t: nat, seen: Observation, ctl: Ctl.Pc)
    requires CanEnterSection(c, t)
    ensures DoomMoves(c, c.pcs[t], EnterSection(c, t, seen).pcs[t], seen, ctl)
  {
  }

  lemma ReachDooms(c: Client, t: nat, seen: Observation, ctl: Ctl.Pc)
    requires CanReachPost(c, t)
    ensures DoomMoves(c, c.pcs[t], ReachPost(c, t, seen).pcs[t], seen, ctl)
  {
  }

  lemma RevalidateDooms(c: Client, t: nat, seen: Observation, ctl: Ctl.Pc)
    requires CanCallController(c, t, ctl) && (c.pcs[t].RevalidateFirst? || c.pcs[t].RevalidateAgain?)
    ensures DoomMoves(c, c.pcs[t], CallController(c, t, seen, ctl).pcs[t], seen, ctl)
  {
    hide ForeignPasses;
  }

  lemma PostDooms(c: Client, t: nat, seen: Observation, ctl: Ctl.Pc)
    requires CanCallController(c, t, ctl) && (c.pcs[t].Posting? || c.pcs[t].Posted?)
    ensures DoomMoves(c, c.pcs[t], CallController(c, t, seen, ctl).pcs[t], seen, ctl)
  {
    hide IsIndeterminate, RevokesAuthority, ForeignPasses;
    RevokingIsDefinite(seen.answer);
  }

  lemma CallDooms(c: Client, t: nat, seen: Observation, ctl: Ctl.Pc)
    requires CanCallController(c, t, ctl)
    ensures DoomMoves(c, c.pcs[t], CallController(c, t, seen, ctl).pcs[t], seen, ctl)
  {
    hide CallController, DoomMoves;
    if c.pcs[t].Posting? || c.pcs[t].Posted? { PostDooms(c, t, seen, ctl); } else { RevalidateDooms(c, t, seen, ctl); }
  }

  lemma RevokingIsDefinite(answer: Answer)
    ensures RevokesAuthority(answer) ==> !IsIndeterminate(answer)
  {
    hide Errors.ClassifyPost;
  }

  lemma ExitDooms(c: Client, t: nat, seen: Observation, ctl: Ctl.Pc)
    requires CanExitSection(c, t)
    ensures DoomMoves(c, c.pcs[t], ExitSection(c, t, seen).pcs[t], seen, ctl)
  {
  }

  lemma RefreshDooms(c: Client, t: nat, seen: Observation, ctl: Ctl.Pc)
    requires CanRefresh(c, t)
    ensures DoomMoves(c, c.pcs[t], RefreshStep(c, t, seen).pcs[t], seen, ctl)
  {
  }

  lemma ActivationDooms(c: Client, t: nat, seen: Observation, ctl: Ctl.Pc)
    requires CanActivateStep(c, t)
    ensures DoomMoves(c, c.pcs[t], ActivationStep(c, t, seen).pcs[t], seen, ctl)
  {
  }

  lemma GoDooms(c: Client, t: nat, seen: Observation, ctl: Ctl.Pc)
    requires CanGo(c, t, ctl)
    ensures DoomMoves(c, c.pcs[t], ClientStep(c, t, seen, ctl).pcs[t], seen, ctl)
  {
    hide CanEnterSection, CanReachPost, CanCallController, CanExitSection, CanRefresh, CanActivateStep, DoomMoves;
    if CanEnterSection(c, t) { EnterDooms(c, t, seen, ctl); }
    else if CanReachPost(c, t) { ReachDooms(c, t, seen, ctl); }
    else if CanCallController(c, t, ctl) { CallDooms(c, t, seen, ctl); }
    else if CanExitSection(c, t) { ExitDooms(c, t, seen, ctl); }
    else if CanRefresh(c, t) { RefreshDooms(c, t, seen, ctl); }
    else { ActivationDooms(c, t, seen, ctl); }
  }

  lemma AbandonedIsNotDoomed(c: Client, t: nat)
    requires t < |c.pcs| && Awaits(c.pcs[t])
    ensures !Doomed(AbandonStep(c, t).pcs[t])
  {
  }

  lemma DoomedAwaits(pc: Pc)
    requires Doomed(pc) && Awaits(pc)
    ensures pc.AfterPost?
  {
  }

  /** The thread's own step that quarantines its permit. */
  predicate Quarantines(s: System, action: Action) {
    AtPc(s, action) && s.client.pcs[action.thread].Quarantining?
  }

  /** The submission is dropped while it reads the version after its answer, the one place on the
      way to quarantine at which it can be. */
  predicate AbandonsAnswer(s: System, action: Action, t: nat) {
    action == Abandon(t) && t < |s.client.pcs| && s.client.pcs[t].AfterPost?
  }

  /** Across any composed step: a submission is on its way to quarantine exactly when one of its
      checks has just failed, or it already was and has neither quarantined nor been abandoned. */
  lemma StepDooms(s: System, action: Action, t: nat)
    requires SystemInv(s) && Enabled(s, action) && t < |s.client.pcs|
    ensures Doomed(Apply(s, action).client.pcs[t]) <==>
            || (FailsCheck(s, action) && action.thread == t)
            || (Doomed(s.client.pcs[t]) && !AbandonsAnswer(s, action, t) && !(Quarantines(s, action) && action.thread == t))
    ensures Doomed(Apply(s, action).client.pcs[t]) ==> PermitOf(Apply(s, action).client.pcs[t]) == PermitOf(s.client.pcs[t])
  {
    hide Ctl.Apply, Ctl.Enabled, CtlProofs.Inv, ClientStep, AbandonStep, CanGo, FailsAt, Guarantee;
    StepMovesClient(s, action);
    match action
    case Go(u, seen) =>
      if u == t { GoDooms(s.client, t, seen, s.ctl.pcs[t]); } else { GoMovesOnlyItself(s, action, t); }
    case Abandon(u) =>
      if u == t {
        AbandonedIsNotDoomed(s.client, t);
        if Doomed(s.client.pcs[t]) { DoomedAwaits(s.client.pcs[t]); }
      } else { GoMovesOnlyItself(s, action, t); }
    case _ =>
  }

  lemma GoMovesOnlyItself(s: System, action: Action, t: nat)
    requires SystemInv(s) && Enabled(s, action) && t < |s.client.pcs|
    requires (action.Go? || action.Abandon?) && action.thread != t
    ensures Apply(s, action).client.pcs[t] == s.client.pcs[t]
  {
    hide Enabled, Apply, SystemInv;
    StepMovesClient(s, action);
  }

  // ---- what a failed check leads to ---------------------------------------------------------------

  lemma DoomedHoldsSerial(s: System, t: nat)
    requires SystemInv(s) && t < |s.client.pcs| && Doomed(s.client.pcs[t])
    ensures s.client.serial == Some(t) && PermitOf(s.client.pcs[t]).Some?
  {
    assert ThreadOk(s.client, t);
  }

  /** Quarantining retires the permit's generation and leaves nothing open or matched. */
  lemma QuarantineBars(s: System, action: Action)
    requires SystemInv(s) && Enabled(s, action) && Quarantines(s, action)
    ensures NewerOnly(Apply(s, action).client, s.client.pcs[action.thread].permit.generation)
    ensures forall p :: Unopened(Apply(s, action).client, p)
    ensures Apply(s, action).client.installed == s.client.installed
  {
    hide Ctl.Apply, Ctl.Enabled, CtlProofs.Inv;
    var c, m := s.client, action.thread;
    assert ThreadOk(c, m);
    forall t | 0 <= t < |c.pcs| ensures !Matched(Apply(s, action).client.pcs[t]) {
      assert ThreadOk(c, t);
    }
  }

  /** Thread `t`, doomed at `i`, is left to go on and quarantines at `m`, or has not yet at `j`. */
  lemma {:induction false} QuarantinesMeanwhile(states: seq<System>, actions: seq<Action>, i: nat, j: nat, t: nat)
    returns (m: nat)
    requires IsRun(states, actions) && i <= j < |states| && t < |states[i].client.pcs|
    requires Doomed(states[i].client.pcs[t])
    requires forall k :: i <= k < j ==> !AbandonsAnswer(states[k], actions[k], t)
    ensures i <= m <= j
    ensures forall k :: i <= k <= m ==>
                          && t < |states[k].client.pcs| && Doomed(states[k].client.pcs[t])
                          && PermitOf(states[k].client.pcs[t]) == PermitOf(states[i].client.pcs[t])
    ensures m < j ==> Quarantines(states[m], actions[m]) && actions[m].thread == t
    decreases j
  {
    hide Apply, Enabled, SystemInv, OwnersOk, Doomed, PermitOf, FailsAt;
    m := j;
    if i < j {
      m := QuarantinesMeanwhile(states, actions, i, j - 1, t);
      if m == j - 1 {
        RunKeeps(states, actions, j - 1);
        assert StepAt(states, actions, j - 1);
        StepDooms(states[j - 1], actions[j - 1], t);
        if !(Quarantines(states[m], actions[m]) && actions[m].thread == t) { m := j; }
      }
    }
  }

  /** A submission that learns from one of its checks that its authority is gone, and is not
      dropped while it reads the version after its answer, retires the generation of its permit before it gives up the serial section:
      whether a match, a revalidation, the first poll, the venue's answer or the version read
      after it says so. */
  lemma FailedCheckRetires(states: seq<System>, actions: seq<Action>, i: nat, j: nat, p: ProtocolAuthority)
    requires IsRun(states, actions) && i < j < |states| && FailsCheck(states[i], actions[i])
    requires PermitOf(states[i].client.pcs[actions[i].thread]) == Some(p)
    requires forall k :: i < k < j ==> !AbandonsAnswer(states[k], actions[k], actions[i].thread)
    ensures states[j].client.serial == Some(actions[i].thread) || states[j].client.gate.watermark >= p.generation
  {
    hide Apply, Enabled, SystemInv, OwnersOk, Doomed, PermitOf, FailsAt;
    var t := actions[i].thread;
    RunKeeps(states, actions, i);
    assert StepAt(states, actions, i);
    FailedIsThere(states[i], actions[i]);
    StepDooms(states[i], actions[i], t);
    var m := QuarantinesMeanwhile(states, actions, i + 1, j, t);
    RunKeeps(states, actions, m);
    if m == j {
      DoomedHoldsSerial(states[j], t);
    } else {
      assert StepAt(states, actions, m);
      QuarantineBars(states[m], actions[m]);
      QuarantinedPermit(states[m], actions[m]);
      StaysNewerOnly(states, actions, m + 1, j, p.generation);
    }
  }

  lemma FailedIsThere(s: System, action: Action)
    requires FailsCheck(s, action)
    ensures action.Go? && action.thread < |s.client.pcs| && PermitOf(s.client.pcs[action.thread]).Some?
    ensures PermitOf(s.client.pcs[action.thread]).value == s.client.pcs[action.thread].permit
  {
  }

  lemma QuarantinedPermit(s: System, action: Action)
    requires Quarantines(s, action)
    ensures PermitOf(s.client.pcs[action.thread]) == Some(s.client.pcs[action.thread].permit)
  {
  }

  /** The submission is still before its quarantine while it owns the section: nobody posts. */
  lemma NobodyPostsWhileDoomed(states: seq<System>, actions: seq<Action>, j: nat, t: nat)
    requires IsRun(states, actions) && j < |actions| && t < |states[j].client.pcs|
    requires Doomed(states[j].client.pcs[t])
    ensures !FirstPost(states[j], actions[j])
  {
    hide Apply, Enabled;
    RunKeeps(states, actions, j);
    DoomedHoldsSerial(states[j], t);
    if FirstPost(states[j], actions[j]) { FirstPostAllAgree(states, actions, j); }
  }

  /** After such a check every later POST is of a strictly newer generation, opened by an
      activation since. */
  lemma NewerPostWasOpened(states: seq<System>, actions: seq<Action>, i: nat, j: nat)
    returns (p: ProtocolAuthority, opening: nat)
    requires IsRun(states, actions) && i < j < |actions|
    requires FailsCheck(states[i], actions[i]) && FirstPost(states[j], actions[j])
    requires forall k :: i < k < j ==> !AbandonsAnswer(states[k], actions[k], actions[i].thread)
    ensures actions[j].Drive? && AllAgree(states[j], actions[j].thread)
    ensures p == states[j].client.pcs[actions[j].thread].permit
    ensures PermitOf(states[i].client.pcs[actions[i].thread]).Some?
    ensures p.generation > PermitOf(states[i].client.pcs[actions[i].thread]).value.generation
    ensures i < opening < j && Opens(states[opening], actions[opening], p)
  {
    hide Apply, Enabled, SystemInv, OwnersOk, Doomed, FailsAt, AllAgree, PermitOf;
    var t := actions[i].thread;
    RunKeeps(states, actions, i);
    assert StepAt(states, actions, i);
    FailedIsThere(states[i], actions[i]);
    StepDooms(states[i], actions[i], t);
    var m := QuarantinesMeanwhile(states, actions, i + 1, j, t);
    if m == j { NobodyPostsWhileDoomed(states, actions, j, t); }
    p := PostedAfterQuarantine(states, actions, m, j);
    OpenedMeanwhile(states, actions, m + 1, j, p);
    opening :| m + 1 <= opening < j && Opens(states[opening], actions[opening], p);
  }

  /** And if the permit had matched before, as it has whenever a POST comes back, the newer pair
      was also installed by a refresh since. */
  lemma AfterFailedCheckOnlyNewerPosts(states: seq<System>, actions: seq<Action>, i: nat, j: nat)
    returns (installed: nat, opening: nat)
    requires IsRun(states, actions) && i < j < |actions|
    requires FailsCheck(states[i], actions[i]) && FirstPost(states[j], actions[j])
    requires forall k :: i < k < j ==> !AbandonsAnswer(states[k], actions[k], actions[i].thread)
    ensures actions[j].Drive? && AllAgree(states[j], actions[j].thread)
    ensures var failed := states[i].client.pcs[actions[i].thread].permit;
            var p := states[j].client.pcs[actions[j].thread].permit;
            && p.generation > failed.generation
            && i < opening < j && Opens(states[opening], actions[opening], p)
            && (Matched(states[i].client.pcs[actions[i].thread]) ==>
                  i < installed < opening && InstallsPair(states[installed], actions[installed], p))
  {
    hide Apply, Enabled, SystemInv, OwnersOk, FailsAt, AllAgree, PermitOf, Matched;
    var p;
    p, opening := NewerPostWasOpened(states, actions, i, j);
    installed := i;
    FailedIsThere(states[i], actions[i]);
    if Matched(states[i].client.pcs[actions[i].thread]) {
      RunKeeps(states, actions, i);
      MatchedIsInstalled(states[i], actions[i].thread);
      RunKeeps(states, actions, opening);
      assert StepAt(states, actions, opening);
      OpeningFindsInstalled(states[opening], actions[opening], p);
      InstalledMeanwhile(states, actions, i, opening, p);
      installed :| i <= installed < opening && InstallsPair(states[installed], actions[installed], p);
      InstallingChecksNothing(states[installed], actions[installed]);
    }
  }

  lemma InstallingChecksNothing(s: System, action: Action)
    requires Installs(s, action)
    ensures !FailsCheck(s, action)
  {
  }

  lemma MatchedIsInstalled(s: System, t: nat)
    requires SystemInv(s) && t < |s.client.pcs| && Matched(s.client.pcs[t])
    ensures PermitOf(s.client.pcs[t]) == s.client.installed
  {
    assert ThreadOk(s.client, t);
  }

  /** What is posted after a quarantine is newer, and was not open when it was made. */
  lemma PostedAfterQuarantine(states: seq<System>, actions: seq<Action>, i: nat, j: nat) returns (p: ProtocolAuthority)
    requires IsRun(states, actions) && i < j < |actions|
    requires Quarantines(states[i], actions[i]) && FirstPost(states[j], actions[j])
    ensures actions[j].Drive? && AllAgree(states[j], actions[j].thread)
    ensures p == states[j].client.pcs[actions[j].thread].permit
    ensures p.generation > states[i].client.pcs[actions[i].thread].permit.generation
    ensures PermitOf(states[i].client.pcs[actions[i].thread]) == Some(states[i].client.pcs[actions[i].thread].permit)
    ensures Unopened(states[i + 1].client, p) && !Unopened(states[j].client, p)
  {
    hide Apply, Enabled, SystemInv, OwnersOk, PermitOf;
    RunKeeps(states, actions, i);
    assert StepAt(states, actions, i);
    QuarantineBars(states[i], actions[i]);
    QuarantinedPermit(states[i], actions[i]);
    StaysNewerOnly(states, actions, i + 1, j, states[i].client.pcs[actions[i].thread].permit.generation);
    FirstPostAllAgree(states, actions, j);
    p := states[j].client.pcs[actions[j].thread].permit;
    assert Matched(states[j].client.pcs[actions[j].thread]);
  }

  /** A submission quarantines its permit only because one of its own checks has failed, in the
      same hold of the serial section. */
  lemma {:induction false} QuarantineFollowsFailedCheck(states: seq<System>, actions: seq<Action>, i: nat, t: nat)
    returns (k: nat)
    requires IsRun(states, actions) && i < |states| && t < |states[i].client.pcs| && Doomed(states[i].client.pcs[t])
    ensures k < i && FailsCheck(states[k], actions[k]) && actions[k].thread == t
    ensures PermitOf(states[k].client.pcs[t]) == PermitOf(states[i].client.pcs[t])
    ensures forall m :: k < m <= i ==> states[m].client.serial == Some(t)
    decreases i
  {
    hide Apply, Enabled, SystemInv, OwnersOk, Doomed, PermitOf, FailsAt, Initial;
    if i == 0 { NobodyStartsDoomed(states[0], t); }
    RunKeeps(states, actions, i);
    DoomedHoldsSerial(states[i], t);
    RunKeeps(states, actions, i - 1);
    assert StepAt(states, actions, i - 1);
    StepDooms(states[i - 1], actions[i - 1], t);
    if FailsCheck(states[i - 1], actions[i - 1]) && actions[i - 1].thread == t {
      k := i - 1;
      FailedIsThere(states[k], actions[k]);
    } else {
      k := QuarantineFollowsFailedCheck(states, actions, i - 1, t);
    }
  }

  lemma NobodyStartsDoomed(s: System, t: nat)
    requires Initial(s) && t < |s.client.pcs|
    ensures !Doomed(s.client.pcs[t])
  {
  }

  // ---- a settled POST -----------------------------------------------------------------------------

  /** Points after a settled answer that does not revoke. */
  predicate Settling(pc: Pc) {
    (pc.AfterPost? && !pc.revokes) || pc.Leave?
  }

  /** Read after the answer, the version is the permit's and the permit still matches. */
  predicate ConfirmsPermit(c: Client, pc: Pc, seen: Observation) {
    pc.AfterPost? ==> seen.ok && seen.version == pc.permit.version && Matches(c.gate, pc.permit)
  }

  lemma SettledGoesOn(c: Client, t: nat, seen: Observation, ctl: Ctl.Pc)
    requires CanGo(c, t, ctl) && Settling(c.pcs[t]) && ConfirmsPermit(c, c.pcs[t], seen)
    ensures Settling(ClientStep(c, t, seen, ctl).pcs[t]) || ClientStep(c, t, seen, ctl).pcs[t].Out?
  {
  }

  lemma SettlingStep(s: System, action: Action, t: nat)
    requires SystemInv(s) && Enabled(s, action) && t < |s.client.pcs| && Settling(s.client.pcs[t])
    requires action.Go? && action.thread == t ==> ConfirmsPermit(s.client, s.client.pcs[t], action.seen)
    ensures Settling(Apply(s, action).client.pcs[t]) || Apply(s, action).client.pcs[t].Out?
    ensures action.Go? && action.thread == t ==> Apply(s, action).client.gate == s.client.gate
  {
    hide Ctl.Apply, Ctl.Enabled, CtlProofs.Inv, ClientStep, AbandonStep, CanGo, Guarantee, GateMoves;
    StepMovesClient(s, action);
    match action
    case Go(u, seen) =>
      if u == t {
        SettledGoesOn(s.client, t, seen, s.ctl.pcs[t]);
        SettlingLeavesGate(s, action);
      } else {
        GoMovesOnlyItself(s, action, t);
      }
    case Abandon(u) => if u == t { AbandonedSettles(s.client, t); } else { GoMovesOnlyItself(s, action, t); }
    case _ =>
  }

  lemma SettlingLeavesGate(s: System, action: Action)
    requires SystemInv(s) && Enabled(s, action) && AtPc(s, action) && Settling(s.client.pcs[action.thread])
    ensures Apply(s, action).client.gate == s.client.gate
  {
    hide Enabled, Apply, SystemInv;
    StepMovesGate(s, action);
  }

  lemma AbandonedSettles(c: Client, t: nat)
    requires t < |c.pcs| && Awaits(c.pcs[t]) && Settling(c.pcs[t])
    ensures Settling(AbandonStep(c, t).pcs[t])
  {
  }

  lemma AnswerSettles(s: System, action: Action)
    requires SystemInv(s) && Enabled(s, action) && AtPc(s, action) && s.client.pcs[action.thread].Posted?
    requires !IsIndeterminate(action.seen.answer) && !RevokesAuthority(action.seen.answer)
    ensures Settling(Apply(s, action).client.pcs[action.thread])
    ensures Apply(s, action).client.gate == s.client.gate
  {
    hide Ctl.Apply, Ctl.Enabled, CtlProofs.Inv, IsIndeterminate, RevokesAuthority;
  }

  /** Conversely a settled answer that does not revoke, with the version read after it equal and
      the permit still matching, leaves the gate as it is: none of the submission's own steps
      touches it, from that answer until the submission is out. */
  lemma {:induction false} SettledPostLeavesGate(states: seq<System>, actions: seq<Action>, i: nat, j: nat)
    requires IsRun(states, actions) && i < j < |states|
    requires AtPc(states[i], actions[i]) && states[i].client.pcs[actions[i].thread].Posted?
    requires !IsIndeterminate(actions[i].seen.answer) && !RevokesAuthority(actions[i].seen.answer)
    requires forall k :: i < k < j ==> StaysIn(states[k], actions[k], actions[i].thread)
    ensures actions[i].thread < |states[j].client.pcs|
    ensures Settling(states[j].client.pcs[actions[i].thread]) || states[j].client.pcs[actions[i].thread].Out?
    ensures forall k :: i <= k < j && actions[k].Go? && actions[k].thread == actions[i].thread ==>
                          states[k + 1].client.gate == states[k].client.gate
    decreases j
  {
    hide Apply, Enabled, SystemInv, OwnersOk, Settling, ConfirmsPermit, IsIndeterminate, RevokesAuthority;
    RunKeeps(states, actions, j - 1);
    assert StepAt(states, actions, j - 1);
    if i + 1 == j {
      AnswerSettles(states[i], actions[i]);
    } else {
      SettledPostLeavesGate(states, actions, i, j - 1);
      assert StaysIn(states[j - 1], actions[j - 1], actions[i].thread);
      SettlingStep(states[j - 1], actions[j - 1], actions[i].thread);
    }
  }

  // ---- a submission dropped after its answer --------------------------------------------------------

  lemma AbandoningLeaves(s: System, t: nat)
    requires SystemInv(s) && Enabled(s, Abandon(t)) && InSubmission(s.client.pcs[t])
    ensures Apply(s, Abandon(t)).client.pcs[t].Leave? && Apply(s, Abandon(t)).client.gate == s.client.gate
  {
    hide Ctl.Apply, Ctl.Enabled, CtlProofs.Inv;
  }

  /** A submission that is dropped, at whatever await, leaves the gate as it is: neither that step
      nor any of its own steps after it touches the gate. So a revoking answer retires the
      permit's generation exactly when its submission lives to read the version after it. */
  lemma {:induction false} AbandonedSubmissionLeavesGate(
    states: seq<System>, actions: seq<Action>, i: nat, j: nat, t: nat)
    requires IsRun(states, actions) && i < j < |states| && t < |states[i].client.pcs|
    requires actions[i] == Abandon(t) && InSubmission(states[i].client.pcs[t])
    requires forall k :: i < k < j ==> t < |states[k].client.pcs| && !states[k].client.pcs[t].Out?
    ensures t < |states[j].client.pcs| && (states[j].client.pcs[t].Leave? || states[j].client.pcs[t].Out?)
    ensures states[i + 1].client.gate == states[i].client.gate
    ensures forall k :: i < k < j && actions[k].Go? && actions[k].thread == t ==>
                          states[k + 1].client.gate == states[k].client.gate
    decreases j
  {
    hide Apply, Enabled, SystemInv, OwnersOk, InSubmission;
    RunKeeps(states, actions, j - 1);
    assert StepAt(states, actions, j - 1);
    if i + 1 == j {
      AbandoningLeaves(states[i], t);
    } else {
      AbandonedSubmissionLeavesGate(states, actions, i, j - 1, t);
      LeavingStep(states[j - 1], actions[j - 1], t);
    }
  }

  lemma LeavingStep(s: System, action: Action, t: nat)
    requires SystemInv(s) && Enabled(s, action) && t < |s.client.pcs| && s.client.pcs[t].Leave?
    ensures Apply(s, action).client.pcs[t].Leave? || Apply(s, action).client.pcs[t].Out?
    ensures action.Go? && action.thread == t ==> Apply(s, action).client.gate == s.client.gate
  {
    hide Ctl.Apply, Ctl.Enabled, CtlProofs.Inv, ClientStep, AbandonStep, CanGo, Guarantee, GateMoves;
    StepMovesClient(s, action);
    match action
    case Go(u, seen) =>
      if u == t {
        LeaveGoesOn(s.client, t, seen, s.ctl.pcs[t]);
        SettlingLeavesGate(s, action);
      } else {
        GoMovesOnlyItself(s, action, t);
      }
    case Abandon(u) => if u != t { GoMovesOnlyItself(s, action, t); }
    case _ =>
  }

  lemma LeaveGoesOn(c: Client, t: nat, seen: Observation, ctl: Ctl.Pc)
    requires CanGo(c, t, ctl) && c.pcs[t].Leave?
    ensures ClientStep(c, t, seen, ctl).pcs[t].Leave? || ClientStep(c, t, seen, ctl).pcs[t].Out?
  {
  }

  /** The venue refuses an order because its version is stale. */
  lemma StaleAnswer() returns (seen: Observation)
    ensures seen.answer == Err(Errors.Built(Errors.Answered(400, "order_version_mismatch")))
    ensures RevokesAuthority(seen.answer) && !IsIndeterminate(seen.answer)
  {
    var raw := "order_version_mismatch";
    assert Bytes.LowerAll(raw) == raw;
    assert Bytes.OccursAt(Bytes.LowerAll(raw), raw, 0);
    hide Errors.Built, Bytes.LowerAll, Bytes.OccursAt;
    seen := Observation(true, 1, 0, Err(Errors.Built(Errors.Answered(400, raw))));
    RevokingAnswersAre(seen.answer, Errors.Answered(400, raw));
    RevokingIsDefinite(seen.answer);
  }

  lemma AnswerAwaited()
    ensures Witness.Reachable(System(Witness.Minted(Ctl.Idle, None), Witness.Submitting(Posted(Witness.BUILT, Witness.A))))
  {
    hide Witness.Reachable;
    var k := Witness.Submitting(Posting(Witness.BUILT, Witness.A, 1, true));
    var answered := Witness.Submitting(Posted(Witness.BUILT, Witness.A));
    var validated, polling := Witness.Minted(Ctl.Validated(0), Some(0)), Witness.Minted(Ctl.Polling(0), Some(0));
    Witness.BuiltOrderValidated();
    Witness.StepTo(System(validated, k), Drive(0, Ctl.Advance(0)), System(polling, answered));
    Witness.StepTo(System(polling, answered), Drive(0, Ctl.FirstPollReturns(0, Ctl.Ready)),
                   System(Witness.Minted(Ctl.Idle, None), answered));
  }

  function Answering(pc: Pc): System {
    System(Witness.Minted(Ctl.Idle, None), Witness.Submitting(pc))
  }

  lemma StaleAnswerArrives(seen: Observation)
    requires RevokesAuthority(seen.answer) && !IsIndeterminate(seen.answer)
    ensures var s := Answering(Posted(Witness.BUILT, Witness.A));
            Enabled(s, Go(0, seen)) && Apply(s, Go(0, seen)) == Answering(AfterPost(Witness.BUILT, Witness.A, true))
  {
    hide IsIndeterminate, RevokesAuthority;
  }

  lemma VersionReadIsDropped()
    ensures var s := Answering(AfterPost(Witness.BUILT, Witness.A, true));
            Enabled(s, Abandon(0)) && Apply(s, Abandon(0)) == Answering(Leave(Witness.BUILT, true, true))
  {
  }

  /** One run in which the venue's answer revokes the authority, the submission is dropped while
      it reads the version, and the gate stays open for the revoked permit. */
  lemma RevokedGateMayStayOpen() returns (states: seq<System>, actions: seq<Action>, i: nat, seen: Observation)
    ensures IsRun(states, actions) && |actions| == i + 2
    ensures states[i] == Answering(Posted(Witness.BUILT, Witness.A)) && actions[i] == Go(0, seen)
    ensures RevokesAuthority(seen.answer) && actions[i + 1] == Abandon(0)
    ensures states[i + 2] == Answering(Leave(Witness.BUILT, true, true)) && Matches(states[i + 2].client.gate, Witness.A)
  {
    seen := StaleAnswer();
    AnswerAwaited();
    StaleAnswerArrives(seen);
    VersionReadIsDropped();
    assert Matches(Answering(Leave(Witness.BUILT, true, true)).client.gate, Witness.A);
    hide Enabled, Apply, Initial, RevokesAuthority, IsIndeterminate, Errors.Built, Answering, Matches;
    var posted, answered := Answering(Posted(Witness.BUILT, Witness.A)), Answering(AfterPost(Witness.BUILT, Witness.A, true));
    var before, taken :| Witness.Reaches(before, taken, posted);
    states := before + [answered, Answering(Leave(Witness.BUILT, true, true))];
    actions, i := taken + [Go(0, seen), Abandon(0)], |taken|;
    forall j | 0 <= j < |actions| ensures StepAt(states, actions, j) {
      assert j < |taken| ==> StepAt(before, taken, j);
    }
  }

  /** Thread `t` is not out yet, and if it reads the version now, it finds its permit confirmed. */
  predicate StaysIn(s: System, action: Action, t: nat) {
    && t < |s.client.pcs| && !s.client.pcs[t].Out?
    && (action.Go? && action.thread == t ==> ConfirmsPermit(s.client, s.client.pcs[t], action.seen))
  }

  /** Which answers revoke, read off the venue's response or the raw failure. */
  lemma RevokingAnswersAre(answer: Answer, f: Errors.Failure)
    ensures answer.Ok? ==> !RevokesAuthority(answer)
    ensures answer == Err(Errors.Built(f)) ==>
              (RevokesAuthority(answer) <==>
               || (f.Invalid? && f.reason in {"authenticated protocol authority is revoked",
                                              "authenticated protocol authority is unavailable",
                                              "authenticated protocol authority changed"})
               || (f.Answered? && f.code / 100 != 5 && f.code !in {401, 403, 429}
                   && (Hints.Says(f.raw, "order_version_mismatch")
                       || (Hints.Says(f.raw, "not enough balance / allowance") && Hints.Says(f.raw, "balance: 0")))))
  {
    Errors.FailureIsReportedFromItsBody(f);
    Errors.BodyRevokesIff(f);
    hide Errors.Built, Errors.Reported;
  }
}
