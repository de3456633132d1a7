/** What stands behind every POST, opening and installed pair of a run: the checks that were
    passed, in their order, and where the permit and the guard come from. */
module ClientEvidence {
  import opened Authority
  import opened ProtocolGate
  import opened ClientProtocol
  import opened ClientProofs
  import opened ClientLink
  import opened ClientOwnership
  import opened ClientSafety
  import opened ClientChecks
  import Ctl = SubmissionProtocol
  import CtlProofs = SubmissionProofs

  // ---- the checks behind a POST -------------------------------------------------------------------

  /** What a submission has found out, in the order in which it did. */
  datatype Check =
    | Says(version: Option<nat>)
    | Agree(stillAuthorized: bool)
    | Attempted(confirmed: bool)
    | BuiltOrder(ok: bool, order: nat)
    | SignedOrder(ok: bool)
    | StillOpen(matches: bool)

  /** What the step lets the submission on thread `t` find out. */
  function Finds(s: System, action: Action, t: nat): seq<Check> {
    if !AtPc(s, action) || action.thread != t || t >= |s.ctl.pcs| then []
    else
      var c, seen := s.client, action.seen;
      match c.pcs[t]
      case ReadVersion(_, _) => [Says(if seen.ok then Some(seen.version) else None)]
      case MatchFirst(_, p, _) => [Agree(StillAuthorized(c, p))]
      case RevalidateFirst(job, _, called) => FindsAttempt(job, called, s.ctl.pcs[t])
      case Build(_, _) => [BuiltOrder(seen.ok, seen.version)]
      case ReadVersionAgain(_, _, _) => [Says(if seen.ok then Some(seen.version) else None)]
      case MatchAgain(_, p, _, _) => [Agree(StillAuthorized(c, p))]
      case RevalidateAgain(job, _, _, called) => FindsAttempt(job, called, s.ctl.pcs[t])
      case Sign(_, _, _) => [SignedOrder(seen.ok)]
      case MatchSigned(_, p, _) => [StillOpen(Matches(c.gate, p))]
      case _ => []
  }

  function FindsAttempt(job: Job, called: bool, ctl: Ctl.Pc): seq<Check> {
    if called then [Attempted(ctl.Confirmed?)] else if AttemptOf(job).Own? then [] else [Attempted(false)]
  }

  /** The thread enters the serial section: a new submission begins its checks. */
  predicate EntersSection(s: System, action: Action, t: nat) {
    AtPc(s, action) && action.thread == t && s.client.pcs[t].WantSerial?
  }

  /** Everything the submission on thread `t` has found out by state `i`. */
  ghost function History(states: seq<System>, actions: seq<Action>, t: nat, i: nat): seq<Check>
    requires |states| == |actions| + 1 && i < |states|
    decreases i
  {
    if i == 0 then []
    else if EntersSection(states[i - 1], actions[i - 1], t) then []
    else History(states, actions, t, i - 1) + Finds(states[i - 1], actions[i - 1], t)
  }

  function FirstRead(v: nat): seq<Check> { [Says(Some(v))] }
  function FirstMatch(p: ProtocolAuthority): seq<Check> { FirstRead(p.version) + [Agree(true)] }
  function FirstLook(p: ProtocolAuthority): seq<Check> { FirstMatch(p) + [Attempted(true)] }

  /** Before the second look: an order built now, rather than before, is built after the first. */
  function BeforeAgain(job: Job, p: ProtocolAuthority, order: nat): seq<Check> {
    if job.SubmitPrepared? then FirstLook(p) else FirstLook(p) + [BuiltOrder(true, order)]
  }

  function SecondMatch(job: Job, p: ProtocolAuthority): seq<Check> {
    BeforeAgain(job, p, p.version) + [Says(Some(p.version))] + [Agree(true)]
  }

  function SecondLook(job: Job, p: ProtocolAuthority): seq<Check> {
    SecondMatch(job, p) + [Attempted(true)]
  }

  /** Before signing: a preparation builds after its first match and looks no further. */
  function BeforeSigning(job: Job, p: ProtocolAuthority, order: nat): seq<Check> {
    if job.Prepare? then FirstMatch(p) + [BuiltOrder(true, order)] else SecondLook(job, p)
  }

  /** What a submission at `pc` must have found out to be there. */
  function Found(pc: Pc): Option<seq<Check>> {
    match pc
    case WantPermit(_) | WantGuard(_, _) | ReadVersion(_, _) => Some([])
    case MatchFirst(_, _, v) => Some(FirstRead(v))
    case RevalidateFirst(_, p, _) => Some(FirstMatch(p))
    case Build(job, p) => Some(if job.Prepare? then FirstMatch(p) else FirstLook(p))
    case ReadVersionAgain(job, p, o) => Some(BeforeAgain(job, p, o))
    case MatchAgain(job, p, o, v) => Some(BeforeAgain(job, p, o) + [Says(Some(v))])
    case RevalidateAgain(job, p, _, _) => Some(SecondMatch(job, p))
    case Sign(job, p, o) => Some(BeforeSigning(job, p, o))
    case MatchSigned(job, p, o) => Some(BeforeSigning(job, p, o) + [SignedOrder(true)])
    case Posting(job, p, _, _) =>
      Some(if job.SubmitPrepared? then SecondLook(job, p)
           else SecondLook(job, p) + [SignedOrder(true)] + [StillOpen(true)])
    case _ => None
  }

  /** A submission that revalidates or posts has an attempt; one that prepares does not. */
  predicate JobFits(pc: Pc) {
    match pc
    case RevalidateFirst(job, _, _) => !job.Prepare?
    case ReadVersionAgain(job, _, _) => !job.Prepare?
    case MatchAgain(job, _, _, _) => !job.Prepare?
    case RevalidateAgain(job, _, _, _) => !job.Prepare?
    case Posting(job, _, _, _) => !job.Prepare?
    case Sign(job, _, _) => !job.SubmitPrepared?
    case MatchSigned(job, _, _) => !job.SubmitPrepared?
    case Build(job, _) => !job.SubmitPrepared?
    case _ => true
  }

  /** Going on from `pc` to `pc'` with `found` extends what was found as `pc'` requires. */
  predicate FindsWhatItNeeds(pc: Pc, pc': Pc, found: seq<Check>) {
    && (JobFits(pc) ==> JobFits(pc'))
    && (JobFits(pc) && Found(pc').Some? && !pc.WantSerial? ==>
          Found(pc).Some? && Found(pc').value == Found(pc).value + found)
    && (pc.WantSerial? && Found(pc').Some? ==> Found(pc').value == [])
  }

  lemma EnterFinds(s: System, action: Action, t: nat)
    requires t < |s.ctl.pcs| && action.Go? && action.thread == t && CanEnterSection(s.client, t)
    ensures FindsWhatItNeeds(s.client.pcs[t], EnterSection(s.client, t, action.seen).pcs[t], Finds(s, action, t))
  {
  }

  lemma ReachFinds(s: System, action: Action, t: nat)
    requires t < |s.ctl.pcs| && action.Go? && action.thread == t && CanReachPost(s.client, t)
    ensures FindsWhatItNeeds(s.client.pcs[t], ReachPost(s.client, t, action.seen).pcs[t], Finds(s, action, t))
  {
  }

  lemma CallFinds(s: System, action: Action, t: nat)
    requires t < |s.ctl.pcs| && action.Go? && action.thread == t && CanCallController(s.client, t, s.ctl.pcs[t])
    requires InSubmission(s.client.pcs[t]) ==> forall p :: !ForeignPasses(s.client, s.client.pcs[t].job, p, action.seen.ok)
    ensures FindsWhatItNeeds(s.client.pcs[t], CallController(s.client, t, action.seen, s.ctl.pcs[t]).pcs[t], Finds(s, action, t))
  {
    hide ForeignPasses, IsIndeterminate, RevokesAuthority;
  }

  lemma ExitFinds(c: Client, t: nat, seen: Observation)
    requires CanExitSection(c, t)
    ensures Found(ExitSection(c, t, seen).pcs[t]).None? && JobFits(ExitSection(c, t, seen).pcs[t])
  {
  }

  lemma RefreshFinds(c: Client, t: nat, seen: Observation)
    requires CanRefresh(c, t)
    ensures Found(RefreshStep(c, t, seen).pcs[t]).None? && JobFits(RefreshStep(c, t, seen).pcs[t])
  {
  }

  lemma ActivationFinds(c: Client, t: nat, seen: Observation)
    requires CanActivateStep(c, t)
    ensures Found(ActivationStep(c, t, seen).pcs[t]).None? && JobFits(ActivationStep(c, t, seen).pcs[t])
  {
  }

  lemma AbandonFinds(c: Client, t: nat)
    requires t < |c.pcs| && Awaits(c.pcs[t])
    ensures Found(AbandonStep(c, t).pcs[t]).None? && JobFits(AbandonStep(c, t).pcs[t])
  {
  }

  lemma GoFinds(s: System, action: Action, t: nat)
    requires SystemInv(s) && OwnersOk(s) && t < |s.client.pcs| && action.Go? && action.thread == t
    requires CanGo(s.client, t, s.ctl.pcs[t])
    ensures FindsWhatItNeeds(s.client.pcs[t], ClientStep(s.client, t, action.seen, s.ctl.pcs[t]).pcs[t], Finds(s, action, t))
  {
    hide CanEnterSection, CanReachPost, CanCallController, CanExitSection, CanRefresh, CanActivateStep;
    hide EnterSection, ReachPost, CallController, ExitSection, RefreshStep, ActivationStep;
    hide Found, JobFits, Finds, CtlProofs.Inv, ClientInv, ForeignPasses, InSubmission, OwnersOk;
    var c := s.client;
    if CanEnterSection(c, t) { EnterFinds(s, action, t); }
    else if CanReachPost(c, t) { ReachFinds(s, action, t); }
    else if CanCallController(c, t, s.ctl.pcs[t]) {
      if InSubmission(c.pcs[t]) { ForeignNeverPasses(s, t, action.seen.ok); }
      CallFinds(s, action, t);
    }
    else if CanExitSection(c, t) { ExitFinds(c, t, action.seen); }
    else if CanRefresh(c, t) { RefreshFinds(c, t, action.seen); }
    else { ActivationFinds(c, t, action.seen); }
  }

  lemma StepFinds(s: System, action: Action, t: nat)
    requires SystemInv(s) && OwnersOk(s) && Enabled(s, action) && t < |s.client.pcs|
    ensures FindsWhatItNeeds(s.client.pcs[t], Apply(s, action).client.pcs[t], Finds(s, action, t))
    ensures s.client.pcs[t].WantSerial? && Found(Apply(s, action).client.pcs[t]).Some? ==> EntersSection(s, action, t)
  {
    hide Ctl.Apply, Ctl.Enabled, CtlProofs.Inv, ClientStep, AbandonStep, CanGo, Guarantee, OwnersOk;
    StepMovesClient(s, action);
    match action
    case Go(u, seen) =>
      if u == t { GoFinds(s, action, t); } else { GoMovesOnlyItself(s, action, t); }
    case Abandon(u) =>
      if u == t { AbandonFinds(s.client, t); } else { GoMovesOnlyItself(s, action, t); }
    case _ =>
  }

  /** A submission on its way to a POST has found out exactly what its point requires. */
  lemma {:induction false} HistoryIsFound(states: seq<System>, actions: seq<Action>, t: nat, i: nat)
    requires IsRun(states, actions) && i < |states| && t < |states[i].client.pcs|
    ensures JobFits(states[i].client.pcs[t])
    ensures Found(states[i].client.pcs[t]).Some? ==>
              History(states, actions, t, i) == Found(states[i].client.pcs[t]).value
    decreases i
  {
    hide Apply, Enabled, SystemInv, OwnersOk, Found, JobFits, Finds, Initial;
    if i == 0 {
      NobodyStartsInside(states[0], t);
    } else {
      RunKeeps(states, actions, i - 1);
      assert StepAt(states, actions, i - 1);
      HistoryIsFound(states, actions, t, i - 1);
      StepFinds(states[i - 1], actions[i - 1], t);
    }
  }

  lemma NobodyStartsInside(s: System, t: nat)
    requires Initial(s) && t < |s.client.pcs|
    ensures JobFits(s.client.pcs[t]) && Found(s.client.pcs[t]).None?
  {
  }

  /** Every POST has passed its checks, in this order and in one hold of the serial section. A
      prepared order: the version, the match, the revalidation, and all three again. An order
      built on the spot: the same, built in between, and after them signed and matched once more. */
  lemma EveryPostPassedItsChecks(states: seq<System>, actions: seq<Action>, i: nat)
    requires IsRun(states, actions) && i < |actions| && FirstPost(states[i], actions[i])
    ensures actions[i].Drive? && AllAgree(states[i], actions[i].thread)
    ensures var t := actions[i].thread;
            var v := states[i].client.pcs[t].permit.version;
            History(states, actions, t, i) ==
            if states[i].client.pcs[t].job.SubmitPrepared?
            then [Says(Some(v)), Agree(true), Attempted(true), Says(Some(v)), Agree(true), Attempted(true)]
            else [Says(Some(v)), Agree(true), Attempted(true), BuiltOrder(true, v),
                  Says(Some(v)), Agree(true), Attempted(true), SignedOrder(true), StillOpen(true)]
  {
    hide Apply, Enabled, SystemInv, OwnersOk, Found, JobFits, History;
    FirstPostAllAgree(states, actions, i);
    HistoryIsFound(states, actions, actions[i].thread, i);
    PostingFound(states[i].client.pcs[actions[i].thread]);
  }

  lemma PostingFound(pc: Pc)
    requires pc.Posting? && JobFits(pc)
    ensures var v := pc.permit.version;
            && Found(pc).Some?
            && (pc.job.SubmitPrepared? ==>
                  Found(pc).value ==
                  [Says(Some(v)), Agree(true), Attempted(true), Says(Some(v)), Agree(true), Attempted(true)])
            && (!pc.job.SubmitPrepared? ==>
                  Found(pc).value ==
                  [Says(Some(v)), Agree(true), Attempted(true), BuiltOrder(true, v),
                   Says(Some(v)), Agree(true), Attempted(true), SignedOrder(true), StillOpen(true)])
  {
  }

  /** A prepared order was built and signed under a version and a match of its own permit. */
  lemma PreparationPassedItsChecks(states: seq<System>, actions: seq<Action>, i: nat, t: nat)
    requires IsRun(states, actions) && i < |states| && t < |states[i].client.pcs|
    requires states[i].client.pcs[t].MatchSigned? && states[i].client.pcs[t].job.Prepare?
    ensures History(states, actions, t, i) ==
            [Says(Some(states[i].client.pcs[t].permit.version)), Agree(true),
             BuiltOrder(true, states[i].client.pcs[t].order), SignedOrder(true)]
  {
    hide Apply, Enabled, SystemInv, OwnersOk, History;
    HistoryIsFound(states, actions, t, i);
  }

  // ---- the checks behind an opening and an installed pair ------------------------------------------

  /** An activation that has read the version it expects. */
  predicate Observed(pc: Pc, p: ProtocolAuthority) {
    pc == WantGate(p) || pc == Closure(p)
  }

  /** The step reads the installed client's version and finds it is `p`'s. */
  predicate ObservesVersion(s: System, action: Action, p: ProtocolAuthority) {
    && AtPc(s, action) && s.client.pcs[action.thread] == Observe(p)
    && action.seen.ok && action.seen.version == p.version
  }

  predicate Pending(pc: Pc) {
    pc.Rebuilding? || pc.Installing?
  }

  predicate AboutToOpen(pc: Pc) {
    pc.WantGate? || pc.Closure?
  }

  lemma EnterIsAside(c: Client, t: nat, seen: Observation)
    requires CanEnterSection(c, t)
    ensures !Pending(EnterSection(c, t, seen).pcs[t]) && !AboutToOpen(EnterSection(c, t, seen).pcs[t])
  {
  }

  lemma ReachIsAside(c: Client, t: nat, seen: Observation)
    requires CanReachPost(c, t)
    ensures !Pending(ReachPost(c, t, seen).pcs[t]) && !AboutToOpen(ReachPost(c, t, seen).pcs[t])
  {
  }

  lemma CallIsAside(c: Client, t: nat, seen: Observation, ctl: Ctl.Pc)
    requires CanCallController(c, t, ctl)
    ensures !Pending(CallController(c, t, seen, ctl).pcs[t]) && !AboutToOpen(CallController(c, t, seen, ctl).pcs[t])
  {
    hide IsIndeterminate, RevokesAuthority, ForeignPasses;
  }

  lemma ExitIsAside(c: Client, t: nat, seen: Observation)
    requires CanExitSection(c, t)
    ensures !Pending(ExitSection(c, t, seen).pcs[t]) && !AboutToOpen(ExitSection(c, t, seen).pcs[t])
  {
  }

  lemma RefreshPends(c: Client, t: nat, seen: Observation)
    requires CanRefresh(c, t)
    ensures var pc, pc' := c.pcs[t], RefreshStep(c, t, seen).pcs[t];
            && !AboutToOpen(pc')
            && (pc'.Rebuilding? ==> pc'.generation <= U64_MAX)
            && (pc'.Installing? ==>
                  && pc.Rebuilding? && seen.ok
                  && pc'.authority == ProtocolAuthority(seen.version, pc.generation, seen.identity))
  {
  }

  lemma ActivationOpens(c: Client, t: nat, seen: Observation)
    requires CanActivateStep(c, t)
    ensures var pc, pc' := c.pcs[t], ActivationStep(c, t, seen).pcs[t];
            && !Pending(pc')
            && (pc'.WantGate? ==> pc == Observe(pc'.expected) && seen.ok && seen.version == pc'.expected.version)
            && (pc'.Closure? ==> pc == WantGate(pc'.expected))
  {
  }

  /** Whose step can lead to rebuilding, installing or opening, and from what. */
  lemma GoPendsOrOpens(c: Client, t: nat, seen: Observation, ctl: Ctl.Pc)
    requires CanGo(c, t, ctl)
    ensures var pc, pc' := c.pcs[t], ClientStep(c, t, seen, ctl).pcs[t];
            && (pc'.WantGate? ==> pc == Observe(pc'.expected) && seen.ok && seen.version == pc'.expected.version)
            && (pc'.Closure? ==> pc == WantGate(pc'.expected))
            && (pc'.Rebuilding? ==> pc'.generation <= U64_MAX)
            && (pc'.Installing? ==>
                  && pc.Rebuilding? && seen.ok
                  && pc'.authority == ProtocolAuthority(seen.version, pc.generation, seen.identity))
  {
    hide CanEnterSection, CanReachPost, CanCallController, CanExitSection, CanRefresh, CanActivateStep;
    hide EnterSection, ReachPost, CallController, ExitSection, RefreshStep, ActivationStep;
    if CanEnterSection(c, t) { EnterIsAside(c, t, seen); }
    else if CanReachPost(c, t) { ReachIsAside(c, t, seen); }
    else if CanCallController(c, t, ctl) { CallIsAside(c, t, seen, ctl); }
    else if CanExitSection(c, t) { ExitIsAside(c, t, seen); }
    else if CanRefresh(c, t) { RefreshPends(c, t, seen); }
    else { ActivationOpens(c, t, seen); }
  }

  lemma StepObserves(s: System, action: Action, t: nat, p: ProtocolAuthority)
    requires SystemInv(s) && Enabled(s, action) && t < |s.client.pcs|
    requires Observed(Apply(s, action).client.pcs[t], p)
    ensures Observed(s.client.pcs[t], p) || (ObservesVersion(s, action, p) && action.thread == t)
  {
    hide Ctl.Apply, Ctl.Enabled, CtlProofs.Inv, ClientStep, CanGo, Guarantee;
    StepMovesClient(s, action);
    match action
    case Go(u, seen) =>
      if u == t { GoPendsOrOpens(s.client, t, seen, s.ctl.pcs[t]); } else { GoMovesOnlyItself(s, action, t); }
    case Abandon(u) => if u != t { GoMovesOnlyItself(s, action, t); }
    case _ =>
  }

  /** The gate is opened for an authority only after the same activation has read the version of
      the installed client and found it to be that authority's; and while it goes on from there
      the installed pair stays that authority's. */
  lemma {:induction false} OpeningWasObserved(
    states: seq<System>, actions: seq<Action>, i: nat, t: nat, p: ProtocolAuthority) returns (k: nat)
    requires IsRun(states, actions) && i < |states| && t < |states[i].client.pcs|
    requires Observed(states[i].client.pcs[t], p)
    ensures k < i && ObservesVersion(states[k], actions[k], p) && actions[k].thread == t
    ensures forall m :: k < m <= i ==>
                          && states[m].client.refreshing == Some(t) && t in states[m].client.readers
                          && states[m].client.installed == Some(p)
    decreases i
  {
    hide Apply, Enabled, SystemInv, OwnersOk, Observed, Initial;
    if i == 0 { NobodyStartsObserved(states[0], t, p); }
    RunKeeps(states, actions, i);
    ObservedHolds(states[i], t, p);
    RunKeeps(states, actions, i - 1);
    assert StepAt(states, actions, i - 1);
    StepObserves(states[i - 1], actions[i - 1], t, p);
    if Observed(states[i - 1].client.pcs[t], p) {
      k := OpeningWasObserved(states, actions, i - 1, t, p);
    } else {
      k := i - 1;
    }
  }

  lemma NobodyStartsObserved(s: System, t: nat, p: ProtocolAuthority)
    requires Initial(s) && t < |s.client.pcs|
    ensures !Observed(s.client.pcs[t], p)
  {
  }

  lemma ObservedHolds(s: System, t: nat, p: ProtocolAuthority)
    requires SystemInv(s) && t < |s.client.pcs| && Observed(s.client.pcs[t], p)
    ensures s.client.refreshing == Some(t) && t in s.client.readers && s.client.installed == Some(p)
  {
    assert ThreadOk(s.client, t);
  }

  /** The step rebuilds the client as `a`. */
  predicate Rebuilds(s: System, action: Action, a: ProtocolAuthority) {
    && AtPc(s, action) && s.client.pcs[action.thread].Rebuilding? && action.seen.ok
    && a.version == action.seen.version && a.identity == action.seen.identity
    && a.generation == Generation(s.client.installed) + 1
  }

  lemma StepRebuilds(s: System, action: Action, t: nat, a: ProtocolAuthority)
    requires SystemInv(s) && Enabled(s, action) && t < |s.client.pcs|
    requires Apply(s, action).client.pcs[t] == Installing(a)
    ensures s.client.pcs[t] == Installing(a) || (Rebuilds(s, action, a) && action.thread == t)
  {
    hide Ctl.Apply, Ctl.Enabled, CtlProofs.Inv, ClientStep, CanGo, Guarantee;
    StepMovesClient(s, action);
    match action
    case Go(u, seen) =>
      if u == t {
        GoPendsOrOpens(s.client, t, seen, s.ctl.pcs[t]);
        assert ThreadOk(s.client, t);
      } else { GoMovesOnlyItself(s, action, t); }
    case Abandon(u) => if u != t { GoMovesOnlyItself(s, action, t); }
    case _ =>
  }

  /** An installed pair is the one its refresh rebuilt: the version and identity it observed, under
      the generation after the one installed then; and the gate is not open in between. */
  lemma {:induction false} InstalledPairWasObserved(
    states: seq<System>, actions: seq<Action>, i: nat, t: nat, a: ProtocolAuthority) returns (k: nat)
    requires IsRun(states, actions) && i < |states| && t < |states[i].client.pcs|
    requires states[i].client.pcs[t] == Installing(a)
    ensures k < i && Rebuilds(states[k], actions[k], a) && actions[k].thread == t
    ensures forall m :: k < m <= i ==>
                          && states[m].client.refreshing == Some(t) && !states[m].client.gate.state.Active?
                          && a.generation == Generation(states[m].client.installed) + 1
    decreases i
  {
    hide Apply, Enabled, SystemInv, OwnersOk, Initial;
    if i == 0 { NobodyStartsRefreshing(states[0], t); }
    RunKeeps(states, actions, i);
    InstallingHolds(states[i], t);
    RunKeeps(states, actions, i - 1);
    assert StepAt(states, actions, i - 1);
    StepRebuilds(states[i - 1], actions[i - 1], t, a);
    if states[i - 1].client.pcs[t] == Installing(a) {
      k := InstalledPairWasObserved(states, actions, i - 1, t, a);
    } else {
      k := i - 1;
    }
  }

  lemma NobodyStartsRefreshing(s: System, t: nat)
    requires Initial(s) && t < |s.client.pcs|
    ensures !s.client.pcs[t].Installing? && !s.client.pcs[t].Rebuilding?
  {
  }

  lemma InstallingHolds(s: System, t: nat)
    requires SystemInv(s) && t < |s.client.pcs| && s.client.pcs[t].Installing?
    ensures s.client.refreshing == Some(t) && !s.client.gate.state.Active?
    ensures s.client.pcs[t].authority.generation == Generation(s.client.installed) + 1
  {
    assert ThreadOk(s.client, t);
  }

  // ---- the generation counter -------------------------------------------------------------------

  /** Every generation in use fits in 64 bits. */
  ghost predicate GenerationsFit(c: Client) {
    && Generation(c.installed) <= U64_MAX
    && forall t :: 0 <= t < |c.pcs| ==> PendingFits(c.pcs[t])
  }

  predicate PendingFits(pc: Pc) {
    (pc.Rebuilding? ==> pc.generation <= U64_MAX) && (pc.Installing? ==> pc.authority.generation <= U64_MAX)
  }

  lemma StepFits(s: System, action: Action)
    requires SystemInv(s) && Enabled(s, action) && GenerationsFit(s.client)
    ensures GenerationsFit(Apply(s, action).client)
  {
    hide Ctl.Apply, Ctl.Enabled, Apply, Enabled, SystemInv, PendingFits;
    var s' := Apply(s, action);
    StepMovesClient(s, action);
    forall t | 0 <= t < |s'.client.pcs| ensures PendingFits(s'.client.pcs[t]) { ThreadFits(s, action, t); }
    if s'.client.installed != s.client.installed {
      if s'.client.installed.Some? {
        PairInstalledByRefresh(s, action, s'.client.installed.value);
        PendingIs(s.client.pcs[action.thread]);
      }
    }
  }

  lemma PendingIs(pc: Pc)
    requires PendingFits(pc) && pc.Installing?
    ensures pc.authority.generation <= U64_MAX
  {
  }

  lemma ThreadFits(s: System, action: Action, t: nat)
    requires SystemInv(s) && Enabled(s, action) && t < |s.client.pcs| && PendingFits(s.client.pcs[t])
    ensures PendingFits(Apply(s, action).client.pcs[t])
  {
    hide Ctl.Apply, Ctl.Enabled, CtlProofs.Inv, ClientStep, CanGo, Guarantee;
    StepMovesClient(s, action);
    match action
    case Go(u, seen) =>
      if u == t { GoPendsOrOpens(s.client, t, seen, s.ctl.pcs[t]); } else { GoMovesOnlyItself(s, action, t); }
    case Abandon(u) => if u != t { GoMovesOnlyItself(s, action, t); }
    case _ =>
  }

  /** The generation counter never passes 64 bits: at its end refreshes stop installing. */
  lemma {:induction false} InstalledGenerationFits(states: seq<System>, actions: seq<Action>, i: nat)
    requires IsRun(states, actions) && i < |states|
    ensures GenerationsFit(states[i].client)
  {
    hide Apply, Enabled, SystemInv, OwnersOk, PendingFits, Initial;
    if i == 0 {
      StartsFitting(states[0]);
    } else {
      InstalledGenerationFits(states, actions, i - 1);
      RunKeeps(states, actions, i - 1);
      assert StepAt(states, actions, i - 1);
      StepFits(states[i - 1], actions[i - 1]);
    }
  }

  lemma StartsFitting(s: System)
    requires Initial(s)
    ensures GenerationsFit(s.client)
  {
  }

  // ---- one guard inside one section ----------------------------------------------------------------

  /** The guards are dropped inside out. */
  predicate Nested(pc: Pc) {
    pc.Leave? && pc.guard ==> pc.serial
  }

  lemma EnterNests(c: Client, t: nat, seen: Observation)
    requires CanEnterSection(c, t)
    ensures Nested(EnterSection(c, t, seen).pcs[t])
  {
  }

  lemma ReachNests(c: Client, t: nat, seen: Observation)
    requires CanReachPost(c, t)
    ensures Nested(ReachPost(c, t, seen).pcs[t])
  {
  }

  lemma CallNests(c: Client, t: nat, seen: Observation, ctl: Ctl.Pc)
    requires CanCallController(c, t, ctl)
    ensures Nested(CallController(c, t, seen, ctl).pcs[t])
  {
    hide IsIndeterminate, RevokesAuthority, ForeignPasses;
  }

  lemma ExitNests(c: Client, t: nat, seen: Observation)
    requires CanExitSection(c, t) && Nested(c.pcs[t])
    ensures Nested(ExitSection(c, t, seen).pcs[t])
  {
  }

  lemma OutsideNests(c: Client, t: nat, seen: Observation)
    ensures CanRefresh(c, t) ==> Nested(RefreshStep(c, t, seen).pcs[t])
    ensures CanActivateStep(c, t) ==> Nested(ActivationStep(c, t, seen).pcs[t])
  {
  }

  lemma AbandonNests(c: Client, t: nat)
    requires t < |c.pcs| && Awaits(c.pcs[t])
    ensures Nested(AbandonStep(c, t).pcs[t])
  {
  }

  lemma GoNests(c: Client, t: nat, seen: Observation, ctl: Ctl.Pc)
    requires CanGo(c, t, ctl) && Nested(c.pcs[t])
    ensures Nested(ClientStep(c, t, seen, ctl).pcs[t])
  {
    hide CanEnterSection, CanReachPost, CanCallController, CanExitSection, CanRefresh, CanActivateStep, Nested;
    hide EnterSection, ReachPost, CallController, ExitSection, RefreshStep, ActivationStep;
    if CanEnterSection(c, t) { EnterNests(c, t, seen); }
    else if CanReachPost(c, t) { ReachNests(c, t, seen); }
    else if CanCallController(c, t, ctl) { CallNests(c, t, seen, ctl); }
    else if CanExitSection(c, t) { ExitNests(c, t, seen); }
    else { OutsideNests(c, t, seen); }
  }

  lemma StepNests(s: System, action: Action, t: nat)
    requires SystemInv(s) && Enabled(s, action) && t < |s.client.pcs| && Nested(s.client.pcs[t])
    ensures Nested(Apply(s, action).client.pcs[t])
  {
    hide Ctl.Apply, Ctl.Enabled, CtlProofs.Inv, ClientStep, AbandonStep, CanGo, Guarantee;
    StepMovesClient(s, action);
    match action
    case Go(u, seen) =>
      if u == t { GoNests(s.client, t, seen, s.ctl.pcs[t]); } else { GoMovesOnlyItself(s, action, t); }
    case Abandon(u) =>
      if u == t { AbandonNests(s.client, t); } else { GoMovesOnlyItself(s, action, t); }
    case _ =>
  }

  lemma {:induction false} RunNests(states: seq<System>, actions: seq<Action>, i: nat, t: nat)
    requires IsRun(states, actions) && i < |states| && t < |states[i].client.pcs|
    ensures Nested(states[i].client.pcs[t])
    decreases i
  {
    hide Apply, Enabled, SystemInv, OwnersOk, Nested, Initial;
    if i == 0 {
      NobodyStartsLeaving(states[0], t);
    } else {
      RunKeeps(states, actions, i - 1);
      assert StepAt(states, actions, i - 1);
      RunNests(states, actions, i - 1, t);
      StepNests(states[i - 1], actions[i - 1], t);
    }
  }

  lemma NobodyStartsLeaving(s: System, t: nat)
    requires Initial(s) && t < |s.client.pcs|
    ensures Nested(s.client.pcs[t])
  {
  }

  lemma GuardNeedsSection(s: System, t: nat)
    requires SystemInv(s) && t < |s.client.pcs| && Nested(s.client.pcs[t]) && InSubmission(s.client.pcs[t])
    ensures t in s.client.readers ==> s.client.serial == Some(t)
  {
    assert ThreadOk(s.client, t);
  }

  /** In every state of every run at most one submission holds the read guard of the installed
      pair, and it holds the serial section: the guard is dropped before the section is. */
  lemma OneSubmissionHoldsGuard(states: seq<System>, actions: seq<Action>, i: nat, t: nat, u: nat)
    requires IsRun(states, actions) && i < |states| && t < |states[i].client.pcs| && u < |states[i].client.pcs|
    requires InSubmission(states[i].client.pcs[t]) && InSubmission(states[i].client.pcs[u])
    requires t in states[i].client.readers && u in states[i].client.readers
    ensures t == u && states[i].client.serial == Some(t)
  {
    hide Apply, Enabled, SystemInv, OwnersOk, Nested;
    RunKeeps(states, actions, i);
    RunNests(states, actions, i, t);
    RunNests(states, actions, i, u);
    GuardNeedsSection(states[i], t);
    GuardNeedsSection(states[i], u);
  }

  // ---- where a permit comes from -------------------------------------------------------------------

  /** The step hands the submission the permit of the open gate. */
  predicate HandsOut(s: System, action: Action, t: nat, p: ProtocolAuthority) {
    AtPc(s, action) && action.thread == t && s.client.pcs[t].WantPermit? && s.client.gate.state == Active(p)
  }

  predicate PermitMoves(c: Client, pc: Pc, pc': Pc) {
    PermitOf(pc').Some? ==>
      PermitOf(pc') == PermitOf(pc) || (pc.WantPermit? && c.gate.state == Active(PermitOf(pc').value))
  }

  lemma EnterMovesPermit(c: Client, t: nat, seen: Observation)
    requires CanEnterSection(c, t)
    ensures PermitMoves(c, c.pcs[t], EnterSection(c, t, seen).pcs[t])
    ensures c.pcs[t].WantPermit? && !c.gate.state.Active? ==> EnterSection(c, t, seen).pcs[t].Leave?
  {
  }

  lemma ReachMovesPermit(c: Client, t: nat, seen: Observation)
    requires CanReachPost(c, t)
    ensures PermitMoves(c, c.pcs[t], ReachPost(c, t, seen).pcs[t])
  {
  }

  lemma CallMovesPermit(c: Client, t: nat, seen: Observation, ctl: Ctl.Pc)
    requires CanCallController(c, t, ctl)
    ensures PermitMoves(c, c.pcs[t], CallController(c, t, seen, ctl).pcs[t])
  {
    hide IsIndeterminate, RevokesAuthority, ForeignPasses;
  }

  lemma ExitMovesPermit(c: Client, t: nat, seen: Observation)
    requires CanExitSection(c, t)
    ensures PermitMoves(c, c.pcs[t], ExitSection(c, t, seen).pcs[t])
  {
  }

  lemma OutsideHasNoPermit(c: Client, t: nat, seen: Observation)
    ensures CanRefresh(c, t) ==> PermitOf(RefreshStep(c, t, seen).pcs[t]).None?
    ensures CanActivateStep(c, t) ==> PermitOf(ActivationStep(c, t, seen).pcs[t]).None?
  {
  }

  lemma AbandonedHasNoPermit(c: Client, t: nat)
    requires t < |c.pcs| && Awaits(c.pcs[t])
    ensures PermitOf(AbandonStep(c, t).pcs[t]).None?
  {
  }

  lemma GoMovesPermit(c: Client, t: nat, seen: Observation, ctl: Ctl.Pc)
    requires CanGo(c, t, ctl)
    ensures PermitMoves(c, c.pcs[t], ClientStep(c, t, seen, ctl).pcs[t])
  {
    hide CanEnterSection, CanReachPost, CanCallController, CanExitSection, CanRefresh, CanActivateStep, PermitOf;
    hide EnterSection, ReachPost, CallController, ExitSection, RefreshStep, ActivationStep;
    if CanEnterSection(c, t) { EnterMovesPermit(c, t, seen); }
    else if CanReachPost(c, t) { ReachMovesPermit(c, t, seen); }
    else if CanCallController(c, t, ctl) { CallMovesPermit(c, t, seen, ctl); }
    else if CanExitSection(c, t) { ExitMovesPermit(c, t, seen); }
    else { OutsideHasNoPermit(c, t, seen); }
  }

  lemma StepMovesPermit(s: System, action: Action, t: nat, p: ProtocolAuthority)
    requires SystemInv(s) && Enabled(s, action) && t < |s.client.pcs|
    requires PermitOf(Apply(s, action).client.pcs[t]) == Some(p)
    ensures PermitOf(s.client.pcs[t]) == Some(p) || HandsOut(s, action, t, p)
  {
    hide Ctl.Apply, Ctl.Enabled, CtlProofs.Inv, ClientStep, AbandonStep, CanGo, Guarantee;
    StepMovesClient(s, action);
    match action
    case Go(u, seen) =>
      if u == t { GoMovesPermit(s.client, t, seen, s.ctl.pcs[t]); } else { GoMovesOnlyItself(s, action, t); }
    case Abandon(u) =>
      if u == t { AbandonedHasNoPermit(s.client, t); } else { GoMovesOnlyItself(s, action, t); }
    case _ =>
  }

  /** Whatever permit a submission holds was handed to it by the gate, open for exactly that
      authority, in the same hold of the serial section. */
  lemma {:induction false} PermitWasHandedOut(
    states: seq<System>, actions: seq<Action>, i: nat, t: nat, p: ProtocolAuthority) returns (k: nat)
    requires IsRun(states, actions) && i < |states| && t < |states[i].client.pcs|
    requires PermitOf(states[i].client.pcs[t]) == Some(p)
    ensures k < i && HandsOut(states[k], actions[k], t, p)
    ensures forall m :: k < m <= i ==> states[m].client.serial == Some(t)
    decreases i
  {
    hide Apply, Enabled, SystemInv, OwnersOk, PermitOf, HandsOut, Initial;
    if i == 0 { NobodyStartsPermitted(states[0], t); }
    RunKeeps(states, actions, i);
    PermitHoldsSerial(states[i], t);
    RunKeeps(states, actions, i - 1);
    assert StepAt(states, actions, i - 1);
    StepMovesPermit(states[i - 1], actions[i - 1], t, p);
    if PermitOf(states[i - 1].client.pcs[t]) == Some(p) {
      k := PermitWasHandedOut(states, actions, i - 1, t, p);
    } else {
      k := i - 1;
    }
  }

  lemma NobodyStartsPermitted(s: System, t: nat)
    requires Initial(s) && t < |s.client.pcs|
    ensures PermitOf(s.client.pcs[t]).None?
  {
  }

  lemma PermitHoldsSerial(s: System, t: nat)
    requires SystemInv(s) && t < |s.client.pcs| && PermitOf(s.client.pcs[t]).Some?
    ensures s.client.serial == Some(t)
  {
    assert ThreadOk(s.client, t);
  }
}
