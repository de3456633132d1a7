/** What every client step keeps, whatever the controller is doing. */
module ClientProofs {
  import opened Authority
  import opened ProtocolGate
  import opened ClientProtocol
  import Ctl = SubmissionProtocol

  // ---- the invariant ---------------------------------------------------------------------

  /** Points at which a permit has matched the gate in this hold of the serial mutex. */
  predicate Matched(pc: Pc) {
    match pc
    case RevalidateFirst(_, _, _) | Build(_, _) | ReadVersionAgain(_, _, _) => true
    case MatchAgain(_, _, _, _) | RevalidateAgain(_, _, _, _) | Sign(_, _, _) => true
    case MatchSigned(_, _, _) | Posting(_, _, _, _) | Posted(_, _) => true
    case Marking(_, _) | AfterPost(_, _, _) => true
    case _ => false
  }

  /** The order's protocol version has been checked against the permit. */
  predicate OrderChecked(pc: Pc) {
    && (pc.RevalidateAgain? || (pc.Sign? && !pc.job.Prepare?) || (pc.MatchSigned? && !pc.job.Prepare?) || pc.Posting?)
  }

  predicate Refreshing(pc: Pc) {
    pc.ReadInstalled? || pc.Rebuilding? || pc.Installing?
  }

  predicate Activating(pc: Pc) {
    pc.Observe? || pc.WantGate? || pc.Closure?
  }

  /** A matched permit's gate: still open for it, or closed with its generation retired. */
  predicate GateFits(g: Gate, p: ProtocolAuthority) {
    g.state == Active(p) || (g.state.Closed? && p.generation <= g.watermark)
  }

  predicate Knows(c: Client, pc: Pc) {
    && (Matched(pc) ==> c.installed == Some(pc.permit) && GateFits(c.gate, pc.permit))
    && (OrderChecked(pc) ==> pc.order == pc.permit.version)
    && (Refreshing(pc) ==> !c.gate.state.Active?)
    && (pc.Rebuilding? ==> pc.generation == Generation(c.installed) + 1)
    && (pc.Installing? ==> pc.authority.generation == Generation(c.installed) + 1)
    && (Activating(pc) ==> c.installed == Some(pc.expected))
    && (pc.Closure? ==> CanActivate(c.gate, pc.expected))
  }

  predicate ThreadOk(c: Client, t: nat)
    requires t < |c.pcs|
  {
    var pc := c.pcs[t];
    && (HoldsSerial(pc) <==> c.serial == Some(t))
    && (HoldsGuard(pc) <==> t in c.readers)
    && (HoldsRefresh(pc) <==> c.refreshing == Some(t))
    && (HoldsGate(pc) <==> c.gateHolder == Some(t))
    && Knows(c, pc)
  }

  /** The gate is sound and open only for the installed authority. */
  predicate SharedOk(c: Client) {
    Sound(c.gate) && (c.gate.state.Active? ==> c.installed == Some(c.gate.state.authority))
  }

  ghost predicate ClientInv(c: Client) {
    SharedOk(c) && forall t :: 0 <= t < |c.pcs| ==> ThreadOk(c, t)
  }

  // ---- rely and guarantee ------------------------------------------------------------------

  predicate OnlyTakes(before: Option<nat>, after: Option<nat>, t: nat) {
    before == after || (before in {None, Some(t)} && after in {None, Some(t)})
  }

  /** What a step of thread `t` guarantees every other thread. */
  ghost predicate Guarantee(c: Client, c': Client, t: nat) {
    && c'.reservation == c.reservation
    && t < |c.pcs| && |c'.pcs| == |c.pcs| && c'.pcs == c.pcs[t := c'.pcs[t]]
    && OnlyTakes(c.serial, c'.serial, t) && OnlyTakes(c.refreshing, c'.refreshing, t)
    && OnlyTakes(c.gateHolder, c'.gateHolder, t)
    && (forall u: nat :: u != t ==> (u in c.readers <==> u in c'.readers))
    && (c'.installed != c.installed ==>
          c.readers == {} && c.refreshing == Some(t)
          && c'.installed.Some? && Generation(c'.installed) == Generation(c.installed) + 1)
    && GateMoves(c, c', t)
  }

  /** How one thread's step can move the gate. */
  predicate GateMoves(c: Client, c': Client, t: nat) {
    && (c'.gate != c.gate ==> c.gateHolder in {None, Some(t)})
    && c.gate.watermark <= c'.gate.watermark
    && (c'.gate.state != c.gate.state ==>
          match c'.gate.state
          case Closed =>
            c.gate.state.Active? && (c.serial == Some(t) || c.gate.state.authority.generation <= c'.gate.watermark)
          case Active(a) => c.refreshing == Some(t) && c.installed == Some(a) && CanActivate(c.gate, a)
          case Indeterminate(_) => c.serial == Some(t))
  }

  ghost predicate Good(c: Client, t: nat) {
    SharedOk(c) && t < |c.pcs| && ThreadOk(c, t)
  }

  ghost predicate Keeps(c: Client, c': Client, t: nat) {
    Good(c', t) && Guarantee(c, c', t)
  }

  lemma OthersUndisturbed(c: Client, c': Client, t: nat, u: nat)
    requires ClientInv(c) && Guarantee(c, c', t) && u < |c.pcs| && u != t
    ensures ThreadOk(c', u)
  {
    assert ThreadOk(c, u);
    assert ThreadOk(c, t);
  }

  lemma StepComposes(c: Client, c': Client, t: nat)
    requires ClientInv(c) && Keeps(c, c', t)
    ensures ClientInv(c')
  {
    forall u | 0 <= u < |c'.pcs| ensures ThreadOk(c', u) {
      if u != t { OthersUndisturbed(c, c', t, u); }
    }
  }

  // ---- each group of steps --------------------------------------------------------------------

  lemma EnterKeeps(c: Client, t: nat, seen: Observation)
    requires Good(c, t) && CanEnterSection(c, t)
    ensures Keeps(c, EnterSection(c, t, seen), t)
  {
  }

  lemma ReachKeeps(c: Client, t: nat, seen: Observation)
    requires Good(c, t) && CanReachPost(c, t)
    ensures Keeps(c, ReachPost(c, t, seen), t)
  {
  }

  lemma CallKeeps(c: Client, t: nat, seen: Observation, ctl: Ctl.Pc)
    requires Good(c, t) && CanCallController(c, t, ctl)
    ensures Keeps(c, CallController(c, t, seen, ctl), t)
  {
  }

  lemma ExitKeeps(c: Client, t: nat, seen: Observation)
    requires Good(c, t) && CanExitSection(c, t)
    ensures Keeps(c, ExitSection(c, t, seen), t)
  {
  }

  lemma RefreshKeeps(c: Client, t: nat, seen: Observation)
    requires Good(c, t) && CanRefresh(c, t)
    ensures Keeps(c, RefreshStep(c, t, seen), t)
  {
  }

  lemma ActivationKeeps(c: Client, t: nat, seen: Observation)
    requires Good(c, t) && CanActivateStep(c, t)
    ensures Keeps(c, ActivationStep(c, t, seen), t)
  {
  }

  lemma AbandonKeeps(c: Client, t: nat)
    requires Good(c, t) && t < |c.pcs| && Awaits(c.pcs[t])
    ensures Keeps(c, AbandonStep(c, t), t)
  {
  }

  lemma BeginKeeps(c: Client, t: nat, entry: Pc)
    requires Good(c, t) && c.pcs[t].Out? && (entry.WantSerial? || entry.WantRefresh? || entry.WantActivation?)
    ensures Keeps(c, At(c, t, entry), t)
  {
  }

  lemma AfterDriveKeeps(c: Client, t: nat, first: bool)
    requires Good(c, t)
    ensures Keeps(c, AfterDrive(c, t, first), t)
  {
  }

  lemma RevokeGateKeeps(c: Client)
    requires ClientInv(c) && c.gateHolder.None?
    ensures ClientInv(c.(gate := Close(c.gate)))
  {
    var c' := c.(gate := Close(c.gate));
    forall t | 0 <= t < |c'.pcs| ensures ThreadOk(c', t) {
      assert ThreadOk(c, t);
    }
  }

  lemma ClientStepKeeps(c: Client, t: nat, seen: Observation, ctl: Ctl.Pc)
    requires Good(c, t) && CanGo(c, t, ctl)
    ensures Keeps(c, ClientStep(c, t, seen, ctl), t)
  {
    hide Good, Keeps;
    if CanEnterSection(c, t) { EnterKeeps(c, t, seen); }
    else if CanReachPost(c, t) { ReachKeeps(c, t, seen); }
    else if CanCallController(c, t, ctl) { CallKeeps(c, t, seen, ctl); }
    else if CanExitSection(c, t) { ExitKeeps(c, t, seen); }
    else if CanRefresh(c, t) { RefreshKeeps(c, t, seen); }
    else { ActivationKeeps(c, t, seen); }
  }
}
