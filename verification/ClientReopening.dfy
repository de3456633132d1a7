/** A generation can be opened twice in one run of client and controller: exactly when, by
    whose doing, and one run in which it happens. */
module ClientReopening {
  import opened Authority
  import opened ProtocolGate
  import opened ClientProtocol
  import opened ClientProofs
  import opened ClientLink
  import opened ClientOwnership
  import opened ClientSafety
  import opened ClientWitness
  import Ctl = SubmissionProtocol

  // ---- exactly when ---------------------------------------------------------------------------

  /** The step retires, on the gate, `generation` or something above it. */
  predicate Retires(s: System, action: Action, generation: nat) {
    GateOpOf(s, action).Some? && RetiresThrough(s.client.gate, GateOpOf(s, action).value, generation)
  }

  lemma {:induction false} StaysBelowIff(states: seq<System>, actions: seq<Action>, i: nat, j: nat, generation: nat)
    requires IsRun(states, actions) && i <= j < |states| && states[i].client.gate.watermark < generation
    ensures states[j].client.gate.watermark < generation <==>
            forall k :: i <= k < j ==> !Retires(states[k], actions[k], generation)
    decreases j
  {
    hide Apply, Enabled, SystemInv, OwnersOk, GateOpOf, RetiresThrough;
    if i < j {
      StaysBelowIff(states, actions, i, j - 1, generation);
      RunKeeps(states, actions, j - 1);
      assert StepAt(states, actions, j - 1);
      var s, action := states[j - 1], actions[j - 1];
      StepMovesGate(s, action);
      if GateOpOf(s, action).Some? { StepRaisesIff(s.client.gate, GateOpOf(s, action).value, generation); }
    }
  }

  lemma OpeningFindsRoom(s: System, action: Action, p: ProtocolAuthority)
    requires SystemInv(s) && Enabled(s, action) && Opens(s, action, p)
    ensures CanActivate(s.client.gate, p) && Apply(s, action).client.gate == Activate(s.client.gate, p)
  {
    hide Ctl.Apply, Ctl.Enabled, Apply, Enabled;
    assert ThreadOk(s.client, action.thread);
    StepMovesGate(s, action);
  }

  /** Once opened, an authority can be opened again at a later point of the run if and only if
      the gate is not open there and nothing at or above its generation was retired since. */
  lemma ReopenableIff(states: seq<System>, actions: seq<Action>, i: nat, j: nat, p: ProtocolAuthority)
    requires IsRun(states, actions) && i < j < |states| && Opens(states[i], actions[i], p)
    ensures CanActivate(states[j].client.gate, p) <==>
            !states[j].client.gate.state.Active?
            && forall k :: i < k < j ==> !Retires(states[k], actions[k], p.generation)
  {
    hide Apply, Enabled, SystemInv, OwnersOk, Retires;
    RunKeeps(states, actions, i);
    assert StepAt(states, actions, i);
    OpeningFindsRoom(states[i], actions[i], p);
    StaysBelowIff(states, actions, i + 1, j, p.generation);
  }

  // ---- by whose doing -------------------------------------------------------------------------

  /** A submission quarantines a permit older than `p` while the gate is open for `p`. */
  predicate QuarantinesStalePermit(s: System, action: Action, p: ProtocolAuthority) {
    && AtPc(s, action) && s.client.pcs[action.thread].Quarantining?
    && s.client.pcs[action.thread].permit.generation < p.generation
    && s.client.gate.state == Active(p)
  }

  lemma {:induction false} GateLeaves(
    states: seq<System>, actions: seq<Action>, i: nat, j: nat, p: ProtocolAuthority) returns (k: nat)
    requires IsRun(states, actions) && i <= j < |states|
    requires states[i].client.gate.state == Active(p) && states[j].client.gate.state != Active(p)
    ensures i <= k < j
    ensures states[k].client.gate.state == Active(p) && states[k + 1].client.gate.state != Active(p)
    decreases j
  {
    k := j - 1;
    if states[k].client.gate.state != Active(p) { k := GateLeaves(states, actions, i, k, p); }
  }

  lemma OnlyStalePermitsLeaveRoom(s: System, action: Action, p: ProtocolAuthority)
    requires SystemInv(s) && Enabled(s, action) && s.client.gate.state == Active(p)
    requires Apply(s, action).client.gate.state != Active(p) && !Retires(s, action, p.generation)
    ensures QuarantinesStalePermit(s, action, p)
  {
    hide Apply, Enabled;
    StepMovesGate(s, action);
    if action.Go? && action.thread < |s.client.pcs| { assert ThreadOk(s.client, action.thread); }
  }

  /** Between two openings of one authority, some submission holding a permit of a strictly
      older generation quarantined it while the gate was open for the newer one. */
  lemma OpenedTwiceByStalePermit(states: seq<System>, actions: seq<Action>, i: nat, j: nat, p: ProtocolAuthority)
    returns (k: nat)
    requires IsRun(states, actions) && i < j < |actions|
    requires Opens(states[i], actions[i], p) && Opens(states[j], actions[j], p)
    ensures i < k < j && QuarantinesStalePermit(states[k], actions[k], p)
  {
    hide Apply, Enabled, SystemInv, OwnersOk, Retires, QuarantinesStalePermit;
    RunKeeps(states, actions, i);
    assert StepAt(states, actions, i);
    OpeningFindsRoom(states[i], actions[i], p);
    RunKeeps(states, actions, j);
    assert StepAt(states, actions, j);
    OpeningFindsRoom(states[j], actions[j], p);
    ReopenableIff(states, actions, i, j, p);
    k := GateLeaves(states, actions, i + 1, j, p);
    RunKeeps(states, actions, k);
    assert StepAt(states, actions, k);
    OnlyStalePermitsLeaveRoom(states[k], actions[k], p);
  }

  // ---- one run in which it happens -------------------------------------------------------------

  const B := ProtocolAuthority(1, 2, 0)

  /** The last point of the first opening of `B`, and everything after it, has it behind. */
  ghost predicate Opened(s: System) {
    exists states: seq<System>, actions: seq<Action>, i: nat :: OpenedAt(states, actions, i, s)
  }

  ghost predicate OpenedAt(states: seq<System>, actions: seq<Action>, i: nat, s: System) {
    Reaches(states, actions, s) && i < |actions| && Opens(states[i], actions[i], B)
  }

  lemma OneMore(states: seq<System>, actions: seq<Action>, s: System, action: Action)
    requires Reaches(states, actions, s) && Enabled(s, action)
    ensures Reaches(states + [Apply(s, action)], actions + [action], Apply(s, action))
  {
    hide Enabled, Apply, Initial;
    var longer, taken := states + [Apply(s, action)], actions + [action];
    forall i | 0 <= i < |taken| ensures StepAt(longer, taken, i) {
      assert i < |actions| ==> StepAt(states, actions, i);
    }
  }

  lemma OpenB(s: System, action: Action)
    requires Reachable(s) && Enabled(s, action) && Opens(s, action, B)
    ensures Opened(Apply(s, action))
  {
    hide Enabled, Apply, Initial, Opens;
    var states, actions :| Reaches(states, actions, s);
    OneMore(states, actions, s, action);
    assert OpenedAt(states + [Apply(s, action)], actions + [action], |actions|, Apply(s, action));
  }

  lemma OpenedStep(s: System, action: Action)
    requires Opened(s) && Enabled(s, action)
    ensures Opened(Apply(s, action))
  {
    hide Enabled, Apply, Initial, Opens;
    var states, actions, i: nat :| OpenedAt(states, actions, i, s);
    OneMore(states, actions, s, action);
    assert OpenedAt(states + [Apply(s, action)], actions + [action], i, Apply(s, action));
  }

  lemma OpenedGo(k: Client, t: nat, k': Client)
    requires Opened(System(Quiet(), k)) && |k.pcs| == 2 && t < 2 && k.reservation == 0
    requires CanGo(k, t, Ctl.Idle) && Effect(k.pcs[t], t, 1, Ctl.Idle).None? && ClientStep(k, t, SEEN, Ctl.Idle) == k'
    ensures Opened(System(Quiet(), k'))
  {
    hide Opened, CanGo, ClientStep;
    FirstIdentity();
    OpenedStep(System(Quiet(), k), Go(t, SEEN));
  }

  lemma OpenedBegin(k: Client, t: nat, entry: Pc, k': Client)
    requires Opened(System(Quiet(), k)) && CanBegin(System(Quiet(), k), t, entry) && At(k, t, entry) == k'
    ensures Opened(System(Quiet(), k'))
  {
    hide Opened, CanBegin, At;
    OpenedStep(System(Quiet(), k), Begin(t, entry));
  }

  /** Thread 0 refreshes and activates; thread 1 prepares an order under the old permit. */
  function Held(gate: Gate, installed: ProtocolAuthority, holder: Option<nat>, pc0: Pc, pc1: Pc): Client {
    Client(0, gate, None, Some(installed), {}, holder, Some(1), [pc0, pc1])
  }

  const WAITING := WantGuard(Prepare, A)
  const OPEN_A := Activate(INITIAL_GATE, A)
  const CLOSED := Gate(Closed, 1)
  const OPEN_B := Gate(Active(B), 1)

  lemma StalePermitTaken()
    ensures Reachable(System(Quiet(), Held(OPEN_A, A, None, Out, WAITING)))
  {
    hide Reachable;
    var c := Quiet();
    GateOpened();
    var queued := Ready(Out).(pcs := [Out, WantSerial(Prepare)]);
    BeginTo(c, Ready(Out), 1, WantSerial(Prepare), queued);
    GoTo(c, queued, 1, SEEN, Held(OPEN_A, A, None, Out, WantPermit(Prepare)));
    GoTo(c, Held(OPEN_A, A, None, Out, WantPermit(Prepare)), 1, SEEN, Held(OPEN_A, A, None, Out, WAITING));
  }

  lemma NewerPairInstalled()
    ensures Reachable(System(Quiet(), Held(CLOSED, B, None, Out, WAITING)))
  {
    hide Reachable;
    var c := Quiet();
    StalePermitTaken();
    BeginTo(c, Held(OPEN_A, A, None, Out, WAITING), 0, WantRefresh, Held(OPEN_A, A, None, WantRefresh, WAITING));
    GoTo(c, Held(OPEN_A, A, None, WantRefresh, WAITING), 0, SEEN, Held(OPEN_A, A, Some(0), CloseGate, WAITING));
    GoTo(c, Held(OPEN_A, A, Some(0), CloseGate, WAITING), 0, SEEN, Held(CLOSED, A, Some(0), ReadInstalled, WAITING));
    GoTo(c, Held(CLOSED, A, Some(0), ReadInstalled, WAITING), 0, SEEN, Held(CLOSED, A, Some(0), Rebuilding(2), WAITING));
    GoTo(c, Held(CLOSED, A, Some(0), Rebuilding(2), WAITING), 0, SEEN, Held(CLOSED, A, Some(0), Installing(B), WAITING));
    GoTo(c, Held(CLOSED, A, Some(0), Installing(B), WAITING), 0, SEEN, Held(CLOSED, B, None, Out, WAITING));
  }

  lemma FirstClosureReached()
    ensures Reachable(System(Quiet(), Held(CLOSED, B, Some(0), Closure(B), WAITING).(readers := {0}, gateHolder := Some(0))))
  {
    hide Reachable;
    var c := Quiet();
    var guarded := Held(CLOSED, B, Some(0), CompareInstalled(B), WAITING).(readers := {0});
    NewerPairInstalled();
    BeginTo(c, Held(CLOSED, B, None, Out, WAITING), 0, WantActivation(B), Held(CLOSED, B, None, WantActivation(B), WAITING));
    GoTo(c, Held(CLOSED, B, None, WantActivation(B), WAITING), 0, SEEN,
         Held(CLOSED, B, Some(0), WantActivationGuard(B), WAITING));
    GoTo(c, Held(CLOSED, B, Some(0), WantActivationGuard(B), WAITING), 0, SEEN, guarded);
    GoTo(c, guarded, 0, SEEN, guarded.(pcs := [Observe(B), WAITING]));
    GoTo(c, guarded.(pcs := [Observe(B), WAITING]), 0, SEEN, guarded.(pcs := [WantGate(B), WAITING]));
    GoTo(c, guarded.(pcs := [WantGate(B), WAITING]), 0, SEEN, guarded.(pcs := [Closure(B), WAITING], gateHolder := Some(0)));
  }

  lemma OpenedOnce()
    ensures Opened(System(Quiet(), Held(OPEN_B, B, None, Out, WAITING)))
  {
    hide Opened, Reachable;
    var k := Held(CLOSED, B, Some(0), Closure(B), WAITING).(readers := {0}, gateHolder := Some(0));
    FirstClosureReached();
    OpenB(System(Quiet(), k), Go(0, SEEN));
    assert Apply(System(Quiet(), k), Go(0, SEEN)) == System(Quiet(), Held(OPEN_B, B, None, Out, WAITING));
  }

  /** The order's thread finds its permit stale, and its quarantine closes the newer gate. */
  lemma ClosedByStalePermit()
    ensures Opened(System(Quiet(), Held(CLOSED, B, None, Out, Leave(Prepare, true, true)).(readers := {1})))
  {
    hide Opened;
    var k := Held(OPEN_B, B, None, Out, ReadVersion(Prepare, A)).(readers := {1});
    OpenedOnce();
    OpenedGo(Held(OPEN_B, B, None, Out, WAITING), 1, k);
    OpenedGo(k, 1, k.(pcs := [Out, MatchFirst(Prepare, A, 1)]));
    OpenedGo(k.(pcs := [Out, MatchFirst(Prepare, A, 1)]), 1, k.(pcs := [Out, Quarantining(Prepare, A)]));
    OpenedGo(k.(pcs := [Out, Quarantining(Prepare, A)]), 1, k.(pcs := [Out, Leave(Prepare, true, true)], gate := CLOSED));
  }

  lemma SecondClosureReached()
    ensures Opened(System(Quiet(), Held(CLOSED, B, Some(0), Closure(B), Leave(Prepare, true, true)).(
                             readers := {0, 1}, gateHolder := Some(0))))
  {
    hide Opened;
    var last := Leave(Prepare, true, true);
    var k := Held(CLOSED, B, None, Out, last).(readers := {1});
    var guarded := k.(pcs := [CompareInstalled(B), last], refreshing := Some(0), readers := {0, 1});
    ClosedByStalePermit();
    OpenedBegin(k, 0, WantActivation(B), k.(pcs := [WantActivation(B), last]));
    OpenedGo(k.(pcs := [WantActivation(B), last]), 0, k.(pcs := [WantActivationGuard(B), last], refreshing := Some(0)));
    OpenedGo(k.(pcs := [WantActivationGuard(B), last], refreshing := Some(0)), 0, guarded);
    OpenedGo(guarded, 0, guarded.(pcs := [Observe(B), last]));
    OpenedGo(guarded.(pcs := [Observe(B), last]), 0, guarded.(pcs := [WantGate(B), last]));
    OpenedGo(guarded.(pcs := [WantGate(B), last]), 0, guarded.(pcs := [Closure(B), last], gateHolder := Some(0)));
  }

  /** One run opens one authority twice. */
  lemma MayOpenTwice() returns (states: seq<System>, actions: seq<Action>, i: nat, j: nat)
    ensures IsRun(states, actions) && i < j < |actions|
    ensures Opens(states[i], actions[i], B) && Opens(states[j], actions[j], B)
  {
    SecondClosureReached();
    var s := System(Quiet(), Held(CLOSED, B, Some(0), Closure(B), Leave(Prepare, true, true)).(
                      readers := {0, 1}, gateHolder := Some(0)));
    var before, taken, first: nat :| OpenedAt(before, taken, first, s);
    FirstIdentity();
    assert Enabled(s, Go(0, SEEN)) && Opens(s, Go(0, SEEN), B);
    hide Enabled, Apply, Initial, Opens;
    OneMore(before, taken, s, Go(0, SEEN));
    states, actions, i, j := before + [Apply(s, Go(0, SEEN))], taken + [Go(0, SEEN)], first, |taken|;
  }
}
