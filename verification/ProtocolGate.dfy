/** The local latch that decides which protocol generation may submit. */
module ProtocolGate {
  import opened Authority

  datatype GateState =
    | Closed
    | Active(authority: ProtocolAuthority)
    | Indeterminate(authority: ProtocolAuthority)

  /** `watermark` is the highest generation ever quarantined. */
  datatype Gate = Gate(state: GateState, watermark: nat)

  const INITIAL_GATE := Gate(Closed, 0)

  function Max(a: nat, b: nat): nat { if a < b then b else a }

  function Close(g: Gate): Gate {
    match g.state
    case Active(a) => Gate(Closed, Max(g.watermark, a.generation))
    case _ => g
  }

  function Quarantine(g: Gate, a: ProtocolAuthority): Gate {
    Gate(if g.state.Indeterminate? then g.state else Closed, Max(g.watermark, a.generation))
  }

  function MarkIndeterminate(g: Gate, a: ProtocolAuthority): Gate {
    Gate(Indeterminate(a), Max(g.watermark, a.generation))
  }

  predicate CanActivate(g: Gate, a: ProtocolAuthority) {
    a.generation > g.watermark && !g.state.Active?
  }

  function Activate(g: Gate, a: ProtocolAuthority): Gate {
    g.(state := Active(a))
  }

  function Permit(g: Gate): Option<ProtocolAuthority> {
    if g.state.Active? then Some(g.state.authority) else None
  }

  predicate Matches(g: Gate, permit: ProtocolAuthority) {
    g.state == Active(permit) && permit.generation > g.watermark
  }

  // ---- the latch in place -------------------------------------------------------------

  class ProtocolSubmissionGate {
    var state: GateState
    var quarantinedThroughGeneration: nat

    function Contents(): Gate
      reads this
    {
      Gate(state, quarantinedThroughGeneration)
    }

    constructor ()
      ensures Contents() == INITIAL_GATE
    {
      state, quarantinedThroughGeneration := Closed, 0;
    }

    method RaiseTo(generation: nat)
      modifies this`quarantinedThroughGeneration
      ensures quarantinedThroughGeneration == Max(old(quarantinedThroughGeneration), generation)
    {
      if quarantinedThroughGeneration < generation {
        quarantinedThroughGeneration := generation;
      }
    }

    method CloseActive()
      modifies this
      ensures Contents() == old(Close(Contents()))
    {
      if state.Active? {
        RaiseTo(state.authority.generation);
        state := Closed;
      }
    }

    method QuarantineAuthority(authority: ProtocolAuthority)
      modifies this
      ensures Contents() == old(Quarantine(Contents(), authority))
    {
      RaiseTo(authority.generation);
      if !state.Indeterminate? { state := Closed; }
    }

    method MarkPostSendIndeterminate(authority: ProtocolAuthority)
      modifies this
      ensures Contents() == old(MarkIndeterminate(Contents(), authority))
    {
      RaiseTo(authority.generation);
      state := Indeterminate(authority);
    }

    /** The one place that activates: under the latch, `can_activate`, the caller's
        closure, and only then the new state. */
    method ActivateIf(authority: ProtocolAuthority, closureAgrees: bool) returns (activated: Option<bool>)
      modifies this
      ensures activated.None? <==> !old(CanActivate(Contents(), authority))
      ensures Contents() == if activated == Some(true)
                            then old(Activate(Contents(), authority)) else old(Contents())
      ensures activated == Some(true) ==> Matches(Contents(), authority)
    {
      if authority.generation <= quarantinedThroughGeneration || state.Active? { return None; }
      if closureAgrees { state := Active(authority); }
      return Some(closureAgrees);
    }
  }

  // ---- runs of latch operations ---------------------------------------------------------

  datatype Operation =
    | DoClose
    | DoQuarantine(authority: ProtocolAuthority)
    | DoMark(authority: ProtocolAuthority)
    | DoActivate(authority: ProtocolAuthority, closureAgrees: bool)

  function Step(g: Gate, op: Operation): Gate {
    match op
    case DoClose => Close(g)
    case DoQuarantine(a) => Quarantine(g, a)
    case DoMark(a) => MarkIndeterminate(g, a)
    case DoActivate(a, agrees) => if CanActivate(g, a) && agrees then Activate(g, a) else g
  }

  function Run(g: Gate, ops: seq<Operation>): Gate
    decreases |ops|
  {
    if ops == [] then g else Run(Step(g, ops[0]), ops[1..])
  }

  /** An open generation is above the watermark, an indeterminate one is not. */
  predicate Sound(g: Gate) {
    match g.state
    case Closed => true
    case Active(a) => a.generation > g.watermark
    case Indeterminate(a) => a.generation <= g.watermark
  }

  lemma StepKeepsSound(g: Gate, op: Operation)
    requires Sound(g)
    ensures Sound(Step(g, op)) && g.watermark <= Step(g, op).watermark
  {
  }

  lemma {:induction false} RunKeepsSound(g: Gate, ops: seq<Operation>)
    requires Sound(g)
    ensures Sound(Run(g, ops)) && g.watermark <= Run(g, ops).watermark
    decreases |ops|
  {
    if ops != [] {
      StepKeepsSound(g, ops[0]);
      RunKeepsSound(Step(g, ops[0]), ops[1..]);
    }
  }

  /** The operation takes authority `a` out of use. */
  predicate Retires(g: Gate, op: Operation, a: ProtocolAuthority) {
    match op
    case DoClose => g.state == Active(a)
    case DoQuarantine(b) => b == a
    case DoMark(b) => b == a
    case DoActivate(_, _) => false
  }

  /** Once an authority is closed while active, quarantined, or marked indeterminate, no
      permit of its generation or an older one ever matches again, whatever follows. */
  lemma RetiredNeverMatches(before: seq<Operation>, op: Operation, after: seq<Operation>,
                            a: ProtocolAuthority, permit: ProtocolAuthority)
    requires Retires(Run(INITIAL_GATE, before), op, a) && permit.generation <= a.generation
    ensures var g := Run(Step(Run(INITIAL_GATE, before), op), after);
            !Matches(g, permit) && !CanActivate(g, permit) && g.state != Active(permit)
  {
    RunKeepsSound(INITIAL_GATE, before);
    var g := Run(INITIAL_GATE, before);
    StepKeepsSound(g, op);
    RunKeepsSound(Step(g, op), after);
  }

  /** A permit matches exactly when it is the one the latch would hand out now. */
  lemma MatchesIffPermitted(ops: seq<Operation>, permit: ProtocolAuthority)
    ensures Matches(Run(INITIAL_GATE, ops), permit) <==> Permit(Run(INITIAL_GATE, ops)) == Some(permit)
  {
    RunKeepsSound(INITIAL_GATE, ops);
  }

  /** An indeterminate latch stays so until a strictly newer generation is activated:
      no close or quarantine erases it. */
  lemma {:induction false} IndeterminateUntilNewer(g: Gate, ops: seq<Operation>)
    requires Sound(g) && g.state.Indeterminate? && !Run(g, ops).state.Indeterminate?
    ensures exists i, a :: 0 <= i < |ops| && ops[i] == DoActivate(a, true)
                           && a.generation > g.watermark >= g.state.authority.generation
    decreases |ops|
  {
    var g' := Step(g, ops[0]);
    StepKeepsSound(g, ops[0]);
    if g'.state.Indeterminate? {
      IndeterminateUntilNewer(g', ops[1..]);
      var i, a :| 0 <= i < |ops[1..]| && ops[1..][i] == DoActivate(a, true) && a.generation > g'.watermark;
      assert ops[i + 1] == DoActivate(a, true);
    } else {
      assert ops[0] == DoActivate(ops[0].authority, true);
    }
  }

  predicate IsOlderRetirement(op: Operation, a: ProtocolAuthority) {
    (op.DoQuarantine? || op.DoMark?) && op.authority.generation < a.generation
  }

  /** A generation can be opened twice: retiring an older one closes a newer active one
      without raising the watermark to it. Right after an activation that is exactly
      when the same authority may be activated again. */
  lemma ReactivationIffOlderRetired(g: Gate, a: ProtocolAuthority, op: Operation)
    requires Sound(g) && CanActivate(g, a)
    ensures CanActivate(Step(Activate(g, a), op), a) <==> IsOlderRetirement(op, a)
  {
  }

  /** The operation raises the watermark to `generation` or above. */
  predicate RetiresThrough(g: Gate, op: Operation, generation: nat) {
    match op
    case DoClose => g.state.Active? && g.state.authority.generation >= generation
    case DoQuarantine(b) => b.generation >= generation
    case DoMark(b) => b.generation >= generation
    case DoActivate(_, _) => false
  }

  lemma StepRaisesIff(g: Gate, op: Operation, generation: nat)
    ensures Step(g, op).watermark >= generation <==> g.watermark >= generation || RetiresThrough(g, op, generation)
  {
  }

  lemma {:induction false} RunRaisesIff(g: Gate, ops: seq<Operation>, generation: nat)
    ensures Run(g, ops).watermark >= generation <==>
            g.watermark >= generation
            || exists i :: 0 <= i < |ops| && RetiresThrough(Run(g, ops[..i]), ops[i], generation)
    decreases |ops|
  {
    hide Step, RetiresThrough;
    if ops != [] {
      var g', rest := Step(g, ops[0]), ops[1..];
      StepRaisesIff(g, ops[0], generation);
      RunRaisesIff(g', rest, generation);
      assert ops[..0] == [];
      forall i | 0 <= i < |rest| ensures Run(g', rest[..i]) == Run(g, ops[..i + 1]) && rest[i] == ops[i + 1] {
        assert ops[..i + 1][1..] == rest[..i];
      }
      forall i | 0 < i < |ops| && RetiresThrough(Run(g, ops[..i]), ops[i], generation)
        ensures RetiresThrough(Run(g', rest[..i - 1]), rest[i - 1], generation)
      {
        assert Run(g', rest[..i - 1]) == Run(g, ops[..i]);
      }
    }
  }

  /** After any stretch of operations an authority above the watermark can be activated if and
      only if the latch does not end open and nothing at or above its generation was retired.
      When the latch was open for that same authority, something older was retired meanwhile. */
  lemma ReopenableIff(g: Gate, a: ProtocolAuthority, ops: seq<Operation>)
    requires Sound(g) && g.watermark < a.generation
    ensures CanActivate(Run(g, ops), a) <==>
            !Run(g, ops).state.Active?
            && forall i :: 0 <= i < |ops| ==> !RetiresThrough(Run(g, ops[..i]), ops[i], a.generation)
    ensures g.state == Active(a) && CanActivate(Run(g, ops), a) ==>
              exists i :: 0 <= i < |ops| && IsOlderRetirement(ops[i], a)
  {
    hide RetiresThrough, Run;
    RunRaisesIff(g, ops, a.generation);
    if g.state == Active(a) && CanActivate(Run(g, ops), a) { ReopenedOnlyAfterOlderRetired(g, a, ops); }
  }

  /** Over any stretch of operations, an active authority can only become activatable
      again if something older was retired meanwhile. */
  lemma {:induction false} ReopenedOnlyAfterOlderRetired(g: Gate, a: ProtocolAuthority, ops: seq<Operation>)
    requires Sound(g) && g.state == Active(a) && CanActivate(Run(g, ops), a)
    ensures exists i :: 0 <= i < |ops| && IsOlderRetirement(ops[i], a)
    decreases |ops|
  {
    var g' := Step(g, ops[0]);
    StepKeepsSound(g, ops[0]);
    if g'.state == Active(a) {
      ReopenedOnlyAfterOlderRetired(g', a, ops[1..]);
      var i :| 0 <= i < |ops[1..]| && IsOlderRetirement(ops[1..][i], a);
      assert IsOlderRetirement(ops[i + 1], a);
    } else {
      RunKeepsSound(g', ops[1..]);
      assert IsOlderRetirement(ops[0], a);
    }
  }
}
