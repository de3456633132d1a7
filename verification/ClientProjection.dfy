/** The controller inside a composed run, seen by itself: dropping the steps in which it does
    not move leaves a run of the submission protocol, so every theorem about those runs holds
    of the controller inside a client. */
module ClientProjection {
  import opened Authority
  import opened ClientProtocol
  import opened ClientLink
  import opened ClientOwnership
  import opened ClientSafety
  import Ctl = SubmissionProtocol
  import CtlSafety = SubmissionSafety

  /** The controller's actions among the first `n` of the run. */
  ghost function CtlActions(states: seq<System>, actions: seq<Action>, n: nat): (a: seq<Ctl.Action>)
    requires n <= |actions| && |states| == |actions| + 1
  {
    if n == 0 then []
    else
      var step := CtlStepOf(states[n - 1], actions[n - 1]);
      CtlActions(states, actions, n - 1) + (if step.Some? then [step.value] else [])
  }

  /** The states the controller goes through by these actions. */
  ghost function CtlStates(states: seq<System>, actions: seq<Action>, n: nat): (s: seq<Ctl.State>)
    requires n <= |actions| && |states| == |actions| + 1
    ensures |s| == |CtlActions(states, actions, n)| + 1
  {
    if n == 0 then [states[0].ctl]
    else
      var step := CtlStepOf(states[n - 1], actions[n - 1]);
      CtlStates(states, actions, n - 1) + (if step.Some? then [states[n].ctl] else [])
  }

  /** Where the controller's own run has got to after `n` composed steps. */
  ghost function Reached(states: seq<System>, actions: seq<Action>, n: nat): nat
    requires n <= |actions| && |states| == |actions| + 1
  {
    |CtlActions(states, actions, n)|
  }

  lemma OneMoreIsRun(cs: seq<Ctl.State>, ca: seq<Ctl.Action>, step: Ctl.Action)
    requires Ctl.IsRun(cs, ca) && Ctl.Enabled(cs[|ca|], step)
    ensures Ctl.IsRun(cs + [Ctl.Apply(cs[|ca|], step)], ca + [step])
  {
    hide Ctl.Enabled, Ctl.Apply, Ctl.Initial;
    var longer, taken := cs + [Ctl.Apply(cs[|ca|], step)], ca + [step];
    forall i | 0 <= i < |taken| ensures Ctl.StepAt(longer, taken, i) {
      assert i < |ca| ==> Ctl.StepAt(cs, ca, i);
    }
  }

  /** The controller's part of a composed run is a run of the controller. */
  lemma {:induction false} ProjectionIsRun(states: seq<System>, actions: seq<Action>, n: nat)
    requires IsRun(states, actions) && n <= |actions|
    ensures Ctl.IsRun(CtlStates(states, actions, n), CtlActions(states, actions, n))
    ensures CtlStates(states, actions, n)[Reached(states, actions, n)] == states[n].ctl
  {
    hide Enabled, Apply, CtlStepOf, Ctl.Enabled, Ctl.Apply, Ctl.IsRun;
    if n == 0 {
      StartIsRun(states[0]);
    } else {
      ProjectionIsRun(states, actions, n - 1);
      assert StepAt(states, actions, n - 1);
      StepMovesController(states[n - 1], actions[n - 1]);
      var step := CtlStepOf(states[n - 1], actions[n - 1]);
      if step.Some? {
        OneMoreIsRun(CtlStates(states, actions, n - 1), CtlActions(states, actions, n - 1), step.value);
      } else {
        assert CtlStates(states, actions, n) == CtlStates(states, actions, n - 1);
        assert CtlActions(states, actions, n) == CtlActions(states, actions, n - 1);
      }
    }
  }

  lemma StartIsRun(s: System)
    requires Initial(s)
    ensures Ctl.IsRun([s.ctl], [])
  {
  }

  /** Every composed state and every controller step of it stands in the projection. */
  lemma {:induction false} StandsInProjection(states: seq<System>, actions: seq<Action>, i: nat, n: nat)
    requires IsRun(states, actions) && i <= n <= |actions|
    ensures Reached(states, actions, i) <= Reached(states, actions, n)
    ensures CtlStates(states, actions, n)[Reached(states, actions, i)] == states[i].ctl
    ensures i < n && CtlStepOf(states[i], actions[i]).Some? ==>
              && Reached(states, actions, i) < Reached(states, actions, i + 1) <= Reached(states, actions, n)
              && CtlActions(states, actions, n)[Reached(states, actions, i)] == CtlStepOf(states[i], actions[i]).value
    decreases n
  {
    hide CtlStepOf, Ctl.IsRun;
    if i == n {
      ProjectionIsRun(states, actions, n);
    } else {
      StandsInProjection(states, actions, i, n - 1);
    }
  }

  /** The whole projection, and where two points of the composed run stand in it. */
  lemma Projected(states: seq<System>, actions: seq<Action>, i: nat, j: nat)
    returns (cs: seq<Ctl.State>, ca: seq<Ctl.Action>, ci: nat, cj: nat)
    requires IsRun(states, actions) && i <= j < |states|
    ensures Ctl.IsRun(cs, ca) && ci <= cj < |cs| && cs[ci] == states[i].ctl && cs[cj] == states[j].ctl
    ensures cs == CtlStates(states, actions, |actions|) && ca == CtlActions(states, actions, |actions|)
    ensures ci == Reached(states, actions, i) && cj == Reached(states, actions, j)
    ensures i < |actions| && CtlStepOf(states[i], actions[i]).Some? ==>
              ci < |ca| && ca[ci] == CtlStepOf(states[i], actions[i]).value && (i < j ==> ci < cj)
    ensures j < |actions| && CtlStepOf(states[j], actions[j]).Some? ==>
              cj < |ca| && ca[cj] == CtlStepOf(states[j], actions[j]).value
  {
    hide Ctl.IsRun, CtlStepOf;
    var n := |actions|;
    ProjectionIsRun(states, actions, n);
    StandsInProjection(states, actions, i, n);
    StandsInProjection(states, actions, j, n);
    StandsInProjection(states, actions, i, j);
    cs, ca := CtlStates(states, actions, n), CtlActions(states, actions, n);
    ci, cj := Reached(states, actions, i), Reached(states, actions, j);
  }

  // ---- what the controller's theorems say inside a client --------------------------------------

  /** A revocation of the controller publishes. */
  predicate Revokes(s: System, action: Action) {
    CtlStepOf(s, action).Some? && Ctl.Publishes(s.ctl, CtlStepOf(s, action).value)
  }

  /** The composed step gives the transport of capability `c` a poll. */
  predicate Polls(s: System, action: Action, c: nat) {
    CtlStepOf(s, action).Some? && Ctl.PollsCapability(s.ctl, CtlStepOf(s, action).value, c)
  }

  /** Inside a client too: once a revocation publishes, an attempt minted before it whose
      transport had not begun is given no poll for the rest of the run. */
  lemma RevokedAttemptGetsZeroPolls(states: seq<System>, actions: seq<Action>, i: nat, j: nat, c: nat)
    requires IsRun(states, actions) && i <= j < |actions| && Revokes(states[i], actions[i])
    requires c in states[i].ctl.caps && !CtlSafety.Begun(states[i].ctl, c)
    ensures !Polls(states[j], actions[j], c)
  {
    hide Ctl.IsRun, Ctl.PollsCapability, CtlSafety.Begun, CtlStepOf;
    var cs, ca, ci, cj := Projected(states, actions, i, j);
    if Polls(states[j], actions[j], c) { CtlSafety.RevokedAttemptGetsZeroPolls(cs, ca, ci, cj, c); }
  }

  /** After any revocation of the controller publishes, no order already holding an attempt is
      ever POSTed: a later first poll is of an attempt minted afterwards. */
  lemma RevokedAttemptIsNeverPosted(states: seq<System>, actions: seq<Action>, i: nat, j: nat)
    requires IsRun(states, actions) && i <= j < |actions|
    requires Revokes(states[i], actions[i]) && FirstPost(states[j], actions[j])
    ensures actions[j].Drive? && AllAgree(states[j], actions[j].thread)
    ensures var c := AttemptOf(states[j].client.pcs[actions[j].thread].job).cap;
            c !in states[i].ctl.caps && states[j].ctl.caps[c].grant.epoch >= states[i].ctl.epoch
  {
    hide Apply, Ctl.IsRun, SystemInv;
    FirstPostAllAgree(states, actions, j);
    RunKeeps(states, actions, j);
    assert StepAt(states, actions, j);
    PollsItsOwnAttempt(states[j], actions[j]);
    var cs, ca, ci, cj := Projected(states, actions, i, j);
    CtlSafety.RevocationIsFinal(cs, ca, ci, cj);
  }

  lemma PollsItsOwnAttempt(s: System, action: Action)
    requires SystemInv(s) && OwnersOk(s) && Enabled(s, action) && FirstPost(s, action)
    ensures action.Drive? && CtlStepOf(s, action) == Some(Ctl.Advance(action.thread))
    ensures Ctl.FirstPoll(s.ctl, Ctl.Advance(action.thread))
    ensures AttemptOf(s.client.pcs[action.thread].job).Own?
    ensures s.ctl.pcs[action.thread] == Ctl.Validated(AttemptOf(s.client.pcs[action.thread].job).cap)
  {
    OnlyClientsPost(s, action);
    assert LinkOk(s, action.thread);
  }

  predicate Acquires(s: System, action: Action) {
    CtlStepOf(s, action).Some? && CtlStepOf(s, action).value.Start?
    && CtlStepOf(s, action).value.operation.AcquireExclusive?
  }

  /** Revoking and then acquiring the lease drains the client: from then on every transport in
      flight is of an attempt minted after the revocation. */
  lemma RevokeThenLeaseDrains(states: seq<System>, actions: seq<Action>, i: nat, j: nat, m: nat)
    requires IsRun(states, actions) && i < j < m < |states|
    requires Revokes(states[i], actions[i]) && Acquires(states[j], actions[j])
    ensures CtlSafety.NewerTransports(states[m].ctl, states[i].ctl)
  {
    hide Ctl.IsRun, CtlSafety.NewerTransports, CtlStepOf;
    var cs, ca, ci, cj := Projected(states, actions, i, j);
    var _, _, _, cm := Projected(states, actions, j, m);
    CtlSafety.RevokeThenLeaseDrains(cs, ca, ci, cj, CtlStepOf(states[j], actions[j]).value.thread, cm);
  }

  /** The composed step writes the active grant of epoch `epoch`. */
  predicate ActivatesEpoch(s: System, action: Action, epoch: nat) {
    CtlStepOf(s, action).Some? && Ctl.Activates(s.ctl, CtlStepOf(s, action).value)
    && s.ctl.pcs[CtlStepOf(s, action).value.thread].epoch == epoch
  }

  /** Inside a client too, later activations are of strictly later epochs. */
  lemma EachEpochActivatedOnce(states: seq<System>, actions: seq<Action>, i: nat, j: nat, d: nat, e: nat)
    requires IsRun(states, actions) && i < j < |actions|
    requires ActivatesEpoch(states[i], actions[i], d) && ActivatesEpoch(states[j], actions[j], e)
    ensures d < e
  {
    hide Ctl.IsRun, CtlStepOf;
    var cs, ca, ci, cj := Projected(states, actions, i, j);
    CtlSafety.EachEpochActivatedOnce(cs, ca, ci, cj);
  }

  /** Inside a client too, capabilities of one epoch carry one authority. */
  lemma OneAuthorityPerEpoch(states: seq<System>, actions: seq<Action>, i: nat, j: nat, c: nat, d: nat)
    requires IsRun(states, actions) && i <= j < |states|
    requires c in states[i].ctl.caps && d in states[j].ctl.caps
    requires states[i].ctl.caps[c].grant.epoch == states[j].ctl.caps[d].grant.epoch
    ensures states[i].ctl.caps[c].grant == states[j].ctl.caps[d].grant
  {
    hide Ctl.IsRun;
    var cs, ca, ci, cj := Projected(states, actions, i, j);
    CtlSafety.OneAuthorityPerEpoch(cs, ca, ci, cj, c, d);
  }

  /** A revocation of the controller reads and moves the epoch, or finds it exhausted. */
  predicate MovesEpoch(s: System, action: Action) {
    CtlStepOf(s, action).Some? && CtlSafety.Revokes(s.ctl, CtlStepOf(s, action).value)
  }

  /** Inside a client too, an activation of the epoch observed at `i` succeeds at `j` only if
      nothing was revoked in between. */
  lemma ActivationSawNoRevocation(states: seq<System>, actions: seq<Action>, i: nat, j: nat, k: nat)
    requires IsRun(states, actions) && i <= k <= j < |actions|
    requires ActivatesEpoch(states[j], actions[j], states[i].ctl.epoch)
    ensures !MovesEpoch(states[k], actions[k])
  {
    hide Ctl.IsRun, CtlStepOf;
    var cs, ca, ci, ck := Projected(states, actions, i, k);
    var _, _, _, cj := Projected(states, actions, k, j);
    if MovesEpoch(states[k], actions[k]) { CtlSafety.ActivationSawNoRevocation(cs, ca, ci, cj, ck); }
  }

  /** Inside a client too, nothing is polled for the first time once an authorization has
      unwound and taken the mutex. */
  lemma UnwindingIsFinal(states: seq<System>, actions: seq<Action>, i: nat, j: nat, t: nat)
    requires IsRun(states, actions) && i <= j < |actions|
    requires t < |states[i].ctl.pcs| && states[i].ctl.pcs[t].UnwindClear?
    ensures !FirstPost(states[j], actions[j])
  {
    hide Ctl.IsRun;
    if FirstPost(states[j], actions[j]) {
      FirstPostAllAgree(states, actions, j);
      var cs, ca, ci, cj := Projected(states, actions, i, j);
      CtlSafety.UnwindingIsFinal(cs, ca, ci, cj, t);
    }
  }

  // ---- an authorization's own revocation ---------------------------------------------------------

  /** Between two composed states the projection goes only through states in between. */
  lemma {:induction false} InBetween(states: seq<System>, actions: seq<Action>, i: nat, j: nat, r: nat) returns (k: nat)
    requires IsRun(states, actions) && i <= j <= |actions|
    requires Reached(states, actions, i) <= r <= Reached(states, actions, j)
    ensures i <= k <= j && Reached(states, actions, k) == r
    decreases j
  {
    hide CtlStepOf;
    k := j;
    if r < Reached(states, actions, j) {
      k := InBetween(states, actions, i, j - 1, r);
    }
  }

  /** Inside a client too: while an authorization is between taking the fence and returning,
      nobody activates, so its own revocation clears at most the grant it checked against. */
  lemma SelfRevocationCancelsNoLaterActivation(states: seq<System>, actions: seq<Action>, i: nat, j: nat, t: nat)
    requires IsRun(states, actions) && i <= j < |states| && t < |states[i].ctl.pcs|
    requires forall k :: i <= k <= j ==> t < |states[k].ctl.pcs| && Ctl.ReadFenced(states[k].ctl.pcs[t])
    ensures forall k, epoch :: i <= k < j ==> !ActivatesEpoch(states[k], actions[k], epoch)
    ensures states[j].ctl.active.None? || states[j].ctl.active == states[i].ctl.active
  {
    hide Ctl.IsRun, CtlStepOf, Ctl.ReadFenced;
    var cs, ca, ci, cj := Projected(states, actions, i, j);
    forall r | ci <= r <= cj ensures t < |cs[r].pcs| && Ctl.ReadFenced(cs[r].pcs[t]) {
      var k := InBetween(states, actions, i, j, r);
      StandsInProjection(states, actions, k, |actions|);
    }
    CtlSafety.SelfRevocationCancelsNoLaterActivation(cs, ca, ci, cj, t);
    forall k, epoch | i <= k < j ensures !ActivatesEpoch(states[k], actions[k], epoch) {
      var _, _, _, ck := Projected(states, actions, i, k);
      var _, _, _, _ := Projected(states, actions, k, j);
    }
  }
}
