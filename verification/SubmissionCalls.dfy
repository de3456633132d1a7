/** What each call of the controller comes to, from its start to its return, whatever the other
    threads do meanwhile; and the whole call when they do nothing. */
module SubmissionCalls {
  import opened Authority
  import opened SubmissionProtocol
  import opened SubmissionProofs
  import opened SubmissionSafety
  import opened SubmissionController

  /** The step is not thread `t`'s. */
  predicate Elsewhere(action: Action, t: nat) {
    action.DropCapability? || action.thread != t
  }

  lemma OthersLeaveMe(s: State, action: Action, t: nat)
    requires Inv(s) && Enabled(s, action) && t < |s.pcs| && Elsewhere(action, t)
    ensures Apply(s, action).pcs[t] == s.pcs[t]
  {
    hide Enabled, Apply, Inv;
    StepKeeps(s, action);
    if action.DropCapability? { DroppingMovesNobody(s, action.dropped); }
  }

  lemma DroppingMovesNobody(s: State, c: nat)
    requires Enabled(s, DropCapability(c))
    ensures Apply(s, DropCapability(c)).pcs == s.pcs
  {
  }

  // ---- the control flow ---------------------------------------------------------------------------

  predicate RevokeGoesTo(pc: Pc, next: Pc) {
    match pc
    case RevokeLock(f) => next == RevokeNote(f) || next == RevokeBump(f)
    case RevokeNote(f) => next == RevokeBump(f)
    case RevokeBump(f) => next == RevokeClear(f) || next == RevokePoison(f)
    case RevokePoison(f) => next == RevokeClear(f)
    case RevokeClear(f) => next == if f then AuthorizeNone else Idle
    case _ => false
  }

  predicate AuthorizeGoesTo(pc: Pc, next: Pc) {
    match pc
    case UnwindStore => next == UnwindLock
    case UnwindLock => next == UnwindClear
    case UnwindClear => next == AuthorizeNone
    case AuthorizeEpoch(a, ok) => next.AuthorizeDecide? && next.expected == a && next.authorized == ok
    case AuthorizeDecide(a, ok, e) => next == RevokeLock(true) || (ok && next == AuthorizeMint(Grant(e, a)))
    case AuthorizeMint(_) => next == Idle
    case _ => false
  }

  predicate LockGoesTo(pc: Pc, next: Pc) {
    match pc
    case LockWant(k) => next == LockTest(k)
    case LockTest(k) => next == LockStore(k) || next == Refused(k) || next == Opened(k)
    case LockStore(k) => next == Refused(k)
    case _ => false
  }

  predicate ActivateGoesTo(pc: Pc, next: Pc) {
    match pc
    case ActivatePoison(e, a) => next == Leased || next == ActivateEpoch(e, a)
    case ActivateEpoch(e, a) => next == Leased || next == LockWant(Activator(e, a))
    case ActivateRetest(e, a) => next == Leased || next == ActivateRecheck(e, a)
    case ActivateRecheck(e, a) => next == Leased || next == ActivateWrite(e, a)
    case ActivateWrite(_, _) => next == Leased
    case _ => false
  }

  predicate AttemptGoesTo(pc: Pc, next: Pc) {
    match pc
    case Compare(k, _, _) => next == Idle || (CallerCap(k).Some? && next == LockWant(k))
    case CheckPoison(k) => next == Idle || next == CheckGrant(k)
    case CheckGrant(k) =>
      next == Idle || (k.Poster? && next == Validated(k.cap)) || (k.Revalidator? && next == Confirmed(k.cap))
    case Validated(c) => next == Polling(c)
    case PollClear(c) => next == PollStore(c)
    case PollStore(_) => next == Idle
    case _ => false
  }

  /** Where a thread's next uninterrupted step can take it. */
  predicate GoesTo(pc: Pc, next: Pc) {
    if AtRevoke(pc) then RevokeGoesTo(pc, next)
    else if AtAuthorize(pc) then AuthorizeGoesTo(pc, next)
    else if AtLock(pc) then LockGoesTo(pc, next)
    else if AtActivate(pc) then ActivateGoesTo(pc, next)
    else AttemptGoesTo(pc, next)
  }

  lemma RevokeGoes(s: State, t: nat)
    requires t < |s.pcs| && AtRevoke(s.pcs[t]) && (s.pcs[t].RevokeLock? ==> s.holder.None?)
    ensures RevokeGoesTo(s.pcs[t], RevokeStep(s, t).pcs[t])
  {
  }

  lemma AuthorizeGoes(s: State, t: nat)
    requires t < |s.pcs| && AtAuthorize(s.pcs[t]) && (s.pcs[t].UnwindLock? ==> s.holder.None?)
    ensures AuthorizeGoesTo(s.pcs[t], AuthorizeStep(s, t).pcs[t])
  {
  }

  lemma LockGoes(s: State, t: nat)
    requires CanAdvance(s, t) && AtLock(s.pcs[t])
    ensures LockGoesTo(s.pcs[t], LockStep(s, t).pcs[t])
  {
    hide Refused, Opened;
  }

  lemma ActivateGoes(s: State, t: nat)
    requires t < |s.pcs| && AtActivate(s.pcs[t])
    ensures ActivateGoesTo(s.pcs[t], ActivateStep(s, t).pcs[t])
  {
    var next := ActivateStep(s, t).pcs[t];
    match s.pcs[t]
    case ActivatePoison(e, a) => assert next == Leased || next == ActivateEpoch(e, a);
    case ActivateEpoch(e, a) => assert next == Leased || next == LockWant(Activator(e, a));
    case ActivateRetest(e, a) => assert next == Leased || next == ActivateRecheck(e, a);
    case ActivateRecheck(e, a) => assert next == Leased || next == ActivateWrite(e, a);
    case ActivateWrite(_, _) => assert next == Leased;
  }

  lemma CheckGoes(s: State, t: nat)
    requires CanAdvance(s, t) && AtCheck(s.pcs[t])
    ensures AttemptGoesTo(s.pcs[t], CheckStep(s, t).pcs[t])
  {
  }

  lemma PollGoes(s: State, t: nat)
    requires t < |s.pcs| && AtPoll(s.pcs[t])
    ensures AttemptGoesTo(s.pcs[t], PollStep(s, t).pcs[t])
  {
  }

  lemma AdvanceGoes(s: State, t: nat)
    requires CanAdvance(s, t)
    ensures GoesTo(s.pcs[t], AdvanceStep(s, t).pcs[t])
  {
    hide RevokeGoesTo, AuthorizeGoesTo, LockGoesTo, ActivateGoesTo, AttemptGoesTo;
    hide RevokeStep, AuthorizeStep, LockStep, ActivateStep, CheckStep, PollStep;
    var pc := s.pcs[t];
    if AtRevoke(pc) { RevokeGoes(s, t); }
    else if AtAuthorize(pc) { AuthorizeGoes(s, t); }
    else if AtLock(pc) { LockGoes(s, t); }
    else if AtActivate(pc) { ActivateGoes(s, t); }
    else if AtCheck(pc) { CheckGoes(s, t); }
    else { PollGoes(s, t); }
  }

  // ---- an approved authorization ---------------------------------------------------------------

  /** Points between an approving verdict for `a` and the mint. */
  predicate Approved(pc: Pc, a: ProtocolAuthority) {
    || pc == LockWant(Authorizer(a, true)) || pc == LockTest(Authorizer(a, true)) || pc == LockStore(Authorizer(a, true))
    || pc == AuthorizeEpoch(a, true) || (pc.AuthorizeDecide? && pc.expected == a && pc.authorized)
    || (pc.AuthorizeMint? && pc.grant.authority == a)
  }

  lemma StartApprovesNothing(s: State, t: nat, op: Operation, a: ProtocolAuthority)
    requires CanStart(s, t, op)
    ensures !Approved(StartStep(s, t, op).pcs[t], a)
  {
  }

  lemma ApprovedBefore(pc: Pc, next: Pc, a: ProtocolAuthority)
    requires GoesTo(pc, next) && Approved(next, a)
    ensures Approved(pc, a)
  {
    hide Approved, RevokeGoesTo, AuthorizeGoesTo, LockGoesTo, ActivateGoesTo, AttemptGoesTo;
    if AtAuthorize(pc) { ApprovedByDecision(pc, next, a); }
    else if AtLock(pc) { ApprovedThroughLock(pc, next, a); }
    else { OtherStepsApproveNothing(pc, next, a); }
  }

  lemma ApprovedByDecision(pc: Pc, next: Pc, a: ProtocolAuthority)
    requires AuthorizeGoesTo(pc, next) && Approved(next, a)
    ensures Approved(pc, a)
  {
  }

  lemma ApprovedThroughLock(pc: Pc, next: Pc, a: ProtocolAuthority)
    requires LockGoesTo(pc, next) && Approved(next, a)
    ensures Approved(pc, a)
  {
  }

  lemma OtherStepsApproveNothing(pc: Pc, next: Pc, a: ProtocolAuthority)
    ensures RevokeGoesTo(pc, next) ==> !Approved(next, a)
    ensures ActivateGoesTo(pc, next) ==> !Approved(next, a)
    ensures AttemptGoesTo(pc, next) ==> !Approved(next, a)
  {
  }

  /** Where an event that is neither a call nor a step of one leaves its thread. */
  lemma EventGoes(s: State, action: Action, t: nat)
    requires Enabled(s, action) && !action.Advance? && !action.Start? && !Elsewhere(action, t) && t < |s.pcs|
    ensures var pc := Apply(s, action).pcs[t];
            if action.Decide?
            then s.pcs[t].AuthorizePredicate?
                 && pc == if action.verdict.Unwinds? then UnwindStore
                          else LockWant(Authorizer(s.pcs[t].expected, action.verdict.Approves?))
            else pc == Idle || pc.InFlight? || pc.PollClear?
  {
  }

  lemma EventApproves(s: State, action: Action, t: nat, a: ProtocolAuthority)
    requires Enabled(s, action) && !action.Advance? && !action.Start? && !Elsewhere(action, t)
    requires t < |s.pcs| && Approved(Apply(s, action).pcs[t], a)
    ensures Approved(s.pcs[t], a) || (action == Decide(t, Approves) && s.pcs[t] == AuthorizePredicate(a))
  {
    EventGoes(s, action, t);
    ApprovedNames(Apply(s, action).pcs[t], a);
    hide Enabled, Apply, Approved;
  }

  lemma ApprovedNames(pc: Pc, a: ProtocolAuthority)
    requires Approved(pc, a)
    ensures !pc.Idle? && !pc.InFlight? && !pc.PollClear? && !pc.UnwindStore?
    ensures pc.LockWant? ==> pc.caller == Authorizer(a, true)
  {
  }

  lemma ApprovedOnlyByVerdict(s: State, action: Action, t: nat, a: ProtocolAuthority)
    requires Inv(s) && Enabled(s, action) && t < |s.pcs| && Approved(Apply(s, action).pcs[t], a)
    ensures Approved(s.pcs[t], a) || (action == Decide(t, Approves) && s.pcs[t] == AuthorizePredicate(a))
  {
    hide Approved, AdvanceStep, StartStep, Inv, GoesTo;
    if Elsewhere(action, t) {
      OthersLeaveMe(s, action, t);
    } else if action.Start? {
      StartApprovesNothing(s, t, action.operation, a);
    } else if action.Advance? {
      AdvanceGoes(s, t);
      ApprovedBefore(s.pcs[t], AdvanceStep(s, t).pcs[t], a);
    } else {
      EventApproves(s, action, t, a);
    }
  }

  /** A capability is minted only for an authority its own call's predicate has approved, and
      with nothing but the way from that verdict to the mint in between. */
  lemma {:induction false} MintFollowsApproval(states: seq<State>, actions: seq<Action>, i: nat, t: nat, a: ProtocolAuthority)
    returns (k: nat)
    requires IsRun(states, actions) && i < |states| && t < |states[i].pcs| && Approved(states[i].pcs[t], a)
    ensures k < i && actions[k] == Decide(t, Approves)
    ensures t < |states[k].pcs| && states[k].pcs[t] == AuthorizePredicate(a)
    ensures forall m :: k < m <= i ==> t < |states[m].pcs| && Approved(states[m].pcs[t], a)
    decreases i
  {
    hide Apply, Enabled, Inv, Approved, Initial;
    if i == 0 { StartsUnapproved(states[0], t, a); }
    RunKeeps(states, actions, i - 1);
    assert StepAt(states, actions, i - 1);
    ApprovedOnlyByVerdict(states[i - 1], actions[i - 1], t, a);
    if Approved(states[i - 1].pcs[t], a) {
      k := MintFollowsApproval(states, actions, i - 1, t, a);
    } else {
      k := i - 1;
    }
  }

  lemma StartsUnapproved(s: State, t: nat, a: ProtocolAuthority)
    requires Initial(s) && t < |s.pcs|
    ensures !Approved(s.pcs[t], a)
  {
  }

  /** The step mints a capability. */
  predicate Mints(s: State, action: Action) {
    action.Advance? && action.thread < |s.pcs| && s.pcs[action.thread].AuthorizeMint?
  }

  lemma MintIsOfItsGrant(s: State, action: Action)
    requires Enabled(s, action) && Mints(s, action)
    ensures Approved(s.pcs[action.thread], s.pcs[action.thread].grant.authority)
    ensures Apply(s, action).caps == s.caps[s.nextCap := Capability(s.binding, s.pcs[action.thread].grant)]
  {
  }

  /** The step decides to mint `g`: the predicate approved it, the flag is clear, and under the
      mutex exactly `g` is active and of the current epoch. */
  predicate DecidesFor(s: State, action: Action, t: nat, g: Grant) {
    && action == Advance(t) && t < |s.pcs| && s.pcs[t] == AuthorizeDecide(g.authority, true, g.epoch)
    && !s.poisoned && !s.mutexPoisoned && s.active == Some(g) && s.epoch == g.epoch && s.holder == Some(t)
  }

  lemma MintIsDecided(s: State, action: Action, t: nat, g: Grant)
    requires Inv(s) && Enabled(s, action) && t < |s.pcs| && Apply(s, action).pcs[t] == AuthorizeMint(g)
    ensures s.pcs[t] == AuthorizeMint(g) || DecidesFor(s, action, t, g)
  {
    hide AdvanceStep, StartStep, Inv, GoesTo;
    if Elsewhere(action, t) {
      OthersLeaveMe(s, action, t);
    } else if action.Start? {
      StartMintsNothing(s, t, action.operation);
    } else if action.Advance? {
      AdvanceGoes(s, t);
      MintComesFromDecision(s.pcs[t], AdvanceStep(s, t).pcs[t]);
      DecisionIsExact(s, t);
    } else {
      EventGoes(s, action, t);
    }
  }

  lemma StartMintsNothing(s: State, t: nat, op: Operation)
    requires CanStart(s, t, op)
    ensures !StartStep(s, t, op).pcs[t].AuthorizeMint? && !StartStep(s, t, op).pcs[t].Confirmed?
    ensures !StartStep(s, t, op).pcs[t].CheckGrant? && !ActivationTested(StartStep(s, t, op).pcs[t])
  {
  }

  lemma MintComesFromDecision(pc: Pc, next: Pc)
    requires GoesTo(pc, next) && next.AuthorizeMint?
    ensures pc == AuthorizeDecide(next.grant.authority, true, next.grant.epoch)
  {
  }

  lemma DecisionIsExact(s: State, t: nat)
    requires Inv(s) && CanAdvance(s, t) && s.pcs[t].AuthorizeDecide? && AdvanceStep(s, t).pcs[t].AuthorizeMint?
    ensures DecidesFor(s, Advance(t), t, AdvanceStep(s, t).pcs[t].grant)
  {
    hide LockStep, ActivateStep, CheckStep, PollStep, RevokeStep;
    assert ThreadOk(s, t);
  }

  /** Every mint follows such a decision of its own call, with nothing in between; the flag may
      be stored again meanwhile, by another authorization that unwinds. */
  lemma {:induction false} MintFollowsDecision(states: seq<State>, actions: seq<Action>, i: nat, t: nat, g: Grant)
    returns (k: nat)
    requires IsRun(states, actions) && i < |states| && t < |states[i].pcs| && states[i].pcs[t] == AuthorizeMint(g)
    ensures k < i && DecidesFor(states[k], actions[k], t, g)
    ensures forall m :: k < m <= i ==> t < |states[m].pcs| && states[m].pcs[t] == AuthorizeMint(g)
    decreases i
  {
    hide Apply, Enabled, Inv, DecidesFor;
    assert i > 0;
    RunKeeps(states, actions, i - 1);
    assert StepAt(states, actions, i - 1);
    MintIsDecided(states[i - 1], actions[i - 1], t, g);
    if states[i - 1].pcs[t] == AuthorizeMint(g) {
      k := MintFollowsDecision(states, actions, i - 1, t, g);
    } else {
      k := i - 1;
    }
  }

  // ---- a confirmed revalidation ------------------------------------------------------------------

  /** The step finds, under the mutex, that the presented attempt's grant is active and current. */
  predicate ConfirmsAttempt(s: State, action: Action, t: nat, c: nat) {
    && action == Advance(t) && t < |s.pcs| && s.pcs[t] == CheckGrant(Revalidator(c))
    && c in s.caps && s.active == Some(s.caps[c].grant) && s.epoch == s.caps[c].grant.epoch && s.holder == Some(t)
  }

  /** The step finds, under the mutex, that the flag is clear. */
  predicate FindsFlagClear(s: State, action: Action, t: nat, k: Caller) {
    && action == Advance(t) && t < |s.pcs| && s.pcs[t] == CheckPoison(k) && !s.poisoned && s.holder == Some(t)
  }

  lemma ConfirmationIsChecked(s: State, action: Action, t: nat, c: nat)
    requires Inv(s) && Enabled(s, action) && t < |s.pcs|
    ensures Apply(s, action).pcs[t] == Confirmed(c) ==> s.pcs[t] == Confirmed(c) || ConfirmsAttempt(s, action, t, c)
    ensures Apply(s, action).pcs[t] == CheckGrant(Revalidator(c)) ==>
              s.pcs[t] == CheckGrant(Revalidator(c)) || FindsFlagClear(s, action, t, Revalidator(c))
  {
    hide AdvanceStep, StartStep, Inv, GoesTo;
    if Elsewhere(action, t) {
      OthersLeaveMe(s, action, t);
    } else if action.Start? {
      StartMintsNothing(s, t, action.operation);
    } else if action.Advance? {
      AdvanceGoes(s, t);
      CheckComesFrom(s.pcs[t], AdvanceStep(s, t).pcs[t]);
      CheckIsExact(s, t);
    } else {
      EventGoes(s, action, t);
    }
  }

  lemma CheckComesFrom(pc: Pc, next: Pc)
    requires GoesTo(pc, next)
    ensures next.Confirmed? ==> pc == CheckGrant(Revalidator(next.cap))
    ensures next.CheckGrant? ==> pc == CheckPoison(next.caller)
  {
  }

  lemma CheckIsExact(s: State, t: nat)
    requires Inv(s) && CanAdvance(s, t)
    ensures s.pcs[t].CheckGrant? && AdvanceStep(s, t).pcs[t].Confirmed? && s.pcs[t].caller.Revalidator? ==>
              ConfirmsAttempt(s, Advance(t), t, s.pcs[t].caller.cap)
    ensures s.pcs[t].CheckPoison? && AdvanceStep(s, t).pcs[t].CheckGrant? ==>
              FindsFlagClear(s, Advance(t), t, s.pcs[t].caller)
  {
    hide LockStep, ActivateStep, AuthorizeStep, PollStep, RevokeStep;
    assert ThreadOk(s, t);
  }

  lemma {:induction false} GrantCheckFollowsFlagCheck(states: seq<State>, actions: seq<Action>, i: nat, t: nat, c: nat)
    returns (k: nat)
    requires IsRun(states, actions) && i < |states| && t < |states[i].pcs| && states[i].pcs[t] == CheckGrant(Revalidator(c))
    ensures k < i && FindsFlagClear(states[k], actions[k], t, Revalidator(c))
    ensures forall m :: k < m <= i ==> t < |states[m].pcs| && states[m].holder == Some(t)
    decreases i
  {
    hide Apply, Enabled, Inv, FindsFlagClear, ConfirmsAttempt;
    assert i > 0;
    RunKeeps(states, actions, i - 1);
    RunKeeps(states, actions, i);
    assert StepAt(states, actions, i - 1);
    ConfirmationIsChecked(states[i - 1], actions[i - 1], t, c);
    CriticalHoldsMutex(states[i], t);
    if states[i - 1].pcs[t] == CheckGrant(Revalidator(c)) {
      k := GrantCheckFollowsFlagCheck(states, actions, i - 1, t, c);
    } else {
      k := i - 1;
    }
  }

  /** A revalidation is confirmed only after its own call found the flag clear and then, in the
      same hold of the mutex, exactly the attempt's grant active and current. */
  lemma {:induction false} ConfirmationFollowsChecks(states: seq<State>, actions: seq<Action>, i: nat, t: nat, c: nat)
    returns (k: nat, m: nat)
    requires IsRun(states, actions) && i < |states| && t < |states[i].pcs| && states[i].pcs[t] == Confirmed(c)
    ensures k < m < i && FindsFlagClear(states[k], actions[k], t, Revalidator(c))
    ensures ConfirmsAttempt(states[m], actions[m], t, c)
    ensures forall n :: k < n <= m ==> states[n].holder == Some(t)
    decreases i
  {
    hide Apply, Enabled, Inv, FindsFlagClear;
    assert i > 0;
    RunKeeps(states, actions, i - 1);
    assert StepAt(states, actions, i - 1);
    ConfirmationIsChecked(states[i - 1], actions[i - 1], t, c);
    if states[i - 1].pcs[t] == Confirmed(c) {
      k, m := ConfirmationFollowsChecks(states, actions, i - 1, t, c);
    } else {
      m := i - 1;
      k := GrantCheckFollowsFlagCheck(states, actions, m, t, c);
    }
  }

  // ---- an activation ----------------------------------------------------------------------------

  /** Past the retest of the flag under the mutex. */
  predicate ActivationTested(pc: Pc) {
    pc.ActivateRecheck? || pc.ActivateWrite?
  }

  lemma TestedAfter(s: State, action: Action, t: nat)
    requires Inv(s) && Enabled(s, action) && t < |s.pcs| && !Elsewhere(action, t)
    requires ActivationTested(Apply(s, action).pcs[t])
    ensures ActivationTested(s.pcs[t]) || !Apply(s, action).poisoned
    ensures Apply(s, action).poisoned ==> s.poisoned
  {
    hide AdvanceStep, StartStep, Inv, GoesTo;
    if action.Start? {
      StartMintsNothing(s, t, action.operation);
    } else if action.Advance? {
      AdvanceGoes(s, t);
      TestComesFrom(s.pcs[t], AdvanceStep(s, t).pcs[t]);
      RetestIsExact(s, t);
    } else {
      EventGoes(s, action, t);
    }
  }

  lemma TestComesFrom(pc: Pc, next: Pc)
    requires GoesTo(pc, next) && ActivationTested(next)
    ensures pc.ActivateRetest? || pc.ActivateRecheck?
  {
  }

  lemma RetestIsExact(s: State, t: nat)
    requires CanAdvance(s, t) && (s.pcs[t].ActivateRetest? || s.pcs[t].ActivateRecheck?)
    ensures AdvanceStep(s, t).poisoned == s.poisoned
    ensures s.pcs[t].ActivateRetest? && ActivationTested(AdvanceStep(s, t).pcs[t]) ==> !s.poisoned
  {
    hide LockStep, CheckStep, AuthorizeStep, PollStep, RevokeStep;
  }

  /** While an activation is past its retest nobody can set the flag: the mutex is taken, and no
      authorization is under way that could unwind. */
  lemma FlagStaysClear(s: State, action: Action, t: nat)
    requires Inv(s) && Enabled(s, action) && t < |s.pcs| && ActivationTested(s.pcs[t]) && Elsewhere(action, t) && !s.poisoned
    ensures !Apply(s, action).poisoned
  {
    hide Enabled, Apply;
    StepKeeps(s, action);
    assert ThreadOk(s, t);
    if action.DropCapability? { DropStoresNothing(s, action); } else { assert ThreadOk(s, action.thread); }
  }

  lemma {:induction false} TestedFlagIsClear(states: seq<State>, actions: seq<Action>, i: nat, t: nat)
    requires IsRun(states, actions) && i < |states| && t < |states[i].pcs| && ActivationTested(states[i].pcs[t])
    ensures !states[i].poisoned
    decreases i
  {
    hide Apply, Enabled, Inv;
    assert i > 0;
    RunKeeps(states, actions, i - 1);
    assert StepAt(states, actions, i - 1);
    if Elsewhere(actions[i - 1], t) {
      OthersLeaveMe(states[i - 1], actions[i - 1], t);
      TestedFlagIsClear(states, actions, i - 1, t);
      FlagStaysClear(states[i - 1], actions[i - 1], t);
    } else {
      TestedAfter(states[i - 1], actions[i - 1], t);
      if ActivationTested(states[i - 1].pcs[t]) { TestedFlagIsClear(states, actions, i - 1, t); }
    }
  }

  /** A grant is only ever activated with neither poison mark set, nothing active, the epoch the
      expected one, and the activating thread holding both the mutex and the lease. */
  lemma ActivationFindsControllerClear(states: seq<State>, actions: seq<Action>, i: nat)
    requires IsRun(states, actions) && i < |actions| && Activates(states[i], actions[i])
    ensures var s, t := states[i], actions[i].thread;
            && !s.poisoned && !s.mutexPoisoned && s.active.None? && s.epoch == s.pcs[t].epoch
            && s.holder == Some(t) && s.writer == Some(t)
  {
    hide Apply, Enabled;
    RunKeeps(states, actions, i);
    TestedFlagIsClear(states, actions, i, actions[i].thread);
    assert ThreadOk(states[i], actions[i].thread);
  }

  // ---- a call that denies -----------------------------------------------------------------------

  /** Points of a call that will mint nothing: refused, unwound, or revoking. */
  predicate Denying(pc: Pc) {
    || (AtLock(pc) && pc.caller.Authorizer? && !pc.caller.authorized)
    || (pc.AuthorizeEpoch? && !pc.authorized) || (pc.AuthorizeDecide? && !pc.authorized)
    || AtRevoke(pc) || pc.UnwindStore? || pc.UnwindLock? || pc.UnwindClear? || pc.AuthorizeNone?
  }

  /** What a denying call has done to the controller since the epoch was `since`. */
  predicate Denied(s: State, pc: Pc, since: nat) {
    match pc
    case RevokePoison(_) => s.epoch >= since
    case RevokeClear(_) => s.epoch > since || s.poisoned
    case UnwindLock | UnwindClear => s.poisoned
    case AuthorizeNone => s.active.None? && (s.epoch > since || s.poisoned)
    case _ => s.epoch >= since
  }

  /** The call gives up its hold: it returns, or its thread panics holding the mutex. */
  predicate Quits(action: Action, t: nat) {
    action == Return(t) || action == HolderPanics(t)
  }

  lemma RevokeDenies(s: State, t: nat, since: nat)
    requires Sound(s, t) && CanAdvance(s, t) && AtRevoke(s.pcs[t]) && Denied(s, s.pcs[t], since)
    ensures var s' := RevokeStep(s, t);
            (Denying(s'.pcs[t]) && Denied(s', s'.pcs[t], since)) || (s'.pcs[t].Idle? && s.pcs[t] == RevokeClear(false))
  {
    hide Denying;
    RevokeGoes(s, t);
    RevokingDenies(s.pcs[t], RevokeStep(s, t).pcs[t]);
  }

  lemma RevokingDenies(pc: Pc, next: Pc)
    requires GoesTo(pc, next) && Denying(pc)
    ensures Denying(next) || (next.Idle? && pc == RevokeClear(false))
  {
  }

  lemma AuthorizeDenies(s: State, t: nat, since: nat)
    requires Sound(s, t) && CanAdvance(s, t) && AtAuthorize(s.pcs[t]) && Denying(s.pcs[t]) && Denied(s, s.pcs[t], since)
    ensures Denying(AuthorizeStep(s, t).pcs[t]) && Denied(AuthorizeStep(s, t), AuthorizeStep(s, t).pcs[t], since)
  {
    AuthorizeGoes(s, t);
    RevokingDenies(s.pcs[t], AuthorizeStep(s, t).pcs[t]);
    hide Denying, GoesTo;
  }

  lemma LockDenies(s: State, t: nat, since: nat)
    requires Sound(s, t) && CanAdvance(s, t) && AtLock(s.pcs[t]) && Denying(s.pcs[t]) && Denied(s, s.pcs[t], since)
    ensures Denying(LockStep(s, t).pcs[t]) && Denied(LockStep(s, t), LockStep(s, t).pcs[t], since)
  {
    LockGoes(s, t);
    RevokingDenies(s.pcs[t], LockStep(s, t).pcs[t]);
    assert s.pcs[t].caller.Authorizer?;
    hide Denying, GoesTo;
  }

  /** Nobody else undoes what a denying call has done. */
  lemma DenialSurvives(s: State, s': State, t: nat, since: nat)
    requires Later(s, s') && t < |s.pcs| && s'.pcs[t] == s.pcs[t] && Denied(s, s.pcs[t], since)
    requires s.pcs[t].AuthorizeNone? ==> s'.active.None?
    ensures Denied(s', s'.pcs[t], since)
  {
  }

  /** The thread's own revocation, not an authorization's, ends here. */
  predicate Publishing(s: State, action: Action, t: nat) {
    action == Advance(t) && t < |s.pcs| && s.pcs[t] == RevokeClear(false)
  }

  lemma StepDenies(s: State, action: Action, t: nat, since: nat)
    requires Inv(s) && Enabled(s, action) && t < |s.pcs| && Denying(s.pcs[t]) && Denied(s, s.pcs[t], since)
    requires !Quits(action, t) && !Publishing(s, action, t)
    ensures Denying(Apply(s, action).pcs[t]) && Denied(Apply(s, action), Apply(s, action).pcs[t], since)
  {
    hide Enabled, Apply, Denied, Guarantee;
    StepKeeps(s, action);
    assert ThreadOk(s, t);
    if Elsewhere(action, t) {
      OthersLeaveMe(s, action, t);
      assert ThreadOk(Apply(s, action), t);
      DenialSurvives(s, Apply(s, action), t, since);
    } else {
      DenyingOnlyAdvances(s, action, t);
      AdvanceDenies(s, t, since);
    }
  }

  lemma DenyingOnlyAdvances(s: State, action: Action, t: nat)
    requires Enabled(s, action) && t < |s.pcs| && Denying(s.pcs[t]) && !Elsewhere(action, t) && !Quits(action, t)
    ensures action == Advance(t)
  {
  }

  lemma AdvanceDenies(s: State, t: nat, since: nat)
    requires Sound(s, t) && Enabled(s, Advance(t)) && Denying(s.pcs[t]) && Denied(s, s.pcs[t], since)
    requires s.pcs[t] != RevokeClear(false)
    ensures Denying(Apply(s, Advance(t)).pcs[t])
    ensures Denied(Apply(s, Advance(t)), Apply(s, Advance(t)).pcs[t], since)
  {
    hide Sound, Denied, RevokeStep, AuthorizeStep, LockStep;
    if AtRevoke(s.pcs[t]) { RevokeDenies(s, t, since); }
    else if AtAuthorize(s.pcs[t]) { AuthorizeDenies(s, t, since); }
    else { LockDenies(s, t, since); }
  }

  lemma {:induction false} StaysDenying(states: seq<State>, actions: seq<Action>, i: nat, j: nat, t: nat, since: nat)
    requires IsRun(states, actions) && i <= j < |states| && t < |states[i].pcs|
    requires Denying(states[i].pcs[t]) && Denied(states[i], states[i].pcs[t], since)
    requires forall m :: i <= m < j ==> !Quits(actions[m], t) && !Publishing(states[m], actions[m], t)
    ensures t < |states[j].pcs| && Denying(states[j].pcs[t]) && Denied(states[j], states[j].pcs[t], since)
    decreases j
  {
    hide Apply, Enabled, Inv, Denying, Denied, Quits, Publishing;
    if i < j {
      StaysDenying(states, actions, i, j - 1, t, since);
      RunKeeps(states, actions, j - 1);
      assert StepAt(states, actions, j - 1);
      RunIsLater(states, actions, j - 1, j);
      StepDenies(states[j - 1], actions[j - 1], t, since);
    }
  }

  lemma VerdictDenies(s: State, t: nat, verdict: PredicateOutcome)
    requires Enabled(s, Decide(t, verdict)) && !verdict.Approves?
    ensures var s' := Apply(s, Decide(t, verdict));
            && t < |s.pcs| && |s'.pcs| == |s.pcs|
            && Denying(s'.pcs[t]) && Denied(s', s'.pcs[t], s.epoch) && Denied(s', s'.pcs[t], 0) && ReadFenced(s'.pcs[t])
  {
  }

  /** After a predicate has refused or unwound, its call mints nothing for as long as it lasts;
      and when it has nothing left to do but return, nothing is active, and the epoch has moved
      on since the verdict or the poison flag is set. */
  lemma DeniedCallMintsNothing(states: seq<State>, actions: seq<Action>, i: nat, j: nat, t: nat)
    requires IsRun(states, actions) && i < j < |states|
    requires actions[i] == Decide(t, Refuses) || actions[i] == Decide(t, Unwinds)
    requires forall m :: i < m < j ==> !Quits(actions[m], t)
    ensures t < |states[j].pcs| && Denying(states[j].pcs[t])
    ensures j < |actions| ==> !(Mints(states[j], actions[j]) && actions[j].thread == t)
    ensures states[j].pcs[t].AuthorizeNone? ==>
              states[j].active.None? && (states[j].epoch > states[i].epoch || states[j].poisoned)
  {
    hide Apply, Enabled, Inv;
    RunKeeps(states, actions, i);
    assert StepAt(states, actions, i);
    RunIsLater(states, actions, i, i + 1);
    VerdictDenies(states[i], t, actions[i].verdict);
    FencedUntilReturn(states, actions, i + 1, j, t);
    StaysDenying(states, actions, i + 1, j, t, states[i].epoch);
  }

  /** The authorization keeps its read fence, so no revocation of its thread's own is under way. */
  lemma {:induction false} FencedUntilReturn(states: seq<State>, actions: seq<Action>, i: nat, j: nat, t: nat)
    requires IsRun(states, actions) && i <= j < |states| && t < |states[i].pcs| && ReadFenced(states[i].pcs[t])
    requires Denying(states[i].pcs[t]) && Denied(states[i], states[i].pcs[t], 0)
    requires forall m :: i <= m < j ==> !Quits(actions[m], t)
    ensures forall m :: i <= m <= j ==> t < |states[m].pcs| && ReadFenced(states[m].pcs[t]) && Denying(states[m].pcs[t])
    ensures Denied(states[j], states[j].pcs[t], 0)
    decreases j
  {
    hide Apply, Enabled, Inv, Denying, Denied, Quits;
    if i < j {
      FencedUntilReturn(states, actions, i, j - 1, t);
      RunKeeps(states, actions, j - 1);
      assert StepAt(states, actions, j - 1);
      RunIsLater(states, actions, j - 1, j);
      assert !Publishing(states[j - 1], actions[j - 1], t);
      StepDenies(states[j - 1], actions[j - 1], t, 0);
      StepKeepsFence(states[j - 1], actions[j - 1], t);
    }
  }

  lemma StepKeepsFence(s: State, action: Action, t: nat)
    requires Inv(s) && Enabled(s, action) && t < |s.pcs| && ReadFenced(s.pcs[t]) && Denying(s.pcs[t])
    requires !Quits(action, t)
    ensures ReadFenced(Apply(s, action).pcs[t])
  {
    hide Enabled, Apply, Inv;
    if Elsewhere(action, t) {
      OthersLeaveMe(s, action, t);
    } else {
      DenyingOnlyAdvances(s, action, t);
      AdvanceKeepsFence(s, t);
    }
  }

  lemma AdvanceKeepsFence(s: State, t: nat)
    requires Enabled(s, Advance(t)) && ReadFenced(s.pcs[t]) && Denying(s.pcs[t])
    ensures ReadFenced(Apply(s, Advance(t)).pcs[t])
  {
    hide AdvanceStep, GoesTo, ReadFenced, Denying;
    assert CanAdvance(s, t) && Apply(s, Advance(t)) == AdvanceStep(s, t);
    AdvanceGoes(s, t);
    FenceGoesOn(s.pcs[t], Apply(s, Advance(t)).pcs[t]);
  }

  lemma FenceGoesOn(pc: Pc, next: Pc)
    requires GoesTo(pc, next) && ReadFenced(pc) && Denying(pc)
    ensures ReadFenced(next)
  {
  }

  // ---- a revocation -------------------------------------------------------------------------------

  lemma StartedRevocation(s: State, t: nat)
    requires Enabled(s, Start(t, Revoke))
    ensures t < |s.pcs| && Apply(s, Start(t, Revoke)) == Moved(s, t, RevokeLock(false))
  {
  }

  lemma AdvanceRevokes(s: State, t: nat)
    requires Enabled(s, Advance(t)) && AtRevoke(s.pcs[t]) && !ReadFenced(s.pcs[t])
    ensures s.pcs[t] != RevokeClear(false) ==>
              AtRevoke(Apply(s, Advance(t)).pcs[t]) && !ReadFenced(Apply(s, Advance(t)).pcs[t])
  {
    hide AdvanceStep, GoesTo, ReadFenced, AtRevoke;
    assert CanAdvance(s, t) && Apply(s, Advance(t)) == AdvanceStep(s, t);
    AdvanceGoes(s, t);
    if s.pcs[t] != RevokeClear(false) { RevokingGoesOn(s.pcs[t], Apply(s, Advance(t)).pcs[t]); }
  }

  lemma RevokingGoesOn(pc: Pc, next: Pc)
    requires GoesTo(pc, next) && AtRevoke(pc) && !ReadFenced(pc) && pc != RevokeClear(false)
    ensures AtRevoke(next) && !ReadFenced(next)
  {
  }

  lemma RevocationStep(s: State, action: Action, t: nat)
    requires Inv(s) && Enabled(s, action) && t < |s.pcs| && AtRevoke(s.pcs[t]) && !ReadFenced(s.pcs[t])
    requires !Publishing(s, action, t) && !Quits(action, t)
    ensures AtRevoke(Apply(s, action).pcs[t]) && !ReadFenced(Apply(s, action).pcs[t])
  {
    hide Enabled, Apply, Inv, ReadFenced;
    if Elsewhere(action, t) {
      OthersLeaveMe(s, action, t);
    } else {
      DenyingOnlyAdvances(s, action, t);
      AdvanceRevokes(s, t);
    }
  }

  lemma {:induction false} StaysRevoking(states: seq<State>, actions: seq<Action>, i: nat, j: nat, t: nat)
    requires IsRun(states, actions) && i < j < |states| && actions[i] == Start(t, Revoke)
    requires forall m :: i < m < j ==> !Quits(actions[m], t) && !Publishing(states[m], actions[m], t)
    ensures t < |states[j].pcs| && AtRevoke(states[j].pcs[t]) && !ReadFenced(states[j].pcs[t])
    decreases j
  {
    hide Apply, Enabled, Inv, Quits, Publishing, AtRevoke;
    RunKeeps(states, actions, j - 1);
    assert StepAt(states, actions, j - 1);
    RunIsLater(states, actions, j - 1, j);
    if i + 1 < j {
      StaysRevoking(states, actions, i, j - 1, t);
      RevocationStep(states[j - 1], actions[j - 1], t);
    } else {
      StartedRevocation(states[i], t);
      RevokeLockIsRevoking();
    }
  }

  lemma RevokeLockIsRevoking()
    ensures AtRevoke(RevokeLock(false)) && !ReadFenced(RevokeLock(false))
  {
  }

  /** A revocation that has been called returns only by publishing: as long as its thread has
      neither published nor panicked, it is still revoking; and when it publishes, the epoch has
      moved on since the call or the flag is set. */
  lemma RevocationReturnsOnlyByPublishing(states: seq<State>, actions: seq<Action>, i: nat, j: nat, t: nat)
    requires IsRun(states, actions) && i < j < |states| && actions[i] == Start(t, Revoke)
    requires forall m :: i < m < j ==> !Quits(actions[m], t) && !Publishing(states[m], actions[m], t)
    ensures t < |states[j].pcs| && AtRevoke(states[j].pcs[t])
    ensures j < |actions| && Publishing(states[j], actions[j], t) ==>
              && Publishes(states[j], actions[j])
              && (states[j].epoch > states[i].epoch || states[j].poisoned)
  {
    hide Apply, Enabled, Inv;
    StaysRevoking(states, actions, i, j, t);
    RunKeeps(states, actions, i);
    assert StepAt(states, actions, i);
    StartedRevocation(states[i], t);
    RunIsLater(states, actions, i, i + 1);
    StaysDenying(states, actions, i + 1, j, t, states[i].epoch);
  }

  // ---- a transport ------------------------------------------------------------------------------

  /** The action ends the transport thread `t` has begun. */
  predicate EndsTransport(action: Action, t: nat) {
    || action == FirstPollReturns(t, Ready) || action == FirstPollReturns(t, Panicked)
    || action == LaterPoll(t, true) || action == Cancel(t) || action == HolderPanics(t)
  }

  /** A begun transport goes on, with its own attempt, until its poll is ready or panics, it is
      dropped, or its thread panics; and a first poll that comes back gives the mutex up. */
  lemma TransportGoesOnIff(s: State, action: Action, t: nat)
    requires Inv(s) && Enabled(s, action) && t < |s.pcs| && Underway(s.pcs[t])
    ensures (Underway(Apply(s, action).pcs[t]) && Apply(s, action).pcs[t].cap == s.pcs[t].cap) <==> !EndsTransport(action, t)
    ensures action.FirstPollReturns? && action.thread == t && !action.poll.Panicked? ==> Apply(s, action).holder.None?
  {
    hide Inv, StartStep, AdvanceStep;
    if Elsewhere(action, t) {
      hide Enabled, Apply;
      OthersLeaveMe(s, action, t);
    } else {
      UnderwayOnlyPolls(s, action, t);
    }
  }

  lemma UnderwayOnlyPolls(s: State, action: Action, t: nat)
    requires Enabled(s, action) && t < |s.pcs| && Underway(s.pcs[t]) && !Elsewhere(action, t)
    ensures action.FirstPollReturns? || action.LaterPoll? || action.Cancel? || action.HolderPanics?
  {
  }

  // ---- a panicking poll ---------------------------------------------------------------------------

  /** No transport can be begun any more: the mutex is poisoned, or the flag is set with nobody
      past its test, or the thread whose poll panicked still holds the mutex to set it. */
  ghost predicate ShutDown(s: State, t: nat) {
    || s.mutexPoisoned
    || (s.poisoned && forall u :: 0 <= u < |s.pcs| ==> !AboutToPoll(s.pcs[u]))
    || (t < |s.pcs| && s.holder == Some(t) && (s.pcs[t].PollClear? || s.pcs[t].PollStore?))
  }

  lemma ShutDownPollsNothing(s: State, action: Action, t: nat)
    requires Inv(s) && ShutDown(s, t)
    ensures !FirstPoll(s, action)
  {
    if action.Advance? && action.thread < |s.pcs| { assert ThreadOk(s, action.thread); }
  }

  lemma MutexPoisonStays(s: State, action: Action)
    requires Enabled(s, action)
    ensures Apply(s, action).mutexPoisoned <==> s.mutexPoisoned || action.HolderPanics?
  {
    hide StartStep, RevokeStep, AuthorizeStep, LockStep, ActivateStep, CheckStep, PollStep;
    match action
    case Start(t, op) => StartLeavesMutex(s, t, op);
    case Advance(t) => AdvanceLeavesMutex(s, t);
    case _ =>
  }

  lemma StartLeavesMutex(s: State, t: nat, op: Operation)
    requires CanStart(s, t, op)
    ensures StartStep(s, t, op).mutexPoisoned == s.mutexPoisoned
  {
  }

  lemma AdvanceLeavesMutex(s: State, t: nat)
    requires CanAdvance(s, t)
    ensures AdvanceStep(s, t).mutexPoisoned == s.mutexPoisoned
  {
    hide RevokeStep, AuthorizeStep, LockStep, ActivateStep, CheckStep, PollStep;
    var pc := s.pcs[t];
    if AtRevoke(pc) { RevokeLeavesMutex(s, t); }
    else if AtAuthorize(pc) { AuthorizeLeavesMutex(s, t); }
    else if AtLock(pc) { LockLeavesMutex(s, t); }
    else if AtActivate(pc) { ActivateLeavesMutex(s, t); }
    else if AtCheck(pc) { CheckLeavesMutex(s, t); }
    else { PollLeavesMutex(s, t); }
  }

  lemma RevokeLeavesMutex(s: State, t: nat)
    requires CanAdvance(s, t) && AtRevoke(s.pcs[t])
    ensures RevokeStep(s, t).mutexPoisoned == s.mutexPoisoned
  {
  }

  lemma AuthorizeLeavesMutex(s: State, t: nat)
    requires CanAdvance(s, t) && AtAuthorize(s.pcs[t])
    ensures AuthorizeStep(s, t).mutexPoisoned == s.mutexPoisoned
  {
  }

  lemma LockLeavesMutex(s: State, t: nat)
    requires CanAdvance(s, t) && AtLock(s.pcs[t])
    ensures LockStep(s, t).mutexPoisoned == s.mutexPoisoned
  {
  }

  lemma ActivateLeavesMutex(s: State, t: nat)
    requires CanAdvance(s, t) && AtActivate(s.pcs[t])
    ensures ActivateStep(s, t).mutexPoisoned == s.mutexPoisoned
  {
  }

  lemma CheckLeavesMutex(s: State, t: nat)
    requires CanAdvance(s, t) && AtCheck(s.pcs[t])
    ensures CheckStep(s, t).mutexPoisoned == s.mutexPoisoned
  {
  }

  lemma PollLeavesMutex(s: State, t: nat)
    requires CanAdvance(s, t) && AtPoll(s.pcs[t])
    ensures PollStep(s, t).mutexPoisoned == s.mutexPoisoned
  {
  }

  lemma PanickedPollMovesOn(s: State, t: nat, action: Action)
    requires Enabled(s, action) && t < |s.pcs| && (s.pcs[t].PollClear? || s.pcs[t].PollStore?) && s.holder == Some(t)
    requires !Elsewhere(action, t)
    ensures action == Advance(t) || action == HolderPanics(t)
    ensures action == Advance(t) && s.pcs[t].PollClear? ==>
              Apply(s, action).pcs[t].PollStore? && Apply(s, action).holder == Some(t)
    ensures action == Advance(t) && s.pcs[t].PollStore? ==>
              Apply(s, action).holder.None? && Apply(s, action).poisoned
  {
    hide StartStep, RevokeStep, AuthorizeStep, LockStep, ActivateStep, CheckStep;
  }

  lemma StaysShutDown(s: State, action: Action, t: nat)
    requires Inv(s) && Enabled(s, action) && ShutDown(s, t)
    ensures ShutDown(Apply(s, action), t)
  {
    hide Enabled, Apply, Guarantee, Inv;
    var s' := Apply(s, action);
    StepKeeps(s, action);
    MutexPoisonStays(s, action);
    if s.mutexPoisoned || action.HolderPanics? {
    } else if s.poisoned && forall u :: 0 <= u < |s.pcs| ==> !AboutToPoll(s.pcs[u]) {
      forall u | 0 <= u < |s'.pcs| ensures !AboutToPoll(s'.pcs[u]) {
        if AboutToPoll(s'.pcs[u]) { AboutToPollSince(s, action, u); }
      }
    } else if Elsewhere(action, t) {
      OthersLeaveMe(s, action, t);
      CriticalHoldsMutex(s', t);
    } else {
      PanickedPollMovesOn(s, t, action);
      forall u | 0 <= u < |s'.pcs| && s.pcs[t].PollStore? ensures !AboutToPoll(s'.pcs[u]) {
        if AboutToPoll(s'.pcs[u]) {
          AboutToPollSince(s, action, u);
        }
      }
    }
  }

  lemma {:induction false} RunStaysShutDown(states: seq<State>, actions: seq<Action>, i: nat, j: nat, t: nat)
    requires IsRun(states, actions) && i <= j < |states| && ShutDown(states[i], t)
    ensures ShutDown(states[j], t)
    decreases j
  {
    hide Apply, Enabled, Inv, ShutDown;
    if i < j {
      RunStaysShutDown(states, actions, i, j - 1, t);
      RunKeeps(states, actions, j - 1);
      assert StepAt(states, actions, j - 1);
      StaysShutDown(states[j - 1], actions[j - 1], t);
    }
  }

  lemma PanicStartsShutDown(s: State, t: nat)
    requires Inv(s) && Enabled(s, FirstPollReturns(t, Panicked))
    ensures ShutDown(Apply(s, FirstPollReturns(t, Panicked)), t)
  {
    assert ThreadOk(s, t);
  }

  /** After a first poll has panicked no other transport is begun for the rest of the run, even
      if its thread panics again before it has poisoned the controller. */
  lemma PanickedPollIsFinal(states: seq<State>, actions: seq<Action>, i: nat, j: nat, t: nat)
    requires IsRun(states, actions) && i < j < |actions| && actions[i] == FirstPollReturns(t, Panicked)
    ensures !FirstPoll(states[j], actions[j])
  {
    hide Apply, Enabled, Inv, ShutDown;
    RunKeeps(states, actions, i);
    assert StepAt(states, actions, i);
    PanicStartsShutDown(states[i], t);
    RunStaysShutDown(states, actions, i + 1, j, t);
    RunKeeps(states, actions, j);
    ShutDownPollsNothing(states[j], actions[j], t);
  }

  // ---- whole calls, when nobody else moves -----------------------------------------------------------

  lemma RevokeCallAlone(s: State, t: nat)
    requires t < |s.pcs| && s.pcs[t].Idle? && s.holder.None?
    ensures Settles(s, Alone(Apply(s, Start(t, Revoke)), t, 5), t, Idle, Revoked(MemoryOf(s)))
  {
    hide Alone, AdvanceStep;
    var s' := Apply(s, Start(t, Revoke));
    assert s' == Moved(s, t, RevokeLock(false));
    RevocationAlone(s', t, false);
  }

  lemma ActivateCallAlone(s: State, t: nat, epoch: nat, authority: ProtocolAuthority)
    requires t < |s.pcs| && s.pcs[t].Leased? && s.holder.None?
    ensures Settles(s, Alone(Apply(s, Start(t, Activate(epoch, authority))), t, 7), t, Leased,
                    Activated(MemoryOf(s), epoch, authority))
  {
    hide Alone, AdvanceStep;
    var s' := Apply(s, Start(t, Activate(epoch, authority)));
    assert s' == Moved(s, t, ActivatePoison(epoch, authority));
    ActivationAlone(s', t, epoch, authority);
  }

  /** A presented attempt, from the comparison on: a foreign binding or authority ends the call
      without a look at the controller; otherwise the attempt is polled or confirmed exactly when
      the controller validates its grant. */
  lemma AttemptCallAlone(s: State, t: nat, cap: nat, binding: nat, authority: ProtocolAuthority, poster: bool)
    requires t < |s.pcs| && s.pcs[t].Idle? && s.holder.None? && cap in s.caps
    ensures var op := if poster then Post(cap, binding, authority) else Revalidate(cap, binding, authority);
            var s' := Alone(Apply(s, Start(t, op)), t, 5);
            var presented := s.caps[cap].binding == binding && s.caps[cap].grant.authority == authority;
            && (!presented ==> s' == s)
            && (presented ==>
                  && MemoryOf(s') == Locked(MemoryOf(s))
                  && s'.pcs == s.pcs[t := if !Validates(MemoryOf(s), s.caps[cap].grant) then Idle
                                          else if poster then Validated(cap) else Confirmed(cap)])
  {
    hide Alone, AdvanceStep, LockStep;
    var k := if poster then Poster(cap) else Revalidator(cap);
    var op := if poster then Post(cap, binding, authority) else Revalidate(cap, binding, authority);
    var s1 := Apply(s, Start(t, op));
    assert s1 == Moved(s, t, Compare(k, binding, authority));
    CheckNext(s1, t, 5);
    var s2 := CheckStep(s1, t);
    if s.caps[cap].binding == binding && s.caps[cap].grant.authority == authority {
      assert s2 == Moved(s, t, LockWant(k));
      ValidationAlone(s2, t, cap, poster);
    } else {
      assert s2 == Moved(s, t, Idle) == s;
      StoppedAlone(s2, t, 4);
    }
  }

  /** A whole authorization for each verdict of its predicate: approved, it mints exactly the
      active grant; refused, it revokes for itself; unwound, it poisons and clears; and unless
      it mints, it leaves the capabilities as they are. */
  lemma AuthorizeCallAlone(s: State, t: nat, expected: ProtocolAuthority, verdict: PredicateOutcome)
    requires t < |s.pcs| && s.pcs[t] == AuthorizePredicate(expected) && s.holder.None?
    ensures var s' := Alone(Apply(s, Decide(t, verdict)), t, 9);
            var m := MemoryOf(s);
            var minted := verdict.Approves? && Authorizes(m, expected, true);
            && Settles(s, s', t, if minted then Idle else AuthorizeNone,
                       if verdict.Unwinds? then Cleared(m) else AfterAuthorize(m, expected, verdict.Approves?))
            && s'.caps == (if minted then s.caps[s.nextCap := Capability(s.binding, Grant(s.epoch, expected))] else s.caps)
            && (!minted ==> s'.active.None? && (s'.epoch > s.epoch || s'.poisoned))
  {
    hide Alone, AdvanceStep;
    var s1 := Apply(s, Decide(t, verdict));
    if verdict.Unwinds? {
      assert s1 == Moved(s, t, UnwindStore);
      UnwindAlone(s1, t);
    } else {
      assert s1 == Moved(s, t, LockWant(Authorizer(expected, verdict.Approves?)));
      AuthorizationAlone(s1, t, expected, verdict.Approves?);
    }
  }

  lemma UnwindAlone(s: State, t: nat)
    requires t < |s.pcs| && s.pcs[t].UnwindStore? && s.holder.None?
    ensures Settles(s, Alone(s, t, 9), t, AuthorizeNone, Cleared(MemoryOf(s)))
    ensures Alone(s, t, 9).caps == s.caps
  {
    hide Alone;
    AuthorizeNext(s, t, 9);
    var s1 := AuthorizeStep(s, t);
    AuthorizeNext(s1, t, 8);
    var s2 := AuthorizeStep(s1, t);
    AuthorizeNext(s2, t, 7);
    StoppedAlone(AuthorizeStep(s2, t), t, 6);
  }

  /** How a first poll ends, whichever way the transport's own poll goes: ready or pending it
      leaves the memory as it is and gives the mutex up; panicking it poisons and clears. */
  lemma PollReturnsAlone(s: State, t: nat, poll: PollOutcome)
    requires t < |s.pcs| && s.pcs[t].Polling? && s.holder == Some(t)
    ensures var s' := Alone(Apply(s, FirstPollReturns(t, poll)), t, 2);
            && Settles(s, s', t, if poll.Pending? then InFlight(s.pcs[t].cap) else Idle,
                       if poll.Panicked? then Cleared(MemoryOf(s)) else MemoryOf(s))
            && s'.caps == s.caps
  {
    hide Alone, AdvanceStep;
    var s1 := Apply(s, FirstPollReturns(t, poll));
    match poll
    case Ready => StoppedAlone(s1, t, 2);
    case Pending => InFlightAlone(s1, t, 2);
    case Panicked =>
      assert s1 == Moved(s, t, PollClear(s.pcs[t].cap));
      PanicAlone(s1, t);
  }

  lemma InFlightAlone(s: State, t: nat, n: nat)
    requires t < |s.pcs| && s.pcs[t].InFlight?
    ensures Alone(s, t, n) == s
  {
  }

  lemma PanicAlone(s: State, t: nat)
    requires t < |s.pcs| && s.pcs[t].PollClear?
    ensures Settles(s, Alone(s, t, 2), t, Idle, Cleared(MemoryOf(s))) && Alone(s, t, 2).caps == s.caps
  {
    hide Alone;
    PollNext(s, t, 2);
    var s1 := PollStep(s, t);
    PollNext(s1, t, 1);
    StoppedAlone(PollStep(s1, t), t, 0);
  }

  /** A lease that is dropped leaves the fence free, and so does one whose holder panics. */
  lemma LeaseIsGivenBack(s: State, action: Action, t: nat)
    requires Inv(s) && Enabled(s, action) && s.writer == Some(t)
    requires action == Start(t, DropLease) || action == HolderPanics(t)
    ensures Apply(s, action).writer.None?
  {
  }

  // ---- calls that end ------------------------------------------------------------------------------

  /** The action ends its thread's call other than by a step of the call's own. */
  predicate EndsCall(action: Action) {
    match action
    case Start(_, op) => op.DropLease?
    case UpgradeFails(_) => true
    case FirstPollReturns(_, poll) => poll.Ready?
    case LaterPoll(_, done) => done
    case Cancel(_) => true
    case Return(_) => true
    case HolderPanics(_) => true
    case _ => false
  }

  /** A call that ends, however it does, leaves its thread idle with no mutex, no guard and no
      lease, and the epoch, the grant and every capability as they were. */
  lemma EndedCallHoldsNothing(s: State, action: Action)
    requires Inv(s) && Enabled(s, action) && EndsCall(action)
    ensures var s', t := Apply(s, action), action.thread;
            && t < |s'.pcs| && s'.pcs[t].Idle?
            && s'.holder != Some(t) && Call(t) !in s'.readers && s'.writer != Some(t)
            && s'.epoch == s.epoch && s'.active == s.active && s'.caps == s.caps && s'.poisoned == s.poisoned
  {
    EndingIsIdle(s, action);
    hide Apply, Enabled, EndsCall;
    StepKeeps(s, action);
    assert ThreadOk(Apply(s, action), action.thread);
  }

  lemma EndingIsIdle(s: State, action: Action)
    requires Enabled(s, action) && EndsCall(action)
    ensures var s', t := Apply(s, action), action.thread;
            && t < |s'.pcs| && s'.pcs[t].Idle?
            && s'.epoch == s.epoch && s'.active == s.active && s'.caps == s.caps && s'.poisoned == s.poisoned
  {
    hide AdvanceStep;
  }

  // ---- no call is ever stuck -----------------------------------------------------------------------

  predicate WantsMutex(pc: Pc) {
    pc.RevokeLock? || pc.UnwindLock? || pc.LockWant?
  }

  /** Only an attempt's caller is ever past the test of the lock. */
  predicate ChecksAttempt(pc: Pc) {
    pc.Compare? || pc.CheckPoison? || pc.CheckGrant? ==> CallerCap(pc.caller).Some?
  }

  lemma StartChecksAttempt(s: State, t: nat, op: Operation)
    requires CanStart(s, t, op)
    ensures ChecksAttempt(StartStep(s, t, op).pcs[t])
  {
  }

  lemma GoesOnChecking(pc: Pc, next: Pc)
    requires GoesTo(pc, next) && ChecksAttempt(pc)
    ensures ChecksAttempt(next)
  {
  }

  lemma StepChecksAttempt(s: State, action: Action, t: nat)
    requires Inv(s) && Enabled(s, action) && t < |s.pcs| && ChecksAttempt(s.pcs[t])
    ensures ChecksAttempt(Apply(s, action).pcs[t])
  {
    hide AdvanceStep, StartStep, Inv, GoesTo;
    if Elsewhere(action, t) {
      OthersLeaveMe(s, action, t);
    } else if action.Start? {
      StartChecksAttempt(s, t, action.operation);
    } else if action.Advance? {
      AdvanceGoes(s, t);
      GoesOnChecking(s.pcs[t], AdvanceStep(s, t).pcs[t]);
    } else {
      EventGoes(s, action, t);
    }
  }

  lemma {:induction false} RunChecksAttempt(states: seq<State>, actions: seq<Action>, i: nat, t: nat)
    requires IsRun(states, actions) && i < |states| && t < |states[i].pcs|
    ensures ChecksAttempt(states[i].pcs[t])
    decreases i
  {
    hide Apply, Enabled, Inv, ChecksAttempt;
    if i == 0 {
      IdleChecksNothing();
    } else {
      RunKeeps(states, actions, i - 1);
      assert StepAt(states, actions, i - 1);
      RunChecksAttempt(states, actions, i - 1, t);
      StepChecksAttempt(states[i - 1], actions[i - 1], t);
    }
  }

  lemma IdleChecksNothing()
    ensures ChecksAttempt(Idle)
  {
  }

  /** What a thread in a call can do next, when it does not wait for the mutex. */
  function NextAction(pc: Pc, t: nat): Action {
    match pc
    case AuthorizePredicate(_) => Decide(t, Refuses)
    case Leased => Start(t, DropLease)
    case AuthorizeNone | Confirmed(_) => Return(t)
    case Polling(_) => FirstPollReturns(t, Ready)
    case InFlight(_) => LaterPoll(t, true)
    case _ => Advance(t)
  }

  lemma ThreadGoesOn(s: State, t: nat)
    requires Inv(s) && t < |s.pcs| && !s.pcs[t].Idle? && ChecksAttempt(s.pcs[t])
    requires WantsMutex(s.pcs[t]) ==> s.holder.None?
    ensures Enabled(s, NextAction(s.pcs[t], t))
  {
    hide SharedOk;
    assert ThreadOk(s, t);
  }

  lemma HolderWantsNothing(s: State, u: nat)
    requires Inv(s) && s.holder == Some(u)
    ensures u < |s.pcs| && !WantsMutex(s.pcs[u]) && !s.pcs[u].Idle?
  {
    assert ThreadOk(s, u);
  }

  /** No call is ever stuck: in every state of every run a thread that has not returned can go
      on, or it waits for the mutex and the thread that holds it can. */
  lemma NoCallIsStuck(states: seq<State>, actions: seq<Action>, i: nat, t: nat) returns (u: nat)
    requires IsRun(states, actions) && i < |states| && t < |states[i].pcs| && !states[i].pcs[t].Idle?
    ensures u < |states[i].pcs| && Enabled(states[i], NextAction(states[i].pcs[u], u))
    ensures u != t ==> WantsMutex(states[i].pcs[t]) && states[i].holder == Some(u)
  {
    hide Apply, Enabled, Inv, ChecksAttempt, NextAction;
    var s := states[i];
    RunKeeps(states, actions, i);
    u := t;
    if WantsMutex(s.pcs[t]) && s.holder.Some? {
      u := s.holder.value;
      HolderWantsNothing(s, u);
    }
    RunChecksAttempt(states, actions, i, u);
    ThreadGoesOn(s, u);
  }

  /** A revocation can be called at any moment by a thread that is free, whatever lease or guard
      is out; a predicate may answer, and a first poll return, in any way. */
  lemma NothingForeclosesAnOutcome(s: State, t: nat, verdict: PredicateOutcome, poll: PollOutcome)
    requires t < |s.pcs|
    ensures s.pcs[t].Idle? ==> Enabled(s, Start(t, Revoke))
    ensures s.pcs[t].AuthorizePredicate? ==> Enabled(s, Decide(t, verdict))
    ensures s.pcs[t].Polling? ==> Enabled(s, FirstPollReturns(t, poll))
    ensures s.pcs[t].InFlight? ==> Enabled(s, LaterPoll(t, false)) && Enabled(s, LaterPoll(t, true)) && Enabled(s, Cancel(t))
    ensures s.pcs[t].Compare? ==> Enabled(s, UpgradeFails(t))
    ensures s.holder == Some(t) ==> Enabled(s, HolderPanics(t))
  {
  }
}
