/** What every step of the submission protocol keeps, and safety over whole runs. */
module SubmissionProofs {
  import opened Authority
  import opened SubmissionProtocol

  // ---- the invariant ----------------------------------------------------------

  predicate Issued(s: State, g: Grant) {
    g.epoch in s.activated && s.activated[g.epoch] == g.authority
  }

  /** The holder is between clearing the grant and storing the poison flag. */
  predicate Poisoning(pc: Pc) {
    pc.LockStore? || pc.PollStore?
  }

  /** Where the mutex holder is; `Idle` when nobody holds the mutex. */
  function HolderPc(s: State): Pc {
    if s.holder.Some? && s.holder.value < |s.pcs| then s.pcs[s.holder.value] else Idle
  }

  predicate Live(s: State, c: nat) {
    c in s.caps && s.active == Some(s.caps[c].grant) && s.epoch == s.caps[c].grant.epoch
  }

  /** What a thread knows at its program point. */
  predicate Knows(s: State, pc: Pc) {
    match pc
    case RevokePoison(_) => s.overflowed && s.epoch == U64_MAX
    case RevokeClear(_) => s.poisoned || s.epoch !in s.activated
    case UnwindLock => s.poisoned
    case UnwindClear => s.poisoned
    case AuthorizeEpoch(_, _) => !s.mutexPoisoned
    case AuthorizeDecide(_, _, e) => !s.mutexPoisoned && e == s.epoch
    case AuthorizeMint(g) => Issued(s, g)
    case AuthorizeNone => s.active.None?
    case LockStore(_) => s.active.None?
    case ActivateRetest(_, _) => !s.mutexPoisoned && !s.overflowed
    case ActivateRecheck(_, _) =>
      !s.mutexPoisoned && !s.overflowed && s.active.None? && s.epoch !in s.activated
    case ActivateWrite(e, _) =>
      !s.mutexPoisoned && !s.overflowed && s.active.None? && s.epoch !in s.activated && s.epoch == e
    case CheckPoison(_) => !s.mutexPoisoned
    case CheckGrant(_) => !s.mutexPoisoned
    case Validated(c) => Live(s, c) && !s.mutexPoisoned
    case Polling(c) => Live(s, c) && !s.mutexPoisoned
    case PollClear(c) => Live(s, c) && !s.mutexPoisoned
    case PollStore(_) => s.active.None? && !s.mutexPoisoned
    case _ => true
  }

  predicate ThreadOk(s: State, t: nat)
    requires t < |s.pcs|
  {
    var pc := s.pcs[t];
    && (Critical(pc) <==> s.holder == Some(t))
    && (ReadFenced(pc) <==> Call(t) in s.readers)
    && (WriteFenced(pc) <==> s.writer == Some(t))
    && (Borrowed(pc).Some? ==> Borrowed(pc).value in s.caps)
    && Knows(s, pc)
  }

  ghost predicate FenceOk(s: State) {
    && (s.writer.Some? ==> s.readers == {} && s.writer.value < |s.pcs|)
    && (forall c :: c in s.caps <==> Attempt(c) in s.readers)
    && (forall t: nat :: Call(t) in s.readers ==> t < |s.pcs|)
  }

  ghost predicate CapsOk(s: State) {
    forall c :: c in s.caps ==>
                  c < s.nextCap && s.caps[c].binding == s.binding && Issued(s, s.caps[c].grant)
  }

  ghost predicate EpochOk(s: State) {
    && s.epoch <= U64_MAX
    && (s.holder.Some? ==> s.holder.value < |s.pcs|)
    && (forall e :: e in s.activated ==> e <= s.epoch)
    && (s.active.Some? ==>
          && Issued(s, s.active.value)
          && (s.active.value.epoch == s.epoch || s.mutexPoisoned || HolderPc(s).RevokeClear?))
    && (s.epoch in s.activated && s.active.None? ==>
          s.poisoned || s.mutexPoisoned || Poisoning(HolderPc(s)))
    && (s.overflowed ==>
          && s.epoch == U64_MAX
          && (s.poisoned || s.mutexPoisoned || HolderPc(s).RevokePoison?))
  }

  ghost predicate SharedOk(s: State) {
    FenceOk(s) && CapsOk(s) && EpochOk(s)
  }

  ghost predicate Inv(s: State) {
    SharedOk(s) && forall t :: 0 <= t < |s.pcs| ==> ThreadOk(s, t)
  }

  // ---- rely and guarantee -----------------------------------------------------

  /** `s'` is at or after `s` in a run: everything here only ever grows. */
  ghost predicate Later(s: State, s': State) {
    && s.binding == s'.binding && |s.pcs| == |s'.pcs|
    && s.epoch <= s'.epoch && s.nextCap <= s'.nextCap
    && (s.poisoned ==> s'.poisoned) && (s.overflowed ==> s'.overflowed)
    && (forall e :: e in s.activated ==> e in s'.activated && s'.activated[e] == s.activated[e])
    && (forall c :: c in s'.caps && c < s.nextCap ==> c in s.caps && s.caps[c] == s'.caps[c])
  }

  /** The program points whose step stores the poison flag. */
  predicate StoresPoison(pc: Pc) {
    pc.RevokeNote? || pc.RevokePoison? || pc.LockStore? || pc.PollStore? || pc.UnwindStore?
  }

  /** What a step of thread `t` guarantees every other thread. */
  ghost predicate Guarantee(s: State, s': State, t: nat) {
    && Later(s, s')
    && t < |s.pcs| && s'.pcs == s.pcs[t := s'.pcs[t]]
    && (s.holder == s'.holder || (s.holder in {None, Some(t)} && s'.holder in {None, Some(t)}))
    && (s.writer == s'.writer || (s.writer in {None, Some(t)} && s'.writer in {None, Some(t)}))
    && (forall u: nat :: u != t ==> (Call(u) in s.readers <==> Call(u) in s'.readers))
    && (s.holder != Some(t) ==>
          && s'.epoch == s.epoch && s'.active == s.active && s'.activated == s.activated
          && s'.overflowed == s.overflowed && s'.mutexPoisoned == s.mutexPoisoned)
    && (s'.poisoned && !s.poisoned ==> StoresPoison(s.pcs[t]))
    && (s'.active.Some? && s'.active != s.active ==> s.writer == Some(t))
    && (forall c :: c in s.caps ==> c in s'.caps && s'.caps[c] == s.caps[c])
  }

  /** Thread `t` knows its own point and the shared state is sound. */
  ghost predicate Sound(s: State, t: nat) {
    SharedOk(s) && t < |s.pcs| && ThreadOk(s, t)
  }

  /** A step of `t` from `s` to `s'` is sound for `t` and harmless to the rest. */
  ghost predicate Keeps(s: State, s': State, t: nat) {
    Sound(s', t) && Guarantee(s, s', t)
  }

  lemma OthersUndisturbed(s: State, s': State, t: nat, u: nat)
    requires Inv(s) && Guarantee(s, s', t) && u < |s.pcs| && u != t
    ensures ThreadOk(s', u)
  {
    assert ThreadOk(s, u);
    assert ThreadOk(s, t);
  }

  lemma StepComposes(s: State, s': State, t: nat)
    requires Inv(s) && Keeps(s, s', t)
    ensures Inv(s')
  {
    forall u | 0 <= u < |s'.pcs| ensures ThreadOk(s', u) {
      if u != t { OthersUndisturbed(s, s', t, u); }
    }
  }

  /** Outside these points the shared invariant does not lean on the holder. */
  predicate Settled(pc: Pc) {
    !pc.RevokeClear? && !pc.RevokePoison? && !Poisoning(pc)
  }

  /** The move neither takes nor drops a guard, and the new point knows its facts. */
  predicate SameGuards(s: State, t: nat, pc: Pc)
    requires t < |s.pcs|
  {
    && ReadFenced(pc) == ReadFenced(s.pcs[t]) && WriteFenced(pc) == WriteFenced(s.pcs[t])
    && (Borrowed(pc).None? || Borrowed(pc) == Borrowed(s.pcs[t]) || Borrowed(pc).value in s.caps)
    && Knows(s, pc)
  }

  lemma WalkHarmless(s: State, t: nat, pc: Pc)
    requires Sound(s, t) && SameGuards(s, t, pc)
    ensures Guarantee(s, Moved(s, t, pc), t) && FenceOk(Moved(s, t, pc)) && CapsOk(Moved(s, t, pc))
  {
  }

  lemma WalkKeeps(s: State, t: nat, pc: Pc)
    requires Sound(s, t) && Settled(s.pcs[t]) && SameGuards(s, t, pc)
    requires Critical(pc) == Critical(s.pcs[t])
    ensures Keeps(s, Moved(s, t, pc), t)
  {
    WalkHarmless(s, t, pc);
  }

  lemma ReleaseHarmless(s: State, t: nat, pc: Pc)
    requires Sound(s, t) && Critical(s.pcs[t]) && SameGuards(s, t, pc)
    ensures var s' := Moved(s, t, pc).(holder := None); Guarantee(s, s', t) && FenceOk(s') && CapsOk(s')
  {
  }

  lemma ReleaseKeeps(s: State, t: nat, pc: Pc)
    requires Sound(s, t) && Critical(s.pcs[t]) && Settled(s.pcs[t]) && SameGuards(s, t, pc) && !Critical(pc)
    ensures Keeps(s, Moved(s, t, pc).(holder := None), t)
  {
    hide Guarantee, CapsOk;
    ReleaseHarmless(s, t, pc);
  }

  lemma AcquireKeeps(s: State, t: nat, pc: Pc)
    requires Sound(s, t) && s.holder.None? && SameGuards(s, t, pc) && Critical(pc)
    ensures Keeps(s, Moved(s, t, pc).(holder := Some(t)), t)
  {
  }

  // ---- each step, one group of program points at a time -----------------------

  lemma EntryKeeps(s: State, t: nat, op: Operation)
    requires Sound(s, t) && CanStart(s, t, op)
    requires op.Revoke? || op.Authorize? || op.AcquireExclusive?
    ensures Keeps(s, StartStep(s, t, op), t)
  {
  }

  lemma LeaseAndAttemptCallsKeep(s: State, t: nat, op: Operation)
    requires Sound(s, t) && CanStart(s, t, op)
    requires op.Activate? || op.DropLease? || op.Post? || op.Revalidate?
    ensures Keeps(s, StartStep(s, t, op), t)
  {
    if op.DropLease? {
      DropLeaseKeeps(s, t);
    } else {
      hide Keeps;
      WalkKeeps(s, t, StartStep(s, t, op).pcs[t]);
    }
  }

  lemma DropLeaseKeeps(s: State, t: nat)
    requires Sound(s, t) && CanStart(s, t, DropLease)
    ensures Keeps(s, StartStep(s, t, DropLease), t)
  {
  }

  lemma RevokeEntryKeeps(s: State, t: nat)
    requires Sound(s, t) && CanAdvance(s, t) && (s.pcs[t].RevokeLock? || s.pcs[t].RevokeNote?)
    ensures Keeps(s, RevokeStep(s, t), t)
  {
    if s.pcs[t].RevokeLock? { AcquireKeeps(s, t, RevokeStep(s, t).pcs[t]); }
  }

  lemma RevokeBumpKeeps(s: State, t: nat)
    requires Sound(s, t) && CanAdvance(s, t) && s.pcs[t].RevokeBump?
    ensures Keeps(s, RevokeStep(s, t), t)
  {
  }

  lemma RevokeExitKeeps(s: State, t: nat)
    requires Sound(s, t) && CanAdvance(s, t) && (s.pcs[t].RevokePoison? || s.pcs[t].RevokeClear?)
    ensures Keeps(s, RevokeStep(s, t), t)
  {
  }

  lemma UnwindKeeps(s: State, t: nat)
    requires Sound(s, t) && CanAdvance(s, t) && (s.pcs[t].UnwindStore? || s.pcs[t].UnwindLock? || s.pcs[t].UnwindClear?)
    ensures Keeps(s, AuthorizeStep(s, t), t)
  {
  }

  lemma AuthorizeCheckKeeps(s: State, t: nat)
    requires Sound(s, t) && CanAdvance(s, t) && (s.pcs[t].AuthorizeEpoch? || s.pcs[t].AuthorizeDecide?)
    ensures Keeps(s, AuthorizeStep(s, t), t)
  {
    var pc := AuthorizeStep(s, t).pcs[t];
    if Critical(pc) { WalkKeeps(s, t, pc); } else { ReleaseKeeps(s, t, pc); }
  }

  lemma MintKeeps(s: State, t: nat)
    requires Sound(s, t) && CanAdvance(s, t) && s.pcs[t].AuthorizeMint?
    ensures Keeps(s, AuthorizeStep(s, t), t)
  {
  }

  lemma LockEntryKeeps(s: State, t: nat)
    requires Sound(s, t) && CanAdvance(s, t) && (s.pcs[t].LockWant? || s.pcs[t].LockStore?)
    ensures Keeps(s, LockStep(s, t), t)
  {
    if s.pcs[t].LockWant? { AcquireKeeps(s, t, LockTest(s.pcs[t].caller)); }
  }

  lemma LockTestKeeps(s: State, t: nat)
    requires Sound(s, t) && CanAdvance(s, t) && s.pcs[t].LockTest?
    ensures Keeps(s, LockStep(s, t), t)
  {
    if !s.mutexPoisoned && !s.poisoned { WalkKeeps(s, t, Opened(s.pcs[t].caller)); }
  }

  lemma ActivateEntryKeeps(s: State, t: nat)
    requires Sound(s, t) && CanAdvance(s, t) && (s.pcs[t].ActivatePoison? || s.pcs[t].ActivateEpoch?)
    ensures Keeps(s, ActivateStep(s, t), t)
  {
    WalkKeeps(s, t, ActivateStep(s, t).pcs[t]);
  }

  lemma ActivateRetestKeeps(s: State, t: nat)
    requires Sound(s, t) && CanAdvance(s, t) && s.pcs[t].ActivateRetest?
    ensures Keeps(s, ActivateStep(s, t), t)
  {
    var pc := ActivateStep(s, t).pcs[t];
    if Critical(pc) { WalkKeeps(s, t, pc); } else { ReleaseKeeps(s, t, pc); }
  }

  lemma ActivateExitKeeps(s: State, t: nat)
    requires Sound(s, t) && CanAdvance(s, t) && (s.pcs[t].ActivateRecheck? || s.pcs[t].ActivateWrite?)
    ensures Keeps(s, ActivateStep(s, t), t)
  {
    var pc := ActivateStep(s, t).pcs[t];
    if s.pcs[t].ActivateRecheck? {
      if Critical(pc) { WalkKeeps(s, t, pc); } else { ReleaseKeeps(s, t, pc); }
    }
  }

  lemma CompareKeeps(s: State, t: nat)
    requires Sound(s, t) && CanAdvance(s, t) && AtCheck(s.pcs[t]) && s.pcs[t].Compare?
    ensures Keeps(s, CheckStep(s, t), t)
  {
    WalkKeeps(s, t, CheckStep(s, t).pcs[t]);
  }

  lemma CheckPoisonKeeps(s: State, t: nat)
    requires Sound(s, t) && CanAdvance(s, t) && AtCheck(s.pcs[t]) && s.pcs[t].CheckPoison?
    ensures Keeps(s, CheckStep(s, t), t)
  {
    var pc := CheckStep(s, t).pcs[t];
    if Critical(pc) { WalkKeeps(s, t, pc); } else { ReleaseKeeps(s, t, pc); }
  }

  lemma CheckPosterKeeps(s: State, t: nat)
    requires Sound(s, t) && CanAdvance(s, t) && s.pcs[t].CheckGrant? && s.pcs[t].caller.Poster?
    ensures Keeps(s, CheckStep(s, t), t)
  {
    hide Keeps;
    if CheckStep(s, t).pcs[t] == Idle { ReleaseKeeps(s, t, Idle); }
    else { WalkKeeps(s, t, Validated(s.pcs[t].caller.cap)); }
  }

  lemma CheckRevalidatorKeeps(s: State, t: nat)
    requires Sound(s, t) && CanAdvance(s, t) && s.pcs[t].CheckGrant? && s.pcs[t].caller.Revalidator?
    ensures Keeps(s, CheckStep(s, t), t)
  {
    hide Keeps;
    if CheckStep(s, t).pcs[t] == Idle { ReleaseKeeps(s, t, Idle); }
    else { ReleaseKeeps(s, t, Confirmed(s.pcs[t].caller.cap)); }
  }

  lemma PollBeginKeeps(s: State, t: nat)
    requires Sound(s, t) && CanAdvance(s, t) && s.pcs[t].Validated?
    ensures Keeps(s, PollStep(s, t), t)
  {
    WalkKeeps(s, t, Polling(s.pcs[t].cap));
  }

  lemma PollClearHarmless(s: State, t: nat)
    requires Sound(s, t) && CanAdvance(s, t) && s.pcs[t].PollClear?
    ensures Guarantee(s, PollStep(s, t), t) && FenceOk(PollStep(s, t)) && CapsOk(PollStep(s, t))
  {
  }

  lemma PollClearKeeps(s: State, t: nat)
    requires Sound(s, t) && CanAdvance(s, t) && s.pcs[t].PollClear?
    ensures Keeps(s, PollStep(s, t), t)
  {
    hide Guarantee, CapsOk;
    PollClearHarmless(s, t);
  }

  lemma PollStoreKeeps(s: State, t: nat)
    requires Sound(s, t) && CanAdvance(s, t) && s.pcs[t].PollStore?
    ensures Keeps(s, PollStep(s, t), t)
  {
  }

  lemma CallEndsKeeps(s: State, action: Action)
    requires Enabled(s, action) && (action.UpgradeFails? || action.LaterPoll? || action.Cancel?)
    requires Sound(s, action.thread)
    ensures Keeps(s, Apply(s, action), action.thread)
  {
    if !action.LaterPoll? || action.done { WalkKeeps(s, action.thread, Idle); }
  }

  lemma DecideKeeps(s: State, action: Action)
    requires Enabled(s, action) && action.Decide?
    requires Sound(s, action.thread)
    ensures Keeps(s, Apply(s, action), action.thread)
  {
    WalkKeeps(s, action.thread, Apply(s, action).pcs[action.thread]);
  }

  lemma FirstPollAnswersKeeps(s: State, action: Action)
    requires Enabled(s, action) && action.FirstPollReturns? && !action.poll.Panicked?
    requires Sound(s, action.thread)
    ensures Keeps(s, Apply(s, action), action.thread)
  {
    hide Keeps;
    if action.poll.Ready? { ReleaseKeeps(s, action.thread, Idle); }
    else { ReleaseKeeps(s, action.thread, InFlight(s.pcs[action.thread].cap)); }
  }

  lemma FirstPollPanicsKeeps(s: State, action: Action)
    requires Enabled(s, action) && action.FirstPollReturns? && action.poll.Panicked?
    requires Sound(s, action.thread)
    ensures Keeps(s, Apply(s, action), action.thread)
  {
    hide Keeps;
    WalkKeeps(s, action.thread, PollClear(s.pcs[action.thread].cap));
  }

  lemma ReturnKeeps(s: State, action: Action)
    requires Enabled(s, action) && action.Return?
    requires Sound(s, action.thread)
    ensures Keeps(s, Apply(s, action), action.thread)
  {
  }

  lemma HolderPanicsKeeps(s: State, action: Action)
    requires Enabled(s, action) && action.HolderPanics?
    requires Sound(s, action.thread)
    ensures Keeps(s, Apply(s, action), action.thread)
  {
  }

  lemma DropKeeps(s: State, c: nat)
    requires Inv(s) && Enabled(s, DropCapability(c))
    ensures Inv(Apply(s, DropCapability(c))) && Later(s, Apply(s, DropCapability(c)))
  {
    hide Enabled, Apply, ThreadOk;
    var s' := Apply(s, DropCapability(c));
    DropKeepsShared(s, c);
    forall t | 0 <= t < |s'.pcs| ensures ThreadOk(s', t) {
      DropKeepsThread(s, c, t);
    }
  }

  lemma DropKeepsShared(s: State, c: nat)
    requires SharedOk(s) && Enabled(s, DropCapability(c))
    ensures SharedOk(Apply(s, DropCapability(c))) && Later(s, Apply(s, DropCapability(c)))
    ensures |Apply(s, DropCapability(c)).pcs| == |s.pcs|
  {
  }

  lemma DropKeepsThread(s: State, c: nat, t: nat)
    requires Enabled(s, DropCapability(c)) && t < |s.pcs| && ThreadOk(s, t)
    ensures ThreadOk(Apply(s, DropCapability(c)), t)
  {
  }

  lemma AuthorityAdvanceKeeps(s: State, t: nat)
    requires Sound(s, t) && CanAdvance(s, t) && (AtRevoke(s.pcs[t]) || AtAuthorize(s.pcs[t]))
    ensures Keeps(s, AdvanceStep(s, t), t)
  {
    hide Sound, Keeps, RevokeStep, AuthorizeStep;
    match s.pcs[t]
    case RevokeLock(_) | RevokeNote(_) => RevokeEntryKeeps(s, t);
    case RevokeBump(_) => RevokeBumpKeeps(s, t);
    case RevokePoison(_) | RevokeClear(_) => RevokeExitKeeps(s, t);
    case UnwindStore | UnwindLock | UnwindClear => UnwindKeeps(s, t);
    case AuthorizeEpoch(_, _) | AuthorizeDecide(_, _, _) => AuthorizeCheckKeeps(s, t);
    case AuthorizeMint(_) => MintKeeps(s, t);
  }

  lemma LockAdvanceKeeps(s: State, t: nat)
    requires Sound(s, t) && CanAdvance(s, t) && (AtLock(s.pcs[t]) || AtActivate(s.pcs[t]))
    ensures Keeps(s, AdvanceStep(s, t), t)
  {
    hide Sound, Keeps, LockStep, ActivateStep;
    match s.pcs[t]
    case LockWant(_) | LockStore(_) => LockEntryKeeps(s, t);
    case LockTest(_) => LockTestKeeps(s, t);
    case ActivatePoison(_, _) | ActivateEpoch(_, _) => ActivateEntryKeeps(s, t);
    case ActivateRetest(_, _) => ActivateRetestKeeps(s, t);
    case ActivateRecheck(_, _) | ActivateWrite(_, _) => ActivateExitKeeps(s, t);
  }

  lemma AttemptAdvanceKeeps(s: State, t: nat)
    requires Sound(s, t) && CanAdvance(s, t) && (AtCheck(s.pcs[t]) || AtPoll(s.pcs[t]))
    ensures Keeps(s, AdvanceStep(s, t), t)
  {
    hide Sound, Keeps, CheckStep, PollStep;
    match s.pcs[t]
    case Compare(_, _, _) => CompareKeeps(s, t);
    case CheckPoison(_) => CheckPoisonKeeps(s, t);
    case CheckGrant(k) => if k.Poster? { CheckPosterKeeps(s, t); } else { CheckRevalidatorKeeps(s, t); }
    case Validated(_) => PollBeginKeeps(s, t);
    case PollClear(_) => PollClearKeeps(s, t);
    case PollStore(_) => PollStoreKeeps(s, t);
  }

  lemma AdvanceKeeps(s: State, t: nat)
    requires Sound(s, t) && CanAdvance(s, t)
    ensures Keeps(s, AdvanceStep(s, t), t)
  {
    hide Sound, Keeps, AdvanceStep;
    var pc := s.pcs[t];
    if AtRevoke(pc) || AtAuthorize(pc) { AuthorityAdvanceKeeps(s, t); }
    else if AtLock(pc) || AtActivate(pc) { LockAdvanceKeeps(s, t); }
    else { AttemptAdvanceKeeps(s, t); }
  }

  lemma StepKeeps(s: State, action: Action)
    requires Inv(s) && Enabled(s, action)
    ensures Inv(Apply(s, action)) && Later(s, Apply(s, action))
    ensures !action.DropCapability? ==> Guarantee(s, Apply(s, action), action.thread)
  {
    if action.DropCapability? {
      DropKeeps(s, action.dropped);
    } else {
      assert ThreadOk(s, action.thread);
      match action {
        case Start(t, op) =>
          if op.Revoke? || op.Authorize? || op.AcquireExclusive? { EntryKeeps(s, t, op); }
          else { LeaseAndAttemptCallsKeep(s, t, op); }
        case Advance(t) => AdvanceKeeps(s, t);
        case FirstPollReturns(_, poll) =>
          if poll.Panicked? { FirstPollPanicsKeeps(s, action); } else { FirstPollAnswersKeeps(s, action); }
        case Return(_) => ReturnKeeps(s, action);
        case HolderPanics(_) => HolderPanicsKeeps(s, action);
        case Decide(_, _) => DecideKeeps(s, action);
        case _ => CallEndsKeeps(s, action);
      }
      StepComposes(s, Apply(s, action), action.thread);
    }
  }
}
