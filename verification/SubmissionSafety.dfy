/** Safety of the submission protocol over every run of it. */
module SubmissionSafety {
  import opened Authority
  import opened SubmissionProtocol
  import opened SubmissionProofs

  lemma InitialIsSound(s: State)
    requires Initial(s)
    ensures Inv(s)
  {
  }

  lemma {:induction false} RunKeeps(states: seq<State>, actions: seq<Action>, i: nat)
    requires IsRun(states, actions) && i < |states|
    ensures Inv(states[i])
  {
    hide Apply, Enabled, Initial, Inv;
    if i == 0 { InitialIsSound(states[0]); }
    if i > 0 {
      RunKeeps(states, actions, i - 1);
      assert StepAt(states, actions, i - 1);
      StepKeeps(states[i - 1], actions[i - 1]);
    }
  }

  // ---- what only ever grows ---------------------------------------------------

  lemma LaterTransitive(a: State, b: State, c: State)
    requires Later(a, b) && Later(b, c)
    ensures Later(a, c)
  {
  }

  lemma {:induction false} RunIsLater(states: seq<State>, actions: seq<Action>, i: nat, j: nat)
    requires IsRun(states, actions) && i <= j < |states|
    ensures Later(states[i], states[j])
    decreases j
  {
    hide Apply, Enabled;
    if i < j {
      RunIsLater(states, actions, i, j - 1);
      RunKeeps(states, actions, j - 1);
      assert StepAt(states, actions, j - 1);
      StepKeeps(states[j - 1], actions[j - 1]);
      LaterTransitive(states[i], states[j - 1], states[j]);
    }
  }

  // ---- the first poll -----------------------------------------------------------

  /** A transport's first poll happens under the mutex, with the attempt's exact
      grant active and current, its fence held, and nobody holding a lease. */
  lemma FirstPollHoldsExactAuthority(states: seq<State>, actions: seq<Action>, i: nat)
    requires IsRun(states, actions) && i < |actions| && FirstPoll(states[i], actions[i])
    ensures var s, t := states[i], actions[i].thread;
            var c := s.pcs[t].cap;
            && s.holder == Some(t) && c in s.caps && s.caps[c].binding == s.binding
            && s.active == Some(s.caps[c].grant) && s.epoch == s.caps[c].grant.epoch
            && Attempt(c) in s.readers && s.writer.None?
  {
    RunKeeps(states, actions, i);
    assert ThreadOk(states[i], actions[i].thread);
  }

  /** Points between an attempt's poison test and its first poll. */
  predicate AboutToPoll(pc: Pc) {
    (pc.CheckGrant? && pc.caller.Poster?) || pc.Validated?
  }

  /** Where a thread handles a transport: about to poll it, or polled and unfinished. */
  predicate HandlesTransport(pc: Pc) {
    AboutToPoll(pc) || Underway(pc)
  }

  /** Handling a transport means borrowing its capability. */
  lemma HandlingBorrows(pc: Pc)
    requires Borrowed(pc).None?
    ensures !HandlesTransport(pc)
  {
  }

  lemma RevokeBorrowsNothing(s: State, t: nat)
    requires t < |s.pcs| && AtRevoke(s.pcs[t]) && (s.pcs[t].RevokeLock? ==> s.holder.None?)
    ensures Borrowed(RevokeStep(s, t).pcs[t]).None?
  {
    hide Borrowed;
    var pc := RevokeStep(s, t).pcs[t];
    assert AtRevoke(pc) || pc == AuthorizeNone || pc == Idle;
    ApartBorrowsNothing(pc);
  }

  lemma AuthorizeBorrowsNothing(s: State, t: nat)
    requires t < |s.pcs| && AtAuthorize(s.pcs[t]) && (s.pcs[t].UnwindLock? ==> s.holder.None?)
    ensures Borrowed(AuthorizeStep(s, t).pcs[t]).None?
  {
    hide Borrowed;
    var pc := AuthorizeStep(s, t).pcs[t];
    assert AtAuthorize(pc) || AtRevoke(pc) || pc == AuthorizeNone || pc == Idle;
    ApartBorrowsNothing(pc);
  }

  lemma ActivateBorrowsNothing(s: State, t: nat)
    requires t < |s.pcs| && AtActivate(s.pcs[t])
    ensures Borrowed(ActivateStep(s, t).pcs[t]).None?
  {
    hide Borrowed;
    var pc := ActivateStep(s, t).pcs[t];
    assert AtActivate(pc) || pc == Leased || (pc.LockWant? && pc.caller.Activator?);
    ApartBorrowsNothing(pc);
  }

  /** Points of calls that concern no attempt. */
  lemma ApartBorrowsNothing(pc: Pc)
    requires AtRevoke(pc) || AtAuthorize(pc) || AtActivate(pc) || pc == AuthorizeNone || pc == Idle || pc == Leased
             || (pc.LockWant? && pc.caller.Activator?)
    ensures Borrowed(pc).None?
  {
  }

  lemma LockHandlesNone(s: State, t: nat)
    requires t < |s.pcs| && AtLock(s.pcs[t]) && (s.pcs[t].LockWant? ==> s.holder.None?)
    ensures !HandlesTransport(LockStep(s, t).pcs[t])
  {
  }

  /** How thread `t` came to handle a transport at `pc'`, one step after `s`. */
  predicate HandledFrom(s: State, action: Action, t: nat, pc': Pc)
    requires t < |s.pcs|
  {
    var pc := s.pcs[t];
    || pc' == pc
    || (AboutToPoll(pc') && action == Advance(t) && pc.CheckPoison? && pc.caller.Poster? && !s.poisoned)
    || (AboutToPoll(pc') && action == Advance(t) && AboutToPoll(pc))
    || (pc'.Polling? && FirstPoll(s, action) && action.thread == t && pc == Validated(pc'.cap))
    || (pc'.InFlight? && pc == Polling(pc'.cap))
  }

  lemma CheckHandles(s: State, t: nat)
    requires CanAdvance(s, t) && AtCheck(s.pcs[t]) && HandlesTransport(CheckStep(s, t).pcs[t])
    ensures HandledFrom(s, Advance(t), t, CheckStep(s, t).pcs[t])
  {
    hide HandlesTransport;
    var pc := CheckStep(s, t).pcs[t];
    if PlainlyElsewhere(pc) {
      ElsewhereHandlesNone(pc);
    } else if s.pcs[t].CheckPoison? {
      assert pc == CheckGrant(s.pcs[t].caller) && !s.poisoned;
      RevalidatorHandlesNone(pc);
    } else {
      assert s.pcs[t].CheckGrant? && s.pcs[t].caller.Poster? && pc.Validated?;
    }
  }

  lemma RevalidatorHandlesNone(pc: Pc)
    ensures pc.CheckGrant? && HandlesTransport(pc) ==> pc.caller.Poster?
  {
  }

  lemma PollHandles(s: State, t: nat)
    requires CanAdvance(s, t) && AtPoll(s.pcs[t]) && HandlesTransport(PollStep(s, t).pcs[t])
    ensures HandledFrom(s, Advance(t), t, PollStep(s, t).pcs[t])
  {
    hide HandlesTransport;
    var pc := PollStep(s, t).pcs[t];
    assert PlainlyElsewhere(pc) || (s.pcs[t].Validated? && pc == Polling(s.pcs[t].cap));
    if PlainlyElsewhere(pc) { ElsewhereHandlesNone(pc); }
  }

  lemma HandlingBorrowsAfter(s: State, t: nat)
    requires CanAdvance(s, t) && (AtRevoke(s.pcs[t]) || AtAuthorize(s.pcs[t]) || AtActivate(s.pcs[t]))
    ensures !HandlesTransport(AdvanceStep(s, t).pcs[t])
  {
    hide RevokeStep, AuthorizeStep, LockStep, ActivateStep, CheckStep, PollStep, HandlesTransport, Borrowed;
    var pc := s.pcs[t];
    if AtRevoke(pc) { RevokeBorrowsNothing(s, t); }
    else if AtAuthorize(pc) { AuthorizeBorrowsNothing(s, t); }
    else { ActivateBorrowsNothing(s, t); }
    HandlingBorrows(AdvanceStep(s, t).pcs[t]);
  }

  lemma AdvanceHandles(s: State, t: nat)
    requires CanAdvance(s, t) && HandlesTransport(AdvanceStep(s, t).pcs[t])
    ensures HandledFrom(s, Advance(t), t, AdvanceStep(s, t).pcs[t])
  {
    hide RevokeStep, AuthorizeStep, LockStep, ActivateStep, CheckStep, PollStep, HandlesTransport, HandledFrom, Borrowed;
    var pc := s.pcs[t];
    if !AtLock(pc) && !AtCheck(pc) && !AtPoll(pc) { HandlingBorrowsAfter(s, t); }
    else if AtLock(pc) { LockHandlesNone(s, t); }
    else if AtCheck(pc) { CheckHandles(s, t); }
    else { PollHandles(s, t); }
  }

  /** Points that handle no transport, by their names. */
  predicate PlainlyElsewhere(pc: Pc) {
    pc.Idle? || pc.UnwindStore? || pc.LockWant? || pc.PollClear? || pc.PollStore? || pc.Confirmed?
  }

  lemma ElsewhereHandlesNone(pc: Pc)
    requires PlainlyElsewhere(pc)
    ensures !HandlesTransport(pc)
  {
  }

  lemma PollEventHandles(s: State, action: Action, t: nat)
    requires Enabled(s, action) && t < |s.pcs|
    requires action.FirstPollReturns? || action.LaterPoll? || action.Cancel?
    requires HandlesTransport(Apply(s, action).pcs[t])
    ensures HandledFrom(s, action, t, Apply(s, action).pcs[t])
  {
    hide HandlesTransport;
    var pc := Apply(s, action).pcs[t];
    assert pc == s.pcs[t] || PlainlyElsewhere(pc) || (pc.InFlight? && s.pcs[t] == Polling(pc.cap));
    if PlainlyElsewhere(pc) { ElsewhereHandlesNone(pc); }
  }

  lemma OtherEventHandles(s: State, action: Action, t: nat)
    requires Enabled(s, action) && !action.Advance? && !action.Start? && t < |s.pcs|
    requires !action.FirstPollReturns? && !action.LaterPoll? && !action.Cancel?
    requires HandlesTransport(Apply(s, action).pcs[t])
    ensures Apply(s, action).pcs[t] == s.pcs[t]
  {
    hide HandlesTransport, Borrowed;
    var pc := Apply(s, action).pcs[t];
    assert pc == s.pcs[t] || PlainlyElsewhere(pc);
    if PlainlyElsewhere(pc) { ElsewhereHandlesNone(pc); }
  }

  lemma StartHandles(s: State, t: nat, op: Operation, u: nat)
    requires CanStart(s, t, op) && u < |s.pcs| && HandlesTransport(StartStep(s, t, op).pcs[u])
    ensures s.pcs[u] == StartStep(s, t, op).pcs[u]
  {
    if u == t {
      match op
      case Revoke =>
      case Authorize(_) =>
      case AcquireExclusive =>
      case Activate(_, _) =>
      case DropLease =>
      case Post(_, _, _) =>
      case Revalidate(_, _, _) =>
    }
  }

  lemma TransportHandling(s: State, action: Action, t: nat)
    requires Inv(s) && Enabled(s, action) && t < |s.pcs| && HandlesTransport(Apply(s, action).pcs[t])
    ensures HandledFrom(s, action, t, Apply(s, action).pcs[t])
  {
    match action
    case Advance(u) =>
      if u == t {
        AdvanceHandles(s, t);
      } else {
        assert ThreadOk(s, u);
        AdvanceKeeps(s, u);
      }
    case Start(u, op) => StartHandles(s, u, op, t);
    case FirstPollReturns(_, _) => PollEventHandles(s, action, t);
    case LaterPoll(_, _) => PollEventHandles(s, action, t);
    case Cancel(_) => PollEventHandles(s, action, t);
    case _ => OtherEventHandles(s, action, t);
  }

  /** Thread `t` tested the poison flag at step `k` and has not let go of the mutex. */
  ghost predicate TestedAt(states: seq<State>, actions: seq<Action>, t: nat, k: nat, i: nat) {
    && k < i < |states| && |states| == |actions| + 1 && t < |states[k].pcs|
    && states[k].pcs[t].CheckPoison? && actions[k] == Advance(t) && !states[k].poisoned
    && forall m :: k < m <= i ==>
                     t < |states[m].pcs| && AboutToPoll(states[m].pcs[t]) && states[m].holder == Some(t)
  }

  lemma CriticalHoldsMutex(s: State, t: nat)
    requires Inv(s) && t < |s.pcs| && Critical(s.pcs[t])
    ensures s.holder == Some(t)
  {
    assert ThreadOk(s, t);
  }

  lemma AboutToPollSince(s: State, action: Action, t: nat)
    requires Inv(s) && Enabled(s, action) && t < |s.pcs| && AboutToPoll(Apply(s, action).pcs[t])
    ensures AboutToPoll(s.pcs[t]) || (s.pcs[t].CheckPoison? && action == Advance(t) && !s.poisoned)
    ensures Apply(s, action).holder == Some(t)
  {
    hide Apply, Enabled, Inv, Guarantee, Later;
    TransportHandling(s, action, t);
    StepKeeps(s, action);
    CriticalHoldsMutex(Apply(s, action), t);
  }

  lemma TestedOneMore(states: seq<State>, actions: seq<Action>, t: nat, k: nat, i: nat)
    requires TestedAt(states, actions, t, k, i) && i + 1 < |states|
    requires t < |states[i + 1].pcs| && AboutToPoll(states[i + 1].pcs[t]) && states[i + 1].holder == Some(t)
    ensures TestedAt(states, actions, t, k, i + 1)
  {
  }

  /** Every first poll follows a poison test that passed in the same hold of the mutex. */
  lemma {:induction false} PoisonTestedUnderTheMutex(
    states: seq<State>, actions: seq<Action>, t: nat, i: nat) returns (k: nat)
    requires IsRun(states, actions) && i < |states| && t < |states[i].pcs|
    requires AboutToPoll(states[i].pcs[t])
    ensures TestedAt(states, actions, t, k, i)
    decreases i
  {
    hide Apply, Enabled;
    assert i > 0;
    RunKeeps(states, actions, i - 1);
    assert StepAt(states, actions, i - 1);
    RunIsLater(states, actions, i - 1, i);
    AboutToPollSince(states[i - 1], actions[i - 1], t);
    if AboutToPoll(states[i - 1].pcs[t]) {
      k := PoisonTestedUnderTheMutex(states, actions, t, i - 1);
      TestedOneMore(states, actions, t, k, i - 1);
    } else {
      k := i - 1;
    }
  }

  /** The step that stores the poison flag after an authorization predicate unwound. */
  predicate UnwindStores(s: State, action: Action) {
    action.Advance? && action.thread < |s.pcs| && s.pcs[action.thread].UnwindStore?
  }

  lemma UnwindingStores(s: State, action: Action)
    requires Enabled(s, action) && UnwindStores(s, action)
    ensures Apply(s, action).poisoned
  {
  }

  lemma OnlyUnwindingStoresAside(s: State, action: Action, t: nat)
    requires Inv(s) && Enabled(s, action) && t < |s.pcs| && AboutToPoll(s.pcs[t])
    ensures Apply(s, action).poisoned <==> s.poisoned || UnwindStores(s, action)
  {
    hide Apply;
    StepKeeps(s, action);
    assert ThreadOk(s, t);
    if action.DropCapability? {
      DropStoresNothing(s, action);
    } else {
      assert ThreadOk(s, action.thread);
      if !action.Advance? { PoisonStoreIsAdvance(s, action); }
      if UnwindStores(s, action) { UnwindingStores(s, action); }
    }
  }

  lemma DropStoresNothing(s: State, action: Action)
    requires Enabled(s, action) && action.DropCapability?
    ensures Apply(s, action).poisoned == s.poisoned && Apply(s, action).active == s.active
  {
  }

  lemma PoisonStoreIsAdvance(s: State, action: Action)
    requires Enabled(s, action) && !action.DropCapability? && !action.Advance?
    ensures Apply(s, action).poisoned == s.poisoned
  {
    hide AdvanceStep, StartStep;
    if action.Start? { StartStoresNothing(s, action.thread, action.operation); }
  }

  lemma StartStoresNothing(s: State, t: nat, op: Operation)
    requires CanStart(s, t, op)
    ensures StartStep(s, t, op).poisoned == s.poisoned
  {
  }

  lemma TestLeavesFlagClear(s: State, t: nat)
    requires Enabled(s, Advance(t)) && s.pcs[t].CheckPoison? && !s.poisoned
    ensures !Apply(s, Advance(t)).poisoned
  {
  }

  lemma {:induction false} PoisonSinceTest(
    states: seq<State>, actions: seq<Action>, t: nat, k: nat, i: nat)
    requires IsRun(states, actions) && TestedAt(states, actions, t, k, i)
    ensures states[i].poisoned <==> exists m :: k < m < i && UnwindStores(states[m], actions[m])
    decreases i
  {
    hide Apply, Enabled;
    if i == k + 1 {
      RunKeeps(states, actions, k);
      assert StepAt(states, actions, k);
      TestLeavesFlagClear(states[k], t);
    } else {
      PoisonSinceTest(states, actions, t, k, i - 1);
      RunKeeps(states, actions, i - 1);
      assert StepAt(states, actions, i - 1);
      OnlyUnwindingStoresAside(states[i - 1], actions[i - 1], t);
    }
  }

  /** The flag itself is stored outside the mutex when an authorization predicate
      unwinds, so a first poll can still see it set; exactly then, and only after the
      same hold of the mutex tested it clear. */
  lemma FirstPollPoisonedIffUnwoundSince(states: seq<State>, actions: seq<Action>, i: nat)
    returns (k: nat)
    requires IsRun(states, actions) && i < |actions| && FirstPoll(states[i], actions[i])
    ensures TestedAt(states, actions, actions[i].thread, k, i)
    ensures states[i].poisoned <==> exists m :: k < m < i && UnwindStores(states[m], actions[m])
  {
    k := PoisonTestedUnderTheMutex(states, actions, actions[i].thread, i);
    PoisonSinceTest(states, actions, actions[i].thread, k, i);
  }

  // ---- revocation is final --------------------------------------------------------

  /** No attempt minted before the mark can be polled for the first time: either the
      flag is set and nobody is past its test, or every older attempt is of an older epoch. */
  ghost predicate Shut(s: State, mark: State) {
    if mark.poisoned then
      s.poisoned && forall t :: 0 <= t < |s.pcs| ==> !AboutToPoll(s.pcs[t])
    else
      Later(mark, s) && forall c :: c in mark.caps ==> mark.caps[c].grant.epoch < mark.epoch
  }

  lemma PublicationShuts(s: State, action: Action)
    requires Inv(s) && Enabled(s, action) && Publishes(s, action)
    ensures Shut(s, s)
  {
    assert ThreadOk(s, action.thread);
    forall t | 0 <= t < |s.pcs| ensures !AboutToPoll(s.pcs[t]) {
      assert ThreadOk(s, t);
    }
  }

  lemma StepStaysShut(s: State, action: Action, mark: State)
    requires Inv(s) && Enabled(s, action) && Shut(s, mark)
    ensures Shut(Apply(s, action), mark)
  {
    var s' := Apply(s, action);
    StepKeeps(s, action);
    if mark.poisoned {
      forall t | 0 <= t < |s'.pcs| ensures !AboutToPoll(s'.pcs[t]) {
        if AboutToPoll(s'.pcs[t]) { AboutToPollSince(s, action, t); }
      }
    } else {
      LaterTransitive(mark, s, s');
    }
  }

  lemma {:induction false} RunStaysShut(states: seq<State>, actions: seq<Action>, i: nat, j: nat)
    requires IsRun(states, actions) && i <= j < |states| && Shut(states[i], states[i])
    ensures Shut(states[j], states[i])
    decreases j
  {
    hide Apply, Enabled;
    if i < j {
      RunStaysShut(states, actions, i, j - 1);
      RunKeeps(states, actions, j - 1);
      assert StepAt(states, actions, j - 1);
      StepStaysShut(states[j - 1], actions[j - 1], states[i]);
    }
  }

  /** After a revocation publishes at `i`, a first poll at any later step belongs to an
      attempt minted afterwards, under an epoch no older than the published one. */
  lemma RevocationIsFinal(states: seq<State>, actions: seq<Action>, i: nat, j: nat)
    requires IsRun(states, actions) && i <= j < |actions|
    requires Publishes(states[i], actions[i]) && FirstPoll(states[j], actions[j])
    ensures var c := states[j].pcs[actions[j].thread].cap;
            && c >= states[i].nextCap && c !in states[i].caps && c in states[j].caps
            && states[j].caps[c].grant.epoch >= states[i].epoch
            && !states[i].poisoned
  {
    RunKeeps(states, actions, i);
    assert StepAt(states, actions, i);
    PublicationShuts(states[i], actions[i]);
    RunStaysShut(states, actions, i, j);
    RunKeeps(states, actions, j);
    RunIsLater(states, actions, i, j);
    assert ThreadOk(states[j], actions[j].thread);
  }

  // ---- poison is final ---------------------------------------------------------------

  /** Once the flag is set and nobody is past its test, no transport is ever begun again. */
  lemma PoisonIsFinal(states: seq<State>, actions: seq<Action>, i: nat, j: nat)
    requires IsRun(states, actions) && i <= j < |actions| && states[i].poisoned
    requires forall t :: 0 <= t < |states[i].pcs| ==> !AboutToPoll(states[i].pcs[t])
    ensures !FirstPoll(states[j], actions[j])
  {
    hide Apply, Enabled;
    RunStaysShut(states, actions, i, j);
  }

  /** The points of a thread that has stored the flag and holds the mutex. */
  predicate HoldsPoison(s: State, pc: Pc) {
    s.poisoned && (pc.RevokeClear? || pc.LockStore? || pc.PollStore?)
  }

  /** From the moment an unwound authorization has the mutex, or an exhausted revocation or a
      panicked poll has stored the flag under it, no first poll happens for the rest of the run. */
  lemma UnwindingIsFinal(states: seq<State>, actions: seq<Action>, i: nat, j: nat, t: nat)
    requires IsRun(states, actions) && i <= j < |actions| && t < |states[i].pcs|
    requires states[i].pcs[t].UnwindClear? || HoldsPoison(states[i], states[i].pcs[t])
    ensures states[i].poisoned && !FirstPoll(states[j], actions[j])
  {
    RunKeeps(states, actions, i);
    assert ThreadOk(states[i], t);
    forall u | 0 <= u < |states[i].pcs| ensures !AboutToPoll(states[i].pcs[u]) {
      assert ThreadOk(states[i], u);
    }
    PoisonIsFinal(states, actions, i, j);
  }

  // ---- zero polls -----------------------------------------------------------------

  /** Some transport of capability `c` has begun and not finished. */
  ghost predicate Begun(s: State, c: nat) {
    exists t :: 0 <= t < |s.pcs| && Underway(s.pcs[t]) && s.pcs[t].cap == c
  }

  lemma BegunOnlyByFirstPoll(s: State, action: Action, c: nat)
    requires Inv(s) && Enabled(s, action) && Begun(Apply(s, action), c)
    ensures Begun(s, c) || (FirstPoll(s, action) && s.pcs[action.thread].cap == c)
  {
    var t :| 0 <= t < |Apply(s, action).pcs| && Underway(Apply(s, action).pcs[t]) && Apply(s, action).pcs[t].cap == c;
    StepKeeps(s, action);
    TransportHandling(s, action, t);
  }

  lemma {:induction false} StaysUnbegun(states: seq<State>, actions: seq<Action>, i: nat, j: nat, c: nat)
    requires IsRun(states, actions) && i <= j < |states|
    requires i < |actions| && Publishes(states[i], actions[i])
    requires c in states[i].caps && !Begun(states[i], c)
    ensures !Begun(states[j], c)
    decreases j
  {
    hide Apply, Enabled;
    if i < j {
      StaysUnbegun(states, actions, i, j - 1, c);
      RunKeeps(states, actions, j - 1);
      assert StepAt(states, actions, j - 1);
      if Begun(states[j], c) {
        BegunOnlyByFirstPoll(states[j - 1], actions[j - 1], c);
        RevocationIsFinal(states, actions, i, j - 1);
      }
    }
  }

  /** Once a revocation publishes, an attempt minted before it whose transport had not
      begun is given no poll at all for the rest of the run. */
  lemma RevokedAttemptGetsZeroPolls(states: seq<State>, actions: seq<Action>, i: nat, j: nat, c: nat)
    requires IsRun(states, actions) && i <= j < |actions| && Publishes(states[i], actions[i])
    requires c in states[i].caps && !Begun(states[i], c)
    ensures !PollsCapability(states[j], actions[j], c)
  {
    hide Apply, Enabled;
    StaysUnbegun(states, actions, i, j, c);
    if FirstPoll(states[j], actions[j]) {
      RevocationIsFinal(states, actions, i, j);
    }
  }

  // ---- the exclusive lease --------------------------------------------------------

  /** While a lease is held no capability is live, no transport is unfinished and no
      authorization is in progress. */
  lemma LeaseExcludesAttempts(s: State)
    requires Inv(s) && s.writer.Some?
    ensures s.caps == map[]
    ensures forall t :: 0 <= t < |s.pcs| ==> Borrowed(s.pcs[t]).None? && !ReadFenced(s.pcs[t])
  {
    forall t | 0 <= t < |s.pcs| ensures Borrowed(s.pcs[t]).None? && !ReadFenced(s.pcs[t]) {
      assert ThreadOk(s, t);
    }
  }

  /** Every transport in flight belongs to an attempt minted after `mark`. */
  ghost predicate NewerTransports(s: State, mark: State) {
    forall t :: 0 <= t < |s.pcs| && Underway(s.pcs[t]) ==>
                  var c := s.pcs[t].cap;
                  c in s.caps && c >= mark.nextCap && s.caps[c].grant.epoch >= mark.epoch
  }

  lemma StepKeepsTransportsNewer(s: State, action: Action, mark: State)
    requires Inv(s) && Enabled(s, action) && NewerTransports(s, mark)
    requires FirstPoll(s, action) ==>
               var c := s.pcs[action.thread].cap;
               c in s.caps && c >= mark.nextCap && s.caps[c].grant.epoch >= mark.epoch
    ensures NewerTransports(Apply(s, action), mark)
  {
    hide Apply, Enabled;
    var s' := Apply(s, action);
    StepKeeps(s, action);
    forall t | 0 <= t < |s'.pcs| && Underway(s'.pcs[t])
      ensures var c := s'.pcs[t].cap;
              c in s'.caps && c >= mark.nextCap && s'.caps[c].grant.epoch >= mark.epoch
    {
      TransportWasUnderway(s, action, t);
    }
  }

  /** Revoking and then acquiring the lease drains: from the moment the lease is granted
      no POST of an attempt minted before the revocation is ever in flight again. */
  lemma {:induction false} RevokeThenLeaseDrains(
    states: seq<State>, actions: seq<Action>, i: nat, j: nat, t: nat, m: nat)
    requires IsRun(states, actions) && i < j < |actions| && Publishes(states[i], actions[i])
    requires actions[j] == Start(t, AcquireExclusive) && j < m < |states|
    ensures NewerTransports(states[m], states[i])
    decreases m
  {
    hide Apply, Enabled;
    if m == j + 1 {
      RunKeeps(states, actions, m);
      assert StepAt(states, actions, j);
      AcquiringTakesTheLease(states[j], t);
      LeaseExcludesAttempts(states[m]);
    } else {
      RevokeThenLeaseDrains(states, actions, i, j, t, m - 1);
      RunKeeps(states, actions, m - 1);
      assert StepAt(states, actions, m - 1);
      if FirstPoll(states[m - 1], actions[m - 1]) { RevocationIsFinal(states, actions, i, m - 1); }
      StepKeepsTransportsNewer(states[m - 1], actions[m - 1], states[i]);
    }
  }

  lemma BorrowedIsLive(s: State, t: nat)
    requires Inv(s) && t < |s.pcs| && Borrowed(s.pcs[t]).Some?
    ensures Borrowed(s.pcs[t]).value in s.caps && Borrowed(s.pcs[t]).value < s.nextCap
  {
    assert ThreadOk(s, t);
  }

  lemma TransportWasUnderway(s: State, action: Action, t: nat)
    requires Inv(s) && Enabled(s, action) && t < |s.pcs| && Underway(Apply(s, action).pcs[t])
    ensures var s', c := Apply(s, action), Apply(s, action).pcs[t].cap;
            && c in s'.caps && c in s.caps && s'.caps[c] == s.caps[c]
            && ((Underway(s.pcs[t]) && s.pcs[t].cap == c)
                || (FirstPoll(s, action) && action.thread == t && s.pcs[t].cap == c))
  {
    hide Apply, Enabled, Inv, Guarantee;
    StepKeeps(s, action);
    BorrowedIsLive(Apply(s, action), t);
    TransportHandling(s, action, t);
    BorrowedIsLive(s, t);
  }

  lemma AcquiringTakesTheLease(s: State, t: nat)
    requires Enabled(s, Start(t, AcquireExclusive))
    ensures Apply(s, Start(t, AcquireExclusive)).writer == Some(t)
  {
  }

  /** An activation happens only while nothing minted before it is alive. */
  lemma ActivationFindsNoCapability(states: seq<State>, actions: seq<Action>, i: nat)
    requires IsRun(states, actions) && i < |actions| && Activates(states[i], actions[i])
    ensures states[i].caps == map[] && states[i].active.None?
  {
    RunKeeps(states, actions, i);
    assert ThreadOk(states[i], actions[i].thread);
    LeaseExcludesAttempts(states[i]);
  }

  // ---- epochs ---------------------------------------------------------------------

  /** In every state of a run an active grant was activated for its epoch, and it is of the
      current epoch whenever the mutex is free and not poisoned; a stale one is seen only
      inside the revocation that has just moved the epoch on, or after a holder panicked. */
  lemma ActiveGrantIsCurrent(states: seq<State>, actions: seq<Action>, i: nat)
    requires IsRun(states, actions) && i < |states| && states[i].active.Some?
    ensures var s := states[i];
            && Issued(s, s.active.value)
            && (s.holder.None? && !s.mutexPoisoned ==> s.active.value.epoch == s.epoch)
            && (s.active.value.epoch != s.epoch ==> s.mutexPoisoned || HolderPc(s).RevokeClear?)
  {
    RunKeeps(states, actions, i);
  }

  /** No epoch is activated twice: later activations are of strictly later epochs. */
  lemma EachEpochActivatedOnce(states: seq<State>, actions: seq<Action>, i: nat, j: nat)
    requires IsRun(states, actions) && i < j < |actions|
    requires Activates(states[i], actions[i]) && Activates(states[j], actions[j])
    ensures states[i].pcs[actions[i].thread].epoch < states[j].pcs[actions[j].thread].epoch
  {
    RunKeeps(states, actions, i);
    assert ThreadOk(states[i], actions[i].thread);
    assert StepAt(states, actions, i);
    RunIsLater(states, actions, i + 1, j);
    RunKeeps(states, actions, j);
    assert ThreadOk(states[j], actions[j].thread);
  }

  /** Capabilities of one epoch carry one authority, however far apart they were live. */
  lemma OneAuthorityPerEpoch(states: seq<State>, actions: seq<Action>, i: nat, j: nat, c: nat, d: nat)
    requires IsRun(states, actions) && i <= j < |states|
    requires c in states[i].caps && d in states[j].caps
    requires states[i].caps[c].grant.epoch == states[j].caps[d].grant.epoch
    ensures states[i].caps[c].grant == states[j].caps[d].grant
  {
    RunKeeps(states, actions, i);
    RunKeeps(states, actions, j);
    RunIsLater(states, actions, i, j);
  }

  /** A revocation reads and moves the epoch, or finds it exhausted. */
  predicate Revokes(s: State, action: Action) {
    action.Advance? && action.thread < |s.pcs| && s.pcs[action.thread].RevokeBump?
  }

  /** An activation of the epoch observed at `i` succeeds at `j` only if nothing was
      revoked in between, even when the epoch counter is exhausted. */
  lemma ActivationSawNoRevocation(states: seq<State>, actions: seq<Action>, i: nat, j: nat, k: nat)
    requires IsRun(states, actions) && i <= k <= j < |actions| && Activates(states[j], actions[j])
    requires states[j].pcs[actions[j].thread].epoch == states[i].epoch
    ensures !Revokes(states[k], actions[k])
  {
    RunKeeps(states, actions, j);
    assert ThreadOk(states[j], actions[j].thread);
    if Revokes(states[k], actions[k]) {
      assert k < j;
      RunKeeps(states, actions, k);
      assert StepAt(states, actions, k);
      RunIsLater(states, actions, i, k);
      RunIsLater(states, actions, k + 1, j);
    }
  }

  // ---- a refused authorization ------------------------------------------------------

  /** Wherever `authorize_if` is about to return nothing, no grant is active. */
  lemma RefusalLeavesNothingActive(states: seq<State>, actions: seq<Action>, i: nat, t: nat)
    requires IsRun(states, actions) && i < |states| && t < |states[i].pcs|
    requires states[i].pcs[t].AuthorizeNone?
    ensures states[i].active.None? && states[i].writer.None?
  {
    RunKeeps(states, actions, i);
    assert ThreadOk(states[i], t);
  }

  /** While `authorize_if` is anywhere between taking the fence and returning, nobody
      activates; so its own revocation can only clear the grant it checked against. */
  lemma {:induction false} SelfRevocationCancelsNoLaterActivation(
    states: seq<State>, actions: seq<Action>, i: nat, j: nat, t: nat)
    requires IsRun(states, actions) && i <= j < |states| && t < |states[i].pcs|
    requires forall k :: i <= k <= j ==> t < |states[k].pcs| && ReadFenced(states[k].pcs[t])
    ensures forall k :: i <= k < j ==> !Activates(states[k], actions[k])
    ensures states[j].active.None? || states[j].active == states[i].active
    decreases j
  {
    hide Apply, Enabled;
    if i < j {
      SelfRevocationCancelsNoLaterActivation(states, actions, i, j - 1, t);
      RunKeeps(states, actions, j - 1);
      assert StepAt(states, actions, j - 1);
      FencedStepActivatesNothing(states[j - 1], actions[j - 1], t);
    }
  }

  lemma FencedStepActivatesNothing(s: State, action: Action, t: nat)
    requires Inv(s) && Enabled(s, action) && t < |s.pcs| && ReadFenced(s.pcs[t])
    ensures !Activates(s, action)
    ensures Apply(s, action).active.None? || Apply(s, action).active == s.active
  {
    hide Apply, Enabled;
    assert ThreadOk(s, t);
    StepKeeps(s, action);
    if action.DropCapability? { DropStoresNothing(s, action); }
    else if action.thread < |s.pcs| { assert ThreadOk(s, action.thread); }
  }
}
