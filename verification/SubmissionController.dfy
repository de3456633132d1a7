/**
 The submission controller as one caller sees it: its fields updated in place by
 one whole critical section at a time. Each method is tied to a function on the
 controller's memory, and those functions are what a thread of the transition
 system does to the shared state when nobody interrupts it.
 */
module SubmissionController {
  import opened Authority
  import opened SubmissionProtocol

  datatype Memory = Memory(epoch: nat, poisoned: bool, mutexPoisoned: bool, active: Option<Grant>)

  // ---- whole sections, as functions of the memory ---------------------------------

  /** `lock_active`: refuses, and clears, whenever either poison mark is set. */
  predicate Opens(m: Memory) {
    !m.poisoned && !m.mutexPoisoned
  }

  function Locked(m: Memory): Memory {
    if Opens(m) then m else m.(active := None, poisoned := true)
  }

  function Revoked(m: Memory): Memory {
    m.(epoch := if m.epoch < U64_MAX then m.epoch + 1 else m.epoch,
    poisoned := m.poisoned || m.mutexPoisoned || m.epoch >= U64_MAX,
    active := None)
  }

  function Cleared(m: Memory): Memory {
    m.(active := None, poisoned := true)
  }

  predicate CanActivate(m: Memory, epoch: nat) {
    Opens(m) && m.active.None? && m.epoch == epoch
  }

  function Activated(m: Memory, epoch: nat, authority: ProtocolAuthority): Memory {
    if m.poisoned || m.epoch != epoch then m
    else if CanActivate(m, epoch) then m.(active := Some(Grant(epoch, authority)))
    else Locked(m)
  }

  predicate Authorizes(m: Memory, expected: ProtocolAuthority, authorized: bool) {
    Opens(m) && authorized && m.active == Some(Grant(m.epoch, expected))
  }

  function AfterAuthorize(m: Memory, expected: ProtocolAuthority, authorized: bool): Memory {
    if Authorizes(m, expected, authorized) then m
    else if Opens(m) then Revoked(m)
    else Locked(m)
  }

  predicate Validates(m: Memory, grant: Grant) {
    Opens(m) && m.epoch == grant.epoch && m.active == Some(grant)
  }

  /** An attempt presented to a client: its binding and authority must be the expected
      ones before its controller's state is even looked at. */
  predicate Presents(cap: Capability, binding: nat, authority: ProtocolAuthority, upgraded: bool) {
    cap.binding == binding && cap.grant.authority == authority && upgraded
  }

  datatype PollResult = NotPolled | Polled(outcome: PollOutcome)

  class ControllerState {
    var revocationEpoch: nat
    var poisoned: bool
    var mutexPoisoned: bool
    var active: Option<Grant>

    function Contents(): Memory
      reads this
    {
      Memory(revocationEpoch, poisoned, mutexPoisoned, active)
    }

    constructor ()
      ensures Contents() == Memory(0, false, false, None)
    {
      revocationEpoch, poisoned, mutexPoisoned, active := 0, false, false, None;
    }

    method LockActive() returns (granted: bool)
      modifies this
      ensures granted == old(Opens(Contents()))
      ensures Contents() == old(Locked(Contents()))
    {
      if mutexPoisoned {
        active := None;
        poisoned := true;
        return false;
      }
      if poisoned {
        active := None;
        return false;
      }
      return true;
    }

    method PoisonAndClearActive()
      modifies this
      ensures Contents() == old(Cleared(Contents()))
    {
      poisoned := true;
      active := None;
    }

    method RequestRevocation()
      modifies this
      ensures Contents() == old(Revoked(Contents()))
    {
      if mutexPoisoned { poisoned := true; }
      if revocationEpoch < U64_MAX {
        revocationEpoch := revocationEpoch + 1;
      } else {
        poisoned := true;
      }
      active := None;
    }

    method Activate(expectedEpoch: nat, authority: ProtocolAuthority) returns (activated: bool)
      modifies this
      ensures activated == old(CanActivate(Contents(), expectedEpoch))
      ensures Contents() == old(Activated(Contents(), expectedEpoch, authority))
      ensures activated ==> Validates(Contents(), Grant(expectedEpoch, authority))
    {
      if poisoned || revocationEpoch != expectedEpoch { return false; }
      var granted := LockActive();
      if !granted { return false; }
      if poisoned || active.Some? || revocationEpoch != expectedEpoch { return false; }
      active := Some(Grant(expectedEpoch, authority));
      return true;
    }

    /** `authorize_if` once it has the fence; when the predicate unwinds the panic is passed on,
        so nothing is returned either. */
    method AuthorizeIf(binding: nat, expected: ProtocolAuthority, verdict: PredicateOutcome)
      returns (minted: Option<Capability>)
      modifies this
      ensures minted.Some? == (verdict.Approves? && old(Authorizes(Contents(), expected, true)))
      ensures Contents() == if verdict.Unwinds? then old(Cleared(Contents()))
                            else old(AfterAuthorize(Contents(), expected, verdict.Approves?))
      ensures minted.Some? ==>
                minted.value == Capability(binding, Grant(revocationEpoch, expected))
                && Validates(Contents(), minted.value.grant)
      ensures minted.None? ==> active.None? && (revocationEpoch > old(revocationEpoch) || poisoned)
    {
      if verdict.Unwinds? {
        PoisonAndClearActive();
        return None;
      }
      var authorized := verdict.Approves?;
      var granted := LockActive();
      if !granted { return None; }
      var epoch := revocationEpoch;
      if !authorized || poisoned || active != Some(Grant(epoch, expected)) {
        RequestRevocation();
        return None;
      }
      return Some(Capability(binding, Grant(epoch, expected)));
    }

    method Revalidate(cap: Capability, binding: nat, authority: ProtocolAuthority, upgraded: bool)
      returns (valid: bool)
      modifies this
      ensures valid == (Presents(cap, binding, authority, upgraded) && old(Validates(Contents(), cap.grant)))
      ensures Contents() == if Presents(cap, binding, authority, upgraded)
                            then old(Locked(Contents())) else old(Contents())
    {
      if cap.binding != binding || cap.grant.authority != authority || !upgraded { return false; }
      var granted := LockActive();
      if !granted { return false; }
      return !poisoned && revocationEpoch == cap.grant.epoch && active == Some(cap.grant);
    }

    /** `outcome` is what the transport's own first poll does, when it is reached. */
    method PollFirstTransport(cap: Capability, binding: nat, authority: ProtocolAuthority,
                              upgraded: bool, outcome: PollOutcome)
      returns (result: PollResult)
      modifies this
      ensures result.Polled? <==>
              Presents(cap, binding, authority, upgraded) && old(Validates(Contents(), cap.grant))
      ensures result.Polled? ==> result.outcome == outcome
      ensures Contents() == if !Presents(cap, binding, authority, upgraded) then old(Contents())
                            else if result == Polled(Panicked) then old(Cleared(Contents()))
                            else old(Locked(Contents()))
    {
      if cap.binding != binding || cap.grant.authority != authority || !upgraded { return NotPolled; }
      var granted := LockActive();
      if !granted { return NotPolled; }
      if poisoned || revocationEpoch != cap.grant.epoch || active != Some(cap.grant) { return NotPolled; }
      if outcome.Panicked? {
        active := None;
        poisoned := true;
      }
      return Polled(outcome);
    }
  }

  // ---- the sections are what an uninterrupted thread does ---------------------------

  function MemoryOf(s: State): Memory {
    Memory(s.epoch, s.poisoned, s.mutexPoisoned, s.active)
  }

  /** Thread `t` alone takes up to `n` steps of the call it is in. */
  function Alone(s: State, t: nat, n: nat): State
    decreases n
  {
    if n == 0 || !CanAdvance(s, t) then s else Alone(AdvanceStep(s, t), t, n - 1)
  }

  /** `s'` is `s` with thread `t` at `pc`, the mutex free and the memory as given. */
  predicate Settles(s: State, s': State, t: nat, pc: Pc, m: Memory)
    requires t < |s.pcs|
  {
    MemoryOf(s') == m && s'.pcs == s.pcs[t := pc] && s'.holder.None?
  }

  lemma NextAlone(s: State, t: nat, n: nat)
    requires n > 0 && CanAdvance(s, t)
    ensures Alone(s, t, n) == Alone(AdvanceStep(s, t), t, n - 1)
  {
  }

  lemma StoppedAlone(s: State, t: nat, n: nat)
    requires t < |s.pcs|
    requires s.pcs[t].Idle? || s.pcs[t].Leased? || s.pcs[t].AuthorizeNone? || s.pcs[t].Confirmed?
    ensures Alone(s, t, n) == s
  {
  }

  lemma RevokeNext(s: State, t: nat, n: nat)
    requires n > 0 && t < |s.pcs| && AtRevoke(s.pcs[t]) && (s.pcs[t].RevokeLock? ==> s.holder.None?)
    ensures Alone(s, t, n) == Alone(RevokeStep(s, t), t, n - 1)
  {
    hide Alone, RevokeStep, AuthorizeStep, LockStep, ActivateStep, CheckStep, PollStep;
    NextAlone(s, t, n);
  }

  lemma AuthorizeNext(s: State, t: nat, n: nat)
    requires n > 0 && t < |s.pcs| && AtAuthorize(s.pcs[t]) && (s.pcs[t].UnwindLock? ==> s.holder.None?)
    ensures Alone(s, t, n) == Alone(AuthorizeStep(s, t), t, n - 1)
  {
    hide Alone, RevokeStep, AuthorizeStep, LockStep, ActivateStep, CheckStep, PollStep;
    NextAlone(s, t, n);
  }

  lemma LockNext(s: State, t: nat, n: nat)
    requires n > 0 && t < |s.pcs| && AtLock(s.pcs[t]) && (s.pcs[t].LockWant? ==> s.holder.None?)
    ensures Alone(s, t, n) == Alone(LockStep(s, t), t, n - 1)
  {
    hide Alone, RevokeStep, AuthorizeStep, LockStep, ActivateStep, CheckStep, PollStep;
    NextAlone(s, t, n);
  }

  lemma ActivateNext(s: State, t: nat, n: nat)
    requires n > 0 && t < |s.pcs| && AtActivate(s.pcs[t])
    ensures Alone(s, t, n) == Alone(ActivateStep(s, t), t, n - 1)
  {
    hide Alone, RevokeStep, AuthorizeStep, LockStep, ActivateStep, CheckStep, PollStep;
    NextAlone(s, t, n);
  }

  lemma CheckNext(s: State, t: nat, n: nat)
    requires n > 0 && t < |s.pcs| && AtCheck(s.pcs[t]) && CallerCap(s.pcs[t].caller).value in s.caps
    ensures Alone(s, t, n) == Alone(CheckStep(s, t), t, n - 1)
  {
    hide Alone, RevokeStep, AuthorizeStep, LockStep, ActivateStep, CheckStep, PollStep;
    NextAlone(s, t, n);
  }

  lemma PollNext(s: State, t: nat, n: nat)
    requires n > 0 && t < |s.pcs| && AtPoll(s.pcs[t])
    ensures Alone(s, t, n) == Alone(PollStep(s, t), t, n - 1)
  {
    hide Alone, RevokeStep, AuthorizeStep, LockStep, ActivateStep, CheckStep, PollStep;
    NextAlone(s, t, n);
  }

  lemma RevocationAlone(s: State, t: nat, fenced: bool)
    requires t < |s.pcs| && s.pcs[t] == RevokeLock(fenced) && s.holder.None?
    ensures Settles(s, Alone(s, t, 5), t, if fenced then AuthorizeNone else Idle, Revoked(MemoryOf(s)))
    ensures Alone(s, t, 5).caps == s.caps
  {
    hide Alone;
    var s1 := RevokeStep(s, t);
    RevokeNext(s, t, 5);
    if s.mutexPoisoned {
      RevokeNext(s1, t, 4);
      BumpAlone(RevokeStep(s1, t), t, fenced, 3);
    } else {
      BumpAlone(s1, t, fenced, 4);
    }
  }

  lemma BumpAlone(s: State, t: nat, fenced: bool, n: nat)
    requires t < |s.pcs| && s.pcs[t] == RevokeBump(fenced) && n >= 3
    ensures Settles(s, Alone(s, t, n), t, if fenced then AuthorizeNone else Idle,
                    MemoryOf(s).(epoch := if s.epoch < U64_MAX then s.epoch + 1 else s.epoch,
                                 poisoned := s.poisoned || s.epoch >= U64_MAX, active := None))
    ensures Alone(s, t, n).caps == s.caps
  {
    hide Alone, RevokeStep, AuthorizeStep, LockStep, ActivateStep, CheckStep, PollStep;
    if s.epoch >= U64_MAX { ExhaustedBumpAlone(s, t, fenced, n); } else { PlainBumpAlone(s, t, fenced, n); }
  }

  lemma PlainBumpAlone(s: State, t: nat, fenced: bool, n: nat)
    requires t < |s.pcs| && s.pcs[t] == RevokeBump(fenced) && n >= 2 && s.epoch < U64_MAX
    ensures Settles(s, Alone(s, t, n), t, if fenced then AuthorizeNone else Idle,
                    MemoryOf(s).(epoch := s.epoch + 1, active := None))
    ensures Alone(s, t, n).caps == s.caps
  {
    hide Alone;
    RevokeNext(s, t, n);
    ClearAlone(RevokeStep(s, t), t, fenced, n - 1);
  }

  lemma ExhaustedBumpAlone(s: State, t: nat, fenced: bool, n: nat)
    requires t < |s.pcs| && s.pcs[t] == RevokeBump(fenced) && n >= 3 && s.epoch >= U64_MAX
    ensures Settles(s, Alone(s, t, n), t, if fenced then AuthorizeNone else Idle,
                    MemoryOf(s).(poisoned := true, active := None))
    ensures Alone(s, t, n).caps == s.caps
  {
    hide Alone;
    var s1 := RevokeStep(s, t);
    RevokeNext(s, t, n);
    RevokeNext(s1, t, n - 1);
    ClearAlone(RevokeStep(s1, t), t, fenced, n - 2);
  }

  lemma ClearAlone(s: State, t: nat, fenced: bool, n: nat)
    requires t < |s.pcs| && s.pcs[t] == RevokeClear(fenced) && n >= 1
    ensures Settles(s, Alone(s, t, n), t, if fenced then AuthorizeNone else Idle, MemoryOf(s).(active := None))
    ensures Alone(s, t, n).caps == s.caps
  {
    hide Alone;
    RevokeNext(s, t, n);
    StoppedAlone(RevokeStep(s, t), t, n - 1);
  }

  lemma LockAlone(s: State, t: nat, caller: Caller, n: nat)
    requires t < |s.pcs| && s.pcs[t] == LockWant(caller) && s.holder.None? && n >= 3
    ensures Opens(MemoryOf(s)) ==>
              Alone(s, t, n) == Alone(s.(pcs := s.pcs[t := Opened(caller)], holder := Some(t)), t, n - 2)
    ensures !Opens(MemoryOf(s)) ==>
              Settles(s, Alone(s, t, n), t, Refused(caller), Locked(MemoryOf(s)))
              && Alone(s, t, n).caps == s.caps
  {
    hide Alone;
    var s1 := LockStep(s, t);
    LockNext(s, t, n);
    var s2 := LockStep(s1, t);
    LockNext(s1, t, n - 1);
    if Opens(MemoryOf(s)) {
      assert s2 == s.(pcs := s.pcs[t := Opened(caller)], holder := Some(t));
    } else if s.mutexPoisoned {
      LockNext(s2, t, n - 2);
      StoppedAlone(LockStep(s2, t), t, n - 3);
    } else {
      StoppedAlone(s2, t, n - 2);
    }
  }

  lemma ActivationAlone(s: State, t: nat, epoch: nat, authority: ProtocolAuthority)
    requires t < |s.pcs| && s.pcs[t] == ActivatePoison(epoch, authority) && s.holder.None?
    ensures Settles(s, Alone(s, t, 7), t, Leased, Activated(MemoryOf(s), epoch, authority))
  {
    hide Alone;
    var s1 := ActivateStep(s, t);
    ActivateNext(s, t, 7);
    if s.poisoned {
      StoppedAlone(s1, t, 6);
    } else {
      var s2 := ActivateStep(s1, t);
      ActivateNext(s1, t, 6);
      if s.epoch != epoch {
        StoppedAlone(s2, t, 5);
      } else {
        LockAlone(s2, t, Activator(epoch, authority), 5);
        if Opens(MemoryOf(s)) {
          WriteAlone(s2.(pcs := s2.pcs[t := ActivateRetest(epoch, authority)], holder := Some(t)), t, epoch, authority);
        }
      }
    }
  }

  lemma WriteAlone(s: State, t: nat, epoch: nat, authority: ProtocolAuthority)
    requires t < |s.pcs| && s.pcs[t] == ActivateRetest(epoch, authority)
    requires Opens(MemoryOf(s)) && s.epoch == epoch
    ensures Settles(s, Alone(s, t, 3), t, Leased, Activated(MemoryOf(s), epoch, authority))
  {
    hide Alone;
    var s1 := ActivateStep(s, t);
    ActivateNext(s, t, 3);
    if s.active.None? {
      var s2 := ActivateStep(s1, t);
      ActivateNext(s1, t, 2);
      ActivateNext(s2, t, 1);
      StoppedAlone(ActivateStep(s2, t), t, 0);
    } else {
      StoppedAlone(s1, t, 2);
    }
  }

  /** Everything `authorize_if` does after its predicate: mint the exact grant, or
      leave nothing active and return nothing. */
  lemma AuthorizationAlone(s: State, t: nat, expected: ProtocolAuthority, authorized: bool)
    requires t < |s.pcs| && s.pcs[t] == LockWant(Authorizer(expected, authorized)) && s.holder.None?
    ensures var minted := Authorizes(MemoryOf(s), expected, authorized);
            && Settles(s, Alone(s, t, 9), t, if minted then Idle else AuthorizeNone,
                       AfterAuthorize(MemoryOf(s), expected, authorized))
            && Alone(s, t, 9).caps ==
               if minted then s.caps[s.nextCap := Capability(s.binding, Grant(s.epoch, expected))] else s.caps
  {
    hide Alone;
    LockAlone(s, t, Authorizer(expected, authorized), 9);
    if Opens(MemoryOf(s)) {
      DecisionAlone(s.(pcs := s.pcs[t := AuthorizeEpoch(expected, authorized)], holder := Some(t)), t, expected, authorized);
    }
  }

  lemma DecisionAlone(s: State, t: nat, expected: ProtocolAuthority, authorized: bool)
    requires t < |s.pcs| && s.pcs[t] == AuthorizeEpoch(expected, authorized) && Opens(MemoryOf(s))
    ensures var minted := Authorizes(MemoryOf(s), expected, authorized);
            && Settles(s, Alone(s, t, 7), t, if minted then Idle else AuthorizeNone,
                       AfterAuthorize(MemoryOf(s), expected, authorized))
            && Alone(s, t, 7).caps ==
               if minted then s.caps[s.nextCap := Capability(s.binding, Grant(s.epoch, expected))] else s.caps
  {
    hide Alone;
    var s1 := AuthorizeStep(s, t);
    AuthorizeNext(s, t, 7);
    var s2 := AuthorizeStep(s1, t);
    AuthorizeNext(s1, t, 6);
    if Authorizes(MemoryOf(s), expected, authorized) {
      AuthorizeNext(s2, t, 5);
      StoppedAlone(AuthorizeStep(s2, t), t, 4);
    } else {
      RevocationAlone(s2, t, true);
    }
  }

  /** A presented attempt reaches its first poll, or is confirmed, exactly when the
      section validates its grant; only a poisoned controller changes its memory. */
  lemma ValidationAlone(s: State, t: nat, cap: nat, poster: bool)
    requires t < |s.pcs| && s.holder.None? && cap in s.caps
    requires s.pcs[t] == LockWant(if poster then Poster(cap) else Revalidator(cap))
    ensures var s' := Alone(s, t, 4);
            && MemoryOf(s') == Locked(MemoryOf(s))
            && s'.pcs == s.pcs[t := if !Validates(MemoryOf(s), s.caps[cap].grant) then Idle
                                    else if poster then Validated(cap) else Confirmed(cap)]
  {
    hide Alone;
    var k := if poster then Poster(cap) else Revalidator(cap);
    LockAlone(s, t, k, 4);
    if Opens(MemoryOf(s)) {
      var s2 := s.(pcs := s.pcs[t := CheckPoison(k)], holder := Some(t));
      CheckNext(s2, t, 2);
      CheckNext(CheckStep(s2, t), t, 1);
      AloneZero(CheckStep(CheckStep(s2, t), t), t);
    }
  }

  lemma AloneZero(s: State, t: nat)
    ensures Alone(s, t, 0) == s
  {
  }
}
