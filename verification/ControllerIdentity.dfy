/** Controller identities, reserved one after another from one process-wide counter. */
module ControllerIdentity {
  import opened Authority

  /** What one reservation returns and where it leaves the counter. */
  function Reserve(next: nat): (Option<nat>, nat) {
    if next != 0 && next < U64_MAX then (Some(next), next + 1) else (None, next)
  }

  /** The answers of `n` reservations in a row. */
  function Reservations(next: nat, n: nat): (ids: seq<Option<nat>>)
    ensures |ids| == n
    decreases n
  {
    if n == 0 then [] else [Reserve(next).0] + Reservations(Reserve(next).1, n - 1)
  }

  const FIRST_IDENTITY: nat := 1

  class IdentityCounter {
    var next: nat

    constructor ()
      ensures next == FIRST_IDENTITY
    {
      next := FIRST_IDENTITY;
    }

    method ReserveIdentity() returns (identity: Option<nat>)
      modifies this
      ensures (identity, next) == Reserve(old(next))
    {
      if next == 0 || next >= U64_MAX { return None; }
      identity := Some(next);
      next := next + 1;
    }
  }

  /** Identities are never repeated, never wrap, and once they run out stay out. */
  lemma {:induction false} IdentitiesNeverRepeat(next: nat, n: nat, i: nat, j: nat)
    requires i < j < n
    ensures var ids := Reservations(next, n);
            ids[j].Some? ==> ids[i].Some? && next <= ids[i].value < ids[j].value < U64_MAX && ids[i].value != 0
    decreases n
  {
    if i > 0 {
      IdentitiesNeverRepeat(Reserve(next).1, n - 1, i - 1, j - 1);
    } else {
      ReservationsStart(Reserve(next).1, n - 1, j - 1);
    }
  }

  lemma {:induction false} ReservationsStart(next: nat, n: nat, j: nat)
    requires j < n
    ensures Reservations(next, n)[j].Some? ==>
              next != 0 && next < U64_MAX && next <= Reservations(next, n)[j].value < U64_MAX
    decreases n
  {
    if j > 0 { ReservationsStart(Reserve(next).1, n - 1, j - 1); }
  }

  // ---- the process-wide counter -------------------------------------------------------

  /** The answer of reservation number `k` of the process, counted from zero. */
  function Identity(k: nat): Option<nat> {
    Reservations(FIRST_IDENTITY, k + 1)[k]
  }

  /** The binding of the controller made by reservation `k`; zero is nobody's. */
  function BindingOf(k: nat): nat {
    if Identity(k).Some? then Identity(k).value else 0
  }

  lemma {:induction false} LaterReservationsChangeNothing(next: nat, m: nat, n: nat, k: nat)
    requires k < m <= n
    ensures Reservations(next, m)[k] == Reservations(next, n)[k]
    decreases m
  {
    if k > 0 { LaterReservationsChangeNothing(Reserve(next).1, m - 1, n - 1, k - 1); }
  }

  /** Two reservations of one process that both succeed never give the same identity. */
  lemma IdentitiesDiffer(j: nat, k: nat)
    requires j != k && Identity(j).Some? && Identity(k).Some?
    ensures Identity(j) != Identity(k)
  {
    if j < k {
      LaterReservationsChangeNothing(FIRST_IDENTITY, j + 1, k + 1, j);
      IdentitiesNeverRepeat(FIRST_IDENTITY, k + 1, j, k);
    } else {
      LaterReservationsChangeNothing(FIRST_IDENTITY, k + 1, j + 1, k);
      IdentitiesNeverRepeat(FIRST_IDENTITY, j + 1, k, j);
    }
  }


  /** The process hands out 1, 2, 3 and so on, and stops before the largest 64-bit number. */
  lemma IdentityIs(k: nat)
    ensures Identity(k) == if k + 1 < 18_446_744_073_709_551_615 then Some(k + 1) else None
  {
    ReservationIs(FIRST_IDENTITY, k + 1, k);
  }

  lemma {:induction false} ReservationIs(next: nat, n: nat, k: nat)
    requires k < n && 1 <= next <= U64_MAX
    ensures Reservations(next, n)[k] == if next + k < U64_MAX then Some(next + k) else None
    decreases k
  {
    if k > 0 { ReservationIs(Reserve(next).1, n - 1, k - 1); }
  }
}
