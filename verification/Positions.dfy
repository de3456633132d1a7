/** The complete position inventory, read page by page under a hard offset ceiling. */
module Positions {
  import opened Authority

  const PAGE_LIMIT: nat := 500
  const MAX_OFFSET: nat := 10_000

  /** `details` stands for every field that is neither owner nor identity. */
  datatype Entry = Entry(wallet: nat, condition: nat, asset: nat, details: nat)

  function Key(e: Entry): (nat, nat) {
    (e.condition, e.asset)
  }

  predicate Before(k: (nat, nat), l: (nat, nat)) {
    k.0 < l.0 || (k.0 == l.0 && k.1 < l.1)
  }

  // ---- sorting ------------------------------------------------------------------------------

  function Insert(e: Entry, s: seq<Entry>): seq<Entry> {
    if s == [] then [e]
    else if Before(Key(s[|s| - 1]), Key(e)) || Key(s[|s| - 1]) == Key(e) then s + [e]
    else Insert(e, s[..|s| - 1]) + [s[|s| - 1]]
  }

  /** A stable sort by (condition, asset). */
  function SortByKey(s: seq<Entry>): seq<Entry> {
    if s == [] then [] else Insert(s[|s| - 1], SortByKey(s[..|s| - 1]))
  }

  ghost predicate StrictlyIncreasing(s: seq<Entry>) {
    forall i, j :: 0 <= i < j < |s| ==> Before(Key(s[i]), Key(s[j]))
  }

  ghost predicate Distinct(s: seq<Entry>) {
    forall i, j :: 0 <= i < j < |s| ==> Key(s[i]) != Key(s[j])
  }

  predicate AllOf(wallet: nat, s: seq<Entry>) {
    forall i :: 0 <= i < |s| ==> s[i].wallet == wallet
  }

  function Keys(s: seq<Entry>): set<(nat, nat)> {
    set i | 0 <= i < |s| :: Key(s[i])
  }

  lemma {:induction false} InsertAdds(e: Entry, s: seq<Entry>)
    ensures multiset(Insert(e, s)) == multiset(s) + multiset{e}
    ensures Keys(Insert(e, s)) == Keys(s) + {Key(e)}
    decreases |s|
  {
    if s == [] {
      KeysAppend([], e);
      assert [] + [e] == [e];
    } else {
      hide Keys, Key;
      var front, last := s[..|s| - 1], s[|s| - 1];
      assert s == front + [last];
      KeysAppend(front, last);
      KeysAppend(s, e);
      InsertAdds(e, front);
      KeysAppend(Insert(e, front), last);
    }
  }

  lemma AppendAbove(s: seq<Entry>, last: Entry)
    requires StrictlyIncreasing(s) && forall i :: 0 <= i < |s| ==> Before(Key(s[i]), Key(last))
    ensures StrictlyIncreasing(s + [last])
  {
  }

  lemma {:induction false} InsertKeepsOrder(e: Entry, s: seq<Entry>)
    requires StrictlyIncreasing(s) && Key(e) !in Keys(s)
    ensures StrictlyIncreasing(Insert(e, s))
    decreases |s|
  {
    if s != [] {
      var front, last := s[..|s| - 1], s[|s| - 1];
      assert Key(last) in Keys(s);
      if Before(Key(last), Key(e)) {
        AppendAbove(s, e);
      } else {
        assert forall i :: 0 <= i < |front| ==> front[i] == s[i];
        InsertKeepsOrder(e, front);
        InsertAdds(e, front);
        var t := Insert(e, front);
        forall i | 0 <= i < |t| ensures Before(Key(t[i]), Key(last)) {
          assert Key(t[i]) in Keys(t);
        }
        AppendAbove(t, last);
      }
    }
  }

  lemma KeysAppend(s: seq<Entry>, e: Entry)
    ensures Keys(s + [e]) == Keys(s) + {Key(e)}
  {
    assert forall i :: 0 <= i < |s| ==> (s + [e])[i] == s[i];
    assert (s + [e])[|s|] == e;
  }

  /** Sorting distinct entries gives a strictly increasing permutation of them. */
  lemma {:induction false} SortSorts(s: seq<Entry>)
    requires Distinct(s)
    ensures StrictlyIncreasing(SortByKey(s)) && multiset(SortByKey(s)) == multiset(s)
    ensures Keys(SortByKey(s)) == Keys(s)
    decreases |s|
  {
    if s != [] {
      var front, last := s[..|s| - 1], s[|s| - 1];
      assert s == front + [last];
      SortSorts(front);
      KeysAppend(front, last);
      InsertAdds(last, SortByKey(front));
      InsertKeepsOrder(last, SortByKey(front));
    }
  }

  // ---- pages -----------------------------------------------------------------------------------

  /** What the venue answers at an offset: a decoded list of any length, or a failure. */
  type Venue = nat -> Option<seq<Entry>>

  function DecodePage(wire: Option<seq<Entry>>): Option<seq<Entry>> {
    if wire.Some? && |wire.value| > PAGE_LIMIT then None else wire
  }

  /** `Err` when the inventory may continue past the ceiling, `None` when it has ended. */
  function NextOffset(offset: nat, pageLen: nat): Result<Option<nat>, ()> {
    if pageLen < PAGE_LIMIT then Ok(None)
    else if offset + PAGE_LIMIT > MAX_OFFSET then Err(())
    else Ok(Some(offset + PAGE_LIMIT))
  }

  ghost predicate Acceptable(wallet: nat, positions: seq<Entry>) {
    AllOf(wallet, positions) && Distinct(positions)
  }

  /** Everything read so far, one page further on; `None` once anything is refused. */
  ghost function ReadFrom(wallet: nat, venue: Venue, offset: nat, read: seq<Entry>): Option<seq<Entry>>
    decreases MAX_OFFSET - offset
  {
    var page := DecodePage(venue(offset));
    if page.None? || !Acceptable(wallet, read + page.value) then None
    else
      var next := NextOffset(offset, |page.value|);
      if next.Err? then None
      else if next.value.None? then Some(read + page.value)
      else ReadFrom(wallet, venue, next.value.value, read + page.value)
  }

  ghost function Inventory(wallet: nat, venue: Venue): Option<seq<Entry>> {
    var read := ReadFrom(wallet, venue, 0, []);
    if read.None? then None else Some(SortByKey(read.value))
  }

  method Fetch(wallet: nat, venue: Venue) returns (inventory: Option<seq<Entry>>, requests: nat)
    ensures inventory == Inventory(wallet, venue)
    ensures requests <= MAX_OFFSET / PAGE_LIMIT + 1
  {
    var offset: nat := 0;
    var positions: seq<Entry> := [];
    var identities: set<(nat, nat)> := {};
    requests := 0;
    while true
      invariant offset <= MAX_OFFSET && offset == requests * PAGE_LIMIT
      invariant Acceptable(wallet, positions) && identities == Keys(positions)
      invariant ReadFrom(wallet, venue, 0, []) == ReadFrom(wallet, venue, offset, positions)
      decreases MAX_OFFSET - offset
    {
      requests := requests + 1;
      var page := DecodePage(venue(offset));
      if page.None? { return None, requests; }
      ghost var before := positions;
      var i := 0;
      while i < |page.value|
        invariant 0 <= i <= |page.value| && positions == before + page.value[..i]
        invariant Acceptable(wallet, positions) && identities == Keys(positions)
      {
        var position := page.value[i];
        if position.wallet != wallet || Key(position) in identities {
          Refuses(wallet, before, page.value, i, position);
          return None, requests;
        }
        AcceptOne(wallet, positions, position);
        KeysAppend(positions, position);
        assert before + page.value[..i + 1] == before + page.value[..i] + [position];
        identities := identities + {Key(position)};
        positions := positions + [position];
        i := i + 1;
      }
      assert page.value[..|page.value|] == page.value;
      var next := NextOffset(offset, |page.value|);
      if next.Err? { return None, requests; }
      if next.value.None? {
        return Some(SortByKey(positions)), requests;
      }
      offset := next.value.value;
    }
  }

  lemma AcceptOne(wallet: nat, s: seq<Entry>, e: Entry)
    requires Acceptable(wallet, s) && e.wallet == wallet && Key(e) !in Keys(s)
    ensures Acceptable(wallet, s + [e])
  {
    forall i | 0 <= i < |s| ensures Key(s[i]) != Key(e) {
      assert Key(s[i]) in Keys(s);
    }
  }

  lemma Refuses(wallet: nat, before: seq<Entry>, page: seq<Entry>, i: nat, e: Entry)
    requires i < |page| && e == page[i]
    requires e.wallet != wallet || Key(e) in Keys(before + page[..i])
    ensures !Acceptable(wallet, before + page)
  {
    var all, at := before + page, |before| + i;
    assert all[at] == e;
    if e.wallet == wallet {
      var j :| 0 <= j < |before + page[..i]| && Key((before + page[..i])[j]) == Key(e);
      assert all[j] == (before + page[..i])[j];
    }
  }

  // ---- any venue ------------------------------------------------------------------------------------

  /** The pages answered at offsets 0, 500, ..., end to end, `n` of them. */
  function Pages(venue: Venue, n: nat): seq<Entry> {
    if n == 0 then []
    else Pages(venue, n - 1) + (var page := venue((n - 1) * PAGE_LIMIT); if page.Some? then page.value else [])
  }

  predicate SameIdentity(a: Entry, b: Entry) {
    a.condition == b.condition && a.asset == b.asset
  }

  /** The first `n` pages are a complete inventory of the wallet: every one was answered, all
      but the last are full, and no position is another's or occurs twice. */
  ghost predicate Complete(wallet: nat, venue: Venue, n: nat) {
    && 1 <= n <= 21
    && (forall k :: 0 <= k < n ==> venue(k * 500).Some?)
    && (forall k :: 0 <= k < n - 1 ==> |venue(k * 500).value| == 500)
    && |venue((n - 1) * 500).value| < 500
    && (forall i :: 0 <= i < |Pages(venue, n)| ==> Pages(venue, n)[i].wallet == wallet)
    && (forall i, j :: 0 <= i < j < |Pages(venue, n)| ==> !SameIdentity(Pages(venue, n)[i], Pages(venue, n)[j]))
  }

  lemma {:induction false} ReadIsComplete(wallet: nat, venue: Venue, k: nat) returns (n: nat)
    requires k * PAGE_LIMIT <= MAX_OFFSET && ReadFrom(wallet, venue, k * PAGE_LIMIT, Pages(venue, k)).Some?
    requires forall m :: 0 <= m < k ==> venue(m * 500).Some? && |venue(m * 500).value| == 500
    ensures Complete(wallet, venue, n)
    ensures ReadFrom(wallet, venue, k * PAGE_LIMIT, Pages(venue, k)) == Some(Pages(venue, n))
    decreases MAX_OFFSET - k * PAGE_LIMIT
  {
    var page := DecodePage(venue(k * PAGE_LIMIT));
    assert Pages(venue, k + 1) == Pages(venue, k) + page.value;
    if |page.value| < PAGE_LIMIT {
      n := k + 1;
    } else {
      assert (k + 1) * PAGE_LIMIT == k * PAGE_LIMIT + PAGE_LIMIT;
      n := ReadIsComplete(wallet, venue, k + 1);
    }
  }

  lemma {:induction false} PagesGrow(venue: Venue, k: nat, n: nat)
    requires k <= n
    ensures |Pages(venue, k)| <= |Pages(venue, n)| && Pages(venue, n)[..|Pages(venue, k)|] == Pages(venue, k)
    decreases n
  {
    if k < n { PagesGrow(venue, k, n - 1); }
  }

  lemma PrefixOfComplete(wallet: nat, venue: Venue, k: nat, n: nat)
    requires Complete(wallet, venue, n) && k <= n
    ensures Acceptable(wallet, Pages(venue, k))
  {
    PagesGrow(venue, k, n);
    var part, whole := Pages(venue, k), Pages(venue, n);
    forall i | 0 <= i < |part| ensures part[i] == whole[i] {
      assert whole[..|part|][i] == part[i];
    }
    forall i, j | 0 <= i < j < |part| ensures Key(part[i]) != Key(part[j]) {
      assert !SameIdentity(whole[i], whole[j]);
    }
  }

  lemma CompletePage(wallet: nat, venue: Venue, k: nat, n: nat)
    requires Complete(wallet, venue, n) && k < n
    ensures venue(k * PAGE_LIMIT).Some? && DecodePage(venue(k * PAGE_LIMIT)) == venue(k * PAGE_LIMIT)
    ensures Pages(venue, k + 1) == Pages(venue, k) + venue(k * PAGE_LIMIT).value
    ensures k + 1 == n ==> |venue(k * PAGE_LIMIT).value| < PAGE_LIMIT
    ensures k + 1 < n ==> |venue(k * PAGE_LIMIT).value| == PAGE_LIMIT && k * PAGE_LIMIT + PAGE_LIMIT <= MAX_OFFSET
  {
    assert k * PAGE_LIMIT == k * 500;
  }

  lemma {:induction false} CompleteIsRead(wallet: nat, venue: Venue, k: nat, n: nat)
    requires Complete(wallet, venue, n) && k < n
    ensures ReadFrom(wallet, venue, k * PAGE_LIMIT, Pages(venue, k)) == Some(Pages(venue, n))
    decreases n - k
  {
    hide Complete, Acceptable, Pages;
    CompletePage(wallet, venue, k, n);
    PrefixOfComplete(wallet, venue, k + 1, n);
    if k + 1 < n {
      assert (k + 1) * PAGE_LIMIT == k * PAGE_LIMIT + PAGE_LIMIT;
      CompleteIsRead(wallet, venue, k + 1, n);
    }
  }

  /** Against any venue: an inventory is returned if and only if some 21 pages or fewer are a
      complete inventory of the wallet; a page that fails, overflows, repeats a position or
      brings another wallet's is never cut off and passed over. */
  lemma ReturnedIffComplete(wallet: nat, venue: Venue)
    ensures Inventory(wallet, venue).Some? <==> exists n :: Complete(wallet, venue, n)
    ensures forall n :: Complete(wallet, venue, n) ==> Inventory(wallet, venue) == Some(SortByKey(Pages(venue, n)))
  {
    assert Pages(venue, 0) == [];
    if Inventory(wallet, venue).Some? { var n := ReadIsComplete(wallet, venue, 0); }
    forall n | Complete(wallet, venue, n) ensures Inventory(wallet, venue) == Some(SortByKey(Pages(venue, n))) {
      CompleteIsRead(wallet, venue, 0, n);
    }
  }

  /** Listed by condition, and by asset within one condition. */
  ghost predicate InOrder(s: seq<Entry>) {
    forall i, j :: 0 <= i < j < |s| ==>
      s[i].condition < s[j].condition || (s[i].condition == s[j].condition && s[i].asset < s[j].asset)
  }

  /** Whatever pages come back, a returned inventory is strictly increasing by condition and
      then asset, belongs to the requested wallet only, and is exactly a complete run of pages. */
  lemma FetchedInventoryIsSorted(wallet: nat, venue: Venue) returns (n: nat)
    requires Inventory(wallet, venue).Some?
    ensures var inventory := Inventory(wallet, venue).value;
            && InOrder(inventory) && (forall i :: 0 <= i < |inventory| ==> inventory[i].wallet == wallet)
            && multiset(inventory) == multiset(Pages(venue, n))
    ensures Complete(wallet, venue, n)
  {
    assert Pages(venue, 0) == [];
    n := ReadIsComplete(wallet, venue, 0);
    var read := Pages(venue, n);
    PrefixOfComplete(wallet, venue, n, n);
    SortSorts(read);
    var inventory := SortByKey(read);
    forall i | 0 <= i < |inventory| ensures inventory[i].wallet == wallet {
      assert inventory[i] in multiset(inventory);
      assert inventory[i] in read;
    }
  }

  // ---- a venue that serves one inventory in slices ----------------------------------------------------

  function MinNat(a: nat, b: nat): nat { if a < b then a else b }

  function Served(all: seq<Entry>, offset: nat): seq<Entry> {
    all[MinNat(offset, |all|)..MinNat(offset + PAGE_LIMIT, |all|)]
  }

  predicate Serves(venue: Venue, all: seq<Entry>, offset: nat) {
    venue(offset) == Some(Served(all, offset))
  }

  /** The most a venue can hold and still be read completely. */
  const LARGEST_INVENTORY: nat := MAX_OFFSET + PAGE_LIMIT - 1

  lemma PrefixOfAcceptable(wallet: nat, all: seq<Entry>, n: nat)
    requires n <= |all| && Acceptable(wallet, all)
    ensures Acceptable(wallet, all[..n])
  {
  }

  lemma {:induction false} SlicesReadTheWhole(wallet: nat, venue: Venue, all: seq<Entry>, offset: nat)
    requires forall o: nat :: Serves(venue, all, o)
    requires offset % PAGE_LIMIT == 0 && offset <= MAX_OFFSET && offset <= |all|
    ensures ReadFrom(wallet, venue, offset, all[..offset])
         == if |all| <= LARGEST_INVENTORY && Acceptable(wallet, all) then Some(all) else None
    decreases MAX_OFFSET - offset
  {
    assert Serves(venue, all, offset);
    var page := Served(all, offset);
    var end := MinNat(offset + PAGE_LIMIT, |all|);
    assert all[..offset] + page == all[..end];
    if Acceptable(wallet, all) { PrefixOfAcceptable(wallet, all, end); }
    if end < offset + PAGE_LIMIT {
      assert all[..end] == all;
    } else if offset + PAGE_LIMIT <= MAX_OFFSET && Acceptable(wallet, all[..end]) {
      SlicesReadTheWhole(wallet, venue, all, offset + PAGE_LIMIT);
    }
  }

  /** Against one fixed inventory the whole of it is returned, sorted, exactly when it has
      at most 10499 entries, all of the wallet, with distinct identities; otherwise nothing. */
  lemma FetchReturnsWholeInventory(wallet: nat, venue: Venue, all: seq<Entry>)
    requires forall o: nat :: Serves(venue, all, o)
    ensures Inventory(wallet, venue).Some? <==>
            && |all| <= 10_499 && (forall i :: 0 <= i < |all| ==> all[i].wallet == wallet)
            && (forall i, j :: 0 <= i < j < |all| ==> !SameIdentity(all[i], all[j]))
    ensures Inventory(wallet, venue).Some? ==>
              && Inventory(wallet, venue).value == SortByKey(all)
              && InOrder(SortByKey(all)) && multiset(SortByKey(all)) == multiset(all)
  {
    assert all[..0] == [];
    SlicesReadTheWhole(wallet, venue, all, 0);
    assert Distinct(all) <==> forall i, j :: 0 <= i < j < |all| ==> !SameIdentity(all[i], all[j]);
    if Distinct(all) { SortSorts(all); }
  }
}
