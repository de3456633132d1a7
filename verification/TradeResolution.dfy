/** Settlement hashes for batches of posted orders: one polling window for a whole batch
    gives every order what it would have got alone. */
module TradeResolution {
  import opened Authority

  /** Hash zero is the absent hash. */
  datatype Trade = Trade(id: string, failed: bool, hash: nat)

  /** `details` stands for the fields enrichment never reads. */
  datatype Response = Response(tradeIds: seq<string>, hashes: seq<nat>, details: nat)

  /** The page answered for a trade identifier in a polling round, or a failed request. */
  type Venue = (nat, string) -> Option<seq<Trade>>

  predicate IsTradeResolved(t: Trade) {
    t.failed || t.hash != 0
  }

  function FirstResolved(page: seq<Trade>, id: string): (r: Option<Trade>)
    ensures r.Some? ==> r.value in page && r.value.id == id && IsTradeResolved(r.value)
    ensures r.None? ==> forall t :: t in page && t.id == id ==> !IsTradeResolved(t)
  {
    if page == [] then None
    else if page[0].id == id && IsTradeResolved(page[0]) then Some(page[0])
    else FirstResolved(page[1..], id)
  }

  function FindTrade(trades: seq<Trade>, id: string): Option<Trade> {
    if trades == [] then None
    else if trades[0].id == id then Some(trades[0])
    else FindTrade(trades[1..], id)
  }

  function Settlement(trade: Option<Trade>): seq<nat> {
    if trade.Some? && !trade.value.failed && trade.value.hash != 0 then [trade.value.hash] else []
  }

  /** The hashes of the given trades, in the order of the identifiers, repeats included. */
  function TransactionHashesFor(ids: seq<string>, resolved: seq<Trade>): seq<nat> {
    if ids == [] then []
    else Settlement(FindTrade(resolved, ids[0])) + TransactionHashesFor(ids[1..], resolved)
  }

  // ---- what polling finds --------------------------------------------------------------------

  /** What the first `rounds` rounds learn about one trade: the first outcome they see. */
  function Learnt(venue: Venue, id: string, rounds: nat): (r: Option<Trade>)
    ensures r.Some? ==> r.value.id == id && IsTradeResolved(r.value)
    decreases rounds
  {
    if rounds == 0 then None
    else
      var earlier := Learnt(venue, id, rounds - 1);
      if earlier.Some? then earlier else Answer(venue, id, rounds - 1)
  }

  function Answer(venue: Venue, id: string, round: nat): (r: Option<Trade>)
    ensures r.Some? ==> r.value.id == id && IsTradeResolved(r.value)
  {
    var page := venue(round, id);
    if page.None? then None else FirstResolved(page.value, id)
  }

  lemma {:induction false} LearntOnce(venue: Venue, id: string, rounds: nat, more: nat)
    requires rounds <= more && Learnt(venue, id, rounds).Some?
    ensures Learnt(venue, id, more) == Learnt(venue, id, rounds)
    decreases more
  {
    if rounds < more { LearntOnce(venue, id, rounds, more - 1); }
  }

  /** Nonempty identifiers, first occurrences only. */
  function Distinct(ids: seq<string>): (d: seq<string>)
    ensures forall id :: id in d <==> id in ids && id != ""
    ensures forall i, j :: 0 <= i < j < |d| ==> d[i] != d[j]
    decreases |ids|
  {
    if ids == [] then []
    else
      var front, last := ids[..|ids| - 1], ids[|ids| - 1];
      assert ids == front + [last];
      var d := Distinct(front);
      if last == "" || last in d then d else d + [last]
  }

  function Present(outcomes: seq<Option<Trade>>): seq<Trade> {
    if outcomes == [] then []
    else (if outcomes[0].Some? then [outcomes[0].value] else []) + Present(outcomes[1..])
  }

  function Outcomes(venue: Venue, ids: seq<string>, rounds: nat): (o: seq<Option<Trade>>)
    ensures |o| == |ids| && forall k :: 0 <= k < |o| ==> o[k] == Learnt(venue, ids[k], rounds)
  {
    seq(|ids|, k requires 0 <= k < |ids| => Learnt(venue, ids[k], rounds))
  }

  function ResolvedTrades(venue: Venue, ids: seq<string>, rounds: nat): seq<Trade> {
    Present(Outcomes(venue, Distinct(ids), rounds))
  }

  /** Polls every unresolved trade once a round until all are resolved, or until the round
      numbered `lastRound`, after which the clock is past the deadline. */
  method WaitForResolvedTrades(tradeIds: seq<string>, venue: Venue, lastRound: nat) returns (trades: seq<Trade>)
    ensures trades == ResolvedTrades(venue, tradeIds, lastRound + 1)
  {
    hide Learnt, AllSome;
    var ids: seq<string> := [];
    for i := 0 to |tradeIds|
      invariant ids == Distinct(tradeIds[..i])
    {
      assert tradeIds[..i + 1][..i] == tradeIds[..i];
      if tradeIds[i] != "" && tradeIds[i] !in ids {
        ids := ids + [tradeIds[i]];
      }
    }
    assert tradeIds[..|tradeIds|] == tradeIds;
    if |ids| == 0 { return []; }

    var resolved := new Option<Trade>[|ids|](_ => None);
    NothingLearntYet(venue, ids);
    var round := 0;
    while true
      invariant round <= lastRound
      invariant resolved[..] == Outcomes(venue, ids, round)
      decreases lastRound - round
    {
      var _ := PollRound(ids, venue, round, resolved);
      var all := AllPresent(resolved);
      if all || round >= lastRound {
        LastOutcomes(venue, ids, round + 1, lastRound + 1);
        return Present(resolved[..]);
      }
      round := round + 1;
    }
  }

  /** The identifiers among the first `n` that earlier rounds have not resolved. */
  function Unresolved(venue: Venue, ids: seq<string>, round: nat, n: nat): seq<string>
    requires n <= |ids|
  {
    if n == 0 then []
    else Unresolved(venue, ids, round, n - 1) + if Learnt(venue, ids[n - 1], round).None? then [ids[n - 1]] else []
  }

  /** One round asks once for each trade not yet resolved, in order, and for no other. */
  method PollRound(ids: seq<string>, venue: Venue, round: nat, resolved: array<Option<Trade>>)
    returns (asked: seq<string>)
    requires resolved[..] == Outcomes(venue, ids, round)
    modifies resolved
    ensures resolved[..] == Outcomes(venue, ids, round + 1)
    ensures asked == Unresolved(venue, ids, round, |ids|)
  {
    asked := [];
    for index := 0 to resolved.Length
      invariant forall k :: 0 <= k < index ==> resolved[k] == Learnt(venue, ids[k], round + 1)
      invariant forall k :: index <= k < |ids| ==> resolved[k] == Learnt(venue, ids[k], round)
      invariant asked == Unresolved(venue, ids, round, index)
    {
      if resolved[index].None? {
        asked := asked + [ids[index]];
        var page := venue(round, ids[index]);
        if page.Some? {
          resolved[index] := FirstResolved(page.value, ids[index]);
        }
      }
    }
  }

  lemma NothingLearntYet(venue: Venue, ids: seq<string>)
    ensures Outcomes(venue, ids, 0) == seq(|ids|, _ => None)
  {
  }

  predicate AllSome(outcomes: seq<Option<Trade>>) {
    forall k :: 0 <= k < |outcomes| ==> outcomes[k].Some?
  }

  /** Once every trade is resolved, or at the last round, more rounds change nothing. */
  lemma LastOutcomes(venue: Venue, ids: seq<string>, rounds: nat, more: nat)
    requires rounds == more || (rounds <= more && AllSome(Outcomes(venue, ids, rounds)))
    ensures Outcomes(venue, ids, rounds) == Outcomes(venue, ids, more)
  {
    hide Learnt;
    if rounds != more {
      var outcomes := Outcomes(venue, ids, rounds);
      forall k | 0 <= k < |ids| ensures outcomes[k] == Outcomes(venue, ids, more)[k] {
        assert outcomes[k].Some?;
        LearntOnce(venue, ids[k], rounds, more);
      }
    }
  }

  method AllPresent(resolved: array<Option<Trade>>) returns (all: bool)
    ensures all <==> AllSome(resolved[..])
  {
    for k := 0 to resolved.Length
      invariant AllSome(resolved[..k])
    {
      if resolved[k].None? { return false; }
    }
    return true;
  }

  // ---- one response -----------------------------------------------------------------------------

  function WithHashes(response: Response, hashes: seq<nat>): Response {
    if hashes == [] then response else response.(hashes := hashes)
  }

  /** One response resolved in a polling window of its own. */
  function Alone(response: Response, venue: Venue, rounds: nat): Response {
    if response.hashes != [] || response.tradeIds == [] then response
    else WithHashes(response, TransactionHashesFor(response.tradeIds, ResolvedTrades(venue, response.tradeIds, rounds)))
  }

  method ResolveTransactionHashes(response: Response, venue: Venue, lastRound: nat) returns (enriched: Response)
    ensures enriched == Alone(response, venue, lastRound + 1)
  {
    if response.hashes != [] || response.tradeIds == [] { return response; }
    var resolvedTrades := WaitForResolvedTrades(response.tradeIds, venue, lastRound);
    var hashes := TransactionHashesFor(response.tradeIds, resolvedTrades);
    return WithHashes(response, hashes);
  }

  // ---- a batch of responses -----------------------------------------------------------------------

  /** The venue may answer with more responses than orders; the extra ones are not deferred. */
  predicate IsDeferred(deferred: seq<bool>, index: nat) {
    index < |deferred| && deferred[index]
  }

  predicate Pending(deferred: seq<bool>, responses: seq<Response>, index: nat)
    requires index < |responses|
  {
    !IsDeferred(deferred, index) && responses[index].hashes == []
  }

  /** Every trade identifier of the pending responses, in order. */
  function PendingIds(deferred: seq<bool>, responses: seq<Response>, n: nat): (ids: seq<string>)
    requires n <= |responses|
    ensures forall i, id :: 0 <= i < n && Pending(deferred, responses, i) && id in responses[i].tradeIds ==> id in ids
    ensures ids == [] ==> forall i :: 0 <= i < n && Pending(deferred, responses, i) ==> responses[i].tradeIds == []
  {
    if n == 0 then []
    else PendingIds(deferred, responses, n - 1)
         + if Pending(deferred, responses, n - 1) then responses[n - 1].tradeIds else []
  }

  function Batch(deferred: seq<bool>, responses: seq<Response>, venue: Venue, rounds: nat): (b: seq<Response>)
    ensures |b| == |responses|
  {
    var trades := ResolvedTrades(venue, PendingIds(deferred, responses, |responses|), rounds);
    seq(|responses|, i requires 0 <= i < |responses| =>
      if Pending(deferred, responses, i)
      then WithHashes(responses[i], TransactionHashesFor(responses[i].tradeIds, trades))
      else responses[i])
  }

  /** The whole batch, rewritten in place against one polling window. */
  method EnrichBatch(deferred: seq<bool>, responses: array<Response>, venue: Venue, lastRound: nat)
    modifies responses
    ensures responses[..] == Batch(deferred, old(responses[..]), venue, lastRound + 1)
  {
    ghost var before := responses[..];
    var ids: seq<string> := [];
    for i := 0 to responses.Length
      invariant responses[..] == before && ids == PendingIds(deferred, before, i)
    {
      if !IsDeferred(deferred, i) && responses[i].hashes == [] {
        ids := ids + responses[i].tradeIds;
      }
    }
    if ids == [] {
      NothingPending(deferred, before, venue, lastRound + 1);
      return;
    }
    var resolvedTrades := WaitForResolvedTrades(ids, venue, lastRound);
    ghost var after := Batch(deferred, before, venue, lastRound + 1);
    for index := 0 to responses.Length
      invariant forall k :: 0 <= k < index ==> responses[k] == after[k]
      invariant forall k :: index <= k < responses.Length ==> responses[k] == before[k]
    {
      if IsDeferred(deferred, index) || responses[index].hashes != [] { continue; }
      var hashes := TransactionHashesFor(responses[index].tradeIds, resolvedTrades);
      if hashes != [] {
        responses[index] := responses[index].(hashes := hashes);
      }
    }
    assert responses[..] == after;
  }

  lemma NothingPending(deferred: seq<bool>, responses: seq<Response>, venue: Venue, rounds: nat)
    requires PendingIds(deferred, responses, |responses|) == []
    ensures Batch(deferred, responses, venue, rounds) == responses
  {
  }

  // ---- batch and alone agree ------------------------------------------------------------------------

  lemma {:induction false} FindPresent(venue: Venue, ids: seq<string>, rounds: nat, id: string)
    ensures FindTrade(Present(Outcomes(venue, ids, rounds)), id)
         == if id in ids then Learnt(venue, id, rounds) else None
    decreases |ids|
  {
    hide Learnt;
    var outcomes := Outcomes(venue, ids, rounds);
    if ids != [] {
      assert outcomes[1..] == Outcomes(venue, ids[1..], rounds);
      FindPresent(venue, ids[1..], rounds, id);
      FindInPresent(outcomes, id);
      assert ids == [ids[0]] + ids[1..];
    }
  }

  lemma FindInPresent(outcomes: seq<Option<Trade>>, id: string)
    requires outcomes != []
    ensures FindTrade(Present(outcomes), id)
         == if outcomes[0].Some? && outcomes[0].value.id == id then outcomes[0]
            else FindTrade(Present(outcomes[1..]), id)
  {
    var rest := Present(outcomes[1..]);
    if outcomes[0].Some? {
      assert ([outcomes[0].value] + rest)[1..] == rest;
    } else {
      assert [] + rest == rest;
    }
  }

  /** The hashes the venue's answers give for these identifiers, one identifier at a time. */
  function SettledHashes(venue: Venue, ids: seq<string>, rounds: nat): seq<nat> {
    if ids == [] then []
    else (if ids[0] == "" then [] else Settlement(Learnt(venue, ids[0], rounds)))
         + SettledHashes(venue, ids[1..], rounds)
  }

  /** Whatever else was polled in the same window, an identifier contributes the same hash. */
  lemma {:induction false} PoolDoesNotMatter(venue: Venue, pool: seq<string>, ids: seq<string>, rounds: nat)
    requires forall id :: id in ids ==> id in pool
    ensures TransactionHashesFor(ids, ResolvedTrades(venue, pool, rounds)) == SettledHashes(venue, ids, rounds)
    decreases |ids|
  {
    if ids != [] {
      assert ids[0] in pool;
      FindPresent(venue, Distinct(pool), rounds, ids[0]);
      PoolDoesNotMatter(venue, pool, ids[1..], rounds);
    }
  }

  /** The venue's answer about a trade does not change from round to round. */
  ghost predicate Steady(venue: Venue) {
    forall round: nat, id: string :: venue(round, id) == venue(0, id)
  }

  lemma {:induction false} SteadyLearntAtOnce(venue: Venue, id: string, rounds: nat)
    requires Steady(venue) && rounds >= 1
    ensures Learnt(venue, id, rounds) == Answer(venue, id, 0)
    decreases rounds
  {
    if rounds > 1 { SteadyLearntAtOnce(venue, id, rounds - 1); }
    assert venue(rounds - 1, id) == venue(0, id);
  }

  lemma {:induction false} SteadyHashes(venue: Venue, ids: seq<string>, rounds: nat, others: nat)
    requires Steady(venue) && rounds >= 1 && others >= 1
    ensures SettledHashes(venue, ids, rounds) == SettledHashes(venue, ids, others)
    decreases |ids|
  {
    if ids != [] {
      SteadyLearntAtOnce(venue, ids[0], rounds);
      SteadyLearntAtOnce(venue, ids[0], others);
      SteadyHashes(venue, ids[1..], rounds, others);
    }
  }

  /** Resolving a batch in one window gives each response that is not deferred exactly what
      resolving it alone gives: the same hashes in the same order. The two windows may have
      different lengths when the answers are steady. Deferred responses stay as they are. */
  lemma BatchAgreesWithAlone(deferred: seq<bool>, responses: seq<Response>, venue: Venue, rounds: nat, alone: nat, i: nat)
    requires i < |responses|
    requires rounds == alone || (Steady(venue) && rounds >= 1 && alone >= 1)
    ensures Batch(deferred, responses, venue, rounds)[i]
         == if i < |deferred| && deferred[i] then responses[i] else Alone(responses[i], venue, alone)
  {
    var ids := responses[i].tradeIds;
    if Pending(deferred, responses, i) {
      PoolDoesNotMatter(venue, PendingIds(deferred, responses, |responses|), ids, rounds);
      PoolDoesNotMatter(venue, ids, ids, alone);
      if rounds != alone { SteadyHashes(venue, ids, rounds, alone); }
    }
  }

  lemma {:induction false} HashHasSource(venue: Venue, ids: seq<string>, rounds: nat, hash: nat) returns (id: string, trade: Trade, round: nat)
    requires hash in SettledHashes(venue, ids, rounds)
    ensures id in ids && round < rounds && venue(round, id).Some? && trade in venue(round, id).value
    ensures trade.id == id && !trade.failed && trade.hash == hash != 0
    decreases |ids|
  {
    if ids[0] != "" && hash in Settlement(Learnt(venue, ids[0], rounds)) {
      id := ids[0];
      round := LearntFrom(venue, id, rounds);
      trade := Learnt(venue, id, rounds).value;
    } else {
      id, trade, round := HashHasSource(venue, ids[1..], rounds, hash);
    }
  }

  lemma {:induction false} LearntFrom(venue: Venue, id: string, rounds: nat) returns (round: nat)
    requires Learnt(venue, id, rounds).Some?
    ensures round < rounds && venue(round, id).Some? && Learnt(venue, id, rounds).value in venue(round, id).value
    decreases rounds
  {
    if Learnt(venue, id, rounds - 1).Some? {
      round := LearntFrom(venue, id, rounds - 1);
    } else {
      round := rounds - 1;
    }
  }

  /** A response that changed had no hashes before, keeps everything else, and each hash it
      gained was answered by the venue for one of its own trades, which had not failed. */
  lemma HashesComeFromItsOwnSettledTrades(
      deferred: seq<bool>, responses: seq<Response>, venue: Venue, rounds: nat, i: nat, hash: nat)
      returns (trade: Trade, round: nat)
    requires i < |responses| && Batch(deferred, responses, venue, rounds)[i] != responses[i]
    requires hash in Batch(deferred, responses, venue, rounds)[i].hashes
    ensures Batch(deferred, responses, venue, rounds)[i].(hashes := []) == responses[i]
    ensures !IsDeferred(deferred, i)
    ensures trade.id in responses[i].tradeIds && !trade.failed && trade.hash == hash != 0
    ensures round < rounds && venue(round, trade.id).Some? && trade in venue(round, trade.id).value
  {
    var ids := responses[i].tradeIds;
    PoolDoesNotMatter(venue, PendingIds(deferred, responses, |responses|), ids, rounds);
    var id;
    id, trade, round := HashHasSource(venue, ids, rounds, hash);
  }


  // ---- what the venue's own answers promise ----------------------------------------------------------

  /** An entry of the page that ends the waiting for trade `id`: it failed, or has its hash. */
  predicate Ends(page: seq<Trade>, q: nat, id: string)
    requires q < |page|
  {
    page[q].id == id && (page[q].failed || page[q].hash != 0)
  }

  /** No entry answered for `id` in this round ends the waiting. */
  ghost predicate Silent(venue: Venue, id: string, round: nat) {
    venue(round, id).Some? ==> forall q :: 0 <= q < |venue(round, id).value| ==> !Ends(venue(round, id).value, q, id)
  }

  /** Round `r` is the first to end the waiting for `id`, at entry `q` of its page. */
  ghost predicate EndsFirst(venue: Venue, id: string, r: nat, q: nat) {
    && (forall m :: 0 <= m < r ==> Silent(venue, id, m))
    && venue(r, id).Some? && q < |venue(r, id).value| && Ends(venue(r, id).value, q, id)
    && forall e :: 0 <= e < q ==> !Ends(venue(r, id).value, e, id)
  }

  lemma {:induction false} FirstResolvedIs(page: seq<Trade>, id: string, q: nat)
    requires q < |page| && Ends(page, q, id) && forall e :: 0 <= e < q ==> !Ends(page, e, id)
    ensures FirstResolved(page, id) == Some(page[q])
    decreases q
  {
    if q > 0 {
      assert !Ends(page, 0, id);
      forall e | 0 <= e < q - 1 ensures !Ends(page[1..], e, id) {
        assert !Ends(page, e + 1, id);
      }
      FirstResolvedIs(page[1..], id, q - 1);
    }
  }

  lemma SilentAnswersNothing(venue: Venue, id: string, round: nat)
    ensures Answer(venue, id, round).None? <==> Silent(venue, id, round)
  {
    if venue(round, id).Some? {
      var page := venue(round, id).value;
      if FirstResolved(page, id).Some? {
        var t := FirstResolved(page, id).value;
        var q :| 0 <= q < |page| && page[q] == t;
        assert Ends(page, q, id);
      } else {
        forall q | 0 <= q < |page| ensures !Ends(page, q, id) {
          assert page[q] in page;
        }
      }
    }
  }

  lemma {:induction false} NothingLearntIff(venue: Venue, id: string, rounds: nat)
    ensures Learnt(venue, id, rounds).None? <==> forall m :: 0 <= m < rounds ==> Silent(venue, id, m)
    decreases rounds
  {
    hide Silent;
    if rounds > 0 {
      NothingLearntIff(venue, id, rounds - 1);
      SilentAnswersNothing(venue, id, rounds - 1);
    }
  }

  lemma LearntFirst(venue: Venue, id: string, rounds: nat, r: nat, q: nat)
    requires r < rounds && EndsFirst(venue, id, r, q)
    ensures Learnt(venue, id, rounds) == Some(venue(r, id).value[q])
  {
    hide Silent;
    NothingLearntIff(venue, id, r);
    FirstResolvedIs(venue(r, id).value, id, q);
    LearntOnce(venue, id, r + 1, rounds);
  }

  lemma {:induction false} SettledHashesHave(venue: Venue, ids: seq<string>, rounds: nat, k: nat)
    requires k < |ids| && ids[k] != ""
    requires Learnt(venue, ids[k], rounds).Some?
    requires !Learnt(venue, ids[k], rounds).value.failed && Learnt(venue, ids[k], rounds).value.hash != 0
    ensures Learnt(venue, ids[k], rounds).value.hash in SettledHashes(venue, ids, rounds)
    decreases k
  {
    hide Learnt;
    if k > 0 {
      assert ids[1..][k - 1] == ids[k];
      SettledHashesHave(venue, ids[1..], rounds, k - 1);
    }
  }

  /** Completeness: when the first answer in the window that ends the waiting for a trade shows
      it settled, its hash reaches every response without hashes that names the trade and is
      not deferred, whether resolved in a batch or alone. */
  lemma SettledHashArrives(deferred: seq<bool>, responses: seq<Response>, venue: Venue, rounds: nat,
                           i: nat, id: string, r: nat, q: nat)
    requires i < |responses| && responses[i].hashes == [] && id in responses[i].tradeIds && id != ""
    requires r < rounds && EndsFirst(venue, id, r, q) && !venue(r, id).value[q].failed
    ensures venue(r, id).value[q].hash in Alone(responses[i], venue, rounds).hashes
    ensures !(i < |deferred| && deferred[i]) ==>
              venue(r, id).value[q].hash in Batch(deferred, responses, venue, rounds)[i].hashes
  {
    hide Learnt, EndsFirst, FindTrade;
    var ids := responses[i].tradeIds;
    LearntFirst(venue, id, rounds, r, q);
    var k :| 0 <= k < |ids| && ids[k] == id;
    assert venue(r, id).value[q].hash != 0 by { EndingHasHash(venue, id, r, q); }
    SettledHashesHave(venue, ids, rounds, k);
    PoolDoesNotMatter(venue, ids, ids, rounds);
    BatchAgreesWithAlone(deferred, responses, venue, rounds, rounds, i);
  }

  lemma EndingHasHash(venue: Venue, id: string, r: nat, q: nat)
    requires EndsFirst(venue, id, r, q)
    ensures venue(r, id).Some? && q < |venue(r, id).value|
    ensures !venue(r, id).value[q].failed ==> venue(r, id).value[q].hash != 0
  {
  }

  /** The hashes come in the order of the identifiers. */
  lemma {:induction false} HashesComeInOrder(venue: Venue, a: seq<string>, b: seq<string>, rounds: nat)
    ensures SettledHashes(venue, a + b, rounds) == SettledHashes(venue, a, rounds) + SettledHashes(venue, b, rounds)
    decreases |a|
  {
    hide Learnt;
    if a == [] {
      assert a + b == b;
    } else {
      assert (a + b)[1..] == a[1..] + b;
      HashesComeInOrder(venue, a[1..], b, rounds);
    }
  }

  /** A round asks for a trade exactly as long as no earlier answer ended the waiting for it. */
  lemma {:induction false} AskedIffStillWaiting(venue: Venue, ids: seq<string>, round: nat, n: nat, id: string)
    requires n <= |ids|
    ensures id in Unresolved(venue, ids, round, n) <==>
            id in ids[..n] && forall m :: 0 <= m < round ==> Silent(venue, id, m)
    decreases n
  {
    hide Learnt, Silent;
    if n > 0 {
      AskedIffStillWaiting(venue, ids, round, n - 1, id);
      NothingLearntIff(venue, ids[n - 1], round);
      assert ids[..n] == ids[..n - 1] + [ids[n - 1]];
      assert id in ids[..n] <==> id in ids[..n - 1] || id == ids[n - 1];
    }
  }

  /** A response that is deferred, or already has hashes, is left as it is. */
  lemma OthersAreLeftAlone(deferred: seq<bool>, responses: seq<Response>, venue: Venue, rounds: nat, i: nat)
    requires i < |responses| && ((i < |deferred| && deferred[i]) || responses[i].hashes != [])
    ensures Batch(deferred, responses, venue, rounds)[i] == responses[i]
  {
  }
}
