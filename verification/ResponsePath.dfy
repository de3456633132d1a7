/** Which structural paths may appear in a diagnostic, and the ones the trade decoder names. */
module ResponsePath {
  import opened Text

  datatype Endpoint = ProtocolVersion | Trades | Order | BalanceAllowance | Positions

  const TRADE_FIELDS := [
    "asset_id", "bucket_index", "count", "data", "error_msg", "fee_rate_bps", "id", "last_update",
    "limit", "maker_address", "maker_orders", "market", "match_time", "matched_amount",
    "next_cursor", "order_id", "outcome", "owner", "price", "side", "size", "status",
    "taker_order_id", "trader_side", "transaction_hash"]
  const ORDER_FIELDS := [
    "asset_id", "count", "created_at", "data", "expiration", "id", "limit", "market",
    "next_cursor", "original_size", "price", "side", "size_matched", "status"]
  const BALANCE_FIELDS := ["allowances", "balance"]
  const VERSION_FIELDS := ["version"]
  const POSITION_FIELDS := [
    "asset", "avgPrice", "conditionId", "mergeable", "outcome", "proxyWallet", "redeemable",
    "size", "slug"]

  function FieldsOf(endpoint: Endpoint): seq<string> {
    match endpoint
    case ProtocolVersion => VERSION_FIELDS
    case Trades => TRADE_FIELDS
    case Order => ORDER_FIELDS
    case BalanceAllowance => BALANCE_FIELDS
    case Positions => POSITION_FIELDS
  }

  // ---- splitting at dots --------------------------------------------------------------------

  function SplitDots(s: string): (segments: seq<string>)
    ensures segments != []
  {
    if s == "" then [""]
    else
      var rest := SplitDots(s[1..]);
      if s[0] == '.' then [""] + rest else [[s[0]] + rest[0]] + rest[1..]
  }

  function JoinDots(segments: seq<string>): string
    requires segments != []
  {
    if |segments| == 1 then segments[0] else segments[0] + "." + JoinDots(segments[1..])
  }

  lemma {:induction false} JoinUndoesSplit(s: string)
    ensures JoinDots(SplitDots(s)) == s
    ensures forall i :: 0 <= i < |SplitDots(s)| ==> '.' !in SplitDots(s)[i]
  {
    if s != "" {
      var rest := SplitDots(s[1..]);
      JoinUndoesSplit(s[1..]);
      assert s == [s[0]] + s[1..];
      if s[0] == '.' {
        assert ([""] + rest)[1..] == rest;
      } else {
        assert ([[s[0]] + rest[0]] + rest[1..])[1..] == rest[1..];
      }
    }
  }

  lemma {:induction false} SplitAfter(segment: string, s: string)
    requires '.' !in segment
    ensures SplitDots(segment) == [segment]
    ensures SplitDots(segment + "." + s) == [segment] + SplitDots(s)
    decreases |segment|
  {
    var whole := segment + "." + s;
    if segment == "" {
      assert whole[1..] == s;
    } else {
      assert whole[1..] == segment[1..] + "." + s;
      assert segment == [segment[0]] + segment[1..];
      SplitAfter(segment[1..], s);
    }
  }

  lemma {:induction false} SplitUndoesJoin(segments: seq<string>)
    requires segments != [] && forall i :: 0 <= i < |segments| ==> '.' !in segments[i]
    ensures SplitDots(JoinDots(segments)) == segments
    decreases |segments|
  {
    if |segments| == 1 {
      SplitAfter(segments[0], "");
    } else {
      SplitUndoesJoin(segments[1..]);
      SplitAfter(segments[0], JoinDots(segments[1..]));
    }
  }

  // ---- recognizing ----------------------------------------------------------------------------

  predicate IndexRun(s: string)
    decreases |s|
  {
    s == "" || (
      && s[0] == '['
      && var index := s[1..];
         var end := FirstOf(index, ']');
         end < |index| && end > 0 && AllDigits(index[..end]) && IndexRun(index[end + 1..]))
  }

  predicate SegmentIsSafe(fields: seq<string>, segment: string) {
    var end := FirstOf(segment, '[');
    segment[..end] in fields && IndexRun(segment[end..])
  }

  predicate PathIsSafe(endpoint: Endpoint, path: string) {
    path == "?" || forall i :: 0 <= i < |SplitDots(path)| ==> SegmentIsSafe(FieldsOf(endpoint), SplitDots(path)[i])
  }

  method ComputePathIsSafe(endpoint: Endpoint, path: string) returns (safe: bool)
    ensures safe == PathIsSafe(endpoint, path)
  {
    hide FieldsOf, SplitDots, FirstOf, IndexRun;
    if path == "?" { return true; }
    var fields, segments := FieldsOf(endpoint), SplitDots(path);
    for i := 0 to |segments|
      invariant forall j :: 0 <= j < i ==> SegmentIsSafe(fields, segments[j])
    {
      var segment := segments[i];
      var fieldEnd := FirstOf(segment, '[');
      if segment[..fieldEnd] !in fields { return false; }
      var accepted := ComputeIndexRun(segment[fieldEnd..]);
      if !accepted { return false; }
    }
    return true;
  }

  method ComputeIndexRun(suffix: string) returns (accepted: bool)
    ensures accepted == IndexRun(suffix)
  {
    var indexes := suffix;
    while indexes != ""
      invariant IndexRun(suffix) == IndexRun(indexes)
      decreases |indexes|
    {
      if indexes[0] != '[' { return false; }
      var index := indexes[1..];
      var end := FirstOf(index, ']');
      if end == |index| { return false; }
      var digits, remaining := index[..end], index[end..];
      if digits == "" || !AllDigits(digits) { return false; }
      assert remaining[1..] == index[end + 1..];
      indexes := remaining[1..];
    }
    return true;
  }

  // ---- generating --------------------------------------------------------------------------------

  /** An owned field followed by digit strings in brackets. */
  datatype PathStep = PathStep(field: string, indexes: seq<string>)

  predicate Generated(fields: seq<string>, step: PathStep) {
    && step.field in fields
    && forall i :: 0 <= i < |step.indexes| ==> IsIndex(step.indexes[i])
  }

  function PrintIndexes(indexes: seq<string>): string {
    if indexes == [] then "" else "[" + indexes[0] + "]" + PrintIndexes(indexes[1..])
  }

  function PrintStep(step: PathStep): string {
    step.field + PrintIndexes(step.indexes)
  }

  function PrintSteps(steps: seq<PathStep>): (segments: seq<string>)
    ensures |segments| == |steps|
    ensures forall i :: 0 <= i < |steps| ==> segments[i] == PrintStep(steps[i])
  {
    seq(|steps|, i requires 0 <= i < |steps| => PrintStep(steps[i]))
  }

  function PrintPath(steps: seq<PathStep>): string
    requires steps != []
  {
    JoinDots(PrintSteps(steps))
  }

  /** No owned field holds a dot or a bracket. */
  predicate PlainFields(fields: seq<string>) {
    forall i :: 0 <= i < |fields| ==> PlainField(fields[i])
  }

  predicate PlainField(field: string) {
    '.' !in field && '[' !in field
  }

  lemma OwnedFieldsArePlain(endpoint: Endpoint)
    ensures PlainFields(FieldsOf(endpoint))
  {
    hide PlainField;
    TradeFieldsArePlain();
    OrderFieldsArePlain();
    OtherFieldsArePlain();
  }

  lemma TradeFieldsArePlain()
    ensures PlainFields(TRADE_FIELDS)
  {
    hide PlainField;
    FirstTradeFieldsArePlain();
    MiddleTradeFieldsArePlain();
    LastTradeFieldsArePlain();
  }

  lemma FirstTradeFieldsArePlain()
    ensures forall i :: 0 <= i < 9 ==> PlainField(TRADE_FIELDS[i])
  {
  }

  lemma MiddleTradeFieldsArePlain()
    ensures forall i :: 9 <= i < 17 ==> PlainField(TRADE_FIELDS[i])
  {
  }

  lemma LastTradeFieldsArePlain()
    ensures forall i :: 17 <= i < 25 ==> PlainField(TRADE_FIELDS[i])
  {
  }

  lemma OrderFieldsArePlain()
    ensures PlainFields(ORDER_FIELDS)
  {
  }

  lemma OtherFieldsArePlain()
    ensures PlainFields(BALANCE_FIELDS) && PlainFields(VERSION_FIELDS) && PlainFields(POSITION_FIELDS)
  {
    hide PlainField;
    ShortFieldsArePlain();
    PositionFieldsArePlain();
  }

  lemma ShortFieldsArePlain()
    ensures PlainFields(BALANCE_FIELDS) && PlainFields(VERSION_FIELDS)
  {
  }

  lemma PositionFieldsArePlain()
    ensures PlainFields(POSITION_FIELDS)
  {
  }

  /** The indexes a bracketed run holds. */
  function ParseIndexes(s: string): (indexes: seq<string>)
    requires IndexRun(s)
    ensures PrintIndexes(indexes) == s
    ensures forall i :: 0 <= i < |indexes| ==> IsIndex(indexes[i])
    decreases |s|
  {
    if s == "" then []
    else
      var index := s[1..];
      var end := FirstOf(index, ']');
      var rest := ParseIndexes(index[end + 1..]);
      assert s == "[" + index[..end] + "]" + index[end + 1..];
      assert ([index[..end]] + rest)[1..] == rest;
      [index[..end]] + rest
  }

  lemma FirstIndex(digits: string, tail: string)
    requires AllDigits(digits)
    ensures var index := ("[" + digits + "]" + tail)[1..];
            FirstOf(index, ']') == |digits| && index[..|digits|] == digits && index[|digits| + 1..] == tail
  {
    var index := digits + "]" + tail;
    assert ("[" + digits + "]" + tail)[1..] == index;
    assert index[..|digits|] == digits;
    FirstOfIs(index, ']', |digits|);
  }

  predicate IsIndex(digits: string) {
    digits != "" && AllDigits(digits)
  }

  lemma OneIndexRuns(digits: string, tail: string)
    requires IsIndex(digits) && IndexRun(tail)
    ensures IndexRun("[" + digits + "]" + tail)
    ensures ParseIndexes("[" + digits + "]" + tail) == [digits] + ParseIndexes(tail)
  {
    hide FirstOf;
    FirstIndex(digits, tail);
  }

  lemma {:induction false} PrintedIndexesRun(indexes: seq<string>)
    requires forall i :: 0 <= i < |indexes| ==> IsIndex(indexes[i])
    ensures IndexRun(PrintIndexes(indexes)) && ParseIndexes(PrintIndexes(indexes)) == indexes
    decreases |indexes|
  {
    if indexes != [] {
      hide FirstOf, IndexRun, ParseIndexes, IsIndex;
      PrintedIndexesRun(indexes[1..]);
      OneIndexRuns(indexes[0], PrintIndexes(indexes[1..]));
      assert indexes == [indexes[0]] + indexes[1..];
    }
  }

  lemma {:induction false} PrintedIndexesHoldNoDot(indexes: seq<string>)
    requires forall i :: 0 <= i < |indexes| ==> IsIndex(indexes[i])
    ensures '.' !in PrintIndexes(indexes)
    decreases |indexes|
  {
    if indexes != [] {
      PrintedIndexesHoldNoDot(indexes[1..]);
      DigitsHoldNoDot(indexes[0]);
    }
  }

  lemma DigitsHoldNoDot(digits: string)
    requires AllDigits(digits)
    ensures '.' !in digits
  {
  }

  function ParseStep(segment: string): (step: PathStep)
    requires IndexRun(segment[FirstOf(segment, '[')..])
    ensures PrintStep(step) == segment
  {
    var end := FirstOf(segment, '[');
    assert segment == segment[..end] + segment[end..];
    PathStep(segment[..end], ParseIndexes(segment[end..]))
  }

  lemma GeneratedIsSafe(fields: seq<string>, step: PathStep)
    requires PlainFields(fields) && Generated(fields, step)
    ensures SegmentIsSafe(fields, PrintStep(step)) && ParseStep(PrintStep(step)) == step
    ensures '.' !in PrintStep(step)
  {
    var s := PrintStep(step);
    PrintedIndexesRun(step.indexes);
    PrintedIndexesHoldNoDot(step.indexes);
    assert s[..|step.field|] == step.field && s[|step.field|..] == PrintIndexes(step.indexes);
    FirstOfIs(s, '[', |step.field|);
  }

  ghost predicate Generates(endpoint: Endpoint, steps: seq<PathStep>, path: string) {
    && steps != [] && PrintPath(steps) == path
    && forall i :: 0 <= i < |steps| ==> Generated(FieldsOf(endpoint), steps[i])
  }

  lemma SafeIsGenerated(endpoint: Endpoint, path: string) returns (steps: seq<PathStep>)
    requires path != "?" && PathIsSafe(endpoint, path)
    ensures Generates(endpoint, steps, path)
  {
    hide FieldsOf, FirstOf, SplitDots, IndexRun;
    var segments := SplitDots(path);
    steps := seq(|segments|, i requires 0 <= i < |segments| => ParseStep(segments[i]));
    assert PrintSteps(steps) == segments;
    JoinUndoesSplit(path);
    forall i | 0 <= i < |steps| ensures Generated(FieldsOf(endpoint), steps[i]) {
      assert SegmentIsSafe(FieldsOf(endpoint), segments[i]);
    }
  }

  /** The recognizer accepts exactly `?` and the dot-joined language of owned fields followed
      by bracketed digit strings. */
  lemma SafeIffGenerated(endpoint: Endpoint, path: string)
    ensures PathIsSafe(endpoint, path) <==> path == "?" || exists steps :: Generates(endpoint, steps, path)
  {
    hide PathIsSafe, Generates;
    if path == "?" {
      AlwaysSafe(endpoint);
    } else if PathIsSafe(endpoint, path) {
      var steps := SafeIsGenerated(endpoint, path);
    }
    forall steps | Generates(endpoint, steps, path) ensures PathIsSafe(endpoint, path) {
      GeneratedPathIsSafe(endpoint, steps, path);
    }
  }

  lemma AlwaysSafe(endpoint: Endpoint)
    ensures PathIsSafe(endpoint, "?")
  {
  }

  lemma GeneratedPathIsSafe(endpoint: Endpoint, steps: seq<PathStep>, path: string)
    requires Generates(endpoint, steps, path)
    ensures PathIsSafe(endpoint, path)
  {
    PrintedPathIsSafe(endpoint, steps);
  }

  lemma PrintedPathIsSafe(endpoint: Endpoint, steps: seq<PathStep>)
    requires steps != [] && forall i :: 0 <= i < |steps| ==> Generated(FieldsOf(endpoint), steps[i])
    ensures SplitDots(PrintPath(steps)) == PrintSteps(steps)
    ensures PathIsSafe(endpoint, PrintPath(steps))
  {
    OwnedFieldsArePlain(endpoint);
    forall i | 0 <= i < |steps|
      ensures SegmentIsSafe(FieldsOf(endpoint), PrintStep(steps[i])) && '.' !in PrintStep(steps[i])
    {
      GeneratedIsSafe(FieldsOf(endpoint), steps[i]);
    }
    SplitUndoesJoin(PrintSteps(steps));
  }

  /** A path is generated in one way only. */
  lemma GeneratedInOneWay(endpoint: Endpoint, a: seq<PathStep>, b: seq<PathStep>, path: string)
    requires Generates(endpoint, a, path) && Generates(endpoint, b, path)
    ensures a == b
  {
    OwnedFieldsArePlain(endpoint);
    PrintedPathIsSafe(endpoint, a);
    PrintedPathIsSafe(endpoint, b);
    forall i | 0 <= i < |a| ensures a[i] == b[i] {
      assert PrintSteps(a)[i] == PrintSteps(b)[i];
      GeneratedIsSafe(FieldsOf(endpoint), a[i]);
      GeneratedIsSafe(FieldsOf(endpoint), b[i]);
    }
  }


  // ---- owned fields and the fields on the wire ------------------------------------------------

  /** The field names an endpoint's decoder can name: those of its page, its rows and theirs. */
  function WireFields(endpoint: Endpoint): set<string> {
    match endpoint
    case ProtocolVersion => {"version"}
    case BalanceAllowance => {"balance", "allowances"}
    case Positions =>
      {"proxyWallet", "asset", "conditionId", "size", "avgPrice", "slug", "outcome", "redeemable", "mergeable"}
    case Order =>
      {"data", "next_cursor", "limit", "count"}
      + {"id", "status", "owner", "maker_address", "market", "asset_id", "side", "original_size", "size_matched",
         "price", "created_at", "expiration", "associate_trades", "outcome", "order_type"}
    case Trades =>
      {"data", "next_cursor", "limit", "count"}
      + {"id", "taker_order_id", "market", "asset_id", "side", "size", "fee_rate_bps", "fee_usdc", "price", "status",
         "match_time", "last_update", "outcome", "bucket_index", "owner", "maker_address", "maker_orders",
         "transaction_hash", "trader_side", "error_msg"}
      + {"order_id", "matched_amount"}
  }

  /** Wire fields whose names a diagnostic never shows. */
  function Withheld(endpoint: Endpoint): set<string> {
    match endpoint
    case Order => {"owner", "maker_address", "associate_trades", "outcome", "order_type"}
    case Trades => {"fee_usdc"}
    case _ => {}
  }

  /** Exactly the wire fields of an endpoint are owned by it, but for the withheld ones. */
  lemma OwnedIffOnWire(endpoint: Endpoint, field: string)
    ensures field in FieldsOf(endpoint) <==> field in WireFields(endpoint) && field !in Withheld(endpoint)
  {
    match endpoint
    case Trades => TradeFieldsOnWire(field);
    case Order => OrderFieldsOnWire(field);
    case Positions => PositionFieldsOnWire(field);
    case _ =>
  }

  lemma PositionFieldsOnWire(field: string)
    ensures field in POSITION_FIELDS <==> field in WireFields(Positions)
  {
  }

  lemma OrderFieldsOnWire(field: string)
    ensures field in ORDER_FIELDS <==> field in WireFields(Order) && field !in Withheld(Order)
  {
    if field in Withheld(Order) { WithheldOrderFieldIsNotOwned(field); }
  }

  lemma WithheldOrderFieldIsNotOwned(field: string)
    requires field in Withheld(Order)
    ensures field !in ORDER_FIELDS
  {
  }

  lemma TradeFieldsOnWire(field: string)
    ensures field in TRADE_FIELDS <==> field in WireFields(Trades) && field != "fee_usdc"
  {
    if field == "fee_usdc" { FeeUsdcIsNotOwned(); }
  }

  lemma FeeUsdcIsNotOwned()
    ensures "fee_usdc" !in TRADE_FIELDS
  {
  }
}
