/** What the trade decoder says about the first invalid field of a page. */
module TradeDiagnostics {
  import opened Authority
  import opened ResponsePath
  import opened Text

  datatype MakerOrder = MakerOrder(
    orderId: string, matchedAmount: real, price: real, feeRateBps: Option<real>, feeUsdc: Option<real>)

  datatype Trade = Trade(
    id: string, takerOrderId: string, size: real, price: real, feeRateBps: real, feeUsdc: Option<real>,
    makerOrders: seq<MakerOrder>)

  datatype EndpointError =
    | ResponseSchemaDecode(endpoint: Endpoint, path: string)
    | RequestFailed(endpoint: Endpoint)

  /** A path that is not safe is dropped together with the failure class. */
  function SchemaDecode(endpoint: Endpoint, path: string): EndpointError {
    if PathIsSafe(endpoint, path) then ResponseSchemaDecode(endpoint, path) else RequestFailed(endpoint)
  }

  function InvalidTradeField(trade: Trade): Option<string> {
    if !VenueIdentifierIsValid(trade.id) then Some("id")
    else if !VenueIdentifierIsValid(trade.takerOrderId) then Some("taker_order_id")
    else if trade.size < 0.0 then Some("size")
    else if trade.price < 0.0 || trade.price > 1.0 then Some("price")
    else if trade.feeRateBps < 0.0 then Some("fee_rate_bps")
    else if trade.feeUsdc.Some? && trade.feeUsdc.value < 0.0 then Some("fee_usdc")
    else None
  }

  function InvalidMakerField(order: MakerOrder): Option<string> {
    if !VenueIdentifierIsValid(order.orderId) then Some("order_id")
    else if order.matchedAmount < 0.0 then Some("matched_amount")
    else if order.price < 0.0 || order.price > 1.0 then Some("price")
    else if order.feeRateBps.Some? && order.feeRateBps.value < 0.0 then Some("fee_rate_bps")
    else if order.feeUsdc.Some? && order.feeUsdc.value < 0.0 then Some("fee_usdc")
    else None
  }

  function Indexed(field: string, index: nat): string {
    field + "[" + Decimal(index) + "]"
  }

  function TradePath(trade: nat, field: string): string {
    Indexed("data", trade) + "." + field
  }

  function MakerPath(trade: nat, maker: nat, field: string): string {
    Indexed("data", trade) + "." + (Indexed("maker_orders", maker) + "." + field)
  }

  function DecodeMakers(trade: nat, orders: seq<MakerOrder>, from: nat): Result<seq<MakerOrder>, EndpointError>
    requires from <= |orders|
    decreases |orders| - from
  {
    if from == |orders| then Ok([])
    else
      var invalid := InvalidMakerField(orders[from]);
      if invalid.Some? then Err(SchemaDecode(Trades, MakerPath(trade, from, invalid.value)))
      else
        var rest := DecodeMakers(trade, orders, from + 1);
        if rest.Err? then rest else Ok([orders[from]] + rest.value)
  }

  function DecodeTrade(index: nat, trade: Trade): Result<Trade, EndpointError> {
    var invalid := InvalidTradeField(trade);
    if invalid.Some? then Err(SchemaDecode(Trades, TradePath(index, invalid.value)))
    else
      var makers := DecodeMakers(index, trade.makerOrders, 0);
      if makers.Err? then Err(makers.error) else Ok(trade.(makerOrders := makers.value))
  }

  function DecodeTrades(trades: seq<Trade>, from: nat): Result<seq<Trade>, EndpointError>
    requires from <= |trades|
    decreases |trades| - from
  {
    if from == |trades| then Ok([])
    else
      var trade := DecodeTrade(from, trades[from]);
      if trade.Err? then Err(trade.error)
      else
        var rest := DecodeTrades(trades, from + 1);
        if rest.Err? then rest else Ok([trade.value] + rest.value)
  }

  // ---- places -----------------------------------------------------------------------------------

  /** Where a field stands: in a trade, or in one of its maker orders. */
  datatype Place = InTrade(trade: nat, field: string) | InMaker(trade: nat, maker: nat, field: string)

  function PathOf(place: Place): string {
    match place
    case InTrade(trade, field) => TradePath(trade, field)
    case InMaker(trade, maker, field) => MakerPath(trade, maker, field)
  }

  function StepsOf(place: Place): seq<PathStep> {
    match place
    case InTrade(trade, field) => [PathStep("data", [Decimal(trade)]), PathStep(field, [])]
    case InMaker(trade, maker, field) =>
      [PathStep("data", [Decimal(trade)]), PathStep("maker_orders", [Decimal(maker)]), PathStep(field, [])]
  }

  predicate ValidTrade(trade: Trade) {
    InvalidTradeField(trade).None? && forall j :: 0 <= j < |trade.makerOrders| ==> InvalidMakerField(trade.makerOrders[j]).None?
  }

  /** The field at `place` is invalid and everything read before it is valid. */
  ghost predicate FirstInvalid(trades: seq<Trade>, place: Place) {
    && place.trade < |trades|
    && (forall i :: 0 <= i < place.trade ==> ValidTrade(trades[i]))
    && var trade := trades[place.trade];
       match place
       case InTrade(_, field) => InvalidTradeField(trade) == Some(field)
       case InMaker(_, maker, field) =>
         && InvalidTradeField(trade).None? && maker < |trade.makerOrders|
         && InvalidMakerField(trade.makerOrders[maker]) == Some(field)
         && forall j :: 0 <= j < maker ==> InvalidMakerField(trade.makerOrders[j]).None?
  }

  lemma PrintOne(field: string, index: nat)
    ensures PrintStep(PathStep(field, [])) == field
    ensures PrintStep(PathStep(field, [Decimal(index)])) == Indexed(field, index)
  {
    hide Decimal;
    assert [Decimal(index)][1..] == [];
    assert field + "" == field;
    assert field + ("[" + Decimal(index) + "]" + "") == Indexed(field, index);
  }

  lemma JoinTwo(a: string, b: string)
    ensures JoinDots([a, b]) == a + "." + b
  {
    assert [a, b][1..] == [b];
  }

  lemma JoinThree(a: string, b: string, c: string)
    ensures JoinDots([a, b, c]) == a + "." + (b + "." + c)
  {
    assert [a, b, c][1..] == [b, c];
    JoinTwo(b, c);
  }

  /** The formatted path is the printed steps. */
  lemma PathIsPrinted(place: Place)
    ensures PrintPath(StepsOf(place)) == PathOf(place)
  {
    hide Indexed, PrintStep, JoinDots, Decimal;
    PrintOne("data", place.trade);
    PrintOne(place.field, 0);
    match place
    case InTrade(trade, field) =>
      assert PrintSteps(StepsOf(place)) == [Indexed("data", trade), field];
      JoinTwo(Indexed("data", trade), field);
    case InMaker(trade, maker, field) =>
      PrintOne("maker_orders", maker);
      assert PrintSteps(StepsOf(place)) == [Indexed("data", trade), Indexed("maker_orders", maker), field];
      JoinThree(Indexed("data", trade), Indexed("maker_orders", maker), field);
  }

  /** At every index, the path of an owned field survives and that of any other plain field
      degrades. */
  lemma PathSurvivesIffOwned(place: Place)
    requires PlainField(place.field)
    ensures PathIsSafe(Trades, PathOf(place)) <==> place.field in TRADE_FIELDS
  {
    hide PathOf, StepsOf, PathIsSafe, PlainField, SegmentIsSafe, SplitDots, PrintStep;
    if place.field in TRADE_FIELDS {
      StepsAreGenerated(place);
      GeneratedPathIsSafe(Trades, StepsOf(place), PathOf(place));
    } else {
      PathIsNotUnknown(place);
      PlainPathSplits(place);
      ForeignFieldIsUnsafe(place.field);
      StrayStepIsUnsafe(PathOf(place), |StepsOf(place)| - 1);
    }
  }

  lemma PathIsNotUnknown(place: Place)
    ensures PathOf(place) != "?" && StepsOf(place) != []
  {
    hide Decimal;
    assert PathOf(place)[0] == 'd';
  }

  lemma ForeignFieldIsUnsafe(field: string)
    requires PlainField(field) && field !in TRADE_FIELDS
    ensures !SegmentIsSafe(TRADE_FIELDS, field)
  {
    FirstOfIs(field, '[', |field|);
    assert field[..|field|] == field;
  }

  lemma StrayStepIsUnsafe(path: string, i: nat)
    requires path != "?" && i < |SplitDots(path)| && !SegmentIsSafe(TRADE_FIELDS, SplitDots(path)[i])
    ensures !PathIsSafe(Trades, path)
  {
  }

  lemma StepsAreGenerated(place: Place)
    requires place.field in TRADE_FIELDS
    ensures Generates(Trades, StepsOf(place), PathOf(place))
  {
    hide PathOf, PrintPath, Decimal, Generated;
    PathIsPrinted(place);
    DataIsOwned();
    IndexIsGenerated("data", place.trade);
    FieldIsGenerated(place.field);
    if place.InMaker? { IndexIsGenerated("maker_orders", place.maker); }
    assert FieldsOf(Trades) == TRADE_FIELDS;
  }

  lemma FieldIsGenerated(field: string)
    requires field in TRADE_FIELDS
    ensures Generated(TRADE_FIELDS, PathStep(field, []))
  {
  }

  lemma IndexIsGenerated(field: string, index: nat)
    requires field in TRADE_FIELDS
    ensures Generated(TRADE_FIELDS, PathStep(field, [Decimal(index)]))
  {
    hide Decimal;
  }

  lemma DataIsOwned()
    ensures "data" in TRADE_FIELDS && "maker_orders" in TRADE_FIELDS
  {
    assert TRADE_FIELDS[3] == "data" && TRADE_FIELDS[10] == "maker_orders";
  }

  lemma StepHoldsNoDot(step: PathStep)
    requires PlainField(step.field)
    requires forall i :: 0 <= i < |step.indexes| ==> IsIndex(step.indexes[i])
    ensures '.' !in PrintStep(step)
  {
    PrintedIndexesHoldNoDot(step.indexes);
  }

  lemma PlainPathSplits(place: Place)
    requires PlainField(place.field)
    ensures SplitDots(PathOf(place)) == PrintSteps(StepsOf(place))
    ensures PrintSteps(StepsOf(place))[|StepsOf(place)| - 1] == place.field
  {
    hide PathOf, PrintStep, Decimal, PlainField;
    var steps := StepsOf(place);
    PathIsPrinted(place);
    PrintOne(place.field, 0);
    DataIsPlain();
    forall i | 0 <= i < |steps| ensures '.' !in PrintStep(steps[i]) {
      StepHoldsNoDot(steps[i]);
    }
    SplitUndoesJoin(PrintSteps(steps));
  }

  lemma DataIsPlain()
    ensures PlainField("data") && PlainField("maker_orders")
  {
  }

  lemma InvalidFieldIsOwnedUnlessFeeUsdc(field: string)
    requires field in {"id", "taker_order_id", "size", "price", "fee_rate_bps", "order_id", "matched_amount", "fee_usdc"}
    ensures PlainField(field) && (field in TRADE_FIELDS <==> field != "fee_usdc")
  {
    var at := map["id" := 6, "taker_order_id" := 22, "size" := 20, "price" := 18, "fee_rate_bps" := 5,
                  "order_id" := 15, "matched_amount" := 13];
    if field != "fee_usdc" {
      assert TRADE_FIELDS[at[field]] == field;
    }
  }

  // ---- the decoder ------------------------------------------------------------------------------

  /** What the decoder reports for the first invalid field. */
  function Reported(place: Place): EndpointError {
    if place.field == "fee_usdc" then RequestFailed(Trades) else ResponseSchemaDecode(Trades, PathOf(place))
  }

  lemma InvalidIsReported(place: Place)
    requires place.field in {"id", "taker_order_id", "size", "price", "fee_rate_bps", "order_id", "matched_amount", "fee_usdc"}
    ensures SchemaDecode(Trades, PathOf(place)) == Reported(place)
  {
    InvalidFieldIsOwnedUnlessFeeUsdc(place.field);
    PathSurvivesIffOwned(place);
  }

  lemma {:induction false} MakersReportFirst(trade: nat, orders: seq<MakerOrder>, from: nat) returns (maker: nat)
    requires from <= |orders|
    ensures from <= maker <= |orders|
    ensures forall j :: from <= j < maker ==> InvalidMakerField(orders[j]).None?
    ensures maker == |orders| ==> DecodeMakers(trade, orders, from) == Ok(orders[from..])
    ensures maker < |orders| ==>
              && InvalidMakerField(orders[maker]).Some?
              && DecodeMakers(trade, orders, from) == Err(Reported(InMaker(trade, maker, InvalidMakerField(orders[maker]).value)))
    decreases |orders| - from
  {
    hide Reported, SchemaDecode, PathOf, MakerPath, InvalidMakerField;
    maker := from;
    if from < |orders| {
      var invalid := InvalidMakerField(orders[from]);
      if invalid.Some? {
        MakerReported(trade, from, orders[from], invalid.value);
      } else {
        maker := MakersReportFirst(trade, orders, from + 1);
        assert orders[from..] == [orders[from]] + orders[from + 1..];
      }
    } else {
      assert orders[from..] == [];
    }
  }

  lemma MakerReported(trade: nat, maker: nat, order: MakerOrder, field: string)
    requires InvalidMakerField(order) == Some(field)
    ensures SchemaDecode(Trades, MakerPath(trade, maker, field)) == Reported(InMaker(trade, maker, field))
  {
    hide SchemaDecode, Reported, MakerPath, VenueIdentifierIsValid;
    InvalidIsReported(InMaker(trade, maker, field));
  }

  lemma TradeReported(index: nat, trade: Trade, field: string)
    requires InvalidTradeField(trade) == Some(field)
    ensures SchemaDecode(Trades, TradePath(index, field)) == Reported(InTrade(index, field))
  {
    hide SchemaDecode, Reported, TradePath, VenueIdentifierIsValid;
    InvalidIsReported(InTrade(index, field));
  }

  lemma {:induction false} TradesReportFirst(trades: seq<Trade>, from: nat)
    requires from <= |trades| && forall i :: 0 <= i < from ==> ValidTrade(trades[i])
    ensures DecodeTrades(trades, from).Ok? ==>
              && DecodeTrades(trades, from).value == trades[from..]
              && forall i :: 0 <= i < |trades| ==> ValidTrade(trades[i])
    ensures DecodeTrades(trades, from).Err? ==>
              exists place :: FirstInvalid(trades, place) && DecodeTrades(trades, from).error == Reported(place)
    decreases |trades| - from
  {
    hide Reported, SchemaDecode, PathOf, TradePath, InvalidTradeField, InvalidMakerField, DecodeMakers;
    if from < |trades| {
      var trade := trades[from];
      var invalid := InvalidTradeField(trade);
      if invalid.Some? {
        TradeReported(from, trade, invalid.value);
        assert FirstInvalid(trades, InTrade(from, invalid.value));
      } else {
        var maker := MakersReportFirst(from, trade.makerOrders, 0);
        if maker < |trade.makerOrders| {
          assert FirstInvalid(trades, InMaker(from, maker, InvalidMakerField(trade.makerOrders[maker]).value));
        } else {
          assert trade.makerOrders[0..] == trade.makerOrders;
          assert ValidTrade(trade);
          TradesReportFirst(trades, from + 1);
          assert trades[from..] == [trade] + trades[from + 1..];
        }
      }
    }
  }

  /** A page decodes exactly when every trade is valid, and then unchanged; otherwise the
      report is about the first invalid field, whose path survives at every index unless the
      field is `fee_usdc`. */
  lemma DecodeReportsFirstInvalid(trades: seq<Trade>)
    ensures DecodeTrades(trades, 0).Ok? <==> forall i :: 0 <= i < |trades| ==> ValidTrade(trades[i])
    ensures DecodeTrades(trades, 0).Ok? ==> DecodeTrades(trades, 0).value == trades
    ensures DecodeTrades(trades, 0).Err? ==>
              exists place :: FirstInvalid(trades, place) && DecodeTrades(trades, 0).error == Reported(place)
  {
    hide DecodeTrades, Reported, InvalidTradeField, InvalidMakerField;
    TradesReportFirst(trades, 0);
    assert trades[0..] == trades;
  }

  /** A reported path names one place only. */
  lemma ReportedPathNamesOnePlace(a: Place, b: Place)
    requires a.field in TRADE_FIELDS && b.field in TRADE_FIELDS
    requires PathOf(a) == PathOf(b)
    ensures a == b
  {
    StepsAreGenerated(a);
    StepsAreGenerated(b);
    GeneratedInOneWay(Trades, StepsOf(a), StepsOf(b), PathOf(a));
    assert StepsOf(a)[0].indexes[0] == StepsOf(b)[0].indexes[0];
    assert Value(Decimal(a.trade)) == a.trade && Value(Decimal(b.trade)) == b.trade;
    if a.InMaker? {
      assert StepsOf(a)[1].indexes[0] == StepsOf(b)[1].indexes[0];
      assert Value(Decimal(a.maker)) == a.maker && Value(Decimal(b.maker)) == b.maker;
    }
  }


  // ---- what makes a field valid -------------------------------------------------------------

  /** The fields of a trade in the order they are checked, and what each must satisfy. */
  predicate TradeFieldOk(trade: Trade, k: nat) {
    match k
    case 0 => VenueIdentifierIsValid(trade.id)
    case 1 => VenueIdentifierIsValid(trade.takerOrderId)
    case 2 => trade.size >= 0.0
    case 3 => 0.0 <= trade.price <= 1.0
    case 4 => trade.feeRateBps >= 0.0
    case 5 => trade.feeUsdc.None? || trade.feeUsdc.value >= 0.0
    case _ => true
  }

  predicate MakerFieldOk(order: MakerOrder, k: nat) {
    match k
    case 0 => VenueIdentifierIsValid(order.orderId)
    case 1 => order.matchedAmount >= 0.0
    case 2 => 0.0 <= order.price <= 1.0
    case 3 => order.feeRateBps.None? || order.feeRateBps.value >= 0.0
    case 4 => order.feeUsdc.None? || order.feeUsdc.value >= 0.0
    case _ => true
  }

  const TRADE_CHECKS := ["id", "taker_order_id", "size", "price", "fee_rate_bps", "fee_usdc"]
  const MAKER_CHECKS := ["order_id", "matched_amount", "price", "fee_rate_bps", "fee_usdc"]

  /** A trade has no invalid field exactly when all six are in bounds, and otherwise the one
      named is the first that is not. */
  lemma InvalidTradeFieldIs(trade: Trade)
    ensures InvalidTradeField(trade).None? <==> forall k :: 0 <= k < 6 ==> TradeFieldOk(trade, k)
    ensures forall k :: 0 <= k < 6 && !TradeFieldOk(trade, k) && (forall j :: 0 <= j < k ==> TradeFieldOk(trade, j)) ==>
              InvalidTradeField(trade) == Some(TRADE_CHECKS[k])
  {
    hide VenueIdentifierIsValid;
    assert TradeFieldOk(trade, 0) <==> VenueIdentifierIsValid(trade.id);
    assert TradeFieldOk(trade, 1) <==> VenueIdentifierIsValid(trade.takerOrderId);
    assert TradeFieldOk(trade, 2) <==> trade.size >= 0.0;
    assert TradeFieldOk(trade, 3) <==> 0.0 <= trade.price <= 1.0;
    assert TradeFieldOk(trade, 4) <==> trade.feeRateBps >= 0.0;
    assert TradeFieldOk(trade, 5) <==> trade.feeUsdc.None? || trade.feeUsdc.value >= 0.0;
  }

  lemma InvalidMakerFieldIs(order: MakerOrder)
    ensures InvalidMakerField(order).None? <==> forall k :: 0 <= k < 5 ==> MakerFieldOk(order, k)
    ensures forall k :: 0 <= k < 5 && !MakerFieldOk(order, k) && (forall j :: 0 <= j < k ==> MakerFieldOk(order, j)) ==>
              InvalidMakerField(order) == Some(MAKER_CHECKS[k])
  {
    hide VenueIdentifierIsValid;
    assert MakerFieldOk(order, 0) <==> VenueIdentifierIsValid(order.orderId);
    assert MakerFieldOk(order, 1) <==> order.matchedAmount >= 0.0;
    assert MakerFieldOk(order, 2) <==> 0.0 <= order.price <= 1.0;
    assert MakerFieldOk(order, 3) <==> order.feeRateBps.None? || order.feeRateBps.value >= 0.0;
    assert MakerFieldOk(order, 4) <==> order.feeUsdc.None? || order.feeUsdc.value >= 0.0;
  }
}
