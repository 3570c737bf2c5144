/**
  `place_market_order`: checks the instrument and the terminal's answers in a fixed order,
  and either reports the first failing check with a negative return code or builds one market
  order, sends it, and reports what the terminal made of it.
*/
module Services {
  import opened Optional
  import opened Mt5
  import opened PyStr
  import opened Data

  /** The only instrument orders may be placed on. */
  const AllowedSymbol: string := "XAUUSDm"

  /** Return codes of the order path's own failures. */
  const CodeSendReturnedNothing: int := -1
  const CodeBlockedSymbol: int := -2
  const CodeSymbolNotFound: int := -3
  const CodeSelectFailed: int := -4
  const CodeNoTick: int := -5

  /** The fixed beginnings of the order path's own comments; the rest is the symbol or the last error's text. */
  const BlockedComment: string := "Blocked: only XAUUSDm allowed, got "
  const NotFoundComment: string := "Symbol not found: "
  const SelectFailedComment: string := "symbol_select failed: "
  const NoTickComment: string := "symbol_info_tick failed: "
  const SendNoneComment: string := "order_send returned None: "

  /** The parameters of `place_market_order`, with their defaults. */
  datatype OrderParams = OrderParams(
    symbol: string,
    side: string,
    lot: real,
    slPrice: Option<real> := None,
    tpPrice: Option<real> := None,
    deviation: int := 20,
    magic: int := 0,
    comment: string := "py-mt5",
    filling: string := "IOC"
  )

  /** The exception the order path can raise: a fill policy name missing from its table. */
  datatype Exception = KeyError(key: string)

  /** `place_market_order` either returns a response or raises. */
  datatype Outcome = Returned(response: OrderResponse) | Raised(error: Exception)

  /** The outcome of one placement together with the library calls it made, in order. */
  datatype Placement = Placement(outcome: Outcome, calls: seq<GatewayCall>)

  /** The side as the order path compares it: upper-cased, then stripped. */
  function NormalizeSide(side: string): string {
    Strip(Upper(side))
  }

  /** The order is a buy exactly when the normalised side is `BUY`; anything else sells. */
  predicate IsBuy(side: string) {
    NormalizeSide(side) == "BUY"
  }

  /** Reference reading of a buy: the letters b, u, y in any case, padded only by whitespace. */
  ghost predicate SpellsBuy(side: string) {
    exists i :: BuyAt(side, i)
  }

  /** `side` holds b, u, y (in any case) at `i`, with only whitespace before and after. */
  ghost predicate BuyAt(side: string, i: int) {
    && 0 <= i && i + 3 <= |side|
    && SpaceIn(side, 0, i) && SpaceIn(side, i + 3, |side|)
    && side[i] in "bB" && side[i + 1] in "uU" && side[i + 2] in "yY"
  }

  /** The name the source's fill-policy table uses for each policy. */
  function FillingName(f: Filling): string {
    match f
    case FillingFok => "FOK"
    case FillingIoc => "IOC"
    case FillingReturn => "RETURN"
  }

  /** The source's fill-policy table: defined on exactly the three names, one policy each. */
  function FillingOf(name: string): (r: Option<Filling>)
    ensures forall f :: r == Some(f) <==> name == FillingName(f)
  {
    if name == "FOK" then Some(FillingFok)
    else if name == "IOC" then Some(FillingIoc)
    else if name == "RETURN" then Some(FillingReturn)
    else None
  }

  /** What the source promises of the request it builds from the parameters and the quote. */
  ghost predicate RequestFits(req: TradeRequest, p: OrderParams, tick: Tick) {
    && req.action == TradeActionDeal
    && req.symbol == p.symbol
    && req.volume == p.lot
    && (req.orderType == OrderTypeBuy <==> SpellsBuy(p.side))
    && req.price == (if req.orderType == OrderTypeBuy then tick.ask else tick.bid)
    // an absent or zero stop/target is sent as 0.0, any other value unchanged
    && req.sl == p.slPrice.GetOr(0.0)
    && req.tp == p.tpPrice.GetOr(0.0)
    && req.deviation == p.deviation
    && req.magic == p.magic
    && req.comment == p.comment
    && req.typeTime == OrderTimeGtc
    && FillingName(req.typeFilling) == p.filling
  }

  /** The market-order request for the given parameters, quote and fill policy. */
  function BuildRequest(p: OrderParams, tick: Tick, filling: Filling): (req: TradeRequest)
    requires FillingOf(p.filling) == Some(filling)
    ensures RequestFits(req, p, tick)
  {
    SideIsBuyIff(p.side);
    var buy := IsBuy(p.side);
    TradeRequest(
      action := TradeActionDeal,
      symbol := p.symbol,
      volume := p.lot,
      orderType := if buy then OrderTypeBuy else OrderTypeSell,
      price := if buy then tick.ask else tick.bid,
      sl := if p.slPrice.Some? && p.slPrice.value != 0.0 then p.slPrice.value else 0.0,
      tp := if p.tpPrice.Some? && p.tpPrice.value != 0.0 then p.tpPrice.value else 0.0,
      deviation := p.deviation,
      magic := p.magic,
      comment := p.comment,
      typeTime := OrderTimeGtc,
      typeFilling := filling
    )
  }

  /** Every check before `order_send` passes: allowed symbol, known, visible or selectable, quoted, known fill policy. */
  ghost predicate GuardsPass(p: OrderParams, t: Terminal) {
    && p.symbol == AllowedSymbol
    && t.symbolInfo.Some?
    && (t.symbolInfo.value.visible || t.selectSucceeds)
    && t.tick.Some?
    && FillingOf(p.filling).Some?
  }

  /** A failure the order path reports itself: not ok, the given code, no tickets, no request. */
  ghost predicate RejectedWith(o: Outcome, code: int) {
    && o.Returned?
    && !o.response.ok
    && o.response.retcode == code
    && o.response.order == 0
    && o.response.deal == 0
    && o.response.request == None
  }

  ghost predicate SendsOrder(calls: seq<GatewayCall>) {
    exists c :: c in calls && c.SendOrder?
  }

  /** The symbol a call is about (the request's symbol for a send). */
  function CallSymbol(c: GatewayCall): string
    requires !c.QueryLastError?
  {
    match c
    case QuerySymbolInfo(s) => s
    case SelectSymbol(s, _) => s
    case QueryTick(s) => s
    case SendOrder(req) => req.symbol
  }

  /** `[c]` when `present`, nothing otherwise. */
  function CallIf(present: bool, c: GatewayCall): seq<GatewayCall> {
    if present then [c] else []
  }

  /** The send of `sent`'s request, if there is one. */
  function SendIf(sent: Option<TradeRequest>): seq<GatewayCall> {
    match sent
    case Some(req) => [SendOrder(req)]
    case None => []
  }

  /**
    The calls of a placement on a known symbol, in protocol order: the lookup, then a selection,
    a quote, a send and an error query, each one only if its flag says it was made.
  */
  function CallTrace(symbol: string, selected: bool, quoted: bool, sent: Option<TradeRequest>, readError: bool)
    : (r: seq<GatewayCall>)
    ensures InStageOrder(r)
    ensures forall c :: c in r <==>
      || c == QuerySymbolInfo(symbol)
      || (selected && c == SelectSymbol(symbol, true))
      || (quoted && c == QueryTick(symbol))
      || (sent.Some? && c == SendOrder(sent.value))
      || (readError && c == QueryLastError)
  {
    var r := [QuerySymbolInfo(symbol)] + CallIf(selected, SelectSymbol(symbol, true)) + CallIf(quoted, QueryTick(symbol))
      + SendIf(sent) + CallIf(readError, QueryLastError);
    assert forall i :: 0 <= i < |r| - 1 ==> Stage(r[i]) < Stage(r[i + 1]);
    StageOrderFromNeighbours(r);
    r
  }

  /**
    Places a market order on `p.symbol` against the terminal's answers `t`, returning what the
    source returns (or raises) together with the library calls it makes.
  */
  function PlaceMarketOrder(p: OrderParams, t: Terminal): (r: Placement)
    // the protocol: calls in stage order, each kind at most once
    ensures InStageOrder(r.calls)
    // an order is sent exactly when every check passed
    ensures SendsOrder(r.calls) <==> GuardsPass(p, t)
  {
    if p.symbol != AllowedSymbol then
      Placement(Returned(OrderResponse(false, CodeBlockedSymbol, BlockedComment + p.symbol)), [])
    else
      match t.symbolInfo
      case None =>
        Placement(Returned(OrderResponse(false, CodeSymbolNotFound, NotFoundComment + p.symbol)),
                  [QuerySymbolInfo(p.symbol)])
      case Some(info) =>
        var hidden := !info.visible;
        if hidden && !t.selectSucceeds then
          Placement(Returned(OrderResponse(false, CodeSelectFailed, SelectFailedComment + t.lastError)),
                    CallTrace(p.symbol, true, false, None, true))
        else
          match t.tick
          case None =>
            Placement(Returned(OrderResponse(false, CodeNoTick, NoTickComment + t.lastError)),
                      CallTrace(p.symbol, hidden, true, None, true))
          case Some(tick) =>
            match FillingOf(p.filling)
            case None => Placement(Raised(KeyError(p.filling)), CallTrace(p.symbol, hidden, true, None, false))
            case Some(filling) =>
              var req := BuildRequest(p, tick, filling);
              assert SendOrder(req) in CallTrace(p.symbol, hidden, true, Some(req), false);
              assert SendOrder(req) in CallTrace(p.symbol, hidden, true, Some(req), true);
              match t.sendResult
              case None =>
                Placement(Returned(OrderResponse(false, CodeSendReturnedNothing,
                                                 SendNoneComment + t.lastError, request := Some(req))),
                          CallTrace(p.symbol, hidden, true, Some(req), true))
              case Some(res) =>
                Placement(Returned(OrderResponse(res.retcode == RetcodeDone, res.retcode, res.comment,
                                                 res.order.GetOr(0), res.deal.GetOr(0), Some(req))),
                          CallTrace(p.symbol, hidden, true, Some(req), false))
  }

  /** Normalising the side yields `BUY` exactly for the reference spellings of a buy. */
  lemma SideIsBuyIff(side: string)
    ensures IsBuy(side) <==> SpellsBuy(side)
  {
    if IsBuy(side) {
      NormalizedBuyIsSpelled(side);
    }
    if SpellsBuy(side) {
      SpelledBuyNormalizes(side);
    }
  }

  lemma NormalizedBuyIsSpelled(side: string)
    requires IsBuy(side)
    ensures SpellsBuy(side)
  {
    var u := Upper(side);
    StripIsPadded(u);
    var a :| PaddedAt(u, "BUY", a);
    assert u[a..a + 3] == "BUY";
    assert u[a] == 'B' && u[a + 1] == 'U' && u[a + 2] == 'Y';
    UpperKeepsSpace(side, 0, a);
    UpperKeepsSpace(side, a + 3, |side|);
    assert BuyAt(side, a);
  }

  lemma SpelledBuyNormalizes(side: string)
    requires SpellsBuy(side)
    ensures IsBuy(side)
  {
    var u := Upper(side);
    var i :| BuyAt(side, i);
    UpperKeepsSpace(side, 0, i);
    UpperKeepsSpace(side, i + 3, |side|);
    assert u[i..i + 3] == "BUY";
    StripOfPadded(u, "BUY", i);
  }

  /** The request sent is the one the parameters and the quote call for. */
  lemma SentRequestFits(p: OrderParams, t: Terminal)
    ensures forall c :: c in PlaceMarketOrder(p, t).calls && c.SendOrder? ==>
      t.tick.Some? && RequestFits(c.request, p, t.tick.value)
  {
    var r := PlaceMarketOrder(p, t);
    forall c | c in r.calls && c.SendOrder?
      ensures t.tick.Some? && RequestFits(c.request, p, t.tick.value)
    {
      assert SendsOrder(r.calls);
      SentIsBuilt(p, t, c);
    }
  }

  /** The only request a placement sends is the one `BuildRequest` makes from its inputs. */
  lemma SentIsBuilt(p: OrderParams, t: Terminal, c: GatewayCall)
    requires GuardsPass(p, t)
    requires c in PlaceMarketOrder(p, t).calls && c.SendOrder?
    ensures c.request == BuildRequest(p, t.tick.value, FillingOf(p.filling).value)
  {
    var req := BuildRequest(p, t.tick.value, FillingOf(p.filling).value);
    var hidden := !t.symbolInfo.value.visible;
    assert PlaceMarketOrder(p, t).calls == CallTrace(p.symbol, hidden, true, Some(req), t.sendResult.None?);
  }

  /** The placement succeeds exactly when every check passed and the terminal reports the done code. */
  lemma OkIffDone(p: OrderParams, t: Terminal)
    ensures var r := PlaceMarketOrder(p, t);
      r.outcome.Returned? && r.outcome.response.ok <==>
        GuardsPass(p, t) && t.sendResult.Some? && t.sendResult.value.retcode == RetcodeDone
  {
  }

  /** Any symbol but the allowed one is rejected with -2 before the terminal is consulted. */
  lemma BlockedSymbolRejected(p: OrderParams, t: Terminal)
    requires p.symbol != AllowedSymbol
    ensures var r := PlaceMarketOrder(p, t);
      r.calls == [] && RejectedWith(r.outcome, CodeBlockedSymbol)
  {
  }

  /** A symbol the terminal does not know is rejected with -3 right after the lookup. */
  lemma UnknownSymbolRejected(p: OrderParams, t: Terminal)
    requires p.symbol == AllowedSymbol && t.symbolInfo.None?
    ensures var r := PlaceMarketOrder(p, t);
      r.calls == [QuerySymbolInfo(p.symbol)] && RejectedWith(r.outcome, CodeSymbolNotFound)
  {
  }

  /** Selection is attempted exactly for a known symbol that is not visible. */
  lemma SelectOnlyWhenHidden(p: OrderParams, t: Terminal)
    ensures var r := PlaceMarketOrder(p, t);
      && (SelectSymbol(p.symbol, true) in r.calls <==>
            p.symbol == AllowedSymbol && t.symbolInfo.Some? && !t.symbolInfo.value.visible)
      && (forall c :: c in r.calls && c.SelectSymbol? ==> c.enable)
  {
  }

  /** A failed selection is rejected with -4; no quote is asked for and nothing is sent. */
  lemma SelectFailureRejected(p: OrderParams, t: Terminal)
    requires p.symbol == AllowedSymbol && t.symbolInfo.Some? && !t.symbolInfo.value.visible
    requires !t.selectSucceeds
    ensures var r := PlaceMarketOrder(p, t);
      && RejectedWith(r.outcome, CodeSelectFailed)
      && QueryTick(p.symbol) !in r.calls
      && !SendsOrder(r.calls)
  {
  }

  /** The quote is asked for exactly once the symbol is usable; a missing quote is rejected with -5. */
  lemma MissingTickRejected(p: OrderParams, t: Terminal)
    ensures var r := PlaceMarketOrder(p, t);
      && (QueryTick(p.symbol) in r.calls <==>
            p.symbol == AllowedSymbol && t.symbolInfo.Some? && (t.symbolInfo.value.visible || t.selectSucceeds))
      && (QueryTick(p.symbol) in r.calls && t.tick.None? ==>
            RejectedWith(r.outcome, CodeNoTick) && !SendsOrder(r.calls))
  {
  }

  /** A fill policy name outside the table raises `KeyError` after the quote, before any send. */
  lemma UnknownFillingRaises(p: OrderParams, t: Terminal)
    ensures var r := PlaceMarketOrder(p, t);
      && (r.outcome.Raised? <==>
            p.symbol == AllowedSymbol && t.symbolInfo.Some? && (t.symbolInfo.value.visible || t.selectSucceeds)
            && t.tick.Some? && FillingOf(p.filling).None?)
      && (r.outcome.Raised? ==> r.outcome.error == KeyError(p.filling) && !SendsOrder(r.calls))
  {
  }

  /** A response carries a request exactly when an order was sent, and then it is the one sent. */
  lemma ResponseCarriesSentRequest(p: OrderParams, t: Terminal)
    ensures var r := PlaceMarketOrder(p, t);
      && (r.outcome.Returned? ==> (r.outcome.response.request.Some? <==> SendsOrder(r.calls)))
      && (forall c :: c in r.calls && c.SendOrder? ==> r.outcome.response.request == Some(c.request))
  {
    var r := PlaceMarketOrder(p, t);
    forall c | c in r.calls && c.SendOrder?
      ensures r.outcome.response.request == Some(c.request)
    {
      assert SendsOrder(r.calls);
      SentIsBuilt(p, t, c);
    }
  }

  /** A send that returns nothing is reported with -1 and no tickets. */
  lemma SendReturnedNothing(p: OrderParams, t: Terminal)
    requires GuardsPass(p, t) && t.sendResult.None?
    ensures var r := PlaceMarketOrder(p, t);
      && r.outcome.Returned? && !r.outcome.response.ok
      && r.outcome.response.retcode == CodeSendReturnedNothing
      && r.outcome.response.order == 0 && r.outcome.response.deal == 0
  {
  }

  /** The terminal's answer to the send is echoed, with absent tickets read as 0. */
  lemma SendResultEchoed(p: OrderParams, t: Terminal)
    requires GuardsPass(p, t) && t.sendResult.Some?
    ensures var r := PlaceMarketOrder(p, t);
      var res := t.sendResult.value;
      && r.outcome.Returned?
      && r.outcome.response.ok == (res.retcode == RetcodeDone)
      && r.outcome.response.retcode == res.retcode
      && r.outcome.response.comment == res.comment
      && r.outcome.response.order == res.order.GetOr(0)
      && r.outcome.response.deal == res.deal.GetOr(0)
  {
  }

  /** The last error is read only on a failure, and its text ends the comment. */
  lemma LastErrorEndsComment(p: OrderParams, t: Terminal)
    ensures var r := PlaceMarketOrder(p, t);
      QueryLastError in r.calls ==>
        r.outcome.Returned? && !r.outcome.response.ok && EndsWith(r.outcome.response.comment, t.lastError)
  {
    var r := PlaceMarketOrder(p, t);
    if QueryLastError in r.calls {
      var prefix :|
        && prefix in {SelectFailedComment, NoTickComment, SendNoneComment}
        && r.outcome.Returned? && !r.outcome.response.ok
        && r.outcome.response.comment == prefix + t.lastError;
      EndsWithConcat(prefix, t.lastError);
    }
  }

  /** Every call the placement makes is about the requested symbol. */
  lemma CallsConcernTheSymbol(p: OrderParams, t: Terminal)
    ensures forall c :: c in PlaceMarketOrder(p, t).calls && !c.QueryLastError? ==> CallSymbol(c) == p.symbol
  {
    var r := PlaceMarketOrder(p, t);
    forall c | c in r.calls && !c.QueryLastError?
      ensures CallSymbol(c) == p.symbol
    {
      if c.SendOrder? {
        assert SendsOrder(r.calls);
        SentIsBuilt(p, t, c);
      }
    }
  }

  /** `t1` and `t2` give the same answer to every call in `calls`. */
  ghost predicate AgreeOn(calls: seq<GatewayCall>, t1: Terminal, t2: Terminal) {
    forall c :: c in calls ==> t1.AnswerTo(c) == t2.AnswerTo(c)
  }

  /** Two terminals that answer every call made alike lead to the same placement. */
  lemma OnlyAnswersToCallsMatter(p: OrderParams, t1: Terminal, t2: Terminal)
    requires AgreeOn(PlaceMarketOrder(p, t1).calls, t1, t2)
    ensures PlaceMarketOrder(p, t1) == PlaceMarketOrder(p, t2)
  {
    var calls := PlaceMarketOrder(p, t1).calls;
    if p.symbol == AllowedSymbol {
      assert QuerySymbolInfo(p.symbol) in calls;
      if t1.symbolInfo.Some? {
        var hidden := !t1.symbolInfo.value.visible;
        if hidden {
          assert SelectSymbol(p.symbol, true) in calls;
        }
        if hidden && !t1.selectSucceeds {
          assert QueryLastError in calls;
        } else {
          QuotedAnswersMatter(p, t1, t2);
        }
      }
    }
  }

  /** Once the symbol is usable on both terminals, the rest depends only on the answers to the calls made. */
  lemma QuotedAnswersMatter(p: OrderParams, t1: Terminal, t2: Terminal)
    requires p.symbol == AllowedSymbol && t1.symbolInfo.Some? && t1.symbolInfo == t2.symbolInfo
    requires t1.symbolInfo.value.visible || (t1.selectSucceeds && t2.selectSucceeds)
    requires AgreeOn(PlaceMarketOrder(p, t1).calls, t1, t2)
    ensures PlaceMarketOrder(p, t1) == PlaceMarketOrder(p, t2)
  {
    var calls := PlaceMarketOrder(p, t1).calls;
    assert QueryTick(p.symbol) in calls;
    if t1.tick.None? {
      assert QueryLastError in calls;
    } else if FillingOf(p.filling).Some? {
      SentAnswersMatter(p, t1, t2);
    }
  }

  /** Once an order is built, the outcome depends only on the answers to the send and, if read, the last error. */
  lemma SentAnswersMatter(p: OrderParams, t1: Terminal, t2: Terminal)
    requires p.symbol == AllowedSymbol && t1.symbolInfo.Some? && t1.symbolInfo == t2.symbolInfo
    requires t1.symbolInfo.value.visible || (t1.selectSucceeds && t2.selectSucceeds)
    requires t1.tick.Some? && t1.tick == t2.tick && FillingOf(p.filling).Some?
    requires AgreeOn(PlaceMarketOrder(p, t1).calls, t1, t2)
    ensures PlaceMarketOrder(p, t1) == PlaceMarketOrder(p, t2)
  {
    var calls := PlaceMarketOrder(p, t1).calls;
    var req := BuildRequest(p, t1.tick.value, FillingOf(p.filling).value);
    assert SendOrder(req) in calls;
    assert t1.sendResult == t2.sendResult;
    if t1.sendResult.None? {
      assert QueryLastError in calls;
      assert t1.lastError == t2.lastError;
    }
  }
}
