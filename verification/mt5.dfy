/**
  The boundary with the MetaTrader5 Python library. The library itself is not part of this
  model: its constants are distinct opaque values, its trade request is a record, and every
  call it offers is an observation supplied from outside (a `Terminal`).
*/
module Mt5 {
  import opened Optional

  /** `TRADE_RETCODE_DONE`: the return code the terminal reports for a completed deal. */
  const RetcodeDone: int := 10009

  /** `ORDER_TYPE_BUY` / `ORDER_TYPE_SELL`. */
  datatype OrderType = OrderTypeBuy | OrderTypeSell

  /** `ORDER_FILLING_FOK` / `ORDER_FILLING_IOC` / `ORDER_FILLING_RETURN`. */
  datatype Filling = FillingFok | FillingIoc | FillingReturn

  /** `TRADE_ACTION_DEAL`: an immediate (market) deal. */
  datatype TradeAction = TradeActionDeal

  /** `ORDER_TIME_GTC`: good till cancelled. */
  datatype OrderTime = OrderTimeGtc

  /** The request dictionary handed to `order_send`, one field per key. */
  datatype TradeRequest = TradeRequest(
    action: TradeAction,
    symbol: string,
    volume: real,
    orderType: OrderType,
    price: real,
    sl: real,
    tp: real,
    deviation: int,
    magic: int,
    comment: string,
    typeTime: OrderTime,
    typeFilling: Filling
  )

  /** The part of `symbol_info(...)` the order path reads. */
  datatype SymbolInfo = SymbolInfo(visible: bool)

  /** The part of `symbol_info_tick(...)` the order path reads. */
  datatype Tick = Tick(bid: real, ask: real)

  /** The part of `order_send(...)`'s result the order path reads; `order` and `deal` may be absent. */
  datatype SendResult = SendResult(retcode: int, comment: string, order: Option<int>, deal: Option<int>)

  /** One call into the library, in the order it is made. */
  datatype GatewayCall =
    | QuerySymbolInfo(symbol: string)
    | SelectSymbol(symbol: string, enable: bool)
    | QueryTick(symbol: string)
    | SendOrder(request: TradeRequest)
    | QueryLastError

  /** What a call returns. */
  datatype Answer =
    | InfoAnswer(info: Option<SymbolInfo>)
    | SelectAnswer(selected: bool)
    | TickAnswer(tick: Option<Tick>)
    | SendAnswer(result: Option<SendResult>)
    | ErrorAnswer(text: string)

  /**
    What the terminal answers during one order placement: `symbol_info`, `symbol_select`,
    `symbol_info_tick`, `order_send`, and the text of `last_error()` as it is formatted into
    a comment.
  */
  datatype Terminal = Terminal(
    symbolInfo: Option<SymbolInfo>,
    selectSucceeds: bool,
    tick: Option<Tick>,
    sendResult: Option<SendResult>,
    lastError: string
  ) {

    /** The answer this terminal gives to `call`. */
    function AnswerTo(call: GatewayCall): Answer {
      match call
      case QuerySymbolInfo(_) => InfoAnswer(symbolInfo)
      case SelectSymbol(_, _) => SelectAnswer(selectSucceeds)
      case QueryTick(_) => TickAnswer(tick)
      case SendOrder(_) => SendAnswer(sendResult)
      case QueryLastError => ErrorAnswer(lastError)
    }
  }

  /** Position of a call kind in the order-placement protocol. */
  function Stage(call: GatewayCall): nat {
    match call
    case QuerySymbolInfo(_) => 0
    case SelectSymbol(_, _) => 1
    case QueryTick(_) => 2
    case SendOrder(_) => 3
    case QueryLastError => 4
  }

  /**
    The calls follow the protocol's stage order strictly, so each kind of call is made at
    most once and never after a later stage.
  */
  ghost predicate InStageOrder(calls: seq<GatewayCall>) {
    forall i, j :: 0 <= i < j < |calls| ==> Stage(calls[i]) < Stage(calls[j])
  }

  /** Strict order between neighbours is strict order between any two calls. */
  lemma {:induction false} StageOrderFromNeighbours(calls: seq<GatewayCall>)
    requires forall i :: 0 <= i < |calls| - 1 ==> Stage(calls[i]) < Stage(calls[i + 1])
    ensures InStageOrder(calls)
    decreases |calls|
  {
    if |calls| > 1 {
      var rest := calls[1..];
      assert forall i :: 0 <= i < |rest| - 1 ==> Stage(rest[i]) < Stage(rest[i + 1]);
      StageOrderFromNeighbours(rest);
      forall i, j | 0 <= i < j < |calls|
        ensures Stage(calls[i]) < Stage(calls[j])
      {
        if i > 0 {
          assert calls[i] == rest[i - 1] && calls[j] == rest[j - 1];
        } else if j > 1 {
          assert calls[j] == rest[j - 1] && calls[1] == rest[0];
        }
      }
    }
  }
}
