/** The result record of an order placement. */
module Data {
  import opened Optional
  import opened Mt5

  /**
    `OrderResponse`: whether the order went through, the return code (the terminal's, or a
    negative code of the order path's own), a comment, the order and deal tickets (0 when
    not given) and the request that was sent, if any.
  */
  datatype OrderResponse = OrderResponse(
    ok: bool,
    retcode: int,
    comment: string,
    order: int := 0,
    deal: int := 0,
    request: Option<TradeRequest> := None
  )
}
