# mt5_trader order placement, modelled in Dafny

This project models `place_market_order`, the one piece of decision logic in the
mt5_trader repository. The function places a market order on the MetaTrader 5
terminal. It works through a fixed sequence of checks:

1. the symbol must be `XAUUSDm`;
2. the terminal must know the symbol;
3. a hidden symbol must be selectable;
4. a quote must be available.

The first check that fails gives a negative return code. When all of them pass, the
function builds one `TRADE_ACTION_DEAL` request and sends it. It then reports whether the
terminal answered with `TRADE_RETCODE_DONE`. The result is an `OrderResponse`, the record
defined in `data.py`.

The MetaTrader5 library is not part of this model. Its constants become distinct
enumeration values. Its calls become a `Terminal` record of answers:

- what `symbol_info`, `symbol_select`, `symbol_info_tick` and `order_send` return;
- the text of `last_error()`.

`Services.PlaceMarketOrder` is a pure function of the parameters and those answers. It
returns the outcome together with the ordered list of library calls made (`GatewayCall`).
That list is what lets the proofs speak about which calls happen, in what order, and
which never happen.

Files:

- `optional.dfy` holds `Option`, standing for Python's `Optional`.
- `mt5.dfy` is the library boundary: constants, `TradeRequest`, the `Terminal` answers, the
  call kinds and their protocol order.
- `data.dfy` is `OrderResponse`, including its defaults: `order = 0`, `deal = 0`,
  `request = None`.
- `pystr.dfy` holds the Python `str` operations the side goes through: `upper()` and
  `strip()`. `endswith()` is used to state properties of comments.
- `services.dfy` is `place_market_order` itself and the properties proved about it.

Some behaviour follows the code rather than the type hints or the docstring:

- `side` may be any string. It is upper-cased and stripped. The order is a buy exactly when
  the result is `BUY`. Every other string, `"bogus"` included, sells.
- `filling` may be any string. A name other than `FOK`, `IOC` or `RETURN` makes the table
  lookup raise `KeyError`. That happens after the quote is fetched and before anything is
  sent. The model returns it as `Raised(KeyError(filling))`.
- The docstring speaks of stop-loss and take-profit "points" scaled by the symbol's point
  size. The code never scales them. It sends `sl_price` and `tp_price` as absolute prices,
  or `0.0` when absent or zero. The model follows the code.

## Model

| member | source | states |
|---|---|---|
| `Services.PlaceMarketOrder` | services.py:7-88 | The library calls are made in protocol order (lookup, selection, quote, send, last error), so each kind happens at most once. An order is sent exactly when every check passed: allowed symbol, symbol known, visible or selectable, quote present, fill policy in the table. |
| `Services.BlockedSymbolRejected` | services.py:29-30 | Any symbol other than exactly `XAUUSDm` returns ok=false and retcode -2. No library call is made, the tickets are 0 and no request is attached. |
| `Services.UnknownSymbolRejected` | services.py:32-34 | When the terminal has no info for the symbol, the result is ok=false and retcode -3. The only call made is the lookup, so there is no selection, quote or send. |
| `Services.SelectOnlyWhenHidden` | services.py:36-37 | `symbol_select(symbol, True)` is called exactly when the symbol is allowed, known and not visible. Every selection call enables the symbol. |
| `Services.SelectFailureRejected` | services.py:36-38 | A failed selection returns ok=false and retcode -4. No quote is requested and no order is sent. |
| `Services.MissingTickRejected` | services.py:40-42 | The quote is requested exactly when the symbol is allowed, known, and visible or selected. A missing quote returns ok=false and retcode -5, and no order is sent. |
| `Services.UnknownFillingRaises` | services.py:53-71 | Once the quote is in hand, a fill-policy name outside FOK/IOC/RETURN raises `KeyError` for that name, and nothing is sent. Only that case raises. |
| `Services.FillingOf` | services.py:53-57 | The fill-policy table is defined exactly on the three names. It maps each name to its own policy, and the name can be read back from the policy, so the mapping is one-to-one. |
| `Services.SideIsBuyIff` | services.py:44-47 | The normalised side `side.upper().strip()` equals `BUY` exactly when `side` is b, u, y in any letter case with only whitespace around it. |
| `Services.BuildRequest` | services.py:44-72 | The request is a deal on the given symbol and volume. It is a buy at the ask exactly for a buy spelling of the side, otherwise a sell at the bid. SL/TP are the given value, or 0.0 when absent. Deviation, magic and comment are passed through, the time is GTC, and the fill policy is the one the name denotes. |
| `Services.SentRequestFits` | services.py:59-74 | The request handed to `order_send` has every property listed for `BuildRequest`, with respect to the parameters and the quote the terminal gave. |
| `Services.ResponseCarriesSentRequest` | services.py:74-88 | A returned response carries a request exactly when an order was sent, and then it is the request that was sent. |
| `Services.SendReturnedNothing` | services.py:74-77 | When `order_send` returns nothing, the result is ok=false and retcode -1 with tickets 0. |
| `Services.SendResultEchoed` | services.py:79-88 | When `order_send` returns a result, its retcode and comment are echoed. Missing order and deal tickets read as 0. ok holds exactly when the retcode is the done code. |
| `Services.OkIffDone` | services.py:79 | A placement reports ok exactly when every check passed, a send result came back, and its retcode equals `TRADE_RETCODE_DONE`. |
| `Services.LastErrorEndsComment` | services.py:36-77 | `last_error()` is read only on a reported failure. The comment of that response ends with the error's text. |
| `Services.CallsConcernTheSymbol` | services.py:32-74 | Every lookup, selection, quote and send is about the requested symbol. |
| `Services.OnlyAnswersToCallsMatter` | services.py:32-88 | Two terminals that give the same answers to the calls a placement makes lead to the same outcome and the same calls. Answers to calls never made have no influence. |
| `PyStr.StripIsPadded` | services.py:44 | `strip()` returns a slice of its input with only whitespace before and after it. The slice neither starts nor ends with whitespace. |
| `PyStr.StripOfPadded` | services.py:44 | Conversely, any slice with those properties is exactly what `strip()` returns, including `""` for an all-whitespace input. |
| `PyStr.UpperKeepsSpace` | services.py:44 | `upper()` keeps the length and changes no character's whitespace status. |

## Left out

- `integration.py` (`connect_mt5`, `disconnect_mt5`) is terminal login and shutdown I/O. It has nothing to state beyond calling the library.
- `main.py` is a script that connects, places one hard-coded order and prints the result.
- The MetaTrader5 library is not part of this model. Its constants are opaque distinct values. `RetcodeDone` is set to the library's published `TRADE_RETCODE_DONE` value, 10009, and every property is stated in terms of the name, not the number.
- The text of `last_error()` is an opaque string in `Terminal`. One string serves the single call a placement makes. The model does not reproduce how Python formats the error tuple.
- Floating point is not modelled. Prices, volumes, SL and TP are reals, and `float(...)`/`int(...)` conversions are identities on the typed inputs. Python treats `-0.0` as falsy and would send `0.0`; reals have no negative zero.
- `PyStr.UpperKeepsSpace`: only ASCII letters are upper-cased. Python also case-maps non-ASCII letters, including some that expand to several characters. The model leaves them unchanged.
- Calls with mistyped arguments are not modelled: a non-string `side` (`AttributeError`) or a non-numeric `lot` (`ValueError`). The parameters are typed.
- The wider trading system is not part of this model. No code for it appears in these files: rate limiting, OCR signal validation, take-profit ladders, retry loops and position management.
