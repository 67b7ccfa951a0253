# OctoBot-Trading exchange channels, in Dafny

This project models the per-exchange channel engine of OctoBot-Trading. It
also models a few small configuration lookups and the inverse-position
formulas that sit beside the engine. It then proves properties of that model.

- **Exchange channel** (`exchange_channel.dfy`, module `ExchangeChannel`). A
  channel is an immutable value. It holds its consumers in registration
  order, its producers, and the shared `is_paused` flag. The base producer's
  `send`, `pause` and `resume` are modelled, and so are the channel's
  `new_consumer`, `__check_producers_state`, `get_filtered_consumers` and
  `__add_new_consumer_and_run`. Each `await` is one sequential step.
  `queue.put` is an append to the consumer's queue, which is a `seq` of
  payloads. Calls on producers come back as a trace of `PauseCall` /
  `ResumeCall`, so "called exactly once per producer" can be stated.
- **Filter matcher** (`filters.dfy`, module `Filters`). The channel library's
  `get_consumer_from_filters` is not part of this model. It is modelled as a
  pure function over `{symbol, time_frame}` filter maps. Each key matches when
  either side is the wildcard `"*"` or the two values are equal. A filter value
  is `None` or a string, so a literal `"*"` is the wildcard, as it is in
  Python.
- **Channel registry** (`channel_registry.dfy`, module `ChannelRegistry`). This
  is the two-level map from exchange name to channel key to channel, with
  `set_chan`, `get_chan` and `del_chan`. Exceptions are results: `ValueError`
  for a duplicate and `KeyError` for a missing pair. A channel key is a string
  or `None`; a channel's own key is its name constant (`channel_names.dfy`:
  the fifteen exchange data channels and the internal "Mode" channel).
- **Order-book producer** (`order_book.dfy`, module `OrderBookChannel`). This
  covers `push`, `perform` (the gate, then the order-book update, then `send`,
  with `CancelledError` and every `Exception` swallowed) and the per-symbol
  `send`. The exchange
  manager's per-symbol order books are a `map` passed in and returned. How the
  external `handle_order_book_update` ends is a parameter: it returns, raises
  `CancelledError`, or raises another exception.
- **Web-socket configuration** (`websockets_util.dfy`). Covers
  `force_disable_web_socket`, `check_web_socket_config` and
  `search_websocket_class`. The configuration is a JSON-like value with
  Python's truthiness, `in` and `[]`. Subclasses are a sequence in declaration
  order, and `has_name` is a function parameter.
- **Custom base URLs** (`custom_base_url.dfy`). This is the fixed
  `okx` host table and its two-level `.get` lookup.
- **Inverse position** (`inverse_position.dfy`, `decimal_division.dfy`). These
  are the PnL, margin, liquidation, bankruptcy, fee and cost formulas over
  exact reals. The side (`is_long` / `is_short`), the maintenance-margin rate,
  the taker fee and the two-way taker fee are parameters. Decimal division is
  explicit:
  - `a / 0` with `a != 0` signals DivisionByZero.
  - `0 / 0` signals InvalidOperation.

  Each method's `except` clause decides which signal becomes 0 and which
  escapes.

Some behaviours of the code may surprise a caller. All of them are modelled
as written:

- **The order-book gate opens for any consumer.** `perform` first asks for
  consumers matching the wildcard symbol. A wildcard query matches every
  consumer (`ExchangeChannel.MatchingAllWildcard`). So the gate is open exactly
  when the channel has any consumer (`OrderBookChannel.HasListenerIffAnyConsumer`).
  A channel whose only consumer is filtered to `"ETH/BTC"` therefore still
  updates the `"BTC/USDT"` book. It just delivers nothing
  (`OrderBookChannel.ConcreteFilterStillOpensGate`).
- **`perform` swallows cancellation.** It catches `CancelledError` and does not
  re-raise it.
- **`new_consumer` cannot create a per-symbol consumer.** It rewrites every
  truthy symbol to the wildcard. Only a falsy symbol (`None` or `""`) is
  stored as given.
- **`new_consumer` ignores its `consumer_filters` argument.** The stored
  filters come only from `symbol` and the channel's `WITH_TIME_FRAME`.
  `NewConsumer` takes the argument and never reads it
  (`ExchangeChannel.ConsumerFiltersIgnored`).
- **`set_chan` keys a falsy name by itself.** With `name` set to `None` or
  `""`, the channel is registered under that falsy value rather than under
  its own name.

## Model

| member | source | states |
|---|---|---|
| Filters.WildcardMatching | octobot_trading/channels/exchange_channel.py:98-102 | the all-wildcard filter matches every filter from either side; matching is symmetric; two distinct concrete symbols never match |
| ChannelNames.NameString | octobot_trading/constants.py:86-108 | every channel name constant, the internal "Mode" channel included, is a non-empty (truthy) string |
| ChannelNames.NameStringInjective | octobot_trading/constants.py:86-108 | distinct channels have distinct name strings |
| ExchangeChannel.Matching | octobot_trading/channels/exchange_channel.py:98-102 | every selected consumer matches the query, there are no more of them than registered consumers, and the selection is empty iff no registered consumer matches |
| ExchangeChannel.MatchingConcat | octobot_trading/channels/exchange_channel.py:98-102 | selecting from `a + b` gives the selection from `a` followed by the selection from `b`, so the selection keeps registration order and multiplicity |
| ExchangeChannel.MatchingAppend | octobot_trading/channels/exchange_channel.py:98-102 | a consumer registered last is selected last, and only if it matches the query |
| ExchangeChannel.MatchingMembership | octobot_trading/channels/exchange_channel.py:98-102 | a consumer is selected iff it is registered and its filters match the query |
| ExchangeChannel.MatchingAllWildcard | octobot_trading/channels/exchange_channel.py:98-102 | the all-wildcard query returns every registered consumer, in registration order |
| ExchangeChannel.GetFilteredConsumers | octobot_trading/channels/exchange_channel.py:98-102 | every returned consumer matches `{symbol, time_frame}`, and the result is empty iff no registered consumer matches |
| ExchangeChannel.DefaultQuerySelectsAll | octobot_trading/channels/exchange_channel.py:98-102 | `get_filtered_consumers()` with default arguments is the whole consumer list; it is empty iff no consumer is registered |
| ExchangeChannel.FanOut | octobot_trading/channels/exchange_channel.py:42-43 | each matching consumer's queue gains the payload once at its end; non-matching queues and every other consumer field are unchanged; the puts happen in the order of the filtered list |
| ExchangeChannel.Send | octobot_trading/channels/exchange_channel.py:41-43 | every consumer's queue gains the same payload exactly once, in registration order; nothing else in the channel changes |
| ExchangeChannel.Pause | octobot_trading/channels/exchange_channel.py:45-49 | afterwards the channel is paused; only the flag may change, and an already paused channel is left as it was |
| ExchangeChannel.Resume | octobot_trading/channels/exchange_channel.py:51-55 | afterwards the channel is not paused; only the flag may change, and an active channel is left as it was |
| ExchangeChannel.PauseResumeIdempotent | octobot_trading/channels/exchange_channel.py:45-55 | pausing twice equals pausing once, resuming twice equals resuming once, and each sets the flag whatever the other left |
| ExchangeChannel.Calls | octobot_trading/channels/exchange_channel.py:91-96 | one call per producer, in `get_producers()` order, all pauses or all resumes |
| ExchangeChannel.CallEach | octobot_trading/channels/exchange_channel.py:91-96 | the loop over producers calls each exactly once in order; with at least one producer the channel ends as after a single pause (resume); with none it is unchanged |
| ExchangeChannel.CheckProducersState | octobot_trading/channels/exchange_channel.py:88-96 | afterwards the channel is paused iff no consumer matches the default query; only the flag changes; producers are called only when the flag flips, each exactly once with the new state |
| ExchangeChannel.CheckedPausedIffNoConsumers | octobot_trading/channels/exchange_channel.py:88-96 | after re-evaluation the channel is paused iff it has no consumer at all |
| ExchangeChannel.ConsumerSymbolFilter | octobot_trading/channels/exchange_channel.py:105-106 | a truthy symbol becomes the wildcard and a falsy one is kept, so the stored symbol is never a concrete non-empty symbol |
| ExchangeChannel.AddNewConsumerAndRun | octobot_trading/channels/exchange_channel.py:104-114 | the stored symbol filter is the wildcard for a truthy symbol; the time-frame filter is the wildcard iff `with_time_frame`, else `None`; the started consumer is appended last and nothing else changes |
| ExchangeChannel.NewConsumer | octobot_trading/channels/exchange_channel.py:75-86 | the supplied instance (or else a fresh consumer with an unused identity and an empty queue) is registered last and started; the channel then is active, and its producers are resumed once each iff it was paused |
| ExchangeChannel.ConsumerFiltersIgnored | octobot_trading/channels/exchange_channel.py:75-86 | two calls that differ only in `consumer_filters` give the same channel, consumer and producer calls |
| ExchangeChannel.FirstConsumerResumesProducers | octobot_trading/channels/exchange_channel.py:75-96 | on a new (paused, empty) channel, the first `new_consumer` leaves that consumer as the only one, makes the channel active, and resumes each producer exactly once, in order |
| ChannelRegistry.RegistrationKey | octobot_trading/channels/exchange_channel.py:119 | a truthy `name` selects the channel's own name string; `None` and `""` are themselves the key, and neither equals any channel's own key |
| ChannelRegistry.SetChan | octobot_trading/channels/exchange_channel.py:118-130 | it fails with `ValueError` iff the pair is already registered, leaving the registry unchanged; otherwise it creates the exchange's inner map if absent and adds only the new entry |
| ChannelRegistry.GetChan | octobot_trading/channels/exchange_channel.py:133-138 | it returns the registered channel, and fails with `KeyError` iff the exchange or the key is absent |
| ChannelRegistry.DelChan | octobot_trading/channels/exchange_channel.py:141-146 | it never fails; it removes only the named key of that exchange, keeps every exchange entry, and changes no other entry |
| ChannelRegistry.SetThenGet | octobot_trading/channels/exchange_channel.py:118-138 | after a successful registration, lookup of that pair returns the channel and every other lookup is unchanged |
| ChannelRegistry.SetTwiceFails | octobot_trading/channels/exchange_channel.py:118-130 | registering the same pair a second time fails with `ValueError` and changes nothing |
| ChannelRegistry.DelThenGet | octobot_trading/channels/exchange_channel.py:133-146 | after deletion, lookup of that pair fails with `KeyError` and every other lookup is unchanged |
| ChannelRegistry.DelIdempotent | octobot_trading/channels/exchange_channel.py:141-146 | deleting an absent pair changes nothing; deleting twice equals deleting once |
| ChannelRegistry.RegisteredUnderOwnName | octobot_trading/channels/exchange_channel.py:118-128 | a channel registered with a truthy name is found under its own channel name string |
| ChannelRegistry.EmptyRegistryAcceptsAll | octobot_trading/channels/exchange_channel.py:118-138 | in the empty registry every lookup raises `KeyError` and every registration succeeds, creating the exchange's inner map |
| ChannelRegistry.DistinctChannelsCoexist | octobot_trading/channels/exchange_channel.py:118-130 | registering one channel of an exchange under a truthy name never makes a registration of a different channel of that exchange fail |
| OrderBookChannel.HasListenerIffAnyConsumer | octobot_trading/channels/order_book.py:29 | the gate is open iff the channel has at least one consumer, whatever the symbol |
| OrderBookChannel.Send | octobot_trading/channels/order_book.py:38-45 | each consumer matching the symbol receives `{exchange, symbol, asks, bids}` once, with asks and bids unchanged; the puts follow the filtered selection, which keeps registration order (`ExchangeChannel.MatchingConcat`); other queues and fields are unchanged |
| OrderBookChannel.Perform | octobot_trading/channels/order_book.py:27-36 | with no listener nothing changes; an update raising `CancelledError` or an `Exception` is swallowed and skips the send; otherwise only the symbol's book is replaced and the send happens; the pause state is untouched |
| OrderBookChannel.Push | octobot_trading/channels/order_book.py:24-25 | `push` is `perform` with the same arguments |
| OrderBookChannel.NoConsumerNoWork | octobot_trading/channels/order_book.py:29 | with no consumer registered, `perform` leaves the books and every queue unchanged |
| OrderBookChannel.ConcreteFilterStillOpensGate | octobot_trading/channels/order_book.py:29-31 | a consumer filtered to "ETH/BTC" still lets a "BTC/USDT" update through; the book is updated and no queue receives anything |
| WebSocketsUtil.ForceDisableWebSocket | octobot_trading/exchanges/util/websockets_util.py:22-24 | true iff the exchange's configuration holds the "web-socket" key with a falsy value; false when the key is absent or holds a truthy value; `KeyError` when "exchanges" or the exchange is missing |
| WebSocketsUtil.CheckWebSocketConfig | octobot_trading/exchanges/util/websockets_util.py:27-28 | it is the negation of `force_disable_web_socket` and fails exactly when that one does, with the same error; true when "web-socket" holds a truthy value, false iff it holds a falsy one |
| WebSocketsUtil.AbsentKeyAllowsWebSocket | octobot_trading/exchanges/util/websockets_util.py:22-28 | without a "web-socket" entry, force-disable is false and the check is true |
| WebSocketsUtil.SearchWebsocketClass | octobot_trading/exchanges/util/websockets_util.py:31-36 | returns the first subclass in declaration order whose `has_name` holds, and `None` iff none does |
| CustomBaseUrl.Lookup | octobot_trading/exchanges/config/custom_base_url.py:16 | a host is returned iff both the exchange and the endpoint are in the table; the `{}` default only stands in for a missing exchange |
| CustomBaseUrl.GetCustomBaseUrl | octobot_trading/exchanges/config/custom_base_url.py:5-16 | `okx` maps `myokx`/`rest`/`websocket` to `my.okx.com`/`eea.okx.com`/`wseea.okx.com`; an unknown exchange or endpoint yields `None` |
| DecimalDivision.Div | octobot_trading/personal_data/positions/types/inverse_position.py:54-57 | a quotient exists iff the divisor is nonzero and then times the divisor gives the dividend; x/0 signals DivisionByZero and 0/0 InvalidOperation |
| InversePosition.UpdatePnl | octobot_trading/personal_data/positions/types/inverse_position.py:23-38 | long PnL times entry times mark is quantity × (mark − entry), and short is the opposite; flat, or a zero price, gives 0 and never raises |
| InversePosition.PnlLongShortOpposite | octobot_trading/personal_data/positions/types/inverse_position.py:23-36 | a short's PnL is the long's PnL negated for the same inputs |
| InversePosition.LongPnlSign | octobot_trading/personal_data/positions/types/inverse_position.py:23-31 | with positive quantity and prices, a long gains iff mark > entry and breaks even iff mark = entry |
| InversePosition.UpdateInitialMargin | octobot_trading/personal_data/positions/types/inverse_position.py:40-48 | margin × entry × leverage = quantity when the denominator is nonzero; 0 for nonzero quantity over a zero denominator; InvalidOperation escapes iff both are zero |
| InversePosition.CalculateMaintenanceMargin | octobot_trading/personal_data/positions/types/inverse_position.py:50-57 | margin × entry = quantity × rate when entry is nonzero; 0 for nonzero quantity at zero entry; InvalidOperation escapes iff both are zero |
| InversePosition.MaintenanceFromInitialMargin | octobot_trading/personal_data/positions/types/inverse_position.py:40-57 | maintenance margin = initial margin × leverage × rate |
| InversePosition.GetBankruptcyPrice | octobot_trading/personal_data/positions/types/inverse_position.py:80-96 | the base is the mark price only for `None`, else entry × leverage; long gives base/(lev+1), short base/(lev−1), flat 0; a zero denominator gives 0, except that 0/0 escapes |
| InversePosition.BankruptcyFlagIgnored | octobot_trading/personal_data/positions/types/inverse_position.py:87-93 | `with_mark_price=True` and `False` give the same result |
| InversePosition.ShortUnitLeverageBankruptcy | octobot_trading/personal_data/positions/types/inverse_position.py:91-96 | a short at leverage 1 with nonzero entry price has bankruptcy price 0 |
| InversePosition.UpdateFeeToClose | octobot_trading/personal_data/positions/types/inverse_position.py:113-121 | fee × bankruptcy price (with `with_mark_price=True`) = quantity × taker fee; a zero bankruptcy price with nonzero quantity gives 0; InvalidOperation escapes iff the bankruptcy price raises, or it is 0 with zero quantity |
| InversePosition.UpdateIsolatedLiquidationPrice | octobot_trading/personal_data/positions/types/inverse_position.py:59-78 | price × side denominator = entry × leverage; flat, a zero denominator or a failing fee-to-close gives 0; never raises |
| InversePosition.LongLiquidationOrdering | octobot_trading/personal_data/positions/types/inverse_position.py:59-96 | a long (positive entry and leverage, 0 < rate < 1/leverage) has 0 < bankruptcy < liquidation < entry |
| InversePosition.ShortLiquidationOrdering | octobot_trading/personal_data/positions/types/inverse_position.py:59-96 | a short (positive entry, leverage > 1, 0 < rate < 1/leverage) has entry < liquidation < bankruptcy |
| InversePosition.OrderCostCoversInitialMargin | octobot_trading/personal_data/positions/types/inverse_position.py:98-102 | the order cost of a position whose initial margin comes from `update_initial_margin`, less the two-way fee, times entry × leverage, is the quantity; with a positive denominator and a non-negative fee, cost × entry × leverage ≥ quantity |
| InversePosition.GetFeeToOpen | octobot_trading/personal_data/positions/types/inverse_position.py:104-111 | fee × mark = quantity × taker fee when mark is nonzero; 0 for nonzero quantity at zero mark; InvalidOperation escapes iff both are zero |

## Left out

- **Consumer dispatch is not modelled.** This covers `Consumer.run`, its
  dispatch loop, callbacks, queue capacity and blocking puts. These live in
  the channel library. `run` is modelled only as setting `running`, and a put
  never blocks.
- **Task scheduling is not modelled.** Each `await` is one atomic step, so a
  cancellation that lands between two puts of a `send` is not modelled.
- **Removing a consumer is not modelled.** `remove_consumer` is not part of
  this model. The pause re-evaluation after removal is the same
  `CheckProducersState`.
- **Aliasing is not modelled.** Consumers are values, not references.
  Registering one consumer object twice yields two entries with separate
  queues, not one queue that receives each payload twice.
- **Producer registration is not modelled.** `get_producers()` is the
  channel's `producers` sequence. Its `internal_producer` case and producer
  registration belong to the channel library.
- `ExchangeChannel.__init__` is not modelled. Its logger and its unused
  `filter_send_counter` / `should_send_filter` fields have no effect on the
  operations above. `NewChannel` takes a new channel to start paused with no
  consumers, as the channel library's constructor sets it. That constructor
  is not part of this model.
- OrderBookChannel.Perform: a successful `handle_order_book_update` is
  modelled as replacing the symbol's snapshot with `(asks, bids)`. A raising
  one is modelled as changing no book state. The real update logic and any
  partial mutation before the exception belong to the exchange manager, which
  is not part of this model.
- OrderBookChannel.Perform: a `BaseException` that is neither `CancelledError`
  nor an `Exception` (such as `KeyboardInterrupt` or `SystemExit`) still
  escapes `perform`. `UpdateFault` has no case for it, so the model does not
  cover that path.
- **The time channel is not modelled.** `TIME_CHANNEL` is imported through
  the `octobot_trading.channels` package. Its definition is not part of this
  model, so its name string is unknown here, and the model cannot register it
  under its own name.
- WebSocketsUtil.SearchWebsocketClass: `has_name` is a total pure function
  parameter. A `has_name` that raises, or that has side effects, is not
  modelled; it is taken to return normally.
- `get_exchange_websocket_from_name`: it is a call into the tentacles manager,
  which is not part of this model.
- InversePosition.UpdateInitialMargin: `_update_margin` is assumed to return
  normally. It belongs to the base position class, which is not part of this
  model. Its effect on the position's margin is not modelled.
- InversePosition.UpdateFeeToClose: the stored `fee_to_close` field and the
  `_update_margin` call are not modelled. Only the value and whether an
  InvalidOperation escapes are modelled, because the liquidation price depends
  on that.
- **Decimal precision, rounding, infinities and NaN are not modelled.** The
  arithmetic is exact over `real`.
- **Stored fields are not modelled.** The PnL and margin methods assign to
  position fields. The model returns the value instead.
- **Logging is not modelled.**
