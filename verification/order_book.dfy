/**
 * The order-book producer: a gate that drops an update before any work when
 * nobody listens, the update of the exchange's per-symbol order book, and a
 * per-symbol fan-out of `{exchange, symbol, asks, bids}`.
 */
module OrderBookChannel {
  import opened Wrappers
  import opened Filters
  import opened ExchangeChannel

  /** One raw book level as the exchange adapter passes it; the channel never inspects it. */
  datatype Level = Level(price: real, amount: real)

  /** The payload an order-book consumer receives. */
  datatype OrderBookMessage = OrderBookMessage(exchange: string, symbol: string, asks: seq<Level>, bids: seq<Level>)

  /** The per-symbol order-book state the exchange manager owns. */
  datatype BookSnapshot = BookSnapshot(asks: seq<Level>, bids: seq<Level>)

  type Books = map<string, BookSnapshot>

  /**
   * How the exchange manager's `get_symbol_data(symbol).handle_order_book_update`
   * ends: it returns, or raises `CancelledError` or another exception.
   */
  datatype UpdateFault = Completes | RaisesCancelled | RaisesException

  /** How `perform` ended; no case is an exception leaving `perform`. */
  datatype PerformOutcome =
    | Skipped                        // no consumer matched: nothing was done
    | Sent(puts: seq<ConsumerId>)    // the book was updated and these queues received the payload
    | SwallowedCancellation          // the update raised CancelledError: logged, not re-raised
    | SwallowedException             // the update raised another exception: logged

  datatype PerformResult = PerformResult(channel: Channel<OrderBookMessage>, books: Books, outcome: PerformOutcome)

  /** The gate of `perform`: some consumer matches the wildcard symbol or the pushed symbol. */
  predicate HasListener(ch: Channel<OrderBookMessage>, symbol: string) {
    |GetFilteredConsumers(ch, WILDCARD, WILDCARD)| != 0 || |GetFilteredConsumers(ch, Str(symbol), WILDCARD)| != 0
  }

  /**
   * Because the wildcard query matches every consumer, the gate is open
   * exactly when the channel has a consumer at all, whatever the symbol.
   */
  lemma HasListenerIffAnyConsumer(ch: Channel<OrderBookMessage>, symbol: string)
    ensures HasListener(ch, symbol) <==> ch.consumers != []
  {
    DefaultQuerySelectsAll(ch);
  }

  /**
   * `OrderBookProducer.send`: the message is appended to the queue of every
   * consumer matching the symbol, in registration order, with asks and bids
   * passed through unchanged.
   */
  function Send(ch: Channel<OrderBookMessage>, symbol: string, asks: seq<Level>, bids: seq<Level>)
    : (r: SendResult<OrderBookMessage>)
    ensures r.channel == ch.(consumers := r.channel.consumers)
    ensures |r.channel.consumers| == |ch.consumers|
    ensures forall i :: 0 <= i < |ch.consumers| ==>
              r.channel.consumers[i] == ch.consumers[i].(queue := r.channel.consumers[i].queue)
    ensures forall i :: 0 <= i < |ch.consumers| ==>
              r.channel.consumers[i].queue
              == ch.consumers[i].queue
                 + (if Matches(ch.consumers[i].filters, Filters(Str(symbol), WILDCARD))
                    then [OrderBookMessage(ch.exchange, symbol, asks, bids)] else [])
    ensures r.puts == Ids(GetFilteredConsumers(ch, Str(symbol), WILDCARD))
  {
    var out := FanOut(ch.consumers, Filters(Str(symbol), WILDCARD), OrderBookMessage(ch.exchange, symbol, asks, bids));
    SendResult(ch.(consumers := out.consumers), out.puts)
  }

  /**
   * `OrderBookProducer.perform`: when some consumer listens, update the
   * symbol's order book and send; `CancelledError` and every `Exception`
   * are swallowed, and a failed update skips the send.
   */
  function Perform(ch: Channel<OrderBookMessage>, books: Books, symbol: string,
                   asks: seq<Level>, bids: seq<Level>, fault: UpdateFault): (r: PerformResult)
    ensures !HasListener(ch, symbol) ==> r == PerformResult(ch, books, Skipped)
    ensures HasListener(ch, symbol) && fault == RaisesCancelled ==>
              r == PerformResult(ch, books, SwallowedCancellation)
    ensures HasListener(ch, symbol) && fault == RaisesException ==>
              r == PerformResult(ch, books, SwallowedException)
    ensures r.outcome.Sent? <==> HasListener(ch, symbol) && fault == Completes
    ensures r.outcome.Sent? ==> r.books == books[symbol := BookSnapshot(asks, bids)]
    ensures r.outcome.Sent? ==> SendResult(r.channel, r.outcome.puts) == Send(ch, symbol, asks, bids)
    ensures r.channel.isPaused == ch.isPaused && r.channel.producers == ch.producers
    ensures forall s :: s != symbol ==> (s in r.books <==> s in books)
    ensures forall s :: s != symbol && s in books ==> r.books[s] == books[s]
  {
    if HasListener(ch, symbol) then
      match fault
      case RaisesCancelled => PerformResult(ch, books, SwallowedCancellation)
      case RaisesException => PerformResult(ch, books, SwallowedException)
      case Completes =>
        var sent := Send(ch, symbol, asks, bids);
        PerformResult(sent.channel, books[symbol := BookSnapshot(asks, bids)], Sent(sent.puts))
    else
      PerformResult(ch, books, Skipped)
  }

  /** `OrderBookProducer.push` only awaits `perform` with the same arguments. */
  function Push(ch: Channel<OrderBookMessage>, books: Books, symbol: string,
                asks: seq<Level>, bids: seq<Level>, fault: UpdateFault): (r: PerformResult)
    ensures r == Perform(ch, books, symbol, asks, bids, fault)
  {
    Perform(ch, books, symbol, asks, bids, fault)
  }

  /**
   * When no consumer is registered, `perform` touches neither the shared
   * order books nor any queue, whatever the symbol and the update's fate.
   */
  lemma NoConsumerNoWork(ch: Channel<OrderBookMessage>, books: Books, symbol: string,
                         asks: seq<Level>, bids: seq<Level>, fault: UpdateFault)
    requires ch.consumers == []
    ensures Perform(ch, books, symbol, asks, bids, fault) == PerformResult(ch, books, Skipped)
  {
    HasListenerIffAnyConsumer(ch, symbol);
  }

  /**
   * A consumer whose stored symbol filter is the concrete "ETH/BTC" still
   * opens the gate for "BTC/USDT": the book for "BTC/USDT" is updated, yet
   * the consumer's queue receives nothing.
   */
  lemma ConcreteFilterStillOpensGate(exchange: string, books: Books, asks: seq<Level>, bids: seq<Level>)
    ensures var c := Consumer(0, None, 0, false, Filters(Str("ETH/BTC"), Null), [], true);
            var ch := Channel(exchange, ChannelNames.OrderBook, false, [c], [0], false, 1);
            var r := Perform(ch, books, "BTC/USDT", asks, bids, Completes);
            && r.books == books["BTC/USDT" := BookSnapshot(asks, bids)]
            && r.channel == ch
            && r.outcome == Sent([])
  {
    var c := Consumer(0, None, 0, false, Filters(Str("ETH/BTC"), Null), [], true);
    var ch: Channel<OrderBookMessage> := Channel(exchange, ChannelNames.OrderBook, false, [c], [0], false, 1);
    HasListenerIffAnyConsumer(ch, "BTC/USDT");
    assert Str("ETH/BTC") != Str("BTC/USDT") by { assert "ETH/BTC"[0] != "BTC/USDT"[0]; }
    assert !Matches(c.filters, Filters(Str("BTC/USDT"), WILDCARD)) by {
      assert Str("ETH/BTC") != WILDCARD && Str("BTC/USDT") != WILDCARD;
    }
    var sent := Send(ch, "BTC/USDT", asks, bids);
    assert sent.channel.consumers[0] == c;
    assert sent.channel == ch;
  }
}
