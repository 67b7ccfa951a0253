/**
 * The per-exchange channel: its consumers, its pause flag, the base
 * producer's `send`, `pause` and `resume`, and consumer registration.
 *
 * A channel is an immutable value; every operation returns the new channel.
 * Each `await` of the source is one sequential step, and `queue.put` is an
 * append to the consumer's queue. Producer calls are returned as a trace so
 * that "which producer was paused or resumed, in what order" is observable.
 */
module ExchangeChannel {
  import opened Wrappers
  import opened Filters
  import opened ChannelNames

  type ConsumerId = nat
  type ProducerId = nat
  type CallbackId = nat

  /** A registered consumer: its constructor arguments, its filters and its queue. */
  datatype Consumer<P> = Consumer(
    id: ConsumerId,
    callback: Option<CallbackId>,
    size: nat,
    filterSize: bool,
    filters: Filters,
    queue: seq<P>,
    running: bool)

  /**
   * An exchange channel. `consumers` is in registration order, `producers`
   * is what `get_producers()` returns, and `nextId` is the next identity
   * handed to a consumer the channel constructs itself.
   */
  datatype Channel<P> = Channel(
    exchange: string,
    name: ChannelName,
    withTimeFrame: bool,
    consumers: seq<Consumer<P>>,
    producers: seq<ProducerId>,
    isPaused: bool,
    nextId: ConsumerId)

  /** A call the channel makes on one of its producers. */
  datatype ProducerCall = PauseCall(producer: ProducerId) | ResumeCall(producer: ProducerId)

  /** The consumers after a fan-out, and the identities whose queue received the payload, in put order. */
  datatype Delivery<P> = Delivery(consumers: seq<Consumer<P>>, puts: seq<ConsumerId>)

  /** The channel after a `send`, and the identities whose queue received the payload, in put order. */
  datatype SendResult<P> = SendResult(channel: Channel<P>, puts: seq<ConsumerId>)

  /** The channel after its producers were notified, and the calls made on them, in order. */
  datatype ProducerUpdate<P> = ProducerUpdate(channel: Channel<P>, calls: seq<ProducerCall>)

  /** The channel after a consumer was registered, and that consumer as stored. */
  datatype Registration<P> = Registration(channel: Channel<P>, consumer: Consumer<P>)

  /** Every registered consumer has an identity below `nextId`. */
  predicate Valid<P>(ch: Channel<P>) {
    forall i :: 0 <= i < |ch.consumers| ==> ch.consumers[i].id < ch.nextId
  }

  /** A freshly constructed channel: no consumers yet, so it starts paused. */
  function NewChannel<P>(exchange: string, name: ChannelName, withTimeFrame: bool,
                         producers: seq<ProducerId>): (ch: Channel<P>)
    ensures ch.isPaused && ch.consumers == [] && Valid(ch)
    ensures ch.exchange == exchange && ch.name == name && ch.producers == producers
  {
    Channel(exchange, name, withTimeFrame, [], producers, true, 0)
  }

  function Ids<P>(cs: seq<Consumer<P>>): (r: seq<ConsumerId>)
    ensures |r| == |cs|
    ensures forall i :: 0 <= i < |cs| ==> r[i] == cs[i].id
  {
    seq(|cs|, i requires 0 <= i < |cs| => cs[i].id)
  }

  /**
   * The matcher `get_consumer_from_filters`: the consumers whose filters
   * match `target`, in registration order.
   */
  function Matching<P>(cs: seq<Consumer<P>>, target: Filters): (r: seq<Consumer<P>>)
    ensures |r| <= |cs|
    ensures forall i :: 0 <= i < |r| ==> Matches(r[i].filters, target)
    ensures r == [] <==> forall i :: 0 <= i < |cs| ==> !Matches(cs[i].filters, target)
  {
    if cs == [] then []
    else if Matches(cs[0].filters, target) then [cs[0]] + Matching(cs[1..], target)
    else
      assert forall i :: 1 <= i < |cs| ==> cs[i] == cs[1..][i - 1];
      Matching(cs[1..], target)
  }

  /** A consumer is selected iff it is registered and its filters match. */
  lemma {:induction false} MatchingMembership<P>(cs: seq<Consumer<P>>, target: Filters, c: Consumer<P>)
    ensures c in Matching(cs, target) <==> c in cs && Matches(c.filters, target)
  {
    if cs != [] {
      MatchingMembership(cs[1..], target, c);
      assert c in cs <==> c == cs[0] || c in cs[1..] by { assert cs == [cs[0]] + cs[1..]; }
    }
  }

  /**
   * Selection distributes over concatenation: the consumers selected from
   * `a + b` are those selected from `a` followed by those selected from `b`,
   * so the selection keeps registration order and each entry's multiplicity.
   */
  lemma {:induction false} MatchingConcat<P>(a: seq<Consumer<P>>, b: seq<Consumer<P>>, target: Filters)
    ensures Matching(a + b, target) == Matching(a, target) + Matching(b, target)
  {
    if a == [] {
      assert a + b == b;
    } else {
      assert (a + b)[0] == a[0];
      assert (a + b)[1..] == a[1..] + b;
      MatchingConcat(a[1..], b, target);
    }
  }

  /** A consumer registered last is selected last, and only when it matches. */
  lemma MatchingAppend<P>(cs: seq<Consumer<P>>, c: Consumer<P>, target: Filters)
    ensures Matching(cs + [c], target) == Matching(cs, target) + (if Matches(c.filters, target) then [c] else [])
  {
    MatchingConcat(cs, [c], target);
    assert [c][1..] == [];
  }

  /** Every consumer matches the all-wildcard query, so it selects them all, in order. */
  lemma {:induction false} MatchingAllWildcard<P>(cs: seq<Consumer<P>>)
    ensures Matching(cs, ALL_WILDCARD) == cs
  {
    if cs != [] {
      WildcardMatching(cs[0].filters, ALL_WILDCARD);
      MatchingAllWildcard(cs[1..]);
      assert [cs[0]] + cs[1..] == cs;
    }
  }

  /** `get_filtered_consumers(symbol, time_frame)`. */
  function GetFilteredConsumers<P>(ch: Channel<P>, symbol: FilterValue, timeFrame: FilterValue): (r: seq<Consumer<P>>)
    ensures forall i :: 0 <= i < |r| ==> Matches(r[i].filters, Filters(symbol, timeFrame))
    ensures r == [] <==> forall i :: 0 <= i < |ch.consumers| ==> !Matches(ch.consumers[i].filters, Filters(symbol, timeFrame))
  {
    Matching(ch.consumers, Filters(symbol, timeFrame))
  }

  /** With its default arguments `get_filtered_consumers()` returns every registered consumer. */
  lemma DefaultQuerySelectsAll<P>(ch: Channel<P>)
    ensures GetFilteredConsumers(ch, WILDCARD, WILDCARD) == ch.consumers
    ensures |GetFilteredConsumers(ch, WILDCARD, WILDCARD)| == 0 <==> ch.consumers == []
  {
    MatchingAllWildcard(ch.consumers);
  }

  /**
   * One `for consumer in filtered: await consumer.queue.put(payload)` loop:
   * the new consumer list, and the identities of the consumers whose queue
   * received the payload, in the order the puts happened.
   */
  function FanOut<P>(cs: seq<Consumer<P>>, target: Filters, payload: P): (r: Delivery<P>)
    ensures |r.consumers| == |cs|
    ensures forall i :: 0 <= i < |cs| ==> r.consumers[i] == cs[i].(queue := r.consumers[i].queue)
    ensures forall i :: 0 <= i < |cs| ==>
              r.consumers[i].queue == cs[i].queue + (if Matches(cs[i].filters, target) then [payload] else [])
    ensures r.puts == Ids(Matching(cs, target))
  {
    if cs == [] then Delivery([], [])
    else
      var rest := FanOut(cs[1..], target, payload);
      if Matches(cs[0].filters, target) then
        Delivery([cs[0].(queue := cs[0].queue + [payload])] + rest.consumers, [cs[0].id] + rest.puts)
      else
        Delivery([cs[0]] + rest.consumers, rest.puts)
  }

  /**
   * `ExchangeChannelProducer.send(**kwargs)`: the payload is appended once
   * to the queue of every consumer `get_filtered_consumers()` returns, which
   * is every consumer, in registration order; nothing else changes.
   */
  function Send<P>(ch: Channel<P>, payload: P): (r: SendResult<P>)
    ensures r.channel == ch.(consumers := r.channel.consumers)
    ensures |r.channel.consumers| == |ch.consumers|
    ensures forall i :: 0 <= i < |ch.consumers| ==>
              r.channel.consumers[i] == ch.consumers[i].(queue := ch.consumers[i].queue + [payload])
    ensures r.puts == Ids(GetFilteredConsumers(ch, WILDCARD, WILDCARD))
    ensures r.puts == Ids(ch.consumers)
  {
    DefaultQuerySelectsAll(ch);
    var out := FanOut(ch.consumers, ALL_WILDCARD, payload);
    SendResult(ch.(consumers := out.consumers), out.puts)
  }

  /** `ExchangeChannelProducer.pause`: sets the channel flag only if it is not already set. */
  function Pause<P>(ch: Channel<P>): (r: Channel<P>)
    ensures r.isPaused
    ensures r == ch.(isPaused := r.isPaused)
    ensures ch.isPaused ==> r == ch
  {
    if !ch.isPaused then ch.(isPaused := true) else ch
  }

  /** `ExchangeChannelProducer.resume`: clears the channel flag only if it is set. */
  function Resume<P>(ch: Channel<P>): (r: Channel<P>)
    ensures !r.isPaused
    ensures r == ch.(isPaused := r.isPaused)
    ensures !ch.isPaused ==> r == ch
  {
    if ch.isPaused then ch.(isPaused := false) else ch
  }

  /** Pausing or resuming twice has no effect beyond the first call, and each undoes the other's flag. */
  lemma PauseResumeIdempotent<P>(ch: Channel<P>)
    ensures Pause(Pause(ch)) == Pause(ch)
    ensures Resume(Resume(ch)) == Resume(ch)
    ensures Resume(Pause(ch)) == ch.(isPaused := false)
    ensures Pause(Resume(ch)) == ch.(isPaused := true)
  {
  }

  /** The call made on one producer. */
  function Call(p: ProducerId, pausing: bool): ProducerCall {
    if pausing then PauseCall(p) else ResumeCall(p)
  }

  /** The call trace of one `for producer in get_producers()` loop. */
  function Calls(ps: seq<ProducerId>, pausing: bool): (r: seq<ProducerCall>)
    ensures |r| == |ps|
    ensures forall i :: 0 <= i < |ps| ==> r[i] == Call(ps[i], pausing)
  {
    if ps == [] then [] else [Call(ps[0], pausing)] + Calls(ps[1..], pausing)
  }

  /** One producer's `pause()` or `resume()` acting on the shared flag. */
  function Notify<P>(ch: Channel<P>, pausing: bool): (r: Channel<P>)
    ensures r == ch.(isPaused := pausing)
  {
    if pausing then Pause(ch) else Resume(ch)
  }

  /**
   * `for producer in self.get_producers(): await producer.pause()` (or
   * `resume()`): each producer's call acts on the shared channel flag.
   */
  function CallEach<P>(ch: Channel<P>, ps: seq<ProducerId>, pausing: bool): (r: ProducerUpdate<P>)
    ensures r.calls == Calls(ps, pausing)
    ensures ps == [] ==> r.channel == ch
    ensures ps != [] ==> r.channel == Notify(ch, pausing)
    decreases |ps|
  {
    if ps == [] then ProducerUpdate(ch, [])
    else
      var rest := CallEach(Notify(ch, pausing), ps[1..], pausing);
      ProducerUpdate(rest.channel, [Call(ps[0], pausing)] + rest.calls)
  }

  /**
   * `__check_producers_state`: the channel is paused exactly when no consumer
   * matches the default query; producers are called only when the flag flips.
   */
  function CheckProducersState<P>(ch: Channel<P>): (r: ProducerUpdate<P>)
    ensures r.channel == ch.(isPaused := r.channel.isPaused)
    ensures r.channel.isPaused <==> |GetFilteredConsumers(ch, WILDCARD, WILDCARD)| == 0
    ensures r.channel.isPaused == ch.isPaused ==> r.calls == []
    ensures r.channel.isPaused != ch.isPaused ==> r.calls == Calls(ch.producers, r.channel.isPaused)
  {
    var filtered := GetFilteredConsumers(ch, WILDCARD, WILDCARD);
    if |filtered| == 0 && !ch.isPaused then
      CallEach(ch.(isPaused := true), ch.producers, true)
    else if |filtered| != 0 && ch.isPaused then
      CallEach(ch.(isPaused := false), ch.producers, false)
    else
      ProducerUpdate(ch, [])
  }

  /** After re-evaluation a channel is paused exactly when it has no consumer at all. */
  lemma CheckedPausedIffNoConsumers<P>(ch: Channel<P>)
    ensures CheckProducersState(ch).channel.isPaused <==> ch.consumers == []
  {
    DefaultQuerySelectsAll(ch);
  }

  /** The symbol filter `__add_new_consumer_and_run` stores: any truthy symbol becomes the wildcard. */
  function ConsumerSymbolFilter(symbol: FilterValue): (r: FilterValue)
    ensures Truthy(symbol) ==> r == WILDCARD
    ensures !Truthy(symbol) ==> r == symbol
    ensures r == WILDCARD || !Truthy(r)
  {
    if Truthy(symbol) then WILDCARD else symbol
  }

  /**
   * `__add_new_consumer_and_run`: normalise the filters, register the
   * consumer (appended last) and start it.
   */
  function AddNewConsumerAndRun<P>(ch: Channel<P>, consumer: Consumer<P>, symbol: FilterValue,
                                   withTimeFrame: bool): (r: Registration<P>)
    ensures r.consumer.filters.symbol == WILDCARD || !Truthy(r.consumer.filters.symbol)
    ensures Truthy(symbol) ==> r.consumer.filters.symbol == WILDCARD
    ensures !Truthy(symbol) ==> r.consumer.filters.symbol == symbol
    ensures r.consumer.filters.timeFrame == WILDCARD <==> withTimeFrame
    ensures !withTimeFrame ==> r.consumer.filters.timeFrame == Null
    ensures r.consumer == consumer.(filters := r.consumer.filters, running := true)
    ensures r.channel == ch.(consumers := ch.consumers + [r.consumer])
  {
    var filters := Filters(ConsumerSymbolFilter(symbol), if withTimeFrame then WILDCARD else Null);
    var started := consumer.(filters := filters, running := true);
    Registration(ch.(consumers := ch.consumers + [started]), started)
  }

  datatype NewConsumerResult<P> = NewConsumerResult(channel: Channel<P>, consumer: Consumer<P>, calls: seq<ProducerCall>)

  function Max(a: nat, b: nat): nat {
    if a < b then b else a
  }

  /**
   * `new_consumer`: use the supplied consumer instance or construct one,
   * register and start it, then re-evaluate the pause state. The
   * `consumer_filters` argument is accepted and never read: the stored
   * filters come from `symbol` and the channel's time-frame flag alone.
   */
  function NewConsumer<P>(ch: Channel<P>, callback: Option<CallbackId>, consumerFilters: Option<Filters>,
                          instance: Option<Consumer<P>>, size: nat, filterSize: bool,
                          symbol: FilterValue): (r: NewConsumerResult<P>)
    ensures r.channel.consumers == ch.consumers + [r.consumer]
    ensures r.channel.exchange == ch.exchange && r.channel.name == ch.name
    ensures r.channel.producers == ch.producers && r.channel.withTimeFrame == ch.withTimeFrame
    ensures !r.channel.isPaused
    ensures r.calls == (if ch.isPaused then Calls(ch.producers, false) else [])
    ensures r.consumer.running
    ensures r.consumer.filters.symbol == ConsumerSymbolFilter(symbol)
    ensures r.consumer.filters.timeFrame == (if ch.withTimeFrame then WILDCARD else Null)
    ensures instance.Some? ==> r.consumer == instance.value.(filters := r.consumer.filters, running := true)
    ensures instance.None? ==> r.consumer.id == ch.nextId && r.consumer.queue == []
    ensures instance.None? ==> r.consumer.callback == callback && r.consumer.size == size
                               && r.consumer.filterSize == filterSize
    ensures instance.None? && Valid(ch) ==> r.consumer.id !in Ids(ch.consumers)
    ensures Valid(ch) ==> Valid(r.channel)
  {
    var consumer := if instance.Some? then instance.value
                    else Consumer(ch.nextId, callback, size, filterSize, Filters(Null, Null), [], false);
    var ch1 := ch.(nextId := Max(ch.nextId, consumer.id + 1));
    var added := AddNewConsumerAndRun(ch1, consumer, symbol, ch.withTimeFrame);
    DefaultQuerySelectsAll(added.channel);
    var checked := CheckProducersState(added.channel);
    NewConsumerResult(checked.channel, added.consumer, checked.calls)
  }

  /** Whatever `consumer_filters` a caller passes, `new_consumer` does the same thing. */
  lemma ConsumerFiltersIgnored<P>(ch: Channel<P>, callback: Option<CallbackId>, f1: Option<Filters>,
                                  f2: Option<Filters>, instance: Option<Consumer<P>>, size: nat,
                                  filterSize: bool, symbol: FilterValue)
    ensures NewConsumer(ch, callback, f1, instance, size, filterSize, symbol)
            == NewConsumer(ch, callback, f2, instance, size, filterSize, symbol)
  {
  }

  /**
   * The first consumer registered on a new channel takes it from paused to
   * active, and every producer is resumed exactly once, in order.
   */
  lemma FirstConsumerResumesProducers<P>(exchange: string, name: ChannelName, withTimeFrame: bool,
                                         producers: seq<ProducerId>, callback: Option<CallbackId>,
                                         consumerFilters: Option<Filters>, size: nat, filterSize: bool,
                                         symbol: FilterValue)
    ensures var ch: Channel<P> := NewChannel(exchange, name, withTimeFrame, producers);
            var r := NewConsumer(ch, callback, consumerFilters, None, size, filterSize, symbol);
            && r.channel.consumers == [r.consumer]
            && !r.channel.isPaused
            && r.calls == Calls(producers, false)
            && |r.calls| == |producers|
            && (forall i :: 0 <= i < |producers| ==> r.calls[i] == ResumeCall(producers[i]))
  {
  }
}
