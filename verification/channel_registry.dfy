/**
 * The process-wide channel directory: exchange name, then channel key,
 * then channel, with `set_chan`, `get_chan` and `del_chan`.
 *
 * An operation that raises after mutating nothing is modelled as returning
 * the registry it was given together with the exception.
 */
module ChannelRegistry {
  import opened Wrappers
  import opened ChannelNames
  import opened ExchangeChannel

  /**
   * The inner key: a string, or `None`. `set_chan` uses the channel's own
   * name string when its `name` argument is truthy and the falsy argument
   * itself (`None` or "") otherwise.
   */
  datatype ChannelKey = NoneKey | StrKey(s: string)

  /** The `name` argument of `set_chan`. */
  datatype NameArg = NoneArg | StrArg(s: string)

  /** The two exceptions the registry functions raise. */
  datatype RegistryError =
    | ValueError(key: ChannelKey)                   // the pair is already registered
    | KeyError(key: ChannelKey, exchange: string)   // the pair is not registered

  type Registry<P> = map<string, map<ChannelKey, Channel<P>>>

  /** The registry after a `set_chan`, and whether it raised. */
  datatype SetResult<P> = SetResult(registry: Registry<P>, outcome: Outcome<RegistryError>)

  /** The registry before any channel is created. */
  function EmptyRegistry<P>(): (reg: Registry<P>)
    ensures forall ex :: ex !in reg
  {
    map[]
  }

  /** The key a channel's own name gives: its name constant. */
  function OwnKey(channelName: ChannelName): ChannelKey {
    StrKey(NameString(channelName))
  }

  /** `chan_name = chan.get_name() if name else name`. */
  function RegistrationKey(channelName: ChannelName, name: NameArg): (k: ChannelKey)
    ensures name.StrArg? && name.s != "" <==> k == OwnKey(channelName)
    ensures name == NoneArg <==> k == NoneKey
    ensures name == StrArg("") <==> k == StrKey("")
  {
    match name
    case NoneArg => NoneKey
    case StrArg(s) => if s != "" then OwnKey(channelName) else StrKey("")
  }

  /** `set_chan(chan, name)`. */
  function SetChan<P>(reg: Registry<P>, chan: Channel<P>, name: NameArg): (r: SetResult<P>)
    ensures var ex, k := chan.exchange, RegistrationKey(chan.name, name);
            r.outcome.Fail? <==> ex in reg && k in reg[ex]
    ensures var ex, k := chan.exchange, RegistrationKey(chan.name, name);
            r.outcome.Fail? ==> r.outcome.error == ValueError(k) && r.registry == reg
    ensures var ex, k, reg' := chan.exchange, RegistrationKey(chan.name, name), r.registry;
            r.outcome.Pass? ==> && reg'.Keys == reg.Keys + {ex}
                                && reg'[ex].Keys == (if ex in reg then reg[ex].Keys else {}) + {k}
                                && reg'[ex][k] == chan
                                && (forall k' :: k' in reg'[ex] && k' != k ==> reg'[ex][k'] == reg[ex][k'])
                                && (forall ex' :: ex' in reg && ex' != ex ==> reg'[ex'] == reg[ex'])
  {
    var ex := chan.exchange;
    var k := RegistrationKey(chan.name, name);
    var inner := if ex in reg then reg[ex] else map[];
    if k !in inner then SetResult(reg[ex := inner[k := chan]], Pass)
    else SetResult(reg, Fail(ValueError(k)))
  }

  /** `get_chan(chan_name, exchange_name)`. */
  function GetChan<P>(reg: Registry<P>, key: ChannelKey, exchange: string): (r: Result<Channel<P>, RegistryError>)
    ensures r.Ok? <==> exchange in reg && key in reg[exchange]
    ensures r.Ok? ==> r.value == reg[exchange][key]
    ensures r.Err? ==> r.error == KeyError(key, exchange)
  {
    if exchange in reg && key in reg[exchange] then Ok(reg[exchange][key])
    else Err(KeyError(key, exchange))
  }

  /** `del_chan(chan_name, exchange_name)`: never raises; an emptied inner map is kept. */
  function DelChan<P>(reg: Registry<P>, key: ChannelKey, exchange: string): (r: Registry<P>)
    ensures r.Keys == reg.Keys
    ensures exchange in reg ==> r[exchange] == reg[exchange] - {key}
    ensures forall ex :: ex in reg && ex != exchange ==> r[ex] == reg[ex]
  {
    if exchange in reg && key in reg[exchange] then reg[exchange := reg[exchange] - {key}]
    else reg
  }

  /** A successful registration is found by lookup, and no other lookup changes. */
  lemma SetThenGet<P>(reg: Registry<P>, chan: Channel<P>, name: NameArg, key: ChannelKey, exchange: string)
    requires SetChan(reg, chan, name).outcome.Pass?
    ensures var reg' := SetChan(reg, chan, name).registry;
            if key == RegistrationKey(chan.name, name) && exchange == chan.exchange
            then GetChan(reg', key, exchange) == Ok(chan)
            else GetChan(reg', key, exchange) == GetChan(reg, key, exchange)
  {
  }

  /** Registering the same channel under the same name twice fails the second time. */
  lemma SetTwiceFails<P>(reg: Registry<P>, chan: Channel<P>, name: NameArg)
    requires SetChan(reg, chan, name).outcome.Pass?
    ensures var reg' := SetChan(reg, chan, name).registry;
            SetChan(reg', chan, name) == SetResult(reg', Fail(ValueError(RegistrationKey(chan.name, name))))
  {
  }

  /** After deletion the pair is not found, and every other lookup is as before. */
  lemma DelThenGet<P>(reg: Registry<P>, key: ChannelKey, exchange: string, key': ChannelKey, exchange': string)
    ensures var reg' := DelChan(reg, key, exchange);
            if key' == key && exchange' == exchange
            then GetChan(reg', key', exchange') == Err(KeyError(key', exchange'))
            else GetChan(reg', key', exchange') == GetChan(reg, key', exchange')
  {
  }

  /** Deleting a pair that is not registered is a no-op, and deleting twice is deleting once. */
  lemma DelIdempotent<P>(reg: Registry<P>, key: ChannelKey, exchange: string)
    ensures GetChan(reg, key, exchange).Err? ==> DelChan(reg, key, exchange) == reg
    ensures DelChan(DelChan(reg, key, exchange), key, exchange) == DelChan(reg, key, exchange)
  {
  }

  /** A channel registered under a truthy name is found under its own channel name. */
  lemma RegisteredUnderOwnName<P>(reg: Registry<P>, chan: Channel<P>, s: string)
    requires s != ""
    requires SetChan(reg, chan, StrArg(s)).outcome.Pass?
    ensures GetChan(SetChan(reg, chan, StrArg(s)).registry, StrKey(NameString(chan.name)), chan.exchange) == Ok(chan)
  {
  }

  /** In the empty registry every lookup fails and every registration succeeds. */
  lemma EmptyRegistryAcceptsAll<P>(chan: Channel<P>, name: NameArg, key: ChannelKey, exchange: string)
    ensures GetChan(EmptyRegistry<P>(), key, exchange) == Err(KeyError(key, exchange))
    ensures SetChan(EmptyRegistry(), chan, name).outcome == Pass
  {
  }

  /**
   * Two different channels of one exchange, both registered under a truthy
   * name, never collide: registering the first does not make the second fail.
   */
  lemma DistinctChannelsCoexist<P>(reg: Registry<P>, a: Channel<P>, b: Channel<P>, s: string, t: string)
    requires s != "" && t != "" && a.name != b.name
    requires SetChan(reg, a, StrArg(s)).outcome.Pass?
    ensures SetChan(SetChan(reg, a, StrArg(s)).registry, b, StrArg(t)).outcome.Pass?
            <==> SetChan(reg, b, StrArg(t)).outcome.Pass?
  {
    NameStringInjective(a.name, b.name);
  }
}
