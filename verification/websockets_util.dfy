/**
 * The web-socket configuration predicates and the first-match search for
 * an exchange's web-socket class.
 *
 * The configuration is a Python dictionary; its values are modelled as a
 * small JSON-like value type with Python's truthiness, `in` and `[]`.
 */
module WebSocketsUtil {
  import opened Wrappers

  /** A configuration value. */
  datatype Value =
    | VNone
    | VBool(b: bool)
    | VNum(n: real)
    | VStr(s: string)
    | VList(items: seq<Value>)
    | VDict(entries: map<string, Value>)

  /** The exceptions the lookups can raise. */
  datatype PyError = KeyError | TypeError

  const CONFIG_EXCHANGES: string := "exchanges"
  const CONFIG_EXCHANGE_WEB_SOCKET: string := "web-socket"

  /** Python truthiness: `None`, `False`, zero and empty containers are falsy. */
  predicate Truthy(v: Value) {
    match v
    case VNone => false
    case VBool(b) => b
    case VNum(n) => n != 0.0
    case VStr(s) => s != ""
    case VList(items) => items != []
    case VDict(entries) => entries != map[]
  }

  /** `sub` occurs as a contiguous part of `s`. */
  predicate IsSubstring(sub: string, s: string)
    decreases |s|
  {
    sub <= s || (s != [] && IsSubstring(sub, s[1..]))
  }

  /** `key in v`: key of a dictionary, element of a list, substring of a string. */
  function Contains(v: Value, key: string): (r: Result<bool, PyError>)
    ensures r.Err? <==> !(v.VDict? || v.VList? || v.VStr?)
    ensures r.Err? ==> r.error == TypeError
    ensures v.VDict? ==> r == Ok(key in v.entries)
    ensures v.VList? ==> r == Ok(VStr(key) in v.items)
  {
    match v
    case VDict(entries) => Ok(key in entries)
    case VList(items) => Ok(VStr(key) in items)
    case VStr(s) => Ok(IsSubstring(key, s))
    case _ => Err(TypeError)
  }

  /** `v[key]` with a string key: only a dictionary can be indexed so. */
  function GetItem(v: Value, key: string): (r: Result<Value, PyError>)
    ensures r.Ok? <==> v.VDict? && key in v.entries
    ensures r.Ok? ==> r.value == v.entries[key]
    ensures r.Err? ==> (r.error == KeyError <==> v.VDict?)
  {
    match v
    case VDict(entries) => if key in entries then Ok(entries[key]) else Err(KeyError)
    case _ => Err(TypeError)
  }

  /** `config["exchanges"][exchange_name]`. */
  function ExchangeConfig(config: map<string, Value>, exchangeName: string): (r: Result<Value, PyError>)
    ensures r.Ok? <==> CONFIG_EXCHANGES in config && config[CONFIG_EXCHANGES].VDict?
                       && exchangeName in config[CONFIG_EXCHANGES].entries
    ensures r.Ok? ==> r.value == config[CONFIG_EXCHANGES].entries[exchangeName]
  {
    if CONFIG_EXCHANGES in config then GetItem(config[CONFIG_EXCHANGES], exchangeName)
    else Err(KeyError)
  }

  /** The exchange's configuration is present and is a dictionary holding `key`. */
  ghost predicate ExchangeHasKey(config: map<string, Value>, exchangeName: string, key: string) {
    && CONFIG_EXCHANGES in config
    && config[CONFIG_EXCHANGES].VDict?
    && exchangeName in config[CONFIG_EXCHANGES].entries
    && config[CONFIG_EXCHANGES].entries[exchangeName].VDict?
    && key in config[CONFIG_EXCHANGES].entries[exchangeName].entries
  }

  /**
   * `force_disable_web_socket`: true exactly when the exchange's
   * configuration holds the "web-socket" key with a falsy value.
   */
  function ForceDisableWebSocket(config: map<string, Value>, exchangeName: string): (r: Result<bool, PyError>)
    ensures r == Ok(true) <==>
              ExchangeHasKey(config, exchangeName, CONFIG_EXCHANGE_WEB_SOCKET)
              && !Truthy(config[CONFIG_EXCHANGES].entries[exchangeName].entries[CONFIG_EXCHANGE_WEB_SOCKET])
    ensures CONFIG_EXCHANGES !in config ==> r == Err(KeyError)
    ensures (CONFIG_EXCHANGES in config && config[CONFIG_EXCHANGES].VDict?
             && exchangeName !in config[CONFIG_EXCHANGES].entries) ==> r == Err(KeyError)
    ensures (CONFIG_EXCHANGES in config && config[CONFIG_EXCHANGES].VDict?
             && exchangeName in config[CONFIG_EXCHANGES].entries
             && config[CONFIG_EXCHANGES].entries[exchangeName].VDict?
             && !ExchangeHasKey(config, exchangeName, CONFIG_EXCHANGE_WEB_SOCKET)) ==> r == Ok(false)
    ensures ExchangeHasKey(config, exchangeName, CONFIG_EXCHANGE_WEB_SOCKET)
            && Truthy(config[CONFIG_EXCHANGES].entries[exchangeName].entries[CONFIG_EXCHANGE_WEB_SOCKET])
            ==> r == Ok(false)
  {
    match ExchangeConfig(config, exchangeName)
    case Err(e) => Err(e)
    case Ok(exchange) =>
      match Contains(exchange, CONFIG_EXCHANGE_WEB_SOCKET)
      case Err(e) => Err(e)
      case Ok(present) =>
        if !present then Ok(false)
        else
          match GetItem(exchange, CONFIG_EXCHANGE_WEB_SOCKET)
          case Err(e) => Err(e)
          case Ok(v) => Ok(!Truthy(v))
  }

  /** `check_web_socket_config`: the negation of `force_disable_web_socket`, failing alike. */
  function CheckWebSocketConfig(config: map<string, Value>, exchangeName: string): (r: Result<bool, PyError>)
    ensures r.Err? <==> ForceDisableWebSocket(config, exchangeName).Err?
    ensures r.Err? ==> r.error == ForceDisableWebSocket(config, exchangeName).error
    ensures r.Ok? ==> r.value == !ForceDisableWebSocket(config, exchangeName).value
    ensures r == Ok(false) <==>
              ExchangeHasKey(config, exchangeName, CONFIG_EXCHANGE_WEB_SOCKET)
              && !Truthy(config[CONFIG_EXCHANGES].entries[exchangeName].entries[CONFIG_EXCHANGE_WEB_SOCKET])
    ensures ExchangeHasKey(config, exchangeName, CONFIG_EXCHANGE_WEB_SOCKET)
            && Truthy(config[CONFIG_EXCHANGES].entries[exchangeName].entries[CONFIG_EXCHANGE_WEB_SOCKET])
            ==> r == Ok(true)
  {
    match ForceDisableWebSocket(config, exchangeName)
    case Err(e) => Err(e)
    case Ok(disabled) => Ok(!disabled)
  }

  /** Without a "web-socket" entry, web sockets are allowed. */
  lemma AbsentKeyAllowsWebSocket(config: map<string, Value>, exchangeName: string, settings: map<string, Value>)
    requires CONFIG_EXCHANGES in config && config[CONFIG_EXCHANGES].VDict?
    requires exchangeName in config[CONFIG_EXCHANGES].entries
    requires config[CONFIG_EXCHANGES].entries[exchangeName] == VDict(settings)
    requires CONFIG_EXCHANGE_WEB_SOCKET !in settings
    ensures ForceDisableWebSocket(config, exchangeName) == Ok(false)
    ensures CheckWebSocketConfig(config, exchangeName) == Ok(true)
  {
  }

  /** The first element of `candidates` satisfying `hasName`, by a reference definition. */
  function FirstWithName<W, M>(candidates: seq<W>, hasName: (W, M) -> bool, exchangeManager: M): Option<W>
  {
    if candidates == [] then None
    else if hasName(candidates[0], exchangeManager) then Some(candidates[0])
    else FirstWithName(candidates[1..], hasName, exchangeManager)
  }

  /**
   * `search_websocket_class`: scan the subclasses in declaration order and
   * return the first whose `has_name(exchange_manager)` holds, else `None`.
   */
  method SearchWebsocketClass<W, M>(subclasses: seq<W>, hasName: (W, M) -> bool, exchangeManager: M)
    returns (r: Option<W>)
    ensures r.None? <==> forall i :: 0 <= i < |subclasses| ==> !hasName(subclasses[i], exchangeManager)
    ensures r.Some? ==> exists i :: && 0 <= i < |subclasses|
                                    && subclasses[i] == r.value
                                    && hasName(r.value, exchangeManager)
                                    && forall j :: 0 <= j < i ==> !hasName(subclasses[j], exchangeManager)
    ensures r == FirstWithName(subclasses, hasName, exchangeManager)
  {
    var k := 0;
    while k < |subclasses|
      invariant 0 <= k <= |subclasses|
      invariant forall j :: 0 <= j < k ==> !hasName(subclasses[j], exchangeManager)
      invariant FirstWithName(subclasses, hasName, exchangeManager)
                == FirstWithName(subclasses[k..], hasName, exchangeManager)
    {
      if hasName(subclasses[k], exchangeManager) {
        return Some(subclasses[k]);
      }
      assert subclasses[k..][1..] == subclasses[k + 1..];
      k := k + 1;
    }
    return None;
  }
}
