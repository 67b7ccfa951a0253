/** The fixed set of exchange channel names the trading engine defines. */
module ChannelNames {

  /** The public and personal exchange data channels, then the internal trading-mode channel. */
  datatype ChannelName =
    | Ticker | MiniTicker | RecentTrade | Liquidations | OrderBook | OrderBookTicker
    | Kline | OHLCV | MarkPrice | Funding
    | Trades | Orders | Balance | BalanceProfitability | Positions
    | Mode

  /** The string constant naming each channel. */
  function NameString(n: ChannelName): (s: string)
    ensures s != ""
  {
    match n
    case Ticker => "Ticker"
    case MiniTicker => "MiniTicker"
    case RecentTrade => "RecentTrade"
    case Liquidations => "Liquidations"
    case OrderBook => "OrderBook"
    case OrderBookTicker => "OrderBookTicker"
    case Kline => "Kline"
    case OHLCV => "OHLCV"
    case MarkPrice => "MarkPrice"
    case Funding => "Funding"
    case Trades => "Trades"
    case Orders => "Orders"
    case Balance => "Balance"
    case BalanceProfitability => "BalanceProfitability"
    case Positions => "Positions"
    case Mode => "Mode"
  }

  /** Distinct channels have distinct name strings, so the strings are usable as registry keys. */
  lemma NameStringInjective(a: ChannelName, b: ChannelName)
    ensures NameString(a) == NameString(b) ==> a == b
  {
    if NameString(a) == NameString(b) {
      assert |NameString(a)| == |NameString(b)|;
      assert NameString(a)[0] == NameString(b)[0];
    }
  }
}
