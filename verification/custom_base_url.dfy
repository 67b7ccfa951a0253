/** The per-exchange table of host names that override the exchange library's defaults. */
module CustomBaseUrl {
  import opened Wrappers

  /** Exchange name, then endpoint kind, then host name. */
  const CUSTOM_BASE_URL: map<string, map<string, string>> := map[
    "okx" := map[
      "myokx" := "my.okx.com",
      "rest" := "eea.okx.com",
      "websocket" := "wseea.okx.com"
    ]
  ]

  /** `table.get(exchange_name, {}).get(endpoint)`. */
  function Lookup(table: map<string, map<string, string>>, exchangeName: string, endpoint: string): (r: Option<string>)
    ensures r.Some? <==> exchangeName in table && endpoint in table[exchangeName]
    ensures r.Some? ==> r.value == table[exchangeName][endpoint]
  {
    var inner := if exchangeName in table then table[exchangeName] else map[];
    if endpoint in inner then Some(inner[endpoint]) else None
  }

  /** `CustomBaseUrlConfig.get_custom_base_url` over the fixed table. */
  function GetCustomBaseUrl(exchangeName: string, endpoint: string): (r: Option<string>)
    ensures exchangeName != "okx" ==> r == None
    ensures exchangeName == "okx" && endpoint == "myokx" ==> r == Some("my.okx.com")
    ensures exchangeName == "okx" && endpoint == "rest" ==> r == Some("eea.okx.com")
    ensures exchangeName == "okx" && endpoint == "websocket" ==> r == Some("wseea.okx.com")
    ensures endpoint !in {"myokx", "rest", "websocket"} ==> r == None
  {
    Lookup(CUSTOM_BASE_URL, exchangeName, endpoint)
  }
}
