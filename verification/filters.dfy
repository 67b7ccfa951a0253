/**
 * Consumer filters and the matcher of the channel library.
 *
 * A filter set maps the two routing keys of an exchange channel, `symbol`
 * and `time_frame`, to a value. The channel wildcard is the string "*",
 * so a literal "*" passed as a symbol is the wildcard, as it is in Python.
 */
module Filters {

  /** A filter value: Python's `None` or a string. */
  datatype FilterValue = Null | Str(s: string)

  /** The channel library's wildcard, the string "*". */
  const WILDCARD: FilterValue := Str("*")

  /** Python truthiness of a filter argument: `None` and "" are falsy. */
  predicate Truthy(v: FilterValue) {
    v.Str? && v.s != ""
  }

  /** The `{symbol, time_frame}` filter map of a consumer or of a query. */
  datatype Filters = Filters(symbol: FilterValue, timeFrame: FilterValue)

  /** The query `get_filtered_consumers()` makes with its default arguments. */
  const ALL_WILDCARD: Filters := Filters(WILDCARD, WILDCARD)

  /** One key matches when either side is the wildcard or both are equal. */
  predicate KeyMatches(consumerValue: FilterValue, targetValue: FilterValue) {
    consumerValue == WILDCARD || targetValue == WILDCARD || consumerValue == targetValue
  }

  /** A consumer's filters match a query when every key of the query matches. */
  predicate Matches(consumer: Filters, target: Filters) {
    KeyMatches(consumer.symbol, target.symbol) && KeyMatches(consumer.timeFrame, target.timeFrame)
  }

  /** The matcher accepts anything against the all-wildcard filter, from either side, and is symmetric. */
  lemma WildcardMatching(consumer: Filters, target: Filters)
    ensures Matches(consumer, ALL_WILDCARD) && Matches(ALL_WILDCARD, target)
    ensures Matches(consumer, target) <==> Matches(target, consumer)
    ensures consumer.symbol != WILDCARD && target.symbol != WILDCARD && consumer.symbol != target.symbol
            ==> !Matches(consumer, target)
  {
  }
}
