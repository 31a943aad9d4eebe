/** The handler registry `HANDLERS_BY_EXCHANGE`: exchange name -> a per-
    exchange record whose "topic" entry maps a topic prefix to a handler.
    Handlers are kept abstract as the type parameter `H`. */
module Registry {
  import opened Wrappers

  type Registry<H> = map<string, map<string, map<string, H>>>

  /** The fixed key of the per-exchange record that holds the prefix map. */
  const TopicKey: string := "topic"

  /** Python's `KeyError`, carrying the key that was not found. */
  datatype KeyError = KeyError(key: string)

  /** The three keys of an exact lookup are all present. */
  predicate Registered<H>(registry: Registry<H>, exchange: string, prefix: string)
  {
    exchange in registry && TopicKey in registry[exchange] && prefix in registry[exchange][TopicKey]
  }

  /** `HANDLERS_BY_EXCHANGE[exchange]["topic"][prefix]`: the handler stored
      under exactly this exchange and prefix, or the `KeyError` of the first
      index that fails, in the order Python evaluates them. */
  function Lookup<H>(registry: Registry<H>, exchange: string, prefix: string): (r: Result<H, KeyError>)
    ensures r.Ok? <==> Registered(registry, exchange, prefix)
    ensures r.Ok? ==> r.value == registry[exchange][TopicKey][prefix]
    ensures r.Err? && exchange !in registry ==> r.error.key == exchange
    ensures r.Err? && exchange in registry ==>
              r.error.key == (if TopicKey !in registry[exchange] then TopicKey else prefix)
  {
    if exchange !in registry then Err(KeyError(exchange))
    else
      var handlerData := registry[exchange];
      if TopicKey !in handlerData then Err(KeyError(TopicKey))
      else if prefix !in handlerData[TopicKey] then Err(KeyError(prefix))
      else Ok(handlerData[TopicKey][prefix])
  }

  /** The registry flattened to one table keyed by (exchange, prefix): each
      key identifies at most one handler. */
  ghost function Table<H>(registry: Registry<H>): map<(string, string), H>
  {
    map e, p | e in registry && TopicKey in registry[e] && p in registry[e][TopicKey]
      :: (e, p) := registry[e][TopicKey][p]
  }

  /** Lookup is an exact match against the flat table: it finds a handler
      exactly when the (exchange, prefix) pair is a key of the table, and
      then the handler is the one the table holds; there is no default and
      no nearest match. */
  lemma LookupMatchesTable<H>(registry: Registry<H>, exchange: string, prefix: string)
    ensures Lookup(registry, exchange, prefix).Ok? <==> (exchange, prefix) in Table(registry)
    ensures Lookup(registry, exchange, prefix).Ok? ==>
              Lookup(registry, exchange, prefix).value == Table(registry)[(exchange, prefix)]
  {
  }
}
