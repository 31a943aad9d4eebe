# pulse_actions worker: routing and dry-run dispatch

This project models the start-up and dispatch logic of the `pulse_actions`
worker (`pulse_actions/worker.py`). The worker reads a run-time
configuration naming a Pulse exchange and a topic. It routes on the topic's
first dot-separated segment: it looks up a handler in the registry
`HANDLERS_BY_EXCHANGE[exchange]["topic"][prefix]`. If any key is missing it
logs an error and exits with status 1. Otherwise it subscribes to the
exchange with fixed subscription arguments and a callback that forwards
every `(data, message)` delivery to the handler with `dry_run` forced to
true.

Modules:

- `Wrappers` (`wrappers.dfy`): `Option` and `Result`.
- `Topics` (`topics.dfy`): Python's `str.split` with a one-character
  separator, its inverse `join`, and the topic prefix `topic.split('.')[0]`.
- `Registry` (`registry.dfy`): the three-level handler registry, the exact
  lookup with Python's `KeyError` naming the first missing key, and the
  registry seen as a flat table keyed by (exchange, prefix).
- `Dispatch` (`dispatch.dfy`): the `handler_with_dry_run` closure as a
  bound-callback value. One delivery returns the handler calls it made and
  the handler's result. `Trace` gives the calls made over a sequence of
  deliveries.
- `Worker` (`worker.dfy`): `pulse_args`, `run_pulse` up to its listen loop,
  and `main` after configuration loading, as the method `Start`.

Handlers are the type parameter `H`. Their effect is an abstract function
`invoke`, so the model records each handler call as a value. Resolution is a
function of the registry, exchange and topic, so the same inputs always give
the same outcome.

Behaviour of the code worth noting, which the model keeps:

- An empty topic, or one that starts with `'.'`, routes on the empty prefix
  `""` (pulse_actions/worker.py:70).
- A registered exchange whose record has no `"topic"` entry also exits with
  status 1, like an unknown exchange or an unknown prefix
  (pulse_actions/worker.py:72-77).
- `dry_run` is never read from configuration: `main` always passes `True`
  (pulse_actions/worker.py:83).

## Model

| member | source | states |
|---|---|---|
| `Topics.Split` | pulse_actions/worker.py:70 | `str.split(sep)` always yields at least one segment, and no segment contains the separator |
| `Topics.JoinSplit` | pulse_actions/worker.py:70 | joining the segments of a split with the separator gives back the original string |
| `Topics.SplitJoin` | pulse_actions/worker.py:70 | splitting a join of separator-free segments gives back the same segments |
| `Topics.SplitPrependSegment` | pulse_actions/worker.py:70 | a separator-free block in front of a string extends only the first segment of its split |
| `Topics.SplitHead` | pulse_actions/worker.py:70 | the first segment is a prefix of the string and ends at the end of the string or at a separator |
| `Topics.TopicBase` | pulse_actions/worker.py:70 | the topic prefix is a prefix of the topic, contains no '.', and is followed by '.' whenever it is shorter than the topic |
| `Topics.TopicBaseUnique` | pulse_actions/worker.py:70 | a string is the topic prefix if and only if it is a dot-free prefix of the topic that ends at the topic's end or at a '.' |
| `Topics.TopicBaseOfDotted` | pulse_actions/worker.py:70 | a topic `word.rest` with a dot-free `word` routes on `word` whatever `rest` is; a dot-free topic routes on itself |
| `Topics.TopicBaseExampleDotted` | pulse_actions/worker.py:70 | "build.linux.success" has prefix "build" |
| `Topics.TopicBaseExampleUndotted` | pulse_actions/worker.py:70 | "deploy" has prefix "deploy" |
| `Topics.TopicBaseExampleEmpty` | pulse_actions/worker.py:70 | the empty topic and ".hidden" both have the empty prefix |
| `Registry.Lookup` | pulse_actions/worker.py:72-73 | the lookup succeeds if and only if the exchange is a key, its record has a "topic" map and the prefix is a key of that map, and then returns exactly the stored handler; a failure names the first missing key |
| `Registry.LookupMatchesTable` | pulse_actions/worker.py:72-74 | lookup agrees with the registry flattened to a table keyed by (exchange, prefix): it finds a handler exactly for the table's keys and returns the table's entry, never a default or a nearest match |
| `Dispatch.HandlerWithDryRun` | pulse_actions/worker.py:47-48 | one delivery makes exactly one handler call, with the same data and message and the bound dry-run flag, and returns the handler's result unchanged |
| `Dispatch.TraceOneCallPerMessage` | pulse_actions/worker.py:47-56 | over any sequence of deliveries the bound handler is called once per message, in delivery order, with that message and the bound flag |
| `Dispatch.TraceKeepsBinding` | pulse_actions/worker.py:47-48 | every call made over any sequence of deliveries goes to the bound handler with the bound flag: the flag is never flipped or defaulted |
| `Worker.MakePulseArgs` | pulse_actions/worker.py:34-43 | the subscription arguments carry the label "pulse_actions", durable true, the configured topic unchanged, and the user and password exactly as read, possibly absent |
| `Worker.RunPulse` | pulse_actions/worker.py:27-53 | setting up the consumer subscribes to the given exchange with those arguments and a callback bound to the given handler and dry-run flag, and writes the info record naming the exchange and topic |
| `Worker.Start` | pulse_actions/worker.py:70-83 | start-up exits if and only if the (exchange, topic prefix) pair is not registered; an exit has status 1 and the error record naming exchange and topic; otherwise the subscription uses the configured exchange and topic unchanged, the registered handler and dry-run true, and the info record names the exchange and topic |
| `Worker.ScenarioKnownTopic` | pulse_actions/worker.py:70-73 | "build.success" on "exchange/jobs" resolves to the handler registered for "build" |
| `Worker.StartKnownTopic` | pulse_actions/worker.py:70-83 | start-up with "build.success" on "exchange/jobs" subscribes to that exchange and topic, and a delivery through the callback it builds reaches the "build" handler once with dry-run true |
| `Worker.StartUnknownTopic` | pulse_actions/worker.py:70-77 | start-up with "unknown.topic" on "exchange/jobs" ends with the error record naming exchange and topic and exit status 1, and no subscription |
| `Worker.ScenarioUnknownTopic` | pulse_actions/worker.py:70-77 | "unknown.topic" on "exchange/jobs" fails the lookup with a `KeyError` on "unknown" |
| `Worker.ScenarioUnknownExchange` | pulse_actions/worker.py:72-77 | an unregistered exchange fails the lookup with a `KeyError` on the exchange name, whatever the prefix |

## Left out

- Loading `run_time_config.json` (pulse_actions/worker.py:60-63) is file I/O. `Options` holds an exchange and a topic that are both present. The crash when `topic` is missing (line 70, outside the `try`) is not modelled. Neither is the re-raised `KeyError` when `exchange` is missing (line 76 indexes it again inside the `except`).
- Logging configuration and levels (pulse_actions/worker.py:10-11, 65-67) are global side effects. Only the records start-up writes are kept, as `LogRecord` values in the outcome.
- Reading `PULSE_USER` and `PULSE_PW` (pulse_actions/worker.py:35-36) is environment I/O. The values are the `Env` parameter, each an `Option`.
- `PulseConsumer`, `GenericConsumer` and `PulseConfiguration` (pulse_actions/worker.py:7-8, 14-24, 50-52) wrap a broker client library that is not part of this model. Consumer creation is the `Subscription` value.
- The loop `while True: pulse.listen()` (pulse_actions/worker.py:55-56) blocks on the network and never returns normally. Errors from it or from a handler propagate uncaught. `Dispatch.Trace` describes only the handler calls made over a finite sequence of deliveries.
- The handler functions and the contents of `HANDLERS_BY_EXCHANGE` (`pulse_actions/handlers/config.py`) are not part of this model. The registry is a parameter and handlers are abstract values.
- `exit(1)` is the `Exited(1, …)` outcome. Process termination itself is not modelled.
