/** The delivery callback built in `run_pulse`. The broker calls back with
    `(data, message)` only, so the handler and the run's dry-run flag are
    bound into a callback value. Handlers are abstract (`H`); what running
    a handler returns is given by `invoke`, and each delivery records the
    handler call it made. */
module Dispatch {

  /** The closure `handler_with_dry_run`: a handler with a fixed dry-run flag. */
  datatype BoundCallback<H> = BoundCallback(handler: H, dryRun: bool)

  /** One call `event_handler(data, message, dry_run)`. */
  datatype Call<H, D, M> = Call(handler: H, data: D, message: M, dryRun: bool)

  /** What one delivery did: the handler calls made, in order, and the value
      the callback returned to the broker client. */
  datatype Delivery<H, D, M, R> = Delivery(calls: seq<Call<H, D, M>>, result: R)

  /** `handler_with_dry_run(data, message)`: exactly one call of the bound
      handler with the same data and message and the bound flag; its result
      is returned as it is. */
  function HandlerWithDryRun<H, D, M, R>(cb: BoundCallback<H>, invoke: (H, D, M, bool) -> R,
                                        data: D, message: M): (d: Delivery<H, D, M, R>)
    ensures |d.calls| == 1
    ensures d.calls[0].handler == cb.handler && d.calls[0].dryRun == cb.dryRun
    ensures d.calls[0].data == data && d.calls[0].message == message
    ensures d.result == invoke(cb.handler, data, message, cb.dryRun)
  {
    Delivery([Call(cb.handler, data, message, cb.dryRun)], invoke(cb.handler, data, message, cb.dryRun))
  }

  /** The handler calls made by delivering `messages` one after another
      through the callback, each delivery running to completion before the
      next begins. */
  function Trace<H, D, M, R>(cb: BoundCallback<H>, invoke: (H, D, M, bool) -> R,
                             messages: seq<(D, M)>): seq<Call<H, D, M>>
    decreases |messages|
  {
    if |messages| == 0 then []
    else
      var first := HandlerWithDryRun(cb, invoke, messages[0].0, messages[0].1);
      first.calls + Trace(cb, invoke, messages[1..])
  }

  /** Over any sequence of deliveries, the bound handler is called once per
      message, in delivery order, with that message's data and handle and
      the bound flag. */
  lemma {:induction false} TraceOneCallPerMessage<H, D, M, R>(cb: BoundCallback<H>,
                                                              invoke: (H, D, M, bool) -> R,
                                                              messages: seq<(D, M)>)
    ensures |Trace(cb, invoke, messages)| == |messages|
    ensures forall i :: 0 <= i < |messages| ==>
              Trace(cb, invoke, messages)[i] == Call(cb.handler, messages[i].0, messages[i].1, cb.dryRun)
    decreases |messages|
  {
    if |messages| > 0 {
      TraceOneCallPerMessage(cb, invoke, messages[1..]);
    }
  }

  /** The bound flag is never flipped or defaulted: every call over any
      sequence of deliveries goes to the bound handler with the bound flag. */
  lemma {:induction false} TraceKeepsBinding<H, D, M, R>(cb: BoundCallback<H>,
                                                         invoke: (H, D, M, bool) -> R,
                                                         messages: seq<(D, M)>)
    ensures forall c :: c in Trace(cb, invoke, messages) ==>
              c.handler == cb.handler && c.dryRun == cb.dryRun
  {
    TraceOneCallPerMessage(cb, invoke, messages);
  }
}
