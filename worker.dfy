/** The worker's start-up: route the configured (exchange, topic) to a
    registered handler, then subscribe with a dry-run callback; or log an
    error and exit with status 1 when no handler is registered. */
module Worker {
  import opened Wrappers
  import opened Topics
  import opened Registry
  import opened Dispatch

  /** The run-time configuration, already loaded, with both fields present. */
  datatype Options = Options(exchange: string, topic: string)

  /** The two environment variables, each possibly unset. */
  datatype Env = Env(pulseUser: Option<string>, pulsePassword: Option<string>)

  /** The keyword arguments given to the broker consumer. */
  datatype PulseArgs = PulseArgs(applabel: string, topic: string, durable: bool,
                                 user: Option<string>, password: Option<string>)

  datatype Level = Info | Error

  datatype LogRecord = LogRecord(level: Level, message: string)

  /** A consumer set up on one exchange with its arguments and callback. */
  datatype Subscription<H> = Subscription(exchange: string, args: PulseArgs, callback: BoundCallback<H>)

  /** How start-up ends: listening forever on a subscription after an
      informational record, or exiting after an error record. */
  datatype Outcome<H> =
    | Listening(subscription: Subscription<H>, log: LogRecord)
    | Exited(status: int, log: LogRecord)

  /** The application label the worker subscribes under. */
  const AppLabel: string := "pulse_actions"

  /** The error record written when no handler is registered. */
  function NoHandlerMessage(exchange: string, topic: string): string
  {
    "We don't have an event handler for " + exchange + " with topic " + topic + "."
  }

  /** The informational record written once the consumer is set up. */
  function ListeningMessage(exchange: string, topic: string): string
  {
    "Listening on " + exchange + ", with topic " + topic
  }

  /** `pulse_args`: the fixed label, a durable subscription, the topic as
      configured and the credentials exactly as read, absent or not. */
  function MakePulseArgs(topic: string, env: Env): (args: PulseArgs)
    ensures args.applabel == "pulse_actions" && args.durable
    ensures args.topic == topic
    ensures args.user == env.pulseUser && args.password == env.pulsePassword
  {
    PulseArgs(AppLabel, topic, true, env.pulseUser, env.pulsePassword)
  }

  /** `run_pulse` up to its listen loop: the consumer is set up on the given
      exchange with the subscription arguments and a callback that binds
      the handler to the given dry-run flag. */
  function RunPulse<H>(exchange: string, topic: string, handler: H, dryRun: bool, env: Env): (o: Outcome<H>)
    ensures o.Listening?
    ensures o.subscription.exchange == exchange
    ensures o.subscription.args == MakePulseArgs(topic, env)
    ensures o.subscription.callback.handler == handler && o.subscription.callback.dryRun == dryRun
    ensures o.log == LogRecord(Info, ListeningMessage(exchange, topic))
  {
    Listening(Subscription(exchange, MakePulseArgs(topic, env), BoundCallback(handler, dryRun)),
              LogRecord(Info, ListeningMessage(exchange, topic)))
  }

  /** `main` after loading the configuration: compute the topic prefix,
      look the handler up, and either exit with status 1 or start listening
      with dry-run forced on. */
  method Start<H>(registry: Registry<H>, options: Options, env: Env) returns (outcome: Outcome<H>)
    ensures outcome.Exited? <==> !Registered(registry, options.exchange, TopicBase(options.topic))
    ensures outcome.Exited? ==>
              outcome.status == 1 &&
              outcome.log == LogRecord(Error, NoHandlerMessage(options.exchange, options.topic))
    ensures outcome.Listening? ==>
              && outcome.subscription.exchange == options.exchange
              && outcome.subscription.args.topic == options.topic
              && outcome.subscription.args == MakePulseArgs(options.topic, env)
              && outcome.subscription.callback.handler ==
                 registry[options.exchange][TopicKey][TopicBase(options.topic)]
              && outcome.subscription.callback.dryRun
              && outcome.log == LogRecord(Info, ListeningMessage(options.exchange, options.topic))
  {
    var topicBase := TopicBase(options.topic);
    var found := Lookup(registry, options.exchange, topicBase);
    if found.Err? {
      outcome := Exited(1, LogRecord(Error, NoHandlerMessage(options.exchange, options.topic)));
      return;
    }
    var handlerFunction := found.value;
    outcome := RunPulse(options.exchange, options.topic, handlerFunction, true, env);
  }

  /** A registry with a single handler `h` under exchange "exchange/jobs"
      and prefix "build". */
  function JobsRegistry<H>(h: H): Registry<H>
  {
    map["exchange/jobs" := map[TopicKey := map["build" := h]]]
  }

  /** Topic "build.success" on "exchange/jobs" resolves to the handler
      registered for "build". */
  lemma ScenarioKnownTopic<H>(h: H)
    ensures Lookup(JobsRegistry(h), "exchange/jobs", TopicBase("build.success")) == Ok(h)
  {
    TopicBaseOfDotted("build", "success");
    assert "build" + [Dot] + "success" == "build.success";
  }

  /** Start-up with topic "build.success" on "exchange/jobs" subscribes to
      them, and a message delivered through the callback start-up built
      reaches the "build" handler once, with dry-run on. */
  method StartKnownTopic<H, D, M, R>(h: H, env: Env, invoke: (H, D, M, bool) -> R, data: D, message: M)
    returns (o: Outcome<H>)
    ensures o.Listening?
    ensures o.subscription.exchange == "exchange/jobs" && o.subscription.args.topic == "build.success"
    ensures HandlerWithDryRun(o.subscription.callback, invoke, data, message).calls ==
              [Call(h, data, message, true)]
  {
    ScenarioKnownTopic(h);
    o := Start(JobsRegistry(h), Options("exchange/jobs", "build.success"), env);
  }

  /** Topic "unknown.topic" on "exchange/jobs" has no handler: the lookup
      fails on the prefix "unknown". */
  lemma ScenarioUnknownTopic<H>(h: H)
    ensures Lookup(JobsRegistry(h), "exchange/jobs", TopicBase("unknown.topic")) == Err(KeyError("unknown"))
  {
    TopicBaseOfDotted("unknown", "topic");
    assert "unknown" + [Dot] + "topic" == "unknown.topic";
    var base := TopicBase("unknown.topic");
    assert base == "unknown";
    assert base !in JobsRegistry(h)["exchange/jobs"][TopicKey] by {
      assert base[0] != 'b';
    }
  }

  /** An exchange that is not registered fails on the exchange name,
      whatever the prefix. */
  lemma ScenarioUnknownExchange<H>(h: H, prefix: string)
    ensures Lookup(JobsRegistry(h), "exchange/other", prefix) == Err(KeyError("exchange/other"))
  {
  }

  /** Start-up with topic "unknown.topic" on "exchange/jobs" writes the
      error record naming them and exits with status 1; it never subscribes. */
  method StartUnknownTopic<H>(h: H, env: Env) returns (o: Outcome<H>)
    ensures o == Exited(1, LogRecord(Error, NoHandlerMessage("exchange/jobs", "unknown.topic")))
  {
    ScenarioUnknownTopic(h);
    o := Start(JobsRegistry(h), Options("exchange/jobs", "unknown.topic"), env);
  }
}
