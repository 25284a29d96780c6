/** The subtractor service's reply routing, startup chain and teardown, as
    functions of the configuration and of the outcomes of the calls it makes
    into the NATS client, the JSON encoder and the subscription. The `App`
    class in module Subtractor performs these steps and is proved to match. */
module SubtractorSpec {
  import opened Wrappers
  import opened Nats
  import opened Middleware

  /** The header that carries a handler's error on its reply. */
  const XError := "X-Error"

  datatype NatsSettings = NatsSettings(url: string, name: string, user: string, pass: string, tls: TLSConfig)
  datatype Queues = Queues(publishDefault: string, publishErrors: string, subscribeQueue: string, subscribeGroup: string)
  datatype AppSettings = AppSettings(env: string, nats: NatsSettings, queues: Queues)
  datatype LoggerSettings = LoggerSettings(source: string, level: string, format: string)
  datatype ServiceConfig = ServiceConfig(app: AppSettings, logger: LoggerSettings)

  /** The client configuration `New` builds: `Options` is left at its zero value. */
  function ClientConfig(cfg: ServiceConfig): (c: Nats.Config)
    ensures c.options.reconnectBufSize == 0
  {
    Nats.Config(cfg.app.nats.url, cfg.app.nats.name, cfg.app.nats.user, cfg.app.nats.pass, cfg.app.nats.tls,
                Options(0))
  }

  /** A payload handed to the JSON encoder: the handler's response, or the
      `nats.Error{Message}` record sent to the error queue. */
  datatype Payload = Response(value: string) | ErrorBody(message: string)

  /** The JSON encoder (`json.Marshal`), whose outcome is given. */
  type Encoder = Payload -> Result<seq<byte>>

  /** A subscription as the client returned it. */
  datatype Subscription = Subscription(subject: string, group: string, handler: Handler)

  /** The service's own message handler, `subtractHandler`. */
  const SubtractHandler := Endpoint("subtractHandler")

  /** A call the service makes on a collaborator, or an error it logs. */
  datatype Call =
    | Connect
    | CheckHeaders
    | SetLabels(source: string, env: string)
    | QueueSubscribe(subject: string, group: string, handler: Handler)
    | PublishMsg(msg: Msg)
    | Unsubscribe(sub: Option<Subscription>)
    | Drain(sub: Option<Subscription>)
    | Close
    | LogError(err: Error)

  /** The error logged for `err`, if there is one. */
  function LogIf(err: Option<Error>): seq<Call>
  {
    if err.Some? then [LogError(err.value)] else []
  }

  /** The messages published, in order, among `calls`. */
  function Publishes(calls: seq<Call>): seq<Msg>
  {
    if calls == [] then []
    else Publishes(calls[..|calls| - 1]) + (if calls[|calls| - 1].PublishMsg? then [calls[|calls| - 1].msg] else [])
  }

  lemma {:induction false} PublishesAppend(a: seq<Call>, b: seq<Call>)
    ensures Publishes(a + b) == Publishes(a) + Publishes(b)
    decreases |b|
  {
    if b == [] {
      assert a + b == a;
    } else {
      assert (a + b)[..|a + b| - 1] == a + b[..|b| - 1];
      PublishesAppend(a, b[..|b| - 1]);
    }
  }

  // ---------------------------------------------------------------------
  // publish.go
  // ---------------------------------------------------------------------

  /** What `publishData` did: the caller's header map afterwards, the calls
      made and the error it returned. */
  datatype Published = Published(headers: map<string, string>, calls: seq<Call>, err: Option<Error>)

  function PublishDataSpec(headers: map<string, string>, subject: string, data: Payload, withErr: Option<Error>,
                           encode: Encoder, outcome: Option<Error>): Published
  {
    var hs := if withErr.Some? then headers[XError := withErr.value.message] else headers;
    match encode(data)
    case Failure(e) => Published(hs, [LogError(e)], Some(e))
    case Success(bytes) =>
      var msg := Msg(subject, "", HeaderOf(hs), bytes);
      Published(hs, [PublishMsg(msg)] + LogIf(outcome), outcome)
  }

  /** `publishData` sets X-Error in the caller's map exactly when `withErr` is
      set and changes no other key; an encoding error is returned and nothing
      is published; otherwise the message (subject, the headers, the encoded
      payload) is published once and the publish error, if any, is returned. */
  lemma PublishDataContract(headers: map<string, string>, subject: string, data: Payload, withErr: Option<Error>,
                            encode: Encoder, outcome: Option<Error>)
    ensures var p := PublishDataSpec(headers, subject, data, withErr, encode, outcome);
            && (withErr.Some? ==> p.headers == headers[XError := withErr.value.message])
            && (withErr.None? ==> p.headers == headers)
            && (encode(data).Failure? ==> p.err == Some(encode(data).error) && Publishes(p.calls) == [])
            && (encode(data).Success? ==>
                  && p.err == outcome
                  && Publishes(p.calls) == [Msg(subject, "", HeaderOf(p.headers), encode(data).value)])
  {
    var p := PublishDataSpec(headers, subject, data, withErr, encode, outcome);
    if encode(data).Success? {
      PublishesAppend([PublishMsg(Msg(subject, "", HeaderOf(p.headers), encode(data).value))], LogIf(outcome));
    }
  }

  /** The calls `publishError` makes: nothing for a nil error; otherwise the
      error's message, wrapped as `nats.Error`, goes to `errorsQueue` with the
      given headers, and a failure to do so is logged. */
  function PublishErrorSpec(headers: map<string, string>, errInput: Option<Error>, errorsQueue: string,
                            encode: Encoder, outcome: Option<Error>): seq<Call>
  {
    if errInput.None? then []
    else
      var p := PublishDataSpec(headers, errorsQueue, ErrorBody(errInput.value.message), None, encode, outcome);
      p.calls + LogIf(p.err)
  }

  lemma PublishErrorContract(headers: map<string, string>, errInput: Option<Error>, errorsQueue: string,
                             encode: Encoder, outcome: Option<Error>)
    ensures errInput.None? ==> PublishErrorSpec(headers, errInput, errorsQueue, encode, outcome) == []
    ensures errInput.Some? && encode(ErrorBody(errInput.value.message)).Success? ==>
              Publishes(PublishErrorSpec(headers, errInput, errorsQueue, encode, outcome))
              == [Msg(errorsQueue, "", HeaderOf(headers), encode(ErrorBody(errInput.value.message)).value)]
  {
    if errInput.Some? {
      var p := PublishDataSpec(headers, errorsQueue, ErrorBody(errInput.value.message), None, encode, outcome);
      PublishDataContract(headers, errorsQueue, ErrorBody(errInput.value.message), None, encode, outcome);
      PublishesAppend(p.calls, LogIf(p.err));
    }
  }

  /** Each request header key with its first value. */
  function FirstValues(header: Header): map<string, string>
  {
    map k | k in header :: HeaderGet(header, k)
  }

  /** The reply goes to the request's reply subject, or to the default
      publish queue when the request has none. */
  function ReplySubject(cfg: ServiceConfig, msg: Msg): (subject: string)
    ensures msg.reply != "" ==> subject == msg.reply
    ensures msg.reply == "" ==> subject == cfg.app.queues.publishDefault
  {
    if msg.reply != "" then msg.reply else cfg.app.queues.publishDefault
  }

  /** The reply step of `subHandlerReturn`. */
  function ReplySpec(cfg: ServiceConfig, handlerErr: Option<Error>, msg: Msg, response: Payload, encode: Encoder,
                     replyOutcome: Option<Error>): Published
  {
    PublishDataSpec(FirstValues(msg.header), ReplySubject(cfg, msg), response, handlerErr, encode, replyOutcome)
  }

  /** All the calls `subHandlerReturn` makes. The handler's error only marks
      the reply; the variable holding it is then overwritten by the reply's
      own publishing error, and only that one reaches `publishError`. */
  function HandlerReturnSpec(cfg: ServiceConfig, handlerErr: Option<Error>, msg: Msg, response: Payload, encode: Encoder,
                             replyOutcome: Option<Error>, errorOutcome: Option<Error>): seq<Call>
  {
    var reply := ReplySpec(cfg, handlerErr, msg, response, encode, replyOutcome);
    reply.calls + LogIf(reply.err)
    + PublishErrorSpec(reply.headers, reply.err, cfg.app.queues.publishErrors, encode, errorOutcome)
  }

  /** Only unfolds the definition of `HandlerReturnSpec` into its three
      steps (the reply, the log of its failure, the report of that failure)
      so that the solver can follow `SubHandlerReturn` step by step. */
  lemma HandlerReturnSteps(cfg: ServiceConfig, handlerErr: Option<Error>, msg: Msg, response: Payload,
                           encode: Encoder, replyOutcome: Option<Error>, errorOutcome: Option<Error>)
    ensures var reply := ReplySpec(cfg, handlerErr, msg, response, encode, replyOutcome);
            HandlerReturnSpec(cfg, handlerErr, msg, response, encode, replyOutcome, errorOutcome)
            == reply.calls + LogIf(reply.err)
               + PublishErrorSpec(reply.headers, reply.err, cfg.app.queues.publishErrors, encode, errorOutcome)
  {
  }

  /** The headers of the reply: the request's first values, plus X-Error
      holding the handler's error when there is one. */
  function ReplyHeaders(header: Header, handlerErr: Option<Error>): map<string, string>
  {
    if handlerErr.Some? then FirstValues(header)[XError := handlerErr.value.message] else FirstValues(header)
  }

  /** When the reply is encoded and published, that is the only message
      published, whether or not the handler failed: a handler error never
      reaches the error queue by itself. */
  lemma ReplyOnlyWhenReplySucceeds(cfg: ServiceConfig, handlerErr: Option<Error>, msg: Msg, response: Payload,
                                   encode: Encoder, errorOutcome: Option<Error>)
    requires encode(response).Success?
    ensures Publishes(HandlerReturnSpec(cfg, handlerErr, msg, response, encode, None, errorOutcome))
            == [Msg(ReplySubject(cfg, msg), "", HeaderOf(ReplyHeaders(msg.header, handlerErr)), encode(response).value)]
  {
    var reply := ReplySpec(cfg, handlerErr, msg, response, encode, None);
    PublishDataContract(FirstValues(msg.header), ReplySubject(cfg, msg), response, handlerErr, encode, None);
    PublishesAppend(reply.calls, LogIf(reply.err));
    PublishesAppend(reply.calls + LogIf(reply.err),
                    PublishErrorSpec(reply.headers, reply.err, cfg.app.queues.publishErrors, encode, errorOutcome));
  }

  /** When publishing the reply fails, the publish error is reported to the
      error queue after the reply attempt; the report carries the same header
      map, so it also holds the X-Error the reply step set for the handler's
      own error. */
  lemma ErrorQueueOnReplyPublishFailure(cfg: ServiceConfig, handlerErr: Option<Error>, msg: Msg, response: Payload,
                                        encode: Encoder, failure: Error, errorOutcome: Option<Error>)
    requires encode(response).Success?
    requires encode(ErrorBody(failure.message)).Success?
    ensures var headers := HeaderOf(ReplyHeaders(msg.header, handlerErr));
            Publishes(HandlerReturnSpec(cfg, handlerErr, msg, response, encode, Some(failure), errorOutcome))
            == [Msg(ReplySubject(cfg, msg), "", headers, encode(response).value),
                Msg(cfg.app.queues.publishErrors, "", headers, encode(ErrorBody(failure.message)).value)]
  {
    var reply := ReplySpec(cfg, handlerErr, msg, response, encode, Some(failure));
    PublishDataContract(FirstValues(msg.header), ReplySubject(cfg, msg), response, handlerErr, encode, Some(failure));
    PublishErrorContract(reply.headers, reply.err, cfg.app.queues.publishErrors, encode, errorOutcome);
    PublishesAppend(reply.calls, LogIf(reply.err));
    PublishesAppend(reply.calls + LogIf(reply.err),
                    PublishErrorSpec(reply.headers, reply.err, cfg.app.queues.publishErrors, encode, errorOutcome));
  }

  /** When the response cannot be encoded nothing is replied, and the
      encoding error goes to the error queue instead. */
  lemma ErrorQueueOnReplyEncodingFailure(cfg: ServiceConfig, handlerErr: Option<Error>, msg: Msg, response: Payload,
                                         encode: Encoder, replyOutcome: Option<Error>, errorOutcome: Option<Error>)
    requires encode(response).Failure?
    requires encode(ErrorBody(encode(response).error.message)).Success?
    ensures Publishes(HandlerReturnSpec(cfg, handlerErr, msg, response, encode, replyOutcome, errorOutcome))
            == [Msg(cfg.app.queues.publishErrors, "", HeaderOf(ReplyHeaders(msg.header, handlerErr)),
                    encode(ErrorBody(encode(response).error.message)).value)]
  {
    var reply := ReplySpec(cfg, handlerErr, msg, response, encode, replyOutcome);
    PublishDataContract(FirstValues(msg.header), ReplySubject(cfg, msg), response, handlerErr, encode, replyOutcome);
    PublishErrorContract(reply.headers, reply.err, cfg.app.queues.publishErrors, encode, errorOutcome);
    PublishesAppend(reply.calls, LogIf(reply.err));
    PublishesAppend(reply.calls + LogIf(reply.err),
                    PublishErrorSpec(reply.headers, reply.err, cfg.app.queues.publishErrors, encode, errorOutcome));
  }

  // ---------------------------------------------------------------------
  // setup-nats.go
  // ---------------------------------------------------------------------

  /** How startup leaves the app's subscription field. */
  datatype SubscriptionField = Kept | Assigned(sub: Option<Subscription>)

  /** What `setupNats` did: its calls, its error and the subscription field. */
  datatype Startup = Startup(calls: seq<Call>, err: Option<Error>, subscription: SubscriptionField)

  /** The handler `natsSubscribeTo` subscribes: `UseMiddleware(handler, Log)`. */
  function SubscribedHandler(): Handler
  {
    UseAll(SubtractHandler, [Log])
  }

  /** The assignment of the middleware's `LogSource` and `LogEnv`. */
  function Labelling(cfg: ServiceConfig): Call
  {
    SetLabels(cfg.logger.source, cfg.app.env)
  }

  function StartupSpec(cfg: ServiceConfig, dial: DialOutcome, subscribeErr: Option<Error>): Startup
  {
    match dial
    case DialFailed(e) => Startup([Connect], Some(e), Kept)
    case Dialed(_, headersSupported) =>
      if !headersSupported then
        Startup([Connect, CheckHeaders, LogError(ErrHeadersNotSupported)], Some(ErrHeadersNotSupported), Kept)
      else if cfg.app.queues.subscribeQueue == "" then
        Startup([Connect, CheckHeaders, Labelling(cfg)], None, Kept)
      else
        var queue := cfg.app.queues.subscribeQueue;
        var call := QueueSubscribe(queue, cfg.app.nats.name, SubscribedHandler());
        match subscribeErr
        case Some(e) => Startup([Connect, CheckHeaders, Labelling(cfg), call, LogError(e)], Some(e), Assigned(None))
        case None =>
          Startup([Connect, CheckHeaders, Labelling(cfg), call], None,
                  Assigned(Some(Subscription(queue, cfg.app.nats.name, SubscribedHandler()))))
  }

  /** Whether `calls` sets the log labels. */
  predicate Labelled(calls: seq<Call>)
  {
    exists c :: c in calls && c.SetLabels?
  }

  /** Whether `calls` subscribes to anything. */
  predicate Subscribes(calls: seq<Call>)
  {
    exists c :: c in calls && c.QueueSubscribe?
  }

  /** A dial error is returned at once: the headers are not checked and
      nothing is subscribed. */
  lemma StartupConnectFails(cfg: ServiceConfig, e: Error, subscribeErr: Option<Error>)
    ensures var s := StartupSpec(cfg, DialFailed(e), subscribeErr);
            s.err == Some(e) && s.calls == [Connect] && s.subscription == Kept && !Labelled(s.calls)
  {
  }

  /** A server without headers stops startup with ErrNATSServerHeadersNotSupported
      before anything is subscribed. */
  lemma StartupHeadersUnsupported(cfg: ServiceConfig, connected: bool, subscribeErr: Option<Error>)
    ensures var s := StartupSpec(cfg, Dialed(connected, false), subscribeErr);
            s.err == Some(ErrHeadersNotSupported) && !Subscribes(s.calls) && s.subscription == Kept
            && !Labelled(s.calls)
  {
  }

  /** An empty subscribe queue is a successful startup without a subscription. */
  lemma StartupWithoutQueue(cfg: ServiceConfig, connected: bool, subscribeErr: Option<Error>)
    requires cfg.app.queues.subscribeQueue == ""
    ensures var s := StartupSpec(cfg, Dialed(connected, true), subscribeErr);
            s.err == None && !Subscribes(s.calls) && s.subscription == Kept
            && s.calls == [Connect, CheckHeaders, SetLabels(cfg.logger.source, cfg.app.env)]
  {
  }

  /** A non-empty queue is subscribed with the client name as its group (not
      the configured subscribe group), with the service handler wrapped in
      exactly one `Log`, after the labels are set; a subscribe error is
      returned and leaves the subscription nil. */
  lemma StartupSubscribes(cfg: ServiceConfig, connected: bool, subscribeErr: Option<Error>)
    requires cfg.app.queues.subscribeQueue != ""
    ensures var s := StartupSpec(cfg, Dialed(connected, true), subscribeErr);
            && s.calls[..4] == [Connect, CheckHeaders, SetLabels(cfg.logger.source, cfg.app.env),
                                QueueSubscribe(cfg.app.queues.subscribeQueue, cfg.app.nats.name, Log(SubtractHandler))]
            && s.err == subscribeErr
            && (subscribeErr.Some? ==> s.subscription == Assigned(None))
            && (subscribeErr.None? ==>
                  s.subscription == Assigned(Some(Subscription(cfg.app.queues.subscribeQueue, cfg.app.nats.name,
                                                               Log(SubtractHandler)))))
  {
    UseAllShort(SubtractHandler, Log);
  }

  /** Startup sets the log labels exactly when the dial succeeded and the
      server supports headers, whatever the subscribe queue. */
  lemma StartupLabels(cfg: ServiceConfig, dial: DialOutcome, subscribeErr: Option<Error>)
    ensures Labelled(StartupSpec(cfg, dial, subscribeErr).calls) <==> dial.Dialed? && dial.headersSupported
  {
    var calls := StartupSpec(cfg, dial, subscribeErr).calls;
    if dial.Dialed? && dial.headersSupported {
      assert calls[2] == SetLabels(cfg.logger.source, cfg.app.env);
    }
  }

  /** The labels the logging handler reads are set immediately before the
      subscribe call, so no message can be handled before they hold their
      configured values. */
  lemma LabelsBeforeSubscribe(cfg: ServiceConfig, dial: DialOutcome, subscribeErr: Option<Error>, j: nat)
    requires j < |StartupSpec(cfg, dial, subscribeErr).calls|
    requires StartupSpec(cfg, dial, subscribeErr).calls[j].QueueSubscribe?
    ensures j >= 1 && StartupSpec(cfg, dial, subscribeErr).calls[j - 1] == SetLabels(cfg.logger.source, cfg.app.env)
  {
  }

  /** A subscription is made only after a successful dial and a successful
      headers check, and only for a non-empty queue. */
  lemma SubscribeOnlyAfterChecks(cfg: ServiceConfig, dial: DialOutcome, subscribeErr: Option<Error>)
    requires Subscribes(StartupSpec(cfg, dial, subscribeErr).calls)
    ensures dial.Dialed? && dial.headersSupported && cfg.app.queues.subscribeQueue != ""
    ensures StartupSpec(cfg, dial, subscribeErr).calls[..2] == [Connect, CheckHeaders]
  {
  }

  // ---------------------------------------------------------------------
  // app.go
  // ---------------------------------------------------------------------

  /** The nats.go library's error for `Unsubscribe` or `Drain` on a nil
      subscription. */
  const ErrBadSubscription := Error("nats: invalid subscription")

  /** The outcome of `Unsubscribe` or `Drain` on `sub`: the library's own
      error when there is no subscription, the given outcome otherwise. */
  function SubscriptionOutcome(sub: Option<Subscription>, given: Option<Error>): (r: Option<Error>)
    ensures sub.None? ==> r == Some(ErrBadSubscription)
    ensures sub.Some? ==> r == given
  {
    if sub.None? then Some(ErrBadSubscription) else given
  }

  /** `cleanup`: unsubscribe, drain, close, each failure only logged. */
  function CleanupSpec(sub: Option<Subscription>, unsubscribeErr: Option<Error>, drainErr: Option<Error>): seq<Call>
  {
    [Unsubscribe(sub)] + LogIf(SubscriptionOutcome(sub, unsubscribeErr))
    + [Drain(sub)] + LogIf(SubscriptionOutcome(sub, drainErr)) + [Close]
  }

  /** The calls of `calls` other than logging. */
  function Actions(calls: seq<Call>): seq<Call>
  {
    if calls == [] then []
    else Actions(calls[..|calls| - 1]) + (if calls[|calls| - 1].LogError? then [] else [calls[|calls| - 1]])
  }

  /** Whatever fails, teardown unsubscribes, drains and closes, in that
      order, and logs exactly the failures; without a subscription both
      subscription steps fail and are logged. */
  lemma CleanupOrder(sub: Option<Subscription>, unsubscribeErr: Option<Error>, drainErr: Option<Error>)
    ensures Actions(CleanupSpec(sub, unsubscribeErr, drainErr)) == [Unsubscribe(sub), Drain(sub), Close]
    ensures sub.Some? ==> |CleanupSpec(sub, unsubscribeErr, drainErr)|
                          == 3 + (if unsubscribeErr.Some? then 1 else 0) + (if drainErr.Some? then 1 else 0)
    ensures sub.None? ==> CleanupSpec(sub, unsubscribeErr, drainErr)
                          == [Unsubscribe(None), LogError(ErrBadSubscription), Drain(None),
                              LogError(ErrBadSubscription), Close]
  {
    var p0 := [Unsubscribe(sub)];
    var p1 := p0 + LogIf(SubscriptionOutcome(sub, unsubscribeErr));
    var p2 := p1 + [Drain(sub)];
    var p3 := p2 + LogIf(SubscriptionOutcome(sub, drainErr));
    assert CleanupSpec(sub, unsubscribeErr, drainErr) == p3 + [Close];
    assert Actions(p0) == [Unsubscribe(sub)] by {
      assert p0[..0] == [];
    }
    ActionsSkipLog(p0, SubscriptionOutcome(sub, unsubscribeErr));
    ActionsStep(p1, Drain(sub));
    ActionsSkipLog(p2, SubscriptionOutcome(sub, drainErr));
    ActionsStep(p3, Close);
  }

  /** A logged error adds no action. */
  lemma ActionsSkipLog(calls: seq<Call>, err: Option<Error>)
    ensures Actions(calls + LogIf(err)) == Actions(calls)
  {
    if err.Some? {
      assert (calls + LogIf(err))[..|calls|] == calls;
    } else {
      assert calls + LogIf(err) == calls;
    }
  }

  /** Any other call is one more action. */
  lemma ActionsStep(calls: seq<Call>, c: Call)
    requires !c.LogError?
    ensures Actions(calls + [c]) == Actions(calls) + [c]
  {
    assert (calls + [c])[..|calls|] == calls;
  }

  /** The subscription field after startup. */
  function SubscriptionAfter(before: Option<Subscription>, field: SubscriptionField): Option<Subscription>
  {
    if field.Assigned? then field.sub else before
  }

  /** What `Start` did: all its calls and the error it returned. */
  datatype Run = Run(calls: seq<Call>, err: Error)

  /** `Start`: startup, then (on success) the wait for the context, then the
      deferred cleanup on every path. */
  function StartSpec(cfg: ServiceConfig, sub: Option<Subscription>, dial: DialOutcome, subscribeErr: Option<Error>,
                     unsubscribeErr: Option<Error>, drainErr: Option<Error>, ctxErr: Error): Run
  {
    var s := StartupSpec(cfg, dial, subscribeErr);
    var cleanup := CleanupSpec(SubscriptionAfter(sub, s.subscription), unsubscribeErr, drainErr);
    Run(s.calls + cleanup, if s.err.Some? then s.err.value else ctxErr)
  }

  /** `Start` always ends with the full teardown, also when startup failed,
      and returns the startup error if there is one, else the context's. */
  lemma StartAlwaysCleansUp(cfg: ServiceConfig, sub: Option<Subscription>, dial: DialOutcome, subscribeErr: Option<Error>,
                            unsubscribeErr: Option<Error>, drainErr: Option<Error>, ctxErr: Error)
    ensures var r := StartSpec(cfg, sub, dial, subscribeErr, unsubscribeErr, drainErr, ctxErr);
            var s := StartupSpec(cfg, dial, subscribeErr);
            var after := SubscriptionAfter(sub, s.subscription);
            && r.calls[..|s.calls|] == s.calls
            && Actions(r.calls[|s.calls|..]) == [Unsubscribe(after), Drain(after), Close]
            && r.calls[|r.calls| - 1] == Close
            && (s.err.Some? ==> r.err == s.err.value)
            && (s.err.None? ==> r.err == ctxErr)
  {
    var s := StartupSpec(cfg, dial, subscribeErr);
    var cleanup := CleanupSpec(SubscriptionAfter(sub, s.subscription), unsubscribeErr, drainErr);
    CleanupOrder(SubscriptionAfter(sub, s.subscription), unsubscribeErr, drainErr);
    assert (s.calls + cleanup)[|s.calls|..] == cleanup;
  }
}
