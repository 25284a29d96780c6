/** The subtractor service's `App`: it owns a NATS client, shares the log
    labels with the `Log` middleware, holds its subscription and records every
    call it makes on a collaborator in `calls`. Each method is proved to do
    exactly what the matching function of SubtractorSpec describes. */
module Subtractor {
  import opened Wrappers
  import opened Nats
  import opened Middleware
  import opened SubtractorSpec

  /** A Go `map[string]string` passed by reference: `publishData` writes
      X-Error into the very map its caller later hands to `publishError`. */
  class HeaderMap {
    var entries: map<string, string>

    constructor ()
      ensures entries == map[]
    {
      entries := map[];
    }
  }

  /** A new map holding each header key of the request with its first value. */
  method CopyHeaders(header: Header) returns (requestHeaders: HeaderMap)
    ensures fresh(requestHeaders) && requestHeaders.entries == FirstValues(header)
  {
    requestHeaders := new HeaderMap();
    var pending := header.Keys;
    while pending != {}
      modifies requestHeaders
      invariant pending <= header.Keys
      invariant requestHeaders.entries.Keys == header.Keys - pending
      invariant forall k :: k in requestHeaders.entries ==> requestHeaders.entries[k] == HeaderGet(header, k)
      decreases pending
    {
      var k :| k in pending;
      requestHeaders.entries := requestHeaders.entries[k := HeaderGet(header, k)];
      pending := pending - {k};
    }
    assert requestHeaders.entries == FirstValues(header);
  }

  class App {
    const config: ServiceConfig
    const nats: Client
    /** The middleware package's `LogSource`/`LogEnv`. */
    const labels: LogLabels
    var subscription: Option<Subscription>
    var cancelled: bool
    /** Every call made so far on the client, the encoder, the subscription
        and the logger's error level, in order. */
    var calls: seq<Call>

    /** `New`: the client is built from the app's NATS settings with the
        options left at their zero value; no subscription yet. */
    constructor (cfg: ServiceConfig, labels: LogLabels)
      ensures config == cfg && this.labels == labels
      ensures fresh(nats) && nats.cfg == ClientConfig(cfg) && nats.nc == None
      ensures subscription == None && !cancelled && calls == []
    {
      config := cfg;
      this.labels := labels;
      nats := new Client(ClientConfig(cfg));
      subscription := None;
      cancelled := false;
      calls := [];
    }

    /** `Stop` cancels the app's context. */
    method Stop()
      modifies this
      ensures cancelled
      ensures subscription == old(subscription) && calls == old(calls)
    {
      cancelled := true;
    }

    method PublishData(requestHeaders: HeaderMap, subject: string, data: Payload, withErr: Option<Error>,
                       encode: Encoder, outcome: Option<Error>) returns (err: Option<Error>)
      modifies this, requestHeaders
      ensures var p := PublishDataSpec(old(requestHeaders.entries), subject, data, withErr, encode, outcome);
              requestHeaders.entries == p.headers && calls == old(calls) + p.calls && err == p.err
      ensures subscription == old(subscription) && cancelled == old(cancelled)
    {
      if withErr.Some? {
        requestHeaders.entries := requestHeaders.entries[XError := withErr.value.message];
      }
      var msg := NewMsgWithHeaders(subject, requestHeaders.entries);
      assert msg.header == HeaderOf(requestHeaders.entries);
      var encoded := encode(data);
      if encoded.Failure? {
        calls := calls + [LogError(encoded.error)];
        return Some(encoded.error);
      }
      msg := msg.(data := encoded.value);
      calls := calls + [PublishMsg(msg)];
      if outcome.Some? {
        calls := calls + [LogError(outcome.value)];
        return outcome;
      }
      return None;
    }

    method PublishError(requestHeaders: HeaderMap, errInput: Option<Error>, encode: Encoder, outcome: Option<Error>)
      modifies this, requestHeaders
      ensures calls == old(calls)
              + PublishErrorSpec(old(requestHeaders.entries), errInput, config.app.queues.publishErrors, encode, outcome)
      ensures requestHeaders.entries == old(requestHeaders.entries)
      ensures subscription == old(subscription) && cancelled == old(cancelled)
    {
      if errInput.None? {
        return;
      }
      var natsError := ErrorBody(errInput.value.message);
      var err := PublishData(requestHeaders, config.app.queues.publishErrors, natsError, None, encode, outcome);
      if err.Some? {
        calls := calls + [LogError(err.value)];
      }
    }

    /** Replies to `msg` with `response`, marking the reply with the handler's
        error `err`, and reports a failed reply to the error queue. */
    method SubHandlerReturn(err: Option<Error>, msg: Msg, response: Payload, encode: Encoder,
                            replyOutcome: Option<Error>, errorOutcome: Option<Error>)
      modifies this
      ensures calls == old(calls) + HandlerReturnSpec(config, err, msg, response, encode, replyOutcome, errorOutcome)
      ensures subscription == old(subscription) && cancelled == old(cancelled)
    {
      ghost var reply := ReplySpec(config, err, msg, response, encode, replyOutcome);
      HandlerReturnSteps(config, err, msg, response, encode, replyOutcome, errorOutcome);
      ghost var before := calls;

      var requestHeaders := CopyHeaders(msg.header);
      var replySubject := config.app.queues.publishDefault;
      if msg.reply != "" {
        replySubject := msg.reply;
      }

      assert replySubject == ReplySubject(config, msg);
      // Go reassigns `err` here: from now on it holds the reply's own error.
      var replyErr := PublishData(requestHeaders, replySubject, response, err, encode, replyOutcome);
      if replyErr.Some? {
        calls := calls + [LogError(replyErr.value)];
      }
      assert calls == before + reply.calls + LogIf(reply.err);
      PublishError(requestHeaders, replyErr, encode, errorOutcome);
    }

    method SetupNats(dial: DialOutcome, subscribeErr: Option<Error>) returns (err: Option<Error>)
      modifies this, nats, labels
      ensures var s := StartupSpec(config, dial, subscribeErr);
              && calls == old(calls) + s.calls
              && err == s.err
              && subscription == SubscriptionAfter(old(subscription), s.subscription)
      ensures var s := StartupSpec(config, dial, subscribeErr);
              if Labelled(s.calls) then labels.source == config.logger.source && labels.env == config.app.env
              else labels.source == old(labels.source) && labels.env == old(labels.env)
      ensures dial.DialFailed? ==> nats.nc == None
      ensures dial.Dialed? ==> && nats.nc.Some?
                               && nats.nc.value.url == nats.cfg.url
                               && DialOptions(nats.cfg, nats.nc.value.options)
                               && nats.nc.value.connected == dial.connected
                               && nats.nc.value.headersSupported == dial.headersSupported
      ensures cancelled == old(cancelled)
    {
      calls := calls + [Connect];
      err := nats.Connect(dial);
      if err.Some? {
        return;
      }
      calls := calls + [CheckHeaders];
      if !nats.HeadersSupported() {
        calls := calls + [LogError(ErrHeadersNotSupported)];
        return Some(ErrHeadersNotSupported);
      }
      err := NatsSubscribe(subscribeErr);
      StartupLabels(config, dial, subscribeErr);
    }

    method NatsSubscribe(subscribeErr: Option<Error>) returns (err: Option<Error>)
      modifies this, labels
      ensures labels.source == config.logger.source && labels.env == config.app.env
      ensures config.app.queues.subscribeQueue == "" ==>
                err == None && calls == old(calls) + [Labelling(config)] && subscription == old(subscription)
      ensures config.app.queues.subscribeQueue != "" ==>
                var call := QueueSubscribe(config.app.queues.subscribeQueue, config.app.nats.name, SubscribedHandler());
                && err == subscribeErr
                && calls == old(calls) + [Labelling(config), call] + LogIf(subscribeErr)
                && (subscribeErr.Some? ==> subscription == None)
                && (subscribeErr.None? ==>
                      subscription == Some(Subscription(config.app.queues.subscribeQueue, config.app.nats.name,
                                                        SubscribedHandler())))
      ensures cancelled == old(cancelled)
    {
      labels.source := config.logger.source;
      labels.env := config.app.env;
      calls := calls + [SetLabels(labels.source, labels.env)];
      err := None;
      var queue := config.app.queues.subscribeQueue;
      if queue != "" {
        subscription, err := NatsSubscribeTo(queue, SubtractHandler, subscribeErr);
      }
    }

    /** Subscribes `handler`, wrapped in the `Log` middleware, to `queue` with
        the client name as the queue group. */
    method NatsSubscribeTo(queue: string, handler: Handler, subscribeErr: Option<Error>)
      returns (sub: Option<Subscription>, err: Option<Error>)
      modifies this
      ensures calls == old(calls) + [QueueSubscribe(queue, config.app.nats.name, UseAll(handler, [Log]))]
                       + LogIf(subscribeErr)
      ensures err == subscribeErr
      ensures subscribeErr.Some? ==> sub == None
      ensures subscribeErr.None? ==> sub == Some(Subscription(queue, config.app.nats.name, UseAll(handler, [Log])))
      ensures subscription == old(subscription) && cancelled == old(cancelled)
    {
      var wrapped := UseMiddleware(handler, [Log]);
      calls := calls + [QueueSubscribe(queue, config.app.nats.name, wrapped)];
      if subscribeErr.Some? {
        calls := calls + [LogError(subscribeErr.value)];
        return None, subscribeErr;
      }
      return Some(Subscription(queue, config.app.nats.name, wrapped)), None;
    }

    method Cleanup(unsubscribeErr: Option<Error>, drainErr: Option<Error>)
      modifies this, nats
      ensures calls == old(calls) + CleanupSpec(subscription, unsubscribeErr, drainErr)
      ensures !nats.IsConnected()
      ensures subscription == old(subscription) && cancelled == old(cancelled)
    {
      var u := SubscriptionOutcome(subscription, unsubscribeErr);
      var d := SubscriptionOutcome(subscription, drainErr);
      var steps := [Unsubscribe(subscription)];
      if u.Some? {
        steps := steps + [LogError(u.value)];
      }
      steps := steps + [Drain(subscription)];
      if d.Some? {
        steps := steps + [LogError(d.value)];
      }
      steps := steps + [Close];
      assert steps == CleanupSpec(subscription, unsubscribeErr, drainErr);
      calls := calls + steps;
      nats.Close();
    }

    /** `Start`: set up, wait until the context is done (its error is
        `ctxErr`), and clean up on every path. */
    method Start(dial: DialOutcome, subscribeErr: Option<Error>, unsubscribeErr: Option<Error>,
                 drainErr: Option<Error>, ctxErr: Error) returns (err: Error)
      modifies this, nats, labels
      ensures var r := StartSpec(config, old(subscription), dial, subscribeErr, unsubscribeErr, drainErr, ctxErr);
              calls == old(calls) + r.calls && err == r.err
      ensures var s := StartupSpec(config, dial, subscribeErr);
              && subscription == SubscriptionAfter(old(subscription), s.subscription)
              && if Labelled(s.calls) then labels.source == config.logger.source && labels.env == config.app.env
                 else labels.source == old(labels.source) && labels.env == old(labels.env)
      ensures !nats.IsConnected() && cancelled == old(cancelled)
    {
      ghost var startup := StartupSpec(config, dial, subscribeErr);
      ghost var run := StartSpec(config, subscription, dial, subscribeErr, unsubscribeErr, drainErr, ctxErr);
      ghost var before := calls;
      var setupErr := SetupNats(dial, subscribeErr);
      ghost var teardown := CleanupSpec(subscription, unsubscribeErr, drainErr);
      assert run.calls == startup.calls + teardown;
      if setupErr.Some? {
        err := setupErr.value;
      } else {
        err := ctxErr;
      }
      Cleanup(unsubscribeErr, drainErr);
      assert calls == before + startup.calls + teardown;
    }
  }

  /** `New` never fails. */
  method New(cfg: ServiceConfig, labels: LogLabels) returns (app: App, err: Option<Error>)
    ensures fresh(app) && app.config == cfg && app.labels == labels && err == None
    ensures fresh(app.nats) && app.nats.cfg == ClientConfig(cfg) && !app.nats.IsConnected()
    ensures app.subscription == None && app.calls == []
  {
    app := new App(cfg, labels);
    err := None;
  }
}
