/** Message-handler middleware: the `UseMiddleware` composition and the
    `Log` middleware that records a message's headers at debug level before
    handing the message on. */
module Middleware {
  import opened Nats

  const DefaultLogSource := "default-log-source"
  const DefaultLogEnv := ""

  /** The package-level `LogSource` and `LogEnv` variables: one object, shared
      by reference, read by every logging handler each time it runs. */
  class LogLabels {
    var source: string
    var env: string

    constructor ()
      ensures source == DefaultLogSource && env == DefaultLogEnv
    {
      source := DefaultLogSource;
      env := DefaultLogEnv;
    }
  }

  /** A message handler: a service's own handler, or one wrapped by `Log`. */
  datatype Handler = Endpoint(name: string) | Logged(next: Handler)

  /** A middleware turns the handler it wraps into a new handler. */
  type Middleware = Handler -> Handler

  /** What handling one message observably does, in order. */
  datatype Effect =
    | DebugEntry(name: string, env: string, headers: Header, text: string)
    | Handled(endpoint: string, msg: Msg)

  /** `Log(next)`: the returned handler logs, then calls `next`. The labels
      are not captured here; they are read when a message is handled. */
  function Log(next: Handler): (r: Handler)
    ensures Depth(r) == Depth(next) + 1 && Target(r) == Target(next)
    ensures forall source, env, msg :: Effects(r, source, env, msg) == [Entry(source, env, msg)] + Effects(next, source, env, msg)
  {
    Logged(next)
  }

  /** The left fold of `middleware` over `handler`: each middleware wraps
      the result of the ones listed before it. */
  function UseAll(handler: Handler, middleware: seq<Middleware>): Handler
    decreases |middleware|
  {
    if middleware == [] then handler else UseAll(middleware[0](handler), middleware[1..])
  }

  /** Folding a concatenation folds the second list over the first's result. */
  lemma {:induction false} UseAllAppend(handler: Handler, a: seq<Middleware>, b: seq<Middleware>)
    ensures UseAll(handler, a + b) == UseAll(UseAll(handler, a), b)
    decreases |a|
  {
    if a != [] {
      assert (a + b)[0] == a[0];
      assert (a + b)[1..] == a[1..] + b;
      UseAllAppend(a[0](handler), a[1..], b);
    } else {
      assert a + b == b;
    }
  }

  /** The last middleware listed is the outermost wrapper. */
  lemma UseAllLast(handler: Handler, middleware: seq<Middleware>, m: Middleware)
    ensures UseAll(handler, middleware + [m]) == m(UseAll(handler, middleware))
  {
    UseAllAppend(handler, middleware, [m]);
  }

  /** No middleware leaves the handler as it is; one middleware is applied once. */
  lemma UseAllShort(handler: Handler, m: Middleware)
    ensures UseAll(handler, []) == handler
    ensures UseAll(handler, [m]) == m(handler)
  {
  }

  method UseMiddleware(handler: Handler, middleware: seq<Middleware>) returns (h: Handler)
    ensures h == UseAll(handler, middleware)
  {
    h := handler;
    for i := 0 to |middleware|
      invariant h == UseAll(handler, middleware[..i])
    {
      UseAllLast(handler, middleware[..i], middleware[i]);
      assert middleware[..i + 1] == middleware[..i] + [middleware[i]];
      h := middleware[i](h);
    }
    assert middleware[..|middleware|] == middleware;
  }

  /** The debug entry `Log` emits for `msg` under the given labels. */
  function Entry(source: string, env: string, msg: Msg): Effect
  {
    DebugEntry(source, env, msg.header, "Processing message from=" + msg.subject)
  }

  /** What handler `h` does with `msg` while the labels hold `source` and `env`. */
  function Effects(h: Handler, source: string, env: string, msg: Msg): seq<Effect>
  {
    match h
    case Endpoint(name) => [Handled(name, msg)]
    case Logged(next) => [Entry(source, env, msg)] + Effects(next, source, env, msg)
  }

  /** Runs handler `h` on `msg`; a `Log` layer gathers the headers one key at
      a time and reads the labels as they are now. */
  method Handle(h: Handler, labels: LogLabels, msg: Msg) returns (effects: seq<Effect>)
    ensures effects == Effects(h, labels.source, labels.env, msg)
    decreases h
  {
    match h
    case Endpoint(name) =>
      effects := [Handled(name, msg)];
    case Logged(next) =>
      var params: Header := map[];
      var pending := msg.header.Keys;
      while pending != {}
        invariant pending <= msg.header.Keys
        invariant params.Keys == msg.header.Keys - pending
        invariant forall k :: k in params ==> params[k] == msg.header[k]
        decreases pending
      {
        var k :| k in pending;
        params := params[k := msg.header[k]];
        pending := pending - {k};
      }
      assert params == msg.header;
      var rest := Handle(next, labels, msg);
      effects := [DebugEntry(labels.source, labels.env, params, "Processing message from=" + msg.subject)] + rest;
  }

  /** `Log(next)` first emits one debug entry carrying the labels current at
      handling time and every header of the message, then does exactly what
      `next` does with the very same message. */
  lemma LogForwards(next: Handler, source: string, env: string, msg: Msg)
    ensures Effects(Log(next), source, env, msg) == [Entry(source, env, msg)] + Effects(next, source, env, msg)
    ensures Entry(source, env, msg).name == source && Entry(source, env, msg).env == env
    ensures Entry(source, env, msg).headers.Keys == msg.header.Keys
  {
  }

  /** The number of `Log` layers around the endpoint. */
  function Depth(h: Handler): nat
  {
    match h
    case Endpoint(_) => 0
    case Logged(next) => 1 + Depth(next)
  }

  /** The service handler at the centre of `h`. */
  function Target(h: Handler): string
  {
    match h
    case Endpoint(name) => name
    case Logged(next) => Target(next)
  }

  /** However many `Log` layers wrap it, the endpoint is called exactly once,
      with the unmodified message, after all the debug entries. */
  lemma {:induction false} HandledOnce(h: Handler, source: string, env: string, msg: Msg)
    ensures Effects(h, source, env, msg) == seq(Depth(h), _ => Entry(source, env, msg)) + [Handled(Target(h), msg)]
  {
    match h
    case Endpoint(_) =>
    case Logged(next) =>
      HandledOnce(next, source, env, msg);
      assert [Entry(source, env, msg)] + seq(Depth(next), _ => Entry(source, env, msg))
          == seq(Depth(h), _ => Entry(source, env, msg));
  }
}
