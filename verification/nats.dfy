/** The NATS client wrapper: connection option building, connection-state
    queries, the retrying publish / request loops and message construction.
    Every call into the NATS library (dialling, publishing, requesting,
    flushing) is an abstract operation whose outcome is a parameter. */
module Nats {
  import opened Wrappers

  newtype byte = x: int | 0 <= x < 256

  /** Message headers: case-sensitive keys, each with its list of values. */
  type Header = map<string, seq<string>>

  /** A NATS message: subject, reply subject, headers and payload. */
  datatype Msg = Msg(subject: string, reply: string, header: Header, data: seq<byte>)

  const ErrNotConnected := Error("nats not connected")
  const ErrHeadersNotSupported := Error("nats server headers not supported")

  datatype TLSConfig = TLSConfig(enabled: bool, cert: string, key: string, ca: string)

  /** `ReconnectBufSize`: bytes kept while reconnecting; 0 selects the default. */
  datatype Options = Options(reconnectBufSize: int)

  datatype Config = Config(url: string, name: string, user: string, pass: string, tls: TLSConfig, options: Options)

  const DefaultReconnectBufSize: int := 5 * 1024 * 1024
  const DialTimeoutSeconds: nat := 10
  const UnlimitedReconnects: int := -1

  /** One option handed to the library's dial call. */
  datatype ConnOption =
    | Name(name: string)
    | Timeout(seconds: nat)
    | DisconnectErrHandler
    | ReconnectHandler
    | MaxReconnects(attempts: int)
    | ReconnectBufSize(bytes: int)
    | UserInfo(user: string, pass: string)
    | ClientCert(cert: string, key: string)
    | RootCAs(ca: string)

  /** The options every dial carries, in order, whatever the configuration. */
  function BaseOptions(cfg: Config): seq<ConnOption>
  {
    [Name(cfg.name), Timeout(DialTimeoutSeconds), DisconnectErrHandler, ReconnectHandler,
     MaxReconnects(UnlimitedReconnects)]
  }

  /** The fixed options first, then exactly one reconnect buffer size: the
      5 MiB default when configured as 0, otherwise the configured value,
      negative ones included. */
  ghost predicate FixedOptions(cfg: Config, options: seq<ConnOption>)
  {
    && 6 <= |options|
    && options[..5] == BaseOptions(cfg)
    && (cfg.options.reconnectBufSize == 0 ==> options[5] == ReconnectBufSize(DefaultReconnectBufSize))
    && (cfg.options.reconnectBufSize != 0 ==> options[5] == ReconnectBufSize(cfg.options.reconnectBufSize))
    && (forall i :: 0 <= i < |options| && options[i].ReconnectBufSize? ==> i == 5)
  }

  /** Credentials only when both user and password are set, and then the
      configured ones. */
  ghost predicate CredentialOptions(cfg: Config, options: seq<ConnOption>)
  {
    && ((exists i :: 0 <= i < |options| && options[i].UserInfo?) <==> cfg.user != "" && cfg.pass != "")
    && (forall i :: 0 <= i < |options| && options[i].UserInfo? ==> options[i] == UserInfo(cfg.user, cfg.pass))
  }

  /** Certificate and CA options only when TLS is enabled, and then both. */
  ghost predicate TlsOptions(cfg: Config, options: seq<ConnOption>)
  {
    && (ClientCert(cfg.tls.cert, cfg.tls.key) in options <==> cfg.tls.enabled)
    && (RootCAs(cfg.tls.ca) in options <==> cfg.tls.enabled)
    && (forall i :: 0 <= i < |options| && (options[i].ClientCert? || options[i].RootCAs?) ==> cfg.tls.enabled)
  }

  /** What the dial options of `cfg` must be, and nothing more. */
  ghost predicate DialOptions(cfg: Config, options: seq<ConnOption>)
  {
    && FixedOptions(cfg, options)
    && CredentialOptions(cfg, options)
    && TlsOptions(cfg, options)
    && |options| == 6 + (if cfg.user != "" && cfg.pass != "" then 1 else 0) + (if cfg.tls.enabled then 2 else 0)
  }

  /** The options after the reconnect buffer size. */
  function Extras(cfg: Config): seq<ConnOption>
  {
    (if cfg.user != "" && cfg.pass != "" then [UserInfo(cfg.user, cfg.pass)] else [])
    + (if cfg.tls.enabled then [ClientCert(cfg.tls.cert, cfg.tls.key), RootCAs(cfg.tls.ca)] else [])
  }

  lemma FixedOptionsHold(cfg: Config, buffer: int, extras: seq<ConnOption>)
    requires buffer == if cfg.options.reconnectBufSize == 0 then DefaultReconnectBufSize else cfg.options.reconnectBufSize
    requires forall i :: 0 <= i < |extras| ==> !extras[i].ReconnectBufSize?
    ensures FixedOptions(cfg, BaseOptions(cfg) + [ReconnectBufSize(buffer)] + extras)
  {
    var options := BaseOptions(cfg) + [ReconnectBufSize(buffer)] + extras;
    assert options[..5] == BaseOptions(cfg);
    assert forall i :: 6 <= i < |options| ==> options[i] == extras[i - 6];
  }

  lemma CredentialOptionsHold(cfg: Config, head: seq<ConnOption>)
    requires forall i :: 0 <= i < |head| ==> !head[i].UserInfo?
    ensures CredentialOptions(cfg, head + Extras(cfg))
  {
    var options := head + Extras(cfg);
    assert forall i :: |head| <= i < |options| ==> options[i] == Extras(cfg)[i - |head|];
    if cfg.user != "" && cfg.pass != "" {
      assert options[|head|] == UserInfo(cfg.user, cfg.pass);
    }
  }

  lemma TlsOptionsHold(cfg: Config, head: seq<ConnOption>)
    requires forall i :: 0 <= i < |head| ==> !head[i].ClientCert? && !head[i].RootCAs?
    ensures TlsOptions(cfg, head + Extras(cfg))
  {
    var options := head + Extras(cfg);
    assert forall i :: |head| <= i < |options| ==> options[i] == Extras(cfg)[i - |head|];
    if cfg.tls.enabled {
      assert options[|options| - 2] == ClientCert(cfg.tls.cert, cfg.tls.key);
      assert options[|options| - 1] == RootCAs(cfg.tls.ca);
    }
  }

  /** The appended parts of the option list meet DialOptions. */
  lemma DialOptionsFromParts(cfg: Config, buffer: int, credentials: seq<ConnOption>, tls: seq<ConnOption>)
    requires buffer == if cfg.options.reconnectBufSize == 0 then DefaultReconnectBufSize else cfg.options.reconnectBufSize
    requires credentials == if cfg.user != "" && cfg.pass != "" then [UserInfo(cfg.user, cfg.pass)] else []
    requires tls == if cfg.tls.enabled then [ClientCert(cfg.tls.cert, cfg.tls.key), RootCAs(cfg.tls.ca)] else []
    ensures DialOptions(cfg, BaseOptions(cfg) + [ReconnectBufSize(buffer)] + credentials + tls)
  {
    var head := BaseOptions(cfg) + [ReconnectBufSize(buffer)];
    assert credentials + tls == Extras(cfg);
    assert head + credentials + tls == head + Extras(cfg);
    FixedOptionsHold(cfg, buffer, Extras(cfg));
    CredentialOptionsHold(cfg, head);
    TlsOptionsHold(cfg, head);
  }

  /** A live connection as the library reports it. */
  datatype Conn = Conn(url: string, options: seq<ConnOption>, connected: bool, headersSupported: bool)

  /** The outcome of the library's dial call. */
  datatype DialOutcome = Dialed(connected: bool, headersSupported: bool) | DialFailed(err: Error)

  // ---------------------------------------------------------------------
  // Retrying loops
  // ---------------------------------------------------------------------

  /** What a retrying call observably did: the reply (on success), the count
      it returns, the last error (on exhaustion), how many transport calls it
      made and the delays, in seconds, it slept between them. */
  datatype RetryRun<T> = RetryRun(reply: Option<T>, count: nat, err: Option<Error>, attempts: nat, sleeps: seq<nat>)

  /** `count` consecutive delays starting at `from` seconds: from, from+1, ... */
  function Delays(from: nat, count: nat): seq<nat>
  {
    seq(count, j => from + j)
  }

  /** The retry loop resumed after `i` failures: `attempt(i)` is the outcome of
      the (i+1)-th transport call. */
  function Retrying<T>(attempt: nat -> Result<T>, retries: int, i: nat): (r: RetryRun<T>)
    ensures 1 <= r.attempts && |r.sleeps| == r.attempts - 1
    ensures r.reply.Some? <==> r.err.None?
    decreases if i < retries then retries - i else 0
  {
    match attempt(i)
    case Success(v) => RetryRun(Some(v), i, None, 1, [])
    case Failure(e) =>
      if i + 1 >= retries then RetryRun(None, i + 1, Some(e), 1, [])
      else
        var rest := Retrying(attempt, retries, i + 1);
        rest.(attempts := rest.attempts + 1, sleeps := [i + 1] + rest.sleeps)
  }

  /** The run from attempt `i` on, seen from the start: `i` earlier attempts,
      and the delays slept after them. */
  function Resumed<T>(i: nat, slept: seq<nat>, rest: RetryRun<T>): RetryRun<T>
  {
    rest.(attempts := i + rest.attempts, sleeps := slept + rest.sleeps)
  }

  /** One failed attempt below the cap: the run from `i` is that attempt,
      a sleep of i+1 seconds, and the run from i+1. */
  lemma RetryingStep<T>(attempt: nat -> Result<T>, retries: int, i: nat, slept: seq<nat>)
    requires attempt(i).Failure? && i + 1 < retries
    ensures Resumed(i, slept, Retrying(attempt, retries, i))
            == Resumed(i + 1, slept + [i + 1], Retrying(attempt, retries, i + 1))
  {
    var rest := Retrying(attempt, retries, i + 1);
    assert Retrying(attempt, retries, i) == rest.(attempts := rest.attempts + 1, sleeps := [i + 1] + rest.sleeps);
    assert slept + ([i + 1] + rest.sleeps) == (slept + [i + 1]) + rest.sleeps;
  }

  /** The loop shared by PublishWithRetries, PublishMsgWithRetries and
      RequestMsgWithRetries. */
  method WithRetries<T>(attempt: nat -> Result<T>, retries: int) returns (run: RetryRun<T>)
    ensures run == Retrying(attempt, retries, 0)
  {
    var i: nat := 0;
    var slept: seq<nat> := [];
    while true
      invariant i == 0 || i < retries
      invariant slept == Delays(1, i)
      invariant Retrying(attempt, retries, 0) == Resumed(i, slept, Retrying(attempt, retries, i))
      decreases retries - i
    {
      var outcome := attempt(i);
      if outcome.Success? {
        return RetryRun(Some(outcome.value), i, None, i + 1, slept);
      }
      if i + 1 >= retries {
        return RetryRun(None, i + 1, Some(outcome.error), i + 1, slept);
      }
      RetryingStep(attempt, retries, i, slept);
      assert Delays(1, i + 1) == Delays(1, i) + [i + 1];
      i := i + 1;
      slept := slept + [i];
    }
  }

  /** The shape of every run: the delays slept are 1, 2, ... seconds, one
      between each two consecutive attempts; every attempt but the last
      failed; a success is returned at once with the number of failures
      before it; a failure is returned only once the cap max(retries, 1) of
      attempts is reached. */
  lemma {:induction false} RetryingShape<T>(attempt: nat -> Result<T>, retries: int, i: nat)
    ensures var run := Retrying(attempt, retries, i);
            && run.sleeps == Delays(i + 1, run.attempts - 1)
            && (forall j: nat :: i <= j < i + run.attempts - 1 ==> attempt(j).Failure?)
            && (run.reply.Some? ==> attempt(i + run.attempts - 1) == Success(run.reply.value)
                                    && run.count == i + run.attempts - 1)
            && (run.err.Some? ==> attempt(i + run.attempts - 1) == Failure(run.err.value)
                                  && run.count == i + run.attempts && retries <= run.count)
            && (i + run.attempts <= retries || run.attempts == 1)
    decreases if i < retries then retries - i else 0
  {
    if attempt(i).Failure? && i + 1 < retries {
      RetryingShape(attempt, retries, i + 1);
      var rest := Retrying(attempt, retries, i + 1);
      assert [i + 1] + Delays(i + 2, rest.attempts - 1) == Delays(i + 1, rest.attempts);
    }
  }

  /** Failing from attempt `i` up to the cap `n`: every attempt up to the cap is made. */
  lemma {:induction false} RetryingAllFail<T>(attempt: nat -> Result<T>, n: int, i: nat)
    requires i < n
    requires forall j: nat :: i <= j < n ==> attempt(j).Failure?
    ensures Retrying(attempt, n, i) == RetryRun(None, n, Some(attempt(n - 1).error), n - i, Delays(i + 1, n - 1 - i))
    decreases n - i
  {
    if i + 1 < n {
      RetryingAllFail(attempt, n, i + 1);
      assert [i + 1] + Delays(i + 2, n - 2 - i) == Delays(i + 1, n - 1 - i);
    }
  }

  /** With `retries` = n >= 1 and an operation that always fails: exactly n
      attempts, the count n, the last error, and delays 1, ..., n-1 seconds. */
  lemma AlwaysFailing<T>(attempt: nat -> Result<T>, n: int)
    requires 1 <= n
    requires forall j: nat :: j < n ==> attempt(j).Failure?
    ensures Retrying(attempt, n, 0) == RetryRun(None, n, Some(attempt(n - 1).error), n, Delays(1, n - 1))
  {
    RetryingAllFail(attempt, n, 0);
  }

  /** Success first reached at attempt k (0-based) from attempt `i` on. */
  lemma {:induction false} RetryingFirstSuccess<T>(attempt: nat -> Result<T>, retries: int, i: nat, k: nat)
    requires i <= k && (k == i || k < retries)
    requires forall j: nat :: i <= j < k ==> attempt(j).Failure?
    requires attempt(k).Success?
    ensures Retrying(attempt, retries, i) == RetryRun(Some(attempt(k).value), k, None, k - i + 1, Delays(i + 1, k - i))
    decreases k - i
  {
    if i < k {
      RetryingFirstSuccess(attempt, retries, i + 1, k);
      assert [i + 1] + Delays(i + 2, k - i - 1) == Delays(i + 1, k - i);
    }
  }

  /** If the first success is on the (k+1)-th attempt and that attempt is
      within the cap, the run returns count k and the reply, after exactly
      k+1 attempts (one, with count 0, when the first try succeeds). */
  lemma FirstSuccess<T>(attempt: nat -> Result<T>, retries: int, k: nat)
    requires k == 0 || k < retries
    requires forall j: nat :: j < k ==> attempt(j).Failure?
    requires attempt(k).Success?
    ensures Retrying(attempt, retries, 0) == RetryRun(Some(attempt(k).value), k, None, k + 1, Delays(1, k))
  {
    RetryingFirstSuccess(attempt, retries, 0, k);
  }

  /** With `retries` <= 1 exactly one attempt is made and nothing is slept;
      a failure is returned with count 1. */
  lemma SingleAttempt<T>(attempt: nat -> Result<T>, retries: int)
    requires retries <= 1
    ensures var run := Retrying(attempt, retries, 0);
            && run.attempts == 1 && run.sleeps == []
            && (attempt(0).Failure? ==> run == RetryRun(None, 1, Some(attempt(0).error), 1, []))
            && (attempt(0).Success? ==> run == RetryRun(Some(attempt(0).value), 0, None, 1, []))
  {
  }

  /** The sum of a list of delays. */
  function Total(delays: seq<nat>): nat
  {
    if delays == [] then 0 else Total(delays[..|delays| - 1]) + delays[|delays| - 1]
  }

  lemma {:induction false} TotalDelays(m: nat)
    ensures Total(Delays(1, m)) == m * (m + 1) / 2
  {
    if m > 0 {
      assert Delays(1, m)[..m - 1] == Delays(1, m - 1);
      TotalDelays(m - 1);
    }
  }

  /** n failing attempts sleep 1 + ... + (n-1) = n(n-1)/2 seconds in all. */
  lemma AlwaysFailingSleepTotal<T>(attempt: nat -> Result<T>, n: int)
    requires 1 <= n
    requires forall j: nat :: j < n ==> attempt(j).Failure?
    ensures Total(Retrying(attempt, n, 0).sleeps) == n * (n - 1) / 2
  {
    AlwaysFailing(attempt, n);
    var m: nat := n - 1;
    TotalDelays(m);
    assert Retrying(attempt, n, 0).sleeps == Delays(1, m);
    assert m * (m + 1) == n * (n - 1);
  }

  /** Attempt outcomes of an operation that returns only an error. */
  function AsAttempts(outcome: nat -> Option<Error>): nat -> Result<()>
  {
    (j: nat) => if outcome(j).Some? then Failure(outcome(j).value) else Success(())
  }

  /** The library's `nats.NewMsg`: a message with a subject and empty headers. */
  function NewMsg(subject: string): Msg
  {
    Msg(subject, "", map[], [])
  }

  /** Headers holding each key of `headers` with its single value. */
  function HeaderOf(headers: map<string, string>): Header
  {
    map k | k in headers :: [headers[k]]
  }

  /** The first value of a header key, or "" when the key is absent. A key
      whose value list is empty also reads as "": a choice of this model. */
  function HeaderGet(header: Header, key: string): string
  {
    if key in header && |header[key]| > 0 then header[key][0] else ""
  }

  method NewMsgWithHeaders(subject: string, headers: map<string, string>) returns (msg: Msg)
    ensures msg.subject == subject && msg.reply == "" && msg.data == []
    ensures msg.header.Keys == headers.Keys
    ensures forall k :: k in headers ==> msg.header[k] == [headers[k]]
  {
    msg := NewMsg(subject);
    var pending := headers.Keys;
    while pending != {}
      invariant pending <= headers.Keys
      invariant msg.subject == subject && msg.reply == "" && msg.data == []
      invariant msg.header.Keys == headers.Keys - pending
      invariant forall k :: k in msg.header ==> msg.header[k] == [headers[k]]
      decreases pending
    {
      var k :| k in pending;
      msg := msg.(header := msg.header[k := [headers[k]]]);
      pending := pending - {k};
    }
  }

  // ---------------------------------------------------------------------
  // The client
  // ---------------------------------------------------------------------

  class Client {
    const cfg: Config
    /** The library connection; None until a dial succeeds (nil in Go). */
    var nc: Option<Conn>

    /** `NewClient`: a client holding `cfg`, not yet connected. */
    constructor (cfg: Config)
      ensures this.cfg == cfg && nc == None
    {
      this.cfg := cfg;
      nc := None;
    }

    /** The option list `Connect` builds by successive appends. */
    method ConnectOptions() returns (options: seq<ConnOption>)
      ensures DialOptions(cfg, options)
    {
      ghost var buffer, credentials, tls := 0, [], [];
      options := [Name(cfg.name), Timeout(DialTimeoutSeconds), DisconnectErrHandler, ReconnectHandler,
                  MaxReconnects(UnlimitedReconnects)];
      if cfg.options.reconnectBufSize == 0 {
        options := options + [ReconnectBufSize(DefaultReconnectBufSize)];
        buffer := DefaultReconnectBufSize;
      } else {
        options := options + [ReconnectBufSize(cfg.options.reconnectBufSize)];
        buffer := cfg.options.reconnectBufSize;
      }
      if cfg.user != "" && cfg.pass != "" {
        options := options + [UserInfo(cfg.user, cfg.pass)];
        credentials := [UserInfo(cfg.user, cfg.pass)];
      }
      if cfg.tls.enabled {
        options := options + [ClientCert(cfg.tls.cert, cfg.tls.key), RootCAs(cfg.tls.ca)];
        tls := [ClientCert(cfg.tls.cert, cfg.tls.key), RootCAs(cfg.tls.ca)];
      }
      assert options == BaseOptions(cfg) + [ReconnectBufSize(buffer)] + credentials + tls;
      DialOptionsFromParts(cfg, buffer, credentials, tls);
    }

    /** Dials `cfg.url` with the built options; the library leaves the
        connection nil when the dial fails. */
    method Connect(dial: DialOutcome) returns (err: Option<Error>)
      modifies this
      ensures dial.DialFailed? ==> err == Some(dial.err) && nc == None
      ensures dial.Dialed? ==> && err == None && nc.Some?
                               && nc.value.url == cfg.url
                               && DialOptions(cfg, nc.value.options)
                               && nc.value.connected == dial.connected
                               && nc.value.headersSupported == dial.headersSupported
    {
      var options := ConnectOptions();
      match dial
      case Dialed(connected, headersSupported) =>
        nc := Some(Conn(cfg.url, options, connected, headersSupported));
        err := None;
      case DialFailed(e) =>
        nc := None;
        err := Some(e);
    }

    function GetConn(): Option<Conn>
      reads this
    {
      nc
    }

    function IsConnected(): (r: bool)
      reads this
      ensures nc.None? ==> !r
      ensures nc.Some? ==> r == nc.value.connected
    {
      if nc.None? then false else nc.value.connected
    }

    /** No nil guard in the source: callers must have connected first. */
    function HeadersSupported(): (r: bool)
      reads this
      requires nc.Some?
      ensures r == nc.value.headersSupported
    {
      nc.value.headersSupported
    }

    /** Flushes (its error is dropped) and closes; the library ignores a nil
        connection. */
    method Close()
      modifies this
      ensures old(nc).None? ==> nc == None
      ensures old(nc).Some? ==> nc == Some(old(nc).value.(connected := false))
      ensures !IsConnected()
    {
      if nc.Some? {
        nc := Some(nc.value.(connected := false));
      }
    }

    /** `publish(j)` is the error of the (j+1)-th `Publish(subject, data)`. */
    method PublishWithRetries(subject: string, data: seq<byte>, retries: int, publish: nat -> Option<Error>)
      returns (count: nat, err: Option<Error>, attempts: nat, sleeps: seq<nat>)
      ensures var run := Retrying(AsAttempts(publish), retries, 0);
              count == run.count && err == run.err && attempts == run.attempts && sleeps == run.sleeps
    {
      var run := WithRetries(AsAttempts(publish), retries);
      count, err, attempts, sleeps := run.count, run.err, run.attempts, run.sleeps;
    }

    /** `publish(j)` is the error of the (j+1)-th `PublishMsg(msg)`. */
    method PublishMsgWithRetries(msg: Msg, retries: int, publish: nat -> Option<Error>)
      returns (count: nat, err: Option<Error>, attempts: nat, sleeps: seq<nat>)
      ensures var run := Retrying(AsAttempts(publish), retries, 0);
              count == run.count && err == run.err && attempts == run.attempts && sleeps == run.sleeps
    {
      var run := WithRetries(AsAttempts(publish), retries);
      count, err, attempts, sleeps := run.count, run.err, run.attempts, run.sleeps;
    }

    /** `request(j)` is the outcome of the (j+1)-th `RequestMsg(msg, timeout)`. */
    method RequestMsgWithRetries(msg: Msg, timeout: nat, retries: int, request: nat -> Result<Msg>)
      returns (response: Option<Msg>, count: nat, err: Option<Error>, attempts: nat, sleeps: seq<nat>)
      ensures var run := Retrying(request, retries, 0);
              && response == run.reply && count == run.count && err == run.err
              && attempts == run.attempts && sleeps == run.sleeps
    {
      var run := WithRetries(request, retries);
      response, count, err, attempts, sleeps := run.reply, run.count, run.err, run.attempts, run.sleeps;
    }
  }
}
