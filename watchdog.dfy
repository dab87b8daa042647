/** The shared record `main_worker`, the five POST control routes that change
    it, and the main loop that owns the process exit code. Every block the
    source runs under `main_worker.condition` is one atomic step here. */
module Watchdog {
  import opened Wrappers
  import opened HttpReply
  import opened NotifyAddress

  const EXIT_CODE_OK: int := 0
  const EXIT_CODE_UNCAUGHT_EXCEPTION: int := 1001
  const EXIT_CODE_RESTART: int := 1002
  /** Defined by the program but produced by no path. */
  const EXIT_CODE_NETWORK: int := 1003

  /** The tokens sent to the supervisor. */
  const READY: string := "READY=1"
  const WATCHDOG: string := "WATCHDOG=1"

  const PING_PATH: string := "/api/ping"
  const SHUTDOWN_PATH: string := "/api/shutdown"
  const RESTART_PATH: string := "/api/restart"
  const ENABLE_NOTIFY_PATH: string := "/api/enableNotify"
  const DISABLE_NOTIFY_PATH: string := "/api/disableNotify"

  datatype Route = Ping | Shutdown | Restart | EnableNotify | DisableNotify

  function PathOf(route: Route): string {
    match route
    case Ping => PING_PATH
    case Shutdown => SHUTDOWN_PATH
    case Restart => RESTART_PATH
    case EnableNotify => ENABLE_NOTIFY_PATH
    case DisableNotify => DISABLE_NOTIFY_PATH
  }

  /** The route `do_POST` takes for a request path; None for every path it
      does not recognise. */
  function RouteOf(path: string): (r: Option<Route>)
    ensures r.Some? ==> PathOf(r.value) == path
    ensures r.None? ==> forall route :: PathOf(route) != path
  {
    if path == PING_PATH then Some(Ping)
    else if path == SHUTDOWN_PATH then Some(Shutdown)
    else if path == RESTART_PATH then Some(Restart)
    else if path == ENABLE_NOTIFY_PATH then Some(EnableNotify)
    else if path == DISABLE_NOTIFY_PATH then Some(DisableNotify)
    else None
  }

  /** The value of `main_worker`: the three fields of the source, the log of
      tokens sent on the notification channel, and how many channels have
      been opened and closed. */
  datatype State = State(
    terminated: bool,
    exitCode: int,
    channel: Option<Chan>,
    sent: seq<string>,
    opens: nat,
    closes: nat)

  /** `main_worker` as the module creates it: valid, not terminated, exit
      code 0, no socket and nothing sent. */
  function Initial(): (r: State)
    ensures Valid(r)
    ensures !r.terminated && r.exitCode == EXIT_CODE_OK && r.channel.None? && r.sent == []
  {
    State(false, EXIT_CODE_OK, None, [], 0, 0)
  }

  /** What every reachable record satisfies: a channel is open exactly when
      one more channel was opened than closed, an open channel has a
      non-empty address, and the exit code is 0 until a shutdown or restart
      request records one of the two codes they use. */
  predicate Valid(s: State) {
    && s.opens == s.closes + (if s.channel.Some? then 1 else 0)
    && (s.channel.Some? ==> s.channel.value.address != [])
    && (!s.terminated ==> s.exitCode == EXIT_CODE_OK)
    && (s.terminated ==> s.exitCode == EXIT_CODE_OK || s.exitCode == EXIT_CODE_RESTART)
  }

  /** The handler's reply: the response and whether the connection is closed after it. */
  datatype Reply = Reply(response: Response, closeConnection: bool)

  function TextReply(body: seq<byte>): Reply {
    Reply(SendContent(body, TEXT_PLAIN), true)
  }

  /** `exit`: the record is terminated with the given code, whatever code
      it held before, and nothing else changes. */
  function RequestExit(s: State, code: int): (r: State)
    ensures r.terminated && r.exitCode == code
    ensures r.(terminated := s.terminated, exitCode := s.exitCode) == s
    ensures Valid(s) && (code == EXIT_CODE_OK || code == EXIT_CODE_RESTART) ==> Valid(r)
  {
    s.(terminated := true, exitCode := code)
  }

  /** Send a token if a channel is open: exactly one token when one is open,
      none otherwise, and nothing else changes. */
  function SendIfOpen(s: State, token: string): (r: State)
    ensures r.sent == s.sent + (if s.channel.Some? then [token] else [])
    ensures r == s.(sent := r.sent)
    ensures Valid(s) ==> Valid(r)
  {
    if s.channel.Some? then s.(sent := s.sent + [token]) else s
  }

  /** Store the outcome of `get_notify_socket` in the record. */
  function Install(s: State, c: Connect): State
    requires !c.ConnectRaised?
  {
    match c
    case NoAddress => s.(channel := None)
    case Connected(chan) => s.(channel := Some(chan), opens := s.opens + 1)
  }

  /** The locked part of enableNotify. When `connect` raises, the exception
      leaves the handler before the assignment and the field keeps its value. */
  function EnableChannel(s: State, env: Option<string>, connectOk: bool): (r: State)
    ensures s.channel.Some? ==> r == s
    ensures s.channel.None? ==> (r.channel.Some? <==> ResolveNotifyAddress(env).Some? && connectOk)
    ensures r.channel.Some? && s.channel.None? ==>
      r.channel.value.address == ResolveNotifyAddress(env).value && r.opens == s.opens + 1
    ensures r.(channel := s.channel, opens := s.opens) == s
    ensures Valid(s) ==> Valid(r)
  {
    if s.channel.Some? then s
    else
      var c := GetNotifySocket(env, connectOk);
      if c.ConnectRaised? then s else Install(s, c)
  }

  /** The locked part of disableNotify: no channel is left open, an open one
      is closed exactly once, and nothing else changes. */
  function DisableChannel(s: State): (r: State)
    ensures r.channel.None?
    ensures r.closes == s.closes + (if s.channel.Some? then 1 else 0)
    ensures r.(channel := s.channel, closes := s.closes) == s
    ensures Valid(s) ==> Valid(r)
  {
    if s.channel.Some? then s.(channel := None, closes := s.closes + 1) else s
  }

  /** `do_POST`: the new record and the reply, None when the path is not one
      of the five control routes. */
  function Post(s: State, path: string, env: Option<string>, connectOk: bool): (r: (State, Option<Reply>))
    ensures r.1.None? <==> RouteOf(path).None?
    ensures s.terminated ==> r.0.terminated
  {
    match RouteOf(path)
    case None => (s, None)
    case Some(Ping) => (SendIfOpen(s, WATCHDOG), Some(TextReply(PONG)))
    case Some(Shutdown) => (RequestExit(s, EXIT_CODE_OK), Some(TextReply(OK)))
    case Some(Restart) => (RequestExit(s, EXIT_CODE_RESTART), Some(TextReply(OK)))
    case Some(EnableNotify) => (EnableChannel(s, env, connectOk), Some(TextReply(OK)))
    case Some(DisableNotify) => (DisableChannel(s), Some(TextReply(OK)))
  }

  /** What happens while the main thread waits in `condition.wait`, which
      releases the lock: a control request handled by a server thread, the
      wait timing out (the main thread retakes the lock and pings itself), the
      wait woken by `notify_all` (the main thread retakes the lock), or a
      keyboard interrupt. The main thread tests `terminated` only when it
      has retaken the lock, after a `Tick` or a `Wake`. */
  datatype Event = Request(path: string, connectOk: bool) | Tick | Wake | Interrupt

  /** How `main` ends: with an exit code, still serving when the events run
      out, or with the exception of a failed startup connect. */
  datatype Outcome = Exited(code: int) | Serving | StartupFailed

  /** `ping`: a POST of /api/ping to the server itself (the connect outcome
      is irrelevant to that route), and whether the reply passes the client's
      test of status 200 and body "pong". The test always passes, one
      WATCHDOG=1 is sent exactly when a channel is open, and nothing else
      changes. */
  function SelfPing(s: State, env: Option<string>): (r: (State, bool))
    ensures r.1
    ensures r.0.sent == s.sent + (if s.channel.Some? then [WATCHDOG] else [])
    ensures r.0 == s.(sent := r.0.sent)
  {
    var (t, reply) := Post(s, PING_PATH, env, true);
    (t, reply.Some? && PingSucceeded(reply.value.response))
  }

  /** The start of `main`: install the startup channel, then send READY=1 if
      a channel is open. None when the startup connect raises. */
  function Startup(s: State, env: Option<string>, connectOk: bool): (r: Option<State>)
    ensures r.None? <==> ResolveNotifyAddress(env).Some? && !connectOk
    ensures r.Some? ==> (r.value.channel.Some? <==> ResolveNotifyAddress(env).Some?)
    ensures r.Some? ==> r.value.sent == s.sent + (if r.value.channel.Some? then [READY] else [])
    ensures r.Some? && r.value.channel.Some? ==>
      r.value.channel.value.address == ResolveNotifyAddress(env).value
    ensures r.Some? ==> r.value.opens == s.opens + (if r.value.channel.Some? then 1 else 0)
    ensures r.Some? ==> r.value.closes == s.closes
    ensures r.Some? ==> r.value.terminated == s.terminated && r.value.exitCode == s.exitCode
  {
    var c := GetNotifySocket(env, connectOk);
    if c.ConnectRaised? then None else Some(SendIfOpen(Install(s, c), READY))
  }

  /** The `while not main_worker.terminated` loop of `main`, entered with the
      main thread waiting, and the exit code it returns: 1001 after an
      interrupt, otherwise the code the record holds when the main thread
      finds it terminated. */
  function Loop(s: State, env: Option<string>, events: seq<Event>): (r: (State, Outcome))
    ensures r.1.Exited? || r.1.Serving?
    ensures r.1.Exited? ==>
      r.1.code == EXIT_CODE_UNCAUGHT_EXCEPTION || (r.0.terminated && r.1.code == r.0.exitCode)
    ensures s.terminated ==> r.0.terminated
    decreases |events|
  {
    if events == [] then (s, Serving)
    else
      match events[0]
      case Request(path, connectOk) => Loop(Post(s, path, env, connectOk).0, env, events[1..])
      case Tick =>
        var t := SelfPing(s, env).0;
        if t.terminated then (t, Exited(t.exitCode)) else Loop(t, env, events[1..])
      case Wake => if s.terminated then (s, Exited(s.exitCode)) else Loop(s, env, events[1..])
      case Interrupt => (s, Exited(EXIT_CODE_UNCAUGHT_EXCEPTION))
  }

  /** `main`: startup, the loop test before the first wait, then the loop. */
  function Run(s: State, env: Option<string>, connectOk: bool, events: seq<Event>): (r: (State, Outcome))
    ensures r.1.StartupFailed? <==> ResolveNotifyAddress(env).Some? && !connectOk
    ensures r.1.Exited? ==>
      r.1.code == EXIT_CODE_UNCAUGHT_EXCEPTION || (r.0.terminated && r.1.code == r.0.exitCode)
  {
    match Startup(s, env, connectOk)
    case None => (s, StartupFailed)
    case Some(started) =>
      if started.terminated then (started, Exited(started.exitCode)) else Loop(started, env, events)
  }

  /** The shared record, updated in place by the request handlers and the main loop. */
  class MainWorker {
    var terminated: bool
    var exitCode: int
    var channel: Option<Chan>
    ghost var sent: seq<string>
    ghost var opens: nat
    ghost var closes: nat

    ghost function Snapshot(): State
      reads this
    {
      State(terminated, exitCode, channel, sent, opens, closes)
    }

    constructor ()
      ensures Snapshot() == Initial()
    {
      terminated, exitCode, channel := false, EXIT_CODE_OK, None;
      sent, opens, closes := [], 0, 0;
    }

    /** `WatchdogHandler.exit`. */
    method Exit(code: int)
      modifies this
      ensures Snapshot() == RequestExit(old(Snapshot()), code)
    {
      terminated := true;
      exitCode := code;
    }

    /** Store the outcome of `get_notify_socket` in the record. */
    method InstallChannel(c: Connect)
      requires !c.ConnectRaised?
      modifies this
      ensures Snapshot() == Install(old(Snapshot()), c)
    {
      match c {
        case NoAddress =>
          channel := None;
        case Connected(chan) =>
          channel := Some(chan);
          opens := opens + 1;
      }
    }

    /** `WatchdogHandler.do_POST`. */
    method HandlePost(path: string, env: Option<string>, connectOk: bool) returns (reply: Option<Reply>)
      modifies this
      ensures (Snapshot(), reply) == Post(old(Snapshot()), path, env, connectOk)
    {
      if path == PING_PATH {
        reply := Some(TextReply(PONG));
        if channel.Some? {
          sent := sent + [WATCHDOG];
        }
      } else if path == SHUTDOWN_PATH {
        reply := Some(TextReply(OK));
        Exit(EXIT_CODE_OK);
      } else if path == RESTART_PATH {
        reply := Some(TextReply(OK));
        Exit(EXIT_CODE_RESTART);
      } else if path == ENABLE_NOTIFY_PATH {
        reply := Some(TextReply(OK));
        if channel.None? {
          var c := GetNotifySocket(env, connectOk);
          if !c.ConnectRaised? {
            InstallChannel(c);
          }
        }
      } else if path == DISABLE_NOTIFY_PATH {
        reply := Some(TextReply(OK));
        if channel.Some? {
          channel := None;
          closes := closes + 1;
        }
      } else {
        reply := None;
      }
    }

    /** `main`: the events stand for what the other threads and the timer do
        while the main thread waits. `pingFailures` counts the "ping failed"
        reports of the self-ping client. */
    method MainLoop(env: Option<string>, startupConnectOk: bool, events: seq<Event>)
      returns (outcome: Outcome, pingFailures: nat)
      modifies this
      ensures (Snapshot(), outcome) == Run(old(Snapshot()), env, startupConnectOk, events)
      ensures pingFailures == 0
    {
      pingFailures := 0;
      var c := GetNotifySocket(env, startupConnectOk);
      if c.ConnectRaised? {
        outcome := StartupFailed;
        return;
      }
      InstallChannel(c);
      var exitCode := EXIT_CODE_UNCAUGHT_EXCEPTION;
      if channel.Some? {
        sent := sent + [READY];
      }
      if terminated {
        exitCode := this.exitCode;
        outcome := Exited(exitCode);
        return;
      }
      ghost var started := Snapshot();
      var done := false;
      var i := 0;
      while !done && i < |events|
        invariant 0 <= i <= |events|
        invariant pingFailures == 0
        invariant !done ==> exitCode == EXIT_CODE_UNCAUGHT_EXCEPTION
        invariant done ==> Loop(started, env, events) == (Snapshot(), Exited(exitCode))
        invariant !done ==> Loop(started, env, events) == Loop(Snapshot(), env, events[i..])
      {
        assert events[i..][1..] == events[i + 1..];
        match events[i] {
          case Request(path, connectOk) =>
            var ignored := HandlePost(path, env, connectOk);
          case Tick =>
            var reply := HandlePost(PING_PATH, env, true);
            var pinged := reply.Some? && PingSucceeded(reply.value.response);
            pingFailures := pingFailures + (if pinged then 0 else 1);
            if terminated {
              exitCode := this.exitCode;
              done := true;
            }
          case Wake =>
            if terminated {
              exitCode := this.exitCode;
              done := true;
            }
          case Interrupt =>
            done := true;
        }
        i := i + 1;
      }
      outcome := if done then Exited(exitCode) else Serving;
    }
  }
}
