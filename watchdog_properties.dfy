/** What the control routes and the main loop promise about `main_worker`. */
module WatchdogProperties {
  import opened Wrappers
  import opened HttpReply
  import opened NotifyAddress
  import opened Watchdog

  // ---------------------------------------------------------------------
  // One request

  /** Every route keeps the record invariant. */
  lemma PostPreservesValid(s: State, path: string, env: Option<string>, connectOk: bool)
    requires Valid(s)
    ensures Valid(Post(s, path, env, connectOk).0)
  {
  }

  /** enableNotify with a channel already open leaves the whole record as it
      is: no second channel is opened. */
  lemma EnableKeepsOpenChannel(s: State, env: Option<string>, connectOk: bool)
    requires s.channel.Some?
    ensures Post(s, ENABLE_NOTIFY_PATH, env, connectOk) == (s, Some(TextReply(OK)))
  {
  }

  /** enableNotify with no channel open: afterwards a channel is open exactly
      when a non-empty address is configured and the connect succeeds; it is
      connected to the resolved address, it is the one new channel, and
      nothing else in the record changes. */
  lemma EnableOpensWhenConfigured(s: State, env: Option<string>, connectOk: bool)
    requires s.channel.None?
    ensures var t := Post(s, ENABLE_NOTIFY_PATH, env, connectOk).0;
      && (t.channel.Some? <==> ResolveNotifyAddress(env).Some? && connectOk)
      && (t.channel.Some? ==> t.channel.value.address == ResolveNotifyAddress(env).value
                              && t.opens == s.opens + 1)
      && (t.channel.None? ==> t == s)
      && t.terminated == s.terminated && t.exitCode == s.exitCode
      && t.sent == s.sent && t.closes == s.closes
  {
  }

  /** Two enableNotify calls in a row, with the same configuration and
      connect outcome, leave the record as one does. */
  lemma EnableIdempotent(s: State, env: Option<string>, connectOk: bool)
    ensures var once := Post(s, ENABLE_NOTIFY_PATH, env, connectOk).0;
      Post(once, ENABLE_NOTIFY_PATH, env, connectOk).0 == once
  {
  }

  /** disableNotify leaves no channel open, closes an open channel exactly
      once, and changes nothing else. */
  lemma DisableClosesOnce(s: State, env: Option<string>, connectOk: bool)
    ensures var t := Post(s, DISABLE_NOTIFY_PATH, env, connectOk).0;
      && t.channel.None?
      && t.closes == s.closes + (if s.channel.Some? then 1 else 0)
      && t == s.(channel := None, closes := t.closes)
  {
  }

  /** A second disableNotify changes nothing. */
  lemma DisableIdempotent(s: State, env: Option<string>, connectOk: bool)
    ensures var once := Post(s, DISABLE_NOTIFY_PATH, env, connectOk).0;
      Post(once, DISABLE_NOTIFY_PATH, env, connectOk).0 == once
  {
  }

  /** ping always replies "pong", sends exactly one WATCHDOG=1 when a channel
      is open and nothing otherwise, and changes nothing else. */
  lemma PingSendsOneToken(s: State, env: Option<string>, connectOk: bool)
    ensures var (t, reply) := Post(s, PING_PATH, env, connectOk);
      && reply == Some(TextReply(PONG))
      && t.sent == s.sent + (if s.channel.Some? then [WATCHDOG] else [])
      && t == s.(sent := t.sent)
  {
  }

  /** shutdown and restart terminate with exit code 0 and 1002, whatever the
      record held before, and change nothing else. */
  lemma ShutdownAndRestart(s: State, env: Option<string>, connectOk: bool)
    ensures Post(s, SHUTDOWN_PATH, env, connectOk)
         == (s.(terminated := true, exitCode := EXIT_CODE_OK), Some(TextReply(OK)))
    ensures Post(s, RESTART_PATH, env, connectOk)
         == (s.(terminated := true, exitCode := EXIT_CODE_RESTART), Some(TextReply(OK)))
  {
  }

  /** `exit` overwrites the code on every call: the last call decides it. */
  lemma ExitOverwrites(s: State, first: int, second: int)
    ensures RequestExit(RequestExit(s, first), second) == RequestExit(s, second)
    ensures RequestExit(s, first).terminated
  {
  }

  /** Only shutdown and restart touch `terminated` and the exit code, and
      `terminated` never goes back to false. */
  lemma OnlyExitRoutesTerminate(s: State, path: string, env: Option<string>, connectOk: bool)
    ensures var t := Post(s, path, env, connectOk).0;
      && (s.terminated ==> t.terminated)
      && (path != SHUTDOWN_PATH && path != RESTART_PATH ==>
            t.terminated == s.terminated && t.exitCode == s.exitCode)
  {
  }

  /** An unrecognised path gets no reply and leaves the record unchanged. */
  lemma UnknownPathIgnored(s: State, path: string, env: Option<string>, connectOk: bool)
    requires forall route :: PathOf(route) != path
    ensures Post(s, path, env, connectOk) == (s, None)
  {
  }

  /** Every control reply is a 200 text/plain reply that closes the
      connection; it passes the self-ping success test exactly when it is the
      reply to /api/ping. */
  lemma RepliesAndPingCheck(s: State, route: Route, env: Option<string>, connectOk: bool)
    ensures var reply := Post(s, PathOf(route), env, connectOk).1;
      && reply.Some?
      && reply.value.closeConnection
      && reply.value.response.status == STATUS_OK
      && HeaderValue(reply.value.response.headers, "Content-Type") == Some(TEXT_PLAIN)
      && (PingSucceeded(reply.value.response) <==> route == Ping)
  {
    var reply := Post(s, PathOf(route), env, connectOk).1;
    assert RouteOf(PathOf(route)) == Some(route);
    if route != Ping {
      assert reply.value.response.body == OK;
      assert OK[0] != PONG[0];
    }
  }

  // ---------------------------------------------------------------------
  // Sequences of requests

  datatype Req = Req(path: string, connectOk: bool)

  /** The record after a series of requests, handled in order. */
  function Replay(s: State, env: Option<string>, reqs: seq<Req>): State
    decreases |reqs|
  {
    if reqs == [] then s
    else
      var last := reqs[|reqs| - 1];
      Post(Replay(s, env, reqs[..|reqs| - 1]), last.path, env, last.connectOk).0
  }

  predicate IsDisable(r: Req) { r.path == DISABLE_NOTIFY_PATH }

  /** An enableNotify that opens a channel if none is open. */
  predicate IsSuccessfulEnable(r: Req, env: Option<string>) {
    r.path == ENABLE_NOTIFY_PATH && ResolveNotifyAddress(env).Some? && r.connectOk
  }

  predicate NoDisable(reqs: seq<Req>) {
    forall j :: 0 <= j < |reqs| ==> !IsDisable(reqs[j])
  }

  /** Some enableNotify that succeeds (or would, were no channel open) comes
      after the last disableNotify. */
  predicate EnabledSinceLastDisable(reqs: seq<Req>, env: Option<string>) {
    exists i :: 0 <= i < |reqs| && IsSuccessfulEnable(reqs[i], env) && NoDisable(reqs[i + 1..])
  }

  lemma NoDisableSnoc(reqs: seq<Req>, r: Req)
    ensures NoDisable(reqs + [r]) <==> NoDisable(reqs) && !IsDisable(r)
  {
    var all := reqs + [r];
    assert all[|reqs|] == r;
    if NoDisable(reqs) && !IsDisable(r) {
      forall j | 0 <= j < |all| ensures !IsDisable(all[j]) {
        if j < |reqs| { assert all[j] == reqs[j]; }
      }
    }
    if NoDisable(all) {
      forall j | 0 <= j < |reqs| ensures !IsDisable(reqs[j]) {
        assert reqs[j] == all[j];
      }
    }
  }

  /** How one more request changes whether an enable has succeeded since the
      last disable. */
  lemma EnabledSinceSnoc(reqs: seq<Req>, r: Req, env: Option<string>)
    ensures IsDisable(r) ==> !EnabledSinceLastDisable(reqs + [r], env)
    ensures IsSuccessfulEnable(r, env) ==> EnabledSinceLastDisable(reqs + [r], env)
    ensures !IsDisable(r) && !IsSuccessfulEnable(r, env) ==>
      (EnabledSinceLastDisable(reqs + [r], env) <==> EnabledSinceLastDisable(reqs, env))
  {
    var all := reqs + [r];
    var n := |reqs|;
    assert all[n] == r;
    forall i | 0 <= i < n ensures all[i] == reqs[i] && all[i + 1..] == reqs[i + 1..] + [r] {
    }
    if IsDisable(r) {
      forall i | 0 <= i < |all| && IsSuccessfulEnable(all[i], env) ensures !NoDisable(all[i + 1..]) {
        assert i < n;
        assert all[i + 1..][n - i - 1] == r;
      }
    }
    if IsSuccessfulEnable(r, env) {
      assert NoDisable(all[n + 1..]);
    }
    if !IsDisable(r) && !IsSuccessfulEnable(r, env) {
      if EnabledSinceLastDisable(reqs, env) {
        var i :| 0 <= i < n && IsSuccessfulEnable(reqs[i], env) && NoDisable(reqs[i + 1..]);
        NoDisableSnoc(reqs[i + 1..], r);
        assert IsSuccessfulEnable(all[i], env) && NoDisable(all[i + 1..]);
      }
      if EnabledSinceLastDisable(all, env) {
        var i :| 0 <= i < |all| && IsSuccessfulEnable(all[i], env) && NoDisable(all[i + 1..]);
        assert i < n;
        NoDisableSnoc(reqs[i + 1..], r);
        assert IsSuccessfulEnable(reqs[i], env) && NoDisable(reqs[i + 1..]);
      }
    }
  }

  /** The channel after one request: a disable closes it, a successful
      enable leaves one open, and every other request keeps it as it was. */
  lemma ChannelAfterRequest(s: State, r: Req, env: Option<string>)
    ensures var t := Post(s, r.path, env, r.connectOk).0;
      t.channel.Some? <==>
        if IsDisable(r) then false
        else if IsSuccessfulEnable(r, env) then true
        else s.channel.Some?
  {
  }

  /** After any series of requests a channel is open exactly when an
      enableNotify has succeeded since the last disableNotify, or the
      starting channel was open and no disableNotify came. */
  lemma {:induction false} ChannelFollowsLastToggle(s: State, env: Option<string>, reqs: seq<Req>)
    ensures Replay(s, env, reqs).channel.Some? <==>
      EnabledSinceLastDisable(reqs, env) || (s.channel.Some? && NoDisable(reqs))
    decreases |reqs|
  {
    if reqs != [] {
      var n := |reqs| - 1;
      var init, last := reqs[..n], reqs[n];
      assert reqs == init + [last];
      ChannelFollowsLastToggle(s, env, init);
      ChannelAfterRequest(Replay(s, env, init), last, env);
      NoDisableSnoc(init, last);
      EnabledSinceSnoc(init, last, env);
    }
  }

  /** Repeated enableNotify calls (and any other requests) without an
      intervening disableNotify keep the open channel and open no other. */
  lemma {:induction false} OpenChannelSurvivesWithoutDisable(s: State, env: Option<string>, reqs: seq<Req>)
    requires s.channel.Some? && NoDisable(reqs)
    ensures Replay(s, env, reqs).channel == s.channel
    ensures Replay(s, env, reqs).opens == s.opens
    ensures Replay(s, env, reqs).closes == s.closes
    decreases |reqs|
  {
    if reqs != [] {
      var n := |reqs| - 1;
      assert NoDisable(reqs[..n]) by {
        forall j | 0 <= j < n ensures !IsDisable(reqs[..n][j]) {
          assert reqs[..n][j] == reqs[j];
        }
      }
      assert !IsDisable(reqs[n]);
      OpenChannelSurvivesWithoutDisable(s, env, reqs[..n]);
    }
  }

  /** The requests as the events the main loop sees. */
  function AsEvents(reqs: seq<Req>): (events: seq<Event>)
    ensures |events| == |reqs|
    ensures forall i :: 0 <= i < |reqs| ==> events[i] == Request(reqs[i].path, reqs[i].connectOk)
  {
    seq(|reqs|, i requires 0 <= i < |reqs| => Request(reqs[i].path, reqs[i].connectOk))
  }

  /** A loop still serving after `a` goes on with `b` from the record `a`
      left. */
  lemma {:induction false} LoopAppend(s: State, env: Option<string>, a: seq<Event>, b: seq<Event>)
    requires Loop(s, env, a).1 == Serving
    ensures Loop(s, env, a + b) == Loop(Loop(s, env, a).0, env, b)
    decreases |a|
  {
    if a != [] {
      assert (a + b)[0] == a[0] && (a + b)[1..] == a[1..] + b;
      match a[0]
      case Interrupt =>
        assert false;
      case Wake =>
        LoopAppend(s, env, a[1..], b);
      case Tick =>
        LoopAppend(SelfPing(s, env).0, env, a[1..], b);
      case Request(path, connectOk) =>
        LoopAppend(Post(s, path, env, connectOk).0, env, a[1..], b);
    } else {
      assert a + b == b;
    }
  }

  /** Requests alone never stop the loop, whatever they do to `terminated`,
      and they leave the record `Replay` computes: the request-sequence
      properties above are properties of the main loop. */
  lemma {:induction false} LoopReplaysRequests(s: State, env: Option<string>, reqs: seq<Req>)
    ensures Loop(s, env, AsEvents(reqs)) == (Replay(s, env, reqs), Serving)
    decreases |reqs|
  {
    if reqs != [] {
      var n := |reqs| - 1;
      var last := reqs[n];
      var e := Request(last.path, last.connectOk);
      assert AsEvents(reqs) == AsEvents(reqs[..n]) + [e];
      LoopReplaysRequests(s, env, reqs[..n]);
      LoopAppend(s, env, AsEvents(reqs[..n]), [e]);
      assert [e][1..] == [];
    }
  }

  // ---------------------------------------------------------------------
  // The main loop

  /** READY=1 is sent once at startup, exactly when the startup channel is
      open; the startup fails only when an address is configured and its
      connect raises. */
  lemma StartupSendsReadyOnce(env: Option<string>, connectOk: bool)
    ensures Startup(Initial(), env, connectOk).None? <==> ResolveNotifyAddress(env).Some? && !connectOk
    ensures var started := Startup(Initial(), env, connectOk);
      started.Some? ==>
        && (started.value.channel.Some? <==> ResolveNotifyAddress(env).Some?)
        && (started.value.channel.Some? ==>
              started.value.channel.value.address == ResolveNotifyAddress(env).value)
        && started.value.opens == (if started.value.channel.Some? then 1 else 0)
        && started.value.closes == 0
        && started.value.sent == (if started.value.channel.Some? then [READY] else [])
        && !started.value.terminated
        && Valid(started.value)
  {
  }

  /** The exit code a record holds for the main thread to return: the
      recorded code once it is terminated, none before. */
  function PendingOf(s: State): Option<int> {
    if s.terminated then Some(s.exitCode) else None
  }

  /** The pending exit code after one event: a shutdown or restart request
      records 0 or 1002 over whatever was pending; nothing else changes it. */
  function PendingAfter(pending: Option<int>, e: Event): Option<int> {
    match e
    case Request(path, _) =>
      if path == SHUTDOWN_PATH then Some(EXIT_CODE_OK)
      else if path == RESTART_PATH then Some(EXIT_CODE_RESTART)
      else pending
    case _ => pending
  }

  /** The pending exit code after a series of events. */
  function LastExit(pending: Option<int>, events: seq<Event>): Option<int>
    decreases |events|
  {
    if events == [] then pending else LastExit(PendingAfter(pending, events[0]), events[1..])
  }

  predicate Resumes(e: Event) { e.Tick? || e.Wake? }

  /** Reference outcome, written over exit codes alone: an interrupt gives
      1001; the first time the main thread resumes with an exit code pending,
      it returns that code; shutdown and restart requests only set the
      pending code. A code that is not 0, 1001 or 1002 can only come from the
      code pending at the start. */
  function Verdict(pending: Option<int>, events: seq<Event>): (o: Outcome)
    ensures o.Exited? ==>
      o.code in {EXIT_CODE_OK, EXIT_CODE_UNCAUGHT_EXCEPTION, EXIT_CODE_RESTART} || pending == Some(o.code)
    ensures o.Exited? || o.Serving?
    decreases |events|
  {
    if events == [] then Serving
    else
      match events[0]
      case Interrupt => Exited(EXIT_CODE_UNCAUGHT_EXCEPTION)
      case Request(_, _) => Verdict(PendingAfter(pending, events[0]), events[1..])
      case _ => if pending.Some? then Exited(pending.value) else Verdict(pending, events[1..])
  }

  /** The loop returns the reference outcome: the channel, pings and
      requests other than shutdown and restart never decide the exit code,
      and a later shutdown or restart before the main thread resumes
      overrides an earlier one. */
  lemma {:induction false} LoopFollowsVerdict(s: State, env: Option<string>, events: seq<Event>)
    ensures Loop(s, env, events).1 == Verdict(PendingOf(s), events)
    decreases |events|
  {
    if events != [] {
      match events[0]
      case Interrupt =>
      case Tick =>
        var t := SelfPing(s, env).0;
        assert PendingOf(t) == PendingOf(s);
        if !s.terminated {
          LoopFollowsVerdict(t, env, events[1..]);
        }
      case Wake =>
        if !s.terminated {
          LoopFollowsVerdict(s, env, events[1..]);
        }
      case Request(path, connectOk) =>
        var t := Post(s, path, env, connectOk).0;
        OnlyExitRoutesTerminate(s, path, env, connectOk);
        ShutdownAndRestart(s, env, connectOk);
        assert PendingOf(t) == PendingAfter(PendingOf(s), events[0]);
        LoopFollowsVerdict(t, env, events[1..]);
    }
  }

  /** The first time the main thread resumes with an exit code pending, the
      code of the last shutdown or restart before it is returned, provided no
      interrupt came first. */
  lemma {:induction false} VerdictAtResume(pending: Option<int>, events: seq<Event>, k: nat)
    requires k < |events| && Resumes(events[k])
    requires forall j :: 0 <= j < k ==> !events[j].Interrupt?
    requires forall j :: 0 <= j < k && Resumes(events[j]) ==> LastExit(pending, events[..j]).None?
    requires LastExit(pending, events[..k]).Some?
    ensures Verdict(pending, events) == Exited(LastExit(pending, events[..k]).value)
    decreases k
  {
    assert events[..k][..0] == [];
    if k == 0 {
      assert events[..0] == [];
    } else {
      var e := events[0];
      var next := PendingAfter(pending, e);
      var rest := events[1..];
      forall j | 0 <= j <= k
        ensures j > 0 ==> LastExit(pending, events[..j]) == LastExit(next, rest[..j - 1])
      {
        if j > 0 {
          assert events[..j][0] == e && events[..j][1..] == rest[..j - 1];
        }
      }
      assert !e.Interrupt?;
      if Resumes(e) {
        assert events[..0] == [];
        assert pending.None?;
      }
      assert Verdict(pending, events) == Verdict(next, rest);
      forall j | 0 <= j < k - 1 && Resumes(rest[j]) ensures LastExit(next, rest[..j]).None? {
        assert rest[j] == events[j + 1];
      }
      VerdictAtResume(next, rest, k - 1);
    }
  }

  /** `main` from the module's initial record: a failed startup connect
      escapes; otherwise the outcome is the reference outcome with no code
      pending, so the exit code is 0, 1001 or 1002 and never 1003. */
  lemma {:induction false} RunExitCode(env: Option<string>, connectOk: bool, events: seq<Event>)
    ensures var outcome := Run(Initial(), env, connectOk, events).1;
      && (outcome == StartupFailed <==> ResolveNotifyAddress(env).Some? && !connectOk)
      && (outcome != StartupFailed ==> outcome == Verdict(None, events))
      && outcome != Exited(EXIT_CODE_NETWORK)
  {
    StartupSendsReadyOnce(env, connectOk);
    var started := Startup(Initial(), env, connectOk);
    if started.Some? {
      LoopFollowsVerdict(started.value, env, events);
    }
  }

  /** Requests keep being served after `exit` until the main thread resumes:
      a restart after a shutdown makes `main` return 1002, and an interrupt
      after a shutdown makes it return 1001. */
  lemma ExitWindow(env: Option<string>, connectOk: bool, c1: bool, c2: bool)
    ensures var outcome := Run(Initial(), env, connectOk,
                               [Request(SHUTDOWN_PATH, c1), Request(RESTART_PATH, c2), Wake]).1;
      outcome != StartupFailed ==> outcome == Exited(EXIT_CODE_RESTART)
    ensures var outcome := Run(Initial(), env, connectOk, [Request(SHUTDOWN_PATH, c1), Interrupt]).1;
      outcome != StartupFailed ==> outcome == Exited(EXIT_CODE_UNCAUGHT_EXCEPTION)
  {
    var events := [Request(SHUTDOWN_PATH, c1), Request(RESTART_PATH, c2), Wake];
    RunExitCode(env, connectOk, events);
    assert events[1..][1..] == [Wake];
    assert Verdict(Some(EXIT_CODE_OK), events[1..]) == Verdict(Some(EXIT_CODE_RESTART), [Wake]);
    var other := [Request(SHUTDOWN_PATH, c1), Interrupt];
    RunExitCode(env, connectOk, other);
    assert Verdict(None, other) == Verdict(Some(EXIT_CODE_OK), [Interrupt]);
  }

  /** `sent` is `base` followed only by WATCHDOG=1 tokens. */
  predicate OnlyWatchdogAfter(base: seq<string>, sent: seq<string>) {
    && |base| <= |sent|
    && sent[..|base|] == base
    && forall i :: |base| <= i < |sent| ==> sent[i] == WATCHDOG
  }

  /** One request sends at most one token, and only WATCHDOG=1. */
  lemma PostSendsOnlyWatchdog(s: State, path: string, env: Option<string>, connectOk: bool)
    ensures var t := Post(s, path, env, connectOk).0;
      t.sent == s.sent || t.sent == s.sent + [WATCHDOG]
  {
    if path == PING_PATH {
      PingSendsOneToken(s, env, connectOk);
    }
  }

  /** After startup the loop never sends READY=1 again: whatever mix of
      requests, timeouts and wakes it sees, it only appends WATCHDOG=1
      tokens to what was sent before. */
  lemma {:induction false} LoopSendsOnlyWatchdog(s: State, env: Option<string>, events: seq<Event>)
    ensures OnlyWatchdogAfter(s.sent, Loop(s, env, events).0.sent)
    decreases |events|
  {
    if events == [] || events[0].Interrupt? || (events[0].Wake? && s.terminated) {
      assert Loop(s, env, events).0 == s;
      assert s.sent[..|s.sent|] == s.sent;
    } else {
      var t := if events[0].Request? then Post(s, events[0].path, env, events[0].connectOk).0
        else if events[0].Tick? then SelfPing(s, env).0
        else s;
      if events[0].Request? {
        PostSendsOnlyWatchdog(s, events[0].path, env, events[0].connectOk);
      }
      assert t.sent == s.sent || t.sent == s.sent + [WATCHDOG];
      var u := Loop(s, env, events).0;
      if events[0].Tick? && t.terminated {
        assert u == t;
      } else {
        assert u == Loop(t, env, events[1..]).0;
        LoopSendsOnlyWatchdog(t, env, events[1..]);
      }
      assert OnlyWatchdogAfter(t.sent, u.sent);
      assert u.sent[..|t.sent|] == t.sent;
      assert u.sent[..|s.sent|] == t.sent[..|s.sent|] == s.sent;
      forall i | |s.sent| <= i < |u.sent| ensures u.sent[i] == WATCHDOG {
        if i < |t.sent| {
          assert u.sent[i] == u.sent[..|t.sent|][i] == t.sent[i];
        }
      }
    }
  }

  /** `main` sends READY=1 exactly once, first, and only when the startup
      channel is open; every later token is WATCHDOG=1. */
  lemma RunSendsReadyOnce(env: Option<string>, connectOk: bool, events: seq<Event>)
    ensures var (t, outcome) := Run(Initial(), env, connectOk, events);
      outcome != StartupFailed ==>
        var started := Startup(Initial(), env, connectOk).value;
        && (|t.sent| > 0 && t.sent[0] == READY <==> started.channel.Some?)
        && forall i :: (if started.channel.Some? then 1 else 0) <= i < |t.sent| ==> t.sent[i] == WATCHDOG
  {
    StartupSendsReadyOnce(env, connectOk);
    var r := Startup(Initial(), env, connectOk);
    if r.Some? {
      var started := r.value;
      LoopSendsOnlyWatchdog(started, env, events);
      var t := Loop(started, env, events).0;
      assert Run(Initial(), env, connectOk, events).0 == t;
      if started.channel.Some? {
        assert t.sent[0] == t.sent[..1][0] == READY;
      } else {
        assert |t.sent| > 0 ==> t.sent[0] == WATCHDOG;
        assert WATCHDOG[0] != READY[0];
      }
    }
  }

  /** With no notification address configured: enableNotify is a harmless
      no-op, ping answers without sending anything, and shutdown ends the
      process with exit code 0 once the main thread wakes. */
  lemma NoAddressScenario(connectOk: bool)
    ensures var events := [Request(ENABLE_NOTIFY_PATH, connectOk), Request(PING_PATH, connectOk),
                           Request(SHUTDOWN_PATH, connectOk), Wake];
      var (t, outcome) := Run(Initial(), None, connectOk, events);
      outcome == Exited(EXIT_CODE_OK) && t.channel.None? && t.sent == []
  {
    var events := [Request(ENABLE_NOTIFY_PATH, connectOk), Request(PING_PATH, connectOk),
                   Request(SHUTDOWN_PATH, connectOk), Wake];
    var s0 := Initial();
    assert Startup(s0, None, connectOk) == Some(s0);
    assert Post(s0, ENABLE_NOTIFY_PATH, None, connectOk).0 == s0;
    assert Post(s0, PING_PATH, None, connectOk).0 == s0;
    var s3 := Post(s0, SHUTDOWN_PATH, None, connectOk).0;
    assert s3 == s0.(terminated := true);
    assert events[1..][1..][1..] == [Wake];
    assert Loop(s0, None, events) == Loop(s0, None, events[1..]) == Loop(s0, None, events[1..][1..]);
    assert Loop(s0, None, events[1..][1..]) == Loop(s3, None, [Wake]);
  }

  /** The loop keeps the record invariant. */
  lemma {:induction false} LoopPreservesValid(s: State, env: Option<string>, events: seq<Event>)
    requires Valid(s)
    ensures Valid(Loop(s, env, events).0)
    decreases |events|
  {
    if events != [] {
      match events[0]
      case Interrupt =>
      case Wake =>
        if !s.terminated {
          LoopPreservesValid(s, env, events[1..]);
        }
      case Tick =>
        PostPreservesValid(s, PING_PATH, env, true);
        var t := SelfPing(s, env).0;
        if !t.terminated {
          LoopPreservesValid(t, env, events[1..]);
        }
      case Request(path, connectOk) =>
        PostPreservesValid(s, path, env, connectOk);
        LoopPreservesValid(Post(s, path, env, connectOk).0, env, events[1..]);
    }
  }

  function Repeat(token: string, n: nat): (r: seq<string>)
    ensures |r| == n && forall i :: 0 <= i < n ==> r[i] == token
  {
    if n == 0 then [] else Repeat(token, n - 1) + [token]
  }

  predicate AllTicks(events: seq<Event>) {
    forall i :: 0 <= i < |events| ==> events[i] == Tick
  }

  /** Each timer tick performs one self-ping: with the channel open, n ticks
      send n WATCHDOG=1 tokens; with none open they send nothing; ticks alone
      never end the loop and change nothing else. */
  lemma {:induction false} TicksPingOnceEach(s: State, env: Option<string>, events: seq<Event>)
    requires !s.terminated && AllTicks(events)
    ensures var (t, outcome) := Loop(s, env, events);
      && outcome == Serving
      && t.sent == s.sent + (if s.channel.Some? then Repeat(WATCHDOG, |events|) else [])
      && t == s.(sent := t.sent)
    decreases |events|
  {
    if events != [] {
      var rest := events[1..];
      assert AllTicks(rest) by {
        forall i | 0 <= i < |rest| ensures rest[i] == Tick { assert rest[i] == events[i + 1]; }
      }
      assert events[0] == Tick;
      var p := SelfPing(s, env).0;
      TicksPingOnceEach(p, env, rest);
      if s.channel.Some? {
        assert [WATCHDOG] + Repeat(WATCHDOG, |rest|) == Repeat(WATCHDOG, |events|);
      }
    }
  }
}
