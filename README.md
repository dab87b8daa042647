# watchdog: a verified model of the control-plane state machine

`watchdog.py` is a process-supervision helper. It serves five HTTP POST
control routes on port 9080. It keeps one shared record, `main_worker`,
with three fields: `terminated`, `exit_code` and an optional notification
socket to the supervisor (systemd's `NOTIFY_SOCKET`). Its main loop waits on
the record's condition variable. On each timeout it pings itself over HTTP,
and when the record is terminated it returns the recorded exit code.

This project models that record and everything that changes it:

- `notify_address.dfy` (module `NotifyAddress`): `get_notify_socket`. It
  rewrites a leading `@` into NUL, the byte that selects the abstract socket
  namespace. An unset or empty variable yields no socket. The success of
  `connect` is a parameter.
- `http_reply.dfy` (module `HttpReply`): `send_content`. It builds status
  200, the no-cache header, the content type and a decimal Content-Length.
  The module also holds the self-ping client's success test.
- `watchdog.dfy` (module `Watchdog`): the record as a value (`State`) and as
  the class `MainWorker`. It also holds the routes, `do_POST` (`Post`,
  `MainWorker.HandlePost`), `exit` (`RequestExit`, `MainWorker.Exit`) and
  `main` (`Startup`, `Loop`, `Run`, `MainWorker.MainLoop`). Each class method is
  proved to produce exactly the state and result of its function.
- `watchdog_properties.dfy` (module `WatchdogProperties`): the properties of
  single requests, of request sequences and of the main loop.
- `wrappers.dfy`: the `Option` type.

Every block that the source runs under `with main_worker.condition:` is one
atomic step of the model. What the other threads and the timer do while the
main thread waits is a sequence of events:

- `Request(path, connectOk)`: a control request handled by a server thread;
- `Tick`: the wait timed out, so the main thread retakes the lock, pings
  itself and tests `terminated`;
- `Wake`: the main thread retakes the lock after `notify_all` and tests
  `terminated` (before the first wait, this is the first loop test);
- `Interrupt`: a keyboard interrupt.

Requests go on being handled after `exit` until the main thread resumes,
so when several `exit` calls come before it resumes, the last one decides.
The main thread releases the lock at the end of the loop (line 133 reads
`exit_code` outside it), and the server accepts requests until line 138.
The model reads the exit code in the same step as the test. This loses no
behaviour: `terminated` never goes back to false, so a shutdown or restart
in that window has the same effect as one that arrives just before the
`Wake`. An interrupt in that window gives 1001, as an `Interrupt` after the
`exit` does.

The supervisor socket is an abstract handle, `Chan`, that holds its resolved
address. Sending on it appends the token to a log, `sent`, in the record.
The record also counts how many channels were opened and how many closed.

## Model

| member | source | states |
|---|---|---|
| `NotifyAddress.ResolveNotifyAddress` | watchdog.py:25-29 | An address is produced exactly when NOTIFY_SOCKET is set and non-empty, so `addr[0]` is never read on an empty string. It has the same length and the same suffix after the first character. A leading `@` becomes NUL, so the address is abstract. Any other address is used unchanged. |
| `NotifyAddress.ResolveRoundTrip` | watchdog.py:28-29 | For an environment value that does not start with NUL, writing the resolved address's leading NUL back as `@` recovers the value. The resolved address is abstract exactly when the value starts with `@`. |
| `NotifyAddress.GetNotifySocket` | watchdog.py:24-31 | There is no socket exactly when no address resolves. A socket is connected exactly when an address resolves and `connect` succeeds, and it is connected to the resolved, non-empty address. Otherwise `connect` raises. |
| `HttpReply.Decimal` | watchdog.py:87 | `str` of a length gives a non-empty string of decimal digits that starts with '0' only for zero. |
| `HttpReply.DecimalRoundTrip` | watchdog.py:87 | Reading the Content-Length text back gives the length it was made from. |
| `HttpReply.DecimalOfDigitsValue` | watchdog.py:87 | Every canonical decimal string is the `str` of the number it denotes, so `str` is a bijection onto canonical decimal strings. |
| `HttpReply.SendContent` | watchdog.py:82-89 | Status 200. The body is the content. `Cache-Control: max-age=0,no-cache`. The given Content-Type. These three headers and no others. A Content-Length that is exactly the `str` of the body's length, so it is canonical and reads back as that length. |
| `Watchdog.RouteOf` | watchdog.py:45-73 | A recognised path is exactly the path of its route. Any other path belongs to no route. |
| `Watchdog.Post` | watchdog.py:42-73 | There is a reply exactly for the five control paths. A terminated record stays terminated. |
| `Watchdog.Initial` | watchdog.py:17-22 | The record starts valid: not terminated, exit code 0, no socket and nothing sent. |
| `Watchdog.RequestExit` | watchdog.py:75-80 | `exit` leaves the record terminated with exactly the given code, whatever it held before, and changes nothing else. With code 0 or 1002 it keeps the record invariant. |
| `Watchdog.SendIfOpen` | watchdog.py:48-50 | One token is sent exactly when a channel is open, none otherwise, and nothing else changes. The record invariant is kept. The READY=1 send at lines 124-126 uses it too. |
| `Watchdog.EnableChannel` | watchdog.py:64-66 | With a channel open nothing changes. With none, a channel is open afterwards exactly when an address resolves and its connect succeeds. That channel has the resolved address and counts one opening. Only the channel and the opening count change, and the record invariant is kept. |
| `Watchdog.DisableChannel` | watchdog.py:70-73 | No channel is left open. The closing count grows by one exactly when a channel was open. Nothing else changes, and the record invariant is kept. |
| `Watchdog.SelfPing` | watchdog.py:91-96 | The self-ping's reply always passes the client's test (status 200, body "pong"), so "ping failed" is never printed. It sends one `WATCHDOG=1` exactly when a channel is open and changes nothing else. |
| `Watchdog.Startup` | watchdog.py:104-126 | Startup fails exactly when an address is configured and its connect raises. Otherwise a channel is open exactly when an address is configured, and it is connected to the resolved address. It counts one opening, and no channel is closed. `READY=1` is appended once, exactly when that channel is open. `terminated` and the exit code are untouched. |
| `Watchdog.Loop` | watchdog.py:128-135 | The loop ends with an exit code or is still serving. An exit code is 1001 (interrupt) or the code of the terminated record the main thread finds. A terminated record stays terminated. |
| `Watchdog.Run` | watchdog.py:104-141 | `main` fails at startup exactly when an address is configured and its connect raises. An exit code it returns is 1001 or the code of the terminated record. |
| `Watchdog.MainWorker.constructor` | watchdog.py:17-22 | The record starts not terminated, with exit code 0, no socket and nothing sent. |
| `Watchdog.MainWorker.Exit` | watchdog.py:75-80 | Sets `terminated` and overwrites the exit code with the given one. Nothing else changes. |
| `Watchdog.MainWorker.InstallChannel` | watchdog.py:66 | Stores the result of `get_notify_socket` in the record and counts a newly opened channel. |
| `Watchdog.MainWorker.HandlePost` | watchdog.py:42-73 | The new record and the reply are exactly those of `Post` for every path. |
| `Watchdog.MainWorker.MainLoop` | watchdog.py:104-141 | The new record and the outcome are exactly those of `Run`: startup, READY, then the loop. The self-ping client never reports a failed ping. |
| `WatchdogProperties.PostPreservesValid` | watchdog.py:42-80 | Every request keeps the record invariant. A channel is open exactly when one more channel was opened than closed. An open channel has a non-empty address. The exit code is 0 until a shutdown or restart request, and then 0 or 1002. |
| `WatchdogProperties.EnableKeepsOpenChannel` | watchdog.py:61-66 | enableNotify with a channel already open replies "ok" and leaves the whole record unchanged. No second channel is opened. |
| `WatchdogProperties.EnableOpensWhenConfigured` | watchdog.py:64-66 | enableNotify with no channel open leaves a channel open exactly when an address is configured and its connect succeeds. That channel has the resolved address and is the one new channel. Otherwise the record is unchanged. |
| `WatchdogProperties.EnableIdempotent` | watchdog.py:64-66 | Repeating enableNotify with the same configuration and connect outcome changes nothing more. |
| `WatchdogProperties.DisableClosesOnce` | watchdog.py:67-73 | disableNotify leaves no channel open. It closes an open channel exactly once and changes nothing else. |
| `WatchdogProperties.DisableIdempotent` | watchdog.py:70-73 | A second disableNotify changes nothing. |
| `WatchdogProperties.PingSendsOneToken` | watchdog.py:45-50 | ping always replies "pong". It sends exactly one `WATCHDOG=1` when a channel is open and nothing otherwise. It changes nothing else: not `terminated`, not the exit code, not the channel. |
| `WatchdogProperties.ShutdownAndRestart` | watchdog.py:51-60 | shutdown sets `terminated` with exit code 0. restart sets `terminated` with exit code 1002. Both reply "ok", whatever the record held before, and change nothing else. |
| `WatchdogProperties.ExitOverwrites` | watchdog.py:75-80 | The last `exit` call decides the code, and `exit` always leaves the record terminated. |
| `WatchdogProperties.OnlyExitRoutesTerminate` | watchdog.py:45-73 | `terminated` never goes back to false. Only shutdown and restart change `terminated` or the exit code. |
| `WatchdogProperties.UnknownPathIgnored` | watchdog.py:45-73 | A path that is not a control route gets no reply and leaves the record unchanged. |
| `WatchdogProperties.RepliesAndPingCheck` | watchdog.py:82-89 | Every control reply is a 200 text/plain reply that closes the connection. It passes the self-ping test at line 96 (status 200, body "pong") exactly when it answers /api/ping. |
| `WatchdogProperties.ChannelAfterRequest` | watchdog.py:61-73 | After one request a channel is open as follows: never after disableNotify, always after an enableNotify whose connect succeeds, and otherwise as before. |
| `WatchdogProperties.ChannelFollowsLastToggle` | watchdog.py:61-73 | After any series of requests a channel is open exactly in two cases: an enableNotify has succeeded since the last disableNotify, or the starting channel was open and no disableNotify came. |
| `WatchdogProperties.OpenChannelSurvivesWithoutDisable` | watchdog.py:64-66 | Without a disableNotify, any number of enableNotify and other requests keep the open channel, and no other channel is opened or closed. |
| `WatchdogProperties.LoopAppend` | watchdog.py:128-132 | A loop still serving after one series of events continues with the next series from the record the first left. |
| `WatchdogProperties.LoopReplaysRequests` | watchdog.py:128-132 | Requests alone never stop the loop, even after shutdown or restart. The loop leaves the record that replaying the requests gives, so the request-sequence properties hold for the main loop. |
| `WatchdogProperties.StartupSendsReadyOnce` | watchdog.py:104-126 | Startup fails exactly when an address is configured and its connect raises. Otherwise a channel is open exactly when an address is configured. It is connected to the resolved address and is the only channel opened; none is closed. `READY=1` is the only token sent, once, and only if that channel is open. The record is valid and not terminated. |
| `WatchdogProperties.Verdict` | watchdog.py:113 | The reference outcome, over exit codes alone: an interrupt gives 1001, and the main thread's first resume with a code pending returns that code. Shutdown and restart only set the pending code. With no code pending at the start, the only codes are 0, 1001 and 1002. |
| `WatchdogProperties.LoopFollowsVerdict` | watchdog.py:128-135 | From any record the loop returns the reference outcome for the code the record has pending. Pings, notify toggles and unknown paths never decide the code. A later shutdown or restart before the main thread resumes overrides an earlier one. |
| `WatchdogProperties.VerdictAtResume` | watchdog.py:129-133 | With no interrupt first, the last shutdown or restart before the first resume with a code pending decides the exit code. |
| `WatchdogProperties.RunExitCode` | watchdog.py:104-141 | From the initial record, `main` fails at startup exactly when the startup connect raises. Otherwise it returns the reference outcome with no code pending: 0, 1001 or 1002, never 1003. An interrupt before any resume with a code pending gives 1001, not the record's initial 0. |
| `WatchdogProperties.ExitWindow` | watchdog.py:128-138 | A restart after a shutdown, before the main thread resumes, makes `main` return 1002. An interrupt after a shutdown, before the main thread resumes, makes it return 1001. |
| `WatchdogProperties.NoAddressScenario` | watchdog.py:61-66 | With no address configured, enableNotify, ping, shutdown and the main thread's wake send nothing, open no channel and exit with 0. |
| `WatchdogProperties.LoopPreservesValid` | watchdog.py:128-133 | The main loop keeps the record invariant. |
| `WatchdogProperties.PostSendsOnlyWatchdog` | watchdog.py:42-73 | One request sends at most one token, and it is `WATCHDOG=1`. |
| `WatchdogProperties.LoopSendsOnlyWatchdog` | watchdog.py:128-132 | Whatever mix of requests, timeouts, wakes and interrupts the loop sees, it keeps what was sent before and appends only `WATCHDOG=1` tokens, so it never sends `READY=1` again. |
| `WatchdogProperties.RunSendsReadyOnce` | watchdog.py:104-132 | When startup succeeds, `main`'s first token is `READY=1` exactly when the startup channel is open, and every later token is `WATCHDOG=1`. |
| `WatchdogProperties.TicksPingOnceEach` | watchdog.py:130-132 | Each timeout performs one self-ping. With the channel open, n ticks send n `WATCHDOG=1` tokens. With none open they send nothing. Ticks alone never end the loop and change nothing else. |

## Left out

- Threads, `ThreadingHTTPServer`, `serve_forever`, `Condition.wait`/`notify_all` and the 15 s, 5 s and poll-interval timeouts. Each locked block is one atomic step, and the wait ends with an event: a timeout (`Tick`) or a wake after `notify_all` (`Wake`).
- Interleavings finer than one locked block. While the main thread pings itself it holds the lock. So the ping handler sends its reply first, and sends `WATCHDOG=1` only after the main thread releases the lock, by waiting again or by leaving the loop. Another request could run between those two steps. The model runs a tick's whole ping handler as one step.
- Requests that arrive after the server thread starts (line 118) but before `READY=1` is sent (line 124). Startup is one atomic step.
- Socket and HTTP I/O: `socket.connect`/`sendall`/`close`, `HTTPConnection`, `wfile.write`. The channel is an abstract handle and sends always succeed. A failing `connect` is the `connectOk` parameter.
- The `Server` and `Date` headers and the status line that `send_response` adds. These belong to the HTTP library.
- `sendall` failures and self-ping transport errors. A timeout or connection error inside `ping()` would escape `main`. The model's self-ping always gets the handler's reply.
- The exception that escapes `main` when the startup connect fails. It is the `StartupFailed` outcome, and its process exit status is not modelled.
- The ping interval (lines 108-111, default 10 s). For a valid integer `WATCHDOG_USEC`, `int(WATCHDOG_USEC)/2000000` is a float division that sets how long each wait lasts. The model has no clock, so a value of 0, which makes every wait time out at once and the loop ping back to back, is just a series of `Tick` events.
- The `ValueError` that `int()` raises at line 111 for a `WATCHDOG_USEC` that is not an integer (such as `1.5e7` or `10s`). It escapes `main` after line 106 has installed the startup channel and before the server starts or `READY=1` is sent. The model takes the interval as valid, and `Run` has no outcome for this exit.
- `do_GET` and the inherited file serving, logging setup, `logging` calls, the "ping failed" print (counted as `pingFailures`) and `sys.exit`.
- The process exit status. `sys.exit(main())` at line 149 reports `main`'s return value modulo 256 on POSIX, so a supervisor sees 233 for 1001 and 234 for 1002. The codes in `Run`, `Verdict`, `RunExitCode` and `ExitWindow` are `main`'s return values, not the process status.
- Exit code 1003 (`EXIT_CODE_NETWORK`). It is defined but no path produces it, and `RunExitCode` proves it is never returned.
- `MainWorker.MainLoop`: it runs from any record. The properties of `main` are proved from the module's initial record. A `main` started with a channel already open would drop that channel without closing it, breaking `Valid`.
