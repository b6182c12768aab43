# Real-time update client of a social-feed web app, modelled in Dafny

The app is a Next.js social feed: posts, likes and comments. The server pushes live updates to it over a
WebSocket. This project models the part of the client that holds logic:

- **`WebSocketService`** (`src/services/ws.ts`) is the connection manager. It fetches a connection token and
  opens a socket. While the socket is open it sends `{type: 'ping'}` every 30 s. After a drop it reconnects
  with linear back-off (1 s × attempt number), and it gives up once the attempt counter reaches 5. It passes
  every inbound message to its subscribers, and offers `subscribe`, `send` and `close`.
- **The message vocabulary** (`src/types/ws.ts`) is the generic `{type, data?}` record and the five event
  shapes: `ping`, `pong`, `post_update`, `comment_update` and `like_update`.
- **The route guard** (`src/middleware.ts`) decides, from the `token` cookie and the path, whether to let a
  request through or redirect it.
- **The credential plumbing of the HTTP client** (`src/utils/api.ts`) is the request interceptor. It reads
  `token=` from `document.cookie` into a `Bearer` header and drops `Content-Type` for `FormData` bodies. It
  also covers `setAuthToken`, which writes or clears the cookie and the default header.

Files:

- `wrappers.dfy` holds `Option`.
- `js_string.dfy` holds JavaScript `startsWith`, `split` and `join`. Split and join are proved inverse for
  parts that do not contain the separator, when the separator's first character does not occur again in it
  (as for `; ` and `=`).
- `events.dfy` holds the message datatypes, an encoder and a decoder, and one validity predicate per
  interface.
- `route_guard.dfy` holds `middleware`.
- `api.dfy` holds the interceptor and `setAuthToken`.
- `ws_service.dfy` holds the `WebSocketService` class.

## How the client is modelled

`WebSocketService` is a class. Its real fields are `ws`, `handlers`, `reconnectAttempts` and
`heartbeatInterval`. A fifth real field, `nextTimerId`, stands for the timer runtime's handle counter. Each
browser callback is a method:

- `TokenFetched`: the awaited token request returns and `new WebSocket` runs.
- `ConnectFailed`: the `catch` in `connect`.
- The socket callbacks: `OnOpen`, `OnMessage` and `OnClose`, and `ClosingStarted`, the moment the current
  socket's ready state turns from OPEN to CLOSING before its close event.
- The timer callbacks: `ReconnectTimerFired` and `HeartbeatFired`.
- The public API: `Subscribe`, `Unsubscribe` (the function `subscribe` returns), `Send` and `Close`.

Ghost fields record what the browser holds between callbacks:

- the interval timers that are running;
- `connect()` calls that are waiting for their token;
- reconnect timers that have not fired yet;
- sockets that `close()` let go of but whose close event has not come yet;
- the delays scheduled since the last open;
- the frames written to the socket.

The preconditions of the callback methods say when the browser can fire each one. For example, `onopen`
fires only on a connecting socket, and a timer fires only if it was set.

The object invariant `Valid()` holds across every event sequence. It says:

- `reconnectAttempts` stays in `0..5`.
- The delays scheduled since the last successful open are exactly `1000, 2000, …, 1000 × reconnectAttempts`.
- The interval in `heartbeatInterval` is the only interval running.
- The subscriber registry has no duplicates. The registry is a JavaScript `Set`: insertion-ordered, each
  handler at most once.
- At most one connection attempt is in flight: a pending token request, a pending reconnect timer or a live
  socket.

The source has no guard against overlapping reconnects. The last point still holds, because `connect` is
private and each socket fires its close event only once. So at most one reconnect is pending at a time in
the code as written, and no second transport can be created while one is live (`TokenFetched` ensures
`!Live(old(ws))`).

In three places the code does less than a reader might expect; the model follows the code:

- `close()` sets no "intentional shutdown" flag. The close event of the socket it closed still reaches
  `reconnect()` and schedules a new connection; `CloseThenCloseEventScenario` shows this.
- Messages are not checked against the event union before delivery. `OnMessage` delivers any
  `WsMessage`, and `Events.Decode` is only the reference for which records are well formed.
- Subscribers are not isolated from each other. A subscriber that throws ends the `forEach`, so the
  subscribers after it get nothing (`OnMessage`'s `throwing` parameter, `ThrowingSubscriberScenario`).

## Model

| member | source | states |
|---|---|---|
| `JsString.Split` | src/utils/api.ts:13 | `s.split(sep)` gives at least one piece; the pieces joined by `sep` give back `s`; no piece contains `sep` |
| `JsString.SplitJoin` | src/utils/api.ts:13 | splitting a join of separator-free parts gives back the parts, for a separator that cannot overlap itself such as `"; "` or `"="` |
| `Events.ParsePostAction` | src/types/ws.ts:23-38 | a post/comment action is accepted exactly when it is `create`, `update` or `delete`, and it reads back as its own name |
| `Events.ParseLikeAction` | src/types/ws.ts:40-47 | a like action is accepted exactly when it is `like` or `unlike`, and it reads back as its own name |
| `Events.Encode` | src/types/ws.ts:15-54 | every event, written as a record, carries its own `type` tag and matches one of the five interfaces |
| `Events.Decode` | src/types/ws.ts:15-54 | a record decodes to an event exactly when it matches one of the five interfaces (`IsPing`, `IsPong`, `IsPostUpdate`, `IsCommentUpdate`, `IsLikeUpdate`, joined by `IsEventMessage` as the union does), and the event has the record's tag |
| `Events.EventMessageTag` | src/types/ws.ts:15-21 | an event message's `type` is one of the five tags; a `ping` or `pong` is well formed whatever its `data` |
| `Events.DecodeEncode` | src/types/ws.ts:15-54 | every event, written as a record, matches its interface, has its own tag, and decodes back to itself |
| `Events.EncodeDecode` | src/types/ws.ts:23-47 | a decoded record has the event's tag and holds every field the event defines, with the same value |
| `Events.HeartbeatIsPing` | src/services/ws.ts:22 | the heartbeat payload `{type: 'ping'}` is a well-formed `ping` |
| `RouteGuard.Middleware` | src/middleware.ts:4-20 | no token and not an `/auth/` page redirects to `/auth/login`; a token on an `/auth/` page redirects to `/`; every other case passes through |
| `RouteGuard.EmptyTokenIsNoToken` | src/middleware.ts:5-16 | an empty `token` cookie gets the same decision as no cookie |
| `RouteGuard.NoRedirectLoop` | src/middleware.ts:9-19 | a redirect never targets the page being guarded, and the target page is let through for the same visitor |
| `Api.FindTokenRow` | src/utils/api.ts:14 | finds the first cookie entry that starts with `token=`, or reports that none does |
| `Api.TokenValue` | src/utils/api.ts:15 | `row.split('=')[1]` is the text after `token=` up to the next `=`, so a value with `=` is cut short |
| `Api.ExtractToken` | src/utils/api.ts:13-15 | the token read from the cookie string never contains `=` |
| `Api.BearerHeader` | src/utils/api.ts:21-23 | a header exists exactly for a non-empty token, and it is `Bearer ` followed by the token |
| `Api.InterceptHeaders` | src/utils/api.ts:12-25 | `FormData` drops `Content-Type`, other bodies keep it; a token sets `Authorization: Bearer <token>`, no token leaves `Authorization` as it was; every other header is unchanged |
| `Api.Intercept` | src/utils/api.ts:12-25 | the interceptor edits the request's headers in place to `InterceptHeaders` of the old ones and returns the same config |
| `Api.Session.SetAuthToken` | src/utils/api.ts:27-34 | a non-empty token writes `token=<t>; path=/; max-age=604800; secure; samesite=strict` and sets the default `Bearer <t>`; `null` or `''` writes the expired cookie and removes the default header |
| `Api.ExtractTokenRoundTrip` | src/utils/api.ts:13-15 | in a cookie string whose first `token=` entry is `token=<t>`, the token found is `t`, for `t` without `=`, `;` or `%` |
| `Api.NoTokenEntry` | src/utils/api.ts:13-15 | a cookie string with no `token=` entry, as after the clearing cookie expired the pair, gives no token and no `Bearer` header |
| `Api.NoTokenNoHeader` | src/utils/api.ts:21-23 | with no token or an empty one, the interceptor leaves `Authorization` as the request had it, present or absent, with the same value |
| `Api.DefaultContentTypeKept` | src/utils/api.ts:5-20 | a JSON request keeps `Content-Type: application/json`; a `FormData` request has none |
| `Api.SessionCookieFields` | src/utils/api.ts:29 | the cookie `setAuthToken(t)` writes, for `t` without `;`, is the pair `token=<t>` followed by `path=/`, `max-age=604800`, `secure` and `samesite=strict` |
| `Api.ExpiredCookieFields` | src/utils/api.ts:32 | the clearing cookie is the pair `token=` with an empty value, then `path=/` and an expiry at the epoch |
| `Api.SessionReadBack` | src/utils/api.ts:13-30 | when the browser lists the `token=<t>` pair of the written cookie as its first `token=` entry, the interceptor sends the same `Bearer <t>` that `setAuthToken` installs as the default |
| `WsService.SetAdd` | src/services/ws.ts:79 | `add` keeps the registry free of duplicates, adds exactly `h`, and keeps the existing order |
| `WsService.SetDelete` | src/services/ws.ts:80 | `delete` removes `h`, keeps every other handler in its insertion order, and keeps the registry free of duplicates |
| `WsService.DeleteAbsent` | src/services/ws.ts:80 | deleting a handler that is not subscribed changes nothing |
| `WsService.DeleteIdempotent` | src/services/ws.ts:80 | calling the unsubscribe function twice is the same as calling it once |
| `WsService.DeleteUndoesAdd` | src/services/ws.ts:78-81 | subscribing a new handler and then unsubscribing it restores the registry exactly, order included |
| `WsService.Reconnection` | src/services/ws.ts:67-75 | `reconnect()` gives up exactly when the counter has reached 5; otherwise it schedules attempt `counter + 1` (at most 5) after `1000 × attempt` ms |
| `WsService.FailureDelays` | src/services/ws.ts:66-76 | `n` failures in a row schedule at most `n` reconnects, each after a whole number of seconds between 1 and 5 |
| `WsService.FailureDelaysLinear` | src/services/ws.ts:66-76 | `n` failures in a row from counter `a` schedule `min(n, 5 - a)` reconnects, the i-th after `1000 × (a + i + 1)` ms |
| `WsService.ExhaustedSchedulesNothing` | src/services/ws.ts:67-70 | with the counter at the cap, no failure schedules anything |
| `WsService.FreshClientDelays` | src/services/ws.ts:8-10 | a client that never connects waits 1000, 2000, 3000, 4000 and 5000 ms, then gives up |
| `WsService.DelaysSinceOpenAreBackoff` | src/services/ws.ts:40-76 | in every reachable state, the delays scheduled since the last open are the back-off series for the current counter |
| `WsService.SingleHeartbeatAndSocket` | src/services/ws.ts:17-31 | in every reachable state at most one heartbeat interval runs, at most one socket is live, and at most one reconnect is pending |
| `WsService.WebSocketService.constructor` | src/services/ws.ts:6-15 | starts with no socket, no subscribers, counter 0 and no heartbeat, with one `connect()` in progress |
| `WsService.WebSocketService.StartHeartbeat` | src/services/ws.ts:17-24 | clears any running interval before setting a new one, so exactly one runs afterwards |
| `WsService.WebSocketService.StopHeartbeat` | src/services/ws.ts:26-31 | afterwards no interval runs and the handle is null; with none running it changes nothing |
| `WsService.WebSocketService.Connect` | src/services/ws.ts:33-35 | `connect()` sends one token request |
| `WsService.WebSocketService.Reconnect` | src/services/ws.ts:66-76 | at the cap nothing is scheduled and the counter is unchanged; otherwise the counter goes up by 1 and one timer is set for `1000 × counter` ms |
| `WsService.WebSocketService.TokenFetched` | src/services/ws.ts:35-38 | a new socket is created in the connecting state, and no earlier socket is live at that point |
| `WsService.WebSocketService.ConnectFailed` | src/services/ws.ts:60-63 | a failed `connect()` falls into `reconnect()` |
| `WsService.WebSocketService.OnOpen` | src/services/ws.ts:40-44 | an open resets the counter to 0, empties the back-off series and arms exactly one heartbeat |
| `WsService.WebSocketService.ClosingStarted` | src/services/ws.ts:84 | the current socket can turn from OPEN to CLOSING before its close event, keeping every invariant |
| `WsService.WebSocketService.OnMessage` | src/services/ws.ts:46-49 | on the open socket, the parsed message reaches the subscribers registered when the frame arrives, in order, each once; it reaches all of them unless one throws, in which case delivery stops after the first thrower |
| `WsService.WebSocketService.OnClose` | src/services/ws.ts:51-55 | a close disarms the heartbeat and then reconnects as `reconnect()` does, also for a socket `close()` already let go of |
| `WsService.WebSocketService.ReconnectTimerFired` | src/services/ws.ts:73-75 | a reconnect timer fires once and starts one `connect()` |
| `WsService.WebSocketService.HeartbeatFired` | src/services/ws.ts:21-23 | a heartbeat tick sends `{type: 'ping'}` if the socket is open and writes nothing while it is connecting, closing or closed |
| `WsService.WebSocketService.Subscribe` | src/services/ws.ts:78-79 | adds the handler with set semantics |
| `WsService.WebSocketService.Unsubscribe` | src/services/ws.ts:80 | removes exactly that handler and reports whether it was there; other handlers stay |
| `WsService.WebSocketService.Send` | src/services/ws.ts:83-89 | writes the message only when the socket is open; with no socket, or one connecting, closing or closed, writes nothing and does not throw |
| `WsService.WebSocketService.Close` | src/services/ws.ts:91-97 | afterwards there is no heartbeat and no socket; the socket it closed will still fire its close event; a second call changes nothing |

## Left out

- Network and browser I/O are not modelled: the `GET /ws/token` request, the socket URL built from
  `window.location`, and real timers. They appear only as the events above. Timer durations are recorded as
  the scheduled reconnect delays. The 30 s heartbeat period (src/services/ws.ts:23) is not modelled; each
  tick is a `HeartbeatFired` event.
- WsService.WebSocketService.OnMessage: handlers are assumed not to subscribe or unsubscribe while a message
  is being delivered. The source iterates the live `Set` with `forEach`, which skips a handler deleted before
  its turn and also calls a handler added during the loop; the model delivers to the registry as it was when
  the frame arrived. Handlers are also assumed not to change the message object, which the source hands to
  every handler by reference, and not to call `send` or `close` during delivery.
- `JSON.parse` and `JSON.stringify` are not modelled. Frames are already-parsed `WsMessage` values, so a frame
  that fails to parse, which would throw out of `onmessage`, is not modelled.
- `data` is modelled as a map from field names to strings. JSON values of other types in `data` are not
  represented.
- `onerror` only logs, so it has no method. All `console` logging is left out.
- A throwing subscriber ends the fan-out. What happens to the exception after it leaves `onmessage` is
  browser behaviour and is not modelled.
- Sockets that `close()` let go of are only counted, not tracked one by one. They can fire their close event
  but not open again.
- `decodeURIComponent` is taken as the identity. That is right for `%`-free values; the round-trip lemmas
  require `t` to have no `%`. Malformed escapes, which would throw, are not modelled.
- `document.cookie` is a parameter of the interceptor, and a field holding the last string written for
  `setAuthToken`. The browser cookie jar is not modelled: the read-back lemmas take the jar's entries as
  given, holding the `token=<t>` pair after a session write and no `token=` entry after the clearing write.
- How axios merges instance defaults into each request's headers is not modelled, and neither is the
  case-insensitivity of header names. A request's starting headers are given to `RequestConfig`.
- Redirect targets are paths. `new URL(path, request.url)` also carries the request's origin, which the model
  leaves out.
- The Next.js `config.matcher` (src/middleware.ts:22-24) is left out. Its meaning depends on Next.js path
  matching.
- Handlers are natural-number identities, which stand for the JavaScript function references a `Set`
  compares.
