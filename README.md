# Chat hub sessions, fan-out and presence

This project models the real-time core of a small chat hub. The hub comes in
two variants, `websocket-server.js` and `server.js`. Both keep a process-wide
registry (`clients`, a JavaScript `Map` from user id to a session record) and
a connection counter `userCount`. On top of the registry they run:

- a connection handler that files a new session and announces it;
- a message router that stamps `lastActivity` and dispatches on the frame's
  `type`, plus the handlers behind it;
- a close handler that announces the leaver and deletes it;
- the `sendToClient` and `broadcastToAll` helpers;
- an idle reaper, a heartbeat and the SIGINT shutdown fan-out.

Module layout:

- `Wire` (`wire.dfy`): optional values, the inbound frame as the router sees
  it, JavaScript's `value || fallback` on string fields, decimal rendering.
- `Registry` (`registry.dfy`): the session record, the sockets, and the
  specification functions. These are:
  - `Over`: `clients.forEach` applying an operation to the picked sessions'
    sockets;
  - `Sends`: the `sentCount` of a broadcast;
  - `Run`/`Inbox`: a handler's sends as a script;
  - `Fanned`: what a handler leaves on each socket.

  The same file's lemmas prove what those loops do.
- `Sessions` (`registry.dfy`): the loops as `while` methods proved against
  `Over` and `Sends`, and the registry as class `Hub`. Its fields are
  `clients`, `order` (the map's insertion order), `conns` (the sockets) and
  `userCount`. Its methods are the in-place updates and the two send helpers.
- `Fanouts` (`fanouts.dfy`): one lemma per send pattern used by the
  handlers. Each pattern is a reply to the sender, then broadcasts to
  everyone or to everyone else. Each lemma turns the pattern into a
  `Fanned` statement: what the sender's socket gets and what every other
  session's socket gets, in order.
- `WebSocketServer` (`websocket_server.dfy`) and `ChatServer`
  (`chat_server.dfy`): the handlers of each variant as methods on `Hub`.

The two variants differ in three ways, which the model keeps apart:

- **Exclusion from a broadcast.** websocket-server.js excludes by socket
  (`ExceptWs`). server.js excludes by map key (`ExceptId`).
  `ExclusionKeysAgree` proves the two agree on a consistent registry.
- **Echo of a chat message.** websocket-server.js does not send a chat
  message back to its sender; server.js does.
- **Error replies.** Only server.js replies with an `error` frame to an
  unknown or unreadable frame.

A socket is a value `Conn(state, outbox, failing)`:

- `outbox` lists every frame handed to `ws.send` that went through;
- `failing` says whether `ws.send` throws on that socket;
- `state` is `Open`, `Closing(code, reason)` after `ws.close`, or `Closed`.

`Live(clients, conns)` states the registry's membership rule: a session is
registered exactly when its socket has not yet reached CLOSED (the sockets
not yet CLOSED are exactly the sockets of registered sessions). The
constructor establishes it and every event handler (connect, frame, close,
reaper, heartbeat, shutdown) of both variants keeps it.

The clock, `Math.random`, the generated message id and the database row id
are method parameters.

## Model

| member | source | states |
|---|---|---|
| Wire.OrElseKeeps | websocket-server.js:777 | the fallback survives exactly when the field is absent, empty or equal to it; so a rename is announced iff the name really changed |
| Wire.NatToString | websocket-server.js:573 | the rendering of the counter in `Usuário_${userCount}` is a non-empty string of decimal digits whose value is the counter |
| Wire.PrefixedDistinct | websocket-server.js:563-573 | distinct counters behind the same prefix render as distinct strings, so no two connections get the same default name `Usuário_<n>` |
| Registry.PushAllThen | websocket-server.js:859-867 | two guarded sends on one socket are one guarded send of both messages in order, so a recipient sees a handler's messages in the order they were sent; sending nothing changes nothing |
| Registry.OverAt | websocket-server.js:873-884 | a loop over the registry applies its operation exactly once to the socket of each picked session and leaves every other socket as it was, so one failing socket does not stop delivery to the rest |
| Registry.SendsCount | websocket-server.js:871-884 | the `sentCount` of a broadcast equals the number of picked sessions whose socket accepted the send |
| Registry.ExclusionKeysAgree | server.js:366-386 | excluding the sender by socket and excluding it by id are the same loop with the same count, when no two sessions share a socket |
| Registry.OverSessions | websocket-server.js:869-885 | per session: a picked session's socket gets the operation, an unpicked one keeps its state, sockets of no session are untouched |
| Registry.RunSessions | websocket-server.js:591-615 | after a handler's sequence of sends, each session's socket holds exactly the messages addressed to it, in send order |
| Registry.Fan | websocket-server.js:591-615 | a script that addresses `mine` to the sender and `theirs` to every other session leaves the sockets as `Fanned` describes |
| Registry.SendIsOnly | websocket-server.js:859-867 | `sendToClient(user.ws, m)` is the registry loop that picks only that session's socket |
| Registry.NoDupCard | websocket-server.js:888 | a list without repetitions has as many distinct members as entries |
| Registry.OrderSize | websocket-server.js:902 | the iteration order lists as many sessions as the registry holds, so `userList.length == clients.size` |
| Registry.Without | websocket-server.js:666 | `clients.delete(key)` removes exactly that key from the iteration order, keeps it free of repetitions, and changes nothing for an absent key |
| Registry.WithoutAt | websocket-server.js:666-668 | `clients.delete(key)` cuts the key out where it stands and keeps every other session in its iteration order, which is the order of the user list sent next |
| Registry.LiveCount | websocket-server.js:649-666 | while `Live` holds (a session is registered exactly when its socket is not yet CLOSED), `clients.size` equals the number of sockets not yet CLOSED |
| Registry.OverClosed | websocket-server.js:950-971 | no send, close request or loop of them makes a socket CLOSED or reopens a CLOSED one; only the close event does |
| Registry.LeaverGone | websocket-server.js:649-666 | once the leaver's socket is CLOSED and the others are as before, deleting the leaver restores `Live` |
| Sessions.Fanout | websocket-server.js:869-885 | the `forEach` loop of `broadcastToAll` computes exactly `Over(..., Send(m))` and a `sentCount` equal to `Sends` |
| Sessions.Visit | websocket-server.js:950-971 | the `forEach` loops of the reaper, the heartbeat and the shutdown compute exactly `Over(..., op)` |
| Sessions.Hub.constructor | websocket-server.js:113-114 | the registry starts empty with `userCount` 0, and `Live` holds |
| Sessions.Hub.NextId | websocket-server.js:562-563 | `userCount++` and the id built from it, which was never issued before |
| Sessions.Hub.Insert | websocket-server.js:570-582 | `clients.set` files the session at the end of the iteration order together with its fresh, open socket |
| Sessions.Hub.Remove | websocket-server.js:666 | `clients.delete` drops the key from the registry and its order and leaves the sockets alone |
| Sessions.Hub.Touch | websocket-server.js:620 | only `lastActivity` of that session changes |
| Sessions.Hub.SetProfile | websocket-server.js:756-759 | only name, colour and phone of that session change |
| Sessions.Hub.MarkClosed | websocket-server.js:649 | the socket whose `close` event fires is in state CLOSED |
| Sessions.Hub.SendToClient | websocket-server.js:859-867 | one guarded send on that socket; the registry stays consistent and no socket appears or disappears |
| Sessions.Hub.BroadcastToAll | websocket-server.js:869-885 | the sockets become `Over(order, clients, old, f, Send(m))` and the returned count is the number of picked sessions whose socket accepted the send (also server.js:366-386) |
| Sessions.Hub.ForEachSession | websocket-server.js:950-971 | the sockets become `Over(order, clients, old, f, op)`; the registry is unchanged |
| Fanouts.Exclusion | websocket-server.js:874 | `client.ws !== excludeWs` with the sender's socket, and `clientId !== excludeUserId` with its id, both pick exactly the other sessions; `OnlyWs` of its socket picks only the sender |
| Fanouts.AfterRemoval | websocket-server.js:666-669 | a broadcast after `clients.delete` reaches every remaining session and skips the leaver's socket |
| WebSocketServer.RosterExact | websocket-server.js:887-903 | the `userlist` frame has one entry per registered session, none twice, each online, and `total` equal to the registry's size |
| WebSocketServer.OnConnect | websocket-server.js:561-615 | `userCount` grows by one; one session `Usuário_<n>` with colour `#128C7E` is added under a fresh id; the newcomer gets `registered` then the list; every other session gets the list then `user_joined`; `Live` is kept |
| WebSocketServer.HandleRegister | websocket-server.js:755-789 | name and colour fall back to the old ones and phone to `""`; the sender gets `registered`; `user_updated` goes to everyone iff the name changed; the list always follows |
| WebSocketServer.HandleMessage | websocket-server.js:793-836 | every other session gets `new_message` with conversation `general` by default; the sender gets only `message_delivered` with the client's id, or else the fresh one |
| WebSocketServer.HandleTyping | websocket-server.js:839-848 | the indicator reaches every other session and not the sender |
| WebSocketServer.HandlePing | websocket-server.js:850-856 | only the sender gets `pong` |
| WebSocketServer.OnMessage | websocket-server.js:618-646 | `lastActivity` is stamped before parsing; each `type` reaches its handler with that handler's effect; an unparsable frame, an unknown type, or a `message` frame without a `message` field changes no socket (an empty `message` is still broadcast); `Live` is kept |
| WebSocketServer.Dispatch | websocket-server.js:622-641 | on a stamped session, `register`, `message`, `typing` and `ping` each reach their handler with that handler's effect, and every other frame, or a `message` frame without a `message` field, changes no socket and no session |
| WebSocketServer.OnClose | websocket-server.js:649-672 | the session is deleted; the leaver's closed socket gets nothing; every other session gets `user_left` and then the list without the leaver; `Live` is kept |
| WebSocketServer.CloseLive | websocket-server.js:649-669 | the leaver's socket stays CLOSED through both broadcasts of the close handler and the others keep their states, so `Live` holds again once the leaver is deleted |
| WebSocketServer.Reaper | websocket-server.js:950-959 | exactly the sessions idle for more than 300 s are asked to close with 1000 `Inatividade`; no session is deleted; `Live` is kept |
| WebSocketServer.Heartbeats | websocket-server.js:962-971 | every session's open socket gets one `heartbeat`; the registry, and so every `lastActivity`, is unchanged; `Live` is kept |
| WebSocketServer.Shutdown | websocket-server.js:988-1005 | every session's socket gets `server_shutdown` and is then asked to close with 1000 `Servidor desligando`; `Live` is kept |
| ChatServer.GetRandomColor | server.js:425-432 | the colour is always one of the ten palette entries, the one at `floor(rand * 10)` |
| ChatServer.SystemMessageKind | server.js:406-423 | a system message is a frame of type `new_message` with no sender id, it never equals a chat message built by `handleMessage`, and two taken at different clock readings have different `sys_<n>` ids |
| ChatServer.ListingShape | server.js:388-404 | both user lists have `total` equal to the registry's size and every entry online; only the broadcast list carries the address |
| ChatServer.ListingIds | server.js:338-353 | both user lists name every registered session exactly once |
| ChatServer.OnConnect | server.js:121-172 | one new session with a palette colour; the newcomer gets `welcome` (count includes itself), the list and the join notice; every other session gets the list, `user_joined` and the join notice; `Live` is kept |
| ChatServer.HandleRegister | server.js:252-283 | name and colour fall back to the old ones; the sender gets `registered`; `user_updated` and the rename notice go to everyone iff the name changed; the list always follows |
| ChatServer.ChatOfIgnoresClientId | server.js:286-302 | the message id is always the server's: a `messageId` from the client changes nothing in the message; the chat is `group` exactly when the client names no other one |
| ChatServer.HandleMessage | server.js:285-317 | everyone, the sender included, gets `new_message`; the sender then gets `message_delivered` with the same id |
| ChatServer.HandleTyping | server.js:319-328 | the indicator reaches every other session and not the sender |
| ChatServer.Answer | server.js:330-353 | `pong`, `get_users` and the error replies reach the sender alone |
| ChatServer.Complaint | server.js:203-219 | both replies are frames of type `error`; only the reply to an unparsable frame carries an `error` field |
| ChatServer.ComplaintNamesType | server.js:203-209 | two unknown types get the same reply exactly when they are the same type; an absent type reads as `undefined`; the reply to an unparsable frame carries the parser's message and fixed text |
| ChatServer.OnMessage | server.js:175-220 | `lastActivity` is stamped before parsing; each `type`, `get_users` included, reaches its handler; an unknown type or an unparsable frame gets one `error` only to the sender, and the session stays registered; `Live` is kept |
| ChatServer.OnClose | server.js:223-243 | the session is deleted; the leaver gets nothing; every other session gets `user_left`, the leave notice, and a list whose `total` is the size after deletion; `Live` is kept |
| ChatServer.CloseLive | server.js:223-243 | the leaver's socket stays CLOSED through the three broadcasts of the close handler and the others keep their states, so `Live` holds again once the leaver is deleted |
| ChatServer.Reaper | server.js:464-473 | exactly the sessions idle for more than 300 s are asked to close with 1000 `Inatividade`; no session is deleted; `Live` is kept |
| ChatServer.Heartbeats | server.js:451-461 | every session's open socket gets one `heartbeat`; the registry is unchanged; `Live` is kept |
| ChatServer.Shutdown | server.js:476-488 | every session's socket gets the shutdown notice and is then asked to close with 1000 `Servidor desligando`; `Live` is kept |

## Left out

- Express routes and HTML pages, and the `/status`, `/test` and `/api/*`
  endpoints. These are HTTP plumbing.
- MySQL: the pool, table creation, `saveUserToDatabase`, `updateUserStatus`,
  `saveMessageToDatabase` and the health poll. These are foreign calls. The
  row id of a saved message is the parameter `dbId`.
- `broadcastServerStats`. It iterates the socket library's own client set,
  not the registry, so its `server_stats` frames are not modelled.
  That set holds every chat session's socket too. So in websocket-server.js
  each chat socket also gets a `server_stats` frame at these points, and the
  modelled outbox sequences omit them:
  - on connect, before `registered` (websocket-server.js:588);
  - on register, after the user list (websocket-server.js:790);
  - on close, after the user list (websocket-server.js:670).
- Timers and async interleavings. Each timer tick, each inbound frame and
  each close event is one atomic method call. In websocket-server.js,
  `handleRegister` and `handleMessage` await the database before their first
  send (websocket-server.js:765, 805). During the wait in `handleMessage`
  the sender's socket can close and its session can be deleted. The
  `new_message` of that departed session then still reaches the others
  (websocket-server.js:828). The handlers here require the session to be
  registered, so the model cannot express this.
- Timestamps, `toLocaleTimeString` and `process.uptime` are left out of the
  outbound frames.
- Fixed prose is left out of the outbound frames: the welcome text, the
  name and version in `serverInfo`, and the `message` of websocket-server.js's
  `server_shutdown` frame (websocket-server.js:997). The `clients` count of `serverInfo` is
  modelled (`Connected.clients`, `Welcome.clients`), and so is the `message`
  of server.js's `error` frames (`Error.text`).
- The `message` fields built from the username are left out of
  `user_joined`, `user_left` and `user_updated`
  (websocket-server.js:614, 662, 784; server.js:168, 232). The system
  messages of server.js carry the same texts and are modelled.
- JSON encoding and parsing. Inbound fields are taken to be strings;
  `isTyping` is reduced to its truthiness.
- A non-string field that makes a handler throw is not modelled, for example
  a numeric `text` in server.js (server.js:290). Such a frame throws before
  the handler's first send. server.js then answers it with one `error` frame
  carrying the exception's message; websocket-server.js sends nothing.
- Console logging and `ws.on('error')`.
- The socket library itself. A socket is a value, and `close` only records
  the request; the resulting `close` event is `OnClose`.
- `isOnline` is not stored, because it is always true while a session is
  registered.
- WebSocketServer.Roster: the `connectedAt` and `lastActivity` Date objects
  are serialised clock readings as `nat`, not ISO strings.
- ChatServer.Listing: `lastSeen` is the connection time as a `nat`, not
  `toLocaleTimeString()`.
- ChatServer.ChatOf: the message id is the parameter `freshId`. The
  `msg_${Date.now()}_…` rendering and its random suffix are left out.
