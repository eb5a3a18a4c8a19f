/** The hub of websocket-server.js: connect and close handlers, the message
    router and its handlers, the user-list broadcast, the idle reaper, the
    heartbeat and the shutdown fan-out.  Exclusion from a broadcast is by
    socket (`client.ws !== excludeWs`), the sender of a chat message does not
    get it echoed, and unknown or unreadable frames get no reply. */
module WebSocketServer {
  import opened Wire
  import opened Registry
  import opened Sessions
  import opened Fanouts

  /** One entry of `broadcastUserList`. */
  datatype UserView = UserView(
    id: UserId,
    username: string,
    color: string,
    phone: string,
    isOnline: bool,
    ip: string,
    connectedAt: nat,
    lastActivity: nat)

  /** Outbound frames, without their ISO timestamps and fixed prose. */
  datatype Out =
    | Connected(userId: UserId, clients: nat)
    | Registered(userId: UserId, username: string, color: string, phone: string)
    | UserList(users: seq<UserView>, total: nat)
    | UserJoined(userId: UserId, username: string, color: string)
    | UserLeft(userId: UserId, username: string)
    | UserUpdated(userId: UserId, oldUsername: string, newUsername: string)
    | NewMessage(conversationId: string, message: string, senderId: UserId, senderName: string,
                 senderColor: string, messageId: string, dbId: Option<nat>)
    | MessageDelivered(messageId: string, dbId: Option<nat>)
    | Typing(conversationId: string, userId: UserId, username: string, isTyping: bool)
    | Pong(serverTime: nat)
    | Heartbeat(timestamp: nat)
    | ServerShutdown
  {
    /** The `type` field of the frame. */
    function Type(): string
    {
      match this
      case Connected(_, _) => "registered"
      case Registered(_, _, _, _) => "registered"
      case UserList(_, _) => "userlist"
      case UserJoined(_, _, _) => "user_joined"
      case UserLeft(_, _) => "user_left"
      case UserUpdated(_, _, _) => "user_updated"
      case NewMessage(_, _, _, _, _, _, _) => "new_message"
      case MessageDelivered(_, _) => "message_delivered"
      case Typing(_, _, _, _) => "typing"
      case Pong(_) => "pong"
      case Heartbeat(_) => "heartbeat"
      case ServerShutdown => "server_shutdown"
    }
  }

  /** Colour every session starts with. */
  const DefaultColor := "#128C7E"

  function View(u: User): UserView
  {
    UserView(u.id, u.username, u.color, u.phone, true, u.ip, u.connectedAt, u.lastActivity)
  }

  /** `Array.from(clients.values()).map(...)`. */
  function Roster(order: seq<UserId>, clients: map<UserId, User>): seq<UserView>
    requires forall k :: k in order ==> k in clients
  {
    seq(|order|, i requires 0 <= i < |order| => View(clients[order[i]]))
  }

  /** The `userlist` frame built from the registry as it is now. */
  function UserListOf(order: seq<UserId>, clients: map<UserId, User>): Out
    requires forall k :: k in order ==> k in clients
  {
    var users := Roster(order, clients);
    UserList(users, |users|)
  }

  /** The user list has one entry per registered session, each marked online,
      and its `total` is the registry's size. */
  lemma RosterExact(order: seq<UserId>, clients: map<UserId, User>)
    requires Ordered(order, clients)
    requires forall k :: k in clients ==> clients[k].id == k
    ensures UserListOf(order, clients).total == |clients|
    ensures forall i :: 0 <= i < |Roster(order, clients)| ==> Roster(order, clients)[i].isOnline
    ensures forall k :: k in clients <==> exists i :: 0 <= i < |order| && Roster(order, clients)[i].id == k
    ensures forall i, j :: 0 <= i < j < |order| ==> Roster(order, clients)[i].id != Roster(order, clients)[j].id
  {
    OrderSize(order, clients);
    var r := Roster(order, clients);
    forall k | k in clients
      ensures exists i :: 0 <= i < |order| && r[i].id == k
    {
      var i :| 0 <= i < |order| && order[i] == k;
      assert r[i].id == k;
    }
  }

  /** The sockets after the connection handler: the newcomer's fresh socket
      holds `registered` and the user list, the socket of every earlier
      session gets the user list and then `user_joined`. */
  lemma ConnectEffect<M>(order0: seq<UserId>, k0: map<UserId, User>, c0: map<ConnId, Conn<M>>,
                         u: User, failing: bool, n: nat, issued: set<UserId>, hello: M, list: M, joined: M)
    requires Consistent(order0 + [u.id], k0[u.id := u], c0[u.ws := Conn(Open, [], failing)].Keys, n, issued)
    ensures var o, cl, c1 := order0 + [u.id], k0[u.id := u], c0[u.ws := Conn(Open, [], failing)];
      Fanned(c1, cl, Over(o, cl, Over(o, cl, Reply(c1, u.ws, hello), All, Send(list)), ExceptWs(u.ws), Send(joined)),
             u.ws, [hello, list], [list, joined])
  {
    var o, cl, c1 := order0 + [u.id], k0[u.id := u], c0[u.ws := Conn(Open, [], failing)];
    assert cl[u.id] == u;
    ReplyAllExcept(o, cl, c1, u.id, ExceptWs(u.ws), hello, list, joined);
  }

  /** The connection handler: `userCount++`, a new session under a fresh id,
      then `registered` to the newcomer alone, the user list to everyone, and
      `user_joined` to everyone but the newcomer's socket, in that order. */
  method OnConnect(h: Hub<Out>, ws: ConnId, failing: bool, stamp: nat, ip: string, now: nat)
    returns (id: UserId)
    requires h.Valid() && ws !in h.conns
    requires Live(h.clients, h.conns)
    modifies h
    ensures h.Valid()
    ensures Live(h.clients, h.conns)
    ensures h.userCount == old(h.userCount) + 1 && id == UserId(stamp, h.userCount)
    ensures id !in old(h.issued) && h.issued == old(h.issued) + {id}
    ensures h.clients == old(h.clients)[id := User(id, ws, "Usuário_" + NatToString(h.userCount), DefaultColor, "", ip, now, now)]
    ensures h.order == old(h.order) + [id] && |h.clients| == |old(h.clients)| + 1
    ensures Fanned(old(h.conns)[ws := Conn(Open, [], failing)], h.clients, h.conns, ws,
                   [Connected(id, |h.clients|), UserListOf(h.order, h.clients)],
                   [UserListOf(h.order, h.clients), UserJoined(id, h.clients[id].username, DefaultColor)])
  {
    id := h.NextId(stamp);
    var user := User(id, ws, "Usuário_" + NatToString(h.userCount), DefaultColor, "", ip, now, now);
    ghost var order0, c0, k0 := h.order, h.conns, h.clients;
    h.Insert(user, failing);
    var hello := Connected(id, |h.clients|);
    h.SendToClient(ws, hello);
    var list := UserListOf(h.order, h.clients);
    var _ := h.BroadcastToAll(list, All);
    var joined := UserJoined(id, user.username, user.color);
    var _ := h.BroadcastToAll(joined, ExceptWs(ws));
    ConnectEffect(order0, k0, c0, user, failing, h.userCount, h.issued, hello, list, joined);
  }

  /** `handleRegister`: the name and colour are replaced when the frame
      supplies non-empty ones, the phone is replaced or cleared; the session
      gets `registered` with the new profile, everyone gets `user_updated` if
      the name changed, then everyone gets the user list. */
  method HandleRegister(h: Hub<Out>, key: UserId, fields: map<string, string>)
    requires h.Valid() && key in h.clients
    requires Live(h.clients, h.conns)
    modifies h
    ensures h.Valid()
    ensures Live(h.clients, h.conns)
    ensures var u := old(h.clients)[key];
      h.clients == old(h.clients)[key := u.(username := OrElse(fields, "username", u.username),
                                            color := OrElse(fields, "color", u.color),
                                            phone := OrElse(fields, "phone", ""))]
    ensures h.order == old(h.order) && h.userCount == old(h.userCount) && h.issued == old(h.issued)
    ensures var u, v, list := old(h.clients)[key], h.clients[key], UserListOf(h.order, h.clients);
      var reg, upd := Registered(key, v.username, v.color, v.phone), UserUpdated(key, u.username, v.username);
      Fanned(old(h.conns), h.clients, h.conns, u.ws,
             if u.username != v.username then [reg, upd, list] else [reg, list],
             if u.username != v.username then [upd, list] else [list])
  {
    var u := h.clients[key];
    var name, color, phone := OrElse(fields, "username", u.username), OrElse(fields, "color", u.color), OrElse(fields, "phone", "");
    h.SetProfile(key, name, color, phone);
    ghost var c0 := h.conns;
    var reg := Registered(key, name, color, phone);
    h.SendToClient(u.ws, reg);
    if u.username != name {
      var upd := UserUpdated(key, u.username, name);
      var _ := h.BroadcastToAll(upd, All);
      var list := UserListOf(h.order, h.clients);
      var _ := h.BroadcastToAll(list, All);
      ReplyAllAll(h.order, h.clients, c0, key, reg, upd, list);
    } else {
      var list := UserListOf(h.order, h.clients);
      var _ := h.BroadcastToAll(list, All);
      ReplyAll(h.order, h.clients, c0, key, reg, list);
    }
  }

  /** `handleMessage`: the chat message goes to everyone but the sender's
      socket, then the sender gets the receipt.  The id is the client's
      `messageId` when it sent a non-empty one, `freshId` otherwise; `dbId`
      is what the database insert resolved to (`None` when it is offline or
      the insert failed). */
  method HandleMessage(h: Hub<Out>, key: UserId, fields: map<string, string>, freshId: string, dbId: Option<nat>)
    requires h.Valid() && key in h.clients && "message" in fields
    requires Live(h.clients, h.conns)
    modifies h
    ensures h.Valid()
    ensures Live(h.clients, h.conns)
    ensures h.clients == old(h.clients) && h.order == old(h.order)
    ensures h.userCount == old(h.userCount) && h.issued == old(h.issued)
    ensures var u, mid := h.clients[key], OrElse(fields, "messageId", freshId);
      Fanned(old(h.conns), h.clients, h.conns, u.ws,
             [MessageDelivered(mid, dbId)],
             [NewMessage(OrElse(fields, "conversationId", "general"), fields["message"], key, u.username, u.color, mid, dbId)])
  {
    var u := h.clients[key];
    var messageId := OrElse(fields, "messageId", freshId);
    var m := NewMessage(OrElse(fields, "conversationId", "general"), fields["message"], key, u.username, u.color, messageId, dbId);
    ghost var c0 := h.conns;
    var _ := h.BroadcastToAll(m, ExceptWs(u.ws));
    var receipt := MessageDelivered(OrElse(fields, "messageId", messageId), dbId);
    h.SendToClient(u.ws, receipt);
    ExceptReply(h.order, h.clients, c0, key, ExceptWs(u.ws), m, receipt);
  }

  /** `handleTyping`: the indicator goes to everyone but the sender's socket. */
  method HandleTyping(h: Hub<Out>, key: UserId, fields: map<string, string>, isTyping: bool)
    requires h.Valid() && key in h.clients
    requires Live(h.clients, h.conns)
    modifies h
    ensures h.Valid()
    ensures Live(h.clients, h.conns)
    ensures h.clients == old(h.clients) && h.order == old(h.order)
    ensures h.userCount == old(h.userCount) && h.issued == old(h.issued)
    ensures var u := h.clients[key];
      Fanned(old(h.conns), h.clients, h.conns, u.ws, [],
             [Typing(OrElse(fields, "conversationId", "general"), key, u.username, isTyping)])
  {
    var u := h.clients[key];
    var t := Typing(OrElse(fields, "conversationId", "general"), key, u.username, isTyping);
    ghost var c0 := h.conns;
    var _ := h.BroadcastToAll(t, ExceptWs(u.ws));
    ExceptOnly(h.order, h.clients, c0, key, ExceptWs(u.ws), t);
  }

  /** `handlePing`: `pong` with the server clock to the sender alone. */
  method HandlePing(h: Hub<Out>, key: UserId, now: nat)
    requires h.Valid() && key in h.clients
    requires Live(h.clients, h.conns)
    modifies h
    ensures h.Valid()
    ensures Live(h.clients, h.conns)
    ensures h.clients == old(h.clients) && h.order == old(h.order)
    ensures h.userCount == old(h.userCount) && h.issued == old(h.issued)
    ensures Fanned(old(h.conns), h.clients, h.conns, h.clients[key].ws, [Pong(now)], [])
  {
    ghost var c0 := h.conns;
    h.SendToClient(h.clients[key].ws, Pong(now));
    ReplyOnly(h.order, h.clients, c0, key, Pong(now));
  }

  /** The frame has the given `type`. */
  predicate Is(frame: Frame, kind: string)
  {
    frame.Envelope? && frame.kind == Some(kind)
  }

  /** The frames the router drops without a reply: unreadable ones, unknown
      types, and `message` frames without a `message` field (reading its
      length throws inside the `try`). */
  predicate Dropped(frame: Frame)
  {
    || frame.Unparsable?
    || (!Is(frame, "register") && !Is(frame, "message") && !Is(frame, "typing") && !Is(frame, "ping"))
    || (Is(frame, "message") && "message" !in frame.fields)
  }

  /** The message handler of a session: `lastActivity` is refreshed before
      the frame is even parsed, then the frame's `type` picks the handler. */
  method OnMessage(h: Hub<Out>, key: UserId, frame: Frame, now: nat, freshId: string, dbId: Option<nat>)
    requires h.Valid() && key in h.clients
    requires Live(h.clients, h.conns)
    modifies h
    ensures h.Valid()
    ensures Live(h.clients, h.conns)
    ensures h.order == old(h.order) && h.userCount == old(h.userCount) && h.issued == old(h.issued)
    ensures var u := old(h.clients)[key];
      h.clients == old(h.clients)[key :=
        if Is(frame, "register")
        then u.(lastActivity := now,
                username := OrElse(frame.fields, "username", u.username),
                color := OrElse(frame.fields, "color", u.color),
                phone := OrElse(frame.fields, "phone", ""))
        else u.(lastActivity := now)]
    ensures Dropped(frame) ==> h.conns == old(h.conns)
    ensures Is(frame, "ping") ==>
      Fanned(old(h.conns), h.clients, h.conns, h.clients[key].ws, [Pong(now)], [])
    ensures Is(frame, "typing") ==>
      var u := h.clients[key];
      Fanned(old(h.conns), h.clients, h.conns, u.ws, [],
             [Typing(OrElse(frame.fields, "conversationId", "general"), key, u.username, frame.isTyping)])
    ensures Is(frame, "message") && "message" in frame.fields ==>
      var u, mid := h.clients[key], OrElse(frame.fields, "messageId", freshId);
      Fanned(old(h.conns), h.clients, h.conns, u.ws,
             [MessageDelivered(mid, dbId)],
             [NewMessage(OrElse(frame.fields, "conversationId", "general"), frame.fields["message"], key,
                         u.username, u.color, mid, dbId)])
    ensures Is(frame, "register") ==>
      var u, v, list := old(h.clients)[key], h.clients[key], UserListOf(h.order, h.clients);
      var reg, upd := Registered(key, v.username, v.color, v.phone), UserUpdated(key, u.username, v.username);
      Fanned(old(h.conns), h.clients, h.conns, u.ws,
             if u.username != v.username then [reg, upd, list] else [reg, list],
             if u.username != v.username then [upd, list] else [list])
  {
    ghost var k0 := h.clients;
    h.Touch(key, now);
    ghost var t := h.clients[key];
    Dispatch(h, key, frame, now, freshId, dbId);
    if Is(frame, "register") {
      UpdateTwice(k0, key, t, h.clients[key]);
    }
  }

  /** The `switch (message.type)` of the message handler, on a session whose
      `lastActivity` is already stamped. */
  method Dispatch(h: Hub<Out>, key: UserId, frame: Frame, now: nat, freshId: string, dbId: Option<nat>)
    requires h.Valid() && key in h.clients
    requires Live(h.clients, h.conns)
    modifies h
    ensures h.Valid()
    ensures Live(h.clients, h.conns)
    ensures h.order == old(h.order) && h.userCount == old(h.userCount) && h.issued == old(h.issued)
    ensures var u := old(h.clients)[key];
      h.clients == if Is(frame, "register")
        then old(h.clients)[key := u.(username := OrElse(frame.fields, "username", u.username),
                                      color := OrElse(frame.fields, "color", u.color),
                                      phone := OrElse(frame.fields, "phone", ""))]
        else old(h.clients)
    ensures Dropped(frame) ==> h.conns == old(h.conns)
    ensures Is(frame, "ping") ==>
      Fanned(old(h.conns), h.clients, h.conns, h.clients[key].ws, [Pong(now)], [])
    ensures Is(frame, "typing") ==>
      var u := h.clients[key];
      Fanned(old(h.conns), h.clients, h.conns, u.ws, [],
             [Typing(OrElse(frame.fields, "conversationId", "general"), key, u.username, frame.isTyping)])
    ensures Is(frame, "message") && "message" in frame.fields ==>
      var u, mid := h.clients[key], OrElse(frame.fields, "messageId", freshId);
      Fanned(old(h.conns), h.clients, h.conns, u.ws,
             [MessageDelivered(mid, dbId)],
             [NewMessage(OrElse(frame.fields, "conversationId", "general"), frame.fields["message"], key,
                         u.username, u.color, mid, dbId)])
    ensures Is(frame, "register") ==>
      var u, v, list := old(h.clients)[key], h.clients[key], UserListOf(h.order, h.clients);
      var reg, upd := Registered(key, v.username, v.color, v.phone), UserUpdated(key, u.username, v.username);
      Fanned(old(h.conns), h.clients, h.conns, u.ws,
             if u.username != v.username then [reg, upd, list] else [reg, list],
             if u.username != v.username then [upd, list] else [list])
  {
    if Is(frame, "register") {
      HandleRegister(h, key, frame.fields);
    } else if Is(frame, "message") {
      if "message" in frame.fields {
        HandleMessage(h, key, frame.fields, freshId, dbId);
      }
    } else if Is(frame, "typing") {
      HandleTyping(h, key, frame.fields, frame.isTyping);
    } else if Is(frame, "ping") {
      HandlePing(h, key, now);
    }
  }

  /** The close handler, once the socket has reached CLOSED: `user_left` to
      everyone (the closed socket takes nothing), the session is deleted, and
      the user list goes to everyone who remains. */
  method OnClose(h: Hub<Out>, key: UserId)
    requires h.Valid() && key in h.clients
    requires Live(h.clients, h.conns)
    modifies h
    ensures h.Valid()
    ensures Live(h.clients, h.conns)
    ensures h.clients == old(h.clients) - {key} && h.order == Without(old(h.order), key)
    ensures h.userCount == old(h.userCount) && h.issued == old(h.issued)
    ensures var u := old(h.clients)[key];
      Fanned(old(h.conns)[u.ws := old(h.conns)[u.ws].(state := Closed)], old(h.clients), h.conns, u.ws,
             [], [UserLeft(key, u.username), UserListOf(h.order, h.clients)])
  {
    var u := h.clients[key];
    ghost var c0 := h.conns;
    h.MarkClosed(u.ws);
    ghost var order0, k0, c1 := h.order, h.clients, h.conns;
    var left := UserLeft(key, u.username);
    var _ := h.BroadcastToAll(left, All);
    ghost var c2 := h.conns;
    h.Remove(key);
    var list := UserListOf(h.order, h.clients);
    var _ := h.BroadcastToAll(list, All);
    CloseEffect(order0, k0, c1, c2, key, left, list);
    CloseLive(order0, k0, c0, c1, c2, key, left, list);
  }

  lemma CloseEffect<M>(order: seq<UserId>, clients: map<UserId, User>, c1: map<ConnId, Conn<M>>,
                       c2: map<ConnId, Conn<M>>, key: UserId, left: M, list: M)
    requires Ready(order, clients, c1, key) && c1[clients[key].ws].state == Closed
    requires Ordered(Without(order, key), clients - {key})
    requires c2 == Over(order, clients, c1, All, Send(left))
    ensures Fanned(c1, clients, Over(Without(order, key), clients - {key}, c2, All, Send(list)),
                   clients[key].ws, [], [left, list])
  {
    AllOnly(order, clients, c1, key, left);
    Muted(c1, clients, c2, clients[key].ws, [left], [left]);
    AfterRemoval(order, clients, c1, c2, key, [left], list);
    assert [left] + [list] == [left, list];
  }

  /** The leaver's socket stays CLOSED through both broadcasts of the close
      handler, the others keep their states, so deleting the leaver restores
      `Live`. */
  lemma CloseLive<M>(order: seq<UserId>, clients: map<UserId, User>, c0: map<ConnId, Conn<M>>,
                     c1: map<ConnId, Conn<M>>, c2: map<ConnId, Conn<M>>, key: UserId, left: M, list: M)
    requires Ready(order, clients, c0, key) && Live(clients, c0)
    requires c1 == c0[clients[key].ws := c0[clients[key].ws].(state := Closed)]
    requires c2 == Over(order, clients, c1, All, Send(left))
    ensures Live(clients - {key}, Over(Without(order, key), clients - {key}, c2, All, Send(list)))
  {
    OverClosed(order, clients, c1, All, Send(left));
    OverClosed(Without(order, key), clients - {key}, c2, All, Send(list));
    LeaverGone(clients, c0, key, Over(Without(order, key), clients - {key}, c2, All, Send(list)));
  }

  /** The reaper: every session idle for more than `IdleSeconds` has its
      socket asked to close with code 1000; no session is deleted here. */
  method Reaper(h: Hub<Out>, now: nat)
    requires h.Valid()
    requires Live(h.clients, h.conns)
    modifies h
    ensures h.Valid()
    ensures Live(h.clients, h.conns)
    ensures h.clients == old(h.clients) && h.order == old(h.order)
    ensures h.userCount == old(h.userCount) && h.issued == old(h.issued)
    ensures h.conns.Keys == old(h.conns).Keys
    ensures forall k :: k in h.clients ==>
      h.conns[h.clients[k].ws]
        == if now - h.clients[k].lastActivity > IdleSeconds * 1000
           then CloseReq(old(h.conns)[h.clients[k].ws], 1000, "Inatividade")
           else old(h.conns)[h.clients[k].ws]
    ensures forall c :: c in old(h.conns) && c !in WsOf(h.clients) ==> h.conns[c] == old(h.conns)[c]
  {
    ghost var c0 := h.conns;
    h.ForEachSession(IdleAt(now), Close(1000, "Inatividade"));
    OverSessions(h.order, h.clients, c0, IdleAt(now), Close(1000, "Inatividade"));
  }

  /** The heartbeat: one `heartbeat` on every open socket; no session's
      `lastActivity` moves. */
  method Heartbeats(h: Hub<Out>, now: nat)
    requires h.Valid()
    requires Live(h.clients, h.conns)
    modifies h
    ensures h.Valid()
    ensures Live(h.clients, h.conns)
    ensures h.clients == old(h.clients) && h.order == old(h.order)
    ensures h.userCount == old(h.userCount) && h.issued == old(h.issued)
    ensures h.conns.Keys == old(h.conns).Keys
    ensures forall k :: k in h.clients ==>
      h.conns[h.clients[k].ws] == PushAll(old(h.conns)[h.clients[k].ws], [Heartbeat(now)])
    ensures forall c :: c in old(h.conns) && c !in WsOf(h.clients) ==> h.conns[c] == old(h.conns)[c]
  {
    ghost var c0 := h.conns;
    h.ForEachSession(All, Send(Heartbeat(now)));
    OverSessions(h.order, h.clients, c0, All, Send(Heartbeat(now)));
  }

  /** SIGINT: `server_shutdown` to everyone, then every open socket is asked
      to close with code 1000. */
  method Shutdown(h: Hub<Out>)
    requires h.Valid()
    requires Live(h.clients, h.conns)
    modifies h
    ensures h.Valid()
    ensures Live(h.clients, h.conns)
    ensures h.clients == old(h.clients) && h.order == old(h.order)
    ensures h.userCount == old(h.userCount) && h.issued == old(h.issued)
    ensures h.conns.Keys == old(h.conns).Keys
    ensures forall k :: k in h.clients ==>
      h.conns[h.clients[k].ws]
        == CloseReq(PushAll(old(h.conns)[h.clients[k].ws], [ServerShutdown]), 1000, "Servidor desligando")
    ensures forall c :: c in old(h.conns) && c !in WsOf(h.clients) ==> h.conns[c] == old(h.conns)[c]
  {
    ghost var c0 := h.conns;
    var _ := h.BroadcastToAll(ServerShutdown, All);
    ghost var c1 := h.conns;
    h.ForEachSession(All, Close(1000, "Servidor desligando"));
    OverSessions(h.order, h.clients, c0, All, Send(ServerShutdown));
    OverSessions(h.order, h.clients, c1, All, Close(1000, "Servidor desligando"));
  }
}
