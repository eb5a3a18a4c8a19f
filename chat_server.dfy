/** The hub of server.js: the same registry and broadcast engine as
    websocket-server.js, with exclusion from a broadcast by session id
    (`clientId !== excludeUserId`), a random colour per session, a system
    message on every join, leave and rename, `get_users`, and an `error`
    reply to unknown or unreadable frames.  Chat messages are echoed to their
    sender. */
module ChatServer {
  import opened Wire
  import opened Registry
  import opened Sessions
  import opened Fanouts

  /** One entry of a `user_list` frame; `lastSeen` is the connection time and
      `ip` is only included in the broadcast list. */
  datatype Entry = Entry(id: UserId, name: string, online: bool, lastSeen: nat, color: string, ip: Option<string>)

  /** The chat message object carried by `new_message`; system messages have
      no `senderId`, and `text` is absent when the client sent none. */
  datatype ChatMsg = ChatMsg(
    id: string,
    sender: string,
    senderId: Option<UserId>,
    text: Option<string>,
    chatId: string,
    isSystem: bool,
    color: string)

  /** Outbound frames, without their ISO timestamps, clock readings as text
      and fixed prose; `Error.text` is the frame's `message` field. */
  datatype Out =
    | Welcome(userId: UserId, username: string, color: string, clients: nat)
    | Registered(userId: UserId, username: string, color: string)
    | UserList(users: seq<Entry>, total: nat)
    | UserJoined(userId: UserId, username: string, color: string)
    | UserLeft(userId: UserId, username: string)
    | UserUpdated(userId: UserId, oldUsername: string, newUsername: string)
    | NewMessage(message: ChatMsg, chatId: string)
    | MessageDelivered(messageId: string)
    | Typing(userId: UserId, username: string, chatId: string, isTyping: bool)
    | Pong(serverTime: nat)
    | Heartbeat(timestamp: nat)
    | Error(text: string, error: Option<string>)
  {
    /** The `type` field of the frame. */
    function Type(): string
    {
      match this
      case Welcome(_, _, _, _) => "welcome"
      case Registered(_, _, _) => "registered"
      case UserList(_, _) => "user_list"
      case UserJoined(_, _, _) => "user_joined"
      case UserLeft(_, _) => "user_left"
      case UserUpdated(_, _, _) => "user_updated"
      case NewMessage(_, _) => "new_message"
      case MessageDelivered(_) => "message_delivered"
      case Typing(_, _, _, _) => "typing"
      case Pong(_) => "pong"
      case Heartbeat(_) => "heartbeat"
      case Error(_, _) => "error"
    }
  }

  /** The colours `getRandomColor` draws from. */
  const Palette: seq<string> := ["#e94560", "#4caf50", "#2196f3", "#ff9800", "#9c27b0",
                                 "#00bcd4", "#8bc34a", "#ff5722", "#607d8b", "#795548"]

  /** `colors[Math.floor(Math.random() * colors.length)]`, for the draw `rand`
      of `Math.random()`, which lies in [0, 1). */
  function GetRandomColor(rand: real): (c: string)
    requires 0.0 <= rand < 1.0
    ensures c in Palette
    ensures c == Palette[(rand * |Palette| as real).Floor]
  {
    var i := (rand * |Palette| as real).Floor;
    assert 0 <= i < |Palette|;
    Palette[i]
  }

  /** The object `broadcastSystemMessage(text)` sends, at clock `now`. */
  function SystemMessage(text: string, now: nat): Out
  {
    NewMessage(ChatMsg("sys_" + NatToString(now), "Sistema", None, Some(text), "group", true, "#666"), "group")
  }

  /** A system message is a `new_message` frame of chat `group`, carries no
      sender id, and is told apart from every chat message by its flag; two
      taken at different clock readings have different ids. */
  lemma SystemMessageKind(text: string, now: nat, later: nat, u: User, fields: map<string, string>, freshId: string)
    requires now != later
    ensures SystemMessage(text, now).Type() == "new_message"
    ensures SystemMessage(text, now).message.senderId == None
    ensures SystemMessage(text, now).message != ChatOf(u, fields, freshId)
    ensures SystemMessage(text, now).message.id != SystemMessage(text, later).message.id
  {
    PrefixedDistinct("sys_", now, later);
  }

  function EntryOf(u: User, withIp: bool): Entry
  {
    Entry(u.id, u.username, true, u.connectedAt, u.color, if withIp then Some(u.ip) else None)
  }

  /** The entries of `broadcastUserList` (with the address) and of
      `sendUserList` (without), in iteration order. */
  function Listing(order: seq<UserId>, clients: map<UserId, User>, withIp: bool): seq<Entry>
    requires forall k :: k in order ==> k in clients
  {
    seq(|order|, i requires 0 <= i < |order| => EntryOf(clients[order[i]], withIp))
  }

  function UserListOf(order: seq<UserId>, clients: map<UserId, User>, withIp: bool): Out
    requires forall k :: k in order ==> k in clients
  {
    var users := Listing(order, clients, withIp);
    UserList(users, |users|)
  }

  /** Both user lists count every registered session, each shown online;
      only the broadcast one reveals addresses. */
  lemma ListingShape(order: seq<UserId>, clients: map<UserId, User>, withIp: bool)
    requires Ordered(order, clients)
    ensures UserListOf(order, clients, withIp).total == |clients|
    ensures forall i :: 0 <= i < |order| ==> Listing(order, clients, withIp)[i].online
    ensures forall i :: 0 <= i < |order| ==> (Listing(order, clients, withIp)[i].ip.Some? <==> withIp)
  {
    OrderSize(order, clients);
  }

  /** Both user lists name every registered session exactly once. */
  lemma ListingIds(order: seq<UserId>, clients: map<UserId, User>, withIp: bool)
    requires Ordered(order, clients)
    requires forall k :: k in clients ==> clients[k].id == k
    ensures forall k :: k in clients <==> exists i :: 0 <= i < |order| && Listing(order, clients, withIp)[i].id == k
    ensures forall i, j :: 0 <= i < j < |order| ==> Listing(order, clients, withIp)[i].id != Listing(order, clients, withIp)[j].id
  {
    var r := Listing(order, clients, withIp);
    forall k | k in clients
      ensures exists i :: 0 <= i < |order| && r[i].id == k
    {
      var i :| 0 <= i < |order| && order[i] == k;
      assert r[i].id == k;
    }
  }

  /** The sockets after the connection handler: the newcomer has `welcome`,
      the user list and the system message; every earlier session has the
      user list, `user_joined` and the system message. */
  lemma ConnectEffect<M>(order0: seq<UserId>, k0: map<UserId, User>, c0: map<ConnId, Conn<M>>,
                         u: User, failing: bool, n: nat, issued: set<UserId>, hello: M, list: M, joined: M, sys: M)
    requires Consistent(order0 + [u.id], k0[u.id := u], c0[u.ws := Conn(Open, [], failing)].Keys, n, issued)
    ensures var o, cl, c1 := order0 + [u.id], k0[u.id := u], c0[u.ws := Conn(Open, [], failing)];
      Fanned(c1, cl, Over(o, cl, Over(o, cl, Over(o, cl, Reply(c1, u.ws, hello), All, Send(list)),
                                      ExceptId(u.id), Send(joined)), All, Send(sys)),
             u.ws, [hello, list, sys], [list, joined, sys])
  {
    var o, cl, c1 := order0 + [u.id], k0[u.id := u], c0[u.ws := Conn(Open, [], failing)];
    assert cl[u.id] == u;
    ReplyAllExceptAll(o, cl, c1, u.id, ExceptId(u.id), hello, list, joined, sys);
  }

  /** The connection handler: `userCount++`, a new session under a fresh id
      with a colour drawn from the palette, then `welcome` to the newcomer,
      the user list to everyone, `user_joined` to everyone else, and the
      system message to everyone, in that order. */
  method OnConnect(h: Hub<Out>, ws: ConnId, failing: bool, stamp: nat, ip: string, now: nat, rand: real)
    returns (id: UserId)
    requires h.Valid() && ws !in h.conns && 0.0 <= rand < 1.0
    requires Live(h.clients, h.conns)
    modifies h
    ensures h.Valid()
    ensures Live(h.clients, h.conns)
    ensures h.userCount == old(h.userCount) + 1 && id == UserId(stamp, h.userCount)
    ensures id !in old(h.issued) && h.issued == old(h.issued) + {id}
    ensures h.clients == old(h.clients)[id := User(id, ws, "Usuário_" + NatToString(h.userCount),
                                                    GetRandomColor(rand), "", ip, now, now)]
    ensures h.order == old(h.order) + [id] && |h.clients| == |old(h.clients)| + 1
    ensures var u := h.clients[id];
      var list, sys := UserListOf(h.order, h.clients, true), SystemMessage(u.username + " entrou no chat", now);
      Fanned(old(h.conns)[ws := Conn(Open, [], failing)], h.clients, h.conns, ws,
             [Welcome(id, u.username, u.color, |h.clients|), list, sys],
             [list, UserJoined(id, u.username, u.color), sys])
  {
    id := h.NextId(stamp);
    var user := User(id, ws, "Usuário_" + NatToString(h.userCount), GetRandomColor(rand), "", ip, now, now);
    ghost var order0, c0, k0 := h.order, h.conns, h.clients;
    h.Insert(user, failing);
    var hello := Welcome(id, user.username, user.color, |h.clients|);
    h.SendToClient(ws, hello);
    var list := UserListOf(h.order, h.clients, true);
    var _ := h.BroadcastToAll(list, All);
    var joined := UserJoined(id, user.username, user.color);
    var _ := h.BroadcastToAll(joined, ExceptId(id));
    var sys := SystemMessage(user.username + " entrou no chat", now);
    var _ := h.BroadcastToAll(sys, All);
    ConnectEffect(order0, k0, c0, user, failing, h.userCount, h.issued, hello, list, joined, sys);
  }

  /** `handleRegister`: the name and colour are replaced when the frame
      supplies non-empty ones; the session gets `registered`; if the name
      changed everyone gets `user_updated` and the system message; then
      everyone gets the user list. */
  method HandleRegister(h: Hub<Out>, key: UserId, fields: map<string, string>, now: nat)
    requires h.Valid() && key in h.clients
    requires Live(h.clients, h.conns)
    modifies h
    ensures h.Valid()
    ensures Live(h.clients, h.conns)
    ensures var u := old(h.clients)[key];
      h.clients == old(h.clients)[key := u.(username := OrElse(fields, "username", u.username),
                                            color := OrElse(fields, "color", u.color))]
    ensures h.order == old(h.order) && h.userCount == old(h.userCount) && h.issued == old(h.issued)
    ensures var u, v, list := old(h.clients)[key], h.clients[key], UserListOf(h.order, h.clients, true);
      var reg, upd := Registered(key, v.username, v.color), UserUpdated(key, u.username, v.username);
      var sys := SystemMessage(u.username + " agora é " + v.username, now);
      Fanned(old(h.conns), h.clients, h.conns, u.ws,
             if u.username != v.username then [reg, upd, sys, list] else [reg, list],
             if u.username != v.username then [upd, sys, list] else [list])
  {
    var u := h.clients[key];
    var name, color := OrElse(fields, "username", u.username), OrElse(fields, "color", u.color);
    h.SetProfile(key, name, color, u.phone);
    ghost var c0 := h.conns;
    var reg := Registered(key, name, color);
    h.SendToClient(u.ws, reg);
    if u.username != name {
      var upd := UserUpdated(key, u.username, name);
      var _ := h.BroadcastToAll(upd, All);
      var sys := SystemMessage(u.username + " agora é " + name, now);
      var _ := h.BroadcastToAll(sys, All);
      var list := UserListOf(h.order, h.clients, true);
      var _ := h.BroadcastToAll(list, All);
      ReplyAllAllAll(h.order, h.clients, c0, key, reg, upd, sys, list);
    } else {
      var list := UserListOf(h.order, h.clients, true);
      var _ := h.BroadcastToAll(list, All);
      ReplyAll(h.order, h.clients, c0, key, reg, list);
    }
  }

  /** The message object `handleMessage` builds. */
  function ChatOf(u: User, fields: map<string, string>, freshId: string): ChatMsg
  {
    ChatMsg(freshId, u.username, Some(u.id), Field(fields, "text"), OrElse(fields, "chatId", "group"), false, u.color)
  }

  /** Unlike websocket-server.js, the server always mints the id: a
      `messageId` sent by the client changes nothing in the message, and the
      chat is `group` exactly when the client names no other one. */
  lemma ChatOfIgnoresClientId(u: User, fields: map<string, string>, freshId: string, x: string)
    ensures ChatOf(u, fields["messageId" := x], freshId) == ChatOf(u, fields, freshId)
    ensures ChatOf(u, fields, freshId).id == freshId
    ensures ChatOf(u, fields, freshId).chatId == "group" <==> !Truthy(fields, "chatId") || fields["chatId"] == "group"
  {
    var f := fields["messageId" := x];
    assert Field(f, "text") == Field(fields, "text");
    assert OrElse(f, "chatId", "group") == OrElse(fields, "chatId", "group");
    OrElseKeeps(fields, "chatId", "group");
  }

  /** `handleMessage`: the message goes to everyone, its sender included,
      then the sender gets the receipt under the same id. */
  method HandleMessage(h: Hub<Out>, key: UserId, fields: map<string, string>, freshId: string)
    requires h.Valid() && key in h.clients
    requires Live(h.clients, h.conns)
    modifies h
    ensures h.Valid()
    ensures Live(h.clients, h.conns)
    ensures h.clients == old(h.clients) && h.order == old(h.order)
    ensures h.userCount == old(h.userCount) && h.issued == old(h.issued)
    ensures var m := NewMessage(ChatOf(h.clients[key], fields, freshId), OrElse(fields, "chatId", "group"));
      Fanned(old(h.conns), h.clients, h.conns, h.clients[key].ws, [m, MessageDelivered(freshId)], [m])
  {
    var u := h.clients[key];
    var m := NewMessage(ChatOf(u, fields, freshId), OrElse(fields, "chatId", "group"));
    ghost var c0 := h.conns;
    var _ := h.BroadcastToAll(m, All);
    h.SendToClient(u.ws, MessageDelivered(freshId));
    AllReply(h.order, h.clients, c0, key, m, MessageDelivered(freshId));
  }

  /** `handleTyping`: the indicator goes to every other session. */
  method HandleTyping(h: Hub<Out>, key: UserId, fields: map<string, string>, isTyping: bool)
    requires h.Valid() && key in h.clients
    requires Live(h.clients, h.conns)
    modifies h
    ensures h.Valid()
    ensures Live(h.clients, h.conns)
    ensures h.clients == old(h.clients) && h.order == old(h.order)
    ensures h.userCount == old(h.userCount) && h.issued == old(h.issued)
    ensures var u := h.clients[key];
      Fanned(old(h.conns), h.clients, h.conns, u.ws, [],
             [Typing(key, u.username, OrElse(fields, "chatId", "group"), isTyping)])
  {
    var u := h.clients[key];
    var t := Typing(key, u.username, OrElse(fields, "chatId", "group"), isTyping);
    ghost var c0 := h.conns;
    var _ := h.BroadcastToAll(t, ExceptId(key));
    ExceptOnly(h.order, h.clients, c0, key, ExceptId(key), t);
  }

  /** A reply to the sender alone: `handlePing`, `sendUserList` and the
      router's two `error` replies. */
  method Answer(h: Hub<Out>, key: UserId, m: Out)
    requires h.Valid() && key in h.clients
    requires Live(h.clients, h.conns)
    modifies h
    ensures h.Valid()
    ensures Live(h.clients, h.conns)
    ensures h.clients == old(h.clients) && h.order == old(h.order)
    ensures h.userCount == old(h.userCount) && h.issued == old(h.issued)
    ensures Fanned(old(h.conns), h.clients, h.conns, h.clients[key].ws, [m], [])
  {
    ghost var c0 := h.conns;
    h.SendToClient(h.clients[key].ws, m);
    ReplyOnly(h.order, h.clients, c0, key, m);
  }

  /** The frame has the given `type`. */
  predicate Is(frame: Frame, kind: string)
  {
    frame.Envelope? && frame.kind == Some(kind)
  }

  /** A frame with a `type` the router has no case for. */
  predicate Unknown(frame: Frame)
  {
    frame.Envelope? && !Is(frame, "register") && !Is(frame, "message") && !Is(frame, "typing")
    && !Is(frame, "ping") && !Is(frame, "get_users")
  }

  /** The reply to a frame the router cannot take: `Tipo desconhecido`
      naming the type (`undefined` when there is none), or, for a frame that
      does not parse, `Erro ao processar mensagem` with the parser's message. */
  function Complaint(frame: Frame): (r: Out)
    requires Unknown(frame) || frame.Unparsable?
    ensures r.Type() == "error"
    ensures r.error.Some? <==> frame.Unparsable?
  {
    if frame.Unparsable? then Error("Erro ao processar mensagem", Some(frame.reason))
    else Error("Tipo desconhecido: " + Show(frame.kind), None)
  }

  /** The reply to an unknown type names it: two unknown types get the same
      reply exactly when they are the same type, and an absent type reads as
      the word `undefined`, as a template literal renders it.  The reply to an
      unparsable frame carries the parser's message and no other text. */
  lemma ComplaintNamesType(f: Frame, g: Frame)
    requires Unknown(f) && Unknown(g) && f.kind.Some? && g.kind.Some?
    ensures Complaint(f) == Complaint(g) <==> f.kind == g.kind
    ensures Complaint(f.(kind := None)) == Complaint(f.(kind := Some("undefined")))
    ensures Complaint(Unparsable(f.kind.value)).error == Some(f.kind.value)
    ensures Complaint(Unparsable(f.kind.value)).text == Complaint(Unparsable(g.kind.value)).text
  {
    var p := "Tipo desconhecido: ";
    if Complaint(f) == Complaint(g) {
      assert (p + f.kind.value)[|p|..] == f.kind.value;
      assert (p + g.kind.value)[|p|..] == g.kind.value;
    }
  }

  /** The message handler of a session: `lastActivity` is refreshed before
      the frame is parsed, then the frame's `type` picks the handler; every
      frame that no handler takes gets an `error` reply. */
  method OnMessage(h: Hub<Out>, key: UserId, frame: Frame, now: nat, freshId: string)
    requires h.Valid() && key in h.clients
    requires Live(h.clients, h.conns)
    modifies h
    ensures h.Valid()
    ensures Live(h.clients, h.conns)
    ensures h.order == old(h.order) && h.userCount == old(h.userCount) && h.issued == old(h.issued)
    ensures var u := old(h.clients)[key];
      h.clients == old(h.clients)[key :=
        if Is(frame, "register")
        then u.(lastActivity := now,
                username := OrElse(frame.fields, "username", u.username),
                color := OrElse(frame.fields, "color", u.color))
        else u.(lastActivity := now)]
    ensures Unknown(frame) || frame.Unparsable? ==>
      Fanned(old(h.conns), h.clients, h.conns, h.clients[key].ws, [Complaint(frame)], [])
    ensures Is(frame, "ping") ==>
      Fanned(old(h.conns), h.clients, h.conns, h.clients[key].ws, [Pong(now)], [])
    ensures Is(frame, "get_users") ==>
      Fanned(old(h.conns), h.clients, h.conns, h.clients[key].ws, [UserListOf(h.order, h.clients, false)], [])
    ensures Is(frame, "typing") ==>
      var u := h.clients[key];
      Fanned(old(h.conns), h.clients, h.conns, u.ws, [],
             [Typing(key, u.username, OrElse(frame.fields, "chatId", "group"), frame.isTyping)])
    ensures Is(frame, "message") ==>
      var m := NewMessage(ChatOf(h.clients[key], frame.fields, freshId), OrElse(frame.fields, "chatId", "group"));
      Fanned(old(h.conns), h.clients, h.conns, h.clients[key].ws, [m, MessageDelivered(freshId)], [m])
    ensures Is(frame, "register") ==>
      var u, v, list := old(h.clients)[key], h.clients[key], UserListOf(h.order, h.clients, true);
      var reg, upd := Registered(key, v.username, v.color), UserUpdated(key, u.username, v.username);
      var sys := SystemMessage(u.username + " agora é " + v.username, now);
      Fanned(old(h.conns), h.clients, h.conns, u.ws,
             if u.username != v.username then [reg, upd, sys, list] else [reg, list],
             if u.username != v.username then [upd, sys, list] else [list])
  {
    ghost var k0 := h.clients;
    h.Touch(key, now);
    if frame.Unparsable? {
      Answer(h, key, Complaint(frame));
    } else if frame.kind.None? {
      Answer(h, key, Complaint(frame));
    } else {
      var fields := frame.fields;
      match frame.kind.value
      case "register" =>
        ghost var t := h.clients[key];
        HandleRegister(h, key, fields, now);
        UpdateTwice(k0, key, t, h.clients[key]);
      case "message" => HandleMessage(h, key, fields, freshId);
      case "typing" => HandleTyping(h, key, fields, frame.isTyping);
      case "ping" => Answer(h, key, Pong(now));
      case "get_users" => Answer(h, key, UserListOf(h.order, h.clients, false));
      case _ => Answer(h, key, Complaint(frame));
    }
  }

  /** The close handler, once the socket has reached CLOSED: `user_left` to
      every other session and the system message to everyone (the closed
      socket takes neither), the session is deleted, and the user list goes
      to everyone who remains. */
  method OnClose(h: Hub<Out>, key: UserId, now: nat)
    requires h.Valid() && key in h.clients
    requires Live(h.clients, h.conns)
    modifies h
    ensures h.Valid()
    ensures Live(h.clients, h.conns)
    ensures h.clients == old(h.clients) - {key} && h.order == Without(old(h.order), key)
    ensures h.userCount == old(h.userCount) && h.issued == old(h.issued)
    ensures var u := old(h.clients)[key];
      Fanned(old(h.conns)[u.ws := old(h.conns)[u.ws].(state := Closed)], old(h.clients), h.conns, u.ws,
             [], [UserLeft(key, u.username), SystemMessage(u.username + " saiu do chat", now),
                  UserListOf(h.order, h.clients, true)])
  {
    var u := h.clients[key];
    ghost var c0 := h.conns;
    h.MarkClosed(u.ws);
    ghost var order0, k0, c1 := h.order, h.clients, h.conns;
    var left := UserLeft(key, u.username);
    var _ := h.BroadcastToAll(left, ExceptId(key));
    var sys := SystemMessage(u.username + " saiu do chat", now);
    var _ := h.BroadcastToAll(sys, All);
    ghost var c2 := h.conns;
    h.Remove(key);
    var list := UserListOf(h.order, h.clients, true);
    var _ := h.BroadcastToAll(list, All);
    CloseEffect(order0, k0, c1, c2, key, left, sys, list);
    CloseLive(order0, k0, c0, c1, c2, key, left, sys, list);
  }

  lemma CloseEffect<M>(order: seq<UserId>, clients: map<UserId, User>, c1: map<ConnId, Conn<M>>,
                       c2: map<ConnId, Conn<M>>, key: UserId, left: M, sys: M, list: M)
    requires Ready(order, clients, c1, key) && c1[clients[key].ws].state == Closed
    requires Ordered(Without(order, key), clients - {key})
    requires c2 == Over(order, clients, Over(order, clients, c1, ExceptId(key), Send(left)), All, Send(sys))
    ensures Fanned(c1, clients, Over(Without(order, key), clients - {key}, c2, All, Send(list)),
                   clients[key].ws, [], [left, sys, list])
  {
    ExceptAll(order, clients, c1, key, ExceptId(key), left, sys);
    Muted(c1, clients, c2, clients[key].ws, [sys], [left, sys]);
    AfterRemoval(order, clients, c1, c2, key, [left, sys], list);
    assert [left, sys] + [list] == [left, sys, list];
  }

  /** The leaver's socket stays CLOSED through the three broadcasts, the
      others keep their states, so deleting the leaver restores `Live`. */
  lemma CloseLive<M>(order: seq<UserId>, clients: map<UserId, User>, c0: map<ConnId, Conn<M>>,
                     c1: map<ConnId, Conn<M>>, c2: map<ConnId, Conn<M>>, key: UserId, left: M, sys: M, list: M)
    requires Ready(order, clients, c0, key) && Live(clients, c0)
    requires c1 == c0[clients[key].ws := c0[clients[key].ws].(state := Closed)]
    requires c2 == Over(order, clients, Over(order, clients, c1, ExceptId(key), Send(left)), All, Send(sys))
    ensures Live(clients - {key}, Over(Without(order, key), clients - {key}, c2, All, Send(list)))
  {
    OverClosed(order, clients, c1, ExceptId(key), Send(left));
    OverClosed(order, clients, Over(order, clients, c1, ExceptId(key), Send(left)), All, Send(sys));
    OverClosed(Without(order, key), clients - {key}, c2, All, Send(list));
    LeaverGone(clients, c0, key, Over(Without(order, key), clients - {key}, c2, All, Send(list)));
  }

  /** The reaper: every session idle for more than `IdleSeconds` has its
      socket asked to close with code 1000; no session is deleted here. */
  method Reaper(h: Hub<Out>, now: nat)
    requires h.Valid()
    requires Live(h.clients, h.conns)
    modifies h
    ensures h.Valid()
    ensures Live(h.clients, h.conns)
    ensures h.clients == old(h.clients) && h.order == old(h.order)
    ensures h.userCount == old(h.userCount) && h.issued == old(h.issued)
    ensures h.conns.Keys == old(h.conns).Keys
    ensures forall k :: k in h.clients ==>
      h.conns[h.clients[k].ws]
        == if now - h.clients[k].lastActivity > IdleSeconds * 1000
           then CloseReq(old(h.conns)[h.clients[k].ws], 1000, "Inatividade")
           else old(h.conns)[h.clients[k].ws]
    ensures forall c :: c in old(h.conns) && c !in WsOf(h.clients) ==> h.conns[c] == old(h.conns)[c]
  {
    ghost var c0 := h.conns;
    h.ForEachSession(IdleAt(now), Close(1000, "Inatividade"));
    OverSessions(h.order, h.clients, c0, IdleAt(now), Close(1000, "Inatividade"));
  }

  /** The heartbeat: one `heartbeat` on every open socket; no session's
      `lastActivity` moves. */
  method Heartbeats(h: Hub<Out>, now: nat)
    requires h.Valid()
    requires Live(h.clients, h.conns)
    modifies h
    ensures h.Valid()
    ensures Live(h.clients, h.conns)
    ensures h.clients == old(h.clients) && h.order == old(h.order)
    ensures h.userCount == old(h.userCount) && h.issued == old(h.issued)
    ensures h.conns.Keys == old(h.conns).Keys
    ensures forall k :: k in h.clients ==>
      h.conns[h.clients[k].ws] == PushAll(old(h.conns)[h.clients[k].ws], [Heartbeat(now)])
    ensures forall c :: c in old(h.conns) && c !in WsOf(h.clients) ==> h.conns[c] == old(h.conns)[c]
  {
    ghost var c0 := h.conns;
    h.ForEachSession(All, Send(Heartbeat(now)));
    OverSessions(h.order, h.clients, c0, All, Send(Heartbeat(now)));
  }

  /** SIGINT: the shutdown system message to everyone, then every open
      socket is asked to close with code 1000. */
  method Shutdown(h: Hub<Out>, now: nat)
    requires h.Valid()
    requires Live(h.clients, h.conns)
    modifies h
    ensures h.Valid()
    ensures Live(h.clients, h.conns)
    ensures h.clients == old(h.clients) && h.order == old(h.order)
    ensures h.userCount == old(h.userCount) && h.issued == old(h.issued)
    ensures h.conns.Keys == old(h.conns).Keys
    ensures forall k :: k in h.clients ==>
      h.conns[h.clients[k].ws]
        == CloseReq(PushAll(old(h.conns)[h.clients[k].ws], [SystemMessage("⚠️ Servidor está sendo desligado", now)]),
                    1000, "Servidor desligando")
    ensures forall c :: c in old(h.conns) && c !in WsOf(h.clients) ==> h.conns[c] == old(h.conns)[c]
  {
    ghost var c0 := h.conns;
    var bye := SystemMessage("⚠️ Servidor está sendo desligado", now);
    var _ := h.BroadcastToAll(bye, All);
    ghost var c1 := h.conns;
    h.ForEachSession(All, Close(1000, "Servidor desligando"));
    OverSessions(h.order, h.clients, c0, All, Send(bye));
    OverSessions(h.order, h.clients, c1, All, Close(1000, "Servidor desligando"));
  }
}
