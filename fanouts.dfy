/** The send patterns of the request handlers.  Each handler of either server
    variant answers the session that caused the event (`sendToClient(user.ws,
    ...)`), broadcasts to everyone (`broadcastToAll(data)`), or broadcasts to
    everyone but that session (by socket in websocket-server.js, by id in
    server.js), in a fixed order.  Each lemma below reads one such order
    session by session, as a `Fanned` effect. */
module Fanouts {
  import opened Registry

  /** Both ways of leaving the sender out select exactly the other sessions,
      and the reply selects exactly the sender. */
  lemma Exclusion(clients: map<UserId, User>, me: UserId, ex: Filter)
    requires WsInjective(clients) && me in clients
    requires ex == ExceptWs(clients[me].ws) || ex == ExceptId(me)
    ensures forall k :: k in clients ==> (Picks(ex, k, clients[k]) <==> k != me)
    ensures forall k :: k in clients ==> (Picks(OnlyWs(clients[me].ws), k, clients[k]) <==> k == me)
  {
  }

  /** What a handler may assume of the registry while it runs. */
  ghost predicate Ready<M>(order: seq<UserId>, clients: map<UserId, User>, conns: map<ConnId, Conn<M>>, me: UserId)
  {
    && Ordered(order, clients) && WsInjective(clients)
    && (forall k :: k in clients ==> clients[k].ws in conns)
    && me in clients
  }

  /** Reply alone: `handlePing`, `sendUserList`, the router's error replies. */
  lemma ReplyOnly<M>(order: seq<UserId>, clients: map<UserId, User>, conns: map<ConnId, Conn<M>>,
                     me: UserId, x: M)
    requires Ready(order, clients, conns, me)
    ensures Fanned(conns, clients, Reply(conns, clients[me].ws, x), clients[me].ws, [x], [])
  {
    var w := clients[me].ws;
    forall k | k in clients && clients[k].ws != w ensures Reply(conns, w, x)[clients[k].ws] == PushAll(conns[clients[k].ws], []) {
      PushAllThen(conns[clients[k].ws], [], []);
    }
    forall c | c in conns && c !in WsOf(clients) ensures c != w {
      assert w in WsOf(clients);
    }
  }

  /** Broadcast to the others alone: `handleTyping`. */
  lemma ExceptOnly<M>(order: seq<UserId>, clients: map<UserId, User>, conns: map<ConnId, Conn<M>>,
                      me: UserId, ex: Filter, x: M)
    requires Ready(order, clients, conns, me)
    requires ex == ExceptWs(clients[me].ws) || ex == ExceptId(me)
    ensures Fanned(conns, clients, Over(order, clients, conns, ex, Send(x)), clients[me].ws, [], [x])
  {
    Exclusion(clients, me, ex);
    OverSessions(order, clients, conns, ex, Send(x));
    PushAllThen(conns[clients[me].ws], [], []);
  }

  /** Reply, then the user list to all (`handleRegister` when the name is kept). */
  lemma ReplyAll<M>(order: seq<UserId>, clients: map<UserId, User>, conns: map<ConnId, Conn<M>>,
                    me: UserId, x: M, y: M)
    requires Ready(order, clients, conns, me)
    ensures Fanned(conns, clients, Over(order, clients, Reply(conns, clients[me].ws, x), All, Send(y)),
                   clients[me].ws, [x, y], [y])
  {
    var a, b := Step(OnlyWs(clients[me].ws), x), Step(All, y);
    SendIsOnly(order, clients, conns, me, x);
    Script2(order, clients, conns, a, b);
    Exclusion(clients, me, ExceptId(me));
    Fan(order, clients, conns, me, [a, b], [x, y], [y]);
  }

  /** Reply, then two broadcasts to all (websocket-server.js `handleRegister`
      when the name changes). */
  lemma ReplyAllAll<M>(order: seq<UserId>, clients: map<UserId, User>, conns: map<ConnId, Conn<M>>,
                       me: UserId, x: M, y: M, z: M)
    requires Ready(order, clients, conns, me)
    ensures Fanned(conns, clients,
                   Over(order, clients, Over(order, clients, Reply(conns, clients[me].ws, x), All, Send(y)), All, Send(z)),
                   clients[me].ws, [x, y, z], [y, z])
  {
    var a, b, c := Step(OnlyWs(clients[me].ws), x), Step(All, y), Step(All, z);
    SendIsOnly(order, clients, conns, me, x);
    Script3(order, clients, conns, a, b, c);
    Exclusion(clients, me, ExceptId(me));
    Fan(order, clients, conns, me, [a, b, c], [x, y, z], [y, z]);
  }

  /** Reply, then three broadcasts to all (server.js `handleRegister` when the
      name changes). */
  lemma ReplyAllAllAll<M>(order: seq<UserId>, clients: map<UserId, User>, conns: map<ConnId, Conn<M>>,
                          me: UserId, x: M, y: M, z: M, t: M)
    requires Ready(order, clients, conns, me)
    ensures Fanned(conns, clients,
                   Over(order, clients, Over(order, clients, Over(order, clients, Reply(conns, clients[me].ws, x),
                     All, Send(y)), All, Send(z)), All, Send(t)),
                   clients[me].ws, [x, y, z, t], [y, z, t])
  {
    var a, b, c, d := Step(OnlyWs(clients[me].ws), x), Step(All, y), Step(All, z), Step(All, t);
    SendIsOnly(order, clients, conns, me, x);
    Script4(order, clients, conns, a, b, c, d);
    Exclusion(clients, me, ExceptId(me));
    Fan(order, clients, conns, me, [a, b, c, d], [x, y, z, t], [y, z, t]);
  }

  /** Reply, the user list to all, then a broadcast to the others
      (websocket-server.js connection handler). */
  lemma ReplyAllExcept<M>(order: seq<UserId>, clients: map<UserId, User>, conns: map<ConnId, Conn<M>>,
                          me: UserId, ex: Filter, x: M, y: M, z: M)
    requires Ready(order, clients, conns, me)
    requires ex == ExceptWs(clients[me].ws) || ex == ExceptId(me)
    ensures Fanned(conns, clients,
                   Over(order, clients, Over(order, clients, Reply(conns, clients[me].ws, x), All, Send(y)), ex, Send(z)),
                   clients[me].ws, [x, y], [y, z])
  {
    var a, b, c := Step(OnlyWs(clients[me].ws), x), Step(All, y), Step(ex, z);
    SendIsOnly(order, clients, conns, me, x);
    Script3(order, clients, conns, a, b, c);
    Exclusion(clients, me, ex);
    Fan(order, clients, conns, me, [a, b, c], [x, y], [y, z]);
  }

  /** Reply, the user list to all, a broadcast to the others, then one to all
      (server.js connection handler). */
  lemma ReplyAllExceptAll<M>(order: seq<UserId>, clients: map<UserId, User>, conns: map<ConnId, Conn<M>>,
                             me: UserId, ex: Filter, x: M, y: M, z: M, t: M)
    requires Ready(order, clients, conns, me)
    requires ex == ExceptWs(clients[me].ws) || ex == ExceptId(me)
    ensures Fanned(conns, clients,
                   Over(order, clients, Over(order, clients, Over(order, clients, Reply(conns, clients[me].ws, x),
                     All, Send(y)), ex, Send(z)), All, Send(t)),
                   clients[me].ws, [x, y, t], [y, z, t])
  {
    var a, b, c, d := Step(OnlyWs(clients[me].ws), x), Step(All, y), Step(ex, z), Step(All, t);
    SendIsOnly(order, clients, conns, me, x);
    Script4(order, clients, conns, a, b, c, d);
    Exclusion(clients, me, ex);
    Fan(order, clients, conns, me, [a, b, c, d], [x, y, t], [y, z, t]);
  }

  /** A broadcast to the others, then a reply (websocket-server.js
      `handleMessage`: the sender gets no echo, only the receipt). */
  lemma ExceptReply<M>(order: seq<UserId>, clients: map<UserId, User>, conns: map<ConnId, Conn<M>>,
                       me: UserId, ex: Filter, x: M, y: M)
    requires Ready(order, clients, conns, me)
    requires ex == ExceptWs(clients[me].ws) || ex == ExceptId(me)
    ensures var mid := Over(order, clients, conns, ex, Send(x));
      && clients[me].ws in mid
      && Fanned(conns, clients, Reply(mid, clients[me].ws, y), clients[me].ws, [y], [x])
  {
    var a, b := Step(ex, x), Step(OnlyWs(clients[me].ws), y);
    OverSessions(order, clients, conns, ex, Send(x));
    SendIsOnly(order, clients, Over(order, clients, conns, ex, Send(x)), me, y);
    Script2(order, clients, conns, a, b);
    Exclusion(clients, me, ex);
    Fan(order, clients, conns, me, [a, b], [y], [x]);
  }

  /** A broadcast to all, then a reply (server.js `handleMessage`: the sender
      sees its own message, then the receipt). */
  lemma AllReply<M>(order: seq<UserId>, clients: map<UserId, User>, conns: map<ConnId, Conn<M>>,
                    me: UserId, x: M, y: M)
    requires Ready(order, clients, conns, me)
    ensures var mid := Over(order, clients, conns, All, Send(x));
      && clients[me].ws in mid
      && Fanned(conns, clients, Reply(mid, clients[me].ws, y), clients[me].ws, [x, y], [x])
  {
    var a, b := Step(All, x), Step(OnlyWs(clients[me].ws), y);
    OverSessions(order, clients, conns, All, Send(x));
    SendIsOnly(order, clients, Over(order, clients, conns, All, Send(x)), me, y);
    Script2(order, clients, conns, a, b);
    Exclusion(clients, me, ExceptId(me));
    Fan(order, clients, conns, me, [a, b], [x, y], [x]);
  }

  /** One broadcast to all. */
  lemma AllOnly<M>(order: seq<UserId>, clients: map<UserId, User>, conns: map<ConnId, Conn<M>>,
                   me: UserId, x: M)
    requires Ready(order, clients, conns, me)
    ensures Fanned(conns, clients, Over(order, clients, conns, All, Send(x)), clients[me].ws, [x], [x])
  {
    OverSessions(order, clients, conns, All, Send(x));
  }

  /** A broadcast to the others, then one to all (the first half of server.js's
      close handler). */
  lemma ExceptAll<M>(order: seq<UserId>, clients: map<UserId, User>, conns: map<ConnId, Conn<M>>,
                     me: UserId, ex: Filter, x: M, y: M)
    requires Ready(order, clients, conns, me)
    requires ex == ExceptWs(clients[me].ws) || ex == ExceptId(me)
    ensures Fanned(conns, clients, Over(order, clients, Over(order, clients, conns, ex, Send(x)), All, Send(y)),
                   clients[me].ws, [y], [x, y])
  {
    var a, b := Step(ex, x), Step(All, y);
    Script2(order, clients, conns, a, b);
    Exclusion(clients, me, ex);
    Fan(order, clients, conns, me, [a, b], [y], [x, y]);
  }

  /** Nothing reaches a socket that is not open. */
  lemma Muted<M>(c0: map<ConnId, Conn<M>>, clients: map<UserId, User>, c1: map<ConnId, Conn<M>>,
                 ws: ConnId, mine: seq<M>, theirs: seq<M>)
    requires Fanned(c0, clients, c1, ws, mine, theirs) && c0[ws].state != Open
    ensures Fanned(c0, clients, c1, ws, [], theirs)
  {
  }

  /** `clients.delete(userId)` and then a broadcast to all that remain: the
      departed session's socket gets nothing more. */
  lemma AfterRemoval<M>(order: seq<UserId>, clients: map<UserId, User>, c0: map<ConnId, Conn<M>>,
                        mid: map<ConnId, Conn<M>>, me: UserId, theirs: seq<M>, y: M)
    requires Ready(order, clients, c0, me)
    requires Ordered(Without(order, me), clients - {me})
    requires Fanned(c0, clients, mid, clients[me].ws, [], theirs)
    ensures Fanned(c0, clients, Over(Without(order, me), clients - {me}, mid, All, Send(y)),
                   clients[me].ws, [], theirs + [y])
  {
    var rest := clients - {me};
    var w := clients[me].ws;
    OverSessions(Without(order, me), rest, mid, All, Send(y));
    WsOfRemove(clients, me);
    var after := Over(Without(order, me), rest, mid, All, Send(y));
    assert w !in WsOf(rest);
    forall k | k in clients && clients[k].ws != w && clients[k].ws in c0
      ensures after[clients[k].ws] == PushAll(c0[clients[k].ws], theirs + [y])
    {
      assert k in rest && rest[k] == clients[k];
      PushAllThen(c0[clients[k].ws], theirs, [y]);
    }
    PushAllThen(c0[w], [], []);
  }
}
