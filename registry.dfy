/** The session registry and broadcast engine shared by both server variants:
    the process-wide `clients` map (kept in insertion order, as a JavaScript
    `Map` iterates), the `userCount` counter, and the sockets the sessions own.
    A socket is a value in `conns`, keyed by the identity of its `ws` object. */
module Registry {
  import opened Wire

  /** `user_${Date.now()}_${userCount}`: the clock reading and the counter. */
  datatype UserId = UserId(stamp: nat, n: nat)

  /** Identity of one `ws` object. */
  type ConnId = nat

  /** `ws.readyState`, with the code and reason of a requested close. */
  datatype ReadyState = Open | Closing(code: nat, reason: string) | Closed

  /** One socket: its ready state, every frame handed to `ws.send` so far, and
      whether `ws.send` throws on it. */
  datatype Conn<M> = Conn(state: ReadyState, outbox: seq<M>, failing: bool)

  /** The session record of both variants (`phone` stays empty in server.js,
      which has no such field; `isOnline` is always true and is not stored). */
  datatype User = User(
    id: UserId,
    ws: ConnId,
    username: string,
    color: string,
    phone: string,
    ip: string,
    connectedAt: nat,
    lastActivity: nat)

  /** Inactivity, in seconds, past which the reaper closes a session. */
  const IdleSeconds: nat := 300

  /** A send on this socket reaches the outbox: the socket is open and
      `ws.send` does not throw. */
  predicate Delivers<M>(c: Conn<M>)
  {
    c.state == Open && !c.failing
  }

  /** The effect of handing messages `ms`, one after another, to a socket
      through the readyState guard and the try/catch around `ws.send`. */
  function PushAll<M>(c: Conn<M>, ms: seq<M>): Conn<M>
  {
    if Delivers(c) then c.(outbox := c.outbox + ms) else c
  }

  /** Two guarded sends on a socket are one guarded send of both messages in
      order, so each recipient sees a handler's messages in send order. */
  lemma PushAllThen<M>(c: Conn<M>, a: seq<M>, b: seq<M>)
    ensures PushAll(PushAll(c, a), b) == PushAll(c, a + b)
    ensures PushAll(c, []) == c
  {
    if Delivers(c) {
      assert c.outbox + a + b == c.outbox + (a + b);
      assert c.outbox + [] == c.outbox;
    }
  }

  /** `ws.close(code, reason)`: only an open socket starts closing. */
  function CloseReq<M>(c: Conn<M>, code: nat, reason: string): Conn<M>
  {
    if c.state == Open then c.(state := Closing(code, reason)) else c
  }

  /** Which sessions a loop over the registry acts on. */
  datatype Filter =
    | All                    // `broadcastToAll(data)`, the heartbeat, the shutdown loop
    | ExceptWs(ws: ConnId)   // websocket-server.js: `client.ws !== excludeWs`
    | ExceptId(id: UserId)   // server.js: `clientId !== excludeUserId`
    | OnlyWs(ws: ConnId)     // `sendToClient(user.ws, data)` to a registered session
    | IdleAt(now: nat)       // the reaper: more than IdleSeconds without activity

  predicate Picks(f: Filter, key: UserId, u: User)
  {
    match f
    case All => true
    case ExceptWs(w) => u.ws != w
    case ExceptId(x) => key != x
    case OnlyWs(w) => u.ws == w
    case IdleAt(now) => now - u.lastActivity > IdleSeconds * 1000
  }

  /** What a loop does to the socket of a picked session. */
  datatype Op<M> = Send(m: M) | Close(code: nat, reason: string)

  function Apply<M>(op: Op<M>, c: Conn<M>): Conn<M>
  {
    match op
    case Send(m) => PushAll(c, [m])
    case Close(code, reason) => CloseReq(c, code, reason)
  }

  /** `clients.forEach` over the sessions `s` (in iteration order), applying
      `op` to the socket of every session that `f` picks. */
  function Over<M>(s: seq<UserId>, clients: map<UserId, User>, conns: map<ConnId, Conn<M>>,
                   f: Filter, op: Op<M>): map<ConnId, Conn<M>>
    decreases |s|
  {
    if s == [] then conns
    else
      var prev := Over(s[..|s| - 1], clients, conns, f, op);
      var key := s[|s| - 1];
      if key in clients && Picks(f, key, clients[key]) && clients[key].ws in prev
      then prev[clients[key].ws := Apply(op, prev[clients[key].ws])]
      else prev
  }

  /** Sending never changes a socket's ready state or whether it throws. */
  lemma {:induction false} SendKeeps<M>(s: seq<UserId>, clients: map<UserId, User>, conns: map<ConnId, Conn<M>>,
                                        f: Filter, m: M, c: ConnId)
    requires c in conns
    ensures c in Over(s, clients, conns, f, Send(m))
    ensures Over(s, clients, conns, f, Send(m))[c].state == conns[c].state
    ensures Over(s, clients, conns, f, Send(m))[c].failing == conns[c].failing
    decreases |s|
  {
    if s != [] {
      SendKeeps(s[..|s| - 1], clients, conns, f, m, c);
    }
  }

  /** One more step of a loop over `keys`. */
  lemma OverNext<M>(keys: seq<UserId>, i: nat, clients: map<UserId, User>, conns: map<ConnId, Conn<M>>,
                    f: Filter, op: Op<M>)
    requires i < |keys|
    ensures var prev, key := Over(keys[..i], clients, conns, f, op), keys[i];
      Over(keys[..i + 1], clients, conns, f, op)
      == if key in clients && Picks(f, key, clients[key]) && clients[key].ws in prev
         then prev[clients[key].ws := Apply(op, prev[clients[key].ws])]
         else prev
    ensures Sends(keys[..i + 1], clients, conns, f)
            == Sends(keys[..i], clients, conns, f) + (if Receives(keys[i], clients, conns, f) then 1 else 0)
  {
    assert keys[..i + 1][..i] == keys[..i];
  }

  /** Successful `ws.send` calls of `broadcastToAll` over the sessions `s`:
      the `sentCount` it returns. */
  function Sends<M>(s: seq<UserId>, clients: map<UserId, User>, conns: map<ConnId, Conn<M>>,
                    f: Filter): nat
    decreases |s|
  {
    if s == [] then 0
    else
      var key := s[|s| - 1];
      Sends(s[..|s| - 1], clients, conns, f) + (if Receives(key, clients, conns, f) then 1 else 0)
  }

  /** Session `key` is registered, picked by `f`, and its socket accepts a send. */
  predicate Receives<M>(key: UserId, clients: map<UserId, User>, conns: map<ConnId, Conn<M>>, f: Filter)
  {
    key in clients && Picks(f, key, clients[key]) && clients[key].ws in conns
    && Delivers(conns[clients[key].ws])
  }

  /** Sockets of the sessions among `s` that `f` picks. */
  function Targets(s: seq<UserId>, clients: map<UserId, User>, f: Filter): set<ConnId>
  {
    set key | key in s && key in clients && Picks(f, key, clients[key]) :: clients[key].ws
  }

  /** Sockets owned by registered sessions. */
  function WsOf(clients: map<UserId, User>): set<ConnId>
  {
    set key | key in clients :: clients[key].ws
  }

  lemma WsOfRemove(clients: map<UserId, User>, key: UserId)
    requires key in clients && WsInjective(clients)
    ensures WsOf(clients - {key}) == WsOf(clients) - {clients[key].ws}
  {
    var m := clients - {key};
    forall c | c in WsOf(m) ensures c in WsOf(clients) - {clients[key].ws} {
      var k :| k in m && m[k].ws == c;
      assert k in clients && clients[k].ws == c && k != key;
    }
    forall c | c in WsOf(clients) - {clients[key].ws} ensures c in WsOf(m) {
      var k :| k in clients && clients[k].ws == c;
      assert k != key && k in m && m[k].ws == c;
    }
  }

  /** Filing a session with a new socket adds that socket to the owned ones. */
  lemma WsOfInsert(clients: map<UserId, User>, u: User)
    requires u.id !in clients
    ensures WsOf(clients[u.id := u]) == WsOf(clients) + {u.ws}
  {
    var m := clients[u.id := u];
    forall c | c in WsOf(m) ensures c in WsOf(clients) + {u.ws} {
      var k :| k in m && m[k].ws == c;
      if k != u.id {
        assert k in clients && clients[k].ws == c;
      }
    }
    forall c | c in WsOf(clients) ensures c in WsOf(m) {
      var k :| k in clients && clients[k].ws == c;
      assert k in m && m[k].ws == c;
    }
    assert u.id in m && m[u.id].ws == u.ws;
  }

  /** Changing a session's fields other than its socket keeps the owned sockets. */
  lemma WsOfUpdate(clients: map<UserId, User>, key: UserId, v: User)
    requires key in clients && v.ws == clients[key].ws
    ensures WsOf(clients[key := v]) == WsOf(clients)
  {
    var m := clients[key := v];
    forall c | c in WsOf(m) ensures c in WsOf(clients) {
      var k :| k in m && m[k].ws == c;
      assert k in clients && clients[k].ws == c;
    }
    forall c | c in WsOf(clients) ensures c in WsOf(m) {
      var k :| k in clients && clients[k].ws == c;
      assert k in m && m[k].ws == c;
    }
  }

  /** When no two sessions share a socket, there are as many owned sockets as sessions. */
  lemma {:induction false} WsOfCard(clients: map<UserId, User>)
    requires WsInjective(clients)
    ensures |WsOf(clients)| == |clients|
    decreases |clients|
  {
    if clients != map[] {
      var key :| key in clients;
      var rest := clients - {key};
      assert WsInjective(rest);
      WsOfCard(rest);
      WsOfRemove(clients, key);
      assert clients[key].ws in WsOf(clients);
    }
  }

  /** Sockets that have not reached CLOSED. */
  function NotClosed<M>(conns: map<ConnId, Conn<M>>): set<ConnId>
  {
    set c | c in conns && conns[c].state != Closed
  }

  /** A session is registered exactly as long as its socket has not reached
      CLOSED: the sockets not yet CLOSED are exactly those of registered sessions. */
  ghost predicate Live<M>(clients: map<UserId, User>, conns: map<ConnId, Conn<M>>)
  {
    NotClosed(conns) == WsOf(clients)
  }

  /** Hence the registry's size is the number of sockets not yet CLOSED. */
  lemma LiveCount<M>(clients: map<UserId, User>, conns: map<ConnId, Conn<M>>)
    requires Live(clients, conns) && WsInjective(clients)
    ensures |clients| == |set c | c in conns && conns[c].state != Closed|
  {
    assert (set c | c in conns && conns[c].state != Closed) == NotClosed(conns);
    WsOfCard(clients);
  }

  /** No operation of a loop makes a socket CLOSED or reopens a CLOSED one. */
  lemma {:induction false} OverClosed<M>(s: seq<UserId>, clients: map<UserId, User>,
                                         conns: map<ConnId, Conn<M>>, f: Filter, op: Op<M>)
    ensures Over(s, clients, conns, f, op).Keys == conns.Keys
    ensures forall c :: c in conns ==>
      (Over(s, clients, conns, f, op)[c].state == Closed <==> conns[c].state == Closed)
    decreases |s|
  {
    if s != [] {
      OverClosed(s[..|s| - 1], clients, conns, f, op);
    }
  }

  /** The close event: the leaver's socket is CLOSED and every other socket is
      as CLOSED as before; deleting the leaver restores `Live`. */
  lemma LeaverGone<M>(clients: map<UserId, User>, c0: map<ConnId, Conn<M>>, key: UserId, c1: map<ConnId, Conn<M>>)
    requires key in clients && WsInjective(clients) && Live(clients, c0) && clients[key].ws in c0
    requires c1.Keys == c0.Keys && c1[clients[key].ws].state == Closed
    requires forall c :: c in c0 && c != clients[key].ws ==> (c1[c].state == Closed <==> c0[c].state == Closed)
    ensures Live(clients - {key}, c1)
  {
    WsOfRemove(clients, key);
    assert NotClosed(c1) == NotClosed(c0) - {clients[key].ws};
  }

  /** A loop over the registry leaves the same sockets not CLOSED. */
  lemma OverNotClosed<M>(s: seq<UserId>, clients: map<UserId, User>, conns: map<ConnId, Conn<M>>, f: Filter, op: Op<M>)
    ensures NotClosed(Over(s, clients, conns, f, op)) == NotClosed(conns)
  {
    OverClosed(s, clients, conns, f, op);
  }

  predicate NoDup<T(==)>(s: seq<T>)
  {
    forall i, j :: 0 <= i < j < |s| ==> s[i] != s[j]
  }

  /** Dropping the last entry of a list without repetitions leaves one
      without repetitions that does not contain that entry. */
  lemma LastFresh<T>(s: seq<T>)
    requires NoDup(s) && |s| > 0
    ensures NoDup(s[..|s| - 1]) && s[|s| - 1] !in s[..|s| - 1]
  {
    var p := s[..|s| - 1];
    assert forall i :: 0 <= i < |p| ==> p[i] == s[i];
  }

  /** Updating one key twice keeps the second value. */
  lemma UpdateTwice<K, V>(m: map<K, V>, k: K, a: V, b: V)
    ensures m[k := a][k := b] == m[k := b]
  {
  }

  /** No two sessions share a socket. */
  predicate WsInjective(clients: map<UserId, User>)
  {
    forall a, b :: a in clients && b in clients && a != b ==> clients[a].ws != clients[b].ws
  }

  /** `order` lists the keys of `clients` once each: the iteration order of the map. */
  ghost predicate Ordered(order: seq<UserId>, clients: map<UserId, User>)
  {
    NoDup(order) && (forall key :: key in order <==> key in clients)
  }

  /** A loop over the registry applies `op` exactly once to the socket of each
      picked session and leaves every other socket alone; no socket is added
      or dropped.  Hence one socket's failure does not affect any other. */
  lemma {:induction false} OverAt<M>(s: seq<UserId>, clients: map<UserId, User>,
                                     conns: map<ConnId, Conn<M>>, f: Filter, op: Op<M>)
    requires NoDup(s) && WsInjective(clients)
    ensures Over(s, clients, conns, f, op).Keys == conns.Keys
    ensures forall c :: c in conns ==>
      Over(s, clients, conns, f, op)[c] == if c in Targets(s, clients, f) then Apply(op, conns[c]) else conns[c]
    decreases |s|
  {
    if s != [] {
      var p, key := s[..|s| - 1], s[|s| - 1];
      LastFresh(s);
      OverAt(p, clients, conns, f, op);
      assert s == p + [key];
      forall c | c in conns
        ensures Over(s, clients, conns, f, op)[c] == if c in Targets(s, clients, f) then Apply(op, conns[c]) else conns[c]
      {
        if key in clients && Picks(f, key, clients[key]) && clients[key].ws == c {
          assert c in Targets(s, clients, f);
          assert forall other :: other in p && other in clients ==> clients[other].ws != c;
          assert c !in Targets(p, clients, f);
        } else {
          assert c in Targets(s, clients, f) <==> c in Targets(p, clients, f);
        }
      }
    }
  }

  /** The count returned by `broadcastToAll` is the number of sessions that
      received the message. */
  lemma {:induction false} SendsCount<M>(s: seq<UserId>, clients: map<UserId, User>,
                                         conns: map<ConnId, Conn<M>>, f: Filter)
    requires NoDup(s)
    ensures Sends(s, clients, conns, f) == |set key | key in s && Receives(key, clients, conns, f)|
    decreases |s|
  {
    if s != [] {
      var p, key := s[..|s| - 1], s[|s| - 1];
      LastFresh(s);
      SendsCount(p, clients, conns, f);
      assert s == p + [key];
      ReceiversSnoc(p, key, clients, conns, f);
    }
  }

  lemma ReceiversSnoc<M>(p: seq<UserId>, key: UserId, clients: map<UserId, User>,
                         conns: map<ConnId, Conn<M>>, f: Filter)
    requires key !in p
    ensures |set k | k in p + [key] && Receives(k, clients, conns, f)|
            == |set k | k in p && Receives(k, clients, conns, f)| + (if Receives(key, clients, conns, f) then 1 else 0)
  {
    var before := set k | k in p && Receives(k, clients, conns, f);
    var after := set k | k in p + [key] && Receives(k, clients, conns, f);
    if Receives(key, clients, conns, f) {
      assert after == before + {key};
    } else {
      assert after == before;
    }
  }

  /** Excluding a session by its socket (websocket-server.js) and by its key
      (server.js) are the same loop, since no two sessions share a socket. */
  lemma {:induction false} ExclusionKeysAgree<M>(s: seq<UserId>, clients: map<UserId, User>,
                                                 conns: map<ConnId, Conn<M>>, me: UserId, op: Op<M>)
    requires me in clients && WsInjective(clients)
    ensures Over(s, clients, conns, ExceptWs(clients[me].ws), op) == Over(s, clients, conns, ExceptId(me), op)
    ensures Sends(s, clients, conns, ExceptWs(clients[me].ws)) == Sends(s, clients, conns, ExceptId(me))
    decreases |s|
  {
    if s != [] {
      var p, key := s[..|s| - 1], s[|s| - 1];
      ExclusionKeysAgree(p, clients, conns, me, op);
      if key in clients {
        assert Picks(ExceptWs(clients[me].ws), key, clients[key]) == Picks(ExceptId(me), key, clients[key]);
      }
    }
  }

  /** Per-session reading of a loop over the whole registry: the socket of a
      picked session gets `op`, every other socket is left alone. */
  lemma OverSessions<M>(order: seq<UserId>, clients: map<UserId, User>, conns: map<ConnId, Conn<M>>,
                        f: Filter, op: Op<M>)
    requires Ordered(order, clients) && WsInjective(clients)
    requires forall k :: k in clients ==> clients[k].ws in conns
    ensures Over(order, clients, conns, f, op).Keys == conns.Keys
    ensures forall k :: k in clients ==>
      Over(order, clients, conns, f, op)[clients[k].ws]
        == if Picks(f, k, clients[k]) then Apply(op, conns[clients[k].ws]) else conns[clients[k].ws]
    ensures forall c :: c in conns && c !in WsOf(clients) ==> Over(order, clients, conns, f, op)[c] == conns[c]
  {
    OverAt(order, clients, conns, f, op);
    forall k | k in clients
      ensures clients[k].ws in Targets(order, clients, f) <==> Picks(f, k, clients[k])
    {
      if clients[k].ws in Targets(order, clients, f) {
        var k' :| k' in order && k' in clients && Picks(f, k', clients[k']) && clients[k'].ws == clients[k].ws;
        assert k' == k;
      }
    }
  }

  /** One send of a handler: the message and the sessions it is addressed to. */
  datatype Step<M> = Step(to: Filter, m: M)

  /** The sockets after a handler's sends, `script`, run one after another
      against a registry that does not change in between. */
  function Run<M>(order: seq<UserId>, clients: map<UserId, User>, conns: map<ConnId, Conn<M>>,
                  script: seq<Step<M>>): map<ConnId, Conn<M>>
    decreases |script|
  {
    if script == [] then conns
    else
      var last := script[|script| - 1];
      Over(order, clients, Run(order, clients, conns, script[..|script| - 1]), last.to, Send(last.m))
  }

  /** The messages of `script` addressed to session `key`, in order. */
  function Inbox<M>(key: UserId, u: User, script: seq<Step<M>>): seq<M>
    decreases |script|
  {
    if script == [] then []
    else
      var last := script[|script| - 1];
      Inbox(key, u, script[..|script| - 1]) + (if Picks(last.to, key, u) then [last.m] else [])
  }

  lemma RunSnoc<M>(order: seq<UserId>, clients: map<UserId, User>, conns: map<ConnId, Conn<M>>,
                   s: seq<Step<M>>, st: Step<M>)
    ensures Run(order, clients, conns, s + [st]) == Over(order, clients, Run(order, clients, conns, s), st.to, Send(st.m))
    ensures Run<M>(order, clients, conns, []) == conns
  {
    assert (s + [st])[..|s|] == s;
  }

  lemma InboxSnoc<M>(key: UserId, u: User, s: seq<Step<M>>, st: Step<M>)
    ensures Inbox(key, u, s + [st]) == Inbox(key, u, s) + (if Picks(st.to, key, u) then [st.m] else [])
    ensures Inbox<M>(key, u, []) == []
  {
    assert (s + [st])[..|s|] == s;
  }

  /** After a handler's sends, each registered session's socket holds exactly
      the messages addressed to it, in the order they were sent (if the socket
      accepts sends at all); sockets of no registered session are untouched. */
  lemma {:induction false} RunSessions<M>(order: seq<UserId>, clients: map<UserId, User>,
                                          conns: map<ConnId, Conn<M>>, script: seq<Step<M>>)
    requires Ordered(order, clients) && WsInjective(clients)
    requires forall k :: k in clients ==> clients[k].ws in conns
    ensures Run(order, clients, conns, script).Keys == conns.Keys
    ensures forall k :: k in clients ==>
      Run(order, clients, conns, script)[clients[k].ws] == PushAll(conns[clients[k].ws], Inbox(k, clients[k], script))
    ensures forall c :: c in conns && c !in WsOf(clients) ==> Run(order, clients, conns, script)[c] == conns[c]
    decreases |script|
  {
    if script == [] {
      forall k | k in clients ensures PushAll(conns[clients[k].ws], []) == conns[clients[k].ws] {
        PushAllThen(conns[clients[k].ws], [], []);
      }
    } else {
      var p, last := script[..|script| - 1], script[|script| - 1];
      RunSessions(order, clients, conns, p);
      var mid := Run(order, clients, conns, p);
      OverSessions(order, clients, mid, last.to, Send(last.m));
      forall k | k in clients
        ensures Run(order, clients, conns, script)[clients[k].ws] == PushAll(conns[clients[k].ws], Inbox(k, clients[k], script))
      {
        var w := clients[k].ws;
        var here := if Picks(last.to, k, clients[k]) then [last.m] else [];
        PushAllThen(conns[w], Inbox(k, clients[k], p), here);
        PushAllThen(mid[w], [], []);
      }
    }
  }

  /** The part of one send addressed to session `key`. */
  function Pick<M>(st: Step<M>, key: UserId, u: User): seq<M>
  {
    if Picks(st.to, key, u) then [st.m] else []
  }

  /** A handler's two sends, as the loops they are and as each session sees them. */
  lemma Script2<M>(order: seq<UserId>, clients: map<UserId, User>, conns: map<ConnId, Conn<M>>,
                   a: Step<M>, b: Step<M>)
    ensures Run(order, clients, conns, [a, b])
            == Over(order, clients, Over(order, clients, conns, a.to, Send(a.m)), b.to, Send(b.m))
    ensures forall key, u :: Inbox(key, u, [a, b]) == Pick(a, key, u) + Pick(b, key, u)
  {
    RunSnoc(order, clients, conns, [], a);
    RunSnoc(order, clients, conns, [a], b);
    assert [] + [a] == [a] && [a] + [b] == [a, b];
    forall key, u ensures Inbox(key, u, [a, b]) == Pick(a, key, u) + Pick(b, key, u) {
      InboxSnoc(key, u, [], a);
      InboxSnoc(key, u, [a], b);
    }
  }

  lemma Script3<M>(order: seq<UserId>, clients: map<UserId, User>, conns: map<ConnId, Conn<M>>,
                   a: Step<M>, b: Step<M>, c: Step<M>)
    ensures Run(order, clients, conns, [a, b, c])
            == Over(order, clients, Over(order, clients, Over(order, clients, conns,
                 a.to, Send(a.m)), b.to, Send(b.m)), c.to, Send(c.m))
    ensures forall key, u :: Inbox(key, u, [a, b, c]) == Pick(a, key, u) + Pick(b, key, u) + Pick(c, key, u)
  {
    Script2(order, clients, conns, a, b);
    RunSnoc(order, clients, conns, [a, b], c);
    assert [a, b] + [c] == [a, b, c];
    forall key, u ensures Inbox(key, u, [a, b, c]) == Pick(a, key, u) + Pick(b, key, u) + Pick(c, key, u) {
      InboxSnoc(key, u, [a, b], c);
    }
  }

  lemma Script4<M>(order: seq<UserId>, clients: map<UserId, User>, conns: map<ConnId, Conn<M>>,
                   a: Step<M>, b: Step<M>, c: Step<M>, d: Step<M>)
    ensures Run(order, clients, conns, [a, b, c, d])
            == Over(order, clients, Over(order, clients, Over(order, clients, Over(order, clients, conns,
                 a.to, Send(a.m)), b.to, Send(b.m)), c.to, Send(c.m)), d.to, Send(d.m))
    ensures forall key, u :: Inbox(key, u, [a, b, c, d])
                             == Pick(a, key, u) + Pick(b, key, u) + Pick(c, key, u) + Pick(d, key, u)
  {
    Script3(order, clients, conns, a, b, c);
    RunSnoc(order, clients, conns, [a, b, c], d);
    assert [a, b, c] + [d] == [a, b, c, d];
    forall key, u ensures Inbox(key, u, [a, b, c, d])
                          == Pick(a, key, u) + Pick(b, key, u) + Pick(c, key, u) + Pick(d, key, u) {
      InboxSnoc(key, u, [a, b, c], d);
    }
  }

  /** The effect every request handler has on the sockets: the socket `ws` of
      the session that caused the event receives `mine`, the socket of every
      other session receives `theirs`, and sockets of no session keep their
      state. */
  ghost predicate Fanned<M>(c0: map<ConnId, Conn<M>>, clients: map<UserId, User>, c1: map<ConnId, Conn<M>>,
                            ws: ConnId, mine: seq<M>, theirs: seq<M>)
  {
    && c1.Keys == c0.Keys && ws in c0
    && c1[ws] == PushAll(c0[ws], mine)
    && (forall k :: k in clients && clients[k].ws != ws && clients[k].ws in c0 ==>
          c1[clients[k].ws] == PushAll(c0[clients[k].ws], theirs))
    && (forall c :: c in c0 && c !in WsOf(clients) ==> c1[c] == c0[c])
  }

  /** A script in which session `me` is sent `mine` and every other session
      `theirs` fans out as `Fanned` says. */
  lemma Fan<M>(order: seq<UserId>, clients: map<UserId, User>, conns: map<ConnId, Conn<M>>,
               me: UserId, script: seq<Step<M>>, mine: seq<M>, theirs: seq<M>)
    requires Ordered(order, clients) && WsInjective(clients)
    requires forall k :: k in clients ==> clients[k].ws in conns
    requires me in clients && Inbox(me, clients[me], script) == mine
    requires forall k :: k in clients && k != me ==> Inbox(k, clients[k], script) == theirs
    ensures Fanned(conns, clients, Run(order, clients, conns, script), clients[me].ws, mine, theirs)
  {
    RunSessions(order, clients, conns, script);
  }

  /** `sendToClient(user.ws, m)`: the socket `ws` gets one send. */
  function Reply<M>(conns: map<ConnId, Conn<M>>, ws: ConnId, m: M): map<ConnId, Conn<M>>
    requires ws in conns
  {
    conns[ws := PushAll(conns[ws], [m])]
  }

  /** `sendToClient(user.ws, data)` to a registered session is the one-step
      loop that picks only that session. */
  lemma SendIsOnly<M>(order: seq<UserId>, clients: map<UserId, User>, conns: map<ConnId, Conn<M>>,
                      key: UserId, m: M)
    requires Ordered(order, clients) && WsInjective(clients)
    requires forall k :: k in clients ==> clients[k].ws in conns
    requires key in clients
    ensures Over(order, clients, conns, OnlyWs(clients[key].ws), Send(m)) == Reply(conns, clients[key].ws, m)
  {
    var w := clients[key].ws;
    OverSessions(order, clients, conns, OnlyWs(w), Send(m));
    var lhs := Over(order, clients, conns, OnlyWs(w), Send(m));
    var rhs := conns[w := PushAll(conns[w], [m])];
    forall c | c in conns ensures lhs[c] == rhs[c] {
      if c in WsOf(clients) {
        var k :| k in clients && clients[k].ws == c;
      }
    }
  }

  /** A set listing no element twice has as many members as it has entries. */
  lemma {:induction false} NoDupCard<T>(s: seq<T>)
    requires NoDup(s)
    ensures |set x | x in s| == |s|
    decreases |s|
  {
    if s != [] {
      var p, x := s[..|s| - 1], s[|s| - 1];
      LastFresh(s);
      NoDupCard(p);
      assert s == p + [x];
      assert (set y | y in s) == (set y | y in p) + {x};
    }
  }

  /** The iteration order lists exactly as many sessions as the registry holds:
      the `total` of every user list is `clients.size`. */
  lemma OrderSize(order: seq<UserId>, clients: map<UserId, User>)
    requires Ordered(order, clients)
    ensures |order| == |clients|
  {
    NoDupCard(order);
    assert (set x | x in order) == clients.Keys;
  }

  /** `order` without `key`, as `clients.delete(key)` leaves the iteration order. */
  function Without(s: seq<UserId>, key: UserId): (r: seq<UserId>)
    ensures forall x :: x in r <==> x in s && x != key
    ensures NoDup(s) ==> NoDup(r)
    ensures key !in s ==> r == s
    decreases |s|
  {
    if s == [] then []
    else if s[0] == key then Without(s[1..], key)
    else
      var rest := Without(s[1..], key);
      assert NoDup(s) ==> s[0] !in s[1..] && NoDup(s[1..]);
      assert NoDup(s) ==> forall j :: 0 <= j < |rest| ==> ([s[0]] + rest)[j + 1] == rest[j];
      [s[0]] + rest
  }

  /** `clients.delete(key)` keeps the other sessions in their iteration order:
      the key is cut out where it stands and nothing else moves. */
  lemma {:induction false} WithoutAt(s: seq<UserId>, key: UserId, i: nat)
    requires NoDup(s) && i < |s| && s[i] == key
    ensures Without(s, key) == s[..i] + s[i + 1..]
    decreases i
  {
    if i == 0 {
      assert key !in s[1..];
      assert s[..0] + s[1..] == s[1..];
    } else {
      var t := s[1..];
      assert s[0] != key;
      assert NoDup(t) && t[i - 1] == key;
      WithoutAt(t, key, i - 1);
      assert t[..i - 1] == s[1..i] && t[i..] == s[i + 1..];
      assert [s[0]] + s[1..i] == s[..i];
    }
  }
}

module Sessions {
  import opened Wire
  import opened Registry

  /** The `forEach` of `broadcastToAll`: walks the sessions in iteration
      order, sends on the socket of each picked session that is open, and
      counts the sends that did not throw. */
  method Fanout<M>(keys: seq<UserId>, table: map<UserId, User>, conns: map<ConnId, Conn<M>>,
                   f: Filter, m: M) returns (cs: map<ConnId, Conn<M>>, sent: nat)
    requires forall k :: k in keys ==> k in table && table[k].ws in conns
    ensures cs == Over(keys, table, conns, f, Send(m))
    ensures sent == Sends(keys, table, conns, f)
  {
    cs, sent := conns, 0;
    var i := 0;
    while i < |keys|
      invariant 0 <= i <= |keys|
      invariant cs == Over(keys[..i], table, conns, f, Send(m))
      invariant sent == Sends(keys[..i], table, conns, f)
    {
      var key := keys[i];
      OverNext(keys, i, table, conns, f, Send(m));
      var u := table[key];
      SendKeeps(keys[..i], table, conns, f, m, u.ws);
      if Picks(f, key, u) && cs[u.ws].state == Open {
        if !cs[u.ws].failing {
          cs := cs[u.ws := cs[u.ws].(outbox := cs[u.ws].outbox + [m])];
          sent := sent + 1;
        }
      }
      i := i + 1;
    }
    assert keys[..i] == keys;
  }

  /** The `forEach` of the heartbeat, the reaper and the shutdown loop:
      applies `op` to the socket of each picked session. */
  method Visit<M>(keys: seq<UserId>, table: map<UserId, User>, conns: map<ConnId, Conn<M>>,
                  f: Filter, op: Op<M>) returns (cs: map<ConnId, Conn<M>>)
    requires forall k :: k in keys ==> k in table && table[k].ws in conns
    ensures cs == Over(keys, table, conns, f, op)
  {
    cs := conns;
    var i := 0;
    while i < |keys|
      invariant 0 <= i <= |keys|
      invariant cs == Over(keys[..i], table, conns, f, op)
      invariant cs.Keys == conns.Keys
    {
      var key := keys[i];
      OverNext(keys, i, table, conns, f, op);
      var u := table[key];
      if Picks(f, key, u) {
        cs := cs[u.ws := Apply(op, cs[u.ws])];
      }
      i := i + 1;
    }
    assert keys[..i] == keys;
  }

  /** What the hub keeps true between events: the iteration order lists each
      session once, every session is filed under its own id and owns a live
      socket of its own, and every id was handed out by the counter. */
  ghost predicate Consistent(order: seq<UserId>, clients: map<UserId, User>, sockets: set<ConnId>,
                             userCount: nat, issued: set<UserId>)
  {
    && Ordered(order, clients)
    && (forall k :: k in clients ==> clients[k].id == k && clients[k].ws in sockets)
    && WsInjective(clients)
    && clients.Keys <= issued
    && (forall k :: k in issued ==> 1 <= k.n <= userCount)
  }

  /** The process-wide registry: `clients`, its iteration order, the sockets,
      and `userCount`.  `issued` remembers every id ever handed out. */
  class Hub<M> {
    var clients: map<UserId, User>
    var order: seq<UserId>
    var conns: map<ConnId, Conn<M>>
    var userCount: nat
    ghost var issued: set<UserId>

    ghost predicate Valid()
      reads this
    {
      Consistent(order, clients, conns.Keys, userCount, issued)
    }

    /** `let clients = new Map(); let userCount = 0;` */
    constructor ()
      ensures Valid()
      ensures clients == map[] && order == [] && conns == map[] && userCount == 0 && issued == {}
      ensures Live(clients, conns)
    {
      clients, order, conns, userCount := map[], [], map[], 0;
      issued := {};
    }

    /** `userCount++` and the id built from it: never handed out before. */
    method NextId(stamp: nat) returns (id: UserId)
      requires Valid()
      modifies this
      ensures Valid()
      ensures old(Live(clients, conns)) ==> Live(clients, conns)
      ensures userCount == old(userCount) + 1 && id == UserId(stamp, userCount)
      ensures id !in old(issued) && issued == old(issued) + {id}
      ensures clients == old(clients) && order == old(order) && conns == old(conns)
    {
      userCount := userCount + 1;
      id := UserId(stamp, userCount);
      issued := issued + {id};
    }

    /** `clients.set(userId, user)` for the session of a new socket `u.ws`. */
    method Insert(u: User, failing: bool)
      requires Valid() && u.id in issued && u.id !in clients && u.ws !in conns
      modifies this
      ensures Valid()
      ensures old(Live(clients, conns)) ==> Live(clients, conns)
      ensures clients == old(clients)[u.id := u] && order == old(order) + [u.id]
      ensures conns == old(conns)[u.ws := Conn(Open, [], failing)]
      ensures userCount == old(userCount) && issued == old(issued)
    {
      assert forall i :: 0 <= i < |order| ==> (order + [u.id])[i] == order[i];
      WsOfInsert(clients, u);
      clients := clients[u.id := u];
      order := order + [u.id];
      conns := conns[u.ws := Conn(Open, [], failing)];
    }

    /** `clients.delete(userId)`; deleting an absent key changes nothing. */
    method Remove(key: UserId)
      requires Valid()
      modifies this
      ensures Valid()
      ensures clients == old(clients) - {key} && order == Without(old(order), key)
      ensures conns == old(conns) && userCount == old(userCount) && issued == old(issued)
    {
      clients := clients - {key};
      order := Without(order, key);
    }

    /** `user.lastActivity = new Date()`. */
    method Touch(key: UserId, now: nat)
      requires Valid() && key in clients
      modifies this
      ensures Valid()
      ensures old(Live(clients, conns)) ==> Live(clients, conns)
      ensures clients == old(clients)[key := old(clients)[key].(lastActivity := now)]
      ensures order == old(order) && conns == old(conns)
      ensures userCount == old(userCount) && issued == old(issued)
    {
      WsOfUpdate(clients, key, clients[key].(lastActivity := now));
      clients := clients[key := clients[key].(lastActivity := now)];
    }

    /** The in-place assignments of `handleRegister` to name, colour and phone. */
    method SetProfile(key: UserId, username: string, color: string, phone: string)
      requires Valid() && key in clients
      modifies this
      ensures Valid()
      ensures old(Live(clients, conns)) ==> Live(clients, conns)
      ensures clients == old(clients)[key := old(clients)[key].(username := username, color := color, phone := phone)]
      ensures order == old(order) && conns == old(conns)
      ensures userCount == old(userCount) && issued == old(issued)
    {
      WsOfUpdate(clients, key, clients[key].(username := username, color := color, phone := phone));
      clients := clients[key := clients[key].(username := username, color := color, phone := phone)];
    }

    /** The socket has reached CLOSED: what holds when its `close` event fires. */
    method MarkClosed(ws: ConnId)
      requires Valid() && ws in conns
      modifies this
      ensures Valid()
      ensures conns == old(conns)[ws := old(conns)[ws].(state := Closed)] && conns.Keys == old(conns).Keys
      ensures clients == old(clients) && order == old(order)
      ensures userCount == old(userCount) && issued == old(issued)
    {
      conns := conns[ws := conns[ws].(state := Closed)];
    }

    /** `sendToClient(ws, data)`: one message on an open socket whose send does
        not throw; otherwise nothing. */
    method SendToClient(ws: ConnId, m: M)
      requires Valid() && ws in conns
      modifies this
      ensures Valid()
      ensures old(Live(clients, conns)) ==> Live(clients, conns)
      ensures conns == Reply(old(conns), ws, m) && conns.Keys == old(conns).Keys
      ensures clients == old(clients) && order == old(order)
      ensures userCount == old(userCount) && issued == old(issued)
    {
      if conns[ws].state == Open {
        if !conns[ws].failing {
          conns := conns[ws := conns[ws].(outbox := conns[ws].outbox + [m])];
        }
      }
    }

    /** `broadcastToAll(data, exclude)`: one `ws.send` per picked session whose
        socket is open; a send that throws is skipped and the loop goes on;
        returns the number of sends that went through. */
    method BroadcastToAll(m: M, f: Filter) returns (sent: nat)
      requires Valid()
      modifies this
      ensures Valid()
      ensures old(Live(clients, conns)) ==> Live(clients, conns)
      ensures conns == Over(order, clients, old(conns), f, Send(m)) && conns.Keys == old(conns).Keys
      ensures sent == |set k | k in clients && Receives(k, clients, old(conns), f)|
      ensures clients == old(clients) && order == old(order)
      ensures userCount == old(userCount) && issued == old(issued)
    {
      var cs;
      cs, sent := Fanout(order, clients, conns, f, m);
      OverSessions(order, clients, conns, f, Send(m));
      SendsCount(order, clients, conns, f);
      OverNotClosed(order, clients, conns, f, Send(m));
      assert (set k | k in order && Receives(k, clients, conns, f)) == (set k | k in clients && Receives(k, clients, conns, f));
      conns := cs;
    }

    /** A loop that applies `op` to the socket of every session `f` picks: the
        heartbeat, the reaper and the shutdown loop. */
    method ForEachSession(f: Filter, op: Op<M>)
      requires Valid()
      modifies this
      ensures Valid()
      ensures old(Live(clients, conns)) ==> Live(clients, conns)
      ensures conns == Over(order, clients, old(conns), f, op) && conns.Keys == old(conns).Keys
      ensures clients == old(clients) && order == old(order)
      ensures userCount == old(userCount) && issued == old(issued)
    {
      var cs := Visit(order, clients, conns, f, op);
      OverSessions(order, clients, conns, f, op);
      OverNotClosed(order, clients, conns, f, op);
      conns := cs;
    }
  }
}
