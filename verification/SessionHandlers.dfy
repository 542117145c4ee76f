/** The objects behind the session handlers: a pool of connections, the client
    manager over Redis, and the application of one pod. */
module SessionHandlers {
  import opened Cluster
  import S = Sessions

  class Client {
    const conn: nat
    var id: string

    constructor (conn: nat)
      ensures this.conn == conn && id == ""
    {
      this.conn := conn;
      id := "";
    }
  }

  class ClientPool {
    var clients: map<string, Client>

    constructor ()
      ensures Contents() == map[]
    {
      clients := map[];
    }

    /** The pool by connection id, which is fixed for each connection. */
    ghost function Contents(): (m: map<string, nat>)
      reads this
      ensures m.Keys == clients.Keys
    {
      map k | k in clients :: clients[k].conn
    }

    /** No other connection of the pool has this one's connection id. */
    ghost predicate Knows(c: Client)
      reads this
    {
      forall k :: k in clients && clients[k].conn == c.conn ==> clients[k] == c
    }

    method Register(c: Client)
      modifies this
      ensures Contents() == old(Contents())[c.id := c.conn]
      ensures old(Knows(c)) ==> Knows(c)
    {
      clients := clients[c.id := c];
      assert Contents().Keys == old(Contents()).Keys + {c.id};
      assert forall k :: k in Contents() && k != c.id ==> Contents()[k] == old(Contents())[k];
    }

    method Unregister(c: Client) returns (removed: bool)
      requires Knows(c)
      modifies this
      ensures removed <==> c.id in old(Contents()) && old(Contents())[c.id] == c.conn
      ensures Contents() == if removed then old(Contents()) - {c.id} else old(Contents())
    {
      removed := c.id in clients && clients[c.id] == c;
      if removed {
        clients := clients - {c.id};
      }
    }

    method ForceClose(id: string) returns (c: Client?)
      modifies this
      ensures c != null <==> id in old(Contents())
      ensures c != null ==> c.conn == old(Contents())[id]
      ensures Contents() == old(Contents()) - {id}
      ensures clients == old(clients) - {id}
    {
      if id in clients {
        c := clients[id];
        clients := clients - {id};
      } else {
        c := null;
        assert Contents() == old(Contents()) - {id};
      }
    }
  }

  /** The hash ws:clients and the sorted set ws:clients:lastseen; `up` says
      whether Redis answers the call. */
  class ClientManager {
    var rows: map<string, S.Row>
    var seen: map<string, int>

    constructor ()
      ensures Store() == S.Store(map[], map[])
    {
      rows := map[];
      seen := map[];
    }

    ghost function Store(): S.Store
      reads this
    {
      S.Store(rows, seen)
    }

    method GetConnectedClient(id: string, up: bool) returns (ok: bool, row: Option<S.Row>)
      ensures ok == up
      ensures ok ==> row == if id in rows then Some(rows[id]) else None
    {
      ok := up;
      row := if up && id in rows then Some(rows[id]) else None;
    }

    method AddConnectedClient(id: string, row: S.Row, up: bool) returns (ok: bool)
      modifies this
      ensures ok == up
      ensures Store() == S.Store(if up then old(rows)[id := row] else old(rows), old(seen))
    {
      if up {
        rows := rows[id := row];
      }
      ok := up;
    }

    method RemoveConnectedClient(id: string, hdel: bool, zrem: bool) returns (ok: bool)
      modifies this
      ensures Store() == if hdel then S.Forget(old(Store()), id, zrem) else old(Store())
      ensures ok == hdel
    {
      if !hdel {
        return false;
      }
      rows := rows - {id};
      if zrem {
        seen := seen - {id};
      }
      ok := true;
    }

    method RemoveConnectedClientIf(id: string, conn: nat, up: bool) returns (deleted: bool)
      modifies this
      ensures Store() == if up then S.ForgetIf(old(Store()), id, conn) else old(Store())
      ensures deleted <==> up && id in old(rows) && old(rows)[id].conn == conn
    {
      deleted := false;
      if !up || id !in rows {
        return;
      }
      if rows[id].conn != conn {
        return;
      }
      seen := seen - {id};
      rows := rows - {id};
      deleted := true;
    }

    method UpdateClientTTL(id: string, at: int, up: bool) returns (ok: bool)
      modifies this
      ensures ok == up
      ensures Store() == S.Store(old(rows), if up then old(seen)[id := at] else old(seen))
    {
      if up {
        seen := seen[id := at];
      }
      ok := up;
    }

    /** The script run by the presence cleanup for a row that its scan read. */
    method CleanupScript(id: string, expected: S.Row, cutoff: int, beats: set<nat>) returns (deleted: bool)
      modifies this
      ensures Store() == S.Sweep(old(Store()), id, expected, cutoff, beats)
      ensures deleted <==> id in old(rows) && id !in rows
    {
      deleted := false;
      if id !in rows || rows[id] != expected {
        return;
      }
      if expected.pod in beats {
        return;
      }
      if id !in seen {
        return;
      }
      if seen[id] < cutoff {
        seen := seen - {id};
        rows := rows - {id};
        deleted := true;
      }
    }
  }

  lemma AdmitTellsNobody(v: S.View, p: nat, conn: nat, r: S.Request, calls: S.Calls)
    ensures S.Admit(v.(told := None), p, conn, r, calls).0 == S.Admit(v, p, conn, r, calls).0.(told := None)
    ensures S.Admit(v.(told := None), p, conn, r, calls).1 == S.Admit(v, p, conn, r, calls).1
    ensures S.Admit(v, p, conn, r, calls).0.told == v.told
  {
  }

  /** `sent` lists the force_close messages published: to which pod, for which
      client. */
  class App {
    const podId: nat
    const pool: ClientPool
    const manager: ClientManager
    var gauge: int
    var sent: seq<(nat, string)>
    ghost var overwritten: nat
    ghost var forced: nat
    ghost var failed: nat

    constructor (podId: nat, manager: ClientManager)
      ensures this.podId == podId && this.manager == manager && fresh(pool)
      ensures Local() == S.EMPTY_POD && sent == []
    {
      this.podId := podId;
      this.manager := manager;
      pool := new ClientPool();
      gauge := 0;
      sent := [];
      overwritten, forced, failed := 0, 0, 0;
    }

    ghost function Local(): S.Pod
      reads this, pool
    {
      S.Pod(pool.Contents(), gauge, overwritten, forced, failed)
    }

    ghost function Sees(name: string): S.View
      reads this, pool, manager
    {
      S.View(Local(), manager.Store(), name, None)
    }

    /** The state after a handler that has turned the view into `w`. */
    ghost predicate Shows(w: S.View, name: string, before: seq<(nat, string)>, id: string)
      reads this, pool, manager
    {
      && Sees(name) == w.(told := None)
      && sent == before + if w.told.Some? then [(w.told.value, id)] else []
    }

    /** Router.PublishToClient with a force_close payload. */
    method PublishForceClose(id: string, up: bool) returns (ok: bool)
      modifies this`sent
      ensures ok == up
      ensures sent == old(sent) + if up && id in manager.rows then [(manager.rows[id].pod, id)] else []
    {
      ok := up;
      if up && id in manager.rows {
        sent := sent + [(manager.rows[id].pod, id)];
      }
    }

    method EvictConnectedClient(id: string, owner: S.Row, calls: S.Calls, ghost name: string) returns (ok: bool)
      requires id in manager.rows && manager.rows[id] == owner
      modifies this, pool
      ensures var out := S.EvictOwner(old(Sees(name)), podId, id, owner, calls);
        && ok == out.Some?
        && Shows(if ok then out.value else old(Sees(name)), name, old(sent), id)
      ensures pool.clients == old(pool.clients) || pool.clients == old(pool.clients) - {id}
    {
      ok := true;
      if owner.pod == podId {
        var c := pool.ForceClose(id);
        if c == null {
          assert pool.Contents() == old(pool.Contents());
          return;
        }
        gauge := gauge - 1;
      } else if calls.routed {
        ok := PublishForceClose(id, calls.publish);
      }
    }

    /** Enter the pool, start the flow, count the connection. */
    method Join(c: Client, triggered: bool) returns (joined: bool)
      modifies this, pool
      ensures joined == triggered
      ensures pool.Contents() == old(pool.Contents())[c.id := c.conn]
      ensures overwritten == old(overwritten) + if c.id in old(pool.Contents()) then 1 else 0
      ensures gauge == old(gauge) + (if triggered then 1 else 0) && failed == old(failed) + (if triggered then 0 else 1)
      ensures forced == old(forced) && sent == old(sent)
      ensures old(pool.Knows(c)) ==> pool.Knows(c)
    {
      if c.id in pool.clients {
        overwritten := overwritten + 1;
      }
      pool.Register(c);
      if !triggered {
        failed := failed + 1;
        return false;
      }
      gauge := gauge + 1;
      joined := true;
    }

    /** The rest of Client.Register, once the client is free. */
    method Admit(c: Client, r: S.Request, calls: S.Calls) returns (reply: S.Reply)
      modifies this, pool, manager, c
      ensures var out := S.Admit(old(Sees(c.id)), podId, c.conn, r, calls);
        reply == out.1 && Sees(c.id) == out.0 && sent == old(sent)
      ensures old(pool.Knows(c)) ==> pool.Knows(c)
    {
      hide ClientPool.Contents;
      c.id := r.id;
      if !calls.parsed {
        return S.BadCallback;
      }
      var ok := manager.AddConnectedClient(r.id, S.Row(podId, c.conn, r.token), calls.add);
      if !ok {
        return S.StoreFailed;
      }
      var joined := Join(c, calls.triggered);
      reply := if joined then S.Registered else S.TriggerFailed;
    }

    /** Client.Register for connection c of this pod. */
    method Register(c: Client, r: S.Request, beats: set<nat>, calls: S.Calls) returns (reply: S.Reply)
      modifies this, pool, manager, c
      ensures var out := S.Register(old(Sees(c.id)), podId, c.conn, r, beats, calls);
        reply == out.1 && Shows(out.0, c.id, old(sent), r.id)
      ensures old(pool.Knows(c)) ==> pool.Knows(c)
    {
      hide S.Admit, ClientPool.Contents;
      if r.id == "" || r.callback == "" {
        return S.BlankField;
      }
      var ok, owner := manager.GetConnectedClient(r.id, calls.get);
      if !ok {
        return S.LookupFailed;
      }
      if owner.Some? {
        var isAlive := calls.answered && owner.value.pod in beats;
        if !isAlive {
          var _ := manager.RemoveConnectedClient(r.id, calls.del, calls.zrem);
          return S.HandlerDead;
        }
        if owner.value.token != "" && owner.value.token != r.token {
          return S.IdTaken;
        }
        ok := EvictConnectedClient(r.id, owner.value, calls, c.id);
        if !ok {
          return S.PublishFailed;
        }
        AdmitTellsNobody(S.EvictOwner(old(Sees(c.id)), podId, r.id, owner.value, calls).value,
                         podId, c.conn, r, calls);
      }
      AdmitTellsNobody(Sees(c.id), podId, c.conn, r, calls);
      reply := Admit(c, r, calls);
    }

    method CloseClientSession(id: string, token: string, calls: S.Calls) returns (reply: S.Reply)
      modifies this, pool, manager
      ensures var out := S.CloseSession(old(Sees("")), podId, id, token, calls);
        reply == out.1 && Shows(out.0, "", old(sent), id)
    {
      hide ClientPool.Contents;
      var ok, owner := manager.GetConnectedClient(id, calls.get);
      if !ok {
        return S.LookupFailed;
      }
      if owner.None? {
        return S.InvalidClient;
      }
      if owner.value.token != "" && owner.value.token != token {
        return S.InvalidToken;
      }
      ok := EvictConnectedClient(id, owner.value, calls, "");
      if !ok {
        return S.PublishFailed;
      }
      var _ := manager.RemoveConnectedClientIf(id, owner.value.conn, calls.del);
      reply := S.Closed;
    }

    /** What Read defers to its end. */
    method ReadExit(c: Client, del: bool)
      requires pool.Knows(c)
      modifies this, pool, manager
      ensures Shows(S.ReadExit(old(Sees(c.id)), c.conn, del), c.id, old(sent), c.id)
    {
      var removed := pool.Unregister(c);
      if removed {
        var _ := manager.RemoveConnectedClientIf(c.id, c.conn, del);
        gauge := gauge - 1;
      }
    }

    /** The force_close branch of deliverToLocalClient; false when the client is
        not in the pool. */
    method DeliverForceClose(id: string) returns (local: bool)
      modifies this, pool
      ensures local == (id in old(pool.Contents()))
      ensures Local() == S.ForceCloseAt(old(Local()), id) && sent == old(sent)
    {
      var c := pool.ForceClose(id);
      local := c != null;
      if local {
        forced := forced + 1;
      } else {
        assert pool.Contents() == old(pool.Contents());
      }
    }
  }
}
