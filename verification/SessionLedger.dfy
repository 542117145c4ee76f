/** The open-connections gauge, and who may take rows and pool entries away. */
module SessionLedger {
  import opened Cluster
  import opened Sessions
  import opened Ownership

  // ----- The gauge -----

  /** The gauge counts the pool, and what it drifts by: entries taken over in
      place or closed by a delivered force_close were never counted down,
      registrations that failed on their trigger never counted up. */
  predicate Balanced(pod: Pod) {
    pod.gauge == |pod.pool| + pod.overwritten + pod.forced - pod.failed
  }

  lemma Removed(m: map<string, nat>, id: string)
    requires id in m
    ensures |m - {id}| == |m| - 1
  {
    assert (m - {id}).Keys == m.Keys - {id};
  }

  lemma Inserted(m: map<string, nat>, id: string, conn: nat)
    ensures |m[id := conn]| == |m| + if id in m then 0 else 1
  {
    assert m[id := conn].Keys == m.Keys + {id};
  }

  lemma EvictBalanced(v: View, p: nat, id: string, owner: Row, calls: Calls)
    requires Balanced(v.pod) && EvictOwner(v, p, id, owner, calls).Some?
    ensures Balanced(EvictOwner(v, p, id, owner, calls).value.pod)
  {
    if id in v.pod.pool {
      Removed(v.pod.pool, id);
    }
  }

  lemma RegisterBalanced(v: View, p: nat, conn: nat, r: Request, beats: set<nat>, calls: Calls)
    requires Balanced(v.pod)
    ensures Balanced(Register(v, p, conn, r, beats, calls).0.pod)
  {
    Inserted(v.pod.pool, r.id, conn);
    if r.id in v.store.rows {
      var owner := v.store.rows[r.id];
      var evicted := EvictOwner(v, p, r.id, owner, calls);
      if evicted.Some? {
        EvictBalanced(v, p, r.id, owner, calls);
        Inserted(evicted.value.pod.pool, r.id, conn);
      }
    }
  }

  lemma CloseBalanced(v: View, p: nat, id: string, token: string, calls: Calls)
    requires Balanced(v.pod)
    ensures Balanced(CloseSession(v, p, id, token, calls).0.pod)
  {
    if id in v.store.rows && EvictOwner(v, p, id, v.store.rows[id], calls).Some? {
      EvictBalanced(v, p, id, v.store.rows[id], calls);
    }
  }

  lemma BalancedAfter(f: Fleet, e: Action, p: nat)
    requires Possible(f, e) && p < |f.pods| && Balanced(f.pods[p])
    ensures |After(f, e).pods| == |f.pods| && Balanced(After(f, e).pods[p])
  {
    hide Register, CloseSession, ReadExit, Sweep, Fate;
    if ByConnection(e) {
      HandlersBalanced(f, e, p);
    } else if e.Handle? && e.who == p && e.id in f.pods[p].pool {
      Removed(f.pods[p].pool, e.id);
    }
  }

  lemma HandlersBalanced(f: Fleet, e: Action, p: nat)
    requires Possible(f, e) && p < |f.pods| && Balanced(f.pods[p]) && ByConnection(e)
    ensures |After(f, e).pods| == |f.pods| && Balanced(After(f, e).pods[p])
  {
    hide Register, CloseSession, ReadExit, Balanced;
    match e
    case Enrol(c, r, calls) =>
      if f.home[c] == p {
        RegisterBalanced(ViewOf(f, c), p, c, r, f.beats, calls);
      }
    case Hangup(c, id, token, calls) =>
      if f.home[c] == p {
        CloseBalanced(ViewOf(f, c), p, id, token, calls);
      }
    case Exit(c, del) =>
      if f.home[c] == p {
        ExitBalanced(ViewOf(f, c), c, del);
      }
  }

  lemma ExitBalanced(v: View, conn: nat, del: bool)
    requires Balanced(v.pod)
    ensures Balanced(ReadExit(v, conn, del).pod)
  {
    if v.name in v.pod.pool {
      Removed(v.pod.pool, v.name);
    }
  }

  /** In every run, whatever fails on the way, each pod's gauge is its pool size
      plus the entries overwritten or force-closed, less the registrations that
      failed late; so it is the pool size exactly when those cancel out. */
  lemma {:induction false} GaugeLedger(n: nat, limit: int, es: seq<Action>, p: nat)
    requires Replay(Empty(n, limit), es).Some? && p < n
    ensures var f := Replay(Empty(n, limit), es).value;
      && |f.pods| == n
      && f.pods[p].gauge == |f.pods[p].pool| + f.pods[p].overwritten + f.pods[p].forced - f.pods[p].failed
      && (f.pods[p].gauge == |f.pods[p].pool| <==> f.pods[p].overwritten + f.pods[p].forced == f.pods[p].failed)
  {
    if es != [] {
      var init := es[..|es| - 1];
      var f := Replay(Empty(n, limit), init).value;
      GaugeLedger(n, limit, init, p);
      BalancedAfter(f, es[|es| - 1], p);
    }
  }

  // ----- Who may remove what -----

  /** The presence cleanup deletes a row, whatever happened since its scan read
      it, exactly when the row is still the one it read, its pod has no
      heartbeat now and the client was last seen before the cutoff; and such a
      row belongs to no connection in any pool. */
  lemma CleanupAfterAnything(n: nat, limit: int, before: seq<Action>, between: seq<Action>, id: string, cutoff: int)
    requires Replay(Empty(n, limit), before).Some? && id in Replay(Empty(n, limit), before).value.store.rows
    requires Replay(Empty(n, limit), before + between).Some?
    ensures var scanned := Replay(Empty(n, limit), before).value.store.rows[id];
      var f := Replay(Empty(n, limit), before + between).value;
      var g := After(f, Cleanup(id, scanned, cutoff));
      && (g.store.rows != f.store.rows <==>
            && id in f.store.rows && f.store.rows[id] == scanned
            && scanned.pod !in f.beats
            && id in f.store.seen && f.store.seen[id] < cutoff)
      && (forall x :: x in f.store.seen ==>
            (x !in g.store.seen <==> x == id && g.store.rows != f.store.rows)
            && (x in g.store.seen ==> g.store.seen[x] == f.store.seen[x]))
      && (forall x :: x in f.store.rows && x !in g.store.rows ==>
            && x == id
            && (forall p, y :: 0 <= p < |f.pods| && y in f.pods[p].pool ==> f.pods[p].pool[y] != scanned.conn))
      && (forall x :: x in g.store.rows ==> x in f.store.rows && g.store.rows[x] == f.store.rows[x])
  {
    AlwaysGrounded(n, limit, before + between);
  }

  /** Why a presence row may go or change hands in one step. */
  predicate RowMayChange(f: Fleet, e: Action, id: string)
    requires id in f.store.rows
  {
    var row := f.store.rows[id];
    match e
    case Enrol(_, r, calls) =>
      r.id == id && (row.token == "" || row.token == r.token || row.pod !in f.beats || !calls.answered)
    case Hangup(_, x, token, _) => x == id && (row.token == "" || row.token == token)
    case Exit(c, _) =>
      row.conn == c && row.pod < |f.pods| && id in f.pods[row.pod].pool && f.pods[row.pod].pool[id] == c
    case Cleanup(x, expected, cutoff) =>
      && x == id && row == expected && row.pod !in f.beats && id in f.store.seen && f.store.seen[id] < cutoff
    case _ => false
  }

  /** Why a connection may lose its place in a pool in one step. */
  predicate EntryMayGo(f: Fleet, e: Action, p: nat, id: string)
    requires p < |f.pods| && id in f.pods[p].pool
  {
    match e
    case Enrol(c, r, _) => r.id == id && c in f.home && f.home[c] == p
    case Hangup(c, x, token, _) =>
      && x == id && c in f.home && f.home[c] == p
      && id in f.store.rows && f.store.rows[id].pod == p
      && (f.store.rows[id].token == "" || f.store.rows[id].token == token)
    case Exit(c, _) => f.pods[p].pool[id] == c
    case Handle(who, pod, x, _) => x == id && who == p && pod < |f.inbox| && id in f.inbox[pod]
    case Crash(q) => q == p
    case _ => false
  }

  lemma CloseNeedsTheToken(v: View, p: nat, id: string, token: string, calls: Calls)
    requires v.told.None?
    ensures var w := CloseSession(v, p, id, token, calls).0;
      var allowed := id in v.store.rows && (v.store.rows[id].token == "" || v.store.rows[id].token == token);
      && (!allowed ==> w == v)
      && (allowed && v.store.rows[id].pod != p ==> w.pod == v.pod)
  {
  }

  lemma RegisterNeedsTheToken(v: View, p: nat, conn: nat, r: Request, beats: set<nat>, calls: Calls)
    requires r.id in v.store.rows
    requires var row := v.store.rows[r.id];
      row.token != "" && row.token != r.token && row.pod in beats && calls.answered
    ensures Register(v, p, conn, r, beats, calls).0 == v
  {
  }

  /** In a state of any run, a row is never taken from its holder but by a registration or a close
      with the right token, by the holder's own exit, or when its pod is down. */
  lemma RowsAreProtected(f: Fleet, e: Action, id: string)
    requires Grounded(f) && Possible(f, e) && id in f.store.rows && !RowMayChange(f, e, id)
    ensures var g := After(f, e);
      id in g.store.rows && g.store.rows[id] == f.store.rows[id]
  {
    hide Register, CloseSession, Fate;
    match e
    case Enrol(c, r, calls) =>
      RegisterCareful(ViewOf(f, c), f.home[c], c, r, f.beats, calls);
      if r.id == id {
        RegisterNeedsTheToken(ViewOf(f, c), f.home[c], c, r, f.beats, calls);
      }
    case Hangup(c, x, token, calls) =>
      CloseCareful(ViewOf(f, c), f.home[c], c, x, token, f.beats, calls);
      CloseNeedsTheToken(ViewOf(f, c), f.home[c], x, token, calls);
    case _ =>
  }

  /** Nor does a connection lose its place in a pool for any other reason. */
  lemma PoolsAreProtected(f: Fleet, e: Action, p: nat, id: string)
    requires Grounded(f) && Possible(f, e)
    requires p < |f.pods| && id in f.pods[p].pool && !EntryMayGo(f, e, p, id)
    ensures var g := After(f, e);
      p < |g.pods| && id in g.pods[p].pool && g.pods[p].pool[id] == f.pods[p].pool[id]
  {
    hide Register, CloseSession, Fate, Sweep;
    match e
    case Enrol(c, r, calls) =>
      RegisterCareful(ViewOf(f, c), f.home[c], c, r, f.beats, calls);
    case Hangup(c, x, token, calls) =>
      CloseCareful(ViewOf(f, c), f.home[c], c, x, token, f.beats, calls);
      CloseNeedsTheToken(ViewOf(f, c), f.home[c], x, token, calls);
    case _ =>
  }

  /** However late a connection's Read returns, it takes away nothing of a
      connection that has taken over. */
  lemma ExitTouchesOnlyItsOwn(n: nat, limit: int, es: seq<Action>, c: nat, del: bool, d: nat)
    requires Replay(Empty(n, limit), es).Some? && Possible(Replay(Empty(n, limit), es).value, Exit(c, del)) && c != d
    ensures var f := Replay(Empty(n, limit), es).value;
      var g := After(f, Exit(c, del));
      && |g.pods| == |f.pods|
      && (forall id :: id in f.store.rows && f.store.rows[id].conn == d ==>
            id in g.store.rows && g.store.rows[id] == f.store.rows[id])
      && (forall p, id :: 0 <= p < |f.pods| && id in f.pods[p].pool && f.pods[p].pool[id] == d ==>
            id in g.pods[p].pool && g.pods[p].pool[id] == d)
  {
    AlwaysGrounded(n, limit, es);
  }

  // ----- What force_close does not say -----

  lemma Then(f: Fleet, es: seq<Action>, e: Action)
    requires Replay(f, es).Some? && Possible(Replay(f, es).value, e)
    ensures Replay(f, es + [e]) == Some(After(Replay(f, es).value, e))
  {
    assert (es + [e])[..|es + [e]| - 1] == es;
  }

  function AllCalls(): Calls {
    Calls(true, true, true, true, true, true, true, true, true)
  }

  function Visit(conn: nat): Action {
    Enrol(conn, Request("a", "cb", ""), AllCalls())
  }

  /** Two pods with heartbeats, where client "a" has an open row. */
  predicate TwoPods(f: Fleet) {
    && |f.pods| == 2 && |f.inbox| == 2 && f.beats == {0, 1}
    && ("a" in f.store.rows ==> f.store.rows["a"].pod < 2 && f.store.rows["a"].token == "")
  }

  function Visited(f: Fleet, pod: nat, conn: nat): Fleet
    requires TwoPods(f) && pod < 2 && conn !in f.home
  {
    After(After(f, Connect(pod, conn)), Visit(conn))
  }

  /** The connection is there under the name "a"; other pods and connections are as
      before. */
  predicate Arrived(f: Fleet, g: Fleet, pod: nat, conn: nat) {
    && |g.pods| == |f.pods| && g.limit == f.limit
    && (forall q :: 0 <= q < |f.pods| && q != pod ==> g.pods[q] == f.pods[q])
    && conn in g.open && conn in g.home && g.home[conn] == pod && conn in g.names && g.names[conn] == "a"
    && (forall c :: c in f.open && c in f.home && c in f.names ==>
          c in g.open && c in g.home && g.home[c] == f.home[c] && c in g.names && g.names[c] == f.names[c])
  }

  lemma VisitRegisters(v: View, pod: nat, conn: nat, beats: set<nat>)
    requires v.told.None?
    requires "a" in v.store.rows ==> v.store.rows["a"].token == "" && v.store.rows["a"].pod in beats
    ensures var (w, reply) := Register(v, pod, conn, Request("a", "cb", ""), beats, AllCalls());
      && w.store.rows == v.store.rows["a" := Row(pod, conn, "")] && w.name == "a"
      && "a" in w.pod.pool && w.pod.pool["a"] == conn
      && ("a" in v.store.rows && v.store.rows["a"].pod != pod ==> w.told == Some(v.store.rows["a"].pod))
  {
  }

  /** A new connection registers for the client: the row and the pool entry are
      its own, and the pod of the previous owner is told. */
  lemma VisitTakesOver(limit: int, f: Fleet, es: seq<Action>, pod: nat, conn: nat)
    requires TwoPods(f) && pod < 2 && conn !in f.home && Replay(Empty(2, limit), es) == Some(f)
    ensures var g := Visited(f, pod, conn);
      && Replay(Empty(2, limit), es + [Connect(pod, conn), Visit(conn)]) == Some(g)
      && TwoPods(g) && g.home.Keys == f.home.Keys + {conn}
      && "a" in g.store.rows && g.store.rows["a"] == Row(pod, conn, "")
      && "a" in g.pods[pod].pool && g.pods[pod].pool["a"] == conn
      && Arrived(f, g, pod, conn)
      && (forall q :: 0 <= q < 2 && "a" in f.inbox[q] ==> "a" in g.inbox[q])
      && ("a" in f.store.rows && f.store.rows["a"].pod != pod ==> "a" in g.inbox[f.store.rows["a"].pod])
  {
    hide Register, Replay, AllCalls;
    var met := After(f, Connect(pod, conn));
    VisitRegisters(ViewOf(met, conn), pod, conn, f.beats);
    Then(Empty(2, limit), es, Connect(pod, conn));
    Then(Empty(2, limit), es + [Connect(pod, conn)], Visit(conn));
    assert es + [Connect(pod, conn), Visit(conn)] == es + [Connect(pod, conn)] + [Visit(conn)];
  }

  const VISITS: seq<Action> :=
    [Beat(0), Beat(1)] + [Connect(0, 1), Visit(1)] + [Connect(1, 2), Visit(2)] + [Connect(0, 3), Visit(3)]

  /** A force_close names a client, not a connection: when the client comes back
      to the pod it left, the late message closes the new connection, the one
      its row records. */
  lemma LateForceCloseHitsTheNewOwner(limit: int)
    ensures Replay(Empty(2, limit), VISITS).Some?
    ensures var f := Replay(Empty(2, limit), VISITS).value;
      && |f.pods| == 2 && Possible(f, Handle(0, 0, "a", 0))
      && "a" in f.store.rows && f.store.rows["a"] == Row(0, 3, "")
      && "a" in f.pods[0].pool && f.pods[0].pool["a"] == 3
    ensures var f := Replay(Empty(2, limit), VISITS).value;
      var g := After(f, Handle(0, 0, "a", 0));
      && |g.pods| == 2 && "a" !in g.pods[0].pool
      && "a" in g.store.rows && g.store.rows["a"] == Row(0, 3, "")
  {
    hide Replay, After, Possible;
    var f0 := TwoBeats(limit);
    var f := Returns(limit, f0, [Beat(0), Beat(1)]);
    LateHandling(f);
  }

  lemma TwoBeats(limit: int) returns (f: Fleet)
    ensures Replay(Empty(2, limit), [Beat(0), Beat(1)]) == Some(f) && TwoPods(f) && f.home == map[]
  {
    Then(Empty(2, limit), [], Beat(0));
    assert [] + [Beat(0)] == [Beat(0)];
    Then(Empty(2, limit), [Beat(0)], Beat(1));
    assert [Beat(0)] + [Beat(1)] == [Beat(0), Beat(1)];
    f := Replay(Empty(2, limit), [Beat(0), Beat(1)]).value;
  }

  lemma LateHandling(f: Fleet)
    requires TwoPods(f) && "a" in f.pods[0].pool && "a" in f.inbox[0]
    ensures Possible(f, Handle(0, 0, "a", 0))
    ensures var g := After(f, Handle(0, 0, "a", 0));
      |g.pods| == 2 && "a" !in g.pods[0].pool && g.store == f.store
  {
    assert Fate(f, 0, 0, "a", 0) == Deliver;
  }

  lemma Returns(limit: int, f: Fleet, es: seq<Action>) returns (g: Fleet)
    requires Replay(Empty(2, limit), es) == Some(f) && TwoPods(f) && f.home == map[]
    ensures var all := es + [Connect(0, 1), Visit(1)] + [Connect(1, 2), Visit(2)] + [Connect(0, 3), Visit(3)];
      && Replay(Empty(2, limit), all) == Some(g)
      && TwoPods(g)
      && "a" in g.store.rows && g.store.rows["a"] == Row(0, 3, "")
      && "a" in g.pods[0].pool && g.pods[0].pool["a"] == 3 && "a" in g.inbox[0]
  {
    hide Visited, After, Possible, Replay;
    VisitTakesOver(limit, f, es, 0, 1);
    var f1 := Visited(f, 0, 1);
    VisitTakesOver(limit, f1, es + [Connect(0, 1), Visit(1)], 1, 2);
    var f2 := Visited(f1, 1, 2);
    VisitTakesOver(limit, f2, es + [Connect(0, 1), Visit(1)] + [Connect(1, 2), Visit(2)], 0, 3);
    g := Visited(f2, 0, 3);
  }
}
