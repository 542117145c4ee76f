/** What holds of pools, presence rows and force_close messages in every
    reachable state of the fleet. */
module Ownership {
  import opened Cluster
  import opened Sessions

  /** Pod p's entry for a client is the recorded one, or p has been told to
      close the client. */
  predicate Covered(f: Fleet, p: nat, id: string)
    requires p < |f.pods| && p < |f.inbox| && id in f.pods[p].pool
  {
    OnRow(f, p, id) || id in f.inbox[p]
  }

  /** The client's row names pod p's entry. */
  predicate OnRow(f: Fleet, p: nat, id: string)
    requires p < |f.pods| && id in f.pods[p].pool
  {
    id in f.store.rows && f.store.rows[id].pod == p && f.store.rows[id].conn == f.pods[p].pool[id]
  }

  ghost predicate Coverage(f: Fleet) {
    |f.inbox| == |f.pods| && forall p: nat, id :: p < |f.pods| && id in f.pods[p].pool ==> Covered(f, p, id)
  }

  /** Connections stay on their pod, rows and pools name real connections, and
      a pod that holds connections has its heartbeat. */
  ghost predicate Grounded(f: Fleet) {
    && |f.inbox| == |f.pods|
    && f.names.Keys == f.home.Keys
    && (forall c :: c in f.home ==> f.home[c] < |f.pods|)
    && (forall id :: id in f.store.rows ==>
          f.store.rows[id].conn in f.home && f.home[f.store.rows[id].conn] == f.store.rows[id].pod)
    && (forall p: nat, id :: p < |f.pods| && id in f.pods[p].pool ==>
          id != "" && p in f.beats && f.pods[p].pool[id] in f.home && f.home[f.pods[p].pool[id]] == p)
  }

  /** A registration that asked for a heartbeat got an answer, whoever evicts has
      a router to do so with, and a force_close is worked on, before it is too
      old and without being trimmed away. */
  predicate Sound(e: Action, limit: int) {
    && (e.Enrol? ==> e.calls.answered && e.calls.routed)
    && (e.Hangup? ==> e.calls.routed)
    && (e.Handle? ==> InTime(e.age, limit))
    && !e.Lose?
  }

  predicate InTime(age: nat, limit: int) {
    limit > 0 ==> age <= limit
  }

  predicate AllSound(es: seq<Action>, limit: int) {
    forall i :: 0 <= i < |es| ==> Sound(es[i], limit)
  }

  // ----- One handler -----

  predicate Recorded(v: View, p: nat, id: string) {
    id in v.pod.pool && id in v.store.rows && v.store.rows[id].pod == p && v.store.rows[id].conn == v.pod.pool[id]
  }

  /** The effect of a handler of connection `conn` on pod `p`, for client `id`:
      nothing changes for other clients; what appears is the handler's own; its
      pod's entry ends up recorded or was not recorded before; and another
      owner's row goes only when that pod is told so or has no heartbeat. */
  ghost predicate Careful(v: View, w: View, p: nat, conn: nat, id: string) {
    && (forall x :: x != id ==>
          && (x in v.pod.pool <==> x in w.pod.pool) && (x in v.pod.pool ==> v.pod.pool[x] == w.pod.pool[x])
          && (x in v.store.rows <==> x in w.store.rows) && (x in v.store.rows ==> v.store.rows[x] == w.store.rows[x]))
    && (id in w.store.rows ==>
          (id in v.store.rows && w.store.rows[id] == v.store.rows[id])
          || (w.store.rows[id].pod == p && w.store.rows[id].conn == conn))
    && (id in w.pod.pool ==>
          || (id in v.pod.pool && w.pod.pool[id] == v.pod.pool[id])
          || (id != "" && w.pod.pool[id] == conn))
  }

  ghost predicate Handover(v: View, w: View, p: nat, id: string, beats: set<nat>) {
    && (id in w.pod.pool ==>
          Recorded(w, p, id) || (id in v.pod.pool && w.pod.pool[id] == v.pod.pool[id] && !Recorded(v, p, id)))
    && (id in v.store.rows && v.store.rows[id].pod != p && v.store.rows[id].pod in beats ==>
          || (id in w.store.rows && w.store.rows[id] == v.store.rows[id])
          || w.told == Some(v.store.rows[id].pod))
  }

  lemma RegisterCareful(v: View, p: nat, conn: nat, r: Request, beats: set<nat>, calls: Calls)
    requires v.told.None? && p in beats
    ensures Careful(v, Register(v, p, conn, r, beats, calls).0, p, conn, r.id)
  {
  }

  lemma RegisterHandsOver(v: View, p: nat, conn: nat, r: Request, beats: set<nat>, calls: Calls)
    requires v.told.None? && p in beats
    requires (calls.answered && calls.routed) || !calls.get || r.id !in v.store.rows
    ensures Handover(v, Register(v, p, conn, r, beats, calls).0, p, r.id, beats)
  {
  }

  lemma CloseCareful(v: View, p: nat, conn: nat, id: string, token: string, beats: set<nat>, calls: Calls)
    requires v.told.None?
    ensures Careful(v, CloseSession(v, p, id, token, calls).0, p, conn, id)
    ensures calls.routed ==> Handover(v, CloseSession(v, p, id, token, calls).0, p, id, beats)
  {
  }

  lemma ExitCareful(v: View, p: nat, conn: nat, beats: set<nat>, del: bool)
    requires v.name in v.store.rows && v.store.rows[v.name].conn == conn ==> v.store.rows[v.name].pod == p
    ensures Careful(v, ReadExit(v, conn, del), p, conn, v.name)
    ensures Handover(v, ReadExit(v, conn, del), p, v.name, beats)
  {
  }

  lemma ViewGrounded(f: Fleet, conn: nat, id: string, w: View)
    requires Grounded(f) && conn in f.home
    requires f.home[conn] in f.beats || (id in w.pod.pool ==> id in f.pods[f.home[conn]].pool)
    requires Careful(ViewOf(f, conn), w, f.home[conn], conn, id)
    ensures Grounded(WithView(f, conn, id, w))
  {
    var p, g := f.home[conn], WithView(f, conn, id, w);
    forall q: nat, x | q < |g.pods| && x in g.pods[q].pool
      ensures x != "" && q in g.beats && g.pods[q].pool[x] in g.home && g.home[g.pods[q].pool[x]] == q
    {
      if q != p || x != id {
        assert x in f.pods[q].pool;
      }
    }
  }

  lemma ViewCovered(f: Fleet, conn: nat, id: string, w: View)
    requires Grounded(f) && Coverage(f) && conn in f.home
    requires Careful(ViewOf(f, conn), w, f.home[conn], conn, id)
    requires Handover(ViewOf(f, conn), w, f.home[conn], id, f.beats)
    ensures Coverage(WithView(f, conn, id, w))
  {
    var p, g := f.home[conn], WithView(f, conn, id, w);
    forall q: nat, x | q < |g.pods| && x in g.pods[q].pool ensures Covered(g, q, x) {
      if q != p || x != id || !Recorded(w, p, id) {
        assert x in f.pods[q].pool && Covered(f, q, x);
      }
    }
  }

  // ----- One step -----

  predicate ByConnection(e: Action) {
    e.Enrol? || e.Hangup? || e.Exit?
  }

  lemma HandlersGrounded(f: Fleet, e: Action)
    requires Grounded(f) && Possible(f, e) && ByConnection(e)
    ensures Grounded(After(f, e))
  {
    match e
    case Enrol(c, r, calls) =>
      RegisterCareful(ViewOf(f, c), f.home[c], c, r, f.beats, calls);
      ViewGrounded(f, c, r.id, Register(ViewOf(f, c), f.home[c], c, r, f.beats, calls).0);
    case Hangup(c, id, token, calls) =>
      CloseCareful(ViewOf(f, c), f.home[c], c, id, token, f.beats, calls);
      ViewGrounded(f, c, id, CloseSession(ViewOf(f, c), f.home[c], id, token, calls).0);
    case Exit(c, del) =>
      ExitCareful(ViewOf(f, c), f.home[c], c, f.beats, del);
      ViewGrounded(f, c, f.names[c], ReadExit(ViewOf(f, c), c, del));
  }

  lemma HandlersCover(f: Fleet, e: Action)
    requires Grounded(f) && Coverage(f) && Possible(f, e) && ByConnection(e) && Sound(e, f.limit)
    ensures Coverage(After(f, e))
  {
    match e
    case Enrol(c, r, calls) =>
      RegisterCareful(ViewOf(f, c), f.home[c], c, r, f.beats, calls);
      RegisterHandsOver(ViewOf(f, c), f.home[c], c, r, f.beats, calls);
      ViewCovered(f, c, r.id, Register(ViewOf(f, c), f.home[c], c, r, f.beats, calls).0);
    case Hangup(c, id, token, calls) =>
      CloseCareful(ViewOf(f, c), f.home[c], c, id, token, f.beats, calls);
      ViewCovered(f, c, id, CloseSession(ViewOf(f, c), f.home[c], id, token, calls).0);
    case Exit(c, del) =>
      ExitCareful(ViewOf(f, c), f.home[c], c, f.beats, del);
      ViewCovered(f, c, f.names[c], ReadExit(ViewOf(f, c), c, del));
  }

  lemma GroundedAfter(f: Fleet, e: Action)
    requires Grounded(f) && Possible(f, e)
    ensures Grounded(After(f, e)) && After(f, e).limit == f.limit
  {
    if ByConnection(e) {
      HandlersGrounded(f, e);
    }
  }

  /** A force_close leaves a stream either with the entry it was meant for, or
      because there was none, or for another stream. */
  lemma HandlingCovers(f: Fleet, who: nat, pod: nat, id: string, age: nat)
    requires Grounded(f) && Coverage(f) && Possible(f, Handle(who, pod, id, age)) && InTime(age, f.limit)
    ensures Coverage(After(f, Handle(who, pod, id, age)))
  {
    var g := After(f, Handle(who, pod, id, age));
    if Fate(f, who, pod, id, age).Keep? {
      assert g == f;
    } else {
      assert pod in f.beats ==> who == pod;
      assert id in f.pods[pod].pool ==> Fate(f, who, pod, id, age) == Deliver;
      assert pod < |g.pods| ==> id !in g.pods[pod].pool;
      forall p: nat, x | p < |g.pods| && x in g.pods[p].pool ensures Covered(g, p, x) {
        assert x in f.pods[p].pool && g.pods[p].pool[x] == f.pods[p].pool[x];
        assert Covered(f, p, x);
        assert f.inbox[p][x] <= g.inbox[p][x];
      }
    }
  }

  lemma CoverageAfter(f: Fleet, e: Action)
    requires Grounded(f) && Coverage(f) && Possible(f, e) && Sound(e, f.limit)
    ensures Coverage(After(f, e))
  {
    if ByConnection(e) {
      HandlersCover(f, e);
    } else if e.Handle? {
      HandlingCovers(f, e.who, e.pod, e.id, e.age);
    } else {
      var g := After(f, e);
      forall p: nat, id | p < |g.pods| && id in g.pods[p].pool ensures Covered(g, p, id) {
        assert id in f.pods[p].pool && Covered(f, p, id);
      }
    }
  }

  // ----- Every run -----

  lemma {:induction false} AlwaysGrounded(n: nat, limit: int, es: seq<Action>)
    requires Replay(Empty(n, limit), es).Some?
    ensures Grounded(Replay(Empty(n, limit), es).value) && Replay(Empty(n, limit), es).value.limit == limit
  {
    if es != [] {
      AlwaysGrounded(n, limit, es[..|es| - 1]);
      GroundedAfter(Replay(Empty(n, limit), es[..|es| - 1]).value, es[|es| - 1]);
    }
  }

  /** Ownership coverage: in every run in which no registration's heartbeat
      check fails, whatever else fails, each pool entry is the one recorded in
      the client's row or its pod has an unacknowledged force_close for it. */
  lemma {:induction false} OwnershipCoverage(n: nat, limit: int, es: seq<Action>)
    requires Replay(Empty(n, limit), es).Some? && AllSound(es, limit)
    ensures Coverage(Replay(Empty(n, limit), es).value)
  {
    if es != [] {
      var init := es[..|es| - 1];
      OwnershipCoverage(n, limit, init);
      AlwaysGrounded(n, limit, init);
      assert Sound(es[|es| - 1], limit);
      CoverageAfter(Replay(Empty(n, limit), init).value, es[|es| - 1]);
    }
  }

  /** Once a client's force_close messages are worked off, at most one pod holds
      the client, and with the very connection its row records. */
  lemma SingleOwner(n: nat, limit: int, es: seq<Action>, id: string, p: nat)
    requires Replay(Empty(n, limit), es).Some? && AllSound(es, limit)
    requires var f := Replay(Empty(n, limit), es).value;
      && (forall q :: 0 <= q < |f.inbox| ==> id !in f.inbox[q])
      && p < |f.pods| && id in f.pods[p].pool
    ensures var f := Replay(Empty(n, limit), es).value;
      && id in f.store.rows
      && f.store.rows[id].pod == p && f.store.rows[id].conn == f.pods[p].pool[id]
      && (forall q :: 0 <= q < |f.pods| && q != p ==> id !in f.pods[q].pool)
  {
    OwnershipCoverage(n, limit, es);
    var f := Replay(Empty(n, limit), es).value;
    forall q: nat | q < |f.pods| && id in f.pods[q].pool ensures q == f.store.rows[id].pod {
      assert Covered(f, q, id);
    }
    assert Covered(f, p, id);
  }

  /** A registration that succeeds owns the client, and every other pod that
      still holds the client has been told to let go. */
  lemma TakeoverTellsTheOthers(n: nat, limit: int, es: seq<Action>, c: nat, r: Request, calls: Calls)
    requires Replay(Empty(n, limit), es).Some? && AllSound(es, limit) && calls.answered && calls.routed
    requires var f := Replay(Empty(n, limit), es).value;
      Possible(f, Enrol(c, r, calls)) && Register(ViewOf(f, c), f.home[c], c, r, f.beats, calls).1 == Registered
    ensures var f := Replay(Empty(n, limit), es).value;
      var g := After(f, Enrol(c, r, calls));
      && r.id in g.store.rows && g.store.rows[r.id] == Row(f.home[c], c, r.token)
      && r.id in g.pods[f.home[c]].pool && g.pods[f.home[c]].pool[r.id] == c
      && |g.inbox| == |g.pods|
      && (forall q :: 0 <= q < |g.pods| && q != f.home[c] && r.id in g.pods[q].pool ==> r.id in g.inbox[q])
  {
    OwnershipCoverage(n, limit, es);
    AlwaysGrounded(n, limit, es);
    var f := Replay(Empty(n, limit), es).value;
    CoverageAfter(f, Enrol(c, r, calls));
    var g := After(f, Enrol(c, r, calls));
    forall q: nat | q < |g.pods| && q != f.home[c] && r.id in g.pods[q].pool ensures r.id in g.inbox[q] {
      assert Covered(g, q, r.id);
    }
  }

  /** Register reads a failed heartbeat check as a dead pod. It then forgets a
      live owner's row and tells nobody, so coverage is lost exactly when the
      row's pod does hold the client and has no force_close waiting. */
  predicate Orphans(f: Fleet, r: Request, calls: Calls) {
    && r.id != "" && r.callback != ""
    && calls.get && calls.del
    && r.id in f.store.rows
    && f.store.rows[r.id].pod < |f.pods| && f.store.rows[r.id].pod < |f.inbox|
    && r.id in f.pods[f.store.rows[r.id].pod].pool
    && r.id !in f.inbox[f.store.rows[r.id].pod]
  }

  lemma UnansweredHeartbeat(f: Fleet, c: nat, r: Request, calls: Calls)
    requires Grounded(f) && Coverage(f) && Possible(f, Enrol(c, r, calls)) && !calls.answered
    ensures Coverage(After(f, Enrol(c, r, calls))) <==> !Orphans(f, r, calls)
  {
    var g := After(f, Enrol(c, r, calls));
    if !calls.get || r.id !in f.store.rows {
      RegisterCareful(ViewOf(f, c), f.home[c], c, r, f.beats, calls);
      RegisterHandsOver(ViewOf(f, c), f.home[c], c, r, f.beats, calls);
      ViewCovered(f, c, r.id, Register(ViewOf(f, c), f.home[c], c, r, f.beats, calls).0);
    } else if Orphans(f, r, calls) {
      assert !Covered(g, f.store.rows[r.id].pod, r.id);
    } else {
      forall p: nat, x | p < |g.pods| && x in g.pods[p].pool ensures Covered(g, p, x) {
        assert x in f.pods[p].pool && Covered(f, p, x);
      }
    }
  }

  /** The client's row names another pod, which holds the client and has not
      been told to let go. */
  predicate Untold(f: Fleet, p: nat, id: string) {
    && id in f.store.rows
    && f.store.rows[id].pod != p && f.store.rows[id].pod < |f.pods| && f.store.rows[id].pod < |f.inbox|
    && id in f.pods[f.store.rows[id].pod].pool
    && id !in f.inbox[f.store.rows[id].pod]
  }

  predicate TokenOk(owner: Row, token: string) {
    owner.token == "" || owner.token == token
  }

  /** Without a router nobody is told, so coverage is lost exactly when the row
      of such a pod is overwritten or removed. */
  lemma RegisterWithoutRouter(f: Fleet, c: nat, r: Request, calls: Calls)
    requires Grounded(f) && Coverage(f) && Possible(f, Enrol(c, r, calls)) && calls.answered && !calls.routed
    ensures Coverage(After(f, Enrol(c, r, calls))) <==>
      !(r.id != "" && r.callback != "" && calls.get && Untold(f, f.home[c], r.id)
        && TokenOk(f.store.rows[r.id], r.token) && calls.parsed && calls.add)
  {
    var (p, v) := (f.home[c], ViewOf(f, c));
    var w := Register(v, p, c, r, f.beats, calls).0;
    RegisterCareful(v, p, c, r, f.beats, calls);
    RegisterUntold(v, p, c, r, f.beats, calls);
    hide Register;
    assert After(f, Enrol(c, r, calls)) == WithView(f, c, r.id, w);
    if Untold(f, p, r.id) {
      assert Covered(f, f.store.rows[r.id].pod, r.id);
      if w.store.rows != f.store.rows {
        assert !Covered(WithView(f, c, r.id, w), f.store.rows[r.id].pod, r.id);
      } else {
        ViewCovered(f, c, r.id, w);
      }
    } else {
      NobodyUntold(f, c, r.id, w);
    }
  }

  lemma RegisterUntold(v: View, p: nat, conn: nat, r: Request, beats: set<nat>, calls: Calls)
    requires v.told.None? && p in beats && calls.answered && !calls.routed
    ensures var w := Register(v, p, conn, r, beats, calls).0;
      && w.told.None?
      && (r.id in w.pod.pool ==>
            Recorded(w, p, r.id)
            || (r.id in v.pod.pool && w.pod.pool[r.id] == v.pod.pool[r.id] && !Recorded(v, p, r.id)))
      && (r.id in v.store.rows && v.store.rows[r.id].pod in beats && v.store.rows[r.id].pod != p ==>
            (w.store.rows != v.store.rows <==>
               r.id != "" && r.callback != "" && calls.get && TokenOk(v.store.rows[r.id], r.token)
               && calls.parsed && calls.add)
            && (w.store.rows != v.store.rows ==> r.id in w.store.rows && w.store.rows[r.id] == Row(p, conn, r.token)))
  {
  }

  lemma NobodyUntold(f: Fleet, conn: nat, id: string, w: View)
    requires Grounded(f) && Coverage(f) && conn in f.home && w.told.None? && !Untold(f, f.home[conn], id)
    requires Careful(ViewOf(f, conn), w, f.home[conn], conn, id)
    requires var (p, v) := (f.home[conn], ViewOf(f, conn));
      id in w.pod.pool ==>
        Recorded(w, p, id) || (id in v.pod.pool && w.pod.pool[id] == v.pod.pool[id] && !Recorded(v, p, id))
    ensures Coverage(WithView(f, conn, id, w))
  {
    var g, p := WithView(f, conn, id, w), f.home[conn];
    forall q: nat, x | q < |g.pods| && x in g.pods[q].pool ensures Covered(g, q, x) {
      if q != p || x != id || !Recorded(w, p, id) {
        assert x in f.pods[q].pool && Covered(f, q, x);
      }
    }
  }

  lemma CloseWithoutRouter(f: Fleet, c: nat, id: string, token: string, calls: Calls)
    requires Grounded(f) && Coverage(f) && Possible(f, Hangup(c, id, token, calls)) && !calls.routed
    ensures Coverage(After(f, Hangup(c, id, token, calls))) <==>
      !(calls.get && Untold(f, f.home[c], id) && TokenOk(f.store.rows[id], token) && calls.del)
  {
    var g := After(f, Hangup(c, id, token, calls));
    if Untold(f, f.home[c], id) && id !in g.store.rows {
      assert !Covered(g, f.store.rows[id].pod, id);
    } else {
      forall q: nat, x | q < |g.pods| && x in g.pods[q].pool ensures Covered(g, q, x) {
        assert x in f.pods[q].pool && Covered(f, q, x);
      }
    }
  }

  /** The last force_close for a pool entry that its client's row does not name. */
  predicate LastWord(f: Fleet, pod: nat, id: string) {
    pod < |f.pods| && pod < |f.inbox| && id in f.pods[pod].pool && f.inbox[pod][id] == 1 && !OnRow(f, pod, id)
  }

  lemma TakingCovers(f: Fleet, pod: nat, id: string)
    requires Grounded(f) && Coverage(f) && pod < |f.inbox| && id in f.inbox[pod]
    ensures Coverage(f.(inbox := Take(f.inbox, pod, id))) <==> !LastWord(f, pod, id)
  {
    var g := f.(inbox := Take(f.inbox, pod, id));
    if LastWord(f, pod, id) {
      assert g.inbox[pod][id] == 0;
      assert !Covered(g, pod, id);
    } else {
      forall q: nat, x | q < |g.pods| && x in g.pods[q].pool ensures Covered(g, q, x) {
        assert x in f.pods[q].pool && Covered(f, q, x);
      }
    }
  }

  /** A force_close that is too old is dropped, so coverage is lost exactly when it was
      the last word to a pool entry. */
  lemma OverAgeHandling(f: Fleet, who: nat, pod: nat, id: string, age: nat)
    requires Grounded(f) && Coverage(f) && Possible(f, Handle(who, pod, id, age)) && !InTime(age, f.limit)
    ensures Coverage(After(f, Handle(who, pod, id, age))) <==> !LastWord(f, pod, id)
  {
    hide Coverage, LastWord;
    TakingCovers(f, pod, id);
    assert After(f, Handle(who, pod, id, age)) == f.(inbox := Take(f.inbox, pod, id));
  }

  /** And likewise when one is trimmed, evicted or force-acknowledged. */
  lemma LosingAForceClose(f: Fleet, pod: nat, id: string)
    requires Grounded(f) && Coverage(f) && Possible(f, Lose(pod, id))
    ensures Coverage(After(f, Lose(pod, id))) <==> !LastWord(f, pod, id)
  {
    hide Coverage, LastWord;
    TakingCovers(f, pod, id);
  }
}
