/** A force_close names a client, not a connection. When it can close the very
    connection that the client's row records. */
module ForceClose {
  import opened Cluster
  import opened Sessions
  import opened Ownership
  import opened SessionLedger

  /** No pod that holds a client's recorded connection has a force_close waiting for
      the client. */
  ghost predicate Harmless(f: Fleet) {
    forall p: nat, id :: p < |f.pods| && p < |f.inbox| && id in f.inbox[p] && id in f.pods[p].pool ==> !OnRow(f, p, id)
  }

  predicate Holds(f: Fleet, p: nat, id: string) {
    p < |f.pods| && id in f.pods[p].pool && OnRow(f, p, id)
  }

  /** The recorded owner is another pod, alive and with the connection, and gets told;
      the token is right. */
  predicate TellsOwner(f: Fleet, self: nat, id: string, token: string, calls: Calls) {
    && calls.get && id in f.store.rows && TokenOk(f.store.rows[id], token)
    && f.store.rows[id].pod != self && Holds(f, f.store.rows[id].pod, id)
    && calls.routed && calls.publish
  }

  /** A registration gets as far as reading the callback. */
  predicate Admitted(f: Fleet, self: nat, r: Request, calls: Calls) {
    && r.id != "" && r.callback != "" && calls.get
    && (r.id in f.store.rows ==>
          && calls.answered && f.store.rows[r.id].pod in f.beats && TokenOk(f.store.rows[r.id], r.token)
          && (f.store.rows[r.id].pod == self || !calls.routed || calls.publish))
  }

  /** The steps that put a recorded connection in danger: a registration on a pod with
      a force_close for the client waiting; a registration or a close that tells the
      owner and then fails; and a pass that moves a force_close to the pod that holds
      the recorded connection. */
  predicate Harms(f: Fleet, e: Action)
    requires Possible(f, e)
  {
    match e
    case Enrol(c, r, calls) =>
      || (Admitted(f, f.home[c], r, calls) && calls.parsed && calls.add
          && f.home[c] < |f.inbox| && r.id in f.inbox[f.home[c]])
      || (Admitted(f, f.home[c], r, calls) && TellsOwner(f, f.home[c], r.id, r.token, calls)
          && !(calls.parsed && calls.add))
    case Hangup(c, id, token, calls) => TellsOwner(f, f.home[c], id, token, calls) && !calls.del
    case Handle(who, p, id, age) =>
      && InTime(age, f.limit) && id != "" && id !in f.pods[who].pool && id in f.store.rows
      && f.store.rows[id].pod != who && f.store.rows[id].pod != p && Holds(f, f.store.rows[id].pod, id)
    case _ => false
  }

  // ----- Handlers -----

  /** What a handler on pod p leaves of the danger, seen from its view. */
  ghost predicate Cautious(f: Fleet, p: nat, id: string, w: View) {
    && (Recorded(w, p, id) ==> p < |f.inbox| && id !in f.inbox[p])
    && (w.told.Some? && w.told.value != p && w.told.value < |f.pods| && id in f.pods[w.told.value].pool
        && id in w.store.rows ==>
          !(w.store.rows[id].pod == w.told.value && w.store.rows[id].conn == f.pods[w.told.value].pool[id]))
  }

  lemma ViewHarmless(f: Fleet, conn: nat, id: string, w: View)
    requires Grounded(f) && Harmless(f) && conn in f.home && conn in f.names
    requires Careful(ViewOf(f, conn), w, f.home[conn], conn, id)
    requires w.told.Some? ==> w.told.value != f.home[conn] && w.told.value < |f.inbox|
    requires id in w.store.rows && w.store.rows[id].pod != f.home[conn] ==>
      id in f.store.rows && f.store.rows[id] == w.store.rows[id]
    ensures Harmless(WithView(f, conn, id, w)) <==> Cautious(f, f.home[conn], id, w)
  {
    var p, g := f.home[conn], WithView(f, conn, id, w);
    if Cautious(f, p, id, w) {
      forall q: nat, x | q < |g.pods| && q < |g.inbox| && x in g.inbox[q] && x in g.pods[q].pool
        ensures !OnRow(g, q, x)
      {
        if x != id {
          assert x in f.inbox[q] && x in f.pods[q].pool;
          assert OnRow(g, q, x) <==> OnRow(f, q, x);
        } else if q != p && w.told != Some(q) {
          assert x in f.inbox[q] && x in f.pods[q].pool;
        }
      }
    } else if Recorded(w, p, id) && id in f.inbox[p] {
      assert id in g.inbox[p] && id in g.pods[p].pool && OnRow(g, p, id);
    } else {
      var q := w.told.value;
      assert id in g.inbox[q] && id in g.pods[q].pool && OnRow(g, q, id);
    }
  }

  lemma RegisterCautious(f: Fleet, c: nat, r: Request, calls: Calls)
    requires Grounded(f) && Harmless(f) && Possible(f, Enrol(c, r, calls))
    ensures var (p, w) := (f.home[c], Register(ViewOf(f, c), f.home[c], c, r, f.beats, calls).0);
      && (w.told.Some? ==> w.told.value != p && w.told.value < |f.inbox|)
      && (r.id in w.store.rows && w.store.rows[r.id].pod != p ==>
            r.id in f.store.rows && f.store.rows[r.id] == w.store.rows[r.id])
      && (Cautious(f, p, r.id, w) <==> !Harms(f, Enrol(c, r, calls)))
  {
    var (p, v) := (f.home[c], ViewOf(f, c));
    if !Admitted(f, p, r, calls) {
      NotAdmitted(f, v, c, r, calls);
    } else {
      AdmittedAs(f, v, c, r, calls);
      hide Register, Admitted, Harmless;
    }
  }

  lemma NotAdmitted(f: Fleet, v: View, c: nat, r: Request, calls: Calls)
    requires Grounded(f) && Possible(f, Enrol(c, r, calls)) && v == ViewOf(f, c) && !Admitted(f, f.home[c], r, calls)
    ensures var w := Register(v, f.home[c], c, r, f.beats, calls).0;
      && w.told.None? && w.pod == v.pod
      && (r.id in w.store.rows ==> w.store == v.store)
  {
  }

  /** A registration that gets through to Admit, from the view it has by then. */
  lemma AdmittedAs(f: Fleet, v: View, c: nat, r: Request, calls: Calls)
    requires Grounded(f) && Possible(f, Enrol(c, r, calls)) && v == ViewOf(f, c) && Admitted(f, f.home[c], r, calls)
    ensures var (p, w) := (f.home[c], Register(v, f.home[c], c, r, f.beats, calls).0);
      var owned := r.id in v.store.rows && v.store.rows[r.id].pod != p;
      && w.told == (if owned && calls.routed then Some(v.store.rows[r.id].pod) else None)
      && (owned ==> v.store.rows[r.id].pod < |f.pods| && v.store.rows[r.id].pod < |f.inbox|)
      && (if calls.parsed && calls.add then
            && r.id in w.store.rows && w.store.rows[r.id] == Row(p, c, r.token)
            && r.id in w.pod.pool && w.pod.pool[r.id] == c
          else
            && w.store == v.store
            && (r.id in v.store.rows && v.store.rows[r.id].pod == p ==> r.id !in w.pod.pool))
  {
  }

  lemma CloseCautious(f: Fleet, c: nat, id: string, token: string, calls: Calls)
    requires Grounded(f) && Harmless(f) && Possible(f, Hangup(c, id, token, calls))
    ensures var (p, w) := (f.home[c], CloseSession(ViewOf(f, c), f.home[c], id, token, calls).0);
      && (w.told.Some? ==> w.told.value != p && w.told.value < |f.inbox|)
      && (id in w.store.rows && w.store.rows[id].pod != p ==>
            id in f.store.rows && f.store.rows[id] == w.store.rows[id])
      && (Cautious(f, p, id, w) <==> !Harms(f, Hangup(c, id, token, calls)))
  {
  }

  // ----- Steps -----

  lemma HandlersHarm(f: Fleet, e: Action)
    requires Grounded(f) && Harmless(f) && Possible(f, e) && ByConnection(e)
    ensures Harmless(After(f, e)) <==> !Harms(f, e)
  {
    match e
    case Enrol(c, r, calls) =>
      RegisterCareful(ViewOf(f, c), f.home[c], c, r, f.beats, calls);
      RegisterCautious(f, c, r, calls);
      hide Register, Harmless, Harms, Cautious;
      ViewHarmless(f, c, r.id, Register(ViewOf(f, c), f.home[c], c, r, f.beats, calls).0);
    case Hangup(c, id, token, calls) =>
      CloseCareful(ViewOf(f, c), f.home[c], c, id, token, f.beats, calls);
      CloseCautious(f, c, id, token, calls);
      hide CloseSession, Harmless, Harms, Cautious;
      ViewHarmless(f, c, id, CloseSession(ViewOf(f, c), f.home[c], id, token, calls).0);
    case Exit(c, del) =>
      ExitHarms(f, c, del);
  }

  lemma ExitHarms(f: Fleet, c: nat, del: bool)
    requires Grounded(f) && Harmless(f) && Possible(f, Exit(c, del))
    ensures Harmless(After(f, Exit(c, del)))
  {
    var g := After(f, Exit(c, del));
    forall q: nat, x | q < |g.pods| && q < |g.inbox| && x in g.inbox[q] && x in g.pods[q].pool
      ensures !OnRow(g, q, x)
    {
      assert x in f.inbox[q] && x in f.pods[q].pool;
    }
  }

  lemma HarmsByMoving(f: Fleet, who: nat, p: nat, id: string, age: nat)
    requires Grounded(f) && Possible(f, Handle(who, p, id, age))
    ensures var v := Fate(f, who, p, id, age);
      && (Harms(f, Handle(who, p, id, age)) <==> v.Move? && Holds(f, v.to, id))
      && (v.Move? && Holds(f, v.to, id) ==> id in f.store.rows && f.store.rows[id].pod == v.to)
  {
  }

  lemma HandleHarms(f: Fleet, who: nat, p: nat, id: string, age: nat)
    requires Grounded(f) && Harmless(f) && Possible(f, Handle(who, p, id, age))
    ensures Harmless(After(f, Handle(who, p, id, age))) <==> !Harms(f, Handle(who, p, id, age))
  {
    var g, v := After(f, Handle(who, p, id, age)), Fate(f, who, p, id, age);
    HarmsByMoving(f, who, p, id, age);
    hide Harms, Harmless, Fate;
    if Harms(f, Handle(who, p, id, age)) {
      var q := f.store.rows[id].pod;
      assert v == Move(q);
      assert id in g.inbox[q] && id in g.pods[q].pool && OnRow(g, q, id);
    } else {
      forall q: nat, x | q < |g.pods| && q < |g.inbox| && x in g.inbox[q] && x in g.pods[q].pool
        ensures !OnRow(g, q, x)
      {
        assert x in f.pods[q].pool && (OnRow(g, q, x) <==> OnRow(f, q, x));
        if !(x == id && v == Move(q)) {
          assert x in f.inbox[q];
        }
      }
    }
  }

  /** A step keeps recorded connections out of danger if and only if it is none of
      those. */
  lemma HarmlessStep(f: Fleet, e: Action)
    requires Grounded(f) && Harmless(f) && Possible(f, e)
    ensures Harmless(After(f, e)) <==> !Harms(f, e)
  {
    if ByConnection(e) {
      HandlersHarm(f, e);
    } else if e.Handle? {
      HandleHarms(f, e.who, e.pod, e.id, e.age);
    } else {
      var g := After(f, e);
      forall q: nat, x | q < |g.pods| && q < |g.inbox| && x in g.inbox[q] && x in g.pods[q].pool
        ensures !OnRow(g, q, x)
      {
        assert x in f.inbox[q] && x in f.pods[q].pool;
      }
    }
  }

  // ----- Runs -----

  ghost predicate NeverHarms(f: Fleet, es: seq<Action>) {
    es == [] ||
      (NeverHarms(f, es[..|es| - 1])
       && match Replay(f, es[..|es| - 1])
          case None => true
          case Some(g) => Possible(g, es[|es| - 1]) ==> !Harms(g, es[|es| - 1]))
  }

  lemma {:induction false} AlwaysHarmless(n: nat, limit: int, es: seq<Action>)
    requires Replay(Empty(n, limit), es).Some? && NeverHarms(Empty(n, limit), es)
    ensures Harmless(Replay(Empty(n, limit), es).value)
  {
    hide After, Possible, Harms, Grounded;
    if es != [] {
      var init := es[..|es| - 1];
      AlwaysHarmless(n, limit, init);
      AlwaysGrounded(n, limit, init);
      HarmlessStep(Replay(Empty(n, limit), init).value, es[|es| - 1]);
    } else {
      EmptyHarmless(n, limit);
    }
  }

  lemma EmptyHarmless(n: nat, limit: int)
    ensures Harmless(Empty(n, limit))
  {
  }

  /** The pass closes the connection that the client's row records. */
  predicate ClosesRecorded(f: Fleet, who: nat, p: nat, id: string, age: nat)
    requires Possible(f, Handle(who, p, id, age))
  {
    var g := After(f, Handle(who, p, id, age));
    Holds(f, who, id) && who < |g.pods| && id !in g.pods[who].pool
  }

  /** A pass over a force_close closes the recorded connection of its own pod's client
      exactly when it is in time, whatever pod the message was for; and never that of
      another pod. */
  lemma HandleCloses(f: Fleet, who: nat, p: nat, id: string, age: nat)
    requires Grounded(f) && Possible(f, Handle(who, p, id, age))
    ensures ClosesRecorded(f, who, p, id, age) <==> Holds(f, who, id) && InTime(age, f.limit)
    ensures var g := After(f, Handle(who, p, id, age));
      |g.pods| == |f.pods| && forall q: nat :: q < |f.pods| && q != who ==> g.pods[q] == f.pods[q]
  {
  }

  /** After a run without a harmful step, a pass over a force_close closes a recorded
      connection if and only if it is a janitor's, who finds its own pod recorded in
      the stream of a dead one, in time. */
  lemma SparesTheRecorded(n: nat, limit: int, es: seq<Action>, who: nat, p: nat, id: string, age: nat)
    requires Replay(Empty(n, limit), es).Some? && NeverHarms(Empty(n, limit), es)
    requires Possible(Replay(Empty(n, limit), es).value, Handle(who, p, id, age))
    ensures var f := Replay(Empty(n, limit), es).value;
      ClosesRecorded(f, who, p, id, age) <==>
        who != p && p !in f.beats && Holds(f, who, id) && InTime(age, limit)
  {
    hide Replay, Harmless, NeverHarms;
    AlwaysHarmless(n, limit, es);
    AlwaysGrounded(n, limit, es);
    var f := Replay(Empty(n, limit), es).value;
    HandleCloses(f, who, p, id, age);
    if who == p && Holds(f, p, id) {
      HeldIsSpared(f, p, id);
    }
  }

  lemma HeldIsSpared(f: Fleet, p: nat, id: string)
    requires Harmless(f) && Holds(f, p, id) && p < |f.inbox|
    ensures id !in f.inbox[p]
  {
  }

  // ----- Each harm, and the janitor's pass, in a run -----

  const ARRIVALS: seq<Action> := [Beat(0), Beat(1)] + [Connect(0, 1), Visit(1)] + [Connect(1, 2), Visit(2)]

  /** The client has moved from pod 0 to pod 1, and pod 0 has been told to close its
      connection 1. */
  predicate MovedOn(f: Fleet, limit: int) {
    && TwoPods(f) && f.limit == limit
    && f.store.rows == f.store.rows["a" := Row(1, 2, "")]
    && "a" in f.pods[0].pool && f.pods[0].pool["a"] == 1 && "a" in f.pods[1].pool && f.pods[1].pool["a"] == 2
    && "a" in f.inbox[0]
    && 1 in f.open && 1 in f.home && f.home[1] == 0 && 1 in f.names && f.names[1] == "a"
  }

  lemma Arrives(limit: int) returns (f: Fleet)
    ensures Replay(Empty(2, limit), ARRIVALS) == Some(f) && MovedOn(f, limit)
  {
    hide Visited, After, Possible, Replay;
    var f0 := TwoBeats(limit);
    BeatsKeepTheLimit(limit);
    VisitTakesOver(limit, f0, [Beat(0), Beat(1)], 0, 1);
    var f1 := Visited(f0, 0, 1);
    VisitTakesOver(limit, f1, [Beat(0), Beat(1)] + [Connect(0, 1), Visit(1)], 1, 2);
    f := Visited(f1, 1, 2);
    assert f.store.rows == f.store.rows["a" := Row(1, 2, "")];
  }

  lemma BeatsKeepTheLimit(limit: int)
    requires Replay(Empty(2, limit), [Beat(0), Beat(1)]).Some?
    ensures Replay(Empty(2, limit), [Beat(0), Beat(1)]).value.limit == limit
  {
    AlwaysGrounded(2, limit, [Beat(0), Beat(1)]);
  }

  /** The old connection has gone before its force_close is worked on; the pass moves
      the message to where the client is now, and there it closes the connection. */
  lemma ReroutedForceCloseHitsTheNewOwner(limit: int)
    ensures var es := ARRIVALS + [Exit(1, true)] + [Handle(0, 0, "a", 0)];
      && Replay(Empty(2, limit), es).Some?
      && var f := Replay(Empty(2, limit), es).value;
      && Possible(f, Handle(1, 1, "a", 0)) && ClosesRecorded(f, 1, 1, "a", 0)
  {
    hide Replay;
    var f := Arrives(limit);
    var g := LeftPod(f, limit);
    Then(Empty(2, limit), ARRIVALS, Exit(1, true));
    Then(Empty(2, limit), ARRIVALS + [Exit(1, true)], Handle(0, 0, "a", 0));
  }

  lemma LeftPod(f: Fleet, limit: int) returns (g: Fleet)
    requires MovedOn(f, limit)
    ensures Possible(f, Exit(1, true)) && g == After(f, Exit(1, true))
    ensures Possible(g, Handle(0, 0, "a", 0))
    ensures var h := After(g, Handle(0, 0, "a", 0));
      Possible(h, Handle(1, 1, "a", 0)) && ClosesRecorded(h, 1, 1, "a", 0)
  {
    g := After(f, Exit(1, true));
    assert |g.pods| == 2 && |g.inbox| == 2 && g.inbox == f.inbox && g.pods[1] == f.pods[1];
    assert "a" !in g.pods[0].pool && "a" in g.store.rows && g.store.rows["a"] == Row(1, 2, "");
    hide ReadExit;
    assert Fate(g, 0, 0, "a", 0) == Move(1);
    var h := After(g, Handle(0, 0, "a", 0));
    assert "a" in h.inbox[1] && h.pods == g.pods && h.store == g.store;
    assert Fate(h, 1, 1, "a", 0) == Deliver;
  }

  /** The old pod has crashed; the janitor that takes over its stream is the pod that
      holds the client now. */
  lemma JanitorHitsItsOwnClient(limit: int)
    ensures var es := ARRIVALS + [Crash(0)] + [Expire(0)];
      && Replay(Empty(2, limit), es).Some?
      && var f := Replay(Empty(2, limit), es).value;
      && Possible(f, Handle(1, 0, "a", 0)) && ClosesRecorded(f, 1, 0, "a", 0)
  {
    hide Replay;
    var f := Arrives(limit);
    var g := After(f, Crash(0));
    assert Possible(g, Expire(0));
    var h := After(g, Expire(0));
    assert "a" in h.pods[1].pool && Fate(h, 1, 0, "a", 0) == Deliver;
    Then(Empty(2, limit), ARRIVALS, Crash(0));
    Then(Empty(2, limit), ARRIVALS + [Crash(0)], Expire(0));
  }

  const VISIT: seq<Action> := [Beat(0), Beat(1)] + [Connect(0, 1), Visit(1)] + [Connect(1, 2)]

  /** Another connection asks for the client with a callback that cannot be read: it
      gets nothing, but the owner has been told to close. */
  function Blunder(): Action {
    Enrol(2, Request("a", "cb", ""), AllCalls().(parsed := false))
  }

  lemma FailedTakeoverHitsTheOwner(limit: int)
    ensures var es := VISIT + [Blunder()];
      && Replay(Empty(2, limit), es).Some?
      && var f := Replay(Empty(2, limit), es).value;
      && Possible(f, Handle(0, 0, "a", 0)) && ClosesRecorded(f, 0, 0, "a", 0)
  {
    hide Visited, Replay;
    var f0 := TwoBeats(limit);
    VisitTakesOver(limit, f0, [Beat(0), Beat(1)], 0, 1);
    var f1 := Visited(f0, 0, 1);
    var g := BlunderTells(f1);
    Then(Empty(2, limit), [Beat(0), Beat(1)] + [Connect(0, 1), Visit(1)], Connect(1, 2));
    Then(Empty(2, limit), VISIT, Blunder());
  }

  lemma BlunderTells(f: Fleet) returns (g: Fleet)
    requires TwoPods(f) && 2 !in f.home
    requires "a" in f.store.rows && f.store.rows["a"] == Row(0, 1, "")
    requires "a" in f.pods[0].pool && f.pods[0].pool["a"] == 1
    ensures Possible(f, Connect(1, 2)) && g == After(f, Connect(1, 2))
    ensures Possible(g, Blunder())
    ensures var h := After(g, Blunder()); Possible(h, Handle(0, 0, "a", 0)) && ClosesRecorded(h, 0, 0, "a", 0)
  {
    g := After(f, Connect(1, 2));
    var w := Register(ViewOf(g, 2), 1, 2, Request("a", "cb", ""), g.beats, AllCalls().(parsed := false)).0;
    assert w.told == Some(0) && w.store == g.store && w.pod == g.pods[1];
    hide Register;
    var h := After(g, Blunder());
    assert "a" in h.inbox[0] && h.pods[0] == g.pods[0] && h.store == g.store;
    assert Fate(h, 0, 0, "a", 0) == Deliver;
  }
}
