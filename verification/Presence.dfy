/** The other half of ownership: when a presence row stands for a connection that
    its pod really holds. */
module Presence {
  import opened Cluster
  import opened Sessions
  import opened Ownership
  import R = SessionOutcomes

  /** The recorded pod holds the recorded connection under the client's id. */
  predicate Backed(f: Fleet, id: string)
    requires id in f.store.rows
  {
    f.store.rows[id].pod < |f.pods| && R.Held(f, f.store.rows[id].pod, id, f.store.rows[id].conn)
  }

  ghost predicate AllBacked(f: Fleet) {
    forall id :: id in f.store.rows ==> Backed(f, id)
  }

  /** The steps that leave a row behind without its connection: a registration that
      closes the owner on its own pod and then fails before the new row is written; a
      close of such an owner, or the exit of the recorded connection, when Redis does
      not remove the row; a force_close that closes the recorded connection; and the
      crash of a recorded pod. */
  ghost predicate LeavesRow(f: Fleet, e: Action)
    requires Possible(f, e)
  {
    match e
    case Enrol(c, r, calls) =>
      && R.Granted(f, f.home[c], r, calls) && R.ClosedHere(f, f.home[c], r.id) && !R.Enters(f, f.home[c], r, calls)
    case Hangup(c, id, token, calls) =>
      R.EndsSession(f, f.home[c], id, token, calls) && R.ClosedHere(f, f.home[c], id) && !calls.del
    case Exit(c, del) => R.Recorded(f, f.names[c], c) && R.Held(f, f.home[c], f.names[c], c) && !del
    case Handle(who, p, id, age) => R.Closes(f, who, id, age) && R.OwnedHere(f, who, id)
    case Crash(p) => exists id :: R.OwnedHere(f, p, id)
    case _ => false
  }

  /** A handler on pod p for one client leaves all the other clients' rows backed. */
  lemma OthersBacked(f: Fleet, g: Fleet, p: nat, id: string)
    requires AllBacked(f) && R.NothingElse(f, g, p, id)
    ensures forall x :: x in g.store.rows && x != id ==> Backed(g, x)
    ensures AllBacked(g) <==> (id in g.store.rows ==> Backed(g, id))
  {
    forall x | x in g.store.rows && x != id
      ensures Backed(g, x)
    {
      assert Backed(f, x);
    }
  }

  lemma RowBacked(f: Fleet, id: string)
    requires AllBacked(f) && id in f.store.rows
    ensures Backed(f, id)
  {
  }

  lemma EnrolBacked(f: Fleet, c: nat, r: Request, calls: Calls)
    requires AllBacked(f) && Possible(f, Enrol(c, r, calls))
    ensures AllBacked(After(f, Enrol(c, r, calls))) <==> !LeavesRow(f, Enrol(c, r, calls))
  {
    hide Register, R.NothingElse, After, AllBacked;
    var g := After(f, Enrol(c, r, calls));
    R.OthersUntouched(f, c, r, "", calls);
    OthersBacked(f, g, f.home[c], r.id);
    R.RegisterOutcome(f, c, r, calls);
    if r.id in f.store.rows {
      RowBacked(f, r.id);
    }
    OtherPods(f, g, f.home[c], r.id);
  }

  lemma OtherPods(f: Fleet, g: Fleet, p: nat, id: string)
    requires R.NothingElse(f, g, p, id)
    ensures |g.pods| == |f.pods| && forall q :: 0 <= q < |f.pods| && q != p ==> g.pods[q] == f.pods[q]
  {
  }

  lemma HangupBacked(f: Fleet, c: nat, id: string, token: string, calls: Calls)
    requires AllBacked(f) && Possible(f, Hangup(c, id, token, calls))
    ensures AllBacked(After(f, Hangup(c, id, token, calls))) <==> !LeavesRow(f, Hangup(c, id, token, calls))
  {
    hide CloseSession, R.NothingElse, After, AllBacked;
    var g := After(f, Hangup(c, id, token, calls));
    R.OthersUntouched(f, c, Request(id, "", ""), token, calls);
    OthersBacked(f, g, f.home[c], id);
    R.CloseOutcome(f, c, id, token, calls);
    if id in f.store.rows {
      RowBacked(f, id);
    }
    OtherPods(f, g, f.home[c], id);
  }

  lemma ExitBacked(f: Fleet, c: nat, del: bool)
    requires Grounded(f) && AllBacked(f) && Possible(f, Exit(c, del))
    ensures AllBacked(After(f, Exit(c, del))) <==> !LeavesRow(f, Exit(c, del))
  {
    hide ReadExit, R.NothingElse, After, AllBacked;
    var (id, g) := (f.names[c], After(f, Exit(c, del)));
    R.ExitOutcome(f, c, del);
    OthersBacked(f, g, f.home[c], id);
    if id in f.store.rows {
      RowBacked(f, id);
    }
    OtherPods(f, g, f.home[c], id);
  }

  lemma HandleBacked(f: Fleet, who: nat, p: nat, id: string, age: nat)
    requires AllBacked(f) && Possible(f, Handle(who, p, id, age))
    ensures AllBacked(After(f, Handle(who, p, id, age))) <==> !LeavesRow(f, Handle(who, p, id, age))
  {
    hide Fate, After, R.Closes;
    var g := After(f, Handle(who, p, id, age));
    R.HandleOutcome(f, who, p, id, age);
    if !R.Closes(f, who, id, age) {
      assert forall x :: x in f.store.rows ==> (Backed(g, x) <==> Backed(f, x));
    } else {
      if R.OwnedHere(f, who, id) {
        assert !Backed(g, id);
      }
      assert forall x :: x in f.store.rows && (x != id || f.store.rows[x].pod != who) ==>
        (Backed(g, x) <==> Backed(f, x));
    }
  }

  lemma CrashBacked(f: Fleet, p: nat)
    requires AllBacked(f) && Possible(f, Crash(p))
    ensures AllBacked(After(f, Crash(p))) <==> !LeavesRow(f, Crash(p))
  {
    var g := After(f, Crash(p));
    if id :| R.OwnedHere(f, p, id) {
      assert !Backed(g, id);
    } else {
      forall id | id in g.store.rows
        ensures Backed(g, id)
      {
        assert Backed(f, id) && !R.OwnedHere(f, p, id);
      }
    }
  }

  lemma CleanupBacked(f: Fleet, e: Action)
    requires AllBacked(f) && Possible(f, e) && e.Cleanup?
    ensures AllBacked(After(f, e))
  {
    forall id | id in After(f, e).store.rows
      ensures Backed(After(f, e), id)
    {
      assert Backed(f, id);
    }
  }

  /** In any state of a run: as long as every row stands for a connection, a step keeps it so if and only if
      it is none of those. */
  lemma BackedStep(f: Fleet, e: Action)
    requires Grounded(f) && AllBacked(f) && Possible(f, e)
    ensures AllBacked(After(f, e)) <==> !LeavesRow(f, e)
  {
    hide Register, CloseSession, ReadExit, Fate, Sweep;
    match e
    case Enrol(c, r, calls) => EnrolBacked(f, c, r, calls);
    case Hangup(c, id, token, calls) => HangupBacked(f, c, id, token, calls);
    case Exit(c, del) => ExitBacked(f, c, del);
    case Handle(who, p, id, age) => HandleBacked(f, who, p, id, age);
    case Crash(p) => CrashBacked(f, p);
    case Cleanup(_, _, _) => CleanupBacked(f, e);
    case _ =>
      assert forall id :: id in f.store.rows ==> (Backed(After(f, e), id) <==> Backed(f, id));
  }

  ghost predicate NeverLeavesRow(f: Fleet, es: seq<Action>) {
    es == [] ||
      (NeverLeavesRow(f, es[..|es| - 1])
       && match Replay(f, es[..|es| - 1])
          case None => true
          case Some(g) => Possible(g, es[|es| - 1]) ==> !LeavesRow(g, es[|es| - 1]))
  }

  lemma {:induction false} AlwaysBacked(n: nat, limit: int, es: seq<Action>)
    requires Replay(Empty(n, limit), es).Some? && NeverLeavesRow(Empty(n, limit), es)
    ensures AllBacked(Replay(Empty(n, limit), es).value)
  {
    hide After, Possible, LeavesRow;
    if es != [] {
      AlwaysBacked(n, limit, es[..|es| - 1]);
      AlwaysGrounded(n, limit, es[..|es| - 1]);
      BackedStep(Replay(Empty(n, limit), es[..|es| - 1]).value, es[|es| - 1]);
    }
  }

  /** In every run without such a step, in which registrations get their heartbeat
      answers and force_close messages are worked on in time, the rows are the pools
      once no force_close is left for the client: it is recorded with a pod and a
      connection exactly when that pod holds that connection for it. */
  lemma PresenceIsThePools(n: nat, limit: int, es: seq<Action>, id: string, p: nat, c: nat)
    requires Replay(Empty(n, limit), es).Some? && AllSound(es, limit) && NeverLeavesRow(Empty(n, limit), es)
    requires forall q :: 0 <= q < |Replay(Empty(n, limit), es).value.inbox| ==>
      id !in Replay(Empty(n, limit), es).value.inbox[q]
    ensures var f := Replay(Empty(n, limit), es).value;
      (id in f.store.rows && f.store.rows[id].pod == p && f.store.rows[id].conn == c)
      <==> p < |f.pods| && R.Held(f, p, id, c)
  {
    hide Replay, NeverLeavesRow, AllSound;
    var f := Replay(Empty(n, limit), es).value;
    AlwaysBacked(n, limit, es);
    OwnershipCoverage(n, limit, es);
    if id in f.store.rows {
      RowBacked(f, id);
    }
    if p < |f.pods| && id in f.pods[p].pool {
      assert Covered(f, p, id);
    }
  }
}
