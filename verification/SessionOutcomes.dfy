/** What registering, closing a session, leaving and a force_close come to, told
    by the fleet before and after: whose row, pool entry, gauge and name change,
    and who is told, each exactly when. */
module SessionOutcomes {
  import opened Cluster
  import opened Sessions
  import O = Ownership

  // ----- Before -----

  predicate Held(f: Fleet, p: nat, id: string, c: nat)
    requires p < |f.pods|
  {
    id in f.pods[p].pool && f.pods[p].pool[id] == c
  }

  predicate Recorded(f: Fleet, id: string, c: nat) {
    id in f.store.rows && f.store.rows[id].conn == c
  }

  /** The row carries no token, or this one. */
  predicate Opens(f: Fleet, id: string, token: string)
    requires id in f.store.rows
  {
    f.store.rows[id].token == "" || f.store.rows[id].token == token
  }

  /** The recorded pod's heartbeat was asked for and seen. */
  predicate HandlerSeen(f: Fleet, id: string, calls: Calls)
    requires id in f.store.rows
  {
    calls.answered && f.store.rows[id].pod in f.beats
  }

  /** The owner is on this pod, or is told, or there is no router to tell it with. */
  predicate LetsGo(f: Fleet, p: nat, id: string, calls: Calls)
    requires id in f.store.rows
  {
    f.store.rows[id].pod == p || !calls.routed || calls.publish
  }

  predicate OwnedElsewhere(f: Fleet, p: nat, id: string) {
    id in f.store.rows && f.store.rows[id].pod != p
  }

  predicate OwnedHere(f: Fleet, p: nat, id: string) {
    id in f.store.rows && f.store.rows[id].pod == p
  }

  /** The pool entry of a client recorded on this pod is closed on the spot. */
  predicate ClosedHere(f: Fleet, p: nat, id: string)
    requires p < |f.pods|
  {
    OwnedHere(f, p, id) && id in f.pods[p].pool
  }

  // ----- Afterwards -----

  /** Rows, last-seen times and pool entries of other clients stay, and no last-seen
      time is new. */
  ghost predicate OthersStay(st: Store, st': Store, pod: Pod, pod': Pod, id: string) {
    && (forall x :: x != id ==>
          && (x in st'.rows <==> x in st.rows) && (x in st.rows ==> st'.rows[x] == st.rows[x])
          && (x in st'.seen <==> x in st.seen) && (x in st.seen ==> st'.seen[x] == st.seen[x])
          && (x in pod'.pool <==> x in pod.pool) && (x in pod.pool ==> pod'.pool[x] == pod.pool[x]))
    && (id in st'.seen ==> id in st.seen && st'.seen[id] == st.seen[id])
    && pod'.forced == pod.forced
  }

  /** Nor does anything change on another pod, or that is no handler's to change. */
  ghost predicate NothingElse(f: Fleet, g: Fleet, p: nat, id: string) {
    && |g.pods| == |f.pods| && |g.inbox| == |f.inbox| && p < |f.pods|
    && (forall q :: 0 <= q < |f.pods| && q != p ==> g.pods[q] == f.pods[q])
    && OthersStay(f.store, g.store, f.pods[p], g.pods[p], id)
    && g.home == f.home && g.beats == f.beats && g.limit == f.limit
  }

  predicate RowIs(g: Fleet, id: string, row: Row) {
    id in g.store.rows && g.store.rows[id] == row
  }

  ghost predicate RowStays(f: Fleet, g: Fleet, id: string) {
    && (id in g.store.rows <==> id in f.store.rows)
    && (id in f.store.rows ==> g.store.rows[id] == f.store.rows[id])
  }

  ghost predicate EntryStays(f: Fleet, g: Fleet, p: nat, id: string)
    requires p < |f.pods| == |g.pods|
  {
    && (id in g.pods[p].pool <==> id in f.pods[p].pool)
    && (id in f.pods[p].pool ==> g.pods[p].pool[id] == f.pods[p].pool[id])
  }

  /** One more force_close for the client in the inbox of its recorded pod, and in
      no other. */
  ghost predicate Told(f: Fleet, g: Fleet, id: string)
    requires id in f.store.rows
  {
    && |g.inbox| == |f.inbox|
    && forall q :: 0 <= q < |f.inbox| ==>
         g.inbox[q] == f.inbox[q] + if q == f.store.rows[id].pod then multiset{id} else multiset{}
  }

  /** The entry is gone, without the gauge being counted down. */
  ghost predicate ClosedByMessage(f: Fleet, g: Fleet, who: nat, id: string)
    requires who < |f.pods| == |g.pods|
  {
    && id !in g.pods[who].pool && g.pods[who].forced == f.pods[who].forced + 1
    && g.pods[who].gauge == f.pods[who].gauge
    && g.pods[who].overwritten == f.pods[who].overwritten && g.pods[who].failed == f.pods[who].failed
    && (forall q :: 0 <= q < |f.pods| && q != who ==> g.pods[q] == f.pods[q])
    && (forall x :: x != id ==>
          && (x in g.pods[who].pool <==> x in f.pods[who].pool)
          && (x in f.pods[who].pool ==> g.pods[who].pool[x] == f.pods[who].pool[x]))
  }

  // ----- Leaving -----

  /** When a connection's socket closes, its row goes together with the last-seen
      time exactly when its pod's pool still held it under its client id and Redis
      answered; its pool entry goes, counted down, exactly when the pool held it;
      a row or an entry that names another connection stays. */
  lemma ExitOutcome(f: Fleet, c: nat, del: bool)
    requires Possible(f, Exit(c, del))
    ensures var (p, id, g) := (f.home[c], f.names[c], After(f, Exit(c, del)));
      var held := Held(f, p, id, c);
      && NothingElse(f, g, p, id) && g.inbox == f.inbox && c !in g.open
      && (Recorded(f, id, c) ==>
            && (id !in g.store.rows <==> held && del)
            && (id in f.store.seen ==> (id !in g.store.seen <==> held && del)))
      && (id in f.store.rows && !Recorded(f, id, c) ==> RowIs(g, id, f.store.rows[id]))
      && (!(Recorded(f, id, c) && held && del) ==>
            RowStays(f, g, id) && (id in f.store.seen ==> id in g.store.seen))
      && (id !in g.pods[p].pool <==> id !in f.pods[p].pool || held)
      && (id in g.pods[p].pool ==> g.pods[p].pool[id] == f.pods[p].pool[id])
      && g.pods[p].gauge == f.pods[p].gauge - (if held then 1 else 0)
      && g.pods[p].overwritten == f.pods[p].overwritten && g.pods[p].failed == f.pods[p].failed
  {
  }

  // ----- Registering -----

  predicate Asks(r: Request, calls: Calls) {
    r.id != "" && r.callback != "" && calls.get
  }

  /** Nobody has the client, or the one that has it lets go of it. */
  predicate Granted(f: Fleet, p: nat, r: Request, calls: Calls) {
    Asks(r, calls) &&
    (r.id in f.store.rows ==> HandlerSeen(f, r.id, calls) && Opens(f, r.id, r.token) && LetsGo(f, p, r.id, calls))
  }

  /** What the client is answered: each answer exactly when. */
  lemma RegisterReply(f: Fleet, c: nat, r: Request, calls: Calls)
    requires Possible(f, Enrol(c, r, calls))
    ensures var p := f.home[c];
      var reply := Register(ViewOf(f, c), p, c, r, f.beats, calls).1;
      var taken := Asks(r, calls) && r.id in f.store.rows;
      && (reply == BlankField <==> r.id == "" || r.callback == "")
      && (reply == LookupFailed <==> r.id != "" && r.callback != "" && !calls.get)
      && (reply == HandlerDead <==> taken && !HandlerSeen(f, r.id, calls))
      && (reply == IdTaken <==> taken && HandlerSeen(f, r.id, calls) && !Opens(f, r.id, r.token))
      && (reply == PublishFailed <==>
            taken && HandlerSeen(f, r.id, calls) && Opens(f, r.id, r.token) && !LetsGo(f, p, r.id, calls))
      && (reply == BadCallback <==> Granted(f, p, r, calls) && !calls.parsed)
      && (reply == StoreFailed <==> Granted(f, p, r, calls) && calls.parsed && !calls.add)
      && (reply == TriggerFailed <==> Granted(f, p, r, calls) && calls.parsed && calls.add && !calls.triggered)
      && (reply == Registered <==> Granted(f, p, r, calls) && calls.parsed && calls.add && calls.triggered)
  {
  }

  /** The client's row and pool entry become the new connection's. */
  predicate Enters(f: Fleet, p: nat, r: Request, calls: Calls) {
    Granted(f, p, r, calls) && calls.parsed && calls.add
  }

  predicate HandlerDown(f: Fleet, r: Request, calls: Calls) {
    Asks(r, calls) && r.id in f.store.rows && !HandlerSeen(f, r.id, calls) && calls.del
  }

  /** What registering leaves of the client. The row and the pool entry become the
      new connection's exactly when it is granted the client and row and callback go
      through, whether or not the flow is triggered; an owner on this pod is closed
      already when the client is granted; and a row whose pod is down goes, without
      a replacement. */
  lemma RegisterOutcome(f: Fleet, c: nat, r: Request, calls: Calls)
    requires Possible(f, Enrol(c, r, calls))
    ensures var (p, id, g) := (f.home[c], r.id, After(f, Enrol(c, r, calls)));
      var (enters, downed) := (Enters(f, p, r, calls), HandlerDown(f, r, calls));
      var closed := Granted(f, p, r, calls) && ClosedHere(f, p, id);
      && p < |g.pods| == |f.pods|
      && (enters ==> RowIs(g, id, Row(p, c, r.token)) && Held(g, p, id, c))
      && (downed ==> id !in g.store.rows)
      && (!enters && !downed ==> RowStays(f, g, id))
      && (id in f.store.seen ==> (id !in g.store.seen <==> downed && calls.zrem))
      && (closed && !enters ==> id !in g.pods[p].pool)
      && (!closed && !enters ==> EntryStays(f, g, p, id))
  {
  }

  /** What it counts, whom it tells, and the name the connection goes by. An owner
      closed on this pod is counted down and one elsewhere is told, even when the
      registration fails after that. */
  lemma RegisterCounts(f: Fleet, c: nat, r: Request, calls: Calls)
    requires Possible(f, Enrol(c, r, calls))
    ensures var (p, id, g) := (f.home[c], r.id, After(f, Enrol(c, r, calls)));
      var (granted, enters) := (Granted(f, p, r, calls), Enters(f, p, r, calls));
      var closed := granted && ClosedHere(f, p, id);
      && |g.pods| == |f.pods| && g.open == f.open
      && g.names == f.names[c := if granted then id else f.names[c]]
      && g.pods[p].gauge == f.pods[p].gauge + (if enters && calls.triggered then 1 else 0) - (if closed then 1 else 0)
      && g.pods[p].failed == f.pods[p].failed + (if enters && !calls.triggered then 1 else 0)
      && g.pods[p].overwritten ==
           f.pods[p].overwritten + (if enters && !closed && id in f.pods[p].pool then 1 else 0)
      && (if granted && OwnedElsewhere(f, p, id) && calls.routed then Told(f, g, id) else g.inbox == f.inbox)
  {
  }

  // ----- Closing -----

  lemma CloseReply(f: Fleet, c: nat, id: string, token: string, calls: Calls)
    requires Possible(f, Hangup(c, id, token, calls))
    ensures var p := f.home[c];
      var reply := CloseSession(ViewOf(f, c), p, id, token, calls).1;
      var found := calls.get && id in f.store.rows;
      && (reply == LookupFailed <==> !calls.get)
      && (reply == InvalidClient <==> calls.get && id !in f.store.rows)
      && (reply == InvalidToken <==> found && !Opens(f, id, token))
      && (reply == PublishFailed <==> found && Opens(f, id, token) && !LetsGo(f, p, id, calls))
      && (reply == Closed <==> found && Opens(f, id, token) && LetsGo(f, p, id, calls))
  {
  }

  /** The token is right and the owner lets go. */
  predicate EndsSession(f: Fleet, p: nat, id: string, token: string, calls: Calls) {
    calls.get && id in f.store.rows && Opens(f, id, token) && LetsGo(f, p, id, calls)
  }

  /** What closing a session leaves: with the right token the row and the last-seen
      time go when Redis removes them, be the owner on this pod, which is then
      closed and counted down, or elsewhere, which is told; the name of the
      connection that asked is as it was. */
  lemma CloseOutcome(f: Fleet, c: nat, id: string, token: string, calls: Calls)
    requires Possible(f, Hangup(c, id, token, calls))
    ensures var (p, g) := (f.home[c], After(f, Hangup(c, id, token, calls)));
      var ends := EndsSession(f, p, id, token, calls);
      && p < |g.pods| == |f.pods|
      && (id in f.store.rows ==> (id !in g.store.rows <==> ends && calls.del))
      && (id in f.store.seen ==> (id !in g.store.seen <==> ends && calls.del))
      && (!(ends && calls.del) ==> RowStays(f, g, id))
      && (if ends && ClosedHere(f, p, id) then id !in g.pods[p].pool else EntryStays(f, g, p, id))
  {
  }

  lemma CloseCounts(f: Fleet, c: nat, id: string, token: string, calls: Calls)
    requires Possible(f, Hangup(c, id, token, calls))
    ensures var (p, g) := (f.home[c], After(f, Hangup(c, id, token, calls)));
      var ends := EndsSession(f, p, id, token, calls);
      && |g.pods| == |f.pods| && g.open == f.open && g.names == f.names
      && g.pods[p].gauge == f.pods[p].gauge - (if ends && ClosedHere(f, p, id) then 1 else 0)
      && g.pods[p].overwritten == f.pods[p].overwritten && g.pods[p].failed == f.pods[p].failed
      && (if ends && OwnedElsewhere(f, p, id) && calls.routed then Told(f, g, id) else g.inbox == f.inbox)
  {
  }

  lemma RegisterSpares(v: View, p: nat, c: nat, r: Request, beats: set<nat>, calls: Calls)
    ensures var w := Register(v, p, c, r, beats, calls).0;
      OthersStay(v.store, w.store, v.pod, w.pod, r.id)
  {
  }

  lemma CloseSpares(v: View, p: nat, id: string, token: string, calls: Calls)
    ensures var w := CloseSession(v, p, id, token, calls).0;
      OthersStay(v.store, w.store, v.pod, w.pod, id)
  {
  }

  /** Registering for a client, or closing its session, is nothing to other clients,
      to other pods, or to how often force_close messages closed a connection. */
  lemma OthersUntouched(f: Fleet, c: nat, r: Request, token: string, calls: Calls)
    ensures Possible(f, Enrol(c, r, calls)) ==>
      NothingElse(f, After(f, Enrol(c, r, calls)), f.home[c], r.id)
    ensures Possible(f, Hangup(c, r.id, token, calls)) ==>
      NothingElse(f, After(f, Hangup(c, r.id, token, calls)), f.home[c], r.id)
  {
    hide Register, CloseSession, OthersStay;
    if Possible(f, Enrol(c, r, calls)) {
      RegisterSpares(ViewOf(f, c), f.home[c], c, r, f.beats, calls);
    }
    if Possible(f, Hangup(c, r.id, token, calls)) {
      CloseSpares(ViewOf(f, c), f.home[c], r.id, token, calls);
    }
  }

  // ----- A force_close -----

  /** A force_close worked on in time closes whatever connection the pool holds
      under the client id, and only then; the gauge is not counted down, and the
      row stays. */
  predicate Closes(f: Fleet, who: nat, id: string, age: nat)
    requires who < |f.pods|
  {
    id != "" && O.InTime(age, f.limit) && id in f.pods[who].pool
  }

  /** It goes on to the recorded pod, unless that is the worker or the pod whose
      stream it came from; from the stream of a recorded pod that is down, to the
      worker. */
  predicate GoesTo(f: Fleet, who: nat, p: nat, id: string, age: nat, t: nat)
    requires who < |f.pods|
  {
    && id != "" && O.InTime(age, f.limit) && id !in f.pods[who].pool && OwnedElsewhere(f, who, id)
    && t == (if f.store.rows[id].pod != p then f.store.rows[id].pod else who)
    && (f.store.rows[id].pod == p ==> p !in f.beats)
  }

  /** It waits for a client nobody has, up to half the limit. */
  predicate Waits(f: Fleet, who: nat, id: string, age: nat)
    requires who < |f.pods|
  {
    && id != "" && O.InTime(age, f.limit) && id !in f.pods[who].pool && id !in f.store.rows
    && age <= (if f.limit > 0 then f.limit else 60000) / 2
  }

  lemma FateIs(f: Fleet, who: nat, p: nat, id: string, age: nat)
    requires Possible(f, Handle(who, p, id, age))
    ensures var fate := Fate(f, who, p, id, age);
      && (fate.Deliver? <==> Closes(f, who, id, age))
      && (fate.Keep? <==> Waits(f, who, id, age))
      && (forall t :: fate == Move(t) <==> GoesTo(f, who, p, id, age, t))
  {
  }

  lemma HandleOutcome(f: Fleet, who: nat, p: nat, id: string, age: nat)
    requires Possible(f, Handle(who, p, id, age))
    ensures var g := After(f, Handle(who, p, id, age));
      && |g.pods| == |f.pods| && |g.inbox| == |f.inbox|
      && g == f.(pods := g.pods, inbox := g.inbox)
      && (if Closes(f, who, id, age) then ClosedByMessage(f, g, who, id) else g.pods == f.pods)
      && (forall q, x :: 0 <= q < |f.inbox| ==>
            g.inbox[q][x] == f.inbox[q][x]
              - (if q == p && x == id && !Waits(f, who, id, age) then 1 else 0)
              + (if GoesTo(f, who, p, id, age, q) && x == id then 1 else 0))
  {
    FateIs(f, who, p, id, age);
    hide Fate, Closes, GoesTo, Waits;
  }
}
