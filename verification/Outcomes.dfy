/** What a processing pass comes to, told by the state it leaves: exactly when an
    entry stays pending, is delivered, moves on, or is dropped, and for what. */
module Outcomes {
  import opened StreamIds
  import opened RedisStreams
  import opened Cluster
  import opened WellFormed
  import opened Conservation

  // ----- The state afterwards -----

  predicate OnlyPel(s: State, s': State, pod: nat) {
    && pod < |s.streams| == |s'.streams| && s'.copies == s.copies
    && (forall q :: 0 <= q < |s.streams| && q != pod ==> s'.streams[q] == s.streams[q])
    && s'.streams[pod].entries == s.streams[pod].entries && s'.streams[pod].cursor == s.streams[pod].cursor
  }

  /** The record is gone, the others are as they were. */
  predicate Acknowledged(s: State, s': State, pod: nat, id: Id)
    requires pod < |s.streams| == |s'.streams|
  {
    && !IsPending(s'.streams[pod], id)
    && (forall r :: r in s.streams[pod].pel && r.entry.id != id ==> r in s'.streams[pod].pel)
    && (forall r :: r in s'.streams[pod].pel ==> r in s.streams[pod].pel)
  }

  /** Nothing is done; the entry waits out of hand for the next claim. */
  predicate StaysPending(s: State, s': State, pod: nat, id: Id)
    requires pod < |s.streams| && IsPending(s.streams[pod], id)
  {
    && OnlyPel(s, s', pod) && s'.log == s.log
    && IsPending(s'.streams[pod], id) && Record(s', pod, id).entry == Record(s, pod, id).entry
    && !Record(s', pod, id).held && Record(s', pod, id).since == Record(s, pod, id).since
  }

  predicate IsDelivered(s: State, s': State, who: nat, pod: nat, id: Id)
    requires pod < |s.streams| && IsPending(s.streams[pod], id)
  {
    && OnlyPel(s, s', pod) && Acknowledged(s, s', pod, id)
    && s'.log == s.log + [Delivered(Record(s, pod, id).entry, who)]
  }

  predicate IsDropped(s: State, s': State, pod: nat, id: Id, why: Reason)
    requires pod < |s.streams| && IsPending(s.streams[pod], id)
  {
    && OnlyPel(s, s', pod) && Acknowledged(s, s', pod, id)
    && s'.log == s.log + [Dropped(Record(s, pod, id).entry, why)]
  }

  /** A fresh copy, unread, is the newest entry of the stream; what is logged since are
      evictions. */
  predicate HasMoved(s: State, s': State, pod: nat, id: Id, to: nat)
    requires pod < |s.streams| && IsPending(s.streams[pod], id)
  {
    && to < |s.streams| == |s'.streams| && Acknowledged(s, s', pod, id)
    && s'.copies == s.copies + 1
    && (forall q :: 0 <= q < |s.streams| && q != to ==> s'.streams[q].entries == s.streams[q].entries)
    && Unread(s'.streams[to]) != []
    && IsFreshCopy(Unread(s'.streams[to])[|Unread(s'.streams[to])| - 1], Record(s, pod, id).entry, s)
    && s.log <= s'.log && forall k :: |s.log| <= k < |s'.log| ==> s'.log[k].Dropped? && s'.log[k].why == Trimmed
  }

  predicate IsFreshCopy(n: Entry, e: Entry, s: State) {
    n.client == e.client && n.payload == e.payload && n.token == e.token && n.copy == s.copies && n.id.ms == s.now
  }

  // ----- Which it is -----

  lemma AckedPel(st: Stream, id: Id)
    requires SortedPel(st.pel) && IsPending(st, id)
    ensures !IsPending(XAck(st, id), id)
    ensures forall r :: r in st.pel && r.entry.id != id ==> r in XAck(st, id).pel
    ensures forall r :: r in XAck(st, id).pel ==> r in st.pel
  {
    var i, pel' := IndexOf(st.pel, id), XAck(st, id).pel;
    assert forall j :: 0 <= j < |pel'| ==> pel'[j] == st.pel[if j < i then j else j + 1];
    forall r | r in st.pel && r.entry.id != id
      ensures r in pel'
    {
      var k :| 0 <= k < |st.pel| && st.pel[k] == r;
      assert pel'[if k < i then k else k - 1] == r;
    }
  }

  lemma HeldPel(st: Stream, id: Id)
    requires SortedPel(st.pel) && IsPending(st, id)
    ensures var st' := SetHeld(st, id, 1); var i := IndexOf(st.pel, id);
      && IsPending(st', id) && IndexOf(st'.pel, id) == i
      && st'.pel[i].entry == st.pel[i].entry && !st'.pel[i].held && st'.pel[i].since == st.pel[i].since
      && st'.entries == st.entries && st'.cursor == st.cursor
  {
    var st', i := SetHeld(st, id, 1), IndexOf(st.pel, id);
    assert forall j :: 0 <= j < |st'.pel| ==> st'.pel[j].entry == st.pel[j].entry;
  }

  lemma AppendIsFresh(s: State, to: nat, e: Entry, evict: nat)
    requires Inv(s) && to < |s.streams| && CanEvict(s, to, evict)
    ensures var s' := Append(s, to, Message(e.client, e.payload), e.token, evict);
      && |s'.streams| == |s.streams| && s'.copies == s.copies + 1
      && (forall q :: 0 <= q < |s.streams| && q != to ==> s'.streams[q] == s.streams[q])
      && s'.streams[to].pel == s.streams[to].pel
      && Unread(s'.streams[to]) != []
      && IsFreshCopy(Unread(s'.streams[to])[|Unread(s'.streams[to])| - 1], e, s)
      && s.log <= s'.log && forall k :: |s.log| <= k < |s'.log| ==> s'.log[k].Dropped? && s'.log[k].why == Trimmed
  {
    var m := Message(e.client, e.payload);
    var (st, n) := (s.streams[to], NewEntry(s, to, m, e.token));
    SortedHere(s, to);
    AddedIsUnread(st, s.now, n);
    hide Inv, StreamOk, ReadCount;
    LastStays(st, n, s.now, evict);
  }

  lemma LastStays(st: Stream, n: Entry, now: nat, k: nat)
    requires StreamOk(XAdd(st, n), now) && Unread(XAdd(st, n)) == Unread(st) + [n] && k <= |st.entries|
    ensures var u := Unread(XTrim(XAdd(st, n), k)); u != [] && u[|u| - 1] == n
  {
    var all := XAdd(st, n);
    TrimUnread(all, now, k);
    var (lost, u) := (TrimLost(all, k), Unread(XTrim(all, k)));
    assert |lost| <= |Unread(st)| by {
      assert all.entries[..|st.entries|] == st.entries;
      assert |Unread(all)| == |all.entries| - ReadCount(all.entries, all.cursor);
    }
    assert (lost + u)[|lost| + |u| - 1] == n;
  }

  /** The verdict shows in the state, and only there. */
  lemma VerdictShows(s: State, who: nat, pod: nat, id: Id, env: Env, evict: nat)
    requires Inv(s) && Enabled(s, Process(who, pod, id, env, evict))
    ensures var s' := Step(s, Process(who, pod, id, env, evict));
      var v := Decide(s.cfg, who, pod, Record(s, pod, id).entry, s.now, env);
      && (v.Keep? ==> StaysPending(s, s', pod, id))
      && (v.Deliver? ==> IsDelivered(s, s', who, pod, id))
      && (v.Move? ==> HasMoved(s, s', pod, id, v.to))
      && (v.Discard? ==> IsDropped(s, s', pod, id, v.why))
  {
    var entry := Record(s, pod, id).entry;
    var v := Decide(s.cfg, who, pod, entry, s.now, env);
    SortedHere(s, pod);
    hide Decide, Inv, SortedPel, Append, StreamOk;
    if v.Keep? {
      hide SetHeld, Unread;
      HeldPel(s.streams[pod], id);
    } else {
      hide XAck, Unread, IsFreshCopy, IndexOf;
      AckedPel(s.streams[pod], id);
      if v.Move? {
        MoveShows(s, who, pod, id, env, evict);
      } else {
        AckOnly(s.streams[pod], id);
      }
    }
  }

  lemma AckOnly(st: Stream, id: Id)
    ensures var st' := XAck(st, id); st'.entries == st.entries && st'.cursor == st.cursor
  {
  }

  lemma MoveShows(s: State, who: nat, pod: nat, id: Id, env: Env, evict: nat)
    requires Inv(s) && Enabled(s, Process(who, pod, id, env, evict))
    requires Decide(s.cfg, who, pod, Record(s, pod, id).entry, s.now, env).Move?
    ensures var to := Decide(s.cfg, who, pod, Record(s, pod, id).entry, s.now, env).to;
      HasMoved(s, Step(s, Process(who, pod, id, env, evict)), pod, id, to)
  {
    var entry := Record(s, pod, id).entry;
    var v := Decide(s.cfg, who, pod, entry, s.now, env);
    var t := Append(s, v.to, Message(entry.client, entry.payload), entry.token, evict);
    SortedHere(s, pod);
    AppendIsFresh(s, v.to, entry, evict);
    hide Decide, Inv, Append, SortedPel, StreamOk, XAck, IsFreshCopy, IndexOf, CanEvict, Unread, HasMoved;
    assert Step(s, Process(who, pod, id, env, evict)) == AckAt(t, pod, id);
    AckedCopy(s, t, pod, id, v.to);
  }

  /** The acknowledgement after an append. */
  lemma AckedCopy(s: State, t: State, pod: nat, id: Id, to: nat)
    requires pod < |s.streams| == |t.streams| && to < |s.streams| && t.copies == s.copies + 1
    requires SortedPel(s.streams[pod].pel) && IsPending(s.streams[pod], id)
    requires forall q :: 0 <= q < |s.streams| && q != to ==> t.streams[q] == s.streams[q]
    requires t.streams[to].pel == s.streams[to].pel
    requires Unread(t.streams[to]) != []
    requires IsFreshCopy(Unread(t.streams[to])[|Unread(t.streams[to])| - 1], Record(s, pod, id).entry, s)
    requires s.log <= t.log && forall k :: |s.log| <= k < |t.log| ==> t.log[k].Dropped? && t.log[k].why == Trimmed
    ensures HasMoved(s, AckAt(t, pod, id), pod, id, to)
  {
    hide SortedPel, XAck, IsFreshCopy, IndexOf, Unread;
    AckedPel(s.streams[pod], id);
    AckOnly(t.streams[pod], id);
    AckSame(t.streams[pod], s.streams[pod], id);
    UnreadSame(t.streams[pod], XAck(t.streams[pod], id));
    PendingSame(XAck(t.streams[pod], id), XAck(s.streams[pod], id), id);
  }

  lemma PendingSame(st: Stream, st': Stream, id: Id)
    requires st.pel == st'.pel
    ensures IsPending(st, id) <==> IsPending(st', id)
  {
  }

  lemma AckSame(st: Stream, st': Stream, id: Id)
    requires st.pel == st'.pel
    ensures XAck(st, id).pel == XAck(st', id).pel && (IsPending(st, id) <==> IsPending(st', id))
  {
  }

  lemma UnreadSame(st: Stream, st': Stream)
    requires st'.entries == st.entries && st'.cursor == st.cursor
    ensures Unread(st') == Unread(st)
  {
  }

  /** The outcomes exclude one another. */
  lemma OutcomesDiffer(s: State, s': State, who: nat, pod: nat, id: Id)
    requires Inv(s) && pod < |s.streams| && IsPending(s.streams[pod], id)
    ensures StaysPending(s, s', pod, id) ==>
      !IsDelivered(s, s', who, pod, id) && (forall why :: !IsDropped(s, s', pod, id, why))
      && (forall to :: !HasMoved(s, s', pod, id, to))
    ensures IsDelivered(s, s', who, pod, id) ==>
      (forall why :: !IsDropped(s, s', pod, id, why)) && (forall to :: !HasMoved(s, s', pod, id, to))
    ensures forall why, to :: IsDropped(s, s', pod, id, why) ==> !HasMoved(s, s', pod, id, to)
    ensures forall why, why' :: IsDropped(s, s', pod, id, why) && IsDropped(s, s', pod, id, why') ==> why == why'
    ensures forall to, to' :: HasMoved(s, s', pod, id, to) && HasMoved(s, s', pod, id, to') ==> to == to'
  {
    forall why, why' | IsDropped(s, s', pod, id, why) && IsDropped(s, s', pod, id, why')
      ensures why == why'
    {
      assert s'.log[|s.log|] == Dropped(Record(s, pod, id).entry, why);
    }
    if IsDelivered(s, s', who, pod, id) {
      assert s'.log[|s.log|] == Delivered(Record(s, pod, id).entry, who);
    }
    forall to, to' | HasMoved(s, s', pod, id, to) && HasMoved(s, s', pod, id, to')
      ensures to == to'
    {
      if to != to' {
        FreshIsNew(s, s', to');
      }
    }
  }

  lemma FreshIsNew(s: State, s': State, q: nat)
    requires Inv(s) && q < |s.streams| == |s'.streams| && s'.streams[q].entries == s.streams[q].entries
    ensures forall i :: 0 <= i < |Unread(s'.streams[q])| ==> Unread(s'.streams[q])[i].copy < s.copies
  {
    assert PodOk(q, s.streams[q], s.now, s.copies, s.handed);
  }

  // ----- When -----

  /** Processing begins: a client, and not too old. */
  predicate InTime(s: State, e: Entry) {
    e.client != "" && (s.cfg.maxPendingMs > 0 ==> s.now - e.id.ms <= s.cfg.maxPendingMs)
  }

  predicate Lost(env: Env) {
    !env.local && env.first.At?
  }

  /** PublishToClient gets called: after a failed delivery when the client has moved to
      another pod, or because it is recorded on a third one. */
  predicate Passes(who: nat, pod: nat, env: Env) {
    || (env.local && !env.sent && env.again.At? && env.again.pod != who)
    || (Lost(env) && env.first.pod != who && env.first.pod != pod)
  }

  /** The client is recorded on the very pod whose stream it is, and that is not the
      worker's own. */
  predicate Returns(who: nat, pod: nat, env: Env) {
    Lost(env) && env.first.pod == pod && pod != who
  }

  /** When a message is dropped, for what. */
  predicate DropsFor(s: State, who: nat, pod: nat, e: Entry, env: Env, why: Reason) {
    var (age, window) := (s.now - e.id.ms, if s.cfg.maxPendingMs > 0 then s.cfg.maxPendingMs else 60000);
    match why
    case NoClient => e.client == ""
    case TooOld => e.client != "" && s.cfg.maxPendingMs > 0 && age > s.cfg.maxPendingMs
    case SendFailed =>
      InTime(s, e) && !env.sent
      && ((env.local && !Passes(who, pod, env)) || (Lost(env) && env.first.pod == who))
    case LookupTooLong => InTime(s, e) && !env.local && env.first.Failed? && age > window
    case OfflineTooLong => InTime(s, e) && !env.local && env.first.Offline? && age > window / 2
    case SourceAlive => InTime(s, e) && Returns(who, pod, env) && env.sourceAlive
    case RepublishFailed =>
      InTime(s, e)
      && ((Passes(who, pod, env) && (env.inner.Failed? || (env.inner.At? && !env.added)))
          || (Returns(who, pod, env) && !env.sourceAlive && !env.added))
    case RepublishOffline => InTime(s, e) && Passes(who, pod, env) && env.inner.Offline?
    case _ => false
  }

  predicate MovesTo(s: State, who: nat, pod: nat, e: Entry, env: Env, to: nat) {
    && InTime(s, e) && env.added
    && ((Returns(who, pod, env) && !env.sourceAlive && to == who)
        || (Passes(who, pod, env) && env.inner == At(to)))
  }

  lemma VerdictTable(s: State, who: nat, pod: nat, e: Entry, env: Env)
    ensures var v := Decide(s.cfg, who, pod, e, s.now, env);
      var (age, window) := (s.now - e.id.ms, if s.cfg.maxPendingMs > 0 then s.cfg.maxPendingMs else 60000);
      && (v.Keep? <==>
            InTime(s, e) && !env.local
            && ((env.first.Failed? && age <= window) || (env.first.Offline? && age <= window / 2)))
      && (v.Deliver? <==> InTime(s, e) && env.sent && (env.local || (Lost(env) && env.first.pod == who)))
      && (v.Move? ==> forall to :: MovesTo(s, who, pod, e, env, to) <==> to == v.to)
      && (!v.Move? ==> forall to :: !MovesTo(s, who, pod, e, env, to))
      && (v.Discard? ==> DropsFor(s, who, pod, e, env, v.why))
  {
  }

  lemma OneReason(s: State, who: nat, pod: nat, e: Entry, env: Env, why: Reason)
    ensures DropsFor(s, who, pod, e, env, why) <==>
      Decide(s.cfg, who, pod, e, s.now, env) == Discard(why)
  {
  }

  /** Exactly when a pass leaves an entry pending, delivers it, moves it where, or drops
      it for what. */
  lemma PassOutcomes(s: State, who: nat, pod: nat, id: Id, env: Env, evict: nat)
    requires Inv(s) && Enabled(s, Process(who, pod, id, env, evict))
    ensures var (s', e) := (Step(s, Process(who, pod, id, env, evict)), Record(s, pod, id).entry);
      var (age, window) := (s.now - e.id.ms, if s.cfg.maxPendingMs > 0 then s.cfg.maxPendingMs else 60000);
      && (StaysPending(s, s', pod, id) <==>
            InTime(s, e) && !env.local
            && ((env.first.Failed? && age <= window) || (env.first.Offline? && age <= window / 2)))
      && (IsDelivered(s, s', who, pod, id) <==>
            InTime(s, e) && env.sent && (env.local || (Lost(env) && env.first.pod == who)))
      && (forall to :: HasMoved(s, s', pod, id, to) <==> MovesTo(s, who, pod, e, env, to))
      && (forall why :: IsDropped(s, s', pod, id, why) <==> DropsFor(s, who, pod, e, env, why))
  {
    hide StaysPending, IsDelivered, IsDropped, HasMoved, Step, Inv, Decide, DropsFor, MovesTo, InTime;
    var (s', e) := (Step(s, Process(who, pod, id, env, evict)), Record(s, pod, id).entry);
    VerdictShows(s, who, pod, id, env, evict);
    OutcomesDiffer(s, s', who, pod, id);
    VerdictTable(s, who, pod, e, env);
    forall why
      ensures DropsFor(s, who, pod, e, env, why) <==> Decide(s.cfg, who, pod, e, s.now, env) == Discard(why)
    {
      OneReason(s, who, pod, e, env, why);
    }
  }

  // ----- In runs -----

  lemma {:induction false} TwoStreams(streams: seq<Stream>, p: nat, q: nat, t: nat)
    requires p < |streams| && q < |streams|
    ensures AllLive(streams, t) >= LiveIn(streams[p], t)
    ensures p != q ==> AllLive(streams, t) >= LiveIn(streams[p], t) + LiveIn(streams[q], t)
  {
    hide LiveIn;
    if p > 0 && q > 0 {
      TwoStreams(streams[1..], p - 1, q - 1, t);
    } else if p > 0 {
      TwoStreams(streams[1..], p - 1, p - 1, t);
    } else if q > 0 {
      TwoStreams(streams[1..], q - 1, q - 1, t);
    }
  }

  lemma {:induction false} HasCopy(es: seq<Entry>, t: nat, i: nat)
    requires i < |es| && es[i].token == t
    ensures Copies(es, t) >= 1
  {
    if i > 0 {
      HasCopy(es[1..], t, i - 1);
    }
  }

  /** After a move there is the one copy, and it is where it was moved to. */
  lemma OneCopyThere(cfg: Config, pods: nat, es: seq<Event>, e: Event, to: nat)
    requires Atomic(es) && Run(Start(cfg, pods), es).Some? && e.Process?
    requires var s := Run(Start(cfg, pods), es).value; Enabled(s, e) && HasMoved(s, Step(s, e), e.pod, e.id, to)
    ensures var s := Run(Start(cfg, pods), es).value; var (s', t) := (Step(s, e), Record(s, e.pod, e.id).entry.token);
      && to < |s'.streams| == |s.streams|
      && LiveIn(s'.streams[to], t) == 1
      && (forall q :: 0 <= q < |s'.streams| && q != to ==> LiveIn(s'.streams[q], t) == 0)
  {
    hide Run, Step;
    var s := Run(Start(cfg, pods), es).value;
    var (s', t) := (Step(s, e), Record(s, e.pod, e.id).entry.token);
    RunSnoc(Start(cfg, pods), es, e);
    assert (es + [e])[..|es|] == es;
    RunBalance(cfg, pods, es + [e], t);
    var u := Unread(s'.streams[to]);
    HasCopy(u, t, |u| - 1);
    LiveSplit(s'.streams[to], t);
    hide LiveIn, AllLive, Settled;
    TwoStreams(s'.streams, to, to, t);
    forall q | 0 <= q < |s'.streams| && q != to
      ensures LiveIn(s'.streams[q], t) == 0
    {
      TwoStreams(s'.streams, to, q, t);
    }
  }

  /** A message in a stream that its client's row still names, in time, for a client that
      is not with the worker: if that pod has no heartbeat and the append succeeds, it
      lives on as one unread copy in the worker's own stream and nowhere else; if the pod
      has a heartbeat, or the append fails, it is on record as dropped. Each exactly
      then. */
  lemma RescuedFromTheDead(cfg: Config, pods: nat, es: seq<Event>, who: nat, pod: nat, id: Id, env: Env, evict: nat)
    requires Atomic(es) && Run(Start(cfg, pods), es).Some?
    requires var s := Run(Start(cfg, pods), es).value;
      && Enabled(s, Process(who, pod, id, env, evict)) && InTime(s, Record(s, pod, id).entry)
    requires !env.local && env.first == At(pod) && pod != who
    ensures var s := Run(Start(cfg, pods), es).value;
      var (s', e) := (Step(s, Process(who, pod, id, env, evict)), Record(s, pod, id).entry);
      && (HasMoved(s, s', pod, id, who) <==> !env.sourceAlive && env.added)
      && (HasMoved(s, s', pod, id, who) ==>
            && LiveIn(s'.streams[who], e.token) == 1
            && (forall q :: 0 <= q < |s'.streams| && q != who ==> LiveIn(s'.streams[q], e.token) == 0))
      && (IsDropped(s, s', pod, id, SourceAlive) <==> env.sourceAlive)
      && (IsDropped(s, s', pod, id, RepublishFailed) <==> !env.sourceAlive && !env.added)
  {
    hide Run, Step, HasMoved, IsDropped, InTime, StaysPending, IsDelivered;
    var s := Run(Start(cfg, pods), es).value;
    StartInv(cfg, pods);
    RunInv(Start(cfg, pods), es);
    PassOutcomes(s, who, pod, id, env, evict);
    if HasMoved(s, Step(s, Process(who, pod, id, env, evict)), pod, id, who) {
      OneCopyThere(cfg, pods, es, Process(who, pod, id, env, evict), who);
    }
  }

  /** A client that is recorded on the worker's own pod but not in its pool yet gets one
      attempt: delivered on the spot exactly when the send succeeds, else dropped. */
  lemma RaceLocalDelivery(s: State, who: nat, pod: nat, id: Id, env: Env, evict: nat)
    requires Inv(s) && Enabled(s, Process(who, pod, id, env, evict)) && InTime(s, Record(s, pod, id).entry)
    requires !env.local && env.first == At(who)
    ensures var s' := Step(s, Process(who, pod, id, env, evict));
      && (IsDelivered(s, s', who, pod, id) <==> env.sent)
      && (IsDropped(s, s', pod, id, SendFailed) <==> !env.sent)
  {
    hide Step, Enabled, HasMoved, IsDropped, InTime, StaysPending, IsDelivered, Inv;
    PassOutcomes(s, who, pod, id, env, evict);
  }

  // ----- Publishing and claiming -----

  /** An original publish: one unread entry more, at the end of that stream, with the
      message and its own token. */
  lemma PublishOutcome(s: State, pod: nat, m: Message, evict: nat)
    requires Inv(s) && Enabled(s, Publish(pod, m, evict))
    ensures var s' := Step(s, Publish(pod, m, evict)); var u := Unread(s'.streams[pod]);
      && s'.published == s.published + [m] && s'.copies == s.copies + 1
      && |s'.streams| == |s.streams| && s'.streams[pod].pel == s.streams[pod].pel
      && (forall q :: 0 <= q < |s.streams| && q != pod ==> s'.streams[q] == s.streams[q])
      && u != [] && IsFreshCopy(u[|u| - 1], Entry(ZERO, m.client, m.payload, |s.published|, 0), s)
      && s.log <= s'.log && forall k :: |s.log| <= k < |s'.log| ==> s'.log[k].Dropped? && s'.log[k].why == Trimmed
  {
    hide Inv, Append, Unread;
    AppendIsFresh(s, pod, Entry(ZERO, m.client, m.payload, |s.published|, 0), evict);
  }
}
