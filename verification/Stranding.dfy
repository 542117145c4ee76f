/** Stranded messages: pending, in nobody's hands, trimmed away. No claim
    returns one, and nothing but a drop ever comes of it. */
module Stranding {
  import opened StreamIds
  import opened RedisStreams
  import opened Cluster
  import opened WellFormed
  import opened Conservation

  ghost predicate Stuck(st: Stream, r: Pending) {
    r in st.pel && Stranded(r, st.entries)
  }

  /** What a claim returns is stored. */
  lemma {:induction false} ClaimedIsStored(pel: seq<Pending>, es: seq<Entry>, now: nat, minIdle: nat, j: nat)
    requires j < |Claimed(pel, es, now, minIdle)|
    ensures Stored(es, Claimed(pel, es, now, minIdle)[j].id)
  {
    hide Stored;
    var c, rest := Claimed(pel, es, now, minIdle), Claimed(pel[1..], es, now, minIdle);
    var head := |c| - |rest|;
    if j >= head {
      assert c[j] == rest[j - head];
      ClaimedIsStored(pel[1..], es, now, minIdle, j - head);
    }
  }

  // ----- One stream -----

  lemma StuckAdd(st: Stream, now: nat, e: Entry, k: nat, r: Pending)
    requires StreamOk(st, now) && Stuck(st, r) && e.id == NextId(st.top, now) && k <= |st.entries| + 1
    ensures Stuck(XTrim(XAdd(st, e), k), r)
  {
    var es := st.entries + [e];
    forall i | 0 <= i < |es[k..]| ensures es[k..][i].id != r.entry.id {
      assert es[k..][i] == es[k + i];
      if k + i < |st.entries| {
        assert es[k + i] == st.entries[k + i];
      }
    }
  }

  lemma StuckTrim(st: Stream, k: nat, r: Pending)
    requires Stuck(st, r) && k <= |st.entries|
    ensures Stuck(XTrim(st, k), r)
  {
    forall i | 0 <= i < |st.entries[k..]| ensures st.entries[k..][i].id != r.entry.id {
      assert st.entries[k..][i] == st.entries[k + i];
    }
  }

  lemma StuckOther(st: Stream, i: nat, pel: seq<Pending>, r: Pending)
    requires Stuck(st, r) && i < |st.pel| && st.pel[i] != r
    requires
      || pel == Without(st.pel, i)
      || (|pel| == |st.pel| && forall k :: 0 <= k < |pel| && k != i ==> pel[k] == st.pel[k])
    ensures Stuck(st.(pel := pel), r)
  {
    var k :| 0 <= k < |st.pel| && st.pel[k] == r;
    if pel == Without(st.pel, i) {
      assert pel[if k < i then k else k - 1] == r;
    } else {
      assert pel[k] == r;
    }
  }

  /** A claim over a stranded record deletes it, one elsewhere leaves it. */
  lemma StuckClaim(st: Stream, lo: nat, hi: nat, now: nat, minIdle: nat, r: Pending)
    requires lo <= hi <= |st.pel| && Stuck(st, r)
    ensures Stuck(XAutoClaim(st, lo, hi, now, minIdle), r) || r.entry in ClaimLost(st.pel[lo..hi], st.entries)
  {
    hide Stranded, ClaimPel, ClaimLost;
    var k :| 0 <= k < |st.pel| && st.pel[k] == r;
    var pel := XAutoClaim(st, lo, hi, now, minIdle).pel;
    if k < lo {
      assert pel[k] == r;
    } else if hi <= k {
      assert pel[k - |st.pel| + |pel|] == r;
    } else {
      assert st.pel[lo..hi][k - lo] == r;
      GoneIsLost(st.pel[lo..hi], st.entries, k - lo);
    }
  }

  lemma {:induction false} GoneIsLost(pel: seq<Pending>, es: seq<Entry>, k: nat)
    requires k < |pel| && Stranded(pel[k], es)
    ensures pel[k].entry in ClaimLost(pel, es)
  {
    if k > 0 {
      GoneIsLost(pel[1..], es, k - 1);
    }
  }

  // ----- Every step -----

  ghost predicate NewDrop(before: seq<Outcome>, log: seq<Outcome>, e: Entry) {
    && before <= log
    && exists k :: |before| <= k < |log| && log[k].Dropped? && log[k].entry == e
  }

  lemma LossIsNew(before: seq<Outcome>, es: seq<Entry>, why: Reason, e: Entry)
    requires e in es
    ensures NewDrop(before, before + Losses(es, why), e)
  {
    var i :| 0 <= i < |es| && es[i] == e;
    assert (before + Losses(es, why))[|before| + i] == Dropped(e, why);
  }

  lemma StuckAppend(s: State, to: nat, m: Message, token: nat, evict: nat, q: nat, r: Pending)
    requires Inv(s) && to < |s.streams| && CanEvict(s, to, evict)
    requires q < |s.streams| && Stuck(s.streams[q], r)
    ensures var s' := Append(s, to, m, token, evict);
      |s'.streams| == |s.streams| && Stuck(s'.streams[q], r)
  {
    if to == q {
      assert PodOk(q, s.streams[q], s.now, s.copies, s.handed);
      StuckAdd(s.streams[q], s.now, NewEntry(s, to, m, token), evict, r);
    }
  }

  lemma StuckProcess(s: State, e: Event, q: nat, r: Pending)
    requires Inv(s) && Enabled(s, e) && e.Process? && q < |s.streams| && Stuck(s.streams[q], r)
    ensures q < |Step(s, e).streams| && Stuck(Step(s, e).streams[q], r)
  {
    var entry := Record(s, e.pod, e.id).entry;
    var v := Decide(s.cfg, e.who, e.pod, entry, s.now, e.env);
    var t := if v.Keep? then s else Settle(s, e.who, entry, v, e.evict);
    var i := IndexOf(s.streams[e.pod].pel, e.id);
    hide Decide, Inv, Stuck, Append, IndexOf, Without, CanEvict;
    if v.Move? {
      StuckAppend(s, v.to, Message(entry.client, entry.payload), entry.token, e.evict, q, r);
      AppendKeepsPels(s, v.to, Message(entry.client, entry.payload), entry.token, e.evict);
    }
    if e.pod == q {
      NotInHand(s.streams[q], r, i);
      StuckOther(t.streams[q], i, Step(s, e).streams[q].pel, r);
    }
  }

  lemma AppendKeepsPels(s: State, to: nat, m: Message, token: nat, evict: nat)
    requires to < |s.streams| && CanEvict(s, to, evict)
    ensures var s' := Append(s, to, m, token, evict);
      |s'.streams| == |s.streams| && forall p :: 0 <= p < |s.streams| ==> s'.streams[p].pel == s.streams[p].pel
  {
  }

  lemma NotInHand(st: Stream, r: Pending, i: nat)
    requires Stuck(st, r) && i < |st.pel| && st.pel[i].held
    ensures st.pel[i] != r
  {
  }

  lemma StuckForce(s: State, pod: nat, id: Id, q: nat, r: Pending)
    requires Enabled(s, ForceAck(pod, id)) && q < |s.streams| && Stuck(s.streams[q], r)
    ensures var s' := Step(s, ForceAck(pod, id));
      q < |s'.streams| && (Stuck(s'.streams[q], r) || NewDrop(s.log, s'.log, r.entry))
  {
    var (st, s') := (s.streams[pod], Step(s, ForceAck(pod, id)));
    var i := IndexOf(st.pel, id);
    if q == pod {
      if st.pel[i] == r {
        assert s'.log[|s.log|] == Dropped(r.entry, ForceAcked);
      } else {
        StuckOther(st, i, s'.streams[q].pel, r);
      }
    }
  }

  lemma StuckStep(s: State, e: Event, q: nat, r: Pending)
    requires Inv(s) && Enabled(s, e) && !e.Effect? && !e.Ack? && q < |s.streams| && Stuck(s.streams[q], r)
    ensures q < |Step(s, e).streams|
    ensures Stuck(Step(s, e).streams[q], r) || NewDrop(s.log, Step(s, e).log, r.entry)
  {
    var st := s.streams[q];
    assert PodOk(q, st, s.now, s.copies, s.handed);
    match e
    case Tick(_) =>
    case Publish(pod, m, evict) => StuckAppend(s, pod, m, |s.published|, evict, q, r);
    case CreateGroup(_) =>
    case Read(_, _) => StuckRead(s, e, q, r);
    case Claim(pod, lo, hi) =>
      if pod == q {
        StuckClaim(st, lo, hi, s.now, MinIdle(s.cfg), r);
        var lost := ClaimLost(st.pel[lo..hi], st.entries);
        if r.entry in lost {
          LossIsNew(s.log, lost, Trimmed, r.entry);
        }
      }
    case Process(_, _, _, _, _) => StuckProcess(s, e, q, r);
    case Abandon(pod, id) => StuckAbandon(s, pod, id, q, r);
    case ForceAck(pod, id) => StuckForce(s, pod, id, q, r);
    case Trim(pod, k, _) =>
      if pod == q {
        StuckTrim(st, k, r);
      }
    case DropStream(pod) =>
      if pod == q {
        LossIsNew(s.log, LiveEntries(st), Deleted, r.entry);
      }
  }

  lemma StuckRead(s: State, e: Event, q: nat, r: Pending)
    requires e.Read? && Enabled(s, e) && q < |s.streams| && Stuck(s.streams[q], r)
    ensures q < |Step(s, e).streams| && Stuck(Step(s, e).streams[q], r)
  {
    if e.pod == q {
      var pel := s.streams[q].pel;
      assert forall b: seq<Pending> :: r in pel ==> r in pel + b;
    }
  }

  lemma StuckAbandon(s: State, pod: nat, id: Id, q: nat, r: Pending)
    requires Enabled(s, Abandon(pod, id)) && q < |s.streams| && Stuck(s.streams[q], r)
    ensures var s' := Step(s, Abandon(pod, id)); q < |s'.streams| && Stuck(s'.streams[q], r)
  {
    if pod == q {
      var st := s.streams[q];
      var i := IndexOf(st.pel, id);
      if st.pel[i] == r {
        assert SetHeld(st, id, 0).pel[i] == r;
      } else {
        StuckOther(st, i, SetHeld(st, id, 0).pel, r);
      }
    }
  }

  // ----- Every run -----

  lemma LogGrows(s: State, e: Event)
    requires Enabled(s, e)
    ensures s.log <= Step(s, e).log
    ensures |Step(s, e).streams| == |s.streams|
  {
    hide Decide, XAutoClaim, XReadGroup, XAck, XTrim, XAdd, TrimLost, ClaimLost, Losses, SetHeld, XGroupCreate;
  }

  lemma {:induction false} StuckRun(s: State, es: seq<Event>, q: nat, r: Pending)
    requires Inv(s) && Atomic(es) && Run(s, es).Some? && q < |s.streams| && Stuck(s.streams[q], r)
    ensures var last := Run(s, es).value;
      && q < |last.streams| && s.log <= last.log
      && (Stuck(last.streams[q], r) || NewDrop(s.log, last.log, r.entry))
  {
    hide Stuck, Step, Enabled, Inv;
    if es != [] {
      var init, e := es[..|es| - 1], es[|es| - 1];
      StuckRun(s, init, q, r);
      RunInv(s, init);
      var t := Run(s, init).value;
      LogGrows(t, e);
      if Stuck(t.streams[q], r) {
        StuckStep(t, e, q, r);
        if !Stuck(Step(t, e).streams[q], r) {
          var k :| |t.log| <= k < |Step(t, e).log| && Step(t, e).log[k].Dropped? && Step(t, e).log[k].entry == r.entry;
          assert NewDrop(s.log, Step(t, e).log, r.entry);
        }
      } else {
        var k :| |s.log| <= k < |t.log| && t.log[k].Dropped? && t.log[k].entry == r.entry;
        assert Step(t, e).log[k] == t.log[k];
      }
    }
  }

  lemma {:induction false} StuckIsCounted(pel: seq<Pending>, es: seq<Entry>, i: nat)
    requires i < |pel| && Stranded(pel[i], es)
    ensures Copies(StrandedOf(pel, es), pel[i].entry.token) >= 1
  {
    hide Stranded;
    var t, rest := pel[i].entry.token, StrandedOf(pel[1..], es);
    var head := if Stranded(pel[0], es) then [pel[0].entry] else [];
    CopiesConcat(head, rest, t);
    if i > 0 {
      StuckIsCounted(pel[1..], es, i - 1);
    } else {
      assert head[1..] == [];
    }
  }

  lemma {:induction false} StreamIsCounted(streams: seq<Stream>, q: nat, r: Pending)
    requires q < |streams| && Stuck(streams[q], r)
    ensures AllStranded(streams, r.entry.token) >= 1
  {
    if q == 0 {
      var i :| 0 <= i < |streams[0].pel| && streams[0].pel[i] == r;
      StuckIsCounted(streams[0].pel, streams[0].entries, i);
    } else {
      StreamIsCounted(streams[1..], q - 1, r);
    }
  }

  lemma {:induction false} DropIsCounted(log: seq<Outcome>, k: nat)
    requires k < |log| && log[k].Dropped?
    ensures Drops(log, log[k].entry.token) >= 1
  {
    if k < |log| - 1 {
      DropIsCounted(log[..|log| - 1], k);
    }
  }

  /** Once a message is stranded, whatever follows, it is never delivered nor
      brought back within reach: it stays stranded until it is dropped. */
  lemma StrandedIsNeverDelivered(cfg: Config, pods: nat, es: seq<Event>, fs: seq<Event>, q: nat, r: Pending)
    requires Atomic(es) && Atomic(fs)
    requires Run(Start(cfg, pods), es).Some?
    requires var s := Run(Start(cfg, pods), es).value;
      q < |s.streams| && Stuck(s.streams[q], r) && Run(s, fs).Some?
    ensures var last := Run(Run(Start(cfg, pods), es).value, fs).value; var t := r.entry.token;
      && Deliveries(last.log, t) == 0 && AllRecoverable(last.streams, t) == 0
      && AllStranded(last.streams, t) + Drops(last.log, t) == 1
      && (Drops(last.log, t) == 0 ==> q < |last.streams| && Stuck(last.streams[q], r))
  {
    hide Run, Stuck, Deliveries, Drops, AllRecoverable, AllStranded;
    StartInv(cfg, pods);
    RunInv(Start(cfg, pods), es);
    var s := Run(Start(cfg, pods), es).value;
    StuckRun(s, fs, q, r);
    RunConcat(Start(cfg, pods), es, fs);
    ExactlyOnceAccount(cfg, pods, es + fs, r.entry.token);
    var last := Run(s, fs).value;
    if Stuck(last.streams[q], r) {
      StreamIsCounted(last.streams, q, r);
    } else {
      var k :| |s.log| <= k < |last.log| && last.log[k].Dropped? && last.log[k].entry == r.entry;
      DropIsCounted(last.log, k);
    }
  }
}
