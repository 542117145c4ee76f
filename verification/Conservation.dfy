/** Exact conservation: while processing is atomic with its acknowledgement,
    every published message is, at every moment, exactly one of: one live copy
    somewhere, one delivery, or one recorded drop. */
module Conservation {
  import opened StreamIds
  import opened RedisStreams
  import opened Cluster
  import opened WellFormed

  /** How many of the entries carry message t. */
  function Copies(es: seq<Entry>, t: nat): nat {
    if es == [] then 0 else (if es[0].token == t then 1 else 0) + Copies(es[1..], t)
  }

  function One(e: Entry, t: nat): nat { if e.token == t then 1 else 0 }

  function OutcomeEntries(os: seq<Outcome>): (es: seq<Entry>)
    ensures |es| == |os|
    ensures forall i :: 0 <= i < |os| ==> es[i] == os[i].entry
  {
    seq(|os|, i requires 0 <= i < |os| => os[i].entry)
  }

  /** Deliveries and drops of message t so far. */
  function Settled(log: seq<Outcome>, t: nat): nat {
    Copies(OutcomeEntries(log), t)
  }

  function LiveIn(st: Stream, t: nat): nat {
    Copies(LiveEntries(st), t)
  }

  function AllLive(streams: seq<Stream>, t: nat): nat {
    if streams == [] then 0 else LiveIn(streams[0], t) + AllLive(streams[1..], t)
  }

  ghost predicate Balanced(s: State, t: nat) {
    Total(s, t) == if t < |s.published| then 1 else 0
  }

  lemma {:induction false} CopiesConcat(a: seq<Entry>, b: seq<Entry>, t: nat)
    ensures Copies(a + b, t) == Copies(a, t) + Copies(b, t)
  {
    if a == [] {
      assert a + b == b;
    } else {
      assert (a + b)[1..] == a[1..] + b;
      CopiesConcat(a[1..], b, t);
    }
  }

  lemma SettledConcat(a: seq<Outcome>, b: seq<Outcome>, t: nat)
    ensures Settled(a + b, t) == Settled(a, t) + Settled(b, t)
  {
    assert OutcomeEntries(a + b) == OutcomeEntries(a) + OutcomeEntries(b);
    CopiesConcat(OutcomeEntries(a), OutcomeEntries(b), t);
  }

  lemma SettledLosses(log: seq<Outcome>, es: seq<Entry>, why: Reason, t: nat)
    ensures Settled(log + Losses(es, why), t) == Settled(log, t) + Copies(es, t)
  {
    SettledConcat(log, Losses(es, why), t);
    assert OutcomeEntries(Losses(es, why)) == es;
  }

  lemma SettledOne(log: seq<Outcome>, o: Outcome, t: nat)
    ensures Settled(log + [o], t) == Settled(log, t) + One(o.entry, t)
  {
    SettledConcat(log, [o], t);
    assert OutcomeEntries([o]) == [o.entry];
    assert Copies([o.entry], t) == One(o.entry, t) + Copies([], t);
  }

  lemma {:induction false} AllLiveUpdate(streams: seq<Stream>, i: nat, st: Stream, t: nat)
    requires i < |streams|
    ensures AllLive(streams[i := st], t) + LiveIn(streams[i], t) == AllLive(streams, t) + LiveIn(st, t)
  {
    hide LiveIn;
    if i == 0 {
      assert streams[0 := st][1..] == streams[1..];
    } else {
      assert streams[i := st][1..] == streams[1..][i - 1 := st];
      AllLiveUpdate(streams[1..], i - 1, st, t);
    }
  }

  // ----- One stream -----

  lemma LiveSplit(st: Stream, t: nat)
    ensures LiveIn(st, t) == Copies(Unread(st), t) + Copies(PelEntries(st.pel), t)
  {
    CopiesConcat(Unread(st), PelEntries(st.pel), t);
  }

  lemma LiveAdd(st: Stream, now: nat, e: Entry, t: nat)
    requires StreamOk(st, now) && e.id == NextId(st.top, now)
    ensures LiveIn(XAdd(st, e), t) == LiveIn(st, t) + One(e, t)
  {
    AddedIsUnread(st, now, e);
    CopiesConcat(Unread(st), [e], t);
    assert [e][1..] == [];
    LiveSplit(st, t);
    LiveSplit(XAdd(st, e), t);
  }

  lemma LiveTrim(st: Stream, now: nat, k: nat, t: nat)
    requires StreamOk(st, now) && k <= |st.entries|
    ensures LiveIn(st, t) == LiveIn(XTrim(st, k), t) + Copies(TrimLost(st, k), t)
  {
    TrimUnread(st, now, k);
    CopiesConcat(TrimLost(st, k), Unread(XTrim(st, k)), t);
    LiveSplit(st, t);
    LiveSplit(XTrim(st, k), t);
  }

  lemma LiveRead(st: Stream, now: nat, count: nat, t: nat)
    requires StreamOk(st, now)
    ensures LiveIn(XReadGroup(st, count, now), t) == LiveIn(st, t)
  {
    var b, st' := Batch(st, count), XReadGroup(st, count, now);
    ReadMovesBatch(st, now, count);
    CopiesConcat(b, Unread(st'), t);
    assert PelEntries(st.pel + HandOut(b, now)) == PelEntries(st.pel) + b;
    CopiesConcat(PelEntries(st.pel), b, t);
    LiveSplit(st, t);
    LiveSplit(st', t);
  }

  lemma PelConcat(a: seq<Pending>, b: seq<Pending>, t: nat)
    ensures Copies(PelEntries(a + b), t) == Copies(PelEntries(a), t) + Copies(PelEntries(b), t)
  {
    assert PelEntries(a + b) == PelEntries(a) + PelEntries(b);
    CopiesConcat(PelEntries(a), PelEntries(b), t);
  }

  lemma PelCons(r: Pending, pel: seq<Pending>, t: nat)
    ensures Copies(PelEntries([r] + pel), t) == One(r.entry, t) + Copies(PelEntries(pel), t)
  {
    PelConcat([r], pel, t);
    assert PelEntries([r]) == [r.entry];
    assert [r.entry][1..] == [];
  }

  lemma {:induction false} ClaimCopies(pel: seq<Pending>, es: seq<Entry>, now: nat, minIdle: nat, t: nat)
    ensures Copies(PelEntries(pel), t)
      == Copies(PelEntries(ClaimPel(pel, es, now, minIdle)), t) + Copies(ClaimLost(pel, es), t)
  {
    if pel != [] {
      var r, rest := pel[0], pel[1..];
      var (c, lost) := (ClaimPel(rest, es, now, minIdle), ClaimLost(rest, es));
      ClaimCopies(rest, es, now, minIdle, t);
      assert pel == [r] + rest;
      PelCons(r, rest, t);
      if !Stored(es, r.entry.id) {
        assert ClaimPel(pel, es, now, minIdle) == c;
        assert ClaimLost(pel, es) == [r.entry] + lost;
        assert ([r.entry] + lost)[1..] == lost;
      } else {
        var r' := if Due(r, now, minIdle) then Pending(r.entry, now, r.times + 1, true, r.kept) else r;
        assert ClaimPel(pel, es, now, minIdle) == [r'] + c;
        assert ClaimLost(pel, es) == lost;
        PelCons(r', c, t);
      }
    }
  }

  lemma LiveClaim(st: Stream, lo: nat, hi: nat, now: nat, minIdle: nat, t: nat)
    requires lo <= hi <= |st.pel|
    ensures LiveIn(st, t) == LiveIn(XAutoClaim(st, lo, hi, now, minIdle), t)
      + Copies(ClaimLost(st.pel[lo..hi], st.entries), t)
  {
    var (a, m, z) := (st.pel[..lo], st.pel[lo..hi], st.pel[hi..]);
    var c := ClaimPel(m, st.entries, now, minIdle);
    assert st.pel == a + m + z;
    PelConcat(a + m, z, t);
    PelConcat(a, m, t);
    PelConcat(a + c, z, t);
    PelConcat(a, c, t);
    ClaimCopies(m, st.entries, now, minIdle, t);
    LiveSplit(st, t);
    LiveSplit(XAutoClaim(st, lo, hi, now, minIdle), t);
  }

  lemma LiveAck(st: Stream, id: Id, t: nat)
    requires IsPending(st, id)
    ensures LiveIn(st, t) == LiveIn(XAck(st, id), t) + One(st.pel[IndexOf(st.pel, id)].entry, t)
  {
    var i := IndexOf(st.pel, id);
    var (a, r, z) := (st.pel[..i], st.pel[i], st.pel[i + 1..]);
    assert st.pel == a + ([r] + z);
    PelConcat(a, [r] + z, t);
    PelCons(r, z, t);
    PelConcat(a, z, t);
    LiveSplit(st, t);
    LiveSplit(XAck(st, id), t);
  }

  lemma LiveHeld(st: Stream, id: Id, kept: nat, t: nat)
    requires IsPending(st, id)
    ensures LiveIn(SetHeld(st, id, kept), t) == LiveIn(st, t)
  {
    assert PelEntries(SetHeld(st, id, kept).pel) == PelEntries(st.pel);
  }

  lemma LiveCreate(st: Stream, t: nat)
    requires !st.grouped ==> st.cursor == ZERO && st.pel == []
    ensures LiveIn(XGroupCreate(st), t) == LiveIn(st, t)
  {
  }

  // ----- Every step -----

  function Total(s: State, t: nat): nat {
    AllLive(s.streams, t) + Settled(s.log, t)
  }

  lemma EvictBalance(s: State, pod: nat, k: nat, t: nat)
    requires Inv(s) && pod < |s.streams| && k <= |s.streams[pod].entries|
    ensures Total(Evict(s, pod, k), t) == Total(s, t)
  {
    var st := s.streams[pod];
    LiveTrim(st, s.now, k, t);
    AllLiveUpdate(s.streams, pod, XTrim(st, k), t);
    SettledLosses(s.log, TrimLost(st, k), Trimmed, t);
  }

  lemma AppendBalance(s: State, pod: nat, m: Message, token: nat, evict: nat, t: nat)
    requires Inv(s) && pod < |s.streams| && CanEvict(s, pod, evict)
    ensures Total(Append(s, pod, m, token, evict), t) == Total(s, t) + (if token == t then 1 else 0)
  {
    var e := NewEntry(s, pod, m, token);
    var s1 := WithStream(s, pod, XAdd(s.streams[pod], e)).(copies := s.copies + 1);
    LiveAdd(s.streams[pod], s.now, e, t);
    AllLiveUpdate(s.streams, pod, XAdd(s.streams[pod], e), t);
    PodAdd(pod, s.streams[pod], s.now, s.copies, s.handed, e);
    OneStream(s, s1, pod);
    hide Inv, Evict, XAdd;
    EvictBalance(s1, pod, evict, t);
  }

  /** A verdict other than Keep accounts for the entry once more. */
  lemma SettleBalance(s: State, who: nat, e: Entry, v: Verdict, evict: nat, t: nat)
    requires Inv(s) && VerdictFits(s, v, evict) && !v.Keep?
    ensures Total(Settle(s, who, e, v, evict), t) == Total(s, t) + One(e, t)
  {
    if v.Deliver? {
      SettledOne(s.log, Delivered(e, who), t);
    } else if v.Discard? {
      SettledOne(s.log, Dropped(e, v.why), t);
    } else {
      AppendBalance(s, v.to, Message(e.client, e.payload), e.token, evict, t);
    }
  }

  lemma SettleKeepsPel(s: State, who: nat, e: Entry, v: Verdict, evict: nat, pod: nat)
    requires VerdictFits(s, v, evict) && pod < |s.streams|
    ensures var s' := Settle(s, who, e, v, evict);
      |s'.streams| == |s.streams| && s'.streams[pod].pel == s.streams[pod].pel
  {
  }

  lemma ProcessBalance(s: State, e: Event, t: nat)
    requires Inv(s) && Balanced(s, t) && e.Process? && Enabled(s, e)
    ensures Balanced(Step(s, e), t)
  {
    var entry := Record(s, e.pod, e.id).entry;
    var v := Decide(s.cfg, e.who, e.pod, entry, s.now, e.env);
    if v.Keep? {
      LiveHeld(s.streams[e.pod], e.id, 1, t);
      AllLiveUpdate(s.streams, e.pod, SetHeld(s.streams[e.pod], e.id, 1), t);
    } else {
      var s1 := Settle(s, e.who, entry, v, e.evict);
      SettleBalance(s, e.who, entry, v, e.evict, t);
      SettleKeepsPel(s, e.who, entry, v, e.evict, e.pod);
      LiveAck(s1.streams[e.pod], e.id, t);
      AllLiveUpdate(s1.streams, e.pod, XAck(s1.streams[e.pod], e.id), t);
    }
  }

  lemma ClaimBalance(s: State, e: Event, t: nat)
    requires Balanced(s, t) && e.Claim? && Enabled(s, e)
    ensures Balanced(Step(s, e), t)
  {
    var st, idle := s.streams[e.pod], MinIdle(s.cfg);
    LiveClaim(st, e.lo, e.hi, s.now, idle, t);
    AllLiveUpdate(s.streams, e.pod, XAutoClaim(st, e.lo, e.hi, s.now, idle), t);
    SettledLosses(s.log, ClaimLost(st.pel[e.lo..e.hi], st.entries), Trimmed, t);
  }

  lemma ForceBalance(s: State, e: Event, t: nat)
    requires Balanced(s, t) && e.ForceAck? && Enabled(s, e)
    ensures Balanced(Step(s, e), t)
  {
    var st := s.streams[e.pod];
    LiveAck(st, e.id, t);
    AllLiveUpdate(s.streams, e.pod, XAck(st, e.id), t);
    SettledOne(s.log, Dropped(Record(s, e.pod, e.id).entry, ForceAcked), t);
  }

  /** Replacing a stream by one with as many live copies. */
  lemma SameLive(s: State, s': State, pod: nat, t: nat)
    requires Balanced(s, t) && pod < |s.streams|
    requires |s'.streams| == |s.streams| && s'.streams == s.streams[pod := s'.streams[pod]]
    requires s'.log == s.log && s'.published == s.published
    requires LiveIn(s'.streams[pod], t) == LiveIn(s.streams[pod], t)
    ensures Balanced(s', t)
  {
    AllLiveUpdate(s.streams, pod, s'.streams[pod], t);
  }

  lemma ReadBalance(s: State, e: Event, t: nat)
    requires Inv(s) && Balanced(s, t) && e.Read? && Enabled(s, e)
    ensures Balanced(Step(s, e), t)
  {
    LiveRead(s.streams[e.pod], s.now, e.count, t);
    SameLive(s, Step(s, e), e.pod, t);
  }

  lemma CreateBalance(s: State, e: Event, t: nat)
    requires Inv(s) && Balanced(s, t) && e.CreateGroup? && Enabled(s, e)
    ensures Balanced(Step(s, e), t)
  {
    LiveCreate(s.streams[e.pod], t);
    SameLive(s, Step(s, e), e.pod, t);
  }

  lemma AbandonBalance(s: State, e: Event, t: nat)
    requires Balanced(s, t) && e.Abandon? && Enabled(s, e)
    ensures Balanced(Step(s, e), t)
  {
    LiveHeld(s.streams[e.pod], e.id, 0, t);
    SameLive(s, Step(s, e), e.pod, t);
  }

  lemma DropBalance(s: State, e: Event, t: nat)
    requires Balanced(s, t) && e.DropStream? && Enabled(s, e)
    ensures Balanced(Step(s, e), t)
  {
    LiveSplit(NO_STREAM, t);
    AllLiveUpdate(s.streams, e.pod, NO_STREAM, t);
    SettledLosses(s.log, LiveEntries(s.streams[e.pod]), Deleted, t);
  }

  lemma BalanceStep(s: State, e: Event, t: nat)
    requires Inv(s) && Balanced(s, t) && Enabled(s, e) && !e.Effect? && !e.Ack?
    ensures Balanced(Step(s, e), t)
  {
    hide Append, Settle, Decide, XAutoClaim, XReadGroup, XAck, Losses, Inv;
    match e
    case Publish(pod, m, evict) =>
      AppendBalance(s, pod, m, |s.published|, evict, t);
    case Claim(_, _, _) =>
      ClaimBalance(s, e, t);
    case Process(_, _, _, _, _) =>
      ProcessBalance(s, e, t);
    case ForceAck(_, _) =>
      ForceBalance(s, e, t);
    case Trim(pod, k, _) =>
      EvictBalance(s, pod, k, t);
    case Tick(_) =>
    case CreateGroup(_) =>
      CreateBalance(s, e, t);
    case Read(_, _) =>
      ReadBalance(s, e, t);
    case Abandon(_, _) =>
      AbandonBalance(s, e, t);
    case DropStream(_) =>
      DropBalance(s, e, t);
  }

  lemma {:induction false} StartLive(streams: seq<Stream>, t: nat)
    requires forall i :: 0 <= i < |streams| ==> streams[i] == NO_STREAM
    ensures AllLive(streams, t) == 0
  {
    if streams != [] {
      LiveSplit(NO_STREAM, t);
      StartLive(streams[1..], t);
    }
  }

  lemma {:induction false} RunBalance(cfg: Config, pods: nat, es: seq<Event>, t: nat)
    requires Atomic(es) && Run(Start(cfg, pods), es).Some?
    ensures Balanced(Run(Start(cfg, pods), es).value, t)
  {
    if es == [] {
      StartLive(Start(cfg, pods).streams, t);
    } else {
      var init := es[..|es| - 1];
      RunBalance(cfg, pods, init, t);
      StartInv(cfg, pods);
      RunInv(Start(cfg, pods), init);
      BalanceStep(Run(Start(cfg, pods), init).value, es[|es| - 1], t);
    }
  }

  function Deliveries(log: seq<Outcome>, t: nat): nat {
    if log == [] then 0
    else Deliveries(log[..|log| - 1], t)
         + (if log[|log| - 1].Delivered? && log[|log| - 1].entry.token == t then 1 else 0)
  }

  function Drops(log: seq<Outcome>, t: nat): nat {
    if log == [] then 0
    else Drops(log[..|log| - 1], t)
         + (if log[|log| - 1].Dropped? && log[|log| - 1].entry.token == t then 1 else 0)
  }

  lemma {:induction false} SettledIsBoth(log: seq<Outcome>, t: nat)
    ensures Settled(log, t) == Deliveries(log, t) + Drops(log, t)
  {
    if log != [] {
      var init := log[..|log| - 1];
      SettledIsBoth(init, t);
      SettledOne(init, log[|log| - 1], t);
      assert init + [log[|log| - 1]] == log;
    }
  }

  // ----- Within reach or stranded -----

  function AllRecoverable(streams: seq<Stream>, t: nat): nat {
    if streams == [] then 0 else Copies(Recoverable(streams[0]), t) + AllRecoverable(streams[1..], t)
  }

  function AllStranded(streams: seq<Stream>, t: nat): nat {
    if streams == [] then 0
    else Copies(StrandedOf(streams[0].pel, streams[0].entries), t) + AllStranded(streams[1..], t)
  }

  lemma {:induction false} PelSplit(pel: seq<Pending>, es: seq<Entry>, t: nat)
    ensures Copies(PelEntries(pel), t) == Copies(InReach(pel, es), t) + Copies(StrandedOf(pel, es), t)
  {
    hide Stranded;
    if pel != [] {
      var r, rest := pel[0], pel[1..];
      PelSplit(rest, es, t);
      assert pel == [r] + rest;
      PelCons(r, rest, t);
      CopiesConcat([r.entry], InReach(rest, es), t);
      CopiesConcat([r.entry], StrandedOf(rest, es), t);
      assert [r.entry][1..] == [];
      assert [] + InReach(rest, es) == InReach(rest, es) && [] + StrandedOf(rest, es) == StrandedOf(rest, es);
    }
  }

  lemma {:induction false} LiveIsBoth(streams: seq<Stream>, t: nat)
    ensures AllLive(streams, t) == AllRecoverable(streams, t) + AllStranded(streams, t)
  {
    hide Recoverable, LiveEntries, StrandedOf;
    if streams != [] {
      LiveIsBoth(streams[1..], t);
      StreamSplit(streams[0], t);
    }
  }

  lemma StreamSplit(st: Stream, t: nat)
    ensures LiveIn(st, t) == Copies(Recoverable(st), t) + Copies(StrandedOf(st.pel, st.entries), t)
  {
    hide InReach, StrandedOf, PelEntries, Unread;
    LiveSplit(st, t);
    PelSplit(st.pel, st.entries, t);
    CopiesConcat(Unread(st), InReach(st.pel, st.entries), t);
  }

  /** In every reachable state, over any number of hops, claims, drains and
      trims: copies within reach + stranded ones + deliveries + drops of a
      published message are one, and nothing unpublished is ever delivered. */
  lemma ExactlyOnceAccount(cfg: Config, pods: nat, es: seq<Event>, t: nat)
    requires Atomic(es) && Run(Start(cfg, pods), es).Some?
    ensures var s := Run(Start(cfg, pods), es).value;
      AllRecoverable(s.streams, t) + AllStranded(s.streams, t) + Deliveries(s.log, t) + Drops(s.log, t)
      == if t < |s.published| then 1 else 0
  {
    hide Run, AllRecoverable, AllStranded, Deliveries, Drops;
    RunBalance(cfg, pods, es, t);
    LiveIsBoth(Run(Start(cfg, pods), es).value.streams, t);
    SettledIsBoth(Run(Start(cfg, pods), es).value.log, t);
  }
}
