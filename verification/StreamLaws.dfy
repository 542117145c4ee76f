/** Laws of every run of the fleet that rest on the well-formedness invariant:
    exact consumer groups, genuine messages, bounded retries, safe trims. */
module StreamLaws {
  import opened StreamIds
  import opened RedisStreams
  import opened Cluster
  import opened WellFormed

  // ----- Consumer groups -----

  /** Creating a group at 0-0, whenever it happens in whatever run, makes
      exactly those stored entries readable that were never handed out. */
  lemma GroupCreationIsExact(cfg: Config, pods: nat, es: seq<Event>, pod: nat, i: nat)
    requires Run(Start(cfg, pods), es).Some?
    requires var s := Run(Start(cfg, pods), es).value;
      pod < |s.streams| && i < |s.streams[pod].entries|
    ensures var s := Run(Start(cfg, pods), es).value; var st := s.streams[pod];
      st.entries[i] in Unread(XGroupCreate(st)) <==> Handout(pod, st.entries[i]) !in s.handed
  {
    StartInv(cfg, pods);
    RunInv(Start(cfg, pods), es);
    var s := Run(Start(cfg, pods), es).value;
    CreationReadsUnhanded(pod, s.streams[pod], s.now, s.copies, s.handed, i);
  }

  lemma CreationReadsUnhanded(pod: nat, st: Stream, now: nat, copies: nat, handed: set<Handout>, i: nat)
    requires PodOk(pod, st, now, copies, handed) && i < |st.entries|
    ensures st.entries[i] in Unread(XGroupCreate(st)) <==> Handout(pod, st.entries[i]) !in handed
  {
    var (e, r) := (st.entries[i], ReadCount(st.entries, st.cursor));
    assert XGroupCreate(st).cursor == st.cursor;
    PassedIsPrefix(st, now, i);
    if i >= r {
      assert Unread(st)[i - r] == e;
    }
    if e in Unread(st) {
      var j :| 0 <= j < |Unread(st)| && Unread(st)[j] == e;
      assert st.entries[r + j] == e;
      assert !(i < r + j) && !(r + j < i);
    }
  }

  /** No read, in whatever run, hands out an entry a second time. */
  lemma ReadsNeverReplay(cfg: Config, pods: nat, es: seq<Event>, pod: nat, count: nat, e: Entry)
    requires Run(Start(cfg, pods), es).Some?
    requires var s := Run(Start(cfg, pods), es).value;
      pod < |s.streams| && e in Batch(s.streams[pod], count)
    ensures Handout(pod, e) !in Run(Start(cfg, pods), es).value.handed
  {
    StartInv(cfg, pods);
    RunInv(Start(cfg, pods), es);
    var s := Run(Start(cfg, pods), es).value;
    var st := s.streams[pod];
    var b, r := Batch(st, count), ReadCount(st.entries, st.cursor);
    assert PodOk(pod, st, s.now, s.copies, s.handed);
    var j :| 0 <= j < |b| && b[j] == e;
    PassedIsPrefix(st, s.now, r + j);
  }

  // ----- Addresses and payloads -----

  predicate Genuine(published: seq<Message>, e: Entry) {
    e.token < |published| && published[e.token] == Message(e.client, e.payload)
  }

  ghost predicate AllGenuine(s: State) {
    && (forall q, i :: 0 <= q < |s.streams| && 0 <= i < |s.streams[q].entries| ==>
          Genuine(s.published, s.streams[q].entries[i]))
    && (forall h :: h in s.handed ==> Genuine(s.published, h.entry))
    && (forall k :: 0 <= k < |s.log| ==> Genuine(s.published, s.log[k].entry))
  }

  lemma EvictGenuine(s: State, pod: nat, k: nat)
    requires AllGenuine(s) && pod < |s.streams| && k <= |s.streams[pod].entries|
    ensures AllGenuine(Evict(s, pod, k))
  {
    var st, s' := s.streams[pod], Evict(s, pod, k);
    forall i | 0 <= i < |s'.log|
      ensures Genuine(s'.published, s'.log[i].entry)
    {
      if i >= |s.log| {
        var lost := TrimLost(st, k);
        assert lost[i - |s.log|] in st.entries;
      }
    }
  }

  lemma AppendGenuine(s: State, pod: nat, m: Message, token: nat, evict: nat)
    requires AllGenuine(s) && pod < |s.streams| && CanEvict(s, pod, evict)
    requires token < |s.published| && s.published[token] == m
    ensures AllGenuine(Append(s, pod, m, token, evict))
  {
    var e := NewEntry(s, pod, m, token);
    EvictGenuine(WithStream(s, pod, XAdd(s.streams[pod], e)).(copies := s.copies + 1), pod, evict);
  }

  lemma SettleGenuine(s: State, who: nat, e: Entry, v: Verdict, evict: nat)
    requires AllGenuine(s) && VerdictFits(s, v, evict) && Genuine(s.published, e)
    ensures AllGenuine(Settle(s, who, e, v, evict))
  {
    if v.Move? {
      AppendGenuine(s, v.to, Message(e.client, e.payload), e.token, evict);
    }
  }

  lemma {:induction false} LostIsPending(pel: seq<Pending>, es: seq<Entry>, k: nat)
    requires k < |ClaimLost(pel, es)|
    ensures Listed(pel, ClaimLost(pel, es)[k])
  {
    var rest := ClaimLost(pel[1..], es);
    var lost := ClaimLost(pel, es);
    var head := |lost| - |rest|;
    if k < head {
      assert pel[0].entry == lost[k];
    } else {
      assert lost[k] == rest[k - head];
      LostIsPending(pel[1..], es, k - head);
      var i :| 0 <= i < |pel[1..]| && pel[1..][i].entry == rest[k - head];
      assert pel[i + 1].entry == lost[k];
    }
  }

  lemma ClaimGenuine(s: State, e: Event)
    requires Inv(s) && AllGenuine(s) && e.Claim? && Enabled(s, e)
    ensures AllGenuine(Step(s, e))
  {
    var st, s' := s.streams[e.pod], Step(s, e);
    var part := st.pel[e.lo..e.hi];
    assert PodOk(e.pod, st, s.now, s.copies, s.handed);
    hide Genuine, StreamOk, HandoutOk, ReadExactly, ClaimPel;
    forall k | 0 <= k < |s'.log|
      ensures Genuine(s'.published, s'.log[k].entry)
    {
      if k >= |s.log| {
        LostIsPending(part, st.entries, k - |s.log|);
        var i :| 0 <= i < |part| && part[i].entry == s'.log[k].entry;
        assert Handout(e.pod, st.pel[e.lo + i].entry) in s.handed;
      }
    }
  }

  lemma ForceGenuine(s: State, e: Event)
    requires Inv(s) && AllGenuine(s) && e.ForceAck? && Enabled(s, e)
    ensures AllGenuine(Step(s, e))
  {
    var entry := Record(s, e.pod, e.id).entry;
    assert PodOk(e.pod, s.streams[e.pod], s.now, s.copies, s.handed);
    assert Handout(e.pod, entry) in s.handed;
  }

  lemma ReadGenuine(s: State, e: Event)
    requires AllGenuine(s) && e.Read? && Enabled(s, e)
    ensures AllGenuine(Step(s, e))
  {
    var b, st := Batch(s.streams[e.pod], e.count), s.streams[e.pod];
    forall h | h in Step(s, e).handed
      ensures Genuine(s.published, h.entry)
    {
      if h !in s.handed {
        var i :| 0 <= i < |b| && h == Handout(e.pod, b[i]);
        assert b[i] == st.entries[ReadCount(st.entries, st.cursor) + i];
      }
    }
  }

  lemma ProcessGenuine(s: State, e: Event)
    requires Inv(s) && AllGenuine(s) && e.Process? && Enabled(s, e)
    ensures AllGenuine(Step(s, e))
  {
    var entry := Record(s, e.pod, e.id).entry;
    assert PodOk(e.pod, s.streams[e.pod], s.now, s.copies, s.handed);
    assert Handout(e.pod, entry) in s.handed;
    assert Genuine(s.published, entry);
    hide Inv, PodOk, Decide, AllGenuine, Settle;
    var v := Decide(s.cfg, e.who, e.pod, entry, s.now, e.env);
    if v.Keep? {
      PelGenuine(s, e.pod, SetHeld(s.streams[e.pod], e.id, 1));
    } else {
      var t := Settle(s, e.who, entry, v, e.evict);
      SettleGenuine(s, e.who, entry, v, e.evict);
      SettleWidth(s, e.who, entry, v, e.evict);
      PelGenuine(t, e.pod, XAck(t.streams[e.pod], e.id));
    }
  }

  lemma SettleWidth(s: State, who: nat, e: Entry, v: Verdict, evict: nat)
    requires VerdictFits(s, v, evict)
    ensures |Settle(s, who, e, v, evict).streams| == |s.streams|
  {
  }

  lemma PelGenuine(s: State, pod: nat, st: Stream)
    requires AllGenuine(s) && pod < |s.streams| && st.entries == s.streams[pod].entries
    ensures AllGenuine(WithStream(s, pod, st))
  {
  }

  lemma PublishGenuine(s: State, e: Event)
    requires AllGenuine(s) && e.Publish? && Enabled(s, e)
    ensures AllGenuine(Step(s, e))
  {
    var s1 := s.(published := s.published + [e.message]);
    AppendGenuine(s1, e.pod, e.message, |s.published|, e.evict);
    assert Step(s, e) == Append(s1, e.pod, e.message, |s.published|, e.evict);
  }

  lemma GenuineStep(s: State, e: Event)
    requires Inv(s) && AllGenuine(s) && Enabled(s, e)
    ensures AllGenuine(Step(s, e))
  {
    match e
    case Publish(_, _, _) => PublishGenuine(s, e);
    case Read(_, _) => ReadGenuine(s, e);
    case Claim(_, _, _) => ClaimGenuine(s, e);
    case Process(_, _, _, _, _) => ProcessGenuine(s, e);
    case Effect(who, pod, entry, env, evict) =>
      assert Handout(pod, entry) in s.handed;
      SettleGenuine(s, who, entry, Decide(s.cfg, who, pod, entry, s.now, env), evict);
    case ForceAck(_, _) => ForceGenuine(s, e);
    case Trim(pod, k, _) => EvictGenuine(s, pod, k);
    case Tick(_) =>
    case CreateGroup(_) =>
    case Abandon(_, _) =>
    case Ack(_, _) =>
    case DropStream(_) => DropGenuine(s, e);
  }

  lemma DropGenuine(s: State, e: Event)
    requires Inv(s) && AllGenuine(s) && e.DropStream? && Enabled(s, e)
    ensures AllGenuine(Step(s, e))
  {
    var (st, s') := (s.streams[e.pod], Step(s, e));
    assert PodOk(e.pod, st, s.now, s.copies, s.handed);
    hide Inv, StreamOk, ReadExactly, HandoutOk, Genuine, ReadCount;
    forall k | |s.log| <= k < |s'.log|
      ensures Genuine(s'.published, s'.log[k].entry)
    {
      var i := k - |s.log|;
      assert s'.log[k].entry == LiveEntries(st)[i];
      if i >= |Unread(st)| {
        assert Handout(e.pod, st.pel[i - |Unread(st)|].entry) in s.handed;
      }
    }
  }

  lemma {:induction false} RunGenuine(cfg: Config, pods: nat, es: seq<Event>)
    requires Run(Start(cfg, pods), es).Some?
    ensures AllGenuine(Run(Start(cfg, pods), es).value)
  {
    if es != [] {
      var init := es[..|es| - 1];
      RunGenuine(cfg, pods, init);
      StartInv(cfg, pods);
      RunInv(Start(cfg, pods), init);
      GenuineStep(Run(Start(cfg, pods), init).value, es[|es| - 1]);
    }
  }

  /** Whatever is stored, pending, delivered or dropped, in whatever run, was
      published to that very client with that very payload. */
  lemma MessagesAreGenuine(cfg: Config, pods: nat, es: seq<Event>)
    requires Run(Start(cfg, pods), es).Some?
    ensures var s := Run(Start(cfg, pods), es).value;
      && (forall q, i :: 0 <= q < |s.streams| && 0 <= i < |s.streams[q].entries| ==>
            var e := s.streams[q].entries[i]; Message(e.client, e.payload) in s.published)
      && (forall q, i :: 0 <= q < |s.streams| && 0 <= i < |s.streams[q].pel| ==>
            var e := s.streams[q].pel[i].entry; Message(e.client, e.payload) in s.published)
      && (forall k :: 0 <= k < |s.log| ==>
            var e := s.log[k].entry; Message(e.client, e.payload) in s.published)
  {
    RunGenuine(cfg, pods, es);
    StartInv(cfg, pods);
    RunInv(Start(cfg, pods), es);
    var s := Run(Start(cfg, pods), es).value;
    forall q, i | 0 <= q < |s.streams| && 0 <= i < |s.streams[q].pel|
      ensures Genuine(s.published, s.streams[q].pel[i].entry)
    {
      assert PodOk(q, s.streams[q], s.now, s.copies, s.handed);
      assert Handout(q, s.streams[q].pel[i].entry) in s.handed;
    }
  }

  // ----- Retries -----

  function RetryLimit(cfg: Config): nat {
    Window(cfg) / MinIdle(cfg) + 1
  }

  predicate Paced(r: Pending, now: nat, cfg: Config) {
    && 1 <= r.times
    && r.entry.id.ms + (r.times - 1) * MinIdle(cfg) <= r.since <= now
    && r.kept + (if r.held then 1 else 0) <= r.times
    && r.kept <= RetryLimit(cfg)
  }

  ghost predicate AllPaced(s: State) {
    forall q, i :: 0 <= q < |s.streams| && 0 <= i < |s.streams[q].pel| ==>
      Paced(s.streams[q].pel[i], s.now, s.cfg)
  }

  /** A pass that keeps the entry pending is one of its first RetryLimit passes. */
  lemma KeepIsEarly(cfg: Config, who: nat, pod: nat, r: Pending, now: nat, env: Env)
    requires Paced(r, now, cfg) && Decide(cfg, who, pod, r.entry, now, env).Keep?
    ensures r.times <= RetryLimit(cfg)
  {
    var (w, m, n) := (Window(cfg), MinIdle(cfg), r.times - 1);
    assert Age(now, r.entry.id) <= w;
    assert n * m <= w;
    QuotientBound(n, m, w);
  }

  lemma QuotientBound(n: nat, m: nat, w: nat)
    requires m > 0 && n * m <= w
    ensures n <= w / m
  {
    MulMonotone(w / m + 1, n, m);
    assert (w / m + 1) * m == (w / m) * m + m;
  }

  lemma {:induction false} ClaimPaced(pel: seq<Pending>, es: seq<Entry>, now: nat, cfg: Config, k: nat)
    requires forall i :: 0 <= i < |pel| ==> Paced(pel[i], now, cfg)
    requires k < |ClaimPel(pel, es, now, MinIdle(cfg))|
    ensures Paced(ClaimPel(pel, es, now, MinIdle(cfg))[k], now, cfg)
  {
    var (r, m) := (pel[0], MinIdle(cfg));
    var c, rest := ClaimPel(pel, es, now, m), ClaimPel(pel[1..], es, now, m);
    var head := |c| - |rest|;
    if k < head {
      assert r.times * m == (r.times - 1) * m + m;
    } else {
      assert c[k] == rest[k - head];
      ClaimPaced(pel[1..], es, now, cfg, k - head);
    }
  }

  ghost predicate PelPaced(pel: seq<Pending>, now: nat, cfg: Config) {
    forall i :: 0 <= i < |pel| ==> Paced(pel[i], now, cfg)
  }

  /** A step that touches one pod's pending list. */
  lemma OnePodPaced(s: State, s': State, pod: nat)
    requires AllPaced(s) && pod < |s.streams| && |s'.streams| == |s.streams|
    requires s'.now == s.now && s'.cfg == s.cfg
    requires forall q :: 0 <= q < |s.streams| && q != pod ==> s'.streams[q] == s.streams[q]
    requires PelPaced(s'.streams[pod].pel, s.now, s.cfg)
    ensures AllPaced(s')
  {
    hide Paced;
    forall q, i | 0 <= q < |s'.streams| && 0 <= i < |s'.streams[q].pel|
      ensures Paced(s'.streams[q].pel[i], s'.now, s'.cfg)
    {
      if q != pod {
        assert s'.streams[q] == s.streams[q];
      }
    }
  }

  lemma ClaimPelPaced(st: Stream, lo: nat, hi: nat, now: nat, cfg: Config)
    requires lo <= hi <= |st.pel| && PelPaced(st.pel, now, cfg)
    ensures PelPaced(XAutoClaim(st, lo, hi, now, MinIdle(cfg)).pel, now, cfg)
  {
    hide Paced;
    var part, pel := st.pel[lo..hi], XAutoClaim(st, lo, hi, now, MinIdle(cfg)).pel;
    var c := ClaimPel(part, st.entries, now, MinIdle(cfg));
    assert forall j :: 0 <= j < |part| ==> part[j] == st.pel[lo + j];
    forall i | 0 <= i < |pel| ensures Paced(pel[i], now, cfg) {
      if lo <= i < lo + |c| {
        ClaimPaced(part, st.entries, now, cfg, i - lo);
      }
    }
  }

  lemma ClaimStepPaced(s: State, e: Event)
    requires AllPaced(s) && e.Claim? && Enabled(s, e)
    ensures AllPaced(Step(s, e))
  {
    hide Paced, XAutoClaim, ClaimLost, Losses;
    assert PelPaced(s.streams[e.pod].pel, s.now, s.cfg);
    ClaimPelPaced(s.streams[e.pod], e.lo, e.hi, s.now, s.cfg);
    OnePodPaced(s, Step(s, e), e.pod);
  }

  lemma FreshPaced(e: Entry, now: nat, cfg: Config)
    requires e.id.ms <= now
    ensures Paced(Pending(e, now, 1, true, 0), now, cfg)
  {
  }

  lemma HandOutPaced(es: seq<Entry>, now: nat, cfg: Config)
    requires forall i :: 0 <= i < |es| ==> es[i].id.ms <= now
    ensures PelPaced(HandOut(es, now), now, cfg)
  {
    hide Paced, HandOut;
    forall i | 0 <= i < |es| ensures Paced(HandOut(es, now)[i], now, cfg) {
      FreshPaced(es[i], now, cfg);
    }
  }

  lemma PelPacedConcat(a: seq<Pending>, b: seq<Pending>, now: nat, cfg: Config)
    requires PelPaced(a, now, cfg) && PelPaced(b, now, cfg)
    ensures PelPaced(a + b, now, cfg)
  {
    hide Paced;
  }

  lemma ReadPelPaced(st: Stream, count: nat, now: nat, cfg: Config)
    requires StreamOk(st, now) && PelPaced(st.pel, now, cfg)
    ensures PelPaced(XReadGroup(st, count, now).pel, now, cfg)
  {
    hide StreamOk, XReadGroup, PelPaced, HandOut, Batch, Unread;
    ReadMovesBatch(st, now, count);
    BatchInPast(st, now, count);
    HandOutPaced(Batch(st, count), now, cfg);
    PelPacedConcat(st.pel, HandOut(Batch(st, count), now), now, cfg);
  }

  lemma BatchInPast(st: Stream, now: nat, count: nat)
    requires StreamOk(st, now)
    ensures forall i :: 0 <= i < |Batch(st, count)| ==> Batch(st, count)[i].id.ms <= now
  {
    hide StreamOk, Batch, ReadCount;
    var b, r := Batch(st, count), ReadCount(st.entries, st.cursor);
    forall i | 0 <= i < |b| ensures b[i].id.ms <= now {
      StoredInPast(st, now, r + i);
    }
  }

  lemma ReadStepPaced(s: State, e: Event)
    requires Inv(s) && AllPaced(s) && e.Read? && Enabled(s, e)
    ensures AllPaced(Step(s, e))
  {
    hide Paced, XReadGroup, StreamOk;
    assert PelPaced(s.streams[e.pod].pel, s.now, s.cfg);
    assert PodOk(e.pod, s.streams[e.pod], s.now, s.copies, s.handed);
    ReadPelPaced(s.streams[e.pod], e.count, s.now, s.cfg);
    OnePodPaced(s, Step(s, e), e.pod);
  }

  lemma StoredInPast(st: Stream, now: nat, i: nat)
    requires StreamOk(st, now) && i < |st.entries|
    ensures st.entries[i].id.ms <= now
  {
    assert i < |st.entries| - 1 ==> Before(st.entries[i].id, st.entries[|st.entries| - 1].id);
  }

  lemma KeepPaced(st: Stream, id: Id, now: nat, cfg: Config)
    requires PelPaced(st.pel, now, cfg) && IsPending(st, id)
    requires st.pel[IndexOf(st.pel, id)].held && st.pel[IndexOf(st.pel, id)].times <= RetryLimit(cfg)
    ensures PelPaced(SetHeld(st, id, 1).pel, now, cfg)
  {
  }

  lemma AckPaced(st: Stream, id: Id, now: nat, cfg: Config)
    requires PelPaced(st.pel, now, cfg)
    ensures PelPaced(XAck(st, id).pel, now, cfg)
  {
    hide Paced;
  }

  lemma ProcessStepPaced(s: State, e: Event)
    requires AllPaced(s) && e.Process? && Enabled(s, e)
    ensures AllPaced(Step(s, e))
  {
    var r := Record(s, e.pod, e.id);
    var v := Decide(s.cfg, e.who, e.pod, r.entry, s.now, e.env);
    if v.Keep? {
      assert PelPaced(s.streams[e.pod].pel, s.now, s.cfg);
      KeepIsEarly(s.cfg, e.who, e.pod, r, s.now, e.env);
      hide Paced, Decide, SetHeld;
      KeepPaced(s.streams[e.pod], e.id, s.now, s.cfg);
      OnePodPaced(s, Step(s, e), e.pod);
    } else {
      hide Paced, Decide, XAck;
      SettleStepPaced(s, e.who, r.entry, v, e.evict);
      var t := Settle(s, e.who, r.entry, v, e.evict);
      SettleKeepsPods(s, e.who, r.entry, v, e.evict);
      assert PelPaced(t.streams[e.pod].pel, t.now, t.cfg);
      AckPaced(t.streams[e.pod], e.id, t.now, t.cfg);
      OnePodPaced(t, AckAt(t, e.pod, e.id), e.pod);
    }
  }

  lemma SettleKeepsPods(s: State, who: nat, e: Entry, v: Verdict, evict: nat)
    requires VerdictFits(s, v, evict)
    ensures |Settle(s, who, e, v, evict).streams| == |s.streams|
  {
  }

  lemma SettleStepPaced(s: State, who: nat, e: Entry, v: Verdict, evict: nat)
    requires AllPaced(s) && VerdictFits(s, v, evict)
    ensures AllPaced(Settle(s, who, e, v, evict))
  {
  }

  predicate PelWithin(a: seq<Pending>, b: seq<Pending>) {
    forall i :: 0 <= i < |a| ==> a[i] in b
  }

  /** Dropping pending records and letting time pass. */
  lemma FewerPaced(s: State, s': State)
    requires AllPaced(s) && s'.cfg == s.cfg && s.now <= s'.now && |s'.streams| == |s.streams|
    requires forall q :: 0 <= q < |s.streams| ==> PelWithin(s'.streams[q].pel, s.streams[q].pel)
    ensures AllPaced(s')
  {
    forall q, i | 0 <= q < |s'.streams| && 0 <= i < |s'.streams[q].pel|
      ensures Paced(s'.streams[q].pel[i], s'.now, s'.cfg)
    {
      assert PelWithin(s'.streams[q].pel, s.streams[q].pel);
      var r := s'.streams[q].pel[i];
      assert r in s.streams[q].pel;
    }
  }

  lemma QuietStepPaced(s: State, e: Event)
    requires AllPaced(s) && Enabled(s, e)
    requires e.Tick? || e.Publish? || e.CreateGroup? || e.Ack? || e.ForceAck? || e.Trim? || e.DropStream?
    ensures AllPaced(Step(s, e))
  {
    hide Paced;
    var s' := Step(s, e);
    forall q | 0 <= q < |s.streams|
      ensures PelWithin(s'.streams[q].pel, s.streams[q].pel)
    {
    }
    FewerPaced(s, s');
  }

  lemma EffectStepPaced(s: State, e: Event)
    requires AllPaced(s) && e.Effect? && Enabled(s, e)
    ensures AllPaced(Step(s, e))
  {
    var v := Decide(s.cfg, e.who, e.pod, e.entry, s.now, e.env);
    SettleStepPaced(s, e.who, e.entry, v, e.evict);
  }

  lemma AbandonStepPaced(s: State, e: Event)
    requires AllPaced(s) && e.Abandon? && Enabled(s, e)
    ensures AllPaced(Step(s, e))
  {
  }

  lemma StepKeepsConfig(s: State, e: Event)
    requires Enabled(s, e)
    ensures Step(s, e).cfg == s.cfg
  {
  }

  lemma PacedStep(s: State, e: Event)
    requires Inv(s) && AllPaced(s) && Enabled(s, e)
    ensures AllPaced(Step(s, e))
  {
    match e
    case Read(_, _) => ReadStepPaced(s, e);
    case Claim(_, _, _) => ClaimStepPaced(s, e);
    case Process(_, _, _, _, _) => ProcessStepPaced(s, e);
    case Effect(_, _, _, _, _) => EffectStepPaced(s, e);
    case Abandon(_, _) => AbandonStepPaced(s, e);
    case _ => QuietStepPaced(s, e);
  }

  lemma {:induction false} RunPaced(cfg: Config, pods: nat, es: seq<Event>)
    requires Run(Start(cfg, pods), es).Some?
    ensures AllPaced(Run(Start(cfg, pods), es).value)
    ensures Run(Start(cfg, pods), es).value.cfg == cfg
  {
    if es != [] {
      var init := es[..|es| - 1];
      RunPaced(cfg, pods, init);
      StartInv(cfg, pods);
      RunInv(Start(cfg, pods), init);
      PacedStep(Run(Start(cfg, pods), init).value, es[|es| - 1]);
      StepKeepsConfig(Run(Start(cfg, pods), init).value, es[|es| - 1]);
    }
  }

  /** No run leaves an entry pending more than window / idle time + 1 times,
      and once it has been left that often the next pass settles it. */
  lemma RetriesAreBounded(cfg: Config, pods: nat, es: seq<Event>, pod: nat, i: nat, who: nat, env: Env)
    requires Run(Start(cfg, pods), es).Some?
    requires var s := Run(Start(cfg, pods), es).value;
      pod < |s.streams| && i < |s.streams[pod].pel|
    ensures var s := Run(Start(cfg, pods), es).value; var r := s.streams[pod].pel[i];
      && r.kept <= Window(cfg) / MinIdle(cfg) + 1
      && (r.held && r.kept == Window(cfg) / MinIdle(cfg) + 1 ==>
            !Decide(cfg, who, pod, r.entry, s.now, env).Keep?)
  {
    RunPaced(cfg, pods, es);
    var s := Run(Start(cfg, pods), es).value;
    var r := s.streams[pod].pel[i];
    assert Paced(r, s.now, cfg);
    if Decide(cfg, who, pod, r.entry, s.now, env).Keep? {
      KeepIsEarly(cfg, who, pod, r, s.now, env);
    }
  }

  // ----- Trims -----

  /** Whatever lies below the oldest pending id has been read and acknowledged:
      a trim that stops there takes nothing that could still be delivered. */
  lemma TrimAtOldestPendingIsSafe(s: State, pod: nat, k: nat)
    requires Inv(s) && pod < |s.streams| && s.streams[pod].pel != []
    requires var st := s.streams[pod];
      && k <= |st.entries|
      && (forall i :: 0 <= i < k ==> Before(st.entries[i].id, st.pel[0].entry.id))
    ensures var st := s.streams[pod];
      && (forall i :: 0 <= i < k ==> Handout(pod, st.entries[i]) in s.handed && !IsPending(st, st.entries[i].id))
      && TrimLost(st, k) == []
      && LiveEntries(XTrim(st, k)) == LiveEntries(st)
  {
    hide TrimLost, LiveEntries, IsPending, XTrim, StreamOk;
    var st := s.streams[pod];
    assert PodOk(pod, st, s.now, s.copies, s.handed);
    forall i | 0 <= i < k
      ensures !Before(st.cursor, st.entries[i].id) && !IsPending(st, st.entries[i].id)
    {
      BelowPendingIsDone(st, s.now, i);
    }
    TrimPassed(st, s.now, k);
  }

  lemma BelowPendingIsDone(st: Stream, now: nat, i: nat)
    requires StreamOk(st, now) && st.pel != [] && i < |st.entries|
    requires Before(st.entries[i].id, st.pel[0].entry.id)
    ensures !Before(st.cursor, st.entries[i].id) && !IsPending(st, st.entries[i].id)
  {
    var j := IndexOf(st.pel, st.entries[i].id);
    assert 0 < j < |st.pel| ==> Before(st.pel[0].entry.id, st.pel[j].entry.id);
  }

  lemma TrimPassed(st: Stream, now: nat, k: nat)
    requires StreamOk(st, now) && k <= |st.entries|
    requires forall i :: 0 <= i < k ==> !Before(st.cursor, st.entries[i].id)
    ensures TrimLost(st, k) == [] && LiveEntries(XTrim(st, k)) == LiveEntries(st)
  {
    if k > 0 {
      PassedIsPrefix(st, now, k - 1);
    }
    TrimUnread(st, now, k);
  }

  function Later(a: Id, b: Id): Id { if Before(a, b) then b else a }

  /** The trim loop picks its floor by comparing the ids as text; that is the
      later id exactly when the clock parts agree, as with equally many digits. */
  lemma TrimFloorIsTheLater(lower: Id, cut: Id)
    requires cut.num == 0
    ensures (if CompareStreamIds(Render(lower), Render(cut)) > 0 then lower else cut) == Later(cut, lower)
      <==> ClocksAgree(lower.ms, cut.ms)
    ensures |Decimal(lower.ms)| == |Decimal(cut.ms)| ==> ClocksAgree(lower.ms, cut.ms)
  {
    CutoffComparison(lower, cut);
  }

  /** Everything stored below a floor. */
  function Below(es: seq<Entry>, floor: Id): (k: nat)
    ensures k <= |es|
    ensures forall i :: 0 <= i < k ==> Before(es[i].id, floor)
    ensures k < |es| ==> !Before(es[k].id, floor)
  {
    if es == [] || !Before(es[0].id, floor) then 0 else 1 + Below(es[1..], floor)
  }

  /** Where the trim loop cuts: at the later of the retention cutoff and the
      oldest pending id, if anything is pending. */
  function TrimFloor(st: Stream, cut: Id): Id {
    if st.pel != [] then Later(cut, st.pel[0].entry.id) else cut
  }

  predicate PendingStored(st: Stream, es: seq<Entry>, j: nat) {
    j < |st.pel| && Stored(es, st.pel[j].entry.id)
  }

  /** An exact trim at the loop's floor spares every stored pending entry just
      when none of them lies before the cutoff: on every other stream the
      promise to preserve pending entries fails. */
  lemma TrimSparesPendingExactly(st: Stream, now: nat, cut: Id)
    requires StreamOk(st, now)
    ensures var rest := st.entries[Below(st.entries, TrimFloor(st, cut))..];
      (forall j: nat :: PendingStored(st, st.entries, j) ==> PendingStored(st, rest, j))
      <==> (forall j: nat :: PendingStored(st, st.entries, j) ==> !Before(st.pel[j].entry.id, cut))
  {
    var rest := st.entries[Below(st.entries, TrimFloor(st, cut))..];
    forall j: nat | PendingStored(st, st.entries, j)
      ensures PendingStored(st, rest, j) <==> !Before(st.pel[j].entry.id, cut)
    {
      assert j > 0 ==> Before(st.pel[0].entry.id, st.pel[j].entry.id);
      StoredAboveFloor(st.entries, TrimFloor(st, cut), st.pel[j].entry.id);
    }
  }

  /** An exact trim of a sorted stream keeps what is not below the floor. */
  lemma StoredAboveFloor(es: seq<Entry>, floor: Id, id: Id)
    requires Sorted(es) && Stored(es, id)
    ensures Stored(es[Below(es, floor)..], id) <==> !Before(id, floor)
  {
    var k := Below(es, floor);
    var i :| 0 <= i < |es| && es[i].id == id;
    if i >= k {
      assert es[k..][i - k].id == id;
      assert i > k ==> Before(es[k].id, es[i].id);
    } else {
      forall m | 0 <= m < |es[k..]| ensures es[k..][m].id != id {
        assert es[k..][m] == es[k + m];
        assert Before(es[i].id, es[k + m].id);
      }
    }
  }

  /** A pending entry of 10 ms, trimmed away by a cutoff of 20 ms. */
  lemma TrimCanTakePending()
    ensures var e := Entry(Id(10, 0), "c", "p", 0, 0);
      var st := Stream([e], Id(10, 0), true, Id(10, 0), [Pending(e, 10, 1, false, 1)]);
      && StreamOk(st, 30)
      && XTrim(st, Below(st.entries, TrimFloor(st, Id(20, 0)))).entries == []
  {
    var e := Entry(Id(10, 0), "c", "p", 0, 0);
    assert Below([e], Id(20, 0)) == 1;
  }
}
