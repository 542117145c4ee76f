/** No silent loss. Here a worker may die between the effect of a processing
    pass and its XACK, acknowledgements may fail or come late, and entries may
    be processed again by whoever still holds them. */
module NoLoss {
  import opened StreamIds
  import opened RedisStreams
  import opened Cluster
  import opened WellFormed

  ghost predicate Logged(s: State, t: nat) {
    exists k :: 0 <= k < |s.log| && s.log[k].entry.token == t
  }

  ghost predicate Live(s: State, e: Entry) {
    exists q :: 0 <= q < |s.streams| && e in LiveEntries(s.streams[q])
  }

  /** Message t has been delivered or dropped, or has a live copy written after copy c. */
  ghost predicate Covered(s: State, t: nat, c: int) {
    Logged(s, t) || exists e :: Live(s, e) && e.token == t && e.copy > c
  }

  /** Whoever may acknowledge a copy has left the message covered without it. */
  ghost predicate Accounted(s: State) {
    && (forall t :: 0 <= t < |s.published| ==> Covered(s, t, -1))
    && (forall h :: h in s.finished ==> Covered(s, h.entry.token, h.entry.copy))
  }

  ghost predicate Survives(s: State, e: Entry) {
    Covered(s, e.token, e.copy - 1)
  }

  lemma Carry(s: State, s': State, t: nat, c: int)
    requires Covered(s, t, c) && s.log <= s'.log
    requires forall e :: Live(s, e) ==> Survives(s', e)
    ensures Covered(s', t, c)
  {
    if Logged(s, t) {
      var k :| 0 <= k < |s.log| && s.log[k].entry.token == t;
      assert s'.log[k].entry.token == t;
    } else {
      var e :| Live(s, e) && e.token == t && e.copy > c;
      assert Survives(s', e);
    }
  }

  lemma StaysLive(s: State, e: Entry)
    requires Live(s, e)
    ensures Survives(s, e)
  {
  }

  lemma LossIsLogged(s: State, e: Entry, before: nat, lost: seq<Entry>, why: Reason)
    requires e in lost && before + |lost| <= |s.log|
    requires s.log[before..before + |lost|] == Losses(lost, why)
    ensures Survives(s, e)
  {
    var i :| 0 <= i < |lost| && lost[i] == e;
    assert s.log[before + i] == s.log[before..before + |lost|][i];
  }

  // ----- Membership -----

  lemma InPel(pel: seq<Pending>, e: Entry)
    ensures e in PelEntries(pel) <==> Listed(pel, e)
  {
    if e in PelEntries(pel) {
      var i :| 0 <= i < |pel| && PelEntries(pel)[i] == e;
      assert pel[i].entry == e;
    }
    if Listed(pel, e) {
      var i :| 0 <= i < |pel| && pel[i].entry == e;
      assert PelEntries(pel)[i] == e;
    }
  }

  lemma {:induction false} ClaimMembers(pel: seq<Pending>, es: seq<Entry>, now: nat, minIdle: nat, e: Entry)
    requires e in PelEntries(pel)
    ensures e in PelEntries(ClaimPel(pel, es, now, minIdle)) || e in ClaimLost(pel, es)
  {
    var rest := pel[1..];
    var c := ClaimPel(pel, es, now, minIdle);
    if e == pel[0].entry {
      if Stored(es, e.id) {
        assert c[0].entry == e;
        assert PelEntries(c)[0] == e;
      }
    } else {
      InPel(pel, e);
      var i :| 0 <= i < |pel| && pel[i].entry == e;
      assert PelEntries(rest)[i - 1] == e;
      ClaimMembers(rest, es, now, minIdle, e);
      var c' := ClaimPel(rest, es, now, minIdle);
      if e in PelEntries(c') {
        InPel(c', e);
        var j :| 0 <= j < |c'| && c'[j].entry == e;
        assert c[j + (|c| - |c'|)].entry == e;
        InPel(c, e);
      }
    }
  }

  lemma ClaimLive(st: Stream, lo: nat, hi: nat, now: nat, minIdle: nat, e: Entry)
    requires lo <= hi <= |st.pel| && e in LiveEntries(st)
    ensures e in LiveEntries(XAutoClaim(st, lo, hi, now, minIdle))
      || e in ClaimLost(st.pel[lo..hi], st.entries)
  {
    hide ClaimPel, ClaimLost, ReadCount;
    var (a, m, z) := (st.pel[..lo], st.pel[lo..hi], st.pel[hi..]);
    var c := ClaimPel(m, st.entries, now, minIdle);
    assert st.pel == a + m + z;
    PelJoin(a + c, z);
    PelJoin(a, c);
    PelJoin(a + m, z);
    PelJoin(a, m);
    if e in PelEntries(m) {
      ClaimMembers(m, st.entries, now, minIdle, e);
    }
  }

  lemma PelJoin(a: seq<Pending>, b: seq<Pending>)
    ensures PelEntries(a + b) == PelEntries(a) + PelEntries(b)
  {
  }

  lemma WithoutMembers(pel: seq<Pending>, i: nat, e: Entry)
    requires i < |pel| && e in PelEntries(pel)
    ensures e in PelEntries(Without(pel, i)) || e == pel[i].entry
  {
    InPel(pel, e);
    var j :| 0 <= j < |pel| && pel[j].entry == e;
    if j != i {
      assert Without(pel, i)[if j < i then j else j - 1].entry == e;
      InPel(Without(pel, i), e);
    }
  }

  lemma AckLive(st: Stream, id: Id, e: Entry)
    requires e in LiveEntries(st)
    ensures e in LiveEntries(XAck(st, id)) || (IsPending(st, id) && e == st.pel[IndexOf(st.pel, id)].entry)
  {
    var i := IndexOf(st.pel, id);
    if i < |st.pel| && e in PelEntries(st.pel) {
      WithoutMembers(st.pel, i, e);
    }
  }

  // ----- Steps -----

  /** A step that replaces one stream: what was live in it has to survive. */
  lemma OthersStay(s: State, s': State, pod: nat)
    requires pod < |s.streams| == |s'.streams|
    requires s'.streams == s.streams[pod := s'.streams[pod]]
    requires forall e :: e in LiveEntries(s.streams[pod]) ==> Survives(s', e)
    ensures forall e :: Live(s, e) ==> Survives(s', e)
  {
    forall e | Live(s, e)
      ensures Survives(s', e)
    {
      var q :| 0 <= q < |s.streams| && e in LiveEntries(s.streams[q]);
      if q != pod {
        assert e in LiveEntries(s'.streams[q]);
        assert Live(s', e);
      }
    }
  }

  lemma TrimLive(st: Stream, now: nat, k: nat, e: Entry)
    requires StreamOk(st, now) && k <= |st.entries| && e in LiveEntries(st)
    ensures e in TrimLost(st, k) || e in LiveEntries(XTrim(st, k))
  {
    hide StreamOk, TrimLost, Unread, PelEntries;
    TrimUnread(st, now, k);
    InConcat(Unread(st), PelEntries(st.pel), e);
    InConcat(TrimLost(st, k), Unread(XTrim(st, k)), e);
    InConcat(Unread(XTrim(st, k)), PelEntries(st.pel), e);
  }

  lemma InConcat(a: seq<Entry>, b: seq<Entry>, e: Entry)
    ensures e in a + b <==> e in a || e in b
  {
  }

  lemma EvictSurvives(s: State, pod: nat, k: nat)
    requires Inv(s) && pod < |s.streams| && k <= |s.streams[pod].entries|
    ensures s.log <= Evict(s, pod, k).log
    ensures forall e :: Live(s, e) ==> Survives(Evict(s, pod, k), e)
  {
    var st, s' := s.streams[pod], Evict(s, pod, k);
    assert PodOk(pod, st, s.now, s.copies, s.handed);
    hide StreamOk, TrimLost, LiveEntries, Inv, Survives;
    forall e | e in LiveEntries(st)
      ensures Survives(s', e)
    {
      EvictedSurvives(s, pod, k, e);
    }
    OthersStay(s, s', pod);
  }

  lemma EvictedSurvives(s: State, pod: nat, k: nat, e: Entry)
    requires pod < |s.streams| && StreamOk(s.streams[pod], s.now) && k <= |s.streams[pod].entries|
    requires e in LiveEntries(s.streams[pod])
    ensures Survives(Evict(s, pod, k), e)
  {
    hide StreamOk, TrimLost, LiveEntries, Survives, XTrim;
    var st, s' := s.streams[pod], Evict(s, pod, k);
    var lost := TrimLost(st, k);
    TrimLive(st, s.now, k, e);
    if e in lost {
      LossIsLogged(s', e, |s.log|, lost, Trimmed);
    } else {
      assert e in LiveEntries(s'.streams[pod]);
      StaysLive(s', e);
    }
  }

  lemma AddSurvives(s: State, s': State, pod: nat, e: Entry)
    requires Inv(s) && pod < |s.streams| && e.id == NextId(s.streams[pod].top, s.now)
    requires s'.streams == s.streams[pod := XAdd(s.streams[pod], e)]
    ensures Live(s', e)
    ensures forall x :: Live(s, x) ==> Survives(s', x)
  {
    AddedIsUnread(s.streams[pod], s.now, e);
    assert e in LiveEntries(s'.streams[pod]);
    forall x | x in LiveEntries(s.streams[pod])
      ensures Survives(s', x)
    {
      assert x in LiveEntries(s'.streams[pod]);
      StaysLive(s', x);
    }
    OthersStay(s, s', pod);
  }

  lemma SurvivesTwice(s: State, s1: State, s2: State)
    requires s1.log <= s2.log
    requires forall e :: Live(s, e) ==> Survives(s1, e)
    requires forall e :: Live(s1, e) ==> Survives(s2, e)
    ensures forall e :: Live(s, e) ==> Survives(s2, e)
  {
    forall e | Live(s, e)
      ensures Survives(s2, e)
    {
      assert Survives(s1, e);
      Carry(s1, s2, e.token, e.copy - 1);
    }
  }

  function Added(s: State, pod: nat, e: Entry): State
    requires pod < |s.streams|
  {
    WithStream(s, pod, XAdd(s.streams[pod], e)).(copies := s.copies + 1)
  }

  lemma AddedInv(s: State, pod: nat, e: Entry)
    requires Inv(s) && pod < |s.streams| && e.id == NextId(s.streams[pod].top, s.now) && e.copy == s.copies
    ensures Inv(Added(s, pod, e))
  {
    PodAdd(pod, s.streams[pod], s.now, s.copies, s.handed, e);
    OneStream(s, Added(s, pod, e), pod);
  }

  /** An append loses nothing silently and leaves the new copy live. */
  lemma AppendSurvives(s: State, pod: nat, m: Message, token: nat, evict: nat)
    requires Inv(s) && pod < |s.streams| && CanEvict(s, pod, evict)
    ensures var s' := Append(s, pod, m, token, evict);
      && s.log <= s'.log
      && (forall e :: Live(s, e) ==> Survives(s', e))
      && Covered(s', token, s.copies - 1)
  {
    var e := NewEntry(s, pod, m, token);
    var s1 := Added(s, pod, e);
    var s' := Evict(s1, pod, evict);
    assert s' == Append(s, pod, m, token, evict);
    AddedInv(s, pod, e);
    AddSurvives(s, s1, pod, e);
    EvictSurvives(s1, pod, evict);
    SurvivesTwice(s, s1, s');
    assert Survives(s', e);
  }

  lemma LastLogged(s: State, t: nat)
    requires s.log != [] && s.log[|s.log| - 1].entry.token == t
    ensures Logged(s, t)
  {
  }

  /** The effect of any verdict but Keep covers the message without the copy at hand. */
  lemma SettleSurvives(s: State, who: nat, e: Entry, v: Verdict, evict: nat)
    requires Inv(s) && VerdictFits(s, v, evict) && !v.Keep? && e.copy < s.copies
    ensures var s' := Settle(s, who, e, v, evict);
      && s.log <= s'.log
      && (forall x :: Live(s, x) ==> Survives(s', x))
      && Covered(s', e.token, e.copy)
  {
    var s' := Settle(s, who, e, v, evict);
    if v.Move? {
      AppendSurvives(s, v.to, Message(e.client, e.payload), e.token, evict);
    } else {
      LastLogged(s', e.token);
      forall x | Live(s, x)
        ensures Survives(s', x)
      {
        assert Live(s', x);
      }
    }
  }

  /** Acknowledging a copy whose message is covered without it. */
  lemma AckSurvives(s: State, pod: nat, id: Id)
    requires Inv(s) && pod < |s.streams|
    requires IsPending(s.streams[pod], id) ==> var r := Record(s, pod, id).entry; Covered(s, r.token, r.copy)
    ensures forall e :: Live(s, e) ==> Survives(AckAt(s, pod, id), e)
  {
    var st, s' := s.streams[pod], AckAt(s, pod, id);
    forall e | e in LiveEntries(st)
      ensures Survives(s', e)
    {
      AckLive(st, id, e);
      if e in LiveEntries(s'.streams[pod]) {
        StaysLive(s', e);
      } else {
        var r := Record(s, pod, id).entry;
        CoveredWithout(s, pod, id, r);
      }
    }
    OthersStay(s, s', pod);
  }

  lemma CoveredWithout(s: State, pod: nat, id: Id, r: Entry)
    requires pod < |s.streams| && IsPending(s.streams[pod], id) && Record(s, pod, id).entry == r
    requires Covered(s, r.token, r.copy)
    ensures Survives(AckAt(s, pod, id), r)
  {
    var s' := AckAt(s, pod, id);
    if Logged(s, r.token) {
      var k :| 0 <= k < |s.log| && s.log[k].entry.token == r.token;
      assert s'.log[k].entry.token == r.token;
    } else {
      var e :| Live(s, e) && e.token == r.token && e.copy > r.copy;
      var q :| 0 <= q < |s.streams| && e in LiveEntries(s.streams[q]);
      if q == pod {
        AckLive(s.streams[pod], id, e);
      }
      assert e in LiveEntries(s'.streams[q]);
      assert Live(s', e);
    }
  }

  /** A step keeps the account if nothing live vanishes from it. */
  lemma Keeps(s: State, s': State)
    requires Accounted(s) && s.log <= s'.log
    requires s'.published == s.published && s'.finished == s.finished
    requires forall e :: Live(s, e) ==> Survives(s', e)
    ensures Accounted(s')
  {
    forall t | 0 <= t < |s'.published|
      ensures Covered(s', t, -1)
    {
      Carry(s, s', t, -1);
    }
    forall h | h in s'.finished
      ensures Covered(s', h.entry.token, h.entry.copy)
    {
      Carry(s, s', h.entry.token, h.entry.copy);
    }
  }

  /** A step that keeps every live entry of the one stream it touches. */
  lemma SameMembers(s: State, s': State, pod: nat)
    requires Accounted(s) && pod < |s.streams| == |s'.streams| && s.log <= s'.log
    requires s'.published == s.published && s'.finished == s.finished
    requires s'.streams == s.streams[pod := s'.streams[pod]]
    requires forall e :: e in LiveEntries(s.streams[pod]) ==> e in LiveEntries(s'.streams[pod]) || Logged(s', e.token)
    ensures Accounted(s')
  {
    forall e | e in LiveEntries(s.streams[pod])
      ensures Survives(s', e)
    {
      if e in LiveEntries(s'.streams[pod]) {
        StaysLive(s', e);
      }
    }
    OthersStay(s, s', pod);
    Keeps(s, s');
  }

  lemma PublishAccount(s: State, e: Event)
    requires Inv(s) && Accounted(s) && e.Publish? && Enabled(s, e)
    ensures Accounted(Step(s, e))
  {
    var s1 := Append(s, e.pod, e.message, |s.published|, e.evict);
    var s' := Step(s, e);
    AppendSurvives(s, e.pod, e.message, |s.published|, e.evict);
    Keeps(s, s1);
    forall t | 0 <= t < |s'.published|
      ensures Covered(s', t, -1)
    {
      Relabel(s1, s', t, if t < |s.published| then -1 else s.copies - 1);
    }
    forall h | h in s'.finished
      ensures Covered(s', h.entry.token, h.entry.copy)
    {
      Relabel(s1, s', h.entry.token, h.entry.copy);
    }
  }

  lemma Relabel(s: State, s': State, t: nat, c: int)
    requires Covered(s, t, c) && s'.log == s.log && s'.streams == s.streams
    ensures Covered(s', t, c)
  {
    if !Logged(s, t) {
      var e :| Live(s, e) && e.token == t && e.copy > c;
      assert Live(s', e);
    }
  }

  lemma PendingCopy(s: State, pod: nat, id: Id)
    requires Inv(s) && pod < |s.streams| && IsPending(s.streams[pod], id)
    ensures Handout(pod, Record(s, pod, id).entry) in s.handed
    ensures Record(s, pod, id).entry.copy < s.copies
  {
    assert Handout(pod, Record(s, pod, id).entry) in s.handed;
    assert HandoutOk(Record(s, pod, id).entry, s.streams[pod], s.now, s.copies);
  }

  lemma ProcessAccount(s: State, e: Event)
    requires Inv(s) && Accounted(s) && e.Process? && Enabled(s, e)
    ensures Accounted(Step(s, e))
  {
    var entry := Record(s, e.pod, e.id).entry;
    var v := Decide(s.cfg, e.who, e.pod, entry, s.now, e.env);
    if v.Keep? {
      HeldMembers(s.streams[e.pod], e.id, 1);
      SameMembers(s, Step(s, e), e.pod);
    } else {
      var s1 := Settle(s, e.who, entry, v, e.evict);
      PendingCopy(s, e.pod, e.id);
      SettleSurvives(s, e.who, entry, v, e.evict);
      SettleInv(s, e.who, entry, v, e.evict);
      assert s1.streams[e.pod].pel == s.streams[e.pod].pel;
      Keeps(s, s1);
      AckSurvives(s1, e.pod, e.id);
      Keeps(s1, Step(s, e));
    }
  }

  lemma EffectAccount(s: State, e: Event)
    requires Inv(s) && Accounted(s) && e.Effect? && Enabled(s, e)
    ensures Accounted(Step(s, e))
  {
    var v := Decide(s.cfg, e.who, e.pod, e.entry, s.now, e.env);
    if !v.Keep? {
      var s1 := Settle(s, e.who, e.entry, v, e.evict);
      var s' := Step(s, e);
      assert HandoutOk(e.entry, s.streams[e.pod], s.now, s.copies);
      SettleSurvives(s, e.who, e.entry, v, e.evict);
      Keeps(s, s1);
      forall t | 0 <= t < |s'.published|
        ensures Covered(s', t, -1)
      {
        Relabel(s1, s', t, -1);
      }
      forall h | h in s'.finished
        ensures Covered(s', h.entry.token, h.entry.copy)
      {
        Relabel(s1, s', h.entry.token, h.entry.copy);
      }
    }
  }

  /** A late XACK names the copy its sender finished, never another one. */
  lemma AckAccount(s: State, e: Event)
    requires Inv(s) && Accounted(s) && e.Ack? && Enabled(s, e)
    ensures Accounted(Step(s, e))
  {
    var h :| h in s.finished && h.pod == e.pod && h.entry.id == e.id;
    if IsPending(s.streams[e.pod], e.id) {
      assert HandoutOk(h.entry, s.streams[e.pod], s.now, s.copies);
      assert Record(s, e.pod, e.id).entry == h.entry;
    }
    AckSurvives(s, e.pod, e.id);
    Keeps(s, Step(s, e));
  }

  lemma HeldMembers(st: Stream, id: Id, kept: nat)
    requires IsPending(st, id)
    ensures LiveEntries(SetHeld(st, id, kept)) == LiveEntries(st)
  {
    assert PelEntries(SetHeld(st, id, kept).pel) == PelEntries(st.pel);
  }

  lemma ReadAccount(s: State, e: Event)
    requires Inv(s) && Accounted(s) && e.Read? && Enabled(s, e)
    ensures Accounted(Step(s, e))
  {
    SortedHere(s, e.pod);
    hide Inv, Accounted, LiveEntries, XReadGroup, Batch, StreamOk, SortedPel, Logged;
    ReadMembers(s.streams[e.pod], s.now, e.count);
    SameMembers(s, Step(s, e), e.pod);
  }

  lemma ReadMembers(st: Stream, now: nat, count: nat)
    requires StreamOk(st, now)
    ensures forall x :: x in LiveEntries(st) ==> x in LiveEntries(XReadGroup(st, count, now))
  {
    hide StreamOk, Batch, Unread, XReadGroup, PelEntries, HandOut;
    var (b, st') := (Batch(st, count), XReadGroup(st, count, now));
    var taken := PelEntries(st.pel);
    ReadMovesBatch(st, now, count);
    HandedEntries(st.pel, b, now);
    forall x | x in LiveEntries(st)
      ensures x in LiveEntries(st')
    {
      InEither(Unread(st), taken, x);
      InEither(b, Unread(st'), x);
      InEither(taken, b, x);
      InEither(Unread(st'), taken + b, x);
    }
  }

  lemma HandedEntries(pel: seq<Pending>, b: seq<Entry>, now: nat)
    ensures PelEntries(pel + HandOut(b, now)) == PelEntries(pel) + b
  {
  }

  lemma InEither(a: seq<Entry>, b: seq<Entry>, x: Entry)
    ensures x in a + b <==> x in a || x in b
  {
  }

  lemma ClaimAccount(s: State, e: Event)
    requires Accounted(s) && e.Claim? && Enabled(s, e)
    ensures Accounted(Step(s, e))
  {
    var st, s' := s.streams[e.pod], Step(s, e);
    var lost := ClaimLost(st.pel[e.lo..e.hi], st.entries);
    forall x | x in LiveEntries(st)
      ensures x in LiveEntries(s'.streams[e.pod]) || Logged(s', x.token)
    {
      ClaimLive(st, e.lo, e.hi, s.now, MinIdle(s.cfg), x);
      if x in lost {
        var i :| 0 <= i < |lost| && lost[i] == x;
        assert s'.log[|s.log| + i].entry == x;
      }
    }
    SameMembers(s, s', e.pod);
  }

  lemma ForceAccount(s: State, e: Event)
    requires Accounted(s) && e.ForceAck? && Enabled(s, e)
    ensures Accounted(Step(s, e))
  {
    var st, s' := s.streams[e.pod], Step(s, e);
    LastLogged(s', Record(s, e.pod, e.id).entry.token);
    forall x | x in LiveEntries(st)
      ensures x in LiveEntries(s'.streams[e.pod]) || Logged(s', x.token)
    {
      AckLive(st, e.id, x);
    }
    SameMembers(s, s', e.pod);
  }

  lemma DropAccount(s: State, e: Event)
    requires Accounted(s) && e.DropStream? && Enabled(s, e)
    ensures Accounted(Step(s, e))
  {
    var lost, s' := LiveEntries(s.streams[e.pod]), Step(s, e);
    forall x | x in lost
      ensures Logged(s', x.token)
    {
      var i :| 0 <= i < |lost| && lost[i] == x;
      assert s'.log[|s.log| + i].entry == x;
    }
    SameMembers(s, s', e.pod);
  }

  lemma AccountStep(s: State, e: Event)
    requires Inv(s) && Accounted(s) && Enabled(s, e)
    ensures Accounted(Step(s, e))
  {
    match e
    case Tick(_) =>
      var s' := Step(s, e);
      forall x | Live(s, x)
        ensures Survives(s', x)
      {
        assert Live(s', x);
      }
      Keeps(s, s');
    case Publish(_, _, _) => PublishAccount(s, e);
    case CreateGroup(pod) =>
      assert LiveEntries(XGroupCreate(s.streams[pod])) == LiveEntries(s.streams[pod]);
      SameMembers(s, Step(s, e), pod);
    case Read(_, _) => ReadAccount(s, e);
    case Claim(_, _, _) => ClaimAccount(s, e);
    case Process(_, _, _, _, _) => ProcessAccount(s, e);
    case Abandon(pod, id) =>
      HeldMembers(s.streams[pod], id, 0);
      SameMembers(s, Step(s, e), pod);
    case Effect(_, _, _, _, _) => EffectAccount(s, e);
    case Ack(_, _) => AckAccount(s, e);
    case ForceAck(_, _) => ForceAccount(s, e);
    case Trim(pod, k, _) =>
      EvictSurvives(s, pod, k);
      Keeps(s, Step(s, e));
    case DropStream(_) => DropAccount(s, e);
  }

  lemma {:induction false} RunAccount(cfg: Config, pods: nat, es: seq<Event>)
    requires Run(Start(cfg, pods), es).Some?
    ensures Accounted(Run(Start(cfg, pods), es).value)
  {
    if es != [] {
      var init := es[..|es| - 1];
      RunAccount(cfg, pods, init);
      StartInv(cfg, pods);
      RunInv(Start(cfg, pods), init);
      AccountStep(Run(Start(cfg, pods), init).value, es[|es| - 1]);
    }
  }

  lemma {:induction false} ListedEither(pel: seq<Pending>, es: seq<Entry>, e: Entry)
    requires Listed(pel, e)
    ensures e in InReach(pel, es) || e in StrandedOf(pel, es)
  {
    hide Stranded;
    var i :| 0 <= i < |pel| && pel[i].entry == e;
    if i > 0 {
      assert pel[1..][i - 1].entry == e;
      ListedEither(pel[1..], es, e);
    }
  }

  lemma LiveEither(st: Stream, e: Entry)
    requires e in LiveEntries(st)
    ensures e in Recoverable(st) || e in StrandedOf(st.pel, st.entries)
  {
    hide Unread, InReach, StrandedOf;
    if e !in Unread(st) {
      InPel(st.pel, e);
      ListedEither(st.pel, st.entries, e);
    }
  }

  /** In every reachable state every published message is on record as delivered
      or dropped, or has a copy that is still within reach, or else only a
      stranded one: pending, in nobody's hands, its entry trimmed away. */
  lemma NoSilentLoss(cfg: Config, pods: nat, es: seq<Event>, t: nat)
    requires Run(Start(cfg, pods), es).Some?
    ensures var s := Run(Start(cfg, pods), es).value;
      t < |s.published| ==>
        || (exists k :: 0 <= k < |s.log| && s.log[k].entry.token == t)
        || (exists q, e :: 0 <= q < |s.streams| && e in Recoverable(s.streams[q]) && e.token == t)
        || (exists q, e ::
              0 <= q < |s.streams| && e in StrandedOf(s.streams[q].pel, s.streams[q].entries) && e.token == t)
  {
    hide Run, Recoverable, StrandedOf, LiveEntries;
    RunAccount(cfg, pods, es);
    var s := Run(Start(cfg, pods), es).value;
    if t < |s.published| {
      assert Covered(s, t, -1);
      if !Logged(s, t) {
        var e :| Live(s, e) && e.token == t && e.copy > -1;
        var q :| 0 <= q < |s.streams| && e in LiveEntries(s.streams[q]);
        LiveEither(s.streams[q], e);
      }
    }
  }
}
