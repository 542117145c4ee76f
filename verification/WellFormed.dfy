/** The invariant of the fleet: sorted streams and pending lists, and an exact
    account of what each consumer group has handed out. */
module WellFormed {
  import opened StreamIds
  import opened RedisStreams
  import opened Cluster

  /** An entry handed out earlier keeps its id to itself: no other entry stored
      or pending in that stream carries it, and none ever will. */
  ghost predicate HandoutOk(e: Entry, st: Stream, now: nat, copies: nat) {
    && Before(ZERO, e.id)
    && e.copy < copies
    && (!Before(st.top, e.id) || e.id.ms < now)
    && (forall i :: 0 <= i < |st.entries| ==> st.entries[i].id == e.id ==> st.entries[i] == e)
    && (forall i :: 0 <= i < |st.pel| ==> st.pel[i].entry.id == e.id ==> st.pel[i].entry == e)
  }

  /** Stored entries at or below the cursor are exactly those handed out. */
  ghost predicate ReadExactly(pod: nat, st: Stream, handed: set<Handout>) {
    forall i :: 0 <= i < |st.entries| ==>
      (Handout(pod, st.entries[i]) in handed <==> !Before(st.cursor, st.entries[i].id))
  }

  ghost predicate PodOk(pod: nat, st: Stream, now: nat, copies: nat, handed: set<Handout>) {
    && StreamOk(st, now)
    && (forall i :: 0 <= i < |st.entries| ==> st.entries[i].copy < copies)
    && ReadExactly(pod, st, handed)
    && (forall i :: 0 <= i < |st.pel| ==> Handout(pod, st.pel[i].entry) in handed)
    && (forall h :: h in handed && h.pod == pod ==> HandoutOk(h.entry, st, now, copies))
  }

  ghost predicate Inv(s: State) {
    && (forall q :: 0 <= q < |s.streams| ==> PodOk(q, s.streams[q], s.now, s.copies, s.handed))
    && s.finished <= s.handed
  }

  lemma SortedHere(s: State, pod: nat)
    requires Inv(s) && pod < |s.streams|
    ensures StreamOk(s.streams[pod], s.now) && SortedPel(s.streams[pod].pel)
  {
    assert PodOk(pod, s.streams[pod], s.now, s.copies, s.handed);
  }

  lemma StartInv(cfg: Config, pods: nat)
    ensures Inv(Start(cfg, pods))
  {
  }

  // ----- One stream -----

  /** What happens elsewhere does not disturb a pod's account. */
  lemma PodLater(pod: nat, st: Stream, now: nat, later: nat, copies: nat, more: nat,
                 handed: set<Handout>, handed': set<Handout>)
    requires PodOk(pod, st, now, copies, handed)
    requires now <= later && copies <= more
    requires forall h: Handout :: h.pod == pod ==> (h in handed <==> h in handed')
    ensures PodOk(pod, st, later, more, handed')
  {
  }

  lemma PodAdd(pod: nat, st: Stream, now: nat, copies: nat, handed: set<Handout>, e: Entry)
    requires PodOk(pod, st, now, copies, handed)
    requires e.id == NextId(st.top, now) && e.copy == copies
    ensures PodOk(pod, XAdd(st, e), now, copies + 1, handed)
  {
    var st' := XAdd(st, e);
    AddedIsUnread(st, now, e);
    assert Before(st.cursor, e.id);
    assert Handout(pod, e) !in handed;
    forall h | h in handed && h.pod == pod
      ensures HandoutOk(h.entry, st', now, copies + 1)
    {
      assert h.entry.id != e.id;
    }
    forall i | 0 <= i < |st'.entries|
      ensures Handout(pod, st'.entries[i]) in handed <==> !Before(st'.cursor, st'.entries[i].id)
    {
    }
  }

  lemma PodTrim(pod: nat, st: Stream, now: nat, copies: nat, handed: set<Handout>, k: nat)
    requires PodOk(pod, st, now, copies, handed) && k <= |st.entries|
    requires k == |st.entries| > 0 ==> st.top.ms < now
    ensures PodOk(pod, XTrim(st, k), now, copies, handed)
  {
    var st' := XTrim(st, k);
    assert forall i :: 0 <= i < |st'.entries| ==> st'.entries[i] == st.entries[i + k];
    assert EntriesOk(st'.entries, st'.top, now);
  }

  /** A trim below its floor empties a stream only of entries of the past. */
  lemma TrimLeavesTop(s: State, pod: nat, k: nat, floor: Id)
    requires Enabled(s, Event.Trim(pod, k, floor)) && StreamOk(s.streams[pod], s.now)
    ensures k == |s.streams[pod].entries| > 0 ==> s.streams[pod].top.ms < s.now
  {
    var st := s.streams[pod];
    if k == |st.entries| > 0 {
      assert Before(st.entries[k - 1].id, floor);
      if floor.ms >= s.now {
        assert false;
      }
    }
  }

  lemma PodCreate(pod: nat, st: Stream, now: nat, copies: nat, handed: set<Handout>)
    requires PodOk(pod, st, now, copies, handed)
    ensures PodOk(pod, XGroupCreate(st), now, copies, handed)
  {
  }

  /** What a read changes, position by position. */
  lemma ReadShape(st: Stream, now: nat, count: nat)
    requires StreamOk(st, now) && st.grouped
    ensures var (b, r, st') := (Batch(st, count), ReadCount(st.entries, st.cursor), XReadGroup(st, count, now));
      && r + |b| <= |st.entries|
      && (forall i :: 0 <= i < |b| ==> b[i] == st.entries[r + i])
      && ReadCount(st.entries, st'.cursor) == r + |b|
      && st'.entries == st.entries
  {
    var b, r := Batch(st, count), ReadCount(st.entries, st.cursor);
    BatchIsSlice(st, count);
    if b != [] {
      assert b[|b| - 1] == st.entries[r + |b| - 1];
      SliceEnd(st.entries, r, |b|);
    }
  }

  lemma ReadLedger(pod: nat, es: seq<Entry>, r: nat, b: seq<Entry>, handed: set<Handout>, i: nat)
    requires Sorted(es) && r + |b| <= |es| && i < |es|
    requires forall j :: 0 <= j < |b| ==> b[j] == es[r + j]
    requires Handout(pod, es[i]) in handed <==> i < r
    ensures Handout(pod, es[i]) in handed + HandoutsOf(pod, b) <==> i < r + |b|
  {
    if r <= i < r + |b| {
      assert b[i - r] == es[i];
    }
    if Handout(pod, es[i]) in HandoutsOf(pod, b) {
      var j :| 0 <= j < |b| && b[j] == es[i];
      assert es[r + j].id == es[i].id;
      assert !(i < r + j) && !(r + j < i);
    }
  }

  /** A stream whose cursor moved over the batch b, which joined the pending list. */
  ghost predicate Advanced(st: Stream, st': Stream, b: seq<Entry>, r: nat) {
    && st'.entries == st.entries && st'.top == st.top
    && ReadCount(st.entries, st.cursor) == r && ReadCount(st.entries, st'.cursor) == r + |b|
    && r + |b| <= |st.entries| && (forall i :: 0 <= i < |b| ==> b[i] == st.entries[r + i])
    && |st'.pel| == |st.pel| + |b|
    && (forall i :: 0 <= i < |st'.pel| ==>
          st'.pel[i].entry == if i < |st.pel| then st.pel[i].entry else st.entries[r + (i - |st.pel|)])
  }

  lemma AdvanceLedger(pod: nat, st: Stream, st': Stream, now: nat, copies: nat, handed: set<Handout>,
                      b: seq<Entry>, r: nat)
    requires PodOk(pod, st, now, copies, handed) && StreamOk(st', now) && Advanced(st, st', b, r)
    ensures ReadExactly(pod, st', handed + HandoutsOf(pod, b))
  {
    var handed' := handed + HandoutsOf(pod, b);
    forall i | 0 <= i < |st'.entries|
      ensures Handout(pod, st'.entries[i]) in handed' <==> !Before(st'.cursor, st'.entries[i].id)
    {
      PassedIsPrefix(st', now, i);
      PassedIsPrefix(st, now, i);
      ReadLedger(pod, st.entries, r, b, handed, i);
    }
  }

  lemma AdvancePel(pod: nat, st: Stream, st': Stream, now: nat, copies: nat, handed: set<Handout>,
                   b: seq<Entry>, r: nat, i: nat)
    requires PodOk(pod, st, now, copies, handed) && Advanced(st, st', b, r) && i < |st'.pel|
    ensures Handout(pod, st'.pel[i].entry) in handed + HandoutsOf(pod, b)
  {
    if i < |st.pel| {
      assert Handout(pod, st.pel[i].entry) in handed;
    } else {
      assert b[i - |st.pel|] == st'.pel[i].entry;
    }
  }

  lemma AdvanceHandout(pod: nat, st: Stream, st': Stream, now: nat, copies: nat, handed: set<Handout>,
                       b: seq<Entry>, r: nat, e: Entry)
    requires PodOk(pod, st, now, copies, handed) && Advanced(st, st', b, r)
    requires Handout(pod, e) in handed + HandoutsOf(pod, b)
    ensures HandoutOk(e, st', now, copies)
  {
    hide ReadExactly, StreamOk, ReadCount;
    if Handout(pod, e) !in handed {
      var j :| 0 <= j < |b| && e == b[j];
      StoredHandout(pod, st, now, copies, handed, r + j);
    }
    assert HandoutOk(e, st, now, copies);
    hide PodOk;
    forall i | 0 <= i < |st'.pel| && st'.pel[i].entry.id == e.id
      ensures st'.pel[i].entry == e
    {
    }
  }

  lemma PodAdvance(pod: nat, st: Stream, st': Stream, now: nat, copies: nat, handed: set<Handout>,
                   b: seq<Entry>, r: nat)
    requires PodOk(pod, st, now, copies, handed) && StreamOk(st', now) && Advanced(st, st', b, r)
    ensures PodOk(pod, st', now, copies, handed + HandoutsOf(pod, b))
  {
    AdvanceLedger(pod, st, st', now, copies, handed, b, r);
    forall i | 0 <= i < |st'.pel|
      ensures Handout(pod, st'.pel[i].entry) in handed + HandoutsOf(pod, b)
    {
      AdvancePel(pod, st, st', now, copies, handed, b, r, i);
    }
    forall h | h in handed + HandoutsOf(pod, b) && h.pod == pod
      ensures HandoutOk(h.entry, st', now, copies)
    {
      AdvanceHandout(pod, st, st', now, copies, handed, b, r, h.entry);
    }
  }

  lemma ReadAdvances(st: Stream, now: nat, count: nat)
    requires StreamOk(st, now) && st.grouped
    ensures StreamOk(XReadGroup(st, count, now), now)
    ensures Advanced(st, XReadGroup(st, count, now), Batch(st, count), ReadCount(st.entries, st.cursor))
  {
    hide StreamOk, Batch, Unread, ReadCount, HandOut;
    ReadShape(st, now, count);
    ReadKeepsOk(st, now, count);
    ReadMovesBatch(st, now, count);
  }

  lemma PodRead(pod: nat, st: Stream, now: nat, copies: nat, handed: set<Handout>, count: nat)
    requires PodOk(pod, st, now, copies, handed) && st.grouped
    ensures PodOk(pod, XReadGroup(st, count, now), now, copies,
                  handed + HandoutsOf(pod, Batch(st, count)))
  {
    ReadAdvances(st, now, count);
    PodAdvance(pod, st, XReadGroup(st, count, now), now, copies, handed, Batch(st, count),
               ReadCount(st.entries, st.cursor));
  }

  /** An unread stored entry is alone with its id. */
  lemma StoredHandout(pod: nat, st: Stream, now: nat, copies: nat, handed: set<Handout>, i: nat)
    requires PodOk(pod, st, now, copies, handed)
    requires ReadCount(st.entries, st.cursor) <= i < |st.entries|
    ensures HandoutOk(st.entries[i], st, now, copies)
  {
    var es, e := st.entries, st.entries[i];
    PassedIsPrefix(st, now, i);
    assert i < |es| - 1 ==> Before(e.id, es[|es| - 1].id);
    forall j | 0 <= j < |es| && es[j].id == e.id
      ensures es[j] == e
    {
      assert !(i < j) && !(j < i);
    }
  }

  predicate Listed(pel: seq<Pending>, e: Entry) {
    exists i :: 0 <= i < |pel| && pel[i].entry == e
  }

  /** Fewer or refreshed pending records, everything else as it was. */
  lemma PodPel(pod: nat, st: Stream, now: nat, copies: nat, handed: set<Handout>, pel: seq<Pending>)
    requires PodOk(pod, st, now, copies, handed) && (st.grouped || pel == [])
    requires SortedPel(pel)
    requires forall j :: 0 <= j < |pel| ==> Listed(st.pel, pel[j].entry)
    ensures PodOk(pod, st.(pel := pel), now, copies, handed)
  {
    var st' := st.(pel := pel);
    forall j | 0 <= j < |pel|
      ensures Before(ZERO, pel[j].entry.id) && !Before(st.cursor, pel[j].entry.id)
      ensures Handout(pod, pel[j].entry) in handed
    {
      var i :| 0 <= i < |st.pel| && st.pel[i].entry == pel[j].entry;
    }
    forall h | h in handed && h.pod == pod
      ensures HandoutOk(h.entry, st', now, copies)
    {
      assert HandoutOk(h.entry, st, now, copies);
      forall j | 0 <= j < |pel| && pel[j].entry.id == h.entry.id
        ensures pel[j].entry == h.entry
      {
        var i :| 0 <= i < |st.pel| && st.pel[i].entry == pel[j].entry;
      }
    }
  }

  lemma WithoutSorted(pel: seq<Pending>, i: nat)
    requires SortedPel(pel) && i < |pel|
    ensures SortedPel(Without(pel, i))
  {
    var pel' := Without(pel, i);
    assert forall j :: 0 <= j < |pel'| ==> pel'[j] == pel[if j < i then j else j + 1];
  }

  lemma PodAck(pod: nat, st: Stream, now: nat, copies: nat, handed: set<Handout>, id: Id)
    requires PodOk(pod, st, now, copies, handed)
    ensures PodOk(pod, XAck(st, id), now, copies, handed)
  {
    var i := IndexOf(st.pel, id);
    if i < |st.pel| {
      var pel := Without(st.pel, i);
      WithoutSorted(st.pel, i);
      hide SortedPel, EntriesOk, ReadExactly, HandoutOk;
      forall j | 0 <= j < |pel|
        ensures Listed(st.pel, pel[j].entry)
      {
        assert pel[j] == st.pel[if j < i then j else j + 1];
      }
      PodPel(pod, st, now, copies, handed, pel);
    }
  }

  lemma PodHeld(pod: nat, st: Stream, now: nat, copies: nat, handed: set<Handout>, id: Id, kept: nat)
    requires PodOk(pod, st, now, copies, handed) && IsPending(st, id)
    ensures PodOk(pod, SetHeld(st, id, kept), now, copies, handed)
  {
    var pel := SetHeld(st, id, kept).pel;
    forall j | 0 <= j < |pel|
      ensures Listed(st.pel, pel[j].entry)
    {
      assert st.pel[j].entry == pel[j].entry;
    }
    PodPel(pod, st, now, copies, handed, pel);
  }

  lemma ClaimSource(st: Stream, lo: nat, hi: nat, now: nat, minIdle: nat, j: nat) returns (i: nat)
    requires SortedPel(st.pel) && lo <= hi <= |st.pel|
    requires j < |XAutoClaim(st, lo, hi, now, minIdle).pel|
    ensures Spot(st, lo, hi, i, j, |ClaimPel(st.pel[lo..hi], st.entries, now, minIdle)|)
    ensures st.pel[i].entry == XAutoClaim(st, lo, hi, now, minIdle).pel[j].entry
  {
    hide ClaimPel;
    var m, pel := st.pel[lo..hi], XAutoClaim(st, lo, hi, now, minIdle).pel;
    var c := ClaimPel(m, st.entries, now, minIdle);
    if j < lo {
      i := j;
    } else if j < lo + |c| {
      assert SortedPel(m);
      hide SortedPel;
      ClaimKeepsOrder(m, st.entries, now, minIdle);
      assert c[j - lo] == pel[j];
      var k :| 0 <= k < |m| && m[k].entry == c[j - lo].entry;
      i := lo + k;
    } else {
      i := hi + (j - lo - |c|);
      assert pel[j] == st.pel[hi..][j - lo - |c|];
    }
  }

  lemma ClaimSorted(st: Stream, lo: nat, hi: nat, now: nat, minIdle: nat)
    requires SortedPel(st.pel) && lo <= hi <= |st.pel|
    ensures SortedPel(XAutoClaim(st, lo, hi, now, minIdle).pel)
  {
    var c := ClaimPel(st.pel[lo..hi], st.entries, now, minIdle);
    var pel := XAutoClaim(st, lo, hi, now, minIdle).pel;
    ClaimKeepsOrder(st.pel[lo..hi], st.entries, now, minIdle);
    forall j, j' | 0 <= j < j' < |pel|
      ensures Before(pel[j].entry.id, pel[j'].entry.id)
    {
      if lo <= j && j' < lo + |c| {
        assert pel[j] == c[j - lo] && pel[j'] == c[j' - lo];
      } else {
        var i := ClaimSource(st, lo, hi, now, minIdle, j);
        var i' := ClaimSource(st, lo, hi, now, minIdle, j');
        assert i < i';
      }
    }
  }

  /** Where position j of a claimed list comes from. */
  predicate Spot(st: Stream, lo: nat, hi: nat, i: nat, j: nat, claimed: nat) {
    && i < |st.pel|
    && (j < lo ==> i == j)
    && (lo <= j < lo + claimed ==> lo <= i < hi)
    && (lo + claimed <= j ==> i == hi + (j - lo - claimed))
  }

  lemma PodClaim(pod: nat, st: Stream, now: nat, copies: nat, handed: set<Handout>, lo: nat, hi: nat, minIdle: nat)
    requires PodOk(pod, st, now, copies, handed) && lo <= hi <= |st.pel|
    ensures PodOk(pod, XAutoClaim(st, lo, hi, now, minIdle), now, copies, handed)
  {
    var pel := XAutoClaim(st, lo, hi, now, minIdle).pel;
    ClaimSorted(st, lo, hi, now, minIdle);
    forall j | 0 <= j < |pel|
      ensures Listed(st.pel, pel[j].entry)
    {
      var i := ClaimSource(st, lo, hi, now, minIdle, j);
    }
    PodPel(pod, st, now, copies, handed, pel);
  }

  /** Deleting a stream forgets its last id; the clock keeps the ids apart. */
  lemma PodDrop(pod: nat, st: Stream, now: nat, copies: nat, handed: set<Handout>)
    requires PodOk(pod, st, now, copies, handed) && InThePast(st.top, now)
    ensures PodOk(pod, NO_STREAM, now, copies, handed)
  {
  }

  // ----- Every step -----

  /** Replacing one pod's stream. */
  lemma OneStream(s: State, s': State, pod: nat)
    requires Inv(s) && pod < |s.streams| && |s'.streams| == |s.streams|
    requires forall q :: 0 <= q < |s.streams| && q != pod ==> s'.streams[q] == s.streams[q]
    requires s.now <= s'.now && s.copies <= s'.copies && s'.finished <= s'.handed
    requires forall h: Handout :: h.pod != pod ==> (h in s.handed <==> h in s'.handed)
    requires PodOk(pod, s'.streams[pod], s'.now, s'.copies, s'.handed)
    ensures Inv(s')
  {
    forall q | 0 <= q < |s'.streams|
      ensures PodOk(q, s'.streams[q], s'.now, s'.copies, s'.handed)
    {
      if q != pod {
        PodLater(q, s.streams[q], s.now, s'.now, s.copies, s'.copies, s.handed, s'.handed);
      }
    }
  }

  lemma EvictInv(s: State, pod: nat, k: nat)
    requires Inv(s) && pod < |s.streams| && k <= |s.streams[pod].entries|
    requires k == |s.streams[pod].entries| > 0 ==> s.streams[pod].top.ms < s.now
    ensures Inv(Evict(s, pod, k))
  {
    PodTrim(pod, s.streams[pod], s.now, s.copies, s.handed, k);
    OneStream(s, Evict(s, pod, k), pod);
  }

  lemma AppendInv(s: State, pod: nat, m: Message, token: nat, evict: nat)
    requires Inv(s) && pod < |s.streams| && CanEvict(s, pod, evict)
    ensures Inv(Append(s, pod, m, token, evict))
  {
    var e := NewEntry(s, pod, m, token);
    var s1 := WithStream(s, pod, XAdd(s.streams[pod], e)).(copies := s.copies + 1);
    PodAdd(pod, s.streams[pod], s.now, s.copies, s.handed, e);
    OneStream(s, s1, pod);
    EvictInv(s1, pod, evict);
  }

  lemma SettleInv(s: State, who: nat, e: Entry, v: Verdict, evict: nat)
    requires Inv(s) && VerdictFits(s, v, evict)
    ensures Inv(Settle(s, who, e, v, evict))
    ensures |Settle(s, who, e, v, evict).streams| == |s.streams|
    ensures Settle(s, who, e, v, evict).handed == s.handed
  {
    if v.Move? {
      AppendInv(s, v.to, Message(e.client, e.payload), e.token, evict);
    }
  }

  lemma AckInv(s: State, pod: nat, id: Id)
    requires Inv(s) && pod < |s.streams|
    ensures Inv(AckAt(s, pod, id))
  {
    PodAck(pod, s.streams[pod], s.now, s.copies, s.handed, id);
    OneStream(s, AckAt(s, pod, id), pod);
  }

  lemma ProcessInv(s: State, e: Event)
    requires Inv(s) && e.Process? && Enabled(s, e)
    ensures Inv(Step(s, e))
  {
    var entry := Record(s, e.pod, e.id).entry;
    var v := Decide(s.cfg, e.who, e.pod, entry, s.now, e.env);
    if v.Keep? {
      PodHeld(e.pod, s.streams[e.pod], s.now, s.copies, s.handed, e.id, 1);
      OneStream(s, Step(s, e), e.pod);
    } else {
      SettleInv(s, e.who, entry, v, e.evict);
      AckInv(Settle(s, e.who, entry, v, e.evict), e.pod, e.id);
    }
  }

  lemma EffectInv(s: State, e: Event)
    requires Inv(s) && e.Effect? && Enabled(s, e)
    ensures Inv(Step(s, e))
  {
    var v := Decide(s.cfg, e.who, e.pod, e.entry, s.now, e.env);
    SettleInv(s, e.who, e.entry, v, e.evict);
    assert Settle(s, e.who, e.entry, v, e.evict).finished == s.finished;
  }

  lemma ReadInv(s: State, e: Event)
    requires Inv(s) && e.Read? && Enabled(s, e)
    ensures Inv(Step(s, e))
  {
    PodRead(e.pod, s.streams[e.pod], s.now, s.copies, s.handed, e.count);
    OneStream(s, Step(s, e), e.pod);
  }

  lemma TickInv(s: State, e: Event)
    requires Inv(s) && e.Tick? && Enabled(s, e)
    ensures Inv(Step(s, e))
  {
    var s' := Step(s, e);
    forall q | 0 <= q < |s.streams|
      ensures PodOk(q, s'.streams[q], s'.now, s'.copies, s'.handed)
    {
      PodLater(q, s.streams[q], s.now, s'.now, s.copies, s.copies, s.handed, s.handed);
    }
  }

  lemma CreateInv(s: State, e: Event)
    requires Inv(s) && e.CreateGroup? && Enabled(s, e)
    ensures Inv(Step(s, e))
  {
    PodCreate(e.pod, s.streams[e.pod], s.now, s.copies, s.handed);
    hide PodOk, XGroupCreate;
    OneStream(s, Step(s, e), e.pod);
  }

  lemma ClaimInv(s: State, e: Event)
    requires Inv(s) && e.Claim? && Enabled(s, e)
    ensures Inv(Step(s, e))
  {
    PodClaim(e.pod, s.streams[e.pod], s.now, s.copies, s.handed, e.lo, e.hi, MinIdle(s.cfg));
    hide PodOk, XAutoClaim, ClaimLost, Losses;
    OneStream(s, Step(s, e), e.pod);
  }

  lemma AbandonInv(s: State, e: Event)
    requires Inv(s) && e.Abandon? && Enabled(s, e)
    ensures Inv(Step(s, e))
  {
    PodHeld(e.pod, s.streams[e.pod], s.now, s.copies, s.handed, e.id, 0);
    hide PodOk, SetHeld;
    OneStream(s, Step(s, e), e.pod);
  }

  lemma ForceInv(s: State, e: Event)
    requires Inv(s) && e.ForceAck? && Enabled(s, e)
    ensures Inv(Step(s, e))
  {
    PodAck(e.pod, s.streams[e.pod], s.now, s.copies, s.handed, e.id);
    hide PodOk, XAck, Record;
    OneStream(s, Step(s, e), e.pod);
  }

  lemma DropInv(s: State, e: Event)
    requires Inv(s) && e.DropStream? && Enabled(s, e)
    ensures Inv(Step(s, e))
  {
    PodDrop(e.pod, s.streams[e.pod], s.now, s.copies, s.handed);
    hide PodOk;
    OneStream(s, Step(s, e), e.pod);
  }

  lemma InvStep(s: State, e: Event)
    requires Inv(s) && Enabled(s, e)
    ensures Inv(Step(s, e))
  {
    hide Inv, Step;
    match e
    case Tick(_) => TickInv(s, e);
    case Publish(_, _, _) => PublishInv(s, e);
    case CreateGroup(_) => CreateInv(s, e);
    case Read(_, _) => ReadInv(s, e);
    case Claim(_, _, _) => ClaimInv(s, e);
    case Process(_, _, _, _, _) => ProcessInv(s, e);
    case Abandon(_, _) => AbandonInv(s, e);
    case Effect(_, _, _, _, _) => EffectInv(s, e);
    case Ack(_, _) => AcknowledgeInv(s, e);
    case ForceAck(_, _) => ForceInv(s, e);
    case Trim(_, _, _) => TrimInv(s, e);
    case DropStream(_) => DropInv(s, e);
  }

  lemma AcknowledgeInv(s: State, e: Event)
    requires Inv(s) && e.Ack? && Enabled(s, e)
    ensures Inv(Step(s, e))
  {
    AckInv(s, e.pod, e.id);
  }

  lemma PublishInv(s: State, e: Event)
    requires Inv(s) && e.Publish? && Enabled(s, e)
    ensures Inv(Step(s, e))
  {
    AppendInv(s, e.pod, e.message, |s.published|, e.evict);
  }

  lemma TrimInv(s: State, e: Event)
    requires Inv(s) && e.Trim? && Enabled(s, e)
    ensures Inv(Step(s, e))
  {
    TrimLeavesTop(s, e.pod, e.k, e.floor);
    EvictInv(s, e.pod, e.k);
  }

  lemma {:induction false} RunInv(s: State, es: seq<Event>)
    requires Inv(s) && Run(s, es).Some?
    ensures Inv(Run(s, es).value)
  {
    if es != [] {
      RunInv(s, es[..|es| - 1]);
      InvStep(Run(s, es[..|es| - 1]).value, es[|es| - 1]);
    }
  }
}
