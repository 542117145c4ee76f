/** What the auto-claim loop achieves: which entries one tick passes over, and that
    enough ticks pass over every one that is due. */
module Ticks {
  import opened StreamIds
  import opened RedisStreams
  import opened Cluster
  import opened WellFormed
  import opened TrimFirst
  import opened Batches
  import opened Rounds

  // ----- One claim, record by record -----

  /** Idle for long enough, 60 s if nothing else is configured. */
  predicate IsDue(cfg: Config, r: Pending, now: nat) {
    now - r.since >= if cfg.claimIdleMs > 0 then cfg.claimIdleMs else 60000
  }

  lemma DueIs(cfg: Config, r: Pending, now: nat)
    ensures IsDue(cfg, r, now) <==> Due(r, now, MinIdle(cfg))
  {
  }

  lemma {:induction false} ClaimEach(pel: seq<Pending>, es: seq<Entry>, now: nat, idle: nat, i: nat)
    requires i < |pel|
    ensures var r := pel[i];
      && (Stored(es, r.entry.id) && Due(r, now, idle) ==>
            && Pending(r.entry, now, r.times + 1, true, r.kept) in ClaimPel(pel, es, now, idle)
            && r.entry in Claimed(pel, es, now, idle))
      && (Stored(es, r.entry.id) && !Due(r, now, idle) ==> r in ClaimPel(pel, es, now, idle))
  {
    hide Stored, Due;
    if i > 0 {
      ClaimEach(pel[1..], es, now, idle, i - 1);
    }
  }

  lemma {:induction false} ClaimedFrom(pel: seq<Pending>, es: seq<Entry>, now: nat, idle: nat, x: Entry)
    requires x in Claimed(pel, es, now, idle)
    ensures exists i :: 0 <= i < |pel| && pel[i].entry == x && Stored(es, x.id) && Due(pel[i], now, idle)
  {
    hide Stored, Due;
    if !(Due(pel[0], now, idle) && Stored(es, pel[0].entry.id) && pel[0].entry == x) {
      ClaimedFrom(pel[1..], es, now, idle, x);
      var i :| 0 <= i < |pel[1..]| && pel[1..][i].entry == x && Stored(es, x.id) && Due(pel[1..][i], now, idle);
      assert pel[i + 1] == pel[1..][i];
    }
  }

  lemma {:induction false} ClaimedNow(pel: seq<Pending>, es: seq<Entry>, now: nat, idle: nat, j: nat)
    requires j < |ClaimPel(pel, es, now, idle)|
    ensures Stored(es, ClaimPel(pel, es, now, idle)[j].entry.id)
    ensures exists i :: 0 <= i < |pel| && pel[i].entry == ClaimPel(pel, es, now, idle)[j].entry
  {
    hide Stored, Due;
    var (c, c') := (ClaimPel(pel, es, now, idle), ClaimPel(pel[1..], es, now, idle));
    var r := pel[0];
    if !Stored(es, r.entry.id) {
      assert c == c';
      ClaimedNow(pel[1..], es, now, idle, j);
      var i :| 0 <= i < |pel[1..]| && pel[1..][i].entry == c[j].entry;
      assert pel[i + 1] == pel[1..][i];
    } else if j > 0 {
      assert c[j] == c'[j - 1];
      ClaimedNow(pel[1..], es, now, idle, j - 1);
      var i :| 0 <= i < |pel[1..]| && pel[1..][i].entry == c[j].entry;
      assert pel[i + 1] == pel[1..][i];
    } else {
      assert c[0].entry == pel[0].entry;
    }
  }

  // ----- One tick -----

  /** How many records a claim deals with: gone ones and those due. */
  function Dealt(pel: seq<Pending>, es: seq<Entry>, cfg: Config, now: nat): (n: nat)
    ensures n <= |pel|
  {
    if pel == [] then 0
    else (if !Stored(es, pel[0].entry.id) || IsDue(cfg, pel[0], now) then 1 else 0) + Dealt(pel[1..], es, cfg, now)
  }

  lemma {:induction false} DealtIs(pel: seq<Pending>, es: seq<Entry>, cfg: Config, now: nat)
    ensures Dealt(pel, es, cfg, now) == |HandledList(pel, es, now, MinIdle(cfg))|
  {
    hide Stored;
    if pel != [] {
      DealtIs(pel[1..], es, cfg, now);
      DueIs(cfg, pel[0], now);
    }
  }

  /** The stretch scanned begins at the first record not before `start` and ends when
      COUNT records are dealt with, 100 if nothing else is configured, or at the end. */
  predicate Stretch(seen: Stream, cfg: Config, now: nat, start: Id, lo: nat, hi: nat) {
    var count := if cfg.readCount > 0 then cfg.readCount else 100;
    && lo <= hi <= |seen.pel|
    && (forall i :: 0 <= i < lo ==> Before(seen.pel[i].entry.id, start))
    && (lo < |seen.pel| ==> !Before(seen.pel[lo].entry.id, start))
    && Dealt(seen.pel[lo..hi], seen.entries, cfg, now) <= count
    && (hi < |seen.pel| ==> Dealt(seen.pel[lo..hi], seen.entries, cfg, now) == count)
    && (lo < hi && hi < |seen.pel| ==>
          !Stored(seen.entries, seen.pel[hi - 1].entry.id) || IsDue(cfg, seen.pel[hi - 1], now))
  }

  /** The ids of the due and stored records of the stretch, in order. */
  predicate Fetched(seen: Stream, cfg: Config, now: nat, lo: nat, hi: nat, ids: seq<Id>)
    requires lo <= hi <= |seen.pel|
  {
    && (forall a, b :: 0 <= a < b < |ids| ==> Before(ids[a], ids[b]))
    && (forall i :: lo <= i < hi ==>
          (seen.pel[i].entry.id in ids <==>
             Stored(seen.entries, seen.pel[i].entry.id) && IsDue(cfg, seen.pel[i], now)))
    && (forall k :: 0 <= k < |ids| ==> exists i :: lo <= i < hi && seen.pel[i].entry.id == ids[k])
  }

  predicate EndsWith(pel: seq<Pending>, rest: seq<Pending>) {
    |rest| <= |pel| && pel[|pel| - |rest|..] == rest
  }

  /** A tick that met `seen`: its stretch, the passes over what it fetched, the gone
      records of the stretch deleted, the records behind it as they were, and where
      the next tick starts. */
  predicate TickFits(seen: Stream, now: nat, st': Stream, cfg: Config, start: Id, next: Id, ids: seq<Id>,
                     lo: nat, hi: nat) {
    && Stretch(seen, cfg, now, start, lo, hi)
    && Fetched(seen, cfg, now, lo, hi, ids)
    && (forall i :: lo <= i < hi && !Stored(seen.entries, seen.pel[i].entry.id) ==>
          !IsPending(st', seen.pel[i].entry.id))
    && EndsWith(st'.pel, seen.pel[hi..])
    && next == if hi < |seen.pel| then seen.pel[hi].entry.id else ZERO
  }

  lemma {:induction false} ScanStops(pel: seq<Pending>, es: seq<Entry>, i: nat, count: nat, now: nat, m: nat)
    requires i <= |pel|
    ensures var k := ScanEnd(pel, es, i, count, now, m); i < k < |pel| ==> Handled(pel[k - 1], es, now, m)
    decreases |pel| - i
  {
    hide Handled;
    var k := ScanEnd(pel, es, i, count, now, m);
    if i < k {
      var c' := if Handled(pel[i], es, now, m) then count - 1 else count;
      ScanStops(pel, es, i + 1, c', now, m);
      if k == i + 1 && k < |pel| {
        assert ScanEnd(pel, es, i + 1, c', now, m) == i + 1;
        StopsAtOnce(pel, es, i + 1, c', now, m);
      }
    }
  }

  lemma StopsAtOnce(pel: seq<Pending>, es: seq<Entry>, i: nat, count: nat, now: nat, m: nat)
    requires i < |pel| && ScanEnd(pel, es, i, count, now, m) == i
    ensures count == 0
  {
  }

  lemma StretchIs(seen: Stream, cfg: Config, now: nat, start: Id, lo: nat, hi: nat)
    requires Scan(seen, cfg, now, start, lo, hi)
    ensures Stretch(seen, cfg, now, start, lo, hi)
  {
    var (pel, es, m) := (seen.pel, seen.entries, MinIdle(cfg));
    ScanTakes(pel, es, lo, ReadCountOf(cfg), now, m);
    ScanStops(pel, es, lo, ReadCountOf(cfg), now, m);
    DealtIs(pel[lo..hi], es, cfg, now);
    hide HandledList, Stored, Dealt, ScanEnd, FirstAt;
    if lo < hi {
      DueIs(cfg, pel[hi - 1], now);
    }
  }

  lemma FetchedIs(seen: Stream, cfg: Config, now: nat, lo: nat, hi: nat)
    requires SortedPel(seen.pel) && lo <= hi <= |seen.pel|
    ensures Fetched(seen, cfg, now, lo, hi, Ids(Claimed(seen.pel[lo..hi], seen.entries, now, MinIdle(cfg))))
  {
    var (part, es, m) := (seen.pel[lo..hi], seen.entries, MinIdle(cfg));
    var b := Claimed(part, es, now, m);
    ClaimedSorted(part, es, now, m);
    hide Claimed, Stored;
    forall i | lo <= i < hi
      ensures seen.pel[i].entry.id in Ids(b) <==> Stored(es, seen.pel[i].entry.id) && IsDue(cfg, seen.pel[i], now)
    {
      DueIs(cfg, seen.pel[i], now);
      assert part[i - lo] == seen.pel[i];
      ClaimEach(part, es, now, m, i - lo);
      if seen.pel[i].entry in b {
        InIds(b, seen.pel[i].entry);
      }
      if seen.pel[i].entry.id in Ids(b) {
        var k :| 0 <= k < |b| && b[k].id == seen.pel[i].entry.id;
        ClaimedFrom(part, es, now, m, b[k]);
        var j :| 0 <= j < |part| && part[j].entry == b[k] && Stored(es, b[k].id) && Due(part[j], now, m);
        SameSpot(seen.pel, lo + j, i);
      }
    }
    forall k | 0 <= k < |Ids(b)|
      ensures exists i :: lo <= i < hi && seen.pel[i].entry.id == Ids(b)[k]
    {
      ClaimedFrom(part, es, now, m, b[k]);
      var j :| 0 <= j < |part| && part[j].entry == b[k] && Stored(es, b[k].id) && Due(part[j], now, m);
      assert seen.pel[lo + j].entry.id == Ids(b)[k];
    }
  }

  lemma InIds(b: seq<Entry>, x: Entry)
    requires x in b
    ensures x.id in Ids(b)
  {
    var k :| 0 <= k < |b| && b[k] == x;
    assert Ids(b)[k] == x.id;
  }

  lemma SameSpot(pel: seq<Pending>, i: nat, j: nat)
    requires SortedPel(pel) && i < |pel| && j < |pel| && pel[i].entry.id == pel[j].entry.id
    ensures i == j
  {
  }

  // ----- What passes leave alone -----

  /** No id is that of a record of the rest. */
  predicate Apart(ids: seq<Id>, rest: seq<Pending>) {
    forall k, j :: 0 <= k < |ids| && 0 <= j < |rest| ==> ids[k] != rest[j].entry.id
  }

  lemma PassSparesRest(pel: seq<Pending>, pel': seq<Pending>, id: Id, rest: seq<Pending>)
    requires OnePass(pel, pel', id) && EndsWith(pel, rest)
    requires forall j :: 0 <= j < |rest| ==> id != rest[j].entry.id
    ensures EndsWith(pel', rest)
    ensures forall j :: 0 <= j < |pel'| ==> Listed(pel, pel'[j].entry)
  {
    var i, n := IndexOf(pel, id), |pel| - |rest|;
    assert forall j :: 0 <= j < |rest| ==> rest[j] == pel[n + j];
    assert i < n;
    if pel' == Without(pel, i) {
      assert pel'[n - 1..] == pel[n..];
      forall j | 0 <= j < |pel'|
        ensures Listed(pel, pel'[j].entry)
      {
        assert pel'[j] == pel[if j < i then j else j + 1];
      }
    } else {
      assert pel'[n..] == pel[n..];
      forall j | 0 <= j < |pel'|
        ensures Listed(pel, pel'[j].entry)
      {
        assert pel[j].entry == pel'[j].entry;
      }
    }
  }

  lemma {:induction false} PassesSpareRest(pel: seq<Pending>, pel': seq<Pending>, ids: seq<Id>, rest: seq<Pending>)
    requires PassesOver(pel, pel', ids) && EndsWith(pel, rest) && Apart(ids, rest)
    ensures EndsWith(pel', rest)
    ensures forall j :: 0 <= j < |pel'| ==> Listed(pel, pel'[j].entry)
    decreases |ids|
  {
    hide OnePass, EndsWith;
    if ids != [] {
      var init, id := ids[..|ids| - 1], ids[|ids| - 1];
      var mid: seq<Pending> :| PassesOver(pel, mid, init) && OnePass(mid, pel', id);
      assert Apart(init, rest);
      PassesSpareRest(pel, mid, init, rest);
      PassSparesRest(mid, pel', id, rest);
      forall j | 0 <= j < |pel'|
        ensures Listed(pel, pel'[j].entry)
      {
        assert Listed(mid, pel'[j].entry);
        var k :| 0 <= k < |mid| && mid[k].entry == pel'[j].entry;
        assert Listed(pel, mid[k].entry);
      }
    } else {
      forall j | 0 <= j < |pel'|
        ensures Listed(pel, pel'[j].entry)
      {
        assert pel[j].entry == pel'[j].entry;
      }
    }
  }

  lemma ClaimEnds(seen: Stream, lo: nat, hi: nat, now: nat, idle: nat)
    requires lo <= hi <= |seen.pel|
    ensures EndsWith(XAutoClaim(seen, lo, hi, now, idle).pel, seen.pel[hi..])
  {
  }

  /** A gone record of the stretch is not in the list after the claim. */
  lemma GoneLeaves(seen: Stream, lo: nat, hi: nat, now: nat, idle: nat, i: nat, j: nat)
    requires SortedPel(seen.pel) && lo <= i < hi <= |seen.pel| && !Stored(seen.entries, seen.pel[i].entry.id)
    requires j < |XAutoClaim(seen, lo, hi, now, idle).pel|
    ensures XAutoClaim(seen, lo, hi, now, idle).pel[j].entry.id != seen.pel[i].entry.id
  {
    var (part, es) := (seen.pel[lo..hi], seen.entries);
    var c, pel := ClaimPel(part, es, now, idle), XAutoClaim(seen, lo, hi, now, idle).pel;
    hide ClaimPel, Stored;
    if j < lo {
      assert Before(seen.pel[j].entry.id, seen.pel[i].entry.id);
    } else if j < lo + |c| {
      assert pel[j] == c[j - lo];
      ClaimedNow(part, es, now, idle, j - lo);
    } else {
      assert pel[j] == seen.pel[hi + (j - lo - |c|)];
      assert Before(seen.pel[i].entry.id, seen.pel[hi + (j - lo - |c|)].entry.id);
    }
  }

  lemma FetchedApart(seen: Stream, cfg: Config, now: nat, lo: nat, hi: nat, ids: seq<Id>)
    requires SortedPel(seen.pel) && lo <= hi <= |seen.pel| && Fetched(seen, cfg, now, lo, hi, ids)
    ensures Apart(ids, seen.pel[hi..])
  {
    forall k, j | 0 <= k < |ids| && 0 <= j < |seen.pel[hi..]|
      ensures ids[k] != seen.pel[hi..][j].entry.id
    {
      var i :| lo <= i < hi && seen.pel[i].entry.id == ids[k];
      assert Before(seen.pel[i].entry.id, seen.pel[hi + j].entry.id);
    }
  }

  lemma TickIs(seen: Stream, now: nat, st': Stream, cfg: Config, start: Id, lo: nat, hi: nat)
    requires SortedPel(seen.pel) && Scan(seen, cfg, now, start, lo, hi)
    requires var b := Claimed(seen.pel[lo..hi], seen.entries, now, MinIdle(cfg));
      PassesOver(XAutoClaim(seen, lo, hi, now, MinIdle(cfg)).pel, st'.pel, Ids(b))
    ensures var b := Claimed(seen.pel[lo..hi], seen.entries, now, MinIdle(cfg));
      TickFits(seen, now, st', cfg, start, NextStart(seen.pel, hi), Ids(b), lo, hi)
  {
    hide Scan, Stretch, Fetched, Claimed, XAutoClaim, PassesOver, SortedPel, EndsWith, Apart, Stored, IndexOf;
    ScanBounds(seen, cfg, now, start, lo, hi);
    var b := Claimed(seen.pel[lo..hi], seen.entries, now, MinIdle(cfg));
    StretchIs(seen, cfg, now, start, lo, hi);
    FetchedIs(seen, cfg, now, lo, hi);
    FetchedApart(seen, cfg, now, lo, hi, Ids(b));
    ClaimEnds(seen, lo, hi, now, MinIdle(cfg));
    var pel := XAutoClaim(seen, lo, hi, now, MinIdle(cfg)).pel;
    PassesSpareRest(pel, st'.pel, Ids(b), seen.pel[hi..]);
    forall i | lo <= i < hi && !Stored(seen.entries, seen.pel[i].entry.id)
      ensures !IsPending(st', seen.pel[i].entry.id)
    {
      if IsPending(st', seen.pel[i].entry.id) {
        var j := IndexOf(st'.pel, seen.pel[i].entry.id);
        assert Listed(pel, st'.pel[j].entry);
        var k :| 0 <= k < |pel| && pel[k].entry == st'.pel[j].entry;
        GoneLeaves(seen, lo, hi, now, MinIdle(cfg), i, k);
      }
    }
  }

  lemma ScanBounds(seen: Stream, cfg: Config, now: nat, start: Id, lo: nat, hi: nat)
    requires Scan(seen, cfg, now, start, lo, hi)
    ensures lo <= hi <= |seen.pel|
  {
  }

  // ----- Tick after tick -----

  /** Of the first i records those that were due at t0 and are stored have been passed
      over. */
  predicate Worked(pel: seq<Pending>, i: nat, cfg: Config, t0: nat, es: seq<Entry>, ids: seq<Id>)
    requires i <= |pel|
  {
    forall k :: 0 <= k < i && IsDue(cfg, pel[k], t0) && Stored(es, pel[k].entry.id) ==> pel[k].entry.id in ids
  }

  /** The records from the i-th on are still to come, as they were. */
  predicate ToCome(pel0: seq<Pending>, i: nat, pel: seq<Pending>, start: Id) {
    && i <= |pel0| && EndsWith(pel, pel0[i..])
    && (i < |pel0| ==> start == pel0[i].entry.id || (i == 0 && start == ZERO && pel == pel0))
  }

  lemma StretchStarts(pel0: seq<Pending>, i: nat, seen: Stream, cfg: Config, now: nat, start: Id, lo: nat, hi: nat)
    requires SortedPel(seen.pel) && i < |pel0| && ToCome(pel0, i, seen.pel, start)
    requires Stretch(seen, cfg, now, start, lo, hi)
    ensures lo == |seen.pel| - |pel0[i..]|
  {
    hide Dealt, Stored;
    var n := |seen.pel| - |pel0[i..]|;
    assert seen.pel[n..][0] == seen.pel[n];
    if start == ZERO && seen.pel == pel0 && i == 0 {
      assert lo == 0;
    } else {
      assert seen.pel[n].entry.id == start;
    }
  }

  lemma TickAdvances(pel0: seq<Pending>, i: nat, seen: Stream, at: nat, st': Stream, cfg: Config, start: Id, next: Id,
                     ids: seq<Id>, lo: nat, hi: nat, t0: nat)
    returns (i': nat)
    requires SortedPel(seen.pel) && i < |pel0| && ToCome(pel0, i, seen.pel, start) && t0 <= at
    requires TickFits(seen, at, st', cfg, start, next, ids, lo, hi)
    ensures i <= i' <= |pel0| && ToCome(pel0, i', st'.pel, next)
    ensures i' == |pel0| || i' >= i + if cfg.readCount > 0 then cfg.readCount else 100
    ensures forall k :: i <= k < i' && IsDue(cfg, pel0[k], t0) && Stored(seen.entries, pel0[k].entry.id) ==>
      pel0[k].entry.id in ids
  {
    hide Dealt, Stored, SortedPel;
    StretchStarts(pel0, i, seen, cfg, at, start, lo, hi);
    var n := |seen.pel| - |pel0[i..]|;
    i' := i + (hi - lo);
    assert forall k :: i <= k < |pel0| ==> pel0[k] == pel0[i..][k - i] == seen.pel[n..][k - i] == seen.pel[n + (k - i)];
    assert seen.pel[hi..] == pel0[i'..];
  }

  // ----- What is stored was stored -----

  ghost predicate OldOnes(s: State, s': State, pod: nat) {
    && pod < |s.streams| == |s'.streams| && s.copies <= s'.copies
    && (forall x :: x in s'.streams[pod].entries ==> x in s.streams[pod].entries || x.copy >= s.copies)
  }

  lemma OldAppend(s: State, to: nat, m: Message, token: nat, evict: nat, pod: nat)
    requires to < |s.streams| && CanEvict(s, to, evict) && pod < |s.streams|
    ensures OldOnes(s, Append(s, to, m, token, evict), pod)
  {
    hide TrimLost, Losses;
  }

  lemma OldSettle(s: State, who: nat, e: Entry, v: Verdict, evict: nat, pod: nat)
    requires VerdictFits(s, v, evict) && pod < |s.streams|
    ensures OldOnes(s, Settle(s, who, e, v, evict), pod)
  {
    hide Append;
    if v.Move? {
      OldAppend(s, v.to, Message(e.client, e.payload), e.token, evict, pod);
    }
  }

  lemma OldProcess(s: State, e: Event, pod: nat)
    requires e.Process? && Enabled(s, e) && pod < |s.streams|
    ensures OldOnes(s, Step(s, e), pod)
  {
    var entry := Record(s, e.pod, e.id).entry;
    var v := Decide(s.cfg, e.who, e.pod, entry, s.now, e.env);
    hide Decide, CanEvict;
    OldSettle(s, e.who, entry, v, e.evict, pod);
    hide Settle;
  }

  lemma OldStep(s: State, e: Event, pod: nat)
    requires Enabled(s, e) && pod < |s.streams|
    ensures OldOnes(s, Step(s, e), pod)
  {
    hide Append, Decide, Settle, XAck, ClaimPel, ClaimLost, TrimLost, Losses, LiveEntries, Batch;
    match e
    case Publish(to, m, evict) => OldAppend(s, to, m, |s.published|, evict, pod);
    case Process(_, _, _, _, _) => OldProcess(s, e, pod);
    case Effect(who, p, entry, env, evict) =>
      OldSettle(s, who, entry, Decide(s.cfg, who, p, entry, s.now, env), evict, pod);
    case Ack(p, id) => PelOnly(s.streams[p], id);
    case ForceAck(p, id) => PelOnly(s.streams[p], id);
    case Abandon(p, id) => HeldOnly(s.streams[p], id);
    case _ =>
  }

  lemma {:induction false} OldRun(s: State, es: seq<Event>, pod: nat)
    requires Run(s, es).Some? && pod < |s.streams|
    ensures OldOnes(s, Run(s, es).value, pod)
  {
    hide Step, Enabled;
    if es != [] {
      var init := es[..|es| - 1];
      OldRun(s, init, pod);
      OldStep(Run(s, init).value, es[|es| - 1], pod);
    }
  }

  /** Ids of pending entries are not given out again. */
  lemma StoredBack(s: State, acts: seq<Act>, s': State, pod: nat, e: Entry)
    requires Inv(s) && Leads(s, acts, s') && pod < |s.streams| && Handout(pod, e) in s.handed
    ensures |s'.streams| == |s.streams|
    ensures Stored(s'.streams[pod].entries, e.id) ==> Stored(s.streams[pod].entries, e.id)
  {
    OldRun(s, Events(acts), pod);
    RunInv(s, Events(acts));
    RunFollows(s, Events(acts));
    assert HandoutOk(e, s.streams[pod], s.now, s.copies);
    assert PodOk(pod, s'.streams[pod], s'.now, s'.copies, s'.handed);
    assert HandoutOk(e, s'.streams[pod], s'.now, s'.copies);
    hide Inv, Run, PodOk, StreamOk, ReadExactly;
    if Stored(s'.streams[pod].entries, e.id) {
      var i :| 0 <= i < |s'.streams[pod].entries| && s'.streams[pod].entries[i].id == e.id;
      assert s'.streams[pod].entries[i] == e;
      assert e in s.streams[pod].entries;
    }
  }

  /** So passes once done stay enough. */
  lemma WorkedStays(s: State, acts: seq<Act>, s': State, pod: nat, pel0: seq<Pending>, i: nat, t0: nat, ids: seq<Id>,
                    more: seq<Id>)
    requires Inv(s) && Leads(s, acts, s') && pod < |s.streams| && i <= |pel0|
    requires forall k :: 0 <= k < i ==> Handout(pod, pel0[k].entry) in s.handed
    requires Worked(pel0, i, s.cfg, t0, s.streams[pod].entries, ids)
    ensures |s'.streams| == |s.streams| && Worked(pel0, i, s.cfg, t0, s'.streams[pod].entries, ids + more)
  {
    hide Inv, Leads, Stored, IsDue;
    LeadsKeeps(s, acts, s');
    forall k | 0 <= k < i && Stored(s'.streams[pod].entries, pel0[k].entry.id)
      ensures Stored(s.streams[pod].entries, pel0[k].entry.id)
    {
      StoredBack(s, acts, s', pod, pel0[k].entry);
    }
  }

  /** What a claim met: the steps before it, the state, the steps from it on, the stream,
      the time, and the stretch it scanned. */
  datatype Claiming = Claiming(before: seq<Act>, state: State, after: seq<Act>, seen: Stream, at: nat, lo: nat, hi: nat)

  lemma AllToCome(s: State, pod: nat)
    requires Inv(s) && pod < |s.streams|
    ensures var pel := s.streams[pod].pel;
      ToCome(pel, 0, pel, ZERO) && Worked(pel, 0, s.cfg, s.now, s.streams[pod].entries, [])
  {
  }

  /** A tick takes the loop further down the list, or leaves it done. */
  lemma TickWorks(s0: State, acts: seq<Act>, s1: State, steps: seq<Act>, met: Claiming, s2: State, pod: nat,
                  pel0: seq<Pending>, i: nat, start: Id, next: Id)
    returns (i': nat)
    requires Inv(s0) && Leads(s0, acts, s1) && Leads(s1, steps, s2) && pod < |s0.streams| && i <= |pel0|
    requires pel0 == s0.streams[pod].pel && |s1.streams| == |s2.streams| == |s0.streams|
    requires Leads(s1, met.before, met.state) && Leads(met.state, met.after, s2) && Inv(met.state)
    requires pod < |met.state.streams| && met.state.streams[pod] == met.seen
    requires s1.now <= met.at && met.seen.pel == s1.streams[pod].pel && SortedPel(met.seen.pel)
    requires TickFits(met.seen, met.at, s2.streams[pod], s2.cfg, start, next, Passed(steps), met.lo, met.hi)
    requires ToCome(pel0, i, s1.streams[pod].pel, start)
    requires Worked(pel0, i, s0.cfg, s0.now, s1.streams[pod].entries, Passed(acts))
    ensures i' <= |pel0| && ToCome(pel0, i', s2.streams[pod].pel, next)
    ensures i' == |pel0| || i' >= i + if s0.cfg.readCount > 0 then s0.cfg.readCount else 100
    ensures Worked(pel0, i', s0.cfg, s0.now, s2.streams[pod].entries, Passed(acts + steps))
  {
    hide Inv, Leads, TickFits, Stored, IsDue, SortedPel, Passed;
    LeadsKeeps(s0, acts, s1);
    LeadsKeeps(s1, steps, s2);
    LeadsKeeps(s1, met.before, met.state);
    PassedConcat(acts, steps);
    AllHanded(s0, pod);
    WorkedStays(s1, steps, s2, pod, pel0, i, s0.now, Passed(acts), Passed(steps));
    i' := |pel0|;
    if i < |pel0| {
      i' := TickAdvances(pel0, i, met.seen, met.at, s2.streams[pod], s0.cfg, start, next, Passed(steps),
                         met.lo, met.hi, s0.now);
      forall k | i <= k < i' && IsDue(s0.cfg, pel0[k], s0.now) && Stored(s2.streams[pod].entries, pel0[k].entry.id)
        ensures pel0[k].entry.id in Passed(acts + steps)
      {
        StoredBack(met.state, met.after, s2, pod, pel0[k].entry);
      }
    } else {
      NoneToCome(pel0, s2.streams[pod].pel, next);
    }
  }

  lemma NoneToCome(pel0: seq<Pending>, pel: seq<Pending>, start: Id)
    ensures ToCome(pel0, |pel0|, pel, start)
  {
    assert pel[|pel|..] == pel0[|pel0|..];
  }

  lemma AllHanded(s: State, pod: nat)
    requires Inv(s) && pod < |s.streams|
    ensures forall k :: 0 <= k < |s.streams[pod].pel| ==> Handout(pod, s.streams[pod].pel[k].entry) in s.handed
  {
    assert PodOk(pod, s.streams[pod], s.now, s.copies, s.handed);
  }
}
