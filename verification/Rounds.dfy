/** A loop of claims: what one claim leaves for the next, why the loop ends, and
    what it works through while the clock stands still. */
module Rounds {
  import opened StreamIds
  import opened RedisStreams
  import opened Cluster
  import opened WellFormed
  import opened TrimFirst
  import opened Batches

  // ----- Scanning -----

  /** First position from i on whose id is not before `start`. */
  function FirstAt(pel: seq<Pending>, start: Id, i: nat): (k: nat)
    requires i <= |pel|
    ensures i <= k <= |pel|
    ensures forall j :: i <= j < k ==> Before(pel[j].entry.id, start)
    ensures k < |pel| ==> !Before(pel[k].entry.id, start)
    decreases |pel| - i
  {
    if i < |pel| && Before(pel[i].entry.id, start) then FirstAt(pel, start, i + 1) else i
  }

  /** Where a scan that may deal with `count` records stops. */
  function ScanEnd(pel: seq<Pending>, es: seq<Entry>, i: nat, count: nat, now: nat, minIdle: nat): (k: nat)
    requires i <= |pel|
    ensures i <= k <= |pel|
    decreases |pel| - i
  {
    if i == |pel| || count == 0 then i
    else ScanEnd(pel, es, i + 1, if Handled(pel[i], es, now, minIdle) then count - 1 else count, now, minIdle)
  }

  function NextStart(pel: seq<Pending>, hi: nat): Id {
    if hi < |pel| then pel[hi].entry.id else ZERO
  }

  // ----- Why the loop ends -----

  /** Records not handed out since t0: a claim returns only such, and afterwards
      they are such no more. */
  function Stale(pel: seq<Pending>, t0: nat): nat {
    if pel == [] then 0 else (if pel[0].since < t0 then 1 else 0) + Stale(pel[1..], t0)
  }

  lemma {:induction false} StaleConcat(a: seq<Pending>, b: seq<Pending>, t0: nat)
    ensures Stale(a + b, t0) == Stale(a, t0) + Stale(b, t0)
  {
    if a == [] {
      assert a + b == b;
    } else {
      assert (a + b)[1..] == a[1..] + b;
      StaleConcat(a[1..], b, t0);
    }
  }

  lemma StaleCons(r: Pending, pel: seq<Pending>, t0: nat)
    ensures Stale([r] + pel, t0) == (if r.since < t0 then 1 else 0) + Stale(pel, t0)
  {
    assert ([r] + pel)[1..] == pel;
  }

  lemma {:induction false} FreshIsNotStale(pel: seq<Pending>, t0: nat)
    requires forall i :: 0 <= i < |pel| ==> t0 <= pel[i].since
    ensures Stale(pel, t0) == 0
  {
    if pel != [] {
      FreshIsNotStale(pel[1..], t0);
    }
  }

  lemma {:induction false} ClaimFreshens(pel: seq<Pending>, es: seq<Entry>, now: nat, minIdle: nat, t0: nat)
    requires t0 <= now
    ensures Stale(ClaimPel(pel, es, now, minIdle), t0) <= Stale(pel, t0)
    ensures now < t0 + minIdle ==>
      Stale(ClaimPel(pel, es, now, minIdle), t0) + |Claimed(pel, es, now, minIdle)| <= Stale(pel, t0)
  {
    hide Stored;
    if pel != [] {
      ClaimFreshens(pel[1..], es, now, minIdle, t0);
      var c := ClaimPel(pel[1..], es, now, minIdle);
      var r := pel[0];
      if !Stored(es, r.entry.id) {
        assert [] + c == c;
      } else if Due(r, now, minIdle) {
        StaleCons(Pending(r.entry, now, r.times + 1, true, r.kept), c, t0);
      } else {
        StaleCons(r, c, t0);
      }
    }
  }

  lemma StaleWithout(pel: seq<Pending>, i: nat, t0: nat)
    requires i < |pel|
    ensures Stale(Without(pel, i), t0) <= Stale(pel, t0)
  {
    assert pel == pel[..i] + ([pel[i]] + pel[i + 1..]);
    StaleConcat(pel[..i], [pel[i]] + pel[i + 1..], t0);
    StaleConcat([pel[i]], pel[i + 1..], t0);
    StaleConcat(pel[..i], pel[i + 1..], t0);
  }

  lemma {:induction false} StaleUpdate(pel: seq<Pending>, i: nat, r: Pending, t0: nat)
    requires i < |pel| && r.since == pel[i].since
    ensures Stale(pel[i := r], t0) == Stale(pel, t0)
  {
    if i == 0 {
      assert pel[0 := r][1..] == pel[1..];
    } else {
      assert pel[i := r][1..] == pel[1..][i - 1 := r];
      StaleUpdate(pel[1..], i - 1, r, t0);
    }
  }

  lemma StaleClaim(st: Stream, lo: nat, hi: nat, now: nat, minIdle: nat, t0: nat)
    requires lo <= hi <= |st.pel| && t0 <= now
    ensures var pel := XAutoClaim(st, lo, hi, now, minIdle).pel;
      && Stale(pel, t0) <= Stale(st.pel, t0)
      && (now < t0 + minIdle ==>
            Stale(pel, t0) + |Claimed(st.pel[lo..hi], st.entries, now, minIdle)| <= Stale(st.pel, t0))
  {
    hide Stale, ClaimPel, Claimed;
    var (a, m, z) := (st.pel[..lo], st.pel[lo..hi], st.pel[hi..]);
    var c := ClaimPel(m, st.entries, now, minIdle);
    assert st.pel == a + m + z;
    StaleConcat(a + m, z, t0);
    StaleConcat(a, m, t0);
    StaleConcat(a + c, z, t0);
    StaleConcat(a, c, t0);
    ClaimFreshens(m, st.entries, now, minIdle, t0);
  }

  lemma StalePass(pel: seq<Pending>, pel': seq<Pending>, id: Id, t0: nat)
    requires OnePass(pel, pel', id)
    ensures Stale(pel', t0) <= Stale(pel, t0)
  {
    hide Stale;
    var i := IndexOf(pel, id);
    StaleWithout(pel, i, t0);
    StaleUpdate(pel, i, pel[i].(held := false, kept := pel[i].kept + 1), t0);
  }

  lemma StaleAck(st: Stream, id: Id, t0: nat)
    ensures Stale(XAck(st, id).pel, t0) <= Stale(st.pel, t0)
  {
    hide Stale;
    if IndexOf(st.pel, id) < |st.pel| {
      StaleWithout(st.pel, IndexOf(st.pel, id), t0);
    }
  }

  lemma StaleRead(st: Stream, count: nat, now: nat, t0: nat)
    requires t0 <= now
    ensures Stale(XReadGroup(st, count, now).pel, t0) == Stale(st.pel, t0)
  {
    hide Stale, Batch;
    var b := Batch(st, count);
    FreshIsNotStale(HandOut(b, now), t0);
    StaleConcat(st.pel, HandOut(b, now), t0);
  }

  /** No step of anybody makes a record stale again. */
  lemma StaleStep(s: State, e: Event, pod: nat, t0: nat)
    requires Enabled(s, e) && pod < |s.streams| && t0 <= s.now
    ensures |Step(s, e).streams| == |s.streams|
    ensures Stale(Step(s, e).streams[pod].pel, t0) <= Stale(s.streams[pod].pel, t0)
  {
    hide Stale;
    StepFollows(s, e);
    var st := s.streams[pod];
    match e
    case Process(who, p, id, env, evict) =>
      if p == pod {
        PassPel(s, who, pod, id, env, evict);
        StalePass(st.pel, Step(s, e).streams[pod].pel, id, t0);
      } else {
        ElsewherePel(s, e, pod);
      }
    case Effect(who, p, entry, env, evict) =>
      SettlePel(s, who, entry, Decide(s.cfg, who, p, entry, s.now, env), evict, pod);
    case _ => StaleOther(s, e, pod, t0);
  }

  lemma ElsewherePel(s: State, e: Event, pod: nat)
    requires Enabled(s, e) && e.Process? && e.pod != pod && pod < |s.streams|
    ensures |Step(s, e).streams| == |s.streams| && Step(s, e).streams[pod].pel == s.streams[pod].pel
  {
    var entry := Record(s, e.pod, e.id).entry;
    var v := Decide(s.cfg, e.who, e.pod, entry, s.now, e.env);
    hide Decide;
    if !v.Keep? {
      SettlePel(s, e.who, entry, v, e.evict, pod);
    }
  }

  lemma StaleOther(s: State, e: Event, pod: nat, t0: nat)
    requires Enabled(s, e) && pod < |s.streams| && t0 <= s.now && !e.Process? && !e.Effect?
    ensures |Step(s, e).streams| == |s.streams|
    ensures Stale(Step(s, e).streams[pod].pel, t0) <= Stale(s.streams[pod].pel, t0)
  {
    hide Stale, XReadGroup, XAutoClaim, XAck, Losses, ClaimLost, TrimLost, LiveEntries;
    var st := s.streams[pod];
    match e
    case Read(p, count) =>
      if p == pod {
        StaleRead(st, count, s.now, t0);
      }
    case Claim(p, lo, hi) =>
      if p == pod {
        StaleClaim(st, lo, hi, s.now, MinIdle(s.cfg), t0);
      }
    case Abandon(p, id) =>
      if p == pod {
        var i := IndexOf(st.pel, id);
        StaleUpdate(st.pel, i, st.pel[i].(held := false, kept := st.pel[i].kept + 0), t0);
      }
    case Ack(p, id) =>
      if p == pod {
        StaleAck(st, id, t0);
      }
    case ForceAck(p, id) =>
      if p == pod {
        StaleAck(st, id, t0);
      }
    case Tick(_) =>
    case Publish(_, _, _) =>
    case CreateGroup(_) => StaleNothing(t0);
    case Trim(_, _, _) =>
    case DropStream(_) => StaleNothing(t0);
  }

  lemma StaleNothing(t0: nat)
    ensures Stale([], t0) == 0
  {
  }

  lemma {:induction false} StaleRun(s: State, es: seq<Event>, pod: nat, t0: nat)
    requires Run(s, es).Some? && pod < |s.streams| && t0 <= s.now
    ensures var s' := Run(s, es).value;
      |s'.streams| == |s.streams| && Stale(s'.streams[pod].pel, t0) <= Stale(s.streams[pod].pel, t0)
  {
    hide Stale, Step, Enabled;
    if es != [] {
      var init := es[..|es| - 1];
      StaleRun(s, init, pod, t0);
      RunFollows(s, init);
      StaleStep(Run(s, init).value, es[|es| - 1], pod, t0);
    }
  }

  // ----- Rounds while the clock stands still -----

  ghost predicate NoneHandledBefore(pel: seq<Pending>, es: seq<Entry>, start: Id, now: nat, m: nat) {
    forall i :: 0 <= i < |pel| && Before(pel[i].entry.id, start) ==> !Handled(pel[i], es, now, m)
  }

  lemma {:induction false} HandledConcat(a: seq<Pending>, b: seq<Pending>, es: seq<Entry>, now: nat, m: nat)
    ensures HandledList(a + b, es, now, m) == HandledList(a, es, now, m) + HandledList(b, es, now, m)
  {
    hide Handled;
    if a == [] {
      assert a + b == b;
    } else {
      var head := if Handled(a[0], es, now, m) then [a[0].entry] else [];
      assert (a + b)[1..] == a[1..] + b;
      HandledConcat(a[1..], b, es, now, m);
      assert HandledList(a + b, es, now, m) == head + (HandledList(a[1..], es, now, m) + HandledList(b, es, now, m));
    }
  }

  lemma {:induction false} NoneHandled(pel: seq<Pending>, es: seq<Entry>, now: nat, m: nat)
    requires forall i :: 0 <= i < |pel| ==> !Handled(pel[i], es, now, m)
    ensures HandledList(pel, es, now, m) == []
  {
    hide Handled;
    if pel != [] {
      NoneHandled(pel[1..], es, now, m);
    }
  }

  lemma HandledOne(r: Pending, es: seq<Entry>, now: nat, m: nat)
    ensures HandledList([r], es, now, m) == if Handled(r, es, now, m) then [r.entry] else []
  {
    assert [r][1..] == [];
    assert HandledList([], es, now, m) == [];
  }

  lemma {:induction false} ClaimLeavesNoneHandled(pel: seq<Pending>, es: seq<Entry>, now: nat, m: nat, j: nat)
    requires m > 0 && j < |ClaimPel(pel, es, now, m)|
    ensures !Handled(ClaimPel(pel, es, now, m)[j], es, now, m)
  {
    hide Stored;
    var c, c' := ClaimPel(pel, es, now, m), ClaimPel(pel[1..], es, now, m);
    if j >= |c| - |c'| {
      assert c[j] == c'[j - (|c| - |c'|)];
      ClaimLeavesNoneHandled(pel[1..], es, now, m, j - (|c| - |c'|));
    }
  }

  /** A scan deals with the first `count` such records from its start on. */
  lemma {:induction false} ScanTakes(pel: seq<Pending>, es: seq<Entry>, i: nat, count: nat, now: nat, m: nat)
    requires i <= |pel|
    ensures var k := ScanEnd(pel, es, i, count, now, m);
      && |HandledList(pel[i..k], es, now, m)| == Min(count, |HandledList(pel[i..], es, now, m)|)
      && (k < |pel| ==> |HandledList(pel[i..k], es, now, m)| == count)
    decreases |pel| - i
  {
    hide Handled;
    var k := ScanEnd(pel, es, i, count, now, m);
    if i < |pel| && count > 0 {
      var c' := if Handled(pel[i], es, now, m) then count - 1 else count;
      ScanTakes(pel, es, i + 1, c', now, m);
      hide HandledList;
      assert pel[i..k] == [pel[i]] + pel[i + 1..k];
      assert pel[i..] == [pel[i]] + pel[i + 1..];
      HandledConcat([pel[i]], pel[i + 1..k], es, now, m);
      HandledConcat([pel[i]], pel[i + 1..], es, now, m);
      HandledOne(pel[i], es, now, m);
    } else {
      assert pel[i..i] == [];
      assert HandledList([], es, now, m) == [];
    }
  }

  /** What one claim of `count` does to the list. */
  lemma ClaimTakes(st: Stream, start: Id, count: nat, lo: nat, hi: nat, now: nat, m: nat)
    requires NoneHandledBefore(st.pel, st.entries, start, now, m) && m > 0 && count > 0
    requires lo == FirstAt(st.pel, start, 0) && hi == ScanEnd(st.pel, st.entries, lo, count, now, m)
    ensures var d := HandledList(st.pel, st.entries, now, m); var n := Min(count, |d|);
      && HandledList(st.pel[lo..hi], st.entries, now, m) == d[..n]
      && HandledList(XAutoClaim(st, lo, hi, now, m).pel, st.entries, now, m) == d[n..]
  {
    var (a, p, z, es) := (st.pel[..lo], st.pel[lo..hi], st.pel[hi..], st.entries);
    var c := ClaimPel(p, es, now, m);
    assert forall i :: 0 <= i < lo ==> !Handled(st.pel[i], es, now, m);
    hide NoneHandledBefore, ClaimPel, HandledList, FirstAt, ScanEnd, Handled;
    NoneHandled(a, es, now, m);
    assert st.pel == a + (p + z) && st.pel[lo..] == p + z;
    HandledConcat(a, p + z, es, now, m);
    HandledConcat(p, z, es, now, m);
    ScanTakes(st.pel, es, lo, count, now, m);
    forall j | 0 <= j < |c|
      ensures !Handled(c[j], es, now, m)
    {
      ClaimLeavesNoneHandled(p, es, now, m, j);
    }
    NoneHandled(c, es, now, m);
    HandledConcat(a + c, z, es, now, m);
    HandledConcat(a, c, es, now, m);
    SplitHere(HandledList(p, es, now, m), HandledList(z, es, now, m));
    if hi == |st.pel| {
      assert z == [];
      NoneHandled(z, es, now, m);
    }
  }

  lemma SplitHere(x: seq<Entry>, y: seq<Entry>)
    ensures [] + (x + y) == x + y && [] + [] + y == y
    ensures (x + y)[..|x|] == x && (x + y)[|x|..] == y
  {
  }

  ghost predicate NoneHandledIn(pel: seq<Pending>, es: seq<Entry>, ids: seq<Id>, now: nat, m: nat) {
    forall i :: 0 <= i < |pel| && pel[i].entry.id in ids ==> !Handled(pel[i], es, now, m)
  }

  lemma AfterClaim(st: Stream, lo: nat, hi: nat, c: seq<Pending>, now: nat, m: nat)
    requires SortedPel(st.pel) && lo <= hi <= |st.pel|
    requires forall j :: 0 <= j < lo ==> !Handled(st.pel[j], st.entries, now, m)
    requires forall j :: 0 <= j < |c| ==> !Handled(c[j], st.entries, now, m)
    ensures NoneHandledBefore(st.pel[..lo] + c + st.pel[hi..], st.entries, NextStart(st.pel, hi), now, m)
  {
    hide Handled;
    var pel, next := st.pel[..lo] + c + st.pel[hi..], NextStart(st.pel, hi);
    forall i | lo + |c| <= i < |pel| ensures !Before(pel[i].entry.id, next) {
      assert pel[i] == st.pel[hi + (i - lo - |c|)];
    }
    forall i | 0 <= i < |pel| && Before(pel[i].entry.id, next) ensures !Handled(pel[i], st.entries, now, m) {
      assert i < lo ==> pel[i] == st.pel[i];
      assert lo <= i < lo + |c| ==> pel[i] == c[i - lo];
    }
  }

  /** Records behind the scanned stretch carry other ids than the batch. */
  lemma BatchAbsent(st: Stream, lo: nat, hi: nat, now: nat, m: nat, j: nat, q: nat)
    requires SortedPel(st.pel) && lo <= hi <= q < |st.pel|
    requires j < |Claimed(st.pel[lo..hi], st.entries, now, m)|
    ensures Claimed(st.pel[lo..hi], st.entries, now, m)[j].id != st.pel[q].entry.id
  {
    hide Claimed;
    var p := st.pel[lo..hi];
    ClaimedInHands(p, st.entries, now, m, j);
    var k :| 0 <= k < |p| && p[k].entry == Claimed(p, st.entries, now, m)[j];
    assert p[k] == st.pel[lo + k];
    assert Before(st.pel[lo + k].entry.id, st.pel[q].entry.id);
  }

  lemma ClaimLeavesNone(st: Stream, start: Id, count: nat, lo: nat, hi: nat, now: nat, m: nat)
    requires SortedPel(st.pel) && NoneHandledBefore(st.pel, st.entries, start, now, m) && m > 0
    requires lo == FirstAt(st.pel, start, 0) && hi == ScanEnd(st.pel, st.entries, lo, count, now, m)
    ensures var st' := XAutoClaim(st, lo, hi, now, m);
      && NoneHandledBefore(st'.pel, st.entries, NextStart(st.pel, hi), now, m)
      && NoneHandledIn(st'.pel, st.entries, Ids(Claimed(st.pel[lo..hi], st.entries, now, m)), now, m)
  {
    var p := st.pel[lo..hi];
    var c, b := ClaimPel(p, st.entries, now, m), Claimed(p, st.entries, now, m);
    var pel := XAutoClaim(st, lo, hi, now, m).pel;
    assert forall j :: 0 <= j < lo ==> !Handled(st.pel[j], st.entries, now, m);
    assert pel == st.pel[..lo] + c + st.pel[hi..];
    hide NoneHandledBefore, ClaimPel, Claimed, Handled, XAutoClaim, ScanEnd, FirstAt;
    forall j | 0 <= j < |c|
      ensures !Handled(c[j], st.entries, now, m)
    {
      ClaimLeavesNoneHandled(p, st.entries, now, m, j);
    }
    AfterClaim(st, lo, hi, c, now, m);
    hide SortedPel;
    forall i | 0 <= i < |pel|
      ensures pel[i].entry.id in Ids(b) ==> !Handled(pel[i], st.entries, now, m)
    {
      if lo <= i < lo + |c| {
        assert pel[i] == c[i - lo];
      } else if i >= lo + |c| {
        forall j | 0 <= j < |b|
          ensures b[j].id != pel[i].entry.id
        {
          BatchAbsent(st, lo, hi, now, m, j, hi + (i - lo - |c|));
        }
      }
    }
  }

  /** A pass over a record that needs no handling changes nothing for the rounds. */
  lemma PassKeepsRounds(pel: seq<Pending>, pel': seq<Pending>, id: Id, es: seq<Entry>, ids: seq<Id>, start: Id,
                        now: nat, m: nat)
    requires OnePass(pel, pel', id) && id in ids
    requires NoneHandledIn(pel, es, ids, now, m) && NoneHandledBefore(pel, es, start, now, m)
    ensures HandledList(pel', es, now, m) == HandledList(pel, es, now, m)
    ensures NoneHandledIn(pel', es, ids, now, m) && NoneHandledBefore(pel', es, start, now, m)
  {
    hide HandledList, Handled, NoneHandledIn, NoneHandledBefore, IndexOf, Without;
    var i := IndexOf(pel, id);
    var r := pel[i].(held := false, kept := pel[i].kept + 1);
    NotHandled(pel, i, es, ids, now, m);
    if pel' == Without(pel, i) {
      HandledWithout(pel, i, es, now, m);
      NoneWithout(pel, i, es, ids, start, now, m);
    } else {
      HandledUpdate(pel, i, r, es, now, m);
      NoneUpdate(pel, i, r, es, ids, start, now, m);
    }
  }

  lemma NotHandled(pel: seq<Pending>, i: nat, es: seq<Entry>, ids: seq<Id>, now: nat, m: nat)
    requires i < |pel| && pel[i].entry.id in ids && NoneHandledIn(pel, es, ids, now, m)
    ensures !Handled(pel[i], es, now, m)
  {
  }

  lemma NoneWithout(pel: seq<Pending>, i: nat, es: seq<Entry>, ids: seq<Id>, start: Id, now: nat, m: nat)
    requires i < |pel| && NoneHandledIn(pel, es, ids, now, m) && NoneHandledBefore(pel, es, start, now, m)
    ensures NoneHandledIn(Without(pel, i), es, ids, now, m) && NoneHandledBefore(Without(pel, i), es, start, now, m)
  {
    hide Handled;
    var pel' := Without(pel, i);
    assert forall j :: 0 <= j < |pel'| ==> pel'[j] == pel[if j < i then j else j + 1];
  }

  lemma NoneUpdate(pel: seq<Pending>, i: nat, r: Pending, es: seq<Entry>, ids: seq<Id>, start: Id, now: nat, m: nat)
    requires i < |pel| && NoneHandledIn(pel, es, ids, now, m) && NoneHandledBefore(pel, es, start, now, m)
    requires r.since == pel[i].since && r.entry == pel[i].entry
    ensures NoneHandledIn(pel[i := r], es, ids, now, m) && NoneHandledBefore(pel[i := r], es, start, now, m)
  {
    hide Stored;
    assert Handled(r, es, now, m) == Handled(pel[i], es, now, m);
    hide Handled;
  }

  lemma HandledWithout(pel: seq<Pending>, i: nat, es: seq<Entry>, now: nat, m: nat)
    requires i < |pel| && !Handled(pel[i], es, now, m)
    ensures HandledList(Without(pel, i), es, now, m) == HandledList(pel, es, now, m)
  {
    hide HandledList, Handled;
    assert pel == pel[..i] + ([pel[i]] + pel[i + 1..]);
    HandledConcat(pel[..i], [pel[i]] + pel[i + 1..], es, now, m);
    HandledConcat([pel[i]], pel[i + 1..], es, now, m);
    HandledConcat(pel[..i], pel[i + 1..], es, now, m);
    HandledOne(pel[i], es, now, m);
    assert [] + HandledList(pel[i + 1..], es, now, m) == HandledList(pel[i + 1..], es, now, m);
  }

  lemma {:induction false} HandledUpdate(pel: seq<Pending>, i: nat, r: Pending, es: seq<Entry>, now: nat, m: nat)
    requires i < |pel| && r.since == pel[i].since && r.entry == pel[i].entry
    ensures HandledList(pel[i := r], es, now, m) == HandledList(pel, es, now, m)
  {
    hide Stored;
    if i == 0 {
      assert pel[0 := r][1..] == pel[1..];
    } else {
      assert pel[i := r][1..] == pel[1..][i - 1 := r];
      HandledUpdate(pel[1..], i - 1, r, es, now, m);
    }
  }

  lemma {:induction false} PassesKeepRounds(pel: seq<Pending>, pel': seq<Pending>, done: seq<Id>, es: seq<Entry>,
                                            ids: seq<Id>, start: Id, now: nat, m: nat)
    requires PassesOver(pel, pel', done) && forall id :: id in done ==> id in ids
    requires NoneHandledIn(pel, es, ids, now, m) && NoneHandledBefore(pel, es, start, now, m)
    ensures HandledList(pel', es, now, m) == HandledList(pel, es, now, m)
    ensures NoneHandledIn(pel', es, ids, now, m) && NoneHandledBefore(pel', es, start, now, m)
    decreases |done|
  {
    hide HandledList, NoneHandledIn, NoneHandledBefore, OnePass;
    if done != [] {
      var init, id := done[..|done| - 1], done[|done| - 1];
      var mid :| PassesOver(pel, mid, init) && OnePass(mid, pel', id);
      PassesKeepRounds(pel, mid, init, es, ids, start, now, m);
      PassKeepsRounds(mid, pel', id, es, ids, start, now, m);
    }
  }

  /** A loop that has processed `ids` so far and, as far as the clock has stood
      still, has the rest of its rounds before it. */
  ghost predicate RoundsSoFar(st0: Stream, st: Stream, cfg: Config, t0: nat, start: Id, ids: seq<Id>) {
    var m := MinIdle(cfg);
    && st.entries == st0.entries
    && NoneHandledBefore(st.pel, st.entries, start, t0, m)
    && ids + Ids(ClaimRounds(HandledList(st.pel, st.entries, t0, m), st0.entries, ReadCountOf(cfg)))
       == Ids(Reclaimed(st0, cfg, t0))
  }

  lemma RoundsStart(st0: Stream, cfg: Config, t0: nat)
    ensures RoundsSoFar(st0, st0, cfg, t0, ZERO, [])
  {
    hide HandledList, ClaimRounds;
    NothingBeforeZero(st0.pel, st0.entries, t0, MinIdle(cfg));
    var all := Ids(Reclaimed(st0, cfg, t0));
    assert [] + all == all;
  }

  lemma NothingBeforeZero(pel: seq<Pending>, es: seq<Entry>, now: nat, m: nat)
    ensures NoneHandledBefore(pel, es, ZERO, now, m)
  {
  }

  /** The bounds of a claim that starts at `start`. */
  predicate Scan(st: Stream, cfg: Config, now: nat, start: Id, lo: nat, hi: nat) {
    && lo == FirstAt(st.pel, start, 0)
    && hi == ScanEnd(st.pel, st.entries, lo, ReadCountOf(cfg), now, MinIdle(cfg))
  }

  lemma RoundsEnd(st0: Stream, st: Stream, cfg: Config, now: nat, start: Id, lo: nat, hi: nat, ids: seq<Id>)
    requires RoundsSoFar(st0, st, cfg, now, start, ids) && Scan(st, cfg, now, start, lo, hi)
    requires Claimed(st.pel[lo..hi], st.entries, now, MinIdle(cfg)) == []
    ensures ids == Ids(Reclaimed(st0, cfg, now))
  {
    var m, count := MinIdle(cfg), ReadCountOf(cfg);
    hide HandledList, Claimed, NoneHandledBefore, Reclaimed, FirstAt, ScanEnd;
    ClaimTakes(st, start, count, lo, hi, now, m);
    ClaimedIsStoredHandled(st.pel[lo..hi], st.entries, now, m);
    assert ClaimRounds(HandledList(st.pel, st.entries, now, m), st.entries, count) == [];
    assert ids + [] == ids;
  }

  lemma RoundsNext(st0: Stream, st: Stream, st': Stream, cfg: Config, now: nat, start: Id, lo: nat, hi: nat,
                   ids: seq<Id>)
    requires RoundsSoFar(st0, st, cfg, now, start, ids) && Scan(st, cfg, now, start, lo, hi) && SortedPel(st.pel)
    requires var batch := Claimed(st.pel[lo..hi], st.entries, now, MinIdle(cfg));
      && batch != []
      && PassesOver(XAutoClaim(st, lo, hi, now, MinIdle(cfg)).pel, st'.pel, Ids(batch))
      && st'.entries == st.entries
    ensures RoundsSoFar(st0, st', cfg, now, NextStart(st.pel, hi),
                        ids + Ids(Claimed(st.pel[lo..hi], st.entries, now, MinIdle(cfg))))
  {
    var m, count, next := MinIdle(cfg), ReadCountOf(cfg), NextStart(st.pel, hi);
    var (batch, d) := (Claimed(st.pel[lo..hi], st.entries, now, m), HandledList(st.pel, st.entries, now, m));
    hide HandledList, Claimed, NoneHandledBefore, NoneHandledIn, Reclaimed, FirstAt, ScanEnd, PassesOver, SortedPel;
    hide ClaimRounds;
    ClaimTakes(st, start, count, lo, hi, now, m);
    ClaimLeavesNone(st, start, count, lo, hi, now, m);
    ClaimedIsStoredHandled(st.pel[lo..hi], st.entries, now, m);
    PassesKeepRounds(XAutoClaim(st, lo, hi, now, m).pel, st'.pel, Ids(batch), st.entries, Ids(batch), next, now, m);
    RoundUnfolds(d, st.entries, count, batch);
    JoinIds(ids, batch, ClaimRounds(d[Min(count, |d|)..], st.entries, count));
  }

  lemma RoundUnfolds(d: seq<Entry>, es: seq<Entry>, count: nat, batch: seq<Entry>)
    requires count > 0 && batch != [] && batch == StoredOf(d[..Min(count, |d|)], es)
    ensures ClaimRounds(d, es, count) == batch + ClaimRounds(d[Min(count, |d|)..], es, count)
  {
  }

  /** Others who leave the group alone do not disturb the rounds. */
  lemma RoundsSame(st0: Stream, st: Stream, st': Stream, cfg: Config, t0: nat, start: Id, ids: seq<Id>)
    requires RoundsSoFar(st0, st, cfg, t0, start, ids) && st'.entries == st.entries && st'.pel == st.pel
    ensures RoundsSoFar(st0, st', cfg, t0, start, ids)
  {
  }

  // ----- Rounds of reads -----

  /** Reads of up to n entries in all have passed over `ids`: the front of u, if
      nothing was appended. */
  ghost predicate Took(u: seq<Entry>, v: seq<Entry>, added: seq<Entry>, gone: nat, ids: seq<Id>, n: nat) {
    && Drained(u, v, added, gone, n)
    && (added == [] ==> gone == Min(n, |u|) && ids == Ids(u[..gone]))
  }

  lemma TookNothing(u: seq<Entry>)
    ensures Took(u, u, [], 0, [], 0)
  {
    FrontSame(u);
  }

  lemma TookMore(u: seq<Entry>, v: seq<Entry>, w: seq<Entry>, a: seq<Entry>, x: nat, ids: seq<Id>, n: nat,
                 b: seq<Entry>, y: nat, ids': seq<Id>, m: nat)
    requires Took(u, v, a, x, ids, n) && Took(v, w, b, y, ids', m)
    ensures Took(u, w, a + b, x + y, ids + ids', n + m)
  {
    DrainedMore(u, v, w, a, x, n, b, y, m);
    if a + b == [] {
      assert u + [] == u;
      assert u[..x + y] == u[..x] + v[..y];
    }
  }

  /** Once nothing is left, further reads would take nothing. */
  lemma TookAll(u: seq<Entry>, v: seq<Entry>, a: seq<Entry>, x: nat, ids: seq<Id>, n: nat, m: nat)
    requires Took(u, v, a, x, ids, n) && v == [] && n <= m
    ensures Took(u, v, a, x, ids, m)
  {
    FrontLength(u, v, a, x);
  }

  lemma GrownTook(st: Stream, st': Stream, added: seq<Entry>, gone: nat)
    requires Grown(st, st', added, gone)
    ensures Took(Unread(st), Unread(st'), added, gone, [], 0)
  {
  }

  lemma ReadTook(st: Stream, now: nat, count: nat)
    requires StreamOk(st, now) && st.grouped
    ensures var b := Batch(st, count);
      Took(Unread(st), Unread(XReadGroup(st, count, now)), [], |b|, Ids(b), count)
  {
    var (b, u) := (Batch(st, count), Unread(st));
    ReadMovesBatch(st, now, count);
    FrontDrop(u, |b|);
    assert b == u[..|b|];
  }

  function Ids(es: seq<Entry>): (ids: seq<Id>)
    ensures |ids| == |es|
    ensures forall i :: 0 <= i < |es| ==> ids[i] == es[i].id
  {
    seq(|es|, i requires 0 <= i < |es| => es[i].id)
  }

  lemma IdsSnoc(batch: seq<Entry>, i: nat)
    requires i < |batch|
    ensures Ids(batch[..i + 1]) == Ids(batch[..i]) + [batch[i].id]
  {
  }

  lemma JoinIds(done: seq<Id>, batch: seq<Entry>, rest: seq<Entry>)
    ensures done + Ids(batch) + Ids(rest) == done + Ids(batch + rest)
  {
    assert Ids(batch + rest) == Ids(batch) + Ids(rest);
  }
}
