/** Does trimming a dead pod's stream before draining it change what the drain
    delivers and re-publishes? Every trimmed entry is too old to be processed,
    yet the reclaim loop stops at the first claim that hands it nothing, and a
    claim whose records were all trimmed does just that. */
module TrimFirst {
  import opened StreamIds
  import opened RedisStreams
  import opened Cluster
  import opened WellFormed

  // ----- What a drain works on -----

  /** Pending entries a claim deals with, oldest first: the gone ones and those
      idle long enough. */
  function HandledList(pel: seq<Pending>, es: seq<Entry>, now: nat, minIdle: nat): seq<Entry> {
    if pel == [] then []
    else (if Handled(pel[0], es, now, minIdle) then [pel[0].entry] else []) + HandledList(pel[1..], es, now, minIdle)
  }

  function StoredOf(due: seq<Entry>, es: seq<Entry>): seq<Entry> {
    if due == [] then []
    else (if Stored(es, due[0].id) then [due[0]] else []) + StoredOf(due[1..], es)
  }

  /** The reclaim loop on such entries: claim `count` at a time, process those
      still stored, stop at the first claim that brings none. */
  function ClaimRounds(due: seq<Entry>, es: seq<Entry>, count: nat): (work: seq<Entry>)
    requires count > 0
    decreases |due|
  {
    if due == [] then []
    else
      var n := Min(count, |due|);
      var got := StoredOf(due[..n], es);
      if got == [] then [] else got + ClaimRounds(due[n..], es, count)
  }

  // ----- What processing them yields -----

  /** When each entry is processed and with which answers. */
  datatype Oracle = Oracle(at: Entry -> nat, env: Entry -> Env)

  function VerdictOn(cfg: Config, who: nat, pod: nat, o: Oracle, e: Entry): Verdict {
    Decide(cfg, who, pod, e, o.at(e), o.env(e))
  }

  /** The deliveries and re-publishes, in order. */
  function Yield(cfg: Config, who: nat, pod: nat, o: Oracle, es: seq<Entry>): seq<(Entry, Verdict)> {
    if es == [] then []
    else
      var v := VerdictOn(cfg, who, pod, o, es[0]);
      (if v.Deliver? || v.Move? then [(es[0], v)] else []) + Yield(cfg, who, pod, o, es[1..])
  }

  ghost predicate From(o: Oracle, now: nat) {
    forall e :: now <= o.at(e)
  }

  /** No pass from now on can deliver or re-publish the entry. */
  predicate Barren(cfg: Config, e: Entry, now: nat) {
    e.client == "" || (cfg.maxPendingMs > 0 && Age(now, e.id) > cfg.maxPendingMs)
  }

  predicate AllBarren(cfg: Config, es: seq<Entry>, now: nat) {
    forall i :: 0 <= i < |es| ==> Barren(cfg, es[i], now)
  }

  lemma {:induction false} YieldConcat(cfg: Config, who: nat, pod: nat, o: Oracle, a: seq<Entry>, b: seq<Entry>)
    ensures Yield(cfg, who, pod, o, a + b) == Yield(cfg, who, pod, o, a) + Yield(cfg, who, pod, o, b)
  {
    if a == [] {
      assert a + b == b;
    } else {
      assert (a + b)[1..] == a[1..] + b;
      YieldConcat(cfg, who, pod, o, a[1..], b);
    }
  }

  lemma {:induction false} BarrenYieldsNothing(cfg: Config, who: nat, pod: nat, o: Oracle, es: seq<Entry>, now: nat)
    requires From(o, now) && AllBarren(cfg, es, now)
    ensures Yield(cfg, who, pod, o, es) == []
  {
    if es != [] {
      assert now <= o.at(es[0]);
      BarrenYieldsNothing(cfg, who, pod, o, es[1..], now);
    }
  }

  /** The most favourable answers: everything is processed now and delivered. */
  function Generous(now: nat): Oracle {
    Oracle(_ => now, _ => Env(true, true, Failed, Failed, Failed, false, false))
  }

  lemma {:induction false} GenerousYields(cfg: Config, who: nat, pod: nat, es: seq<Entry>, now: nat)
    ensures Yield(cfg, who, pod, Generous(now), es) == [] <==> AllBarren(cfg, es, now)
  {
    if es != [] {
      GenerousYields(cfg, who, pod, es[1..], now);
      var v := VerdictOn(cfg, who, pod, Generous(now), es[0]);
      assert v.Deliver? <==> !Barren(cfg, es[0], now);
      assert AllBarren(cfg, es, now) <==> Barren(cfg, es[0], now) && AllBarren(cfg, es[1..], now) by {
        assert es == [es[0]] + es[1..];
      }
    }
  }

  // ----- The trimmed prefix -----

  /** Pending records whose entry is gone are older than everything stored. */
  predicate Gapless(st: Stream) {
    forall i, j :: 0 <= i < |st.pel| && 0 <= j < |st.entries| ==>
      Stored(st.entries, st.pel[i].entry.id) || Before(st.pel[i].entry.id, st.entries[j].id)
  }

  predicate SortedAgainst(due: seq<Entry>, es: seq<Entry>) {
    && Sorted(due)
    && (forall i, j :: 0 <= i < |due| && 0 <= j < |es| ==> Stored(es, due[i].id) || Before(due[i].id, es[j].id))
  }

  /** The first claim of the reclaim loop meets a stored entry. */
  predicate FirstClaimMeets(due: seq<Entry>, es: seq<Entry>, count: nat) {
    exists i :: 0 <= i < Min(count, |due|) && Stored(es, due[i].id)
  }

  lemma {:induction false} AllStored(due: seq<Entry>, es: seq<Entry>)
    requires forall i :: 0 <= i < |due| ==> Stored(es, due[i].id)
    ensures StoredOf(due, es) == due
  {
    if due != [] {
      AllStored(due[1..], es);
    }
  }

  lemma {:induction false} NoneStored(due: seq<Entry>, es: seq<Entry>)
    ensures StoredOf(due, es) == [] <==> forall i :: 0 <= i < |due| ==> !Stored(es, due[i].id)
  {
    if due != [] {
      NoneStored(due[1..], es);
      assert due == [due[0]] + due[1..];
      if StoredOf(due, es) == [] {
        forall i | 0 <= i < |due|
          ensures !Stored(es, due[i].id)
        {
          assert i > 0 ==> due[i] == due[1..][i - 1];
        }
      } else if !Stored(es, due[0].id) {
        var i :| 0 <= i < |due[1..]| && Stored(es, due[1..][i].id);
        assert due[i + 1] == due[1..][i];
      }
    }
  }

  lemma {:induction false} StoredOfConcat(a: seq<Entry>, b: seq<Entry>, es: seq<Entry>)
    ensures StoredOf(a + b, es) == StoredOf(a, es) + StoredOf(b, es)
  {
    hide Stored;
    if a == [] {
      assert a + b == b;
    } else {
      var head := if Stored(es, a[0].id) then [a[0]] else [];
      assert (a + b)[1..] == a[1..] + b;
      StoredOfConcat(a[1..], b, es);
      assert StoredOf(a + b, es) == head + (StoredOf(a[1..], es) + StoredOf(b, es));
    }
  }

  lemma {:induction false} RoundsOnStored(due: seq<Entry>, es: seq<Entry>, count: nat)
    requires count > 0 && forall i :: 0 <= i < |due| ==> Stored(es, due[i].id)
    ensures ClaimRounds(due, es, count) == due
    decreases |due|
  {
    if due != [] {
      var n := Min(count, |due|);
      AllStored(due[..n], es);
      RoundsOnStored(due[n..], es, count);
      assert due == due[..n] + due[n..];
    }
  }

  lemma LaterStored(due: seq<Entry>, es: seq<Entry>, i: nat, n: nat)
    requires SortedAgainst(due, es) && i < n <= |due| && Stored(es, due[i].id)
    ensures forall j :: 0 <= j < |due[n..]| ==> Stored(es, due[n..][j].id)
  {
    forall j | 0 <= j < |due[n..]|
      ensures Stored(es, due[n..][j].id)
    {
      StoredOnward(due, es, i, n + j);
    }
  }

  lemma StoredOnward(due: seq<Entry>, es: seq<Entry>, i: nat, j: nat)
    requires SortedAgainst(due, es) && i < j < |due| && Stored(es, due[i].id)
    ensures Stored(es, due[j].id)
  {
    var m :| 0 <= m < |es| && es[m].id == due[i].id;
    assert Before(due[i].id, due[j].id);
    assert !Before(due[j].id, es[m].id);
  }

  /** All or nothing: the loop works through every stored due entry, or through
      none when its first claim meets only trimmed ones. */
  lemma RoundsAllOrNothing(due: seq<Entry>, es: seq<Entry>, count: nat)
    requires count > 0 && SortedAgainst(due, es)
    ensures ClaimRounds(due, es, count) == if FirstClaimMeets(due, es, count) then StoredOf(due, es) else []
  {
    if due != [] {
      var n := Min(count, |due|);
      var (a, z) := (due[..n], due[n..]);
      assert due == a + z;
      NoneStored(a, es);
      if FirstClaimMeets(due, es, count) {
        var i :| 0 <= i < n && Stored(es, due[i].id);
        assert a[i] == due[i];
        LaterStored(due, es, i, n);
        RoundsOnStored(z, es, count);
        AllStored(z, es);
        StoredOfConcat(a, z, es);
      } else {
        assert forall i :: 0 <= i < n ==> a[i] == due[i];
      }
    }
  }

  lemma {:induction false} HandledComesFrom(pel: seq<Pending>, es: seq<Entry>, now: nat, minIdle: nat, j: nat)
    requires j < |HandledList(pel, es, now, minIdle)|
    ensures Listed(pel, HandledList(pel, es, now, minIdle)[j])
  {
    hide Handled;
    var d, d' := HandledList(pel, es, now, minIdle), HandledList(pel[1..], es, now, minIdle);
    if j < |d| - |d'| {
      assert pel[0].entry == d[j];
    } else {
      HandledComesFrom(pel[1..], es, now, minIdle, j - (|d| - |d'|));
      assert d[j] == d'[j - (|d| - |d'|)];
      var i :| 0 <= i < |pel[1..]| && pel[1..][i].entry == d[j];
      assert pel[i + 1].entry == d[j];
    }
  }

  lemma {:induction false} HandledSorted(pel: seq<Pending>, es: seq<Entry>, now: nat, minIdle: nat)
    requires SortedPel(pel)
    ensures Sorted(HandledList(pel, es, now, minIdle))
  {
    hide Handled;
    if pel != [] {
      var d, d' := HandledList(pel, es, now, minIdle), HandledList(pel[1..], es, now, minIdle);
      HandledSorted(pel[1..], es, now, minIdle);
      forall j | 0 <= j < |d'|
        ensures Before(pel[0].entry.id, d'[j].id)
      {
        HandledComesFrom(pel[1..], es, now, minIdle, j);
        var i :| 0 <= i < |pel[1..]| && pel[1..][i].entry == d'[j];
        assert pel[i + 1].entry == d'[j];
      }
      assert d == d' || d == [pel[0].entry] + d';
    }
  }

  lemma HandledAgainst(st: Stream, now: nat, minIdle: nat)
    requires SortedPel(st.pel) && Gapless(st)
    ensures SortedAgainst(HandledList(st.pel, st.entries, now, minIdle), st.entries)
  {
    var list := HandledList(st.pel, st.entries, now, minIdle);
    HandledSorted(st.pel, st.entries, now, minIdle);
    forall i, j | 0 <= i < |list| && 0 <= j < |st.entries|
      ensures Stored(st.entries, list[i].id) || Before(list[i].id, st.entries[j].id)
    {
      HandledComesFrom(st.pel, st.entries, now, minIdle, i);
      var k :| 0 <= k < |st.pel| && st.pel[k].entry == list[i];
    }
  }

  /** The stored ones among them are what a claim of them all would return. */
  lemma {:induction false} ClaimedIsStoredHandled(pel: seq<Pending>, es: seq<Entry>, now: nat, minIdle: nat)
    ensures StoredOf(HandledList(pel, es, now, minIdle), es) == Claimed(pel, es, now, minIdle)
  {
    hide Stored, Due;
    if pel != [] {
      ClaimedIsStoredHandled(pel[1..], es, now, minIdle);
      var d := HandledList(pel[1..], es, now, minIdle);
      if Handled(pel[0], es, now, minIdle) {
        assert ([pel[0].entry] + d)[1..] == d;
      } else {
        assert HandledList(pel, es, now, minIdle) == d;
      }
    }
  }

  /** A trim takes a sorted stream's oldest entries, so what it leaves is gapless again. */
  lemma TrimGapless(st: Stream, now: nat, k: nat)
    requires StreamOk(st, now) && Gapless(st) && k <= |st.entries|
    ensures Gapless(XTrim(st, k))
  {
    var es := st.entries[k..];
    forall i, j | 0 <= i < |st.pel| && 0 <= j < |es|
      ensures Stored(es, st.pel[i].entry.id) || Before(st.pel[i].entry.id, es[j].id)
    {
      var id := st.pel[i].entry.id;
      assert es[j] == st.entries[k + j];
      if Stored(st.entries, id) {
        var m :| 0 <= m < |st.entries| && st.entries[m].id == id;
        if m >= k {
          assert es[m - k].id == id;
        } else {
          assert Before(st.entries[m].id, st.entries[k + j].id);
        }
      }
    }
  }

  // ----- The reclaim loop -----

  lemma TrimSpares(es: seq<Entry>, k: nat, m: nat)
    requires k <= |es| && m < |es|
    ensures k <= m ==> Stored(es[k..], es[m].id)
  {
    if k <= m {
      assert es[k..][m - k].id == es[m].id;
    }
  }

  /** An entry the trim took away is too old for any pass. */
  lemma TrimmedIsBarren(cfg: Config, st: Stream, now: nat, k: nat, e: Entry)
    requires StreamOk(st, now) && k <= |st.entries| && 0 < cfg.maxPendingMs <= DeadRetention(cfg)
    requires forall i :: 0 <= i < k ==> Before(st.entries[i].id, CutoffId(now, DeadRetention(cfg)))
    requires Stored(st.entries, e.id) && !Stored(st.entries[k..], e.id)
    ensures Barren(cfg, e, now)
  {
    var m :| 0 <= m < |st.entries| && st.entries[m].id == e.id;
    TrimSpares(st.entries, k, m);
    assert Before(e.id, CutoffId(now, DeadRetention(cfg)));
  }

  /** Working through the claimed entries with or without the trimmed ones. */
  lemma {:induction false} TrimmedYieldNothing(cfg: Config, who: nat, pod: nat, o: Oracle, pel: seq<Pending>,
                                             es: seq<Entry>, es': seq<Entry>, now: nat)
    requires From(o, now)
    requires forall i :: 0 <= i < |pel| ==> Stored(es', pel[i].entry.id) ==> Stored(es, pel[i].entry.id)
    requires forall i :: 0 <= i < |pel| ==>
      Stored(es, pel[i].entry.id) && !Stored(es', pel[i].entry.id) ==> Barren(cfg, pel[i].entry, now)
    ensures Yield(cfg, who, pod, o, Claimed(pel, es, now, MinIdle(cfg)))
      == Yield(cfg, who, pod, o, Claimed(pel, es', now, MinIdle(cfg)))
  {
    hide Stored, Due, MinIdle;
    if pel != [] {
      var r, rest, m := pel[0], pel[1..], MinIdle(cfg);
      var e := r.entry;
      TrimmedYieldNothing(cfg, who, pod, o, rest, es, es', now);
      var (a, a') := (if Due(r, now, m) && Stored(es, e.id) then [e] else [],
                      if Due(r, now, m) && Stored(es', e.id) then [e] else []);
      assert Claimed(pel, es, now, m) == a + Claimed(rest, es, now, m);
      assert Claimed(pel, es', now, m) == a' + Claimed(rest, es', now, m);
      YieldConcat(cfg, who, pod, o, a, Claimed(rest, es, now, m));
      YieldConcat(cfg, who, pod, o, a', Claimed(rest, es', now, m));
      if Barren(cfg, e, now) {
        BarrenOne(cfg, who, pod, o, e, now);
      }
    }
  }

  lemma BarrenOne(cfg: Config, who: nat, pod: nat, o: Oracle, e: Entry, now: nat)
    requires From(o, now) && Barren(cfg, e, now)
    ensures Yield(cfg, who, pod, o, [e]) == [] && Yield(cfg, who, pod, o, []) == []
  {
    BarrenYieldsNothing(cfg, who, pod, o, [e], now);
  }

  lemma TrimShrinks(es: seq<Entry>, k: nat, id: Id)
    requires k <= |es| && Stored(es[k..], id)
    ensures Stored(es, id)
  {
    var i :| 0 <= i < |es[k..]| && es[k..][i].id == id;
    assert es[k + i].id == id;
  }

  /** The reclaim loop of a drain at a given moment. */
  function Reclaimed(st: Stream, cfg: Config, now: nat): seq<Entry> {
    ClaimRounds(HandledList(st.pel, st.entries, now, MinIdle(cfg)), st.entries, ReadCountOf(cfg))
  }

  /** Its first claim meets a stored entry. */
  predicate Starts(st: Stream, cfg: Config, now: nat) {
    FirstClaimMeets(HandledList(st.pel, st.entries, now, MinIdle(cfg)), st.entries, ReadCountOf(cfg))
  }

  lemma ReclaimedIs(st: Stream, cfg: Config, now: nat)
    requires SortedPel(st.pel) && Gapless(st)
    ensures Reclaimed(st, cfg, now) ==
      if Starts(st, cfg, now) then Claimed(st.pel, st.entries, now, MinIdle(cfg)) else []
  {
    hide FirstClaimMeets, HandledList, Claimed, Gapless, SortedPel;
    HandledAgainst(st, now, MinIdle(cfg));
    RoundsAllOrNothing(HandledList(st.pel, st.entries, now, MinIdle(cfg)), st.entries, ReadCountOf(cfg));
    ClaimedIsStoredHandled(st.pel, st.entries, now, MinIdle(cfg));
  }

  lemma MeetsCons(e: Entry, rest: seq<Entry>, es: seq<Entry>, count: nat)
    requires count > 0
    ensures FirstClaimMeets([e] + rest, es, count) <==> Stored(es, e.id) || FirstClaimMeets(rest, es, count - 1)
  {
    hide Stored;
    var list := [e] + rest;
    assert list[0] == e && forall i :: 0 <= i < |rest| ==> list[i + 1] == rest[i];
    if FirstClaimMeets(rest, es, count - 1) {
      var i :| 0 <= i < Min(count - 1, |rest|) && Stored(es, rest[i].id);
      assert Stored(es, list[i + 1].id);
    }
    if FirstClaimMeets(list, es, count) {
      var i :| 0 <= i < Min(count, |list|) && Stored(es, list[i].id);
      assert i > 0 ==> list[i] == rest[i - 1];
    }
  }

  lemma MeetsMore(list: seq<Entry>, es: seq<Entry>, count: nat)
    requires FirstClaimMeets(list, es, count)
    ensures count > 0 && FirstClaimMeets(list, es, count + 1)
  {
  }

  /** A claim that meets a stored entry among fewer stored ones met it before. */
  lemma {:induction false} MeetsBefore(pel: seq<Pending>, es: seq<Entry>, es': seq<Entry>, now: nat, m: nat, count: nat)
    requires forall i :: 0 <= i < |pel| ==> Stored(es', pel[i].entry.id) ==> Stored(es, pel[i].entry.id)
    requires FirstClaimMeets(HandledList(pel, es', now, m), es', count)
    ensures FirstClaimMeets(HandledList(pel, es, now, m), es, count)
  {
    hide Stored, Due, FirstClaimMeets;
    MeetsMore(HandledList(pel, es', now, m), es', count);
    if pel == [] {
      NothingMet(es', count);
    } else {
      var r, rest := pel[0], pel[1..];
      var (l, l') := (HandledList(rest, es, now, m), HandledList(rest, es', now, m));
      if Handled(r, es', now, m) {
        MeetsCons(r.entry, l', es', count);
        if !Stored(es', r.entry.id) {
          MeetsBefore(rest, es, es', now, m, count - 1);
        }
        if Handled(r, es, now, m) {
          MeetsCons(r.entry, l, es, count);
        } else {
          assert HandledList(pel, es, now, m) == l;
          MeetsMore(l, es, count - 1);
        }
      } else {
        assert HandledList(pel, es', now, m) == l' && HandledList(pel, es, now, m) == l;
        MeetsBefore(rest, es, es', now, m, count);
      }
    }
  }

  lemma NothingMet(es: seq<Entry>, count: nat)
    ensures !FirstClaimMeets([], es, count)
  {
  }

  /** A trim below the retention cutoff, under a maximal age no longer than it. */
  predicate TrimFits(cfg: Config, st: Stream, now: nat, k: nat) {
    && StreamOk(st, now) && Gapless(st) && k <= |st.entries|
    && 0 < cfg.maxPendingMs <= DeadRetention(cfg)
    && (forall i :: 0 <= i < k ==> Before(st.entries[i].id, CutoffId(now, DeadRetention(cfg))))
  }

  /** When the trim leaves the reclaim loop alone: its first claim still meets a
      stored entry, or met none before either, or nothing that it would have
      claimed could be delivered by any pass. */
  predicate ReclaimUnharmed(cfg: Config, st: Stream, now: nat, k: nat)
    requires k <= |st.entries|
  {
    || Starts(XTrim(st, k), cfg, now)
    || !Starts(st, cfg, now)
    || AllBarren(cfg, Claimed(st.pel, st.entries[k..], now, MinIdle(cfg)), now)
  }

  lemma TrimmedPel(cfg: Config, who: nat, pod: nat, st: Stream, now: nat, k: nat, o: Oracle)
    requires TrimFits(cfg, st, now, k) && From(o, now)
    ensures Yield(cfg, who, pod, o, Claimed(st.pel, st.entries, now, MinIdle(cfg)))
      == Yield(cfg, who, pod, o, Claimed(st.pel, st.entries[k..], now, MinIdle(cfg)))
  {
    hide Yield, Claimed, From, StreamOk, Gapless, MinIdle, Stored, Barren;
    forall i | 0 <= i < |st.pel| && Stored(st.entries[k..], st.pel[i].entry.id)
      ensures Stored(st.entries, st.pel[i].entry.id)
    {
      TrimShrinks(st.entries, k, st.pel[i].entry.id);
    }
    forall i |
      && 0 <= i < |st.pel|
      && Stored(st.entries, st.pel[i].entry.id) && !Stored(st.entries[k..], st.pel[i].entry.id)
      ensures Barren(cfg, st.pel[i].entry, now)
    {
      TrimmedIsBarren(cfg, st, now, k, st.pel[i].entry);
    }
    TrimmedYieldNothing(cfg, who, pod, o, st.pel, st.entries, st.entries[k..], now);
  }

  lemma StartsBefore(cfg: Config, st: Stream, now: nat, k: nat)
    requires k <= |st.entries| && Starts(XTrim(st, k), cfg, now)
    ensures Starts(st, cfg, now)
  {
    hide FirstClaimMeets, HandledList, Stored;
    forall i | 0 <= i < |st.pel| && Stored(st.entries[k..], st.pel[i].entry.id)
      ensures Stored(st.entries, st.pel[i].entry.id)
    {
      TrimShrinks(st.entries, k, st.pel[i].entry.id);
    }
    MeetsBefore(st.pel, st.entries, st.entries[k..], now, MinIdle(cfg), ReadCountOf(cfg));
  }

  /** What the two reclaim loops come to. */
  lemma BothReclaimed(cfg: Config, st: Stream, now: nat, k: nat)
    requires TrimFits(cfg, st, now, k)
    ensures var m := MinIdle(cfg);
      && Reclaimed(st, cfg, now) == (if Starts(st, cfg, now) then Claimed(st.pel, st.entries, now, m) else [])
      && Reclaimed(XTrim(st, k), cfg, now)
         == (if Starts(XTrim(st, k), cfg, now) then Claimed(st.pel, st.entries[k..], now, m) else [])
      && (Starts(XTrim(st, k), cfg, now) ==> Starts(st, cfg, now))
  {
    assert SortedPel(st.pel);
    TrimGapless(st, now, k);
    hide Starts, Reclaimed, Claimed, Gapless, StreamOk, SortedPel;
    ReclaimedIs(st, cfg, now);
    ReclaimedIs(XTrim(st, k), cfg, now);
    if Starts(XTrim(st, k), cfg, now) {
      StartsBefore(cfg, st, now, k);
    }
  }

  /** If the trim leaves the loop alone, both deliver and re-publish the same. */
  lemma ReclaimSame(cfg: Config, who: nat, pod: nat, st: Stream, now: nat, k: nat, o: Oracle)
    requires TrimFits(cfg, st, now, k) && From(o, now) && ReclaimUnharmed(cfg, st, now, k)
    ensures Yield(cfg, who, pod, o, Reclaimed(st, cfg, now))
      == Yield(cfg, who, pod, o, Reclaimed(XTrim(st, k), cfg, now))
  {
    BothReclaimed(cfg, st, now, k);
    TrimmedPel(cfg, who, pod, st, now, k, o);
    hide Starts, Reclaimed, Claimed, StreamOk, Gapless;
    var rest := Claimed(st.pel, st.entries[k..], now, MinIdle(cfg));
    if AllBarren(cfg, rest, now) {
      BarrenYieldsNothing(cfg, who, pod, o, rest, now);
    }
  }

  /** If it does not, the most favourable answers tell the two apart. */
  lemma ReclaimDiffers(cfg: Config, who: nat, pod: nat, st: Stream, now: nat, k: nat)
    requires TrimFits(cfg, st, now, k) && !ReclaimUnharmed(cfg, st, now, k)
    ensures Yield(cfg, who, pod, Generous(now), Reclaimed(st, cfg, now)) != []
    ensures Reclaimed(XTrim(st, k), cfg, now) == []
  {
    BothReclaimed(cfg, st, now, k);
    TrimmedPel(cfg, who, pod, st, now, k, Generous(now));
    GenerousYields(cfg, who, pod, Claimed(st.pel, st.entries[k..], now, MinIdle(cfg)), now);
  }

  /** Trimming first is harmless to the reclaim loop if and only if the first
      claim still meets a stored entry afterwards, or did not before either, or
      nothing claimable is left that a pass could deliver. */
  lemma TrimFirstReclaim(cfg: Config, who: nat, pod: nat, st: Stream, now: nat, k: nat)
    requires TrimFits(cfg, st, now, k)
    ensures (forall o :: From(o, now) ==>
        Yield(cfg, who, pod, o, Reclaimed(st, cfg, now)) == Yield(cfg, who, pod, o, Reclaimed(XTrim(st, k), cfg, now)))
      <==> ReclaimUnharmed(cfg, st, now, k)
  {
    hide StreamOk, Gapless, ReclaimUnharmed, Reclaimed, Yield;
    if ReclaimUnharmed(cfg, st, now, k) {
      forall o | From(o, now)
        ensures Yield(cfg, who, pod, o, Reclaimed(st, cfg, now))
          == Yield(cfg, who, pod, o, Reclaimed(XTrim(st, k), cfg, now))
      {
        ReclaimSame(cfg, who, pod, st, now, k, o);
      }
    } else {
      ReclaimDiffers(cfg, who, pod, st, now, k);
      NothingYields(cfg, who, pod, Generous(now));
      assert From(Generous(now), now);
    }
  }

  lemma NothingYields(cfg: Config, who: nat, pod: nat, o: Oracle)
    ensures Yield(cfg, who, pod, o, []) == []
  {
  }

  // ----- The read rounds -----

  /** What ten read rounds reach. */
  function Reached(st: Stream, cfg: Config): seq<Entry> {
    Batch(st, 10 * ReadCountOf(cfg))
  }

  function Max(a: int, b: int): int { if a < b then b else a }

  /** The unread entries that only the trimmed stream's read rounds reach: the
      trimmed ones leave them room. */
  function Extra(st: Stream, k: nat, cfg: Config): (extra: seq<Entry>)
    requires k <= |st.entries|
    ensures |extra| <= |TrimLost(st, k)|
  {
    RoomFor(TrimLost(st, k), Unread(XTrim(st, k)), 10 * ReadCountOf(cfg))
  }

  function RoomFor(lost: seq<Entry>, v: seq<Entry>, n: nat): (extra: seq<Entry>)
    ensures |extra| <= |lost|
    ensures |lost| + |v| <= n ==> extra == []
    ensures v[..Min(n, |v|)] == v[..Max(0, Min(n, |lost| + |v|) - |lost|)] + extra
  {
    v[Max(0, Min(n, |lost| + |v|) - |lost|)..Min(n, |v|)]
  }

  lemma BatchIsTake(st: Stream, n: nat)
    ensures Batch(st, n) == Unread(st)[..Min(n, |Unread(st)|)]
  {
  }

  lemma LostIsBarren(cfg: Config, st: Stream, now: nat, k: nat)
    requires TrimFits(cfg, st, now, k)
    ensures AllBarren(cfg, TrimLost(st, k), now)
  {
    hide ReadCount, StreamOk, Gapless;
    var lost := TrimLost(st, k);
    forall i | 0 <= i < |lost| ensures Barren(cfg, lost[i], now) {
      assert lost[i] == st.entries[ReadCount(st.entries, st.cursor) + i];
    }
  }

  lemma LostTakesRoom(cfg: Config, who: nat, pod: nat, lost: seq<Entry>, v: seq<Entry>, n: nat, now: nat, o: Oracle)
    requires From(o, now) && AllBarren(cfg, lost, now)
    ensures var u := lost + v;
      Yield(cfg, who, pod, o, v[..Min(n, |v|)])
      == Yield(cfg, who, pod, o, u[..Min(n, |u|)]) + Yield(cfg, who, pod, o, RoomFor(lost, v, n))
  {
    hide Yield, From;
    var u := lost + v;
    var a := Min(n, |u|);
    var b := Max(0, a - |lost|);
    YieldConcat(cfg, who, pod, o, v[..b], RoomFor(lost, v, n));
    if a <= |lost| {
      assert u[..a] == lost[..a] && v[..b] == [];
      assert AllBarren(cfg, lost[..a], now);
      BarrenYieldsNothing(cfg, who, pod, o, lost[..a], now);
      NothingYields(cfg, who, pod, o);
    } else {
      assert u[..a] == lost + v[..b];
      YieldConcat(cfg, who, pod, o, lost, v[..b]);
      BarrenYieldsNothing(cfg, who, pod, o, lost, now);
    }
  }

  /** To the read rounds trimming first only adds the extra entries. */
  lemma ReadsGainExtra(cfg: Config, who: nat, pod: nat, st: Stream, now: nat, k: nat, o: Oracle)
    requires TrimFits(cfg, st, now, k) && From(o, now)
    ensures Yield(cfg, who, pod, o, Reached(XTrim(st, k), cfg))
      == Yield(cfg, who, pod, o, Reached(st, cfg)) + Yield(cfg, who, pod, o, Extra(st, k, cfg))
  {
    hide StreamOk, Gapless, TrimLost, Unread, XTrim, Batch, ReadCountOf, Yield, RoomFor, From;
    var n := 10 * ReadCountOf(cfg);
    TrimUnread(st, now, k);
    BatchIsTake(st, n);
    BatchIsTake(XTrim(st, k), n);
    LostIsBarren(cfg, st, now, k);
    LostTakesRoom(cfg, who, pod, TrimLost(st, k), Unread(XTrim(st, k)), n, now, o);
  }

  /** So it is harmless to them if and only if no pass could deliver what the
      freed room lets them reach. */
  lemma TrimFirstReads(cfg: Config, who: nat, pod: nat, st: Stream, now: nat, k: nat)
    requires TrimFits(cfg, st, now, k)
    ensures (forall o :: From(o, now) ==>
        Yield(cfg, who, pod, o, Reached(st, cfg)) == Yield(cfg, who, pod, o, Reached(XTrim(st, k), cfg)))
      <==> AllBarren(cfg, Extra(st, k, cfg), now)
  {
    hide StreamOk, Gapless, Reached, Yield, Extra, AllBarren, XTrim;
    forall o | From(o, now)
      ensures Yield(cfg, who, pod, o, Reached(XTrim(st, k), cfg))
        == Yield(cfg, who, pod, o, Reached(st, cfg)) + Yield(cfg, who, pod, o, Extra(st, k, cfg))
      ensures AllBarren(cfg, Extra(st, k, cfg), now) ==> Yield(cfg, who, pod, o, Extra(st, k, cfg)) == []
    {
      ReadsGainExtra(cfg, who, pod, st, now, k, o);
      if AllBarren(cfg, Extra(st, k, cfg), now) {
        BarrenYieldsNothing(cfg, who, pod, o, Extra(st, k, cfg), now);
      }
    }
    GenerousYields(cfg, who, pod, Extra(st, k, cfg), now);
    assert From(Generous(now), now);
  }

  // ----- The whole drain -----

  /** What a drain delivers and re-publishes, in order: its reclaim loop, then
      its read rounds. */
  function DrainYield(cfg: Config, who: nat, pod: nat, o: Oracle, st: Stream, now: nat): seq<(Entry, Verdict)> {
    Yield(cfg, who, pod, o, Reclaimed(st, cfg, now)) + Yield(cfg, who, pod, o, Reached(st, cfg))
  }

  lemma {:induction false} YieldComesFrom(cfg: Config, who: nat, pod: nat, o: Oracle, es: seq<Entry>, j: nat)
    requires j < |Yield(cfg, who, pod, o, es)|
    ensures Yield(cfg, who, pod, o, es)[j].0 in es
  {
    hide VerdictOn;
    var y, y' := Yield(cfg, who, pod, o, es), Yield(cfg, who, pod, o, es[1..]);
    if j >= |y| - |y'| {
      assert y[j] == y'[j - (|y| - |y'|)];
      YieldComesFrom(cfg, who, pod, o, es[1..], j - (|y| - |y'|));
    }
  }

  lemma {:induction false} ClaimedIsPending(pel: seq<Pending>, es: seq<Entry>, now: nat, m: nat, e: Entry)
    requires e in Claimed(pel, es, now, m)
    ensures Listed(pel, e)
  {
    hide Due, Stored;
    if e == pel[0].entry {
    } else {
      ClaimedIsPending(pel[1..], es, now, m, e);
      var i :| 0 <= i < |pel[1..]| && pel[1..][i].entry == e;
      assert pel[i + 1].entry == e;
    }
  }

  lemma ReclaimedIsRead(cfg: Config, st: Stream, now: nat, a: Entry)
    requires SortedPel(st.pel) && Gapless(st) && a in Reclaimed(st, cfg, now)
    ensures Listed(st.pel, a)
  {
    hide Gapless, Starts, Claimed, Reclaimed;
    ReclaimedIs(st, cfg, now);
    ClaimedIsPending(st.pel, st.entries, now, MinIdle(cfg), a);
  }

  lemma UnreadIsNew(st: Stream, n: nat, b: Entry)
    requires Sorted(st.entries) && b in Batch(st, n)
    ensures Before(st.cursor, b.id)
  {
    var r := ReadCount(st.entries, st.cursor);
    var j :| 0 <= j < |Batch(st, n)| && Batch(st, n)[j] == b;
    assert j > 0 ==> Before(st.entries[r].id, st.entries[r + j].id);
  }

  /** Reclaimed entries lie at or below the cursor, reached ones above it. */
  lemma ReachedApart(cfg: Config, st: Stream, now: nat, k: nat, a: Entry, b: Entry)
    requires TrimFits(cfg, st, now, k) && a in Reclaimed(st, cfg, now) && b in Reached(XTrim(st, k), cfg)
    ensures a != b
  {
    hide Reclaimed, Gapless, Batch;
    ReclaimedIsRead(cfg, st, now, a);
    var i :| 0 <= i < |st.pel| && st.pel[i].entry == a;
    UnreadIsNew(XTrim(st, k), 10 * ReadCountOf(cfg), b);
  }

  /** Trimming a dead pod's stream before draining it changes nothing that the
      drain delivers or re-publishes, whatever the outside world answers, if and
      only if it leaves the reclaim loop alone and lets the read rounds reach
      nothing more that a pass could deliver. */
  lemma TrimFirstDrain(cfg: Config, who: nat, pod: nat, st: Stream, now: nat, k: nat)
    requires TrimFits(cfg, st, now, k)
    ensures (forall o :: From(o, now) ==>
        DrainYield(cfg, who, pod, o, st, now) == DrainYield(cfg, who, pod, o, XTrim(st, k), now))
      <==> ReclaimUnharmed(cfg, st, now, k) && AllBarren(cfg, Extra(st, k, cfg), now)
  {
    hide StreamOk, Gapless, ReclaimUnharmed, Reclaimed, Reached, Yield, Extra, AllBarren, XTrim, From;
    if ReclaimUnharmed(cfg, st, now, k) && AllBarren(cfg, Extra(st, k, cfg), now) {
      TrimFirstReads(cfg, who, pod, st, now, k);
      forall o | From(o, now)
        ensures DrainYield(cfg, who, pod, o, st, now) == DrainYield(cfg, who, pod, o, XTrim(st, k), now)
      {
        ReclaimSame(cfg, who, pod, st, now, k, o);
      }
    } else {
      GenerousIsFrom(now);
      DrainDiffers(cfg, who, pod, st, now, k);
    }
  }

  lemma GenerousIsFrom(now: nat)
    ensures From(Generous(now), now)
  {
  }

  lemma DrainDiffers(cfg: Config, who: nat, pod: nat, st: Stream, now: nat, k: nat)
    requires TrimFits(cfg, st, now, k)
    requires !ReclaimUnharmed(cfg, st, now, k) || !AllBarren(cfg, Extra(st, k, cfg), now)
    ensures DrainYield(cfg, who, pod, Generous(now), st, now)
      != DrainYield(cfg, who, pod, Generous(now), XTrim(st, k), now)
  {
    hide ReclaimUnharmed, Reclaimed, Reached, Yield, Extra, AllBarren, From, Generous;
    GenerousIsFrom(now);
    var o, st' := Generous(now), XTrim(st, k);
    var c := Yield(cfg, who, pod, o, Reclaimed(st, cfg, now));
    var c' := Yield(cfg, who, pod, o, Reclaimed(st', cfg, now));
    var (r, r') := (Yield(cfg, who, pod, o, Reached(st, cfg)), Yield(cfg, who, pod, o, Reached(st', cfg)));
    ReadsGainExtra(cfg, who, pod, st, now, k, o);
    if ReclaimUnharmed(cfg, st, now, k) {
      ReclaimSame(cfg, who, pod, st, now, k, o);
      GenerousYields(cfg, who, pod, Extra(st, k, cfg), now);
      assert |r'| > |r|;
    } else {
      ReclaimDiffers(cfg, who, pod, st, now, k);
      NothingYields(cfg, who, pod, o);
      assert c != [] && c' == [];
      assert (c + r)[0] == c[0];
      YieldComesFrom(cfg, who, pod, o, Reclaimed(st, cfg, now), 0);
      if r' != [] {
        YieldComesFrom(cfg, who, pod, o, Reached(st', cfg), 0);
        ReachedApart(cfg, st, now, k, c[0].0, r'[0].0);
      }
    }
  }

  /** One trimmed record ahead of a fresh one, claims of one at a time: without
      the trim the loop works through both, after it through none. */
  lemma TrimFirstCanStrand()
    ensures
      var (stale, young) := (Entry(Id(1, 0), "a", "p", 0, 0), Entry(Id(9, 0), "b", "q", 1, 1));
      var cfg := Config(0, 1, 1, 2, 0, 3);
      var st := Stream([stale, young], Id(9, 0), true, Id(9, 0),
                       [Pending(stale, 9, 1, false, 0), Pending(young, 9, 1, false, 0)]);
      && StreamOk(st, 10) && Gapless(st)
      && Before(stale.id, CutoffId(10, DeadRetention(cfg)))
      && Reclaimed(st, cfg, 10) == [stale, young]
      && Reclaimed(XTrim(st, 1), cfg, 10) == []
  {
    var (stale, young) := (Entry(Id(1, 0), "a", "p", 0, 0), Entry(Id(9, 0), "b", "q", 1, 1));
    var pel := [Pending(stale, 9, 1, false, 0), Pending(young, 9, 1, false, 0)];
    var st := Stream([stale, young], Id(9, 0), true, Id(9, 0), pel);
    assert st.entries[0] == stale && st.entries[1] == young;
    TwoHandled(pel[0], pel[1], st.entries, 10, 1);
    TwoHandled(pel[0], pel[1], [young], 10, 1);
    assert [stale, young][1..] == [young];
    BothWorked(stale, young);
    NoneWorked(stale, young);
  }

  lemma TwoHandled(a: Pending, b: Pending, es: seq<Entry>, now: nat, minIdle: nat)
    requires Due(a, now, minIdle) && Due(b, now, minIdle)
    ensures HandledList([a, b], es, now, minIdle) == [a.entry, b.entry]
  {
    assert [a, b][1..] == [b] && [b][1..] == [];
    assert HandledList([], es, now, minIdle) == [];
    assert HandledList([b], es, now, minIdle) == [b.entry];
  }

  lemma BothWorked(a: Entry, b: Entry)
    ensures ClaimRounds([a, b], [a, b], 1) == [a, b]
  {
    var due := [a, b];
    forall i | 0 <= i < 2 ensures Stored(due, due[i].id) {
    }
    RoundsOnStored(due, due, 1);
  }

  lemma NoneWorked(a: Entry, b: Entry)
    requires a.id != b.id
    ensures ClaimRounds([a, b], [b], 1) == []
  {
    var first := [a, b][..1];
    assert first == [a];
    forall i | 0 <= i < 1 ensures !Stored([b], first[i].id) {
    }
    NoneStored(first, [b]);
  }

  // ----- Every reachable stream is gapless -----

  ghost predicate AllGapless(s: State) {
    forall q :: 0 <= q < |s.streams| ==> Gapless(s.streams[q])
  }

  lemma AddGapless(st: Stream, now: nat, e: Entry)
    requires StreamOk(st, now) && Gapless(st) && e.id == NextId(st.top, now)
    ensures Gapless(XAdd(st, e))
  {
    var es := st.entries + [e];
    forall i, j | 0 <= i < |st.pel| && 0 <= j < |es|
      ensures Stored(es, st.pel[i].entry.id) || Before(st.pel[i].entry.id, es[j].id)
    {
      var id := st.pel[i].entry.id;
      if Stored(st.entries, id) {
        var m :| 0 <= m < |st.entries| && st.entries[m].id == id;
        assert es[m].id == id;
      }
    }
  }

  lemma ReadGapless(st: Stream, now: nat, count: nat)
    requires StreamOk(st, now) && Gapless(st)
    ensures Gapless(XReadGroup(st, count, now))
  {
    hide StreamOk, Batch, XReadGroup, HandOut, Stored, Unread, Before;
    var b, st' := Batch(st, count), XReadGroup(st, count, now);
    ReadMovesBatch(st, now, count);
    ReadKeepsEntries(st, now, count);
    PelOfRead(st.pel, b, st'.pel, now);
    forall i, j | 0 <= i < |st'.pel| && 0 <= j < |st.entries|
      ensures Stored(st.entries, st'.pel[i].entry.id) || Before(st'.pel[i].entry.id, st.entries[j].id)
    {
      if i >= |st.pel| {
        BatchIsStored(st, count, i - |st.pel|);
      }
    }
  }

  lemma ReadKeepsEntries(st: Stream, now: nat, count: nat)
    ensures XReadGroup(st, count, now).entries == st.entries
  {
  }

  lemma BatchIsStored(st: Stream, count: nat, i: nat)
    requires i < |Batch(st, count)|
    ensures Stored(st.entries, Batch(st, count)[i].id)
  {
    assert st.entries[ReadCount(st.entries, st.cursor) + i].id == Batch(st, count)[i].id;
  }

  lemma PelOfRead(pel: seq<Pending>, b: seq<Entry>, pel': seq<Pending>, now: nat)
    requires pel' == pel + HandOut(b, now)
    ensures |pel'| == |pel| + |b|
    ensures forall i :: 0 <= i < |pel'| ==> pel'[i].entry == if i < |pel| then pel[i].entry else b[i - |pel|]
  {
  }

  lemma FewerGapless(st: Stream, pel: seq<Pending>)
    requires Gapless(st)
    requires forall j :: 0 <= j < |pel| ==> Listed(st.pel, pel[j].entry)
    ensures Gapless(st.(pel := pel))
  {
    forall i, j | 0 <= i < |pel| && 0 <= j < |st.entries|
      ensures Stored(st.entries, pel[i].entry.id) || Before(pel[i].entry.id, st.entries[j].id)
    {
      assert Listed(st.pel, pel[i].entry);
      var k :| 0 <= k < |st.pel| && st.pel[k].entry == pel[i].entry;
    }
  }

  lemma AckGapless(st: Stream, id: Id)
    requires Gapless(st)
    ensures Gapless(XAck(st, id))
  {
    var i := IndexOf(st.pel, id);
    if i < |st.pel| {
      var pel := Without(st.pel, i);
      forall j | 0 <= j < |pel|
        ensures Listed(st.pel, pel[j].entry)
      {
        assert pel[j] == st.pel[if j < i then j else j + 1];
      }
      FewerGapless(st, pel);
    }
  }

  lemma AppendGapless(s: State, pod: nat, m: Message, token: nat, evict: nat)
    requires Inv(s) && AllGapless(s) && pod < |s.streams| && CanEvict(s, pod, evict)
    ensures AllGapless(Append(s, pod, m, token, evict))
  {
    var e, st := NewEntry(s, pod, m, token), s.streams[pod];
    assert PodOk(pod, st, s.now, s.copies, s.handed);
    AddedIsUnread(st, s.now, e);
    AddGapless(st, s.now, e);
    TrimGapless(XAdd(st, e), s.now, evict);
  }

  lemma SettleGapless(s: State, who: nat, e: Entry, v: Verdict, evict: nat)
    requires Inv(s) && AllGapless(s) && VerdictFits(s, v, evict)
    ensures AllGapless(Settle(s, who, e, v, evict))
  {
    if v.Move? {
      AppendGapless(s, v.to, Message(e.client, e.payload), e.token, evict);
    }
  }

  lemma ProcessGapless(s: State, e: Event)
    requires Inv(s) && AllGapless(s) && e.Process? && Enabled(s, e)
    ensures AllGapless(Step(s, e))
  {
    var entry := Record(s, e.pod, e.id).entry;
    var v := Decide(s.cfg, e.who, e.pod, entry, s.now, e.env);
    if v.Keep? {
      HeldGapless(s.streams[e.pod], e.id, 1);
    } else {
      SettleGapless(s, e.who, entry, v, e.evict);
      AckGapless(Settle(s, e.who, entry, v, e.evict).streams[e.pod], e.id);
    }
  }

  lemma HeldGapless(st: Stream, id: Id, kept: nat)
    requires IsPending(st, id) && Gapless(st)
    ensures Gapless(SetHeld(st, id, kept))
  {
    var pel := SetHeld(st, id, kept).pel;
    forall j | 0 <= j < |pel|
      ensures Listed(st.pel, pel[j].entry)
    {
      assert st.pel[j].entry == pel[j].entry;
    }
    FewerGapless(st, pel);
  }

  lemma ClaimGapless(s: State, e: Event)
    requires Inv(s) && AllGapless(s) && e.Claim? && Enabled(s, e)
    ensures AllGapless(Step(s, e))
  {
    var st := s.streams[e.pod];
    var pel := XAutoClaim(st, e.lo, e.hi, s.now, MinIdle(s.cfg)).pel;
    assert PodOk(e.pod, st, s.now, s.copies, s.handed);
    forall j | 0 <= j < |pel|
      ensures Listed(st.pel, pel[j].entry)
    {
      var i := ClaimSource(st, e.lo, e.hi, s.now, MinIdle(s.cfg), j);
    }
    FewerGapless(st, pel);
  }

  lemma GaplessStep(s: State, e: Event)
    requires Inv(s) && AllGapless(s) && Enabled(s, e)
    ensures AllGapless(Step(s, e))
  {
    match e
    case Publish(pod, m, evict) => AppendGapless(s, pod, m, |s.published|, evict);
    case Read(pod, count) =>
      assert PodOk(pod, s.streams[pod], s.now, s.copies, s.handed);
      ReadGapless(s.streams[pod], s.now, count);
    case Claim(_, _, _) => ClaimGapless(s, e);
    case Process(_, _, _, _, _) => ProcessGapless(s, e);
    case Abandon(pod, id) => HeldGapless(s.streams[pod], id, 0);
    case Effect(who, pod, entry, env, evict) =>
      SettleGapless(s, who, entry, Decide(s.cfg, who, pod, entry, s.now, env), evict);
    case Ack(pod, id) => AckGapless(s.streams[pod], id);
    case ForceAck(pod, id) => AckGapless(s.streams[pod], id);
    case Trim(pod, k, _) =>
      assert PodOk(pod, s.streams[pod], s.now, s.copies, s.handed);
      TrimGapless(s.streams[pod], s.now, k);
    case Tick(_) =>
    case CreateGroup(_) =>
    case DropStream(_) =>
  }

  /** Trims take prefixes and ids only grow: in every reachable state a pending
      record whose entry is gone is older than everything still stored. */
  lemma {:induction false} RunsAreGapless(cfg: Config, pods: nat, es: seq<Event>)
    requires Run(Start(cfg, pods), es).Some?
    ensures AllGapless(Run(Start(cfg, pods), es).value)
  {
    if es != [] {
      var init := es[..|es| - 1];
      RunsAreGapless(cfg, pods, init);
      StartInv(cfg, pods);
      RunInv(Start(cfg, pods), init);
      GaplessStep(Run(Start(cfg, pods), init).value, es[|es| - 1]);
    }
  }
}
