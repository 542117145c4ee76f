/** What the commands of a worker come to when others act in between but leave the
    consumer group to it, and how the phases of a drain add up. */
module Drains {
  import opened StreamIds
  import opened RedisStreams
  import opened Cluster
  import opened WellFormed
  import opened StreamLaws
  import opened TrimFirst
  import opened Stranding
  import opened Departures
  import opened Batches
  import opened Rounds

  /** How Redis answered a read or a claim. */
  datatype Reply = Entries | Nothing | NoGroup | Trouble

  predicate Answered(reply: Reply) { reply.Entries? || reply.Nothing? }

  /** How many entries a read with this reply was ready to take. */
  function Asked(reply: Reply, cfg: Config): nat {
    if Answered(reply) then ReadCountOf(cfg) else 0
  }

  // ----- Passes -----

  lemma FinishedInv(s: State, h: Handout)
    requires Inv(s) && h in s.handed
    ensures Inv(s.(finished := s.finished + {h}))
  {
  }

  lemma PassStarts(s: State, who: nat, pod: nat, e: Entry, env: Env, evict: nat, mine: bool)
    requires Inv(s) && pod < |s.streams| && Handout(pod, e) in s.handed
    requires mine ==> InHands(s.streams[pod].pel, e)
    requires VerdictFits(s, Decide(s.cfg, who, pod, e, s.now, env), evict)
    ensures mine ==> IsPending(s.streams[pod], e.id)
    ensures var v := Decide(s.cfg, who, pod, e, s.now, env);
      var act := Act(if mine then Process(who, pod, e.id, env, evict) else Effect(who, pod, e, env, evict), true);
      && Enabled(s, act.event)
      && Leads(s, [act], Step(s, act.event)) && Passed([act]) == [e.id] && Envs([act]) == [env]
      && Inv(Step(s, act.event)) && Follows(s, Step(s, act.event)) && Step(s, act.event).now == s.now
      && Step(s, act.event) ==
         if v.Keep? then (if mine then WithStream(s, pod, SetHeld(s.streams[pod], e.id, 1)) else s)
         else if mine then AckAt(Settle(s, who, e, v, evict), pod, e.id)
         else Settle(s, who, e, v, evict).(finished := s.finished + {Handout(pod, e)})
  {
    hide Decide, InHands, Settle, SetHeld, Inv, Follows, Leads, Passed, Enabled, Step, IsPending;
    OneEnv(Act(if mine then Process(who, pod, e.id, env, evict) else Effect(who, pod, e, env, evict), true), env);
    if mine {
      SortedHere(s, pod);
      OwnPass(s, who, pod, e, env, evict);
      LeadsKeeps(s, [Act(Process(who, pod, e.id, env, evict), true)], Step(s, Process(who, pod, e.id, env, evict)));
    } else {
      LatePass(s, who, pod, e, env, evict);
    }
  }

  lemma OneEnv(act: Act, env: Env)
    requires act.own
    requires (act.event.Process? && act.event.env == env) || (act.event.Effect? && act.event.env == env)
    ensures Envs([act]) == [env]
  {
    assert [act][1..] == [];
  }

  lemma OneHeard(acts: seq<Act>, env: Env, tape: nat -> Env, k: nat, pods: nat)
    requires Envs(acts) == [env] && env == Heard(tape(k), pods)
    ensures OnTape(acts, tape, k, pods)
  {
  }

  /** How many entries i rounds ask for. */
  function Asking(i: nat, count: nat): nat {
    i * count
  }

  lemma AskingGrows(i: nat, count: nat)
    ensures Asking(0, count) == 0 && Asking(i + 1, count) == Asking(i, count) + count
    ensures Asking(10, count) == 10 * count && (i <= 10 ==> Asking(i, count) <= 10 * count)
  {
    assert i <= 10 ==> i * count + (10 - i) * count == 10 * count;
  }

  /** How many of the ticks find the pod dead and its lock free. */
  function Runs(ticks: seq<bool>): nat {
    if ticks == [] then 0 else Runs(ticks[..|ticks| - 1]) + if ticks[|ticks| - 1] then 1 else 0
  }

  lemma RunsNext(ticks: seq<bool>, i: nat)
    requires i < |ticks|
    ensures Runs(ticks[..i + 1]) == Runs(ticks[..i]) + if ticks[i] then 1 else 0
  {
    assert ticks[..i + 1][..i] == ticks[..i];
  }

  lemma EmptyIsPast(s: State, pod: nat)
    requires Inv(s) && pod < |s.streams|
    ensures s.streams[pod].entries == [] ==> InThePast(s.streams[pod].top, s.now)
  {
    SortedHere(s, pod);
  }

  lemma SettleStays(s: State, who: nat, pod: nat, e: Entry, v: Verdict, evict: nat)
    requires Inv(s) && pod < |s.streams| && VerdictFits(s, v, evict)
    ensures var t := Settle(s, who, e, v, evict);
      && Inv(t) && |t.streams| == |s.streams| && t.handed == s.handed && t.finished == s.finished && t.now == s.now
  {
    hide Inv, Settle;
    SettleInv(s, who, e, v, evict);
    SettlePel(s, who, e, v, evict, pod);
  }

  /** A pass of a worker that is alone with its group, after others' steps. */
  lemma AlonePass(s0: State, acts: seq<Act>, s1: State, who: nat, pod: nat, batch: seq<Entry>, i: nat, env: Env,
                  evict: nat)
    returns (added: seq<Entry>, gone: nat)
    requires Inv(s0) && Leads(s0, acts, s1) && AllLeaveGroup(Events(acts), pod) && pod < |s0.streams|
    requires i < |batch| && Waiting(s0.streams[pod].pel, batch, i) && HandedAll(s1, pod, batch)
    requires VerdictFits(s1, Decide(s1.cfg, who, pod, batch[i], s1.now, env), evict)
    ensures |s1.streams| == |s0.streams| && InHands(s1.streams[pod].pel, batch[i])
    ensures Enabled(s1, Process(who, pod, batch[i].id, env, evict))
    ensures var s2 := Step(s1, Process(who, pod, batch[i].id, env, evict));
      && |s2.streams| == |s0.streams|
      && Sole(s0, acts, s1, pod) && Sole(s1, [Act(Process(who, pod, batch[i].id, env, evict), true)], s2, pod)
      && Waiting(s2.streams[pod].pel, batch, i + 1)
      && OnePass(s0.streams[pod].pel, s2.streams[pod].pel, batch[i].id)
      && Grown(s0.streams[pod], s2.streams[pod], added, gone)
  {
    hide Inv, Step, OnePass, Grown, Decide, InHands, Run, Settle, SetHeld, NoneVanish, Passed;
    var e := Process(who, pod, batch[i].id, env, evict);
    var a, x := OthersGrow(s0, acts, s1, pod);
    LeadsKeeps(s0, acts, s1);
    SortedHere(s1, pod);
    OwnPass(s1, who, pod, batch[i], env, evict);
    PassPel(s1, who, pod, batch[i].id, env, evict);
    InvStep(s1, e);
    StepTakesOff(s1, e, pod);
    NoneVanishWithin(s1, Step(s1, e), pod, [], Passed([Act(e, true)]));
    SortedHere(Step(s1, e), pod);
    PassKeepsWaiting(s1.streams[pod].pel, Step(s1, e).streams[pod].pel, batch, i);
    var b, y := PassGrows(s1, e, pod);
    GrownJoin(s0.streams[pod], s1.streams[pod], Step(s1, e).streams[pod], a, x, b, y);
    added, gone := a + b, x + y;
  }

  /** Others who leave the group alone only add to the stream. */
  lemma OthersGrow(s: State, acts: seq<Act>, s': State, pod: nat) returns (added: seq<Entry>, gone: nat)
    requires Inv(s) && pod < |s.streams| && Leads(s, acts, s') && AllLeaveGroup(Events(acts), pod)
    ensures Sole(s, acts, s', pod) && |s'.streams| == |s.streams|
    ensures s'.streams[pod].pel == s.streams[pod].pel
    ensures Grown(s.streams[pod], s'.streams[pod], added, gone)
  {
    hide Inv, Run, NoneVanish, Grown, Passed;
    added, gone := PoliteRun(s, Events(acts), pod);
    RunTakesOff(s, Events(acts), pod);
    NoneVanishWithin(s, s', pod, [], Passed(acts));
  }

  lemma NoneVanishWithin(s: State, s': State, pod: nat, a: seq<Id>, b: seq<Id>)
    requires NoneVanish(s, s', pod, a) && forall id :: id in a ==> id in b
    ensures NoneVanish(s, s', pod, b)
  {
  }

  lemma GrownKeeps(st: Stream, st': Stream, added: seq<Entry>, gone: nat)
    requires Grown(st, st', added, gone)
    ensures st'.grouped == st.grouped
    ensures added == [] ==> st'.entries == st.entries && st'.cursor == st.cursor
  {
  }

  /** The worker's own step comes between what others append. */
  lemma GrownAround(r: Stream, s: Stream, s': Stream, t: Stream, a: seq<Entry>, x: nat, b: seq<Entry>, y: nat)
    requires Grown(r, s, a, x) && Grown(s, s', [], 0) && Grown(s', t, b, y)
    ensures Grown(r, t, a + b, x + y)
    ensures s.grouped == r.grouped && t.grouped == r.grouped
    ensures a + b == [] ==> s.entries == r.entries && s'.entries == r.entries && t.entries == r.entries
  {
    hide Grown;
    GrownJoin(r, s, s', a, x, [], 0);
    assert a + [] == a;
    GrownJoin(r, s', t, a, x, b, y);
    GrownKeeps(r, s, a, x);
    GrownKeeps(s, s', [], 0);
    GrownKeeps(s', t, b, y);
  }

  lemma OthersTook(s: State, acts: seq<Act>, s': State, pod: nat) returns (added: seq<Entry>, gone: nat)
    requires Inv(s) && pod < |s.streams| && Leads(s, acts, s') && AllLeaveGroup(Events(acts), pod)
    ensures Sole(s, acts, s', pod) && |s'.streams| == |s.streams|
    ensures var (st, st') := (s.streams[pod], s'.streams[pod]);
      && st'.pel == st.pel && st'.grouped == st.grouped
      && (added == [] ==> st'.entries == st.entries && st'.cursor == st.cursor)
      && Took(Unread(st), Unread(st'), added, gone, [], 0)
  {
    hide Took, Unread, Sole, Leads, Inv;
    added, gone := OthersGrow(s, acts, s', pod);
    GrownKeeps(s.streams[pod], s'.streams[pod], added, gone);
    GrownTook(s.streams[pod], s'.streams[pod], added, gone);
  }

  lemma TookDrained(u: seq<Entry>, v: seq<Entry>, added: seq<Entry>, gone: nat, ids: seq<Id>, n: nat)
    requires Took(u, v, added, gone, ids, n)
    ensures Drained(u, v, added, gone, 0)
  {
  }

  /** An own step, as far as every worker sees it. */
  lemma OwnStep(s: State, e: Event, pod: nat)
    requires Inv(s) && Enabled(s, e) && !e.Process? && !e.Effect? && !e.Ack? && pod < |s.streams|
    ensures Inv(Step(s, e)) && Follows(s, Step(s, e))
    ensures Leads(s, [Act(e, true)], Step(s, e)) && AllAtomic([Act(e, true)]) && Passed([Act(e, true)]) == []
    ensures !(e.Read? && e.pod == pod) ==> Sole(s, [Act(e, true)], Step(s, e), pod)
  {
    hide Inv, Step, Enabled, Follows, Leads, AllAtomic, NoneVanish;
    LeadsOne(s, e, true);
    LeadsKeeps(s, [Act(e, true)], Step(s, e));
    assert [Act(e, true)][1..] == [];
    if !(e.Read? && e.pod == pod) {
      StepTakesOff(s, e, pod);
    }
  }

  lemma ReadFrame(s: State, pod: nat, count: nat)
    requires Inv(s) && pod < |s.streams| && s.streams[pod].grouped
    ensures Enabled(s, Read(pod, count))
    ensures var e := Read(pod, count); var (st, s') := (s.streams[pod], Step(s, e)); var b := Batch(st, count);
      && Inv(s') && Follows(s, s') && s'.now == s.now
      && Leads(s, [Act(e, true)], s') && AllAtomic([Act(e, true)]) && Passed([Act(e, true)]) == []
      && s'.streams[pod].grouped == st.grouped
      && Waiting(s'.streams[pod].pel, b, 0) && HandedAll(s', pod, b)
      && Took(Unread(st), Unread(s'.streams[pod]), [], |b|, Ids(b), count)
      && NoneVanish(s, s', pod, Ids(b))
      && (b == [] && count > 0 ==> Unread(s'.streams[pod]) == [])
  {
    hide NoneVanish;
    hide Inv, Batch, Took, Waiting, Unread, XReadGroup, HandedAll, Leads, AllAtomic, Passed;
    OwnStep(s, Read(pod, count), pod);
    SortedHere(s, pod);
    ReadWaits(s.streams[pod], s.now, count);
    ReadIsHanded(s, pod, count);
    BatchIds(s.streams[pod], count);
    ReadTakesOff(s, pod, count, Ids(Batch(s.streams[pod], count)));
    ReadTook(s.streams[pod], s.now, count);
    ReadLeaves(s.streams[pod], s.now, count);
  }

  lemma BatchIds(st: Stream, count: nat)
    ensures forall x :: x in Batch(st, count) ==> x.id in Ids(Batch(st, count))
  {
    forall x | x in Batch(st, count)
      ensures x.id in Ids(Batch(st, count))
    {
      var b := Batch(st, count);
      var i :| 0 <= i < |b| && b[i] == x;
      assert Ids(b)[i] == x.id;
    }
  }

  /** A read whose batch is then passed over. */
  lemma ReadSole(s: State, read: seq<Act>, t: State, steps: seq<Act>, u: State, pod: nat, ids: seq<Id>)
    requires Leads(s, read, t) && AllAtomic(read) && Passed(read) == [] && NoneVanish(s, t, pod, ids)
    requires Leads(t, steps, u) && Sole(t, steps, u, pod) && Passed(steps) == ids
    ensures Leads(s, read + steps, u) && Sole(s, read + steps, u, pod) && Passed(read + steps) == ids
  {
    hide Leads, AllAtomic, NoneVanish, Passed;
    LeadsOn(s, read, t, steps, u);
    assert [] + ids == ids;
    NoneVanishJoin(s, t, u, pod, ids, ids);
    NoneVanishWithin(s, u, pod, ids + ids, ids);
  }

  lemma ReadLeaves(st: Stream, now: nat, count: nat)
    ensures XReadGroup(st, count, now).grouped == st.grouped
    ensures Batch(st, count) == [] && count > 0 ==> Unread(XReadGroup(st, count, now)) == []
  {
  }

  lemma CreateFrame(s: State, pod: nat)
    requires Inv(s) && pod < |s.streams|
    ensures var e := CreateGroup(pod); var (st, s') := (s.streams[pod], Step(s, e));
      && Inv(s') && Follows(s, s') && s'.now == s.now
      && Leads(s, [Act(e, true)], s') && Sole(s, [Act(e, true)], s', pod) && Passed([Act(e, true)]) == []
      && s'.streams[pod] == st.(grouped := true)
      && Unread(s'.streams[pod]) == Unread(st)
  {
    hide Inv, Leads, Sole, Passed;
    OwnStep(s, CreateGroup(pod), pod);
    SortedHere(s, pod);
  }

  lemma ClaimFrame(s: State, pod: nat, lo: nat, hi: nat)
    requires Inv(s) && pod < |s.streams| && lo <= hi <= |s.streams[pod].pel|
    ensures Enabled(s, Claim(pod, lo, hi))
    ensures var e := Claim(pod, lo, hi); var (st, s') := (s.streams[pod], Step(s, e));
      var b := Claimed(st.pel[lo..hi], st.entries, s.now, MinIdle(s.cfg));
      && Inv(s') && Follows(s, s') && s'.now == s.now
      && Leads(s, [Act(e, true)], s') && Sole(s, [Act(e, true)], s', pod) && Passed([Act(e, true)]) == []
      && SortedPel(st.pel)
      && s'.streams[pod] == XAutoClaim(st, lo, hi, s.now, MinIdle(s.cfg))
      && Waiting(s'.streams[pod].pel, b, 0) && HandedAll(s', pod, b)
      && Grown(st, s'.streams[pod], [], 0) && s'.streams[pod].entries == st.entries
  {
    hide Inv, Claimed, Waiting, Unread, HandedAll, Leads, Sole, Passed, ClaimPel, ClaimLost, SortedPel, Grown;
    OwnStep(s, Claim(pod, lo, hi), pod);
    SortedHere(s, pod);
    ClaimWaits(s.streams[pod], lo, hi, s.now, MinIdle(s.cfg));
    ClaimIsHanded(s, pod, lo, hi);
    GrownSame(s.streams[pod], Step(s, Claim(pod, lo, hi)).streams[pod]);
  }

  lemma ReadJoin(r0: Stream, r1: Stream, r2: Stream, r3: Stream, a: seq<Entry>, x: nat, n: nat, b: seq<Entry>,
                 y: nat, ids: seq<Id>, count: nat)
    requires Took(Unread(r0), Unread(r1), a, x, [], 0) && Took(Unread(r1), Unread(r2), [], n, ids, count)
    requires Grown(r2, r3, b, y)
    ensures Took(Unread(r0), Unread(r3), a + b, x + n + y, ids, count) && r3.grouped == r2.grouped
  {
    hide Took, Unread, Grown;
    GrownKeeps(r2, r3, b, y);
    GrownTook(r2, r3, b, y);
    TookThen(Unread(r0), Unread(r1), Unread(r2), a, x, n, ids, count);
    TookAnd(Unread(r0), Unread(r2), Unread(r3), a, x + n, ids, count, b, y);
  }

  lemma TookThen(u: seq<Entry>, v: seq<Entry>, w: seq<Entry>, a: seq<Entry>, x: nat, n: nat, ids: seq<Id>, count: nat)
    requires Took(u, v, a, x, [], 0) && Took(v, w, [], n, ids, count)
    ensures Took(u, w, a, x + n, ids, count)
  {
    hide Took;
    TookMore(u, v, w, a, x, [], 0, [], n, ids, count);
    assert a + [] == a;
    assert [] + ids == ids;
  }

  lemma TookAnd(u: seq<Entry>, v: seq<Entry>, w: seq<Entry>, a: seq<Entry>, x: nat, ids: seq<Id>, n: nat,
                b: seq<Entry>, y: nat)
    requires Took(u, v, a, x, ids, n) && Took(v, w, b, y, [], 0)
    ensures Took(u, w, a + b, x + y, ids, n)
  {
    hide Took;
    TookMore(u, v, w, a, x, ids, n, b, y, [], 0);
    assert ids + [] == ids;
  }

  /** Fewer records are stale than before, strictly or not. */
  ghost predicate Fresher(pel: seq<Pending>, pel': seq<Pending>, t0: nat, strictly: bool) {
    Stale(pel', t0) <= Stale(pel, t0) && (strictly ==> Stale(pel', t0) < Stale(pel, t0))
  }

  lemma StaleLeads(s: State, acts: seq<Act>, s': State, pod: nat, t0: nat)
    requires Leads(s, acts, s') && pod < |s.streams| && t0 <= s.now
    ensures |s'.streams| == |s.streams|
    ensures Fresher(s.streams[pod].pel, s'.streams[pod].pel, t0, false)
  {
    StaleRun(s, Events(acts), pod, t0);
  }

  lemma RoundFreshens(s0: State, s1: State, s2: State, steps: seq<Act>, s3: State, pod: nat, lo: nat, hi: nat,
                      t0: nat, until: nat)
    requires pod < |s0.streams| == |s1.streams| && t0 <= s1.now < until
    requires Fresher(s0.streams[pod].pel, s1.streams[pod].pel, t0, false)
    requires Enabled(s1, Claim(pod, lo, hi)) && s2 == Step(s1, Claim(pod, lo, hi)) && Leads(s2, steps, s3)
    ensures |s3.streams| == |s0.streams|
    ensures var st := s1.streams[pod];
      Fresher(s0.streams[pod].pel, s3.streams[pod].pel, t0,
              Claimed(st.pel[lo..hi], st.entries, s1.now, MinIdle(s1.cfg)) != [] && until <= t0 + MinIdle(s1.cfg))
  {
    hide Stale, ClaimPel, Claimed, ClaimLost, Losses, Leads;
    StaleClaim(s1.streams[pod], lo, hi, s1.now, MinIdle(s1.cfg), t0);
    StaleLeads(s2, steps, s3, pod, t0);
  }

  lemma RoundGoesOn(st0: Stream, st: Stream, st1: Stream, st': Stream, cfg: Config, now: nat, start: Id,
                    lo: nat, hi: nat, done: seq<Id>)
    requires RoundsSoFar(st0, st, cfg, now, start, done) && SortedPel(st1.pel)
    requires st1.entries == st.entries && st1.pel == st.pel && st'.entries == st1.entries
    requires Scan(st1, cfg, now, start, lo, hi)
    requires var b := Claimed(st1.pel[lo..hi], st1.entries, now, MinIdle(cfg));
      PassesOver(XAutoClaim(st1, lo, hi, now, MinIdle(cfg)).pel, st'.pel, Ids(b))
    ensures var b := Claimed(st1.pel[lo..hi], st1.entries, now, MinIdle(cfg));
      && (b != [] ==> RoundsSoFar(st0, st', cfg, now, NextStart(st1.pel, hi), done + Ids(b)))
      && (b == [] ==> done + Ids(b) == Ids(Reclaimed(st0, cfg, now)))
  {
    hide RoundsSoFar, SortedPel, Claimed, XAutoClaim, PassesOver, Reclaimed, NextStart;
    RoundsSame(st0, st, st1, cfg, now, start, done);
    var b := Claimed(st1.pel[lo..hi], st1.entries, now, MinIdle(cfg));
    if b == [] {
      RoundsEnd(st0, st1, cfg, now, start, lo, hi, done);
      assert done + [] == done;
    } else {
      RoundsNext(st0, st1, st', cfg, now, start, lo, hi, done);
    }
  }

  // ----- Force-acknowledging -----

  /** Each of the records has been put on record as dropped since `before`. */
  ghost predicate ForcedOff(before: seq<Outcome>, log: seq<Outcome>, pel: seq<Pending>) {
    && before <= log
    && (forall i :: 0 <= i < |pel| ==> Dropped(pel[i].entry, ForceAcked) in log[|before|..])
  }

  lemma NoneForced(log: seq<Outcome>)
    ensures ForcedOff(log, log, [])
  {
  }

  lemma ForcedStays(before: seq<Outcome>, log: seq<Outcome>, log': seq<Outcome>, pel: seq<Pending>)
    requires ForcedOff(before, log, pel) && log <= log'
    ensures ForcedOff(before, log', pel)
  {
    assert log'[|before|..] == log[|before|..] + log'[|log|..];
  }

  lemma ForcedMore(before: seq<Outcome>, log: seq<Outcome>, log': seq<Outcome>, pel: seq<Pending>, n: nat)
    requires n < |pel| && ForcedOff(before, log, pel[..n]) && log' == log + [Dropped(pel[n].entry, ForceAcked)]
    ensures ForcedOff(before, log', pel[..n + 1])
  {
    assert log'[|before|..] == log[|before|..] + [Dropped(pel[n].entry, ForceAcked)];
    forall i | 0 <= i < n + 1
      ensures Dropped(pel[i].entry, ForceAcked) in log'[|before|..]
    {
      if i < n {
        assert pel[..n][i] == pel[i];
      }
    }
  }

  lemma ForcedJoin(before: seq<Outcome>, mid: seq<Outcome>, log: seq<Outcome>, pel: seq<Pending>, n: nat, m: nat)
    requires n + m <= |pel| && ForcedOff(before, mid, pel[..n]) && ForcedOff(mid, log, pel[n..][..m])
    ensures ForcedOff(before, log, pel[..n + m]) && pel[n..][m..] == pel[n + m..]
  {
    assert log[|before|..] == mid[|before|..] + log[|mid|..];
    forall i | 0 <= i < n + m
      ensures Dropped(pel[i].entry, ForceAcked) in log[|before|..]
    {
      if i < n {
        assert pel[..n][i] == pel[i];
      } else {
        assert pel[n..][..m][i - n] == pel[i];
      }
    }
  }

  /** In a sorted list the first of the remaining records is found first. */
  /** The ids are those of the oldest records. */
  predicate Oldest(pel: seq<Pending>, ids: seq<Id>) {
    |ids| <= |pel| && forall i :: 0 <= i < |ids| ==> ids[i] == pel[i].entry.id
  }

  lemma FollowsWidth(s: State, s': State)
    requires Follows(s, s')
    ensures |s'.streams| == |s.streams|
  {
  }

  lemma NoEntries()
    ensures var none: seq<Entry> := []; none + none == none
  {
  }

  lemma FirstLeft(pel: seq<Pending>, i: nat)
    requires SortedPel(pel) && i < |pel|
    ensures IndexOf(pel[i..], pel[i].entry.id) == 0
    ensures Without(pel[i..], 0) == pel[i + 1..]
  {
    assert pel[i..][0] == pel[i];
  }

  lemma ForceFrame(s: State, pod: nat, id: Id)
    requires Inv(s) && pod < |s.streams| && IsPending(s.streams[pod], id)
    ensures Enabled(s, ForceAck(pod, id))
    ensures var e := ForceAck(pod, id); var (st, s') := (s.streams[pod], Step(s, e));
      && Inv(s') && Follows(s, s') && s'.now == s.now
      && Leads(s, [Act(e, true)], s') && Sole(s, [Act(e, true)], s', pod) && Passed([Act(e, true)]) == []
      && s'.streams[pod].pel == Without(st.pel, IndexOf(st.pel, id))
      && s'.log == s.log + [Dropped(Record(s, pod, id).entry, ForceAcked)]
      && Grown(st, s'.streams[pod], [], 0)
  {
    hide Inv, Leads, Sole, Passed, Grown;
    OwnStep(s, ForceAck(pod, id), pod);
    GrownSame(s.streams[pod], Step(s, ForceAck(pod, id)).streams[pod]);
  }

  // ----- Trims -----

  lemma PastFloorOk(s: State, pod: nat, retention: nat)
    requires pod < |s.streams| && 0 < retention && 0 < s.now
    ensures FloorOk(s.streams[pod], s.now, CutoffId(s.now, retention))
  {
  }

  lemma TrimFloorOk(s: State, pod: nat, cut: Id, floor: Id)
    requires Inv(s) && pod < |s.streams| && cut.ms < s.now
    requires floor == cut || (s.streams[pod].pel != [] && floor == s.streams[pod].pel[0].entry.id)
    ensures FloorOk(s.streams[pod], s.now, floor)
  {
    SortedHere(s, pod);
  }

  lemma FloorLeads(s: State, acts: seq<Act>, s': State, pod: nat, floor: Id)
    requires Inv(s) && Leads(s, acts, s') && pod < |s.streams| && FloorOk(s.streams[pod], s.now, floor)
    ensures |s'.streams| == |s.streams| && FloorOk(s'.streams[pod], s'.now, floor)
  {
    FloorLasts(s, Events(acts), pod, floor);
  }

  /** Below the floor is what is older than the retention, and nothing else. */
  ghost predicate FloorAtAge(floor: Id, now: nat, retention: nat) {
    forall id: Id :: Before(id, floor) <==> now - id.ms > retention
  }

  /** Of the stored entries exactly those no older than the retention are kept. */
  predicate KeepsByAge(st: Stream, st': Stream, now: nat, retention: nat) {
    forall x :: x in st.entries ==> (x in st'.entries <==> now - x.id.ms <= retention)
  }

  lemma CutoffAtAge(now: nat, retention: nat)
    ensures FloorAtAge(CutoffId(now, retention), now, retention)
  {
    forall id: Id
      ensures Before(id, CutoffId(now, retention)) <==> now - id.ms > retention
    {
      CutoffIsAge(now, retention, id);
    }
  }

  lemma TrimByAge(s: State, pod: nat, k: nat, floor: Id, now: nat, retention: nat)
    requires Inv(s) && Enabled(s, Trim(pod, k, floor)) && FloorAtAge(CutoffId(now, retention), now, retention)
    ensures var (st, s') := (s.streams[pod], Step(s, Trim(pod, k, floor)));
      && |s'.streams| == |s.streams|
      && (floor == CutoffId(now, retention) && k == Below(st.entries, floor) ==>
            KeepsByAge(st, s'.streams[pod], now, retention))
      && (floor == CutoffId(now, retention) ==>
            forall i :: 0 <= i < |st.entries| && now - st.entries[i].id.ms <= retention ==>
              st.entries[i] in s'.streams[pod].entries)
  {
    var (st, st') := (s.streams[pod], Step(s, Trim(pod, k, floor)).streams[pod]);
    SortedHere(s, pod);
    hide Inv, StreamOk, TrimLost, CutoffId;
    assert st'.entries == st.entries[k..];
    if floor == CutoffId(now, retention) {
      forall i | 0 <= i < |st.entries| && now - st.entries[i].id.ms <= retention
        ensures st.entries[i] in st'.entries
      {
        assert i >= k;
        assert st'.entries[i - k] == st.entries[i];
      }
      if k == Below(st.entries, floor) {
        forall x | x in st'.entries
          ensures now - x.id.ms <= retention
        {
          var i :| 0 <= i < |st'.entries| && st'.entries[i] == x;
          SortedBelow(st, s.now, floor, k + i);
        }
      }
    }
  }

  lemma SortedBelow(st: Stream, now: nat, floor: Id, i: nat)
    requires StreamOk(st, now) && Below(st.entries, floor) <= i < |st.entries|
    ensures !Before(st.entries[i].id, floor)
  {
    var n := Below(st.entries, floor);
    assert n < i ==> Before(st.entries[n].id, st.entries[i].id);
  }

  lemma AllLeaveBoth(a: seq<Act>, b: seq<Act>, pod: nat)
    requires AllLeaveGroup(Events(a), pod) && AllLeaveGroup(Events(b), pod)
    ensures AllLeaveGroup(Events(a + b), pod)
  {
    assert Events(a + b) == Events(a) + Events(b);
  }

  lemma TrimClock(s: State, pod: nat, k: nat, floor: Id)
    requires Enabled(s, Trim(pod, k, floor))
    ensures Step(s, Trim(pod, k, floor)).now == s.now
  {
  }

  lemma TrimFrame(s: State, pod: nat, k: nat, floor: Id) returns (lost: nat)
    requires Inv(s) && Enabled(s, Trim(pod, k, floor))
    ensures var e := Trim(pod, k, floor); var (st, s') := (s.streams[pod], Step(s, e));
      && Inv(s') && Follows(s, s') && s'.now == s.now
      && Leads(s, [Act(e, true)], s') && Sole(s, [Act(e, true)], s', pod) && Passed([Act(e, true)]) == []
      && Cut(st, k, floor) && s'.streams[pod] == XTrim(st, k) && lost == |TrimLost(st, k)|
      && Front(Unread(st), Unread(s'.streams[pod]), [], lost)
  {
    hide Inv, Leads, Sole, Passed, TrimLost, Losses, Unread;
    var st := s.streams[pod];
    OwnStep(s, Trim(pod, k, floor), pod);
    SortedHere(s, pod);
    TrimUnread(st, s.now, k);
    lost := |TrimLost(st, k)|;
    FrontDrop(Unread(st), lost);
  }

  /** What a drain that can read `reach` entries does to the unread part: a trim
      first, then reads. */
  ghost predicate Emptied(u: seq<Entry>, v: seq<Entry>, added: seq<Entry>, trimmed: nat, gone: nat, reach: nat) {
    && Front(u, v, added, trimmed + gone)
    && gone >= Min(reach, |u| - trimmed)
    && (added == [] ==> gone == Min(reach, |u| - trimmed))
  }

  // ----- A drain -----

  /** The k oldest entries all lie before the floor. */
  predicate Cut(st: Stream, k: nat, floor: Id) {
    k <= |st.entries| && forall i :: 0 <= i < k ==> Before(st.entries[i].id, floor)
  }

  /** From st to st' others appended `added`, the front lost `gone`, and among that
      was a trim of k entries before the floor; it was all if nothing was appended. */
  ghost predicate TrimmedTo(st: Stream, st': Stream, added: seq<Entry>, gone: nat, k: nat, floor: Id) {
    && st'.grouped && st'.pel == st.pel
    && Front(Unread(st), Unread(st'), added, gone)
    && (added == [] ==>
          && Cut(st, k, floor) && gone == |TrimLost(st, k)|
          && st'.entries == st.entries[k..] && st'.cursor == st.cursor)
  }

  lemma TrimmedJoin(r: Stream, s: Stream, t: Stream, u: Stream, a: seq<Entry>, x: nat, b: seq<Entry>, y: nat,
                    k: nat, lost: nat, floor: Id)
    requires s.grouped && s.pel == r.pel && Took(Unread(r), Unread(s), a, x, [], 0)
    requires t.grouped && t.pel == s.pel && Took(Unread(s), Unread(t), b, y, [], 0)
    requires a == [] ==> s.entries == r.entries && s.cursor == r.cursor
    requires b == [] ==> t.entries == s.entries && t.cursor == s.cursor
    requires Cut(t, k, floor) && u == XTrim(t, k) && Front(Unread(t), Unread(u), [], lost) && lost == |TrimLost(t, k)|
    ensures TrimmedTo(r, u, a + b, x + y + lost, k, floor)
  {
    hide Unread, Took, Front, TrimLost, Cut;
    TookFront(Unread(r), Unread(s), a, x);
    TookFront(Unread(s), Unread(t), b, y);
    FrontJoin(Unread(r), Unread(s), Unread(t), a, x, b, y);
    FrontJoin(Unread(r), Unread(t), Unread(u), a + b, x + y, [], lost);
    AddNothing(a + b);
    if a + b == [] {
      BothNothing(a, b);
      CutSame(r, t, k, floor);
    }
  }

  lemma AddNothing(a: seq<Entry>)
    ensures a + [] == a
  {
  }

  lemma BothNothing(a: seq<Entry>, b: seq<Entry>)
    requires a + b == []
    ensures a == [] && b == []
  {
    assert |a| + |b| == 0;
  }

  lemma CutSame(r: Stream, t: Stream, k: nat, floor: Id)
    requires t.entries == r.entries && t.cursor == r.cursor && Cut(t, k, floor)
    ensures Cut(r, k, floor) && TrimLost(r, k) == TrimLost(t, k)
    ensures XTrim(t, k).entries == r.entries[k..] && XTrim(t, k).cursor == r.cursor
    ensures XTrim(t, k).grouped == t.grouped && XTrim(t, k).pel == t.pel
  {
  }

  lemma ReworkJoin(r: Stream, s: Stream, t: Stream, a: seq<Entry>, x: nat, b: seq<Entry>, y: nat, ids: seq<Id>,
                   n: nat)
    requires Grown(r, s, a, x) && Took(Unread(s), Unread(t), b, y, ids, n)
    ensures Took(Unread(r), Unread(t), a + b, x + y, ids, n)
    ensures a + b == [] ==> ids == Ids(Batch(r, n))
  {
    GrownTook(r, s, a, x);
    hide Unread, Batch;
    TookMore(Unread(r), Unread(s), Unread(t), a, x, [], 0, b, y, ids, n);
    assert [] + ids == ids;
    if a + b == [] {
      BatchIsTake(r, n);
    }
  }

  lemma DropFrame(s: State, pod: nat)
    requires Inv(s) && pod < |s.streams| && InThePast(s.streams[pod].top, s.now)
    ensures Enabled(s, DropStream(pod))
    ensures var e := DropStream(pod); var s' := Step(s, e);
      && Inv(s') && Follows(s, s') && s'.now == s.now
      && Leads(s, [Act(e, true)], s') && Sole(s, [Act(e, true)], s', pod) && Passed([Act(e, true)]) == []
      && s'.streams[pod] == NO_STREAM
  {
    hide Inv, Leads, Sole, Passed, LiveEntries, Losses;
    OwnStep(s, DropStream(pod), pod);
  }

  lemma NothingUnread(st: Stream)
    ensures st.entries == [] ==> Unread(st) == []
  {
  }

  lemma TookFront(u: seq<Entry>, v: seq<Entry>, added: seq<Entry>, gone: nat)
    requires Took(u, v, added, gone, [], 0)
    ensures Front(u, v, added, gone) && (added == [] ==> gone == 0)
  {
  }

  lemma FrontTook(u: seq<Entry>, v: seq<Entry>, added: seq<Entry>, gone: nat)
    requires Front(u, v, added, gone) && (added == [] ==> gone == 0)
    ensures Took(u, v, added, gone, [], 0)
  {
    assert u[..0] == [];
    assert Ids([]) == [];
  }

  /** The answers to a drain's last commands: whether the force-acknowledgement,
      XLEN and XPENDING succeeded, and whether a delete would. */
  datatype Closing = Closing(acked: bool, lenOk: bool, pendOk: bool, deleteOk: bool)

  /** All but the delete. */
  predicate Fine(c: Closing) {
    c.acked && c.lenOk && c.pendOk
  }

  /** What they met: the stream at XLEN, with what was appended and lost before, the
      pending list left over, and the stream at the end, likewise. */
  datatype Met = Met(seen: Stream, early: seq<Entry>, earlyGone: nat, left: seq<Pending>,
                     last: Stream, late: seq<Entry>, lateGone: nat)

  /** A command that fails reads as an empty stream. */
  predicate LooksEmpty(c: Closing, m: Met) {
    (c.lenOk ==> m.seen.entries == []) && (c.pendOk ==> m.left == [])
  }

  predicate EndOf(left: seq<Pending>, pel: seq<Pending>) {
    |left| <= |pel| && left == pel[|pel| - |left|..]
  }

  /** The end of a drain, from st to st'. */
  ghost predicate Closed(st: Stream, st': Stream, c: Closing, m: Met, deleted: bool) {
    && Grown(st, m.seen, m.early, m.earlyGone)
    && Grown(m.seen, m.last, m.late, m.lateGone)
    && EndOf(m.left, st.pel) && m.last.pel == m.left && (c.acked ==> m.left == [])
    && (deleted <==> LooksEmpty(c, m) && c.deleteOk)
    && st' == if deleted then NO_STREAM else m.last
  }

  /** A drain deletes unread entries exactly when the delete goes through on a
      stream that looked empty, nothing being pending or XPENDING having failed,
      and either XLEN failed while entries were left unread, or something has been
      appended since. */
  lemma UnreadIsDeletedExactly(st: Stream, st': Stream, c: Closing, m: Met, deleted: bool)
    requires Closed(st, st', c, m, deleted)
    ensures Unread(st') != Unread(m.last) <==>
      && c.deleteOk && (c.pendOk ==> m.left == []) && (c.lenOk ==> m.seen.entries == [])
      && ((!c.lenOk && Unread(m.seen) != []) || m.late != [])
    ensures m.early == [] ==> Unread(m.seen) == Unread(st) && m.seen.entries == st.entries
    ensures Unread(st') == Unread(m.last) || Unread(st') == []
  {
    hide Unread, Grown, EndOf;
    NothingUnread(NO_STREAM);
    NothingUnread(m.seen);
    GrownEnds(st, m.seen, m.early, m.earlyGone);
    GrownEnds(m.seen, m.last, m.late, m.lateGone);
    if deleted {
      assert |Unread(st')| == 0;
      if m.late == [] {
        assert Unread(m.last) == Unread(m.seen);
      }
    }
  }

  lemma GrownEnds(st: Stream, st': Stream, added: seq<Entry>, gone: nat)
    requires Grown(st, st', added, gone)
    ensures added == [] ==> Unread(st') == Unread(st) && st'.entries == st.entries
    ensures added != [] ==> Unread(st') != []
    ensures st'.grouped == st.grouped
  {
    FrontLength(Unread(st), Unread(st'), added, gone);
    if added == [] {
      FrontSameIs(Unread(st), Unread(st'));
    }
  }

  lemma FrontSameIs<T>(u: seq<T>, v: seq<T>)
    requires Front(u, v, [], 0)
    ensures v == u
  {
    assert (u + [])[0..] == u;
  }

  /** With every answer there and nothing appended, a drain ends as it should. */
  lemma ClosedClean(st: Stream, st': Stream, c: Closing, m: Met, deleted: bool)
    requires Closed(st, st', c, m, deleted) && st.grouped && Fine(c)
    ensures st'.pel == [] && (if deleted then st' == NO_STREAM else st'.grouped)
    ensures m.early == [] && m.late == [] ==>
      && st'.entries == st.entries && Unread(st') == Unread(st)
      && (c.deleteOk ==> (deleted <==> st.entries == []))
  {
    hide Unread, Grown, EndOf;
    NothingUnread(NO_STREAM);
    NothingUnread(st);
    GrownEnds(st, m.seen, m.early, m.earlyGone);
    GrownEnds(m.seen, m.last, m.late, m.lateGone);
    if deleted {
      assert st' == NO_STREAM;
    } else {
      assert st' == m.last;
    }
  }

  lemma ClosedTook(st: Stream, st': Stream, c: Closing, m: Met, deleted: bool) returns (gone: nat)
    requires Closed(st, st', c, m, deleted) && c.lenOk
    ensures Took(Unread(st), Unread(st'), m.early + m.late, gone, [], 0)
  {
    hide Unread, Grown, Took, EndOf, Front;
    NothingUnread(NO_STREAM);
    NothingUnread(m.seen);
    GrownTook(st, m.seen, m.early, m.earlyGone);
    GrownTook(m.seen, m.last, m.late, m.lateGone);
    var all := m.early + m.late;
    if deleted {
      gone := |Unread(st)| + |all|;
      TookFront(Unread(st), Unread(m.seen), m.early, m.earlyGone);
      DeletedFront(Unread(st), Unread(m.seen), m.early, m.earlyGone, m.late);
      FrontTook(Unread(st), [], all, gone);
      assert Unread(st') == [];
    } else {
      gone := m.earlyGone + m.lateGone;
      TookMore(Unread(st), Unread(m.seen), Unread(m.last), m.early, m.earlyGone, [], 0, m.late, m.lateGone, [], 0);
      NoIds([]);
    }
  }

  lemma NoIds(ids: seq<Id>)
    ensures ids == [] ==> ids + ids == ids
  {
  }

  lemma DeletedFront(u: seq<Entry>, v: seq<Entry>, a: seq<Entry>, x: nat, b: seq<Entry>)
    requires Front(u, v, a, x) && v == [] && (a == [] ==> x == 0)
    ensures Front(u, [], a + b, |u| + |a + b|)
    ensures a + b == [] ==> |u| + |a + b| == 0
  {
    assert (u + (a + b))[|u| + |a + b|..] == [];
  }

  lemma DrainJoin(st: Stream, st': Stream, v: seq<Entry>, w: seq<Entry>, a: seq<Entry>, x: nat, k: nat, floor: Id,
                  b: seq<Entry>, y: nat, ids: seq<Id>, n: nat, c: seq<Entry>, z: nat)
    requires TrimmedTo(st, st', a, x, k, floor)
    requires Took(Unread(st'), v, b, y, ids, n) && Took(v, w, c, z, [], 0)
    ensures Emptied(Unread(st), w, a + b + c, x, y + z, n)
    ensures a + b + c == [] ==> Spent(Unread(st), x + (y + z), ids, floor)
  {
    var (u, v0) := (Unread(st), Unread(st'));
    if |a + b + c| == 0 {
      assert |a| == 0 && |b| == 0 && |c| == 0;
      TrimSpends(st, st', x, k, floor);
    }
    hide Unread, TrimLost, Cut, ReadCount;
    FrontLength(u, v0, a, x);
    TookMore(v0, v, w, b, y, ids, n, c, z, [], 0);
    FrontJoin(u, v0, w, a, x, b + c, y + z);
    assert a + (b + c) == a + b + c;
    if |a + b + c| == 0 {
      assert v0 == u[x..];
      assert y + z == y;
      ReadSpends(u, v0, x, y, ids, floor);
    }
  }

  /** Each of the first `gone` entries lies before the floor or under an id. */
  predicate Spent(u: seq<Entry>, gone: nat, ids: seq<Id>, floor: Id) {
    gone <= |u| && forall i :: 0 <= i < gone ==> Before(u[i].id, floor) || u[i].id in ids
  }

  lemma TrimSpends(st: Stream, st': Stream, gone: nat, k: nat, floor: Id)
    requires TrimmedTo(st, st', [], gone, k, floor)
    ensures Unread(st') == Unread(st)[gone..] && gone <= |Unread(st)|
    ensures forall i :: 0 <= i < gone ==> Before(Unread(st)[i].id, floor)
  {
    var u, r := Unread(st), ReadCount(st.entries, st.cursor);
    assert u + [] == u;
    forall i | 0 <= i < gone
      ensures Before(u[i].id, floor)
    {
      assert u[i] == st.entries[r + i];
    }
  }

  lemma ReadSpends(u: seq<Entry>, v: seq<Entry>, x: nat, y: nat, ids: seq<Id>, floor: Id)
    requires x <= |u| && v == u[x..] && y <= |v| && ids == Ids(v[..y])
    requires forall i :: 0 <= i < x ==> Before(u[i].id, floor)
    ensures Spent(u, x + y, ids, floor)
  {
    forall i | x <= i < x + y
      ensures u[i].id in ids
    {
      assert v[..y][i - x] == u[i];
      assert ids[i - x] == u[i].id;
    }
  }

  /** A later floor and further ids. */
  lemma SpentMore(u: seq<Entry>, gone: nat, ids: seq<Id>, floor: Id, ids': seq<Id>, floor': Id)
    requires Spent(u, gone, ids, floor) && !Before(floor', floor) && forall id :: id in ids ==> id in ids'
    ensures Spent(u, gone, ids', floor')
  {
  }

  lemma SpentJoin(u: seq<Entry>, v: seq<Entry>, x: nat, ids: seq<Id>, y: nat, ids': seq<Id>, floor: Id)
    requires Spent(u, x, ids, floor) && v == u[x..] && Spent(v, y, ids', floor)
    ensures Spent(u, x + y, ids + ids', floor)
  {
    forall i | x <= i < x + y
      ensures Before(u[i].id, floor) || u[i].id in ids + ids'
    {
      assert v[i - x] == u[i];
    }
  }

  lemma CutoffLater(now: nat, later: nat, retention: nat)
    requires now <= later
    ensures !Before(CutoffId(later, retention), CutoffId(now, retention))
  {
  }

  lemma ClosedFront(st: Stream, st': Stream, c: Closing, m: Met, deleted: bool) returns (gone: nat)
    requires Closed(st, st', c, m, deleted)
    ensures Front(Unread(st), Unread(st'), m.early + m.late, gone)
  {
    hide Unread, EndOf;
    NothingUnread(NO_STREAM);
    FrontJoin(Unread(st), Unread(m.seen), Unread(m.last), m.early, m.earlyGone, m.late, m.lateGone);
    hide Front;
    gone := m.earlyGone + m.lateGone;
    if deleted {
      gone := |Unread(st)| + |m.early + m.late|;
      AllOff(Unread(st), m.early + m.late);
    }
  }

  lemma AllOff(u: seq<Entry>, added: seq<Entry>)
    ensures Front(u, [], added, |u| + |added|)
  {
    assert (u + added)[|u| + |added|..] == [];
  }

  // ----- A whole drain -----

  /** Its stages: the trim, with what others appended before it; the stream then;
      the reads, with the ids they took off the front; the stream then; the end. */
  datatype Drain = Drain(k: nat, at: nat, trimmed: nat, early: seq<Entry>, cut: Stream,
                         added: seq<Entry>, gone: nat, n: nat, ids: seq<Id>, worked: Stream, end: Met)

  function AddedIn(d: Drain): seq<Entry> {
    d.early + d.added + (d.end.early + d.end.late)
  }

  ghost predicate DrainFits(st: Stream, st': Stream, clean: bool, c: Closing, deleted: bool, passed: seq<Id>, d: Drain,
                            cfg: Config, t0: nat, t1: nat) {
    && t0 <= d.at <= t1
    && TrimmedTo(st, d.cut, d.early, d.trimmed, d.k, CutoffId(d.at, DeadRetention(cfg)))
    && Took(Unread(d.cut), Unread(d.worked), d.added, d.gone, d.ids, d.n)
    && d.n <= 10 * ReadCountOf(cfg) && (clean ==> d.n == 10 * ReadCountOf(cfg))
    && (forall id :: id in d.ids ==> id in passed)
    && d.worked.grouped
    && Closed(d.worked, st', c, d.end, deleted)
    && (clean && d.early == [] && d.added == [] && t0 == t1 ==>
          && d.k <= |st.entries|
          && passed == Ids(Reclaimed(XTrim(st, d.k), cfg, t0)) + Ids(Reached(XTrim(st, d.k), cfg)))
  }

  lemma DrainIs(st: Stream, st': Stream, clean: bool, c: Closing, deleted: bool, passed: seq<Id>, d: Drain, cfg: Config,
                t0: nat, t1: nat, t2: nat, t3: nat)
    requires t0 <= d.at <= t1 <= t2 <= t3
    requires TrimmedTo(st, d.cut, d.early, d.trimmed, d.k, CutoffId(d.at, DeadRetention(cfg)))
    requires Took(Unread(d.cut), Unread(d.worked), d.added, d.gone, d.ids, d.n)
    requires d.n <= 10 * ReadCountOf(cfg) && (clean ==> d.n == 10 * ReadCountOf(cfg))
    requires (forall id :: id in d.ids ==> id in passed) && d.worked.grouped == d.cut.grouped
    requires Closed(d.worked, st', c, d.end, deleted)
    requires clean && d.added == [] && t1 == t2 ==>
      passed == Ids(Reclaimed(d.cut, cfg, t2)) + Ids(Reached(d.cut, cfg))
    ensures DrainFits(st, st', clean, c, deleted, passed, d, cfg, t0, t3)
  {
    hide Unread, Closed, Took, HandledList, ClaimRounds, Front, TrimLost;
    if d.early == [] {
      SameDrain(st, d.cut, d.k, cfg, t0);
    }
  }

  lemma SameDrain(st: Stream, cut: Stream, k: nat, cfg: Config, now: nat)
    requires k <= |st.entries| && cut.pel == st.pel && cut.entries == st.entries[k..] && cut.cursor == st.cursor
    ensures Reclaimed(cut, cfg, now) == Reclaimed(XTrim(st, k), cfg, now)
    ensures Reached(cut, cfg) == Reached(XTrim(st, k), cfg)
  {
  }

  /** What a drain without a failing command achieves: nothing is left pending, and
      ten reads' worth of what the trim leaves is taken off the front, or all of it.
      If nothing is appended meanwhile, the stream is deleted exactly when it is left
      empty; what goes are the trimmed entries, all of them beyond the retention, and
      the reads' exactly, passed over; and with the clock still these and the
      reclaimed ones are just what the drain's rounds work on. */
  ghost predicate DrainedWell(st: Stream, st': Stream, c: Closing, deleted: bool, passed: seq<Id>, d: Drain,
                              cfg: Config, still: bool, now: nat) {
    var u := Unread(st);
    var v := Unread(st');
    var reach := 10 * ReadCountOf(cfg);
    && st'.pel == [] && (if deleted then st' == NO_STREAM else st'.grouped)
    && (exists gone: nat :: Emptied(u, v, AddedIn(d), d.trimmed, gone, reach))
    && (AddedIn(d) == [] ==>
          && (c.deleteOk ==> (deleted <==> st'.entries == []))
          && Cut(st, d.k, CutoffId(d.at, DeadRetention(cfg))) && d.trimmed == |TrimLost(st, d.k)|
          && |u| - |v| == d.trimmed + Min(reach, |u| - d.trimmed)
          && v == u[|u| - |v|..]
          && Spent(u, |u| - |v|, passed, CutoffId(d.at, DeadRetention(cfg)))
          && (still ==>
                passed == Ids(Reclaimed(XTrim(st, d.k), cfg, now)) + Ids(Reached(XTrim(st, d.k), cfg))))
  }

  lemma DrainAchieves(st: Stream, st': Stream, c: Closing, deleted: bool, passed: seq<Id>, d: Drain, cfg: Config,
                      t0: nat, t1: nat)
    requires DrainFits(st, st', true, c, deleted, passed, d, cfg, t0, t1) && Fine(c)
    ensures DrainedWell(st, st', c, deleted, passed, d, cfg, t0 == t1, t0)
  {
    hide Unread, Took, Front, Spent, Reclaimed, Reached, Cut, TrimLost, Emptied, TrimmedTo, Closed;
    var floor := CutoffId(d.at, DeadRetention(cfg));
    var z := ClosedTook(d.worked, st', c, d.end, deleted);
    ClosedClean(d.worked, st', c, d.end, deleted);
    DrainJoin(st, d.cut, Unread(d.worked), Unread(st'), d.early, d.trimmed, d.k, floor,
              d.added, d.gone, d.ids, d.n, d.end.early + d.end.late, z);
    if |AddedIn(d)| == 0 {
      NothingAdded(d);
      TrimmedCuts(st, d.cut, d.trimmed, d.k, floor);
      SpentMore(Unread(st), d.trimmed + (d.gone + z), d.ids, floor, passed, floor);
      EmptiedLength(Unread(st), Unread(st'), d.trimmed, d.gone + z, d.n);
    }
    assert Emptied(Unread(st), Unread(st'), AddedIn(d), d.trimmed, d.gone + z, 10 * ReadCountOf(cfg));
  }

  lemma NothingAdded(d: Drain)
    requires |AddedIn(d)| == 0
    ensures d.early == [] && d.added == [] && d.end.early == [] && d.end.late == []
    ensures d.early + d.added + (d.end.early + d.end.late) == []
  {
  }

  lemma NothingIn(d: Drain)
    ensures AddedIn(d) == [] ==> d.end.early == [] && d.end.late == []
  {
    if |AddedIn(d)| == 0 {
      NothingAdded(d);
    }
  }

  lemma TrimmedKeeps(st: Stream, st': Stream, added: seq<Entry>, gone: nat, k: nat, floor: Id)
    requires TrimmedTo(st, st', added, gone, k, floor)
    ensures st'.grouped
  {
  }

  lemma TrimmedCuts(st: Stream, st': Stream, gone: nat, k: nat, floor: Id)
    requires TrimmedTo(st, st', [], gone, k, floor)
    ensures Cut(st, k, floor) && gone == |TrimLost(st, k)|
  {
  }

  lemma EmptiedLength(u: seq<Entry>, v: seq<Entry>, trimmed: nat, gone: nat, reach: nat)
    requires Emptied(u, v, [], trimmed, gone, reach)
    ensures |u| - |v| == trimmed + gone && gone == Min(reach, |u| - trimmed)
    ensures v == u[|u| - |v|..]
  {
    assert u + [] == u;
  }

  lemma TookSpent(u: seq<Entry>, v: seq<Entry>, added: seq<Entry>, gone: nat, ids: seq<Id>, floor: Id)
    requires Took(u, v, added, gone, [], 0)
    ensures added == [] ==> Spent(u, gone, ids, floor)
  {
  }

  /** Others' steps and then a drain, whether or not all its commands succeed. */
  lemma PassJoin(r: Stream, st: Stream, st': Stream, a: seq<Entry>, x: nat, clean: bool, c: Closing, deleted: bool,
                 passed: seq<Id>, d: Drain, cfg: Config, t0: nat, t1: nat)
    returns (added: seq<Entry>, gone: nat)
    requires Took(Unread(r), Unread(st), a, x, [], 0)
    requires DrainFits(st, st', clean, c, deleted, passed, d, cfg, t0, t1)
    ensures var ok := clean && Fine(c);
      && Drained(Unread(r), Unread(st'), added, gone, if ok then 10 * ReadCountOf(cfg) else 0)
      && (ok && added == [] ==> Spent(Unread(r), gone, passed, CutoffId(t1, DeadRetention(cfg))))
      && (ok ==> st'.pel == [])
  {
    hide Unread, Took, Front, Spent, Reclaimed, Reached, Cut, TrimLost, TrimmedTo, Closed, Emptied, Drained;
    var (u, v, w) := (Unread(r), Unread(st), Unread(st'));
    TookDrained(u, v, a, x, [], 0);
    if clean && Fine(c) {
      DrainAchieves(st, st', c, deleted, passed, d, cfg, t0, t1);
      var y: nat :| Emptied(v, w, AddedIn(d), d.trimmed, y, 10 * ReadCountOf(cfg));
      EmptiedDrains(v, w, AddedIn(d), d.trimmed, y, 10 * ReadCountOf(cfg));
      DrainedMore(u, v, w, a, x, 0, AddedIn(d), d.trimmed + y, 10 * ReadCountOf(cfg));
      added, gone := a + AddedIn(d), x + (d.trimmed + y);
      if |added| == 0 {
        assert |a| == 0 && |AddedIn(d)| == 0;
        TookNone(u, v, x);
        EmptiedLength(v, w, d.trimmed, y, 10 * ReadCountOf(cfg));
        CutoffLater(d.at, t1, DeadRetention(cfg));
        SpentMore(v, gone, passed, CutoffId(d.at, DeadRetention(cfg)), passed, CutoffId(t1, DeadRetention(cfg)));
      }
    } else {
      var z := ClosedFront(d.worked, st', c, d.end, deleted);
      TrimmedFront(st, d.cut, d.early, d.trimmed, d.k, CutoffId(d.at, DeadRetention(cfg)));
      TookDrained(Unread(d.cut), Unread(d.worked), d.added, d.gone, d.ids, d.n);
      DrainedFront(Unread(d.cut), Unread(d.worked), d.added, d.gone, 0);
      DrainedFront(u, v, a, x, 0);
      FrontJoin(u, v, Unread(d.cut), a, x, d.early, d.trimmed);
      FrontJoin(u, Unread(d.cut), Unread(d.worked), a + d.early, x + d.trimmed, d.added, d.gone);
      FrontJoin(u, Unread(d.worked), w, a + d.early + d.added, x + d.trimmed + d.gone, d.end.early + d.end.late, z);
      added, gone := a + d.early + d.added + (d.end.early + d.end.late), x + d.trimmed + d.gone + z;
      DrainedFront(u, w, added, gone, 0);
    }
  }

  lemma TrimmedFront(st: Stream, st': Stream, added: seq<Entry>, gone: nat, k: nat, floor: Id)
    requires TrimmedTo(st, st', added, gone, k, floor)
    ensures Front(Unread(st), Unread(st'), added, gone) && st'.grouped
  {
  }

  lemma DrainedFront(u: seq<Entry>, v: seq<Entry>, added: seq<Entry>, gone: nat, n: nat)
    ensures n == 0 ==> (Drained(u, v, added, gone, n) <==> Front(u, v, added, gone))
  {
  }

  lemma EmptiedDrains(u: seq<Entry>, v: seq<Entry>, added: seq<Entry>, trimmed: nat, gone: nat, reach: nat)
    requires Emptied(u, v, added, trimmed, gone, reach)
    ensures Drained(u, v, added, trimmed + gone, reach)
  {
  }

  lemma TookNone(u: seq<Entry>, v: seq<Entry>, gone: nat)
    requires Took(u, v, [], gone, [], 0)
    ensures v == u && gone == 0
  {
    assert u + [] == u;
  }

  lemma PassesSpend(u: seq<Entry>, v: seq<Entry>, w: seq<Entry>, a: seq<Entry>, x: nat, n: nat, ids: seq<Id>,
                    b: seq<Entry>, y: nat, ids': seq<Id>, t0: nat, t1: nat, retention: nat)
    requires Drained(u, v, a, x, n) && a + b == [] && t0 <= t1
    requires a == [] ==> Spent(u, x, ids, CutoffId(t0, retention))
    requires b == [] ==> Spent(v, y, ids', CutoffId(t1, retention))
    ensures Spent(u, x + y, ids + ids', CutoffId(t1, retention))
  {
    assert |a| == 0 && |b| == 0;
    assert u + [] == u;
    assert v == u[x..];
    hide Drained, Front;
    CutoffLater(t0, t1, retention);
    SpentMore(u, x, ids, CutoffId(t0, retention), ids, CutoffId(t1, retention));
    hide Spent, CutoffId;
    SpentJoin(u, v, x, ids, y, ids', CutoffId(t1, retention));
  }

  // ----- What a delete can take -----

  function FirstEntry(m: Message): Entry {
    Entry(Id(0, 1), m.client, m.payload, 0, 0)
  }

  const BARE := Stream([], ZERO, true, ZERO, [])

  function Bearing(m: Message): Stream {
    Stream([FirstEntry(m)], Id(0, 1), true, ZERO, [])
  }

  /** A message comes to an empty stream. */
  lemma OneArrives(cfg: Config, m: Message)
    requires cfg.maxLen <= 0
    ensures var es := [CreateGroup(0), Publish(0, m, 0), Tick(1)]; var s0 := Start(cfg, 1);
      && Run(s0, es[..1]).Some? && Run(s0, es[..1]).value.streams == [BARE]
      && Run(s0, es).Some?
      && Run(s0, es).value.streams == [Bearing(m)] && Run(s0, es).value.now == 1 && Run(s0, es).value.log == []
  {
    var es := [CreateGroup(0), Publish(0, m, 0), Tick(1)];
    var s0 := Start(cfg, 1);
    var s1 := Step(s0, CreateGroup(0));
    assert es[..0] == [] && es[..1] == es[..0] + [CreateGroup(0)];
    assert es[..2] == es[..1] + [Publish(0, m, 0)] && es == es[..2] + [Tick(1)];
    assert s1.streams == [BARE];
    RunSnoc(s0, es[..0], CreateGroup(0));
    RunSnoc(s0, es[..1], Publish(0, m, 0));
    var s2 := Step(s1, Publish(0, m, 0));
    assert s2.streams[0].entries == [FirstEntry(m)] && s2.log == [];
    RunSnoc(s0, es[..2], Tick(1));
    assert Step(s2, Tick(1)).streams == [Bearing(m)];
  }

  /** And the stream is deleted, the message unread. */
  lemma DeletedUnread(cfg: Config, m: Message)
    requires cfg.maxLen <= 0
    ensures var es := [CreateGroup(0), Publish(0, m, 0), Tick(1), DropStream(0)]; var s0 := Start(cfg, 1);
      && Run(s0, es[..1]).Some? && Run(s0, es[..1]).value.streams == [BARE]
      && Run(s0, es[..3]).Some? && Run(s0, es[..3]).value.streams == [Bearing(m)]
      && Run(s0, es).Some? && Run(s0, es).value.streams == [NO_STREAM]
      && Run(s0, es).value.log == [Dropped(FirstEntry(m), Deleted)]
  {
    var es := [CreateGroup(0), Publish(0, m, 0), Tick(1), DropStream(0)];
    OneArrives(cfg, m);
    assert es[..3] == [CreateGroup(0), Publish(0, m, 0), Tick(1)] && es[..3][..1] == es[..1];
    assert es == es[..3] + [DropStream(0)];
    hide Run;
    var s3 := Run(Start(cfg, 1), es[..3]).value;
    assert LiveEntries(Bearing(m)) == [FirstEntry(m)];
    RunSnoc(Start(cfg, 1), es[..3], DropStream(0));
    assert Step(s3, DropStream(0)).streams == [NO_STREAM];
  }

  lemma BearingGrows(m: Message)
    ensures Unread(BARE) == [] && Unread(Bearing(m)) == [FirstEntry(m)]
    ensures Grown(BARE, BARE, [], 0) && Grown(BARE, Bearing(m), [FirstEntry(m)], 0)
    ensures Grown(Bearing(m), Bearing(m), [], 0)
  {
    hide Unread, Front, Grown;
    NothingUnread(BARE);
    AllUnread(Bearing(m));
    GrownSame(BARE, BARE);
    GrownSame(Bearing(m), Bearing(m));
    OneInFront(Unread(BARE), FirstEntry(m), Unread(Bearing(m)));
    GrownByOne(m);
  }

  lemma GrownByOne(m: Message)
    requires Front(Unread(BARE), Unread(Bearing(m)), [FirstEntry(m)], 0)
    ensures Grown(BARE, Bearing(m), [FirstEntry(m)], 0)
  {
    hide Unread, Front;
  }

  lemma AllUnread(st: Stream)
    requires st.cursor == ZERO && (st.entries != [] ==> Before(ZERO, st.entries[0].id))
    ensures Unread(st) == st.entries
  {
    ReadCountIs(st.entries, st.cursor, 0);
    assert st.entries[0..] == st.entries;
  }

  lemma OneInFront(u: seq<Entry>, e: Entry, v: seq<Entry>)
    requires |u| == 0 && |v| == 1 && v[0] == e
    ensures Front(u, v, [e], 0)
  {
    var w := u + [e];
    assert |w| == 1 && w[0] == e;
    assert w[0..] == w;
    assert v == w;
  }

  /** In it the drain may have looked before the message came, with every answer. */
  lemma PublishedAfterTheLook(cfg: Config, m: Message)
    requires cfg.maxLen <= 0
    ensures var es := [CreateGroup(0), Publish(0, m, 0), Tick(1), DropStream(0)]; var s0 := Start(cfg, 1);
      && Run(s0, es[..1]).Some? && Run(s0, es[..1]).value.streams == [BARE]
      && Run(s0, es[..3]).Some? && Run(s0, es[..3]).value.streams == [Bearing(m)]
      && Run(s0, es).Some? && Run(s0, es).value.streams == [NO_STREAM]
      && Closed(BARE, NO_STREAM, Closing(true, true, true, true),
                Met(BARE, [], 0, [], Bearing(m), [FirstEntry(m)], 0), true)
      && Unread(Bearing(m)) == [FirstEntry(m)] && Run(s0, es).value.log == [Dropped(FirstEntry(m), Deleted)]
  {
    hide Run, Unread, Grown;
    DeletedUnread(cfg, m);
    BearingGrows(m);
  }

  /** Or XLEN has failed with the message long there. */
  lemma UnansweredLook(cfg: Config, m: Message)
    requires cfg.maxLen <= 0
    ensures var es := [CreateGroup(0), Publish(0, m, 0), Tick(1), DropStream(0)]; var s0 := Start(cfg, 1);
      && Run(s0, es[..3]).Some? && Run(s0, es[..3]).value.streams == [Bearing(m)]
      && Run(s0, es).Some? && Run(s0, es).value.streams == [NO_STREAM]
      && Closed(Bearing(m), NO_STREAM, Closing(true, false, true, true),
                Met(Bearing(m), [], 0, [], Bearing(m), [], 0), true)
      && Unread(Bearing(m)) == [FirstEntry(m)] && Run(s0, es).value.log == [Dropped(FirstEntry(m), Deleted)]
  {
    hide Run, Unread, Grown;
    DeletedUnread(cfg, m);
    BearingGrows(m);
  }
}
