/** How entries leave the unread part of a stream: by a read, or on record. */
module Departures {
  import opened StreamIds
  import opened RedisStreams
  import opened Cluster
  import opened WellFormed
  import opened Stranding

  /** Put on record, since `before`, as trimmed or as deleted with its stream. */
  ghost predicate TakenOff(before: seq<Outcome>, log: seq<Outcome>, x: Entry) {
    exists k :: |before| <= k < |log| && (log[k] == Dropped(x, Trimmed) || log[k] == Dropped(x, Deleted))
  }

  /** Each entry unread before is unread still, or was handed out under one of the
      ids, or has been taken off on record. */
  ghost predicate NoneVanish(s: State, s': State, pod: nat, ids: seq<Id>) {
    && pod < |s.streams| == |s'.streams| && s.log <= s'.log
    && (forall x :: x in Unread(s.streams[pod]) ==>
          x in Unread(s'.streams[pod]) || x.id in ids || TakenOff(s.log, s'.log, x))
  }

  lemma NoneVanishSame(s: State, s': State, pod: nat)
    requires pod < |s.streams| == |s'.streams| && s.log <= s'.log
    requires Unread(s'.streams[pod]) == Unread(s.streams[pod])
    ensures NoneVanish(s, s', pod, [])
  {
  }

  lemma TakenOffStays(before: seq<Outcome>, mid: seq<Outcome>, log: seq<Outcome>, x: Entry)
    requires before <= mid <= log
    ensures TakenOff(before, mid, x) ==> TakenOff(before, log, x)
    ensures TakenOff(mid, log, x) ==> TakenOff(before, log, x)
  {
    if TakenOff(before, mid, x) {
      var k :| |before| <= k < |mid| && (mid[k] == Dropped(x, Trimmed) || mid[k] == Dropped(x, Deleted));
      assert log[k] == mid[k];
    }
  }

  lemma NoneVanishJoin(s: State, t: State, u: State, pod: nat, a: seq<Id>, b: seq<Id>)
    requires NoneVanish(s, t, pod, a) && NoneVanish(t, u, pod, b)
    ensures NoneVanish(s, u, pod, a + b)
  {
    hide Unread, TakenOff;
    forall x | x in Unread(s.streams[pod])
      ensures x in Unread(u.streams[pod]) || x.id in a + b || TakenOff(s.log, u.log, x)
    {
      TakenOffStays(s.log, t.log, u.log, x);
    }
  }

  lemma NoneVanishOn(s: State, t: State, u: State, pod: nat)
    requires NoneVanish(s, t, pod, []) && NoneVanish(t, u, pod, [])
    ensures NoneVanish(s, u, pod, [])
  {
    hide NoneVanish;
    var none: seq<Id> := [];
    NoneVanishJoin(s, t, u, pod, none, none);
    assert none + none == none;
  }

  lemma LossTakesOff(before: seq<Outcome>, es: seq<Entry>, why: Reason, x: Entry)
    requires x in es && (why.Trimmed? || why.Deleted?)
    ensures TakenOff(before, before + Losses(es, why), x)
  {
    var i :| 0 <= i < |es| && es[i] == x;
    assert (before + Losses(es, why))[|before| + i] == Dropped(x, why);
  }

  lemma EvictTakesOff(s: State, to: nat, k: nat, pod: nat)
    requires to < |s.streams| && StreamOk(s.streams[to], s.now) && k <= |s.streams[to].entries| && pod < |s.streams|
    ensures NoneVanish(s, Evict(s, to, k), pod, [])
  {
    var (st, lost) := (s.streams[to], TrimLost(s.streams[to], k));
    TrimUnread(st, s.now, k);
    hide Unread, TrimLost, XTrim, TakenOff, StreamOk, Losses;
    forall x | x in Unread(s.streams[pod])
      ensures x in Unread(Evict(s, to, k).streams[pod]) || TakenOff(s.log, Evict(s, to, k).log, x)
    {
      if to == pod {
        assert x in lost || x in Unread(XTrim(st, k));
        if x in lost {
          LossTakesOff(s.log, lost, Trimmed, x);
        }
      }
    }
  }

  lemma AppendTakesOff(s: State, to: nat, m: Message, token: nat, evict: nat, pod: nat)
    requires Inv(s) && to < |s.streams| && CanEvict(s, to, evict) && pod < |s.streams|
    ensures NoneVanish(s, Append(s, to, m, token, evict), pod, [])
  {
    var (st, e) := (s.streams[to], NewEntry(s, to, m, token));
    var mid := WithStream(s, to, XAdd(st, e)).(copies := s.copies + 1);
    SortedHere(s, to);
    AddedIsUnread(st, s.now, e);
    hide Unread, XAdd, NewEntry, TakenOff, StreamOk, Evict;
    assert NoneVanish(s, mid, pod, []);
    EvictTakesOff(mid, to, evict, pod);
    NoneVanishOn(s, mid, Append(s, to, m, token, evict), pod);
  }

  lemma SettleTakesOff(s: State, who: nat, e: Entry, v: Verdict, evict: nat, pod: nat)
    requires Inv(s) && VerdictFits(s, v, evict) && pod < |s.streams|
    ensures NoneVanish(s, Settle(s, who, e, v, evict), pod, [])
  {
    hide Inv, Append, Unread;
    if v.Move? {
      AppendTakesOff(s, v.to, Message(e.client, e.payload), e.token, evict, pod);
    } else {
      NoneVanishSame(s, Settle(s, who, e, v, evict), pod);
    }
  }

  lemma PelsApart(s: State, s': State, pod: nat, to: nat, pel: seq<Pending>)
    requires to < |s.streams| && pod < |s.streams| && s.log <= s'.log
    requires s'.streams == s.streams[to := s.streams[to].(pel := pel)]
    ensures NoneVanish(s, s', pod, [])
  {
    NoneVanishSame(s, s', pod);
  }

  lemma ProcessTakesOff(s: State, e: Event, pod: nat)
    requires Inv(s) && e.Process? && Enabled(s, e) && pod < |s.streams|
    ensures NoneVanish(s, Step(s, e), pod, [])
  {
    var entry := Record(s, e.pod, e.id).entry;
    var v := Decide(s.cfg, e.who, e.pod, entry, s.now, e.env);
    hide Inv, Decide, NoneVanish;
    if v.Keep? {
      PelsApart(s, Step(s, e), pod, e.pod, SetHeld(s.streams[e.pod], e.id, 1).pel);
    } else {
      var t := Settle(s, e.who, entry, v, e.evict);
      SettleTakesOff(s, e.who, entry, v, e.evict, pod);
      SettleWidth(s, e.who, entry, v, e.evict);
      hide Settle;
      PelsApart(t, Step(s, e), pod, e.pod, XAck(t.streams[e.pod], e.id).pel);
      NoneVanishOn(s, t, Step(s, e), pod);
    }
  }

  lemma SettleWidth(s: State, who: nat, e: Entry, v: Verdict, evict: nat)
    requires VerdictFits(s, v, evict)
    ensures |Settle(s, who, e, v, evict).streams| == |s.streams|
  {
  }

  lemma DropTakesOff(s: State, e: Event, pod: nat)
    requires e.DropStream? && Enabled(s, e) && pod < |s.streams|
    ensures NoneVanish(s, Step(s, e), pod, [])
  {
    var st := s.streams[e.pod];
    hide Unread, TakenOff, Losses;
    forall x | x in Unread(s.streams[pod])
      ensures x in Unread(Step(s, e).streams[pod]) || TakenOff(s.log, Step(s, e).log, x)
    {
      if e.pod == pod {
        assert x in LiveEntries(st);
        LossTakesOff(s.log, LiveEntries(st), Deleted, x);
      }
    }
  }

  lemma CreateTakesOff(s: State, e: Event, pod: nat)
    requires Inv(s) && e.CreateGroup? && Enabled(s, e) && pod < |s.streams|
    ensures NoneVanish(s, Step(s, e), pod, [])
  {
    SortedHere(s, e.pod);
    NoneVanishSame(s, Step(s, e), pod);
  }

  /** Any step but a read of the pod's own stream. */
  lemma StepTakesOff(s: State, e: Event, pod: nat)
    requires Inv(s) && Enabled(s, e) && pod < |s.streams| && !(e.Read? && e.pod == pod)
    ensures NoneVanish(s, Step(s, e), pod, [])
  {
    LogGrows(s, e);
    hide Inv, NoneVanish, Unread, Append, Evict, Decide, Settle;
    match e
    case Publish(to, m, evict) => PublishTakesOff(s, e, pod);
    case Process(_, _, _, _, _) => ProcessTakesOff(s, e, pod);
    case Effect(who, p, entry, env, evict) =>
      var v := Decide(s.cfg, who, p, entry, s.now, env);
      SettleTakesOff(s, who, entry, v, evict, pod);
      SettleWidth(s, who, entry, v, evict);
      FinishedApart(s, Settle(s, who, entry, v, evict), Step(s, e), pod);
    case Trim(to, k, _) =>
      SortedHere(s, to);
      EvictTakesOff(s, to, k, pod);
    case CreateGroup(_) => CreateTakesOff(s, e, pod);
    case DropStream(_) => DropTakesOff(s, e, pod);
    case _ => QuietTakesOff(s, e, pod);
  }

  lemma FinishedApart(s: State, t: State, t': State, pod: nat)
    requires NoneVanish(s, t, pod, [])
    requires t' == s || (t'.streams == t.streams && t'.log == t.log)
    ensures NoneVanish(s, t', pod, [])
  {
  }

  lemma PublishTakesOff(s: State, e: Event, pod: nat)
    requires Inv(s) && e.Publish? && Enabled(s, e) && pod < |s.streams|
    ensures NoneVanish(s, Step(s, e), pod, [])
  {
    hide Inv, Unread, Append;
    AppendTakesOff(s, e.pod, e.message, |s.published|, e.evict, pod);
  }

  /** The steps that only touch a pending list, a stream elsewhere, or the clock. */
  lemma QuietTakesOff(s: State, e: Event, pod: nat)
    requires Enabled(s, e) && pod < |s.streams|
    requires e.Tick? || e.Claim? || e.Abandon? || e.Ack? || e.ForceAck? || (e.Read? && e.pod != pod)
    ensures NoneVanish(s, Step(s, e), pod, [])
  {
    hide XReadGroup, ClaimPel, ClaimLost, Losses, Unread;
    UnreadDependsOn(s.streams[pod], Step(s, e).streams[pod]);
    NoneVanishSame(s, Step(s, e), pod);
  }

  lemma UnreadDependsOn(st: Stream, st': Stream)
    ensures st'.entries == st.entries && st'.cursor == st.cursor ==> Unread(st') == Unread(st)
  {
  }

  lemma ReadEither(s: State, pod: nat, count: nat, x: Entry)
    requires Inv(s) && Enabled(s, Read(pod, count)) && x in Unread(s.streams[pod])
    ensures var s' := Step(s, Read(pod, count));
      && |s'.streams| == |s.streams| && s'.log == s.log
      && (x in Batch(s.streams[pod], count) || x in Unread(s'.streams[pod]))
  {
    SortedHere(s, pod);
    ReadMovesBatch(s.streams[pod], s.now, count);
    hide Unread, Batch, XReadGroup, Inv, StreamOk, HandOut;
    var rest := Unread(XReadGroup(s.streams[pod], count, s.now));
    assert x in Batch(s.streams[pod], count) + rest;
  }

  /** A read hands out its batch. */
  lemma ReadTakesOff(s: State, pod: nat, count: nat, ids: seq<Id>)
    requires Inv(s) && Enabled(s, Read(pod, count))
    requires forall x :: x in Batch(s.streams[pod], count) ==> x.id in ids
    ensures NoneVanish(s, Step(s, Read(pod, count)), pod, ids)
  {
    hide Unread, Batch, Inv, Step;
    StepWidth(s, Read(pod, count));
    forall x | x in Unread(s.streams[pod])
      ensures x in Unread(Step(s, Read(pod, count)).streams[pod]) || x.id in ids
    {
      ReadEither(s, pod, count, x);
    }
  }

  lemma StepWidth(s: State, e: Event)
    requires Enabled(s, e)
    ensures |Step(s, e).streams| == |s.streams| && s.log <= Step(s, e).log
  {
    LogGrows(s, e);
  }

  predicate NoReads(es: seq<Event>, pod: nat) {
    forall i :: 0 <= i < |es| ==> !(es[i].Read? && es[i].pod == pod)
  }

  lemma {:induction false} RunTakesOff(s: State, es: seq<Event>, pod: nat)
    requires Inv(s) && Run(s, es).Some? && pod < |s.streams| && NoReads(es, pod)
    ensures NoneVanish(s, Run(s, es).value, pod, [])
  {
    hide Inv, NoneVanish, Step, Enabled, Unread;
    if es == [] {
      NoneVanishSame(s, s, pod);
    } else {
      var init, e := es[..|es| - 1], es[|es| - 1];
      RunTakesOff(s, init, pod);
      RunInv(s, init);
      NoneVanishWidth(s, Run(s, init).value, pod);
      StepTakesOff(Run(s, init).value, e, pod);
      NoneVanishOn(s, Run(s, init).value, Run(s, es).value, pod);
    }
  }

  lemma NoneVanishWidth(s: State, t: State, pod: nat)
    requires NoneVanish(s, t, pod, [])
    ensures pod < |t.streams|
  {
  }

  /** In every run from every reachable state, atomic or not: an entry unread at
      its start is unread at its end, or a read of the run has handed it out, or
      it is on record as trimmed or deleted since. */
  lemma {:induction false} UnreadLeavesOnRecord(cfg: Config, pods: nat, before: seq<Event>, es: seq<Event>, pod: nat,
                                                x: Entry)
    requires Run(Start(cfg, pods), before).Some?
    requires var s := Run(Start(cfg, pods), before).value;
      pod < |s.streams| && x in Unread(s.streams[pod]) && Run(s, es).Some?
    ensures var s := Run(Start(cfg, pods), before).value; var last := Run(s, es).value;
      && pod < |last.streams| == |s.streams| && s.log <= last.log
      && (|| x in Unread(last.streams[pod])
          || HandedBy(s, es, pod, x)
          || TakenOff(s.log, last.log, x))
  {
    hide Inv, Step, Enabled, Unread, TakenOff, HandedBy;
    var s := Run(Start(cfg, pods), before).value;
    if es != [] {
      var init, e := es[..|es| - 1], es[|es| - 1];
      UnreadLeavesOnRecord(cfg, pods, before, init, pod, x);
      var t := Run(s, init).value;
      StartInv(cfg, pods);
      RunInv(Start(cfg, pods), before);
      RunInv(s, init);
      LogGrows(t, e);
      HandedEarlier(s, es, pod, x);
      if x in Unread(t.streams[pod]) {
        if e.Read? && e.pod == pod {
          ReadHandsOut(s, es, pod, x);
        } else {
          StepTakesOff(t, e, pod);
        }
      }
      TakenOffStays(s.log, t.log, Step(t, e).log, x);
    }
  }

  /** A read of the run hands the entry out. */
  ghost predicate HandedBy(s: State, es: seq<Event>, pod: nat, x: Entry) {
    exists i :: 0 <= i < |es| && ReadAt(s, es, i, pod, x)
  }

  ghost predicate ReadAt(s: State, es: seq<Event>, i: nat, pod: nat, x: Entry)
    requires i < |es|
  {
    && es[i].Read? && es[i].pod == pod
    && Run(s, es[..i]).Some? && pod < |Run(s, es[..i]).value.streams|
    && x in Batch(Run(s, es[..i]).value.streams[pod], es[i].count)
  }

  lemma HandedEarlier(s: State, es: seq<Event>, pod: nat, x: Entry)
    requires es != []
    ensures HandedBy(s, es[..|es| - 1], pod, x) ==> HandedBy(s, es, pod, x)
  {
    var init := es[..|es| - 1];
    if HandedBy(s, init, pod, x) {
      var i :| 0 <= i < |init| && ReadAt(s, init, i, pod, x);
      assert init[..i] == es[..i];
      assert ReadAt(s, es, i, pod, x);
    }
  }

  lemma ReadHandsOut(s: State, es: seq<Event>, pod: nat, x: Entry)
    requires es != [] && Run(s, es).Some? && Inv(Run(s, es[..|es| - 1]).value)
    requires var t := Run(s, es[..|es| - 1]).value;
      pod < |t.streams| && x in Unread(t.streams[pod]) && es[|es| - 1].Read? && es[|es| - 1].pod == pod
    ensures |Run(s, es).value.streams| > pod
    ensures x in Unread(Run(s, es).value.streams[pod]) || HandedBy(s, es, pod, x)
  {
    var t, e := Run(s, es[..|es| - 1]).value, es[|es| - 1];
    hide Inv, Step, Unread, Batch;
    ReadEither(t, pod, e.count, x);
    if x in Batch(t.streams[pod], e.count) {
      assert ReadAt(s, es, |es| - 1, pod, x);
    }
  }
}
