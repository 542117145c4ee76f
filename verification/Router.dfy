/** One pod's router: the loops of the source as loops, with other workers acting
    between any two commands. Each is proved to be a run of the fleet's atomic
    steps, its own and the others', so every law about runs holds of it. */
module Router {
  import opened StreamIds
  import opened RedisStreams
  import opened Cluster
  import opened WellFormed
  import opened StreamLaws
  import opened TrimFirst
  import opened Stranding
  import opened Departures
  import opened Batches
  import opened Rounds
  import opened Ticks
  import opened Drains

  // ----- Redis, as the routers see it -----

  class Redis {
    var db: State
    /** How often others still act: any number, but not for ever. */
    var turns: nat
    /** Whether it answers every command, and whether its approximate trims remove all
        that they may. */
    const healthy: bool
    const thorough: bool

    constructor (cfg: Config, pods: nat, turns: nat, healthy: bool, thorough: bool)
      ensures db == Start(cfg, pods) && this.turns == turns
      ensures this.healthy == healthy && this.thorough == thorough
    {
      db := Start(cfg, pods);
      this.turns := turns;
      this.healthy, this.thorough := healthy, thorough;
    }

    /** Time passes, though not up to `until`, and other workers, routers,
        publishers and janitors take any steps they can; with `alone` they leave
        the consumer group of the pod's stream to this worker. */
    method Others(pod: nat, alone: bool, until: nat) returns (ghost acts: seq<Act>)
      requires Inv(db) && pod < |db.streams| && db.now < until
      modifies this
      ensures Inv(db) && Leads(old(db), acts, db) && Follows(old(db), db) && db.now < until
      ensures Passed(acts) == [] && (alone ==> AllLeaveGroup(Events(acts), pod))
      ensures turns < old(turns) || (turns == old(turns) && db == old(db) && acts == [])
    {
      hide Inv, Step, Enabled;
      var es: seq<Event> := *;
      if turns > 0 && (alone ==> AllLeaveGroup(es, pod)) && Run(db, es).Some? && Run(db, es).value.now < until {
        acts := Foreign(es);
        assert Events(acts) == es;
        ForeignPassNothing(acts);
        LeadsKeeps(db, acts, Run(db, es).value);
        db := Run(db, es).value;
        turns := turns - 1;
      } else {
        acts := [];
        LeadsNowhere(db);
      }
    }

    method XAdd(pod: nat, m: Message, token: nat, evict: nat)
      requires pod < |db.streams| && CanEvict(db, pod, evict)
      modifies this`db
      ensures db == Append(old(db), pod, m, token, evict)
    {
      db := Append(db, pod, m, token, evict);
    }

    method XAck(pod: nat, id: Id)
      requires pod < |db.streams|
      modifies this`db
      ensures db == AckAt(old(db), pod, id)
    {
      db := AckAt(db, pod, id);
    }

    method XGroupCreateMkStream(pod: nat)
      requires pod < |db.streams|
      modifies this`db
      ensures db == Step(old(db), CreateGroup(pod))
    {
      db := WithStream(db, pod, XGroupCreate(db.streams[pod]));
    }

    method XReadGroup(pod: nat, count: nat) returns (batch: seq<Entry>)
      requires pod < |db.streams| && db.streams[pod].grouped
      modifies this`db
      ensures db == Step(old(db), Read(pod, count))
      ensures batch == Batch(old(db).streams[pod], count)
    {
      batch := Batch(db.streams[pod], count);
      db := Step(db, Read(pod, count));
    }

    /** Scans the pending list from `start` until `count` records are dealt with;
        `next` is where the following scan should start, 0-0 at the end. */
    method XAutoClaim(pod: nat, start: Id, count: nat)
      returns (batch: seq<Entry>, next: Id, ghost lo: nat, ghost hi: nat)
      requires pod < |db.streams|
      modifies this`db
      ensures lo == FirstAt(old(db).streams[pod].pel, start, 0)
      ensures var st := old(db).streams[pod];
        && hi == ScanEnd(st.pel, st.entries, lo, count, old(db).now, MinIdle(old(db).cfg))
        && batch == Claimed(st.pel[lo..hi], st.entries, old(db).now, MinIdle(old(db).cfg))
        && next == NextStart(st.pel, hi)
      ensures db == Step(old(db), Claim(pod, lo, hi))
    {
      var st, m := db.streams[pod], MinIdle(db.cfg);
      var i := 0;
      while i < |st.pel| && Before(st.pel[i].entry.id, start)
        invariant i <= |st.pel|
        invariant FirstAt(st.pel, start, i) == FirstAt(st.pel, start, 0)
      {
        i := i + 1;
      }
      lo := i;
      var j, left := i, count;
      while j < |st.pel| && left > 0
        invariant i <= j <= |st.pel|
        invariant ScanEnd(st.pel, st.entries, j, left, db.now, m) == ScanEnd(st.pel, st.entries, i, count, db.now, m)
      {
        if !Stored(st.entries, st.pel[j].entry.id) || Due(st.pel[j], db.now, m) {
          left := left - 1;
        }
        j := j + 1;
      }
      hi := j;
      batch := Claimed(st.pel[i..j], st.entries, db.now, m);
      next := if j < |st.pel| then st.pel[j].entry.id else ZERO;
      db := Step(db, Claim(pod, i, j));
    }

    /** XPENDING - + count: the oldest pending ids. */
    method XPendingIds(pod: nat, count: nat) returns (ids: seq<Id>)
      requires pod < |db.streams|
      ensures var pel := db.streams[pod].pel;
        && |ids| == Min(count, |pel|)
        && (forall i :: 0 <= i < |ids| ==> ids[i] == pel[i].entry.id)
    {
      var pel := db.streams[pod].pel;
      ids := seq(Min(count, |pel|), i requires 0 <= i < Min(count, |pel|) => pel[i].entry.id);
    }

    /** XTRIM MINID ~: drops some of the entries below the floor, oldest first. */
    method XTrimMinId(pod: nat, floor: Id) returns (ghost k: nat)
      requires pod < |db.streams| && FloorOk(db.streams[pod], db.now, floor)
      modifies this`db
      ensures Enabled(old(db), Trim(pod, k, floor)) && db == Step(old(db), Trim(pod, k, floor))
      ensures k <= Below(old(db).streams[pod].entries, floor)
      ensures thorough ==> k == Below(old(db).streams[pod].entries, floor)
    {
      var n: int := *;
      var below := Below(db.streams[pod].entries, floor);
      if thorough || n < 0 || below < n {
        n := below;
      }
      k := n;
      db := Evict(db, pod, n);
    }

    /** XACK of several ids as one command, in a drain: what is still pending of
        them is acknowledged and, as history, dropped. */
    method XAckAll(pod: nat, ids: seq<Id>) returns (ghost acts: seq<Act>)
      requires Inv(db) && pod < |db.streams|
      modifies this`db
      ensures Inv(db) && Follows(old(db), db) && db.now == old(db).now
      ensures Leads(old(db), acts, db) && Sole(old(db), acts, db, pod) && Passed(acts) == []
      ensures var (st, st') := (old(db).streams[pod], db.streams[pod]);
        && Grown(st, st', [], 0)
        && (Oldest(st.pel, ids) ==>
              && st'.pel == st.pel[|ids|..]
              && ForcedOff(old(db).log, db.log, st.pel[..|ids|]))
    {
      hide Inv, Step, Enabled, Grown, Run, Passed, Sole, Leads, ForcedOff, Follows, SortedPel, IndexOf, Without;
      ghost var s0 := db;
      ghost var pel := s0.streams[pod].pel;
      SortedHere(s0, pod);
      SoleNowhere(s0, pod);
      LeadsKeeps(s0, [], s0);
      GrownSame(s0.streams[pod], s0.streams[pod]);
      NoneForced(s0.log);
      acts := [];
      for i := 0 to |ids|
        invariant Inv(db) && Follows(s0, db) && db.now == s0.now && |db.streams| == |s0.streams|
        invariant Leads(s0, acts, db) && Sole(s0, acts, db, pod) && Passed(acts) == []
        invariant Grown(s0.streams[pod], db.streams[pod], [], 0)
        invariant Oldest(pel, ids) ==> db.streams[pod].pel == pel[i..] && ForcedOff(s0.log, db.log, pel[..i])
      {
        ghost var s1 := db;
        if Oldest(pel, ids) {
          FirstLeft(pel, i);
        }
        if IsPending(db.streams[pod], ids[i]) {
          ghost var e := ForceAck(pod, ids[i]);
          ForceFrame(s1, pod, ids[i]);
          db := Step(db, ForceAck(pod, ids[i]));
          SoleOn(s0, acts, s1, [Act(e, true)], db, pod);
          LeadsKeeps(s0, acts + [Act(e, true)], db);
          FollowsWidth(s0, db);
          acts := acts + [Act(e, true)];
          GrownJoin(s0.streams[pod], s1.streams[pod], db.streams[pod], [], 0, [], 0);
          NoEntries();
          if Oldest(pel, ids) {
            ForcedMore(s0.log, s1.log, db.log, pel, i);
          }
        }
      }
    }

    /** XLEN */
    method XLen(pod: nat) returns (n: nat)
      requires pod < |db.streams|
      ensures n == |db.streams[pod].entries|
    {
      n := |db.streams[pod].entries|;
    }

    /** XPENDING: how many records the group has. */
    method XPendingCount(pod: nat) returns (n: nat)
      requires pod < |db.streams|
      ensures n == |db.streams[pod].pel|
    {
      n := |db.streams[pod].pel|;
    }

    /** XGROUP DESTROY and DEL, whatever the stream holds by now. */
    method DeleteStream(pod: nat)
      requires pod < |db.streams| && InThePast(db.streams[pod].top, db.now)
      modifies this`db
      ensures db == Step(old(db), DropStream(pod))
    {
      db := Step(db, DropStream(pod));
    }
  }

  // ----- The router -----

  class Router {
    const podId: nat
    const rdb: Redis
    /** What the calls of its k-th pass into code outside the router will answer. */
    const outside: nat -> Env
    var passes: nat

    constructor (podId: nat, rdb: Redis, outside: nat -> Env)
      ensures this.podId == podId && this.rdb == rdb && this.outside == outside && passes == 0
    {
      this.podId, this.rdb, this.outside := podId, rdb, outside;
      passes := 0;
    }

    ghost predicate Valid(until: nat)
      reads this, rdb
    {
      Inv(rdb.db) && podId < |rdb.db.streams| && rdb.db.now < until
    }

    /** What has happened since state s is `acts`, a run. */
    ghost predicate IsRun(s: State, acts: seq<Act>, until: nat)
      reads this, rdb
    {
      Valid(until) && Leads(s, acts, rdb.db) && Follows(s, rdb.db)
    }

    /** And its own passes, the k-th and on, have heard what the outside answers. */
    ghost predicate Going(s: State, k: nat, acts: seq<Act>, until: nat)
      reads this, rdb
    {
      && IsRun(s, acts, until) && passes == k + |Passed(acts)|
      && (Passed(acts) == [] || OnTape(acts, outside, k, |rdb.db.streams|))
    }

    /** The answers the next processing pass gets, and how many old entries Redis evicts
        if it appends. */
    method Observe(pod: nat, e: Entry) returns (env: Env, evict: nat)
      requires podId < |rdb.db.streams|
      modifies this`passes
      ensures passes == old(passes) + 1 && env == Heard(outside(old(passes)), |rdb.db.streams|)
      ensures VerdictFits(rdb.db, Decide(rdb.db.cfg, podId, pod, e, rdb.db.now, env), evict)
    {
      env := Heard(outside(passes), |rdb.db.streams|);
      passes := passes + 1;
      var n: int := *;
      evict := if n < 0 then 0 else n;
      var v := Decide(rdb.db.cfg, podId, pod, e, rdb.db.now, env);
      HeardFits(rdb.db, podId, pod, e, env, outside(old(passes)));
      if v.Move? && !CanEvict(rdb.db, v.to, evict) {
        evict := 0;
      }
    }

    /** PublishToClient with the answers of its lookup and XADD given; `ok` is
        false when it returns an error. */
    method PublishToClient(e: Entry, inner: Lookup, added: bool, evict: nat) returns (ok: bool)
      requires inner.At? && added ==> inner.pod < |rdb.db.streams| && CanEvict(rdb.db, inner.pod, evict)
      modifies rdb`db
      ensures ok == (inner.Offline? || (inner.At? && added))
      ensures rdb.db ==
        match inner
        case Failed => old(rdb.db).(log := old(rdb.db).log + [Dropped(e, RepublishFailed)])
        case Offline => old(rdb.db).(log := old(rdb.db).log + [Dropped(e, RepublishOffline)])
        case At(t) =>
          if added then Append(old(rdb.db), t, Message(e.client, e.payload), e.token, evict)
          else old(rdb.db).(log := old(rdb.db).log + [Dropped(e, RepublishFailed)])
    {
      ok := true;
      if inner.Failed? {
        Note(Dropped(e, RepublishFailed));
        ok := false;
      } else if inner.Offline? {
        Note(Dropped(e, RepublishOffline));
      } else if added {
        rdb.XAdd(inner.pod, Message(e.client, e.payload), e.token, evict);
      } else {
        Note(Dropped(e, RepublishFailed));
        ok := false;
      }
    }

    /** History: an outcome of a message. */
    method Note(o: Outcome)
      modifies rdb`db
      ensures rdb.db == old(rdb.db).(log := old(rdb.db).log + [o])
    {
      rdb.db := rdb.db.(log := rdb.db.log + [o]);
    }

    /** History: the entry stays pending and out of hand, if it was in hand. */
    method NoteKept(pod: nat, id: Id, mine: bool)
      requires pod < |rdb.db.streams| && (mine ==> IsPending(rdb.db.streams[pod], id))
      modifies rdb`db
      ensures rdb.db ==
        if mine then WithStream(old(rdb.db), pod, SetHeld(old(rdb.db).streams[pod], id, 1)) else old(rdb.db)
    {
      if mine {
        rdb.db := WithStream(rdb.db, pod, SetHeld(rdb.db.streams[pod], id, 1));
      }
    }

    /** XACK in a pass that is not one step with it: others act first. As history,
        the effect is done by then. */
    method AcknowledgeLate(pod: nat, e: Entry, alone: bool, until: nat) returns (ghost acts: seq<Act>)
      requires Valid(until) && pod < |rdb.db.streams| && Handout(pod, e) in rdb.db.handed
      modifies rdb
      ensures IsRun(old(rdb.db).(finished := old(rdb.db).finished + {Handout(pod, e)}), acts, until)
      ensures Passed(acts) == []
    {
      hide Inv, Run, Passed, Leads, AckAt, Enabled, Step;
      FinishedInv(rdb.db, Handout(pod, e));
      rdb.db := rdb.db.(finished := rdb.db.finished + {Handout(pod, e)});
      ghost var t := rdb.db;
      acts := rdb.Others(pod, alone, until);
      ghost var s1 := rdb.db;
      LateAck(s1, pod, e);
      rdb.XAck(pod, e.id);
      LeadsOn(t, acts, s1, [Act(Ack(pod, e.id), true)], rdb.db);
      acts := acts + [Act(Ack(pod, e.id), true)];
    }

    /** One pass. For an entry in hand it may be one step of the fleet with its
        acknowledgement; else others may come in between, and the entry may have
        been claimed or acknowledged by others. What the pass does is the same. */
    method ProcessMessage(pod: nat, e: Entry, env: Env, evict: nat, mine: bool, alone: bool, until: nat)
      returns (ghost acts: seq<Act>)
      requires Valid(until) && pod < |rdb.db.streams| && Handout(pod, e) in rdb.db.handed
      requires mine ==> InHands(rdb.db.streams[pod].pel, e)
      requires VerdictFits(rdb.db, Decide(rdb.db.cfg, podId, pod, e, rdb.db.now, env), evict)
      modifies rdb
      ensures IsRun(old(rdb.db), acts, until) && Passed(acts) == [e.id] && Envs(acts) == [env]
      ensures mine ==>
        var p := Process(podId, pod, e.id, env, evict);
        acts == [Act(p, true)] && Enabled(old(rdb.db), p) && rdb.db == Step(old(rdb.db), p)
    {
      hide SetHeld, XAck, CanEvict, InHands, Window, Append, IsPending, LocalVerdict, ElsewhereVerdict;
      hide Inv, Passed, Leads, Enabled, Step, Follows;
      ghost var s0 := rdb.db;
      ghost var v := Decide(s0.cfg, podId, pod, e, s0.now, env);
      ghost var act := Act(
        if mine then Process(podId, pod, e.id, env, evict) else Effect(podId, pod, e, env, evict), true);
      PassStarts(s0, podId, pod, e, env, evict, mine);
      acts := [act];
      var cfg := rdb.db.cfg;
      var age := rdb.db.now - e.id.ms;
      if e.client == "" {
        Note(Dropped(e, NoClient));
      } else if cfg.maxPendingMs > 0 && age > cfg.maxPendingMs {
        Note(Dropped(e, TooOld));
      } else if env.local {
        ProcessLocal(e, env, evict);
      } else if !env.first.At? {
        var retry := ShouldRetryMessage(e, env.first.Failed?);
        if retry {
          NoteKept(pod, e.id, mine);
          return;
        }
        Note(Dropped(e, if env.first.Failed? then LookupTooLong else OfflineTooLong));
      } else {
        ProcessElsewhere(pod, e, env, evict);
      }
      SettleStays(s0, podId, pod, e, v, evict);
      assert !v.Keep? && rdb.db == Settle(s0, podId, e, v, evict);
      hide Decide, Settle;
      if mine {
        rdb.XAck(pod, e.id);
      } else {
        ghost var rest := AcknowledgeLate(pod, e, alone, until);
        LeadsOn(s0, acts, Step(s0, act.event), rest, rdb.db);
        EnvsConcat(acts, rest);
        acts := acts + rest;
        assert [e.id] + [] == [e.id] && [env] + [] == [env];
        LeadsKeeps(s0, acts, rdb.db);
      }
    }

    /** What processMessage does for a client in this pod's pool. */
    method ProcessLocal(e: Entry, env: Env, evict: nat)
      requires VerdictFits(rdb.db, LocalVerdict(podId, env), evict)
      modifies rdb`db
      ensures rdb.db == Settle(old(rdb.db), podId, e, LocalVerdict(podId, env), evict)
    {
      hide CanEvict;
      if env.sent {
        Note(Delivered(e, podId));
      } else if env.again.At? && env.again.pod != podId {
        var _ := PublishToClient(e, env.inner, env.added, evict);
      } else {
        Note(Dropped(e, SendFailed));
      }
    }

    method ShouldRetryMessage(e: Entry, lookupFailed: bool) returns (retry: bool)
      ensures retry == RetryOrDrop(rdb.db.cfg, e.id, rdb.db.now, lookupFailed).Keep?
    {
      var window := if rdb.db.cfg.maxPendingMs <= 0 then 60000 else rdb.db.cfg.maxPendingMs;
      if !lookupFailed {
        window := window / 2;
      }
      retry := rdb.db.now - e.id.ms <= window;
    }

    /** What processMessage does for a client that is not local but registered. */
    method ProcessElsewhere(pod: nat, e: Entry, env: Env, evict: nat)
      requires env.first.At?
      requires VerdictFits(rdb.db, ElsewhereVerdict(podId, pod, env), evict)
      modifies rdb`db
      ensures rdb.db == Settle(old(rdb.db), podId, e, ElsewhereVerdict(podId, pod, env), evict)
    {
      if env.first.pod == podId {
        Note(if env.sent then Delivered(e, podId) else Dropped(e, SendFailed));
      } else if env.first.pod == pod {
        if env.sourceAlive {
          Note(Dropped(e, SourceAlive));
        } else if env.added {
          rdb.XAdd(podId, Message(e.client, e.payload), e.token, evict);
        } else {
          Note(Dropped(e, RepublishFailed));
        }
      } else {
        var _ := PublishToClient(e, env.inner, env.added, evict);
      }
    }

    /** Others act, and then processMessage for entry i of a batch. */
    method ProcessOne(pod: nat, batch: seq<Entry>, i: nat, alone: bool, until: nat)
      returns (ghost acts: seq<Act>, ghost added: seq<Entry>, ghost gone: nat)
      requires Valid(until) && pod < |rdb.db.streams| && i < |batch| && HandedAll(rdb.db, pod, batch)
      requires alone ==> Waiting(rdb.db.streams[pod].pel, batch, i)
      modifies rdb, this`passes
      ensures Going(old(rdb.db), old(passes), acts, until) && Passed(acts) == [batch[i].id]
      ensures HandedAll(rdb.db, pod, batch)
      ensures alone ==>
        var (st, st') := (old(rdb.db).streams[pod], rdb.db.streams[pod]);
        && Sole(old(rdb.db), acts, rdb.db, pod) && Waiting(st'.pel, batch, i + 1)
        && OnePass(st.pel, st'.pel, batch[i].id) && Grown(st, st', added, gone)
    {
      hide Inv, Step, Enabled, Waiting, OnePass, Grown, Run, Passed, InHands, Sole, Decide, Leads, OnTape;
      ghost var k0 := passes;
      ghost var s0 := rdb.db;
      acts := rdb.Others(pod, alone, until);
      ghost var s1 := rdb.db;
      var env, evict := Observe(pod, batch[i]);
      var whole: bool := *;
      added, gone := [], 0;
      if alone {
        added, gone := AlonePass(s0, acts, s1, podId, pod, batch, i, env, evict);
        whole := true;
      }
      var mine := whole && InHands(rdb.db.streams[pod].pel, batch[i]);
      ghost var own := ProcessMessage(pod, batch[i], env, evict, mine, alone, until);
      OneHeard(own, env, outside, k0, |rdb.db.streams|);
      GoesOn(s0, acts, s1, own, rdb.db, pod, outside, k0);
      acts := acts + own;
      assert [] + [batch[i].id] == [batch[i].id];
    }

    /** processMessage for each entry of a batch, in order. */
    method ProcessAll(pod: nat, batch: seq<Entry>, alone: bool, until: nat)
      returns (ghost acts: seq<Act>, ghost added: seq<Entry>, ghost gone: nat)
      requires Valid(until) && pod < |rdb.db.streams| && HandedAll(rdb.db, pod, batch)
      requires alone ==> Waiting(rdb.db.streams[pod].pel, batch, 0)
      modifies rdb, this`passes
      ensures Going(old(rdb.db), old(passes), acts, until) && Passed(acts) == Ids(batch)
      ensures batch == [] ==> rdb.db == old(rdb.db)
      ensures alone ==>
        var (st, st') := (old(rdb.db).streams[pod], rdb.db.streams[pod]);
        Sole(old(rdb.db), acts, rdb.db, pod) && PassesOver(st.pel, st'.pel, Ids(batch)) && Grown(st, st', added, gone)
    {
      hide Inv, Step, Waiting, OnePass, Grown, Run, Passed, Sorted, Sole, Leads, OnTape;
      ghost var k0 := passes;
      ghost var s0 := rdb.db;
      acts, added, gone := [], [], 0;
      SoleNowhere(s0, pod);
      GrownSame(s0.streams[pod], s0.streams[pod]);
      var i := 0;
      while i < |batch|
        invariant i <= |batch| && (i == 0 ==> rdb.db == s0)
        invariant Going(s0, k0, acts, until) && HandedAll(rdb.db, pod, batch) && Passed(acts) == Ids(batch[..i])
        invariant alone ==> Sole(s0, acts, rdb.db, pod) && Waiting(rdb.db.streams[pod].pel, batch, i)
        invariant alone ==> PassesOver(s0.streams[pod].pel, rdb.db.streams[pod].pel, Ids(batch[..i]))
        invariant alone ==> Grown(s0.streams[pod], rdb.db.streams[pod], added, gone)
      {
        ghost var s1 := rdb.db;
        ghost var steps, a, x := ProcessOne(pod, batch, i, alone, until);
        GoesOn(s0, acts, s1, steps, rdb.db, pod, outside, k0);
        IdsSnoc(batch, i);
        if alone {
          PassesOverSnoc(s0.streams[pod].pel, s1.streams[pod].pel, rdb.db.streams[pod].pel,
                         Ids(batch[..i]), batch[i].id);
          GrownJoin(s0.streams[pod], s1.streams[pod], rdb.db.streams[pod], added, gone, a, x);
        }
        acts, added, gone := acts + steps, added + a, gone + x;
        i := i + 1;
      }
      assert batch[..|batch|] == batch;
    }

    /** Others act, then XREADGROUP and a pass over each entry it hands out. */
    method ReadRound(pod: nat, alone: bool, until: nat)
      returns (reply: Reply, ghost acts: seq<Act>, ghost added: seq<Entry>, ghost gone: nat)
      requires Valid(until) && pod < |rdb.db.streams|
      modifies rdb, this`passes
      ensures Going(old(rdb.db), old(passes), acts, until)
      ensures rdb.healthy ==> !reply.Trouble?
      ensures reply.NoGroup? && alone ==> !rdb.db.streams[pod].grouped
      ensures alone ==>
        var (st, st') := (old(rdb.db).streams[pod], rdb.db.streams[pod]);
        && Sole(old(rdb.db), acts, rdb.db, pod) && st'.grouped == st.grouped
        && Took(Unread(st), Unread(st'), added, gone, Passed(acts), Asked(reply, rdb.db.cfg))
        && (reply.Nothing? ==> Unread(st') == [])
    {
      hide Inv, Step, Enabled, Waiting, Grown, Run, Passed, Sole, Leads, OnTape, Took, Unread, Batch, PassesOver;
      ghost var k0 := passes;
      ghost var s0 := rdb.db;
      acts := rdb.Others(pod, alone, until);
      ghost var s1 := rdb.db;
      added, gone := [], 0;
      if alone {
        added, gone := OthersTook(s0, acts, s1, pod);
      }
      if !rdb.db.streams[pod].grouped {
        reply := NoGroup;
        return;
      }
      var refused: bool := *;
      if refused && !rdb.healthy {
        reply := Trouble;
        return;
      }
      var count := ReadCountOf(rdb.db.cfg);
      ReadFrame(s1, pod, count);
      var batch := rdb.XReadGroup(pod, count);
      ghost var s2 := rdb.db;
      ghost var read := [Act(Read(pod, count), true)];
      reply := if |batch| == 0 then Nothing else Entries;
      ghost var steps, b, y := ProcessAll(pod, batch, alone, until);
      GoesOn(s1, read, s2, steps, rdb.db, pod, outside, k0);
      assert [] + Ids(batch) == Ids(batch) && Ids(batch) + [] == Ids(batch);
      if alone {
        ReadSole(s1, read, s2, steps, rdb.db, pod, Ids(batch));
        ReadJoin(s0.streams[pod], s1.streams[pod], s2.streams[pod], rdb.db.streams[pod],
                 added, gone, |batch|, b, y, Ids(batch), count);
      }
      GoesOn(s0, acts, s1, read + steps, rdb.db, pod, outside, k0);
      acts, added, gone := acts + (read + steps), added + b, gone + |batch| + y;
    }

    /** One round of the consume loop. After a NOGROUP reply the group is created,
        if that succeeds. */
    method ConsumeOnce(alone: bool, until: nat)
      returns (reply: Reply, made: bool, ghost acts: seq<Act>, ghost added: seq<Entry>, ghost gone: nat)
      requires Valid(until)
      modifies rdb, this`passes
      ensures Going(old(rdb.db), old(passes), acts, until)
      ensures rdb.healthy ==> !reply.Trouble? && made == reply.NoGroup?
      ensures alone ==>
        var (st, st') := (old(rdb.db).streams[podId], rdb.db.streams[podId]);
        && Sole(old(rdb.db), acts, rdb.db, podId) && st'.grouped == (st.grouped || made)
        && Took(Unread(st), Unread(st'), added, gone, Passed(acts), Asked(reply, rdb.db.cfg))
        && (reply.Nothing? ==> Unread(st') == [])
    {
      hide Inv, Step, Enabled, Grown, Run, Passed, Sole, Leads, OnTape, Took, Unread;
      ghost var k0 := passes;
      ghost var s0 := rdb.db;
      reply, acts, added, gone := ReadRound(podId, alone, until);
      made := *;
      made := (made || rdb.healthy) && reply.NoGroup?;
      if made {
        ghost var s1 := rdb.db;
        ghost var steps, a, x := EnsureGroup(podId, alone, until);
        GoesOn(s0, acts, s1, steps, rdb.db, podId, outside, k0);
        if alone {
          TookMore(Unread(s0.streams[podId]), Unread(s1.streams[podId]), Unread(rdb.db.streams[podId]),
                   added, gone, Passed(acts), 0, a, x, [], 0);
        }
        acts, added, gone := acts + steps, added + a, gone + x;
      }
    }

    /** Others act, then XGROUP CREATE ... 0-0 MKSTREAM. */
    method EnsureGroup(pod: nat, alone: bool, until: nat)
      returns (ghost acts: seq<Act>, ghost added: seq<Entry>, ghost gone: nat)
      requires Valid(until) && pod < |rdb.db.streams|
      modifies rdb, this`passes
      ensures Going(old(rdb.db), old(passes), acts, until)
      ensures rdb.db.streams[pod].grouped && Passed(acts) == []
      ensures alone ==>
        var (st, st') := (old(rdb.db).streams[pod], rdb.db.streams[pod]);
        && Sole(old(rdb.db), acts, rdb.db, pod)
        && st'.pel == st.pel && Took(Unread(st), Unread(st'), added, gone, [], 0)
        && (added == [] ==> st'.entries == st.entries && st'.cursor == st.cursor)
    {
      hide Inv, Step, Enabled, Grown, Run, Passed, Sole, Leads, OnTape, Took, Unread;
      ghost var k0 := passes;
      ghost var s0 := rdb.db;
      acts := rdb.Others(pod, alone, until);
      ghost var s1 := rdb.db;
      added, gone := [], 0;
      if alone {
        added, gone := OthersTook(s0, acts, s1, pod);
      }
      CreateFrame(s1, pod);
      rdb.XGroupCreateMkStream(pod);
      GoesOn(s0, acts, s1, [Act(CreateGroup(pod), true)], rdb.db, pod, outside, k0);
      acts := acts + [Act(CreateGroup(pod), true)];
    }

    /** Others act, then XAUTOCLAIM from `start` and a pass over each entry it
        returns. `st0` and `done` tell the rounds this one may go on with. */
    method ClaimRound(pod: nat, start: Id, alone: bool, until: nat,
                      ghost t0: nat, ghost st0: Stream, ghost done: seq<Id>)
      returns (reply: Reply, next: Id, ghost acts: seq<Act>, ghost added: seq<Entry>, ghost gone: nat,
               ghost met: Claiming)
      requires Valid(until) && pod < |rdb.db.streams| && t0 <= rdb.db.now
      modifies rdb, this`passes
      ensures Going(old(rdb.db), old(passes), acts, until)
      ensures Fresher(old(rdb.db).streams[pod].pel, rdb.db.streams[pod].pel, t0,
                      reply.Entries? && until <= t0 + MinIdle(rdb.db.cfg))
      ensures !Answered(reply) ==> next == start
      ensures rdb.healthy ==> !reply.Trouble?
      ensures alone ==> (reply.NoGroup? <==> !rdb.db.streams[pod].grouped)
      ensures alone ==>
        var (st, st') := (old(rdb.db).streams[pod], rdb.db.streams[pod]);
        && Sole(old(rdb.db), acts, rdb.db, pod) && Grown(st, st', added, gone)
        && (Answered(reply) ==>
              && old(rdb.db).now <= met.at <= rdb.db.now && met.seen.pel == st.pel && SortedPel(st.pel)
              && Leads(old(rdb.db), met.before, met.state) && Leads(met.state, met.after, rdb.db) && Inv(met.state)
              && pod < |met.state.streams| && met.state.streams[pod] == met.seen
              && TickFits(met.seen, met.at, st', rdb.db.cfg, start, next, Passed(acts), met.lo, met.hi))
        && (added == [] && rdb.db.now == old(rdb.db).now
            && RoundsSoFar(st0, st, rdb.db.cfg, rdb.db.now, start, done) ==>
              && (reply.Entries? ==> RoundsSoFar(st0, st', rdb.db.cfg, rdb.db.now, next, done + Passed(acts)))
              && (reply.Nothing? ==> done + Passed(acts) == Ids(Reclaimed(st0, rdb.db.cfg, rdb.db.now))))
    {
      hide Inv, Step, Enabled, Waiting, Grown, Run, Passed, Sole, Leads, OnTape, PassesOver, Fresher, RoundsSoFar;
      hide SortedPel, Ids, Events, AllLeaveGroup, TickFits, FirstAt, ScanEnd, Claimed, XAutoClaim, NextStart, Reclaimed;
      ghost var k0 := passes;
      ghost var s0 := rdb.db;
      acts := rdb.Others(pod, alone, until);
      ghost var s1 := rdb.db;
      StaleLeads(s0, acts, s1, pod, t0);
      added, gone, next := [], 0, start;
      met := Claiming(acts, s1, [], s1.streams[pod], s1.now, 0, 0);
      if alone {
        added, gone := OthersGrow(s0, acts, s1, pod);
      }
      if !rdb.db.streams[pod].grouped {
        reply := NoGroup;
        return;
      }
      var refused: bool := *;
      if refused && !rdb.healthy {
        reply := Trouble;
        return;
      }
      var batch, after, lo, hi := rdb.XAutoClaim(pod, start, ReadCountOf(rdb.db.cfg));
      ghost var s2 := rdb.db;
      ghost var claim := [Act(Claim(pod, lo, hi), true)];
      ClaimFrame(s1, pod, lo, hi);
      reply, next := if |batch| == 0 then Nothing else Entries, after;
      ghost var steps, b, y := ProcessAll(pod, batch, alone, until);
      RoundFreshens(s0, s1, s2, steps, rdb.db, pod, lo, hi, t0, until);
      LeadsOn(s1, claim, s2, steps, rdb.db);
      met := Claiming(acts, s1, claim + steps, s1.streams[pod], s1.now, lo, hi);
      GoesOn(s0, acts, s1, claim, s2, pod, outside, k0);
      GoesOn(s0, acts + claim, s2, steps, rdb.db, pod, outside, k0);
      if alone {
        TickIs(s1.streams[pod], s1.now, rdb.db.streams[pod], s1.cfg, start, lo, hi);
        GrownAround(s0.streams[pod], s1.streams[pod], s2.streams[pod], rdb.db.streams[pod], added, gone, b, y);
        if added + b == [] && rdb.db.now == s0.now
           && RoundsSoFar(st0, s0.streams[pod], s0.cfg, s0.now, start, done) {
          RoundGoesOn(st0, s0.streams[pod], s1.streams[pod], rdb.db.streams[pod], s0.cfg, s0.now,
                      start, lo, hi, done);
        }
      }
      acts, added, gone := acts + claim + steps, added + b, gone + y;
      assert [] + [] + Ids(batch) == Ids(batch);
    }

    /** One tick of the auto-claim loop: if the claim is answered, alone, it passes over
        exactly what TickFits says of the stream it `met`; `next` is where the next tick
        starts. After a NOGROUP reply the group is created, if that succeeds. */
    method AutoClaimOnce(start: Id, alone: bool, until: nat)
      returns (reply: Reply, next: Id, made: bool, ghost acts: seq<Act>, ghost added: seq<Entry>, ghost gone: nat,
               ghost met: Claiming)
      requires Valid(until)
      modifies rdb, this`passes
      ensures Going(old(rdb.db), old(passes), acts, until)
      ensures rdb.healthy ==> !reply.Trouble? && made == reply.NoGroup?
      ensures !Answered(reply) ==> next == start
      ensures alone && old(rdb.db).streams[podId].grouped ==> !reply.NoGroup?
      ensures alone ==>
        var (st, st') := (old(rdb.db).streams[podId], rdb.db.streams[podId]);
        && Sole(old(rdb.db), acts, rdb.db, podId) && st'.grouped == (st.grouped || made)
        && Took(Unread(st), Unread(st'), added, gone, [], 0)
        && (added == [] ==> st'.entries == st.entries && st'.cursor == st.cursor)
        && (Answered(reply) ==>
              && old(rdb.db).now <= met.at <= rdb.db.now && met.seen.pel == st.pel && SortedPel(st.pel)
              && Leads(old(rdb.db), met.before, met.state) && Leads(met.state, met.after, rdb.db) && Inv(met.state)
              && podId < |met.state.streams| && met.state.streams[podId] == met.seen
              && TickFits(met.seen, met.at, st', rdb.db.cfg, start, next, Passed(acts), met.lo, met.hi))
    {
      hide Inv, Step, Enabled, Run, Passed, Sole, Leads, OnTape, Unread, Fresher, RoundsSoFar, Took, Grown, TickFits;
      ghost var k0 := passes;
      ghost var s0 := rdb.db;
      reply, next, acts, added, gone, met :=
        ClaimRound(podId, start, alone, until, rdb.db.now, rdb.db.streams[podId], []);
      ghost var s1 := rdb.db;
      if alone {
        GrownKeeps(s0.streams[podId], s1.streams[podId], added, gone);
        GrownTook(s0.streams[podId], s1.streams[podId], added, gone);
      }
      made := *;
      made := (made || rdb.healthy) && reply.NoGroup?;
      if made {
        ghost var steps, a, x := EnsureGroup(podId, alone, until);
        GoesOn(s0, acts, s1, steps, rdb.db, podId, outside, k0);
        if alone {
          TookMore(Unread(s0.streams[podId]), Unread(s1.streams[podId]), Unread(rdb.db.streams[podId]),
                   added, gone, [], 0, a, x, [], 0);
          NoIds([]);
        }
        acts, added, gone := acts + steps, added + a, gone + x;
      }
    }

    /** The auto-claim loop for `ticks` ticks. Alone, on a Redis that answers, with a group,
        enough ticks to go over the pending list COUNT records at a time pass over every
        entry that was due at the beginning and is not trimmed or evicted meanwhile. */
    method AutoClaimTicks(ticks: nat, alone: bool, until: nat) returns (ghost acts: seq<Act>)
      requires Valid(until)
      modifies rdb, this`passes
      ensures Going(old(rdb.db), old(passes), acts, until)
      ensures alone ==> Sole(old(rdb.db), acts, rdb.db, podId)
      ensures alone && rdb.healthy && old(rdb.db).streams[podId].grouped ==>
        var (cfg, pel) := (rdb.db.cfg, old(rdb.db).streams[podId].pel);
        ticks * (if cfg.readCount > 0 then cfg.readCount else 100) >= |pel| ==>
          Worked(pel, |pel|, cfg, old(rdb.db).now, rdb.db.streams[podId].entries, Passed(acts))
    {
      hide Inv, Step, Enabled, Run, Passed, Sole, Leads, OnTape, Took, Unread, TickFits, ToCome, Worked, SortedPel;
      hide Stored, IsDue;
      ghost var k0 := passes;
      ghost var s0 := rdb.db;
      ghost var (pel0, count) := (s0.streams[podId].pel, if s0.cfg.readCount > 0 then s0.cfg.readCount else 100);
      ghost var good := alone && rdb.healthy && s0.streams[podId].grouped;
      acts := [];
      SoleNowhere(s0, podId);
      var start := ZERO;
      ghost var done := 0;
      AllToCome(s0, podId);
      for i := 0 to ticks
        invariant Going(s0, k0, acts, until) && (alone ==> Sole(s0, acts, rdb.db, podId))
        invariant good ==> rdb.db.streams[podId].grouped
        invariant good ==> done <= |pel0| && (done == |pel0| || done >= i * count)
        invariant good ==> ToCome(pel0, done, rdb.db.streams[podId].pel, start)
        invariant good ==> Worked(pel0, done, s0.cfg, s0.now, rdb.db.streams[podId].entries, Passed(acts))
      {
        ghost var s1 := rdb.db;
        var reply, made;
        ghost var begin, steps, a, x, met := start, [], [], 0, Claiming([], s1, [], s1.streams[podId], 0, 0, 0);
        reply, start, made, steps, a, x, met := AutoClaimOnce(start, alone, until);
        GoesOn(s0, acts, s1, steps, rdb.db, podId, outside, k0);
        if good {
          ghost var next := TickWorks(s0, acts, s1, steps, met, rdb.db, podId, pel0, done, begin, start);
          assert (i + 1) * count == i * count + count;
          done := next;
        }
        acts := acts + steps;
      }
    }

    /** The reclaim loop of a drain. It ends because a record claimed in it is not
        idle again while less than the idle time passes. */
    method ReclaimAll(pod: nat, alone: bool, until: nat)
      returns (clean: bool, ghost acts: seq<Act>, ghost added: seq<Entry>, ghost gone: nat)
      requires Valid(until) && pod < |rdb.db.streams| && until <= rdb.db.now + MinIdle(rdb.db.cfg)
      modifies rdb, this`passes
      ensures Going(old(rdb.db), old(passes), acts, until)
      ensures rdb.healthy && alone && old(rdb.db).streams[pod].grouped ==> clean
      ensures alone ==>
        var (st, st') := (old(rdb.db).streams[pod], rdb.db.streams[pod]);
        && Sole(old(rdb.db), acts, rdb.db, pod) && Grown(st, st', added, gone)
        && (clean && added == [] && rdb.db.now == old(rdb.db).now ==>
              Passed(acts) == Ids(Reclaimed(st, rdb.db.cfg, rdb.db.now)))
    {
      hide Inv, Step, Enabled, Grown, Run, Passed, Sole, Leads, OnTape, Stale, RoundsSoFar, Reclaimed;
      ghost var k0 := passes;
      ghost var s0 := rdb.db;
      ghost var st0 := s0.streams[pod];
      acts, added, gone, clean := [], [], 0, true;
      SoleNowhere(s0, pod);
      GrownSame(st0, st0);
      RoundsStart(st0, s0.cfg, s0.now);
      var start := ZERO;
      while true
        invariant clean && Going(s0, k0, acts, until)
        invariant alone ==> Sole(s0, acts, rdb.db, pod) && Grown(st0, rdb.db.streams[pod], added, gone)
        invariant alone && added == [] && rdb.db.now == s0.now ==>
          RoundsSoFar(st0, rdb.db.streams[pod], s0.cfg, s0.now, start, Passed(acts))
        decreases Stale(rdb.db.streams[pod].pel, s0.now)
      {
        ghost var s1 := rdb.db;
        var reply;
        ghost var steps, b, y, met;
        reply, start, steps, b, y, met := ClaimRound(pod, start, alone, until, s0.now, st0, Passed(acts));
        GoesOn(s0, acts, s1, steps, rdb.db, pod, outside, k0);
        if alone {
          GrownJoin(st0, s1.streams[pod], rdb.db.streams[pod], added, gone, b, y);
          GrownKeeps(st0, rdb.db.streams[pod], added + b, gone + y);
        }
        acts, added, gone := acts + steps, added + b, gone + y;
        if !Answered(reply) {
          clean := false;
          break;
        }
        if reply.Nothing? {
          break;
        }
      }
    }

    /** The read rounds of a drain, ten at most; `n` is how many entries they were
        ready to take. */
    method ReadRounds(pod: nat, alone: bool, until: nat)
      returns (clean: bool, ghost acts: seq<Act>, ghost added: seq<Entry>, ghost gone: nat, ghost n: nat)
      requires Valid(until) && pod < |rdb.db.streams|
      modifies rdb, this`passes
      ensures Going(old(rdb.db), old(passes), acts, until)
      ensures rdb.healthy && alone && old(rdb.db).streams[pod].grouped ==> clean
      ensures n <= 10 * ReadCountOf(rdb.db.cfg) && (clean ==> n == 10 * ReadCountOf(rdb.db.cfg))
      ensures alone ==>
        var (st, st') := (old(rdb.db).streams[pod], rdb.db.streams[pod]);
        && Sole(old(rdb.db), acts, rdb.db, pod) && st'.grouped == st.grouped
        && Took(Unread(st), Unread(st'), added, gone, Passed(acts), n)
    {
      hide Inv, Step, Enabled, Run, Passed, Sole, Leads, OnTape, Took, Unread, Asking;
      ghost var k0 := passes;
      ghost var s0 := rdb.db;
      ghost var u := Unread(s0.streams[pod]);
      ghost var count := ReadCountOf(s0.cfg);
      acts, added, gone, clean, n := [], [], 0, true, 0;
      SoleNowhere(s0, pod);
      TookNothing(u);
      AskingGrows(0, count);
      var i := 0;
      while i < 10
        invariant clean && i <= 10 && n == Asking(i, count) && Going(s0, k0, acts, until)
        invariant alone ==> Sole(s0, acts, rdb.db, pod) && rdb.db.streams[pod].grouped == s0.streams[pod].grouped
        invariant alone ==> Took(u, Unread(rdb.db.streams[pod]), added, gone, Passed(acts), n)
      {
        AskingGrows(i, count);
        ghost var s1 := rdb.db;
        var reply;
        ghost var steps, b, y;
        reply, steps, b, y := ReadRound(pod, alone, until);
        GoesOn(s0, acts, s1, steps, rdb.db, pod, outside, k0);
        if alone {
          TookMore(u, Unread(s1.streams[pod]), Unread(rdb.db.streams[pod]),
                   added, gone, Passed(acts), n, b, y, Passed(steps), Asked(reply, rdb.db.cfg));
        }
        acts, added, gone, n := acts + steps, added + b, gone + y, n + Asked(reply, rdb.db.cfg);
        if !Answered(reply) {
          clean := false;
          return;
        }
        i := i + 1;
        AskingGrows(i, count);
        if reply.Nothing? {
          if alone {
            TookAll(u, Unread(rdb.db.streams[pod]), added, gone, Passed(acts), n, 10 * count);
          }
          n := 10 * count;
          return;
        }
      }
    }

    /** Acknowledges everything pending, 500 ids at a time. */
    method ForceAckAllPending(pod: nat, alone: bool, until: nat)
      returns (clean: bool, ghost acts: seq<Act>, ghost added: seq<Entry>, ghost gone: nat)
      requires Valid(until) && pod < |rdb.db.streams|
      modifies rdb, this`passes
      ensures Going(old(rdb.db), old(passes), acts, until) && Passed(acts) == []
      ensures rdb.healthy && alone && old(rdb.db).streams[pod].grouped ==> clean
      ensures alone ==>
        var (st, st') := (old(rdb.db).streams[pod], rdb.db.streams[pod]); var n := |st.pel| - |st'.pel|;
        && Sole(old(rdb.db), acts, rdb.db, pod) && Grown(st, st', added, gone)
        && n >= 0 && st'.pel == st.pel[n..] && ForcedOff(old(rdb.db).log, rdb.db.log, st.pel[..n])
        && (clean ==> st'.pel == [])
    {
      hide Inv, Step, Enabled, Grown, Run, Passed, Sole, Leads, OnTape, ForcedOff, Oldest;
      ghost var k0 := passes;
      ghost var (s0, n) := (rdb.db, 0);
      ghost var st0 := s0.streams[pod];
      acts, added, gone, clean := [], [], 0, true;
      SoleNowhere(s0, pod);
      GrownSame(st0, st0);
      NoneForced(s0.log);
      while true
        invariant clean && Going(s0, k0, acts, until) && Passed(acts) == []
        invariant alone ==> Sole(s0, acts, rdb.db, pod) && Grown(st0, rdb.db.streams[pod], added, gone)
        invariant alone ==> 0 <= n <= |st0.pel| && rdb.db.streams[pod].pel == st0.pel[n..]
        invariant alone ==> ForcedOff(s0.log, rdb.db.log, st0.pel[..n])
        decreases rdb.turns, |rdb.db.streams[pod].pel|
      {
        ghost var s1 := rdb.db;
        if alone {
          GrownKeeps(st0, s1.streams[pod], added, gone);
        }
        var more;
        ghost var steps, b, y, m;
        clean, more, steps, b, y, m := ForceAckSome(pod, alone, until);
        GoesOn(s0, acts, s1, steps, rdb.db, pod, outside, k0);
        if alone {
          GrownJoin(st0, s1.streams[pod], rdb.db.streams[pod], added, gone, b, y);
          ForcedJoin(s0.log, s1.log, rdb.db.log, st0.pel, n, m);
        }
        acts, added, gone, n := acts + steps, added + b, gone + y, n + m;
        if !clean || !more {
          break;
        }
      }
    }

    /** XPENDING, others acting before it and after. */
    method ListOldest(pod: nat, count: nat, alone: bool, until: nat)
      returns (ok: bool, ids: seq<Id>, ghost acts: seq<Act>, ghost added: seq<Entry>, ghost gone: nat)
      requires Valid(until) && pod < |rdb.db.streams|
      modifies rdb, this`passes
      ensures Going(old(rdb.db), old(passes), acts, until) && Passed(acts) == []
      ensures rdb.healthy && alone && old(rdb.db).streams[pod].grouped ==> ok
      ensures rdb.turns < old(rdb.turns) || (rdb.turns == old(rdb.turns) && rdb.db == old(rdb.db))
      ensures alone ==>
        var (st, st') := (old(rdb.db).streams[pod], rdb.db.streams[pod]);
        Sole(old(rdb.db), acts, rdb.db, pod) && st'.pel == st.pel && Grown(st, st', added, gone)
      ensures ok && (alone || rdb.turns == old(rdb.turns)) ==>
        Oldest(rdb.db.streams[pod].pel, ids) && |ids| == Min(count, |rdb.db.streams[pod].pel|)
    {
      hide Inv, Step, Enabled, Grown, Run, Passed, Sole, Leads, OnTape;
      ghost var k0 := passes;
      ghost var s0 := rdb.db;
      acts, added, gone := Wait(pod, alone, until);
      ok, ids := true, [];
      ghost var s1 := rdb.db;
      if alone {
        GrownKeeps(s0.streams[pod], s1.streams[pod], added, gone);
      }
      var refused: bool := *;
      if (refused && !rdb.healthy) || !rdb.db.streams[pod].grouped {
        ok := false;
        return;
      }
      ids := rdb.XPendingIds(pod, count);
      ghost var others, b, y := Wait(pod, alone, until);
      GoesOn(s0, acts, s1, others, rdb.db, pod, outside, k0);
      if alone {
        GrownJoin(s0.streams[pod], s1.streams[pod], rdb.db.streams[pod], added, gone, b, y);
      }
      acts, added, gone := acts + others, added + b, gone + y;
    }

    /** One turn of that loop: XPENDING and XACK, others acting before each. */
    method ForceAckSome(pod: nat, alone: bool, until: nat)
      returns (clean: bool, more: bool, ghost acts: seq<Act>, ghost added: seq<Entry>, ghost gone: nat, ghost m: nat)
      requires Valid(until) && pod < |rdb.db.streams|
      modifies rdb, this`passes
      ensures Going(old(rdb.db), old(passes), acts, until) && Passed(acts) == []
      ensures rdb.healthy && alone && old(rdb.db).streams[pod].grouped ==> clean
      ensures clean && more ==>
        || rdb.turns < old(rdb.turns)
        || (rdb.turns == old(rdb.turns) && |rdb.db.streams[pod].pel| < |old(rdb.db).streams[pod].pel|)
      ensures alone ==>
        var (st, st') := (old(rdb.db).streams[pod], rdb.db.streams[pod]);
        && Sole(old(rdb.db), acts, rdb.db, pod) && Grown(st, st', added, gone)
        && m <= |st.pel| && st'.pel == st.pel[m..] && ForcedOff(old(rdb.db).log, rdb.db.log, st.pel[..m])
        && (clean && !more ==> st'.pel == [])
    {
      hide Inv, Step, Enabled, Grown, Run, Passed, Sole, Leads, OnTape, ForcedOff, Oldest;
      ghost var k0 := passes;
      ghost var s0 := rdb.db;
      var ids;
      clean, ids, acts, added, gone := ListOldest(pod, 500, alone, until);
      ghost var s1 := rdb.db;
      more, m := false, 0;
      NoneForced(s0.log);
      ForcedStays(s0.log, s0.log, s1.log, []);
      assert s0.streams[pod].pel[..0] == [];
      var refused: bool := *;
      if (refused && !rdb.healthy) || !clean {
        clean := false;
        return;
      }
      if |ids| == 0 {
        return;
      }
      ghost var acks := rdb.XAckAll(pod, ids);
      GoesOn(s0, acts, s1, acks, rdb.db, pod, outside, k0);
      acts := acts + acks;
      more := |ids| >= 500;
      if alone {
        GrownJoin(s0.streams[pod], s1.streams[pod], rdb.db.streams[pod], added, gone, [], 0);
        ForcedJoin(s0.log, s1.log, rdb.db.log, s0.streams[pod].pel, 0, |ids|);
        added, m := added + [], |ids|;
      }
    }

    /** The later, compared as text, of the cutoff and the oldest pending id, if
        XPENDING answers; others act before it. It meets the state `looked`. */
    method FloorToKeep(cut: Id, alone: bool, until: nat)
      returns (listed: bool, floor: Id, ghost acts: seq<Act>, ghost looked: State)
      requires Valid(until) && cut.ms < rdb.db.now
      modifies rdb, this`passes
      ensures Going(old(rdb.db), old(passes), acts, until) && looked == rdb.db
      ensures alone ==> AllLeaveGroup(Events(acts), podId)
      ensures FloorOk(looked.streams[podId], looked.now, floor)
      ensures var pel := looked.streams[podId].pel;
        floor == if listed && pel != [] && CompareStreamIds(Render(pel[0].entry.id), Render(cut)) > 0
                 then pel[0].entry.id else cut
      ensures rdb.healthy && looked.streams[podId].grouped ==> listed
    {
      hide Inv, Leads, OnTape, CompareStreamIds, Render, AllLeaveGroup, FloorOk;
      ghost var k0 := passes;
      acts := rdb.Others(podId, alone, until);
      looked := rdb.db;
      listed := *;
      listed := listed || (rdb.healthy && rdb.db.streams[podId].grouped);
      floor := cut;
      var pel := rdb.db.streams[podId].pel;
      if listed && pel != [] && CompareStreamIds(Render(pel[0].entry.id), Render(cut)) > 0 {
        floor := pel[0].entry.id;
      }
      TrimFloorOk(looked, podId, cut, floor);
    }

    /** One tick of the trim loop: the cutoff, XPENDING, and XTRIM at the floor that
        gives, others acting before each command. XPENDING meets the state `looked`,
        XTRIM the state `mid`. */
    method TrimOnce(retentionMs: nat, alone: bool, until: nat)
      returns (listed: bool, ghost acts: seq<Act>, ghost looked: State, ghost mid: State, ghost k: nat, ghost floor: Id)
      requires Valid(until) && 0 < retentionMs && 0 < rdb.db.now
      modifies rdb, this`passes
      ensures Going(old(rdb.db), old(passes), acts + [Act(Trim(podId, k, floor), true)], until)
      ensures Leads(old(rdb.db), acts, mid) && Inv(mid) && podId < |mid.streams| == |looked.streams|
      ensures alone ==> AllLeaveGroup(Events(acts), podId)
      ensures alone ==> mid.streams[podId].pel == looked.streams[podId].pel
      ensures var pel := looked.streams[podId].pel; var cut := CutoffId(old(rdb.db).now, retentionMs);
        floor == if listed && pel != [] && CompareStreamIds(Render(pel[0].entry.id), Render(cut)) > 0
                 then pel[0].entry.id else cut
      ensures Enabled(mid, Trim(podId, k, floor)) && rdb.db == Step(mid, Trim(podId, k, floor))
      ensures rdb.healthy && looked.streams[podId].grouped ==> listed
      ensures !listed || looked.streams[podId].pel == [] ==> FloorAtAge(floor, old(rdb.db).now, retentionMs)
      ensures rdb.thorough && (!listed || looked.streams[podId].pel == []) ==>
        KeepsByAge(mid.streams[podId], rdb.db.streams[podId], old(rdb.db).now, retentionMs)
    {
      hide KeepsByAge, FloorAtAge;
      hide Inv, Step, Leads, OnTape, CompareStreamIds, Render, XTrim, Below, AllLeaveGroup, FloorOk, Grown, Sole;
      ghost var k0 := passes;
      ghost var s0 := rdb.db;
      var keep;
      listed, keep, acts, looked := FloorToKeep(CutoffId(rdb.db.now, retentionMs), alone, until);
      floor := keep;
      ghost var others := rdb.Others(podId, alone, until);
      mid := rdb.db;
      if alone {
        ghost var b, y := OthersGrow(looked, others, mid, podId);
        AllLeaveBoth(acts, others, podId);
      }
      FloorLeads(looked, others, mid, podId, floor);
      GoesOn(s0, acts, looked, others, mid, podId, outside, k0);
      acts := acts + others;
      k := rdb.XTrimMinId(podId, keep);
      OwnStep(mid, Trim(podId, k, keep), podId);
      TrimClock(mid, podId, k, keep);
      CutoffAtAge(s0.now, retentionMs);
      TrimByAge(mid, podId, k, keep, s0.now, retentionMs);
      GoesOn(s0, acts, mid, [Act(Trim(podId, k, floor), true)], rdb.db, podId, outside, k0);
    }

    /** The first commands of a drain: the group is made sure of, and entries beyond
        the retention of dead pods, as of the time `at`, are trimmed. */
    method TrimDead(dead: nat, alone: bool, until: nat)
      returns (ghost acts: seq<Act>, ghost added: seq<Entry>, ghost trimmed: nat, ghost k: nat, ghost at: nat,
               ghost mid: Stream)
      requires Valid(until) && dead < |rdb.db.streams| && 0 < rdb.db.now
      modifies rdb, this`passes
      ensures Going(old(rdb.db), old(passes), acts, until) && Passed(acts) == []
      ensures old(rdb.db).now <= at <= rdb.db.now
      ensures var retention := if rdb.db.cfg.deadRetentionMs > 0 then rdb.db.cfg.deadRetentionMs else 3600000;
        && FloorAtAge(CutoffId(at, DeadRetention(rdb.db.cfg)), at, retention)
        && (rdb.thorough ==> KeepsByAge(mid, rdb.db.streams[dead], at, retention))
        && (forall i :: 0 <= i < |mid.entries| && at - mid.entries[i].id.ms <= retention ==>
              mid.entries[i] in rdb.db.streams[dead].entries)
      ensures alone && added == [] ==> mid.entries == old(rdb.db).streams[dead].entries
      ensures alone ==>
        && Sole(old(rdb.db), acts, rdb.db, dead)
        && TrimmedTo(old(rdb.db).streams[dead], rdb.db.streams[dead], added, trimmed, k,
                     CutoffId(at, DeadRetention(rdb.db.cfg)))
    {
      hide KeepsByAge, FloorAtAge;
      hide Inv, Step, Enabled, Run, Passed, Sole, Leads, OnTape, Took, Unread, Front, TrimmedTo, XTrim, Below, Grown;
      hide FloorOk, Cut;
      ghost var k0 := passes;
      ghost var s0 := rdb.db;
      acts, added, trimmed := EnsureGroup(dead, alone, until);
      ghost var s1 := rdb.db;
      var floor := CutoffId(rdb.db.now, DeadRetention(rdb.db.cfg));
      at := rdb.db.now;
      PastFloorOk(s1, dead, DeadRetention(s1.cfg));
      ghost var others := rdb.Others(dead, alone, until);
      ghost var s2 := rdb.db;
      FloorLeads(s1, others, s2, dead, floor);
      GoesOn(s0, acts, s1, others, s2, dead, outside, k0);
      acts := acts + others;
      k := rdb.XTrimMinId(dead, floor);
      ghost var lost := TrimFrame(s2, dead, k, floor);
      mid := s2.streams[dead];
      CutoffAtAge(at, DeadRetention(s2.cfg));
      TrimByAge(s2, dead, k, floor, at, DeadRetention(s2.cfg));
      GoesOn(s0, acts, s2, [Act(Trim(dead, k, floor), true)], rdb.db, dead, outside, k0);
      acts := acts + [Act(Trim(dead, k, floor), true)];
      if alone {
        ghost var b, y := OthersTook(s1, others, s2, dead);
        TrimmedJoin(s0.streams[dead], s1.streams[dead], s2.streams[dead], rdb.db.streams[dead],
                    added, trimmed, b, y, k, lost, floor);
        added, trimmed := added + b, trimmed + y + lost;
      }
    }

    /** The reclaim loop and the read rounds of a drain. */
    method Rework(dead: nat, alone: bool, until: nat)
      returns (clean: bool, ghost acts: seq<Act>, ghost added: seq<Entry>, ghost gone: nat,
               ghost n: nat, ghost ids: seq<Id>)
      requires Valid(until) && dead < |rdb.db.streams| && until <= rdb.db.now + MinIdle(rdb.db.cfg)
      modifies rdb, this`passes
      ensures Going(old(rdb.db), old(passes), acts, until)
      ensures rdb.healthy && alone && old(rdb.db).streams[dead].grouped ==> clean
      ensures n <= 10 * ReadCountOf(rdb.db.cfg) && (clean ==> n == 10 * ReadCountOf(rdb.db.cfg))
      ensures forall id :: id in ids ==> id in Passed(acts)
      ensures alone ==>
        var (st, st') := (old(rdb.db).streams[dead], rdb.db.streams[dead]);
        && Sole(old(rdb.db), acts, rdb.db, dead) && st'.grouped == st.grouped
        && Took(Unread(st), Unread(st'), added, gone, ids, n)
        && (clean && added == [] && rdb.db.now == old(rdb.db).now ==>
              Passed(acts) == Ids(Reclaimed(st, rdb.db.cfg, rdb.db.now)) + Ids(Reached(st, rdb.db.cfg)))
    {
      hide Inv, Step, Enabled, Grown, Run, Passed, Sole, Leads, OnTape, Took, Unread, Reclaimed, Batch;
      ghost var k0 := passes;
      ghost var s0 := rdb.db;
      clean, acts, added, gone := ReclaimAll(dead, alone, until);
      ghost var s1 := rdb.db;
      var ok;
      ghost var rounds, b, y;
      ok, rounds, b, y, n := ReadRounds(dead, alone, until);
      GoesOn(s0, acts, s1, rounds, rdb.db, dead, outside, k0);
      ids := Passed(rounds);
      if alone {
        GrownKeeps(s0.streams[dead], s1.streams[dead], added, gone);
        ReworkJoin(s0.streams[dead], s1.streams[dead], rdb.db.streams[dead], added, gone, b, y, ids, n);
      }
      clean, acts, added, gone := clean && ok, acts + rounds, added + b, gone + y;
    }

    /** Others act, and no more. */
    method Wait(pod: nat, alone: bool, until: nat)
      returns (ghost acts: seq<Act>, ghost added: seq<Entry>, ghost gone: nat)
      requires Valid(until) && pod < |rdb.db.streams|
      modifies rdb, this`passes
      ensures Going(old(rdb.db), old(passes), acts, until) && Passed(acts) == []
      ensures rdb.turns < old(rdb.turns) || (rdb.turns == old(rdb.turns) && rdb.db == old(rdb.db))
      ensures alone ==>
        var (st, st') := (old(rdb.db).streams[pod], rdb.db.streams[pod]);
        Sole(old(rdb.db), acts, rdb.db, pod) && st'.pel == st.pel && Grown(st, st', added, gone)
    {
      hide Inv, Step, Enabled, Grown, Run, Sole, Leads, OnTape;
      ghost var k0 := passes;
      ghost var s0 := rdb.db;
      acts := rdb.Others(pod, alone, until);
      added, gone := [], 0;
      if alone {
        added, gone := OthersGrow(s0, acts, rdb.db, pod);
      }
    }

    /** XLEN and XPENDING, others acting before each; an error reads as 0. XLEN
        meets `seen`. */
    method Look(pod: nat, alone: bool, until: nat)
      returns (empty: bool, lenOk: bool, pendOk: bool, ghost acts: seq<Act>, ghost seen: Stream,
               ghost early: seq<Entry>, ghost earlyGone: nat, ghost late: seq<Entry>, ghost lateGone: nat)
      requires Valid(until) && pod < |rdb.db.streams|
      modifies rdb, this`passes
      ensures Going(old(rdb.db), old(passes), acts, until) && Passed(acts) == []
      ensures rdb.healthy ==> lenOk && (alone && old(rdb.db).streams[pod].grouped ==> pendOk)
      ensures alone ==>
        var (st, st') := (old(rdb.db).streams[pod], rdb.db.streams[pod]);
        && Sole(old(rdb.db), acts, rdb.db, pod) && st'.pel == st.pel
        && Grown(st, seen, early, earlyGone) && Grown(seen, st', late, lateGone)
        && (empty <==> (lenOk ==> seen.entries == []) && (pendOk ==> st.pel == []))
        && (early == [] ==> seen.entries == st.entries)
    {
      hide Inv, Step, Enabled, Grown, Run, Sole, Leads, OnTape, Passed;
      ghost var k0 := passes;
      ghost var s0 := rdb.db;
      acts, early, earlyGone := Wait(pod, alone, until);
      ghost var s1 := rdb.db;
      seen := s1.streams[pod];
      if alone {
        GrownKeeps(s0.streams[pod], seen, early, earlyGone);
      }
      lenOk := *;
      lenOk := lenOk || rdb.healthy;
      var length := 0;
      if lenOk {
        length := rdb.XLen(pod);
      }
      ghost var more;
      more, late, lateGone := Wait(pod, alone, until);
      if alone {
        GrownKeeps(seen, rdb.db.streams[pod], late, lateGone);
      }
      pendOk := *;
      pendOk := pendOk || (rdb.healthy && rdb.db.streams[pod].grouped);
      var pending := 0;
      if pendOk {
        pending := rdb.XPendingCount(pod);
      }
      empty := length == 0 && pending == 0;
      GoesOn(s0, acts, s1, more, rdb.db, pod, outside, k0);
      acts := acts + more;
    }

    /** Others act, then XGROUP DESTROY and DEL, if they succeed, of whatever the
        stream holds by now. In the millisecond of its last append they are taken to
        fail. They meet `last`. */
    method Delete(pod: nat, alone: bool, until: nat)
      returns (deleted: bool, ghost acts: seq<Act>, ghost last: Stream, ghost added: seq<Entry>, ghost gone: nat)
      requires Valid(until) && pod < |rdb.db.streams|
      modifies rdb, this`passes
      ensures Going(old(rdb.db), old(passes), acts, until) && Passed(acts) == []
      ensures rdb.healthy && last.entries == [] ==> deleted
      ensures rdb.healthy ==> (deleted <==> InThePast(last.top, rdb.db.now))
      ensures alone ==>
        var (st, st') := (old(rdb.db).streams[pod], rdb.db.streams[pod]);
        && Sole(old(rdb.db), acts, rdb.db, pod)
        && last.pel == st.pel && Grown(st, last, added, gone)
        && st' == if deleted then NO_STREAM else last
    {
      hide Inv, Step, Enabled, Grown, Run, Sole, Leads, OnTape, Passed, InThePast;
      ghost var k0 := passes;
      ghost var s0 := rdb.db;
      acts, added, gone := Wait(pod, alone, until);
      ghost var s1 := rdb.db;
      last := s1.streams[pod];
      deleted := *;
      EmptyIsPast(s1, pod);
      deleted := (deleted || rdb.healthy) && InThePast(rdb.db.streams[pod].top, rdb.db.now);
      if deleted {
        DropFrame(s1, pod);
        rdb.DeleteStream(pod);
        GoesOn(s0, acts, s1, [Act(DropStream(pod), true)], rdb.db, pod, outside, k0);
        acts := acts + [Act(DropStream(pod), true)];
      }
    }

    /** The end of a drain: what is still pending is acknowledged, and a stream that
        looks empty then is deleted. `c` says which commands succeeded, `m` what they
        met. */
    method CloseDead(dead: nat, alone: bool, until: nat)
      returns (c: Closing, deleted: bool, ghost acts: seq<Act>, ghost m: Met)
      requires Valid(until) && dead < |rdb.db.streams|
      modifies rdb, this`passes
      ensures Going(old(rdb.db), old(passes), acts, until) && Passed(acts) == []
      ensures rdb.healthy && alone && old(rdb.db).streams[dead].grouped ==>
        Fine(c) && (m.early == [] && m.late == [] ==> c.deleteOk)
      ensures alone ==>
        && Sole(old(rdb.db), acts, rdb.db, dead)
        && Closed(old(rdb.db).streams[dead], rdb.db.streams[dead], c, m, deleted)
    {
      hide Inv, Step, Enabled, Grown, Run, Passed, Sole, Leads, OnTape, ForcedOff;
      ghost var k0 := passes;
      ghost var s0 := rdb.db;
      ghost var a, x, b, y, d, z;
      var acked;
      acked, acts, a, x := ForceAckAllPending(dead, alone, until);
      ghost var s1 := rdb.db;
      var empty, lenOk, pendOk;
      ghost var looks, seen;
      if alone {
        GrownKeeps(s0.streams[dead], s1.streams[dead], a, x);
      }
      empty, lenOk, pendOk, looks, seen, b, y, d, z := Look(dead, alone, until);
      ghost var s2 := rdb.db;
      GoesOn(s0, acts, s1, looks, s2, dead, outside, k0);
      acts := acts + looks;
      ghost var last := s2.streams[dead];
      if alone {
        GrownJoin(s0.streams[dead], s1.streams[dead], seen, a, x, b, y);
        GrownKeeps(seen, s2.streams[dead], d, z);
      }
      var deleteOk := true;
      deleted := false;
      if empty {
        ghost var steps, e, w;
        deleted, steps, last, e, w := Delete(dead, alone, until);
        GoesOn(s0, acts, s2, steps, rdb.db, dead, outside, k0);
        acts, deleteOk := acts + steps, deleted;
        if alone {
          GrownJoin(seen, s2.streams[dead], last, d, z, e, w);
          GrownKeeps(seen, last, d + e, z + w);
        }
        d, z := d + e, z + w;
      }
      c := Closing(acked, lenOk, pendOk, deleteOk);
      m := Met(seen, a + b, x + y, s1.streams[dead].pel, last, d, z);
    }

    /** drainDeadPod. `started` is false when it gives up at once, for want of a
        group; `clean` says that no command failed between that and the last ones, `c`
        how those went; `d` holds the stages of the drain. */
    method DrainDeadPod(dead: nat, alone: bool, until: nat)
      returns (started: bool, clean: bool, c: Closing, deleted: bool, ghost acts: seq<Act>, ghost d: Drain)
      requires Valid(until) && dead < |rdb.db.streams| && 0 < rdb.db.now
      requires until <= rdb.db.now + MinIdle(rdb.db.cfg)
      modifies rdb, this`passes
      ensures Going(old(rdb.db), old(passes), acts, until)
      ensures rdb.healthy ==> started
      ensures rdb.healthy && alone ==> clean && Fine(c) && (AddedIn(d) == [] ==> c.deleteOk)
      ensures !started ==> rdb.db == old(rdb.db) && acts == []
      ensures alone ==> Sole(old(rdb.db), acts, rdb.db, dead)
      ensures alone && started ==>
        DrainFits(old(rdb.db).streams[dead], rdb.db.streams[dead], clean, c, deleted, Passed(acts), d,
                  rdb.db.cfg, old(rdb.db).now, rdb.db.now)
      ensures alone && started && clean && Fine(c) ==>
        DrainedWell(old(rdb.db).streams[dead], rdb.db.streams[dead], c, deleted, Passed(acts), d,
                    rdb.db.cfg, old(rdb.db).now == rdb.db.now, old(rdb.db).now)
      ensures alone && started ==>
        (Unread(rdb.db.streams[dead]) != Unread(d.end.last) <==>
           && c.deleteOk && (c.pendOk ==> d.end.left == []) && (c.lenOk ==> d.end.seen.entries == [])
           && ((!c.lenOk && Unread(d.end.seen) != []) || d.end.late != []))
    {
      hide Inv, Step, Enabled, Run, Passed, Sole, Leads, OnTape, Took, TrimmedTo, Closed, Reclaimed, Reached, DrainFits;
      hide Unread, DrainedWell;
      ghost var k0 := passes;
      ghost var s0 := rdb.db;
      started := *;
      started := started || rdb.healthy;
      if !started {
        acts, clean, c, deleted := [], false, Closing(false, false, false, false), false;
        SoleNowhere(s0, dead);
        d := Drain(0, 0, 0, [], NO_STREAM, [], 0, 0, [], NO_STREAM, Met(NO_STREAM, [], 0, [], NO_STREAM, [], 0));
        return;
      }
      ghost var a, x, k, at, mid;
      acts, a, x, k, at, mid := TrimDead(dead, alone, until);
      ghost var s1 := rdb.db;
      if alone {
        TrimmedKeeps(s0.streams[dead], s1.streams[dead], a, x, k, CutoffId(at, DeadRetention(s0.cfg)));
      }
      ghost var steps, b, y, n, ids, m;
      clean, steps, b, y, n, ids := Rework(dead, alone, until);
      ghost var s2 := rdb.db;
      GoesOn(s0, acts, s1, steps, s2, dead, outside, k0);
      acts := acts + steps;
      ghost var passed := Passed(steps);
      assert [] + passed == passed && passed + [] == passed;
      c, deleted, steps, m := CloseDead(dead, alone, until);
      GoesOn(s0, acts, s2, steps, rdb.db, dead, outside, k0);
      acts := acts + steps;
      d := Drain(k, at, x, a, s1.streams[dead], b, y, n, ids, s2.streams[dead], m);
      if alone {
        DrainIs(s0.streams[dead], rdb.db.streams[dead], clean, c, deleted, passed, d, s0.cfg,
                s0.now, s1.now, s2.now, rdb.db.now);
        UnreadIsDeletedExactly(d.worked, rdb.db.streams[dead], c, m, deleted);
        NothingIn(d);
        if clean && Fine(c) {
          DrainAchieves(s0.streams[dead], rdb.db.streams[dead], c, deleted, passed, d, s0.cfg, s0.now, rdb.db.now);
        }
      }
    }

    /** Others act, then one tick of the janitor loop: if the dead pod has no heartbeat
        and its lock can be had (`ran`), its stream is drained; `ok` says that no
        command failed. */
    method JanitorPass(dead: nat, free: bool, alone: bool)
      returns (ok: bool, ghost acts: seq<Act>, ghost added: seq<Entry>, ghost gone: nat)
      requires Valid(rdb.db.now + 1) && dead < |rdb.db.streams| && 0 < rdb.db.now
      modifies rdb, this`passes
      ensures Going(old(rdb.db), old(passes), acts, rdb.db.now + 1)
      ensures rdb.healthy && alone ==> ok
      ensures alone ==>
        var (st, st') := (old(rdb.db).streams[dead], rdb.db.streams[dead]);
        && Sole(old(rdb.db), acts, rdb.db, dead)
        && Drained(Unread(st), Unread(st'), added, gone, if free && ok then 10 * ReadCountOf(rdb.db.cfg) else 0)
        && (ok && added == [] ==>
              Spent(Unread(st), gone, Passed(acts), CutoffId(rdb.db.now, DeadRetention(rdb.db.cfg))))
        && (free && ok ==> st'.pel == [])
    {
      hide Inv, Step, Enabled, Run, Passed, Sole, Leads, OnTape, Took, Unread, Drained, Reclaimed, Reached, Emptied;
      hide Grown, DrainFits, DrainedWell, Spent, Cut, AddedIn, TrimLost;
      ghost var k0 := passes;
      ghost var s0 := rdb.db;
      var gap: int := *;
      acts := rdb.Others(dead, alone, rdb.db.now + 1 + if gap < 0 then 0 else gap);
      ghost var s1 := rdb.db;
      added, gone, ok := [], 0, true;
      if alone {
        added, gone := OthersTook(s0, acts, s1, dead);
        TookDrained(Unread(s0.streams[dead]), Unread(s1.streams[dead]), added, gone, [], 0);
        TookSpent(Unread(s0.streams[dead]), Unread(s1.streams[dead]), added, gone, Passed(acts),
                  CutoffId(s1.now, DeadRetention(s1.cfg)));
      }
      if !free {
        return;
      }
      var started, clean, c, deleted;
      ghost var steps, d;
      started, clean, c, deleted, steps, d := DrainDeadPod(dead, alone, rdb.db.now + MinIdle(rdb.db.cfg));
      GoesOn(s0, acts, s1, steps, rdb.db, dead, outside, k0);
      acts := acts + steps;
      ghost var passed := Passed(steps);
      assert [] + passed == passed;
      ok := started && clean && Fine(c);
      if alone && started {
        added, gone := PassJoin(s0.streams[dead], s1.streams[dead], rdb.db.streams[dead], added, gone,
                                clean, c, deleted, passed, d, s0.cfg, s1.now, rdb.db.now);
      }
    }

    /** One dead pod over several ticks of the janitor loop; `ticks` says at which of
        them it has no heartbeat and its lock is free, and `n` counts the drains without a
        failing command. Each of these takes ten reads' worth of entries off the front,
        or all there were, so enough of them take every entry that was there at the
        beginning; and if none fails, no entry goes but old ones and those passed over. */
    method JanitorPasses(dead: nat, ticks: seq<bool>, alone: bool)
      returns (n: nat, ok: bool, ghost acts: seq<Act>, ghost added: seq<Entry>, ghost gone: nat)
      requires Valid(rdb.db.now + 1) && dead < |rdb.db.streams| && 0 < rdb.db.now
      modifies rdb, this`passes
      ensures Going(old(rdb.db), old(passes), acts, rdb.db.now + 1) && n <= Runs(ticks)
      ensures rdb.healthy && alone ==> ok && n == Runs(ticks)
      ensures alone ==>
        var (st, st') := (old(rdb.db).streams[dead], rdb.db.streams[dead]);
        && Sole(old(rdb.db), acts, rdb.db, dead)
        && Drained(Unread(st), Unread(st'), added, gone, n * (10 * ReadCountOf(rdb.db.cfg)))
        && (ok && added == [] ==>
              Spent(Unread(st), gone, Passed(acts), CutoffId(rdb.db.now, DeadRetention(rdb.db.cfg))))
    {
      hide Inv, Step, Enabled, Run, Passed, Sole, Leads, OnTape, Took, Unread, Drained, Spent;
      ghost var k0 := passes;
      ghost var s0 := rdb.db;
      ghost var (u, reach) := (Unread(s0.streams[dead]), 10 * ReadCountOf(s0.cfg));
      acts, added, gone, n, ok := [], [], 0, 0, true;
      SoleNowhere(s0, dead);
      TookNothing(u);
      TookDrained(u, u, [], 0, [], 0);
      TookSpent(u, u, [], 0, [], CutoffId(s0.now, DeadRetention(s0.cfg)));
      for i := 0 to |ticks|
        invariant n <= Runs(ticks[..i]) && Going(s0, k0, acts, rdb.db.now + 1)
        invariant rdb.healthy && alone ==> ok && n == Runs(ticks[..i])
        invariant alone ==>
          && Sole(s0, acts, rdb.db, dead)
          && Drained(u, Unread(rdb.db.streams[dead]), added, gone, n * reach)
          && (ok && added == [] ==> Spent(u, gone, Passed(acts), CutoffId(rdb.db.now, DeadRetention(s0.cfg))))
      {
        ghost var s1 := rdb.db;
        var good;
        ghost var steps, b, y;
        good, steps, b, y := JanitorPass(dead, ticks[i], alone);
        GoesOn(s0, acts, s1, steps, rdb.db, dead, outside, k0);
        if alone {
          DrainedMore(u, Unread(s1.streams[dead]), Unread(rdb.db.streams[dead]), added, gone, n * reach,
                      b, y, if ticks[i] && good then reach else 0);
          assert n * reach + reach == (n + 1) * reach;
          if ok && good && added + b == [] {
            PassesSpend(u, Unread(s1.streams[dead]), Unread(rdb.db.streams[dead]), added, gone, n * reach, Passed(acts),
                        b, y, Passed(steps), s1.now, rdb.db.now, DeadRetention(s0.cfg));
          }
        }
        acts, ok, added, gone := acts + steps, ok && good, added + b, gone + y;
        RunsNext(ticks, i);
        if ticks[i] && good {
          n := n + 1;
        }
      }
      assert ticks[..|ticks|] == ticks;
    }
  }
}
