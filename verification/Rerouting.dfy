/** Bounded re-routing: while presence stands still and every recorded pod is
    alive, a message reaches its client's pod in one hop and ends there. */
module Rerouting {
  import opened StreamIds
  import opened RedisStreams
  import opened Cluster
  import opened WellFormed
  import opened StreamLaws
  import opened Conservation
  import opened Stranding

  /** A presence that stands still: each client's recorded pod, the clients in
      each pod's pool, the pods with a heartbeat. */
  datatype World = World(home: map<string, nat>, pool: set<(nat, string)>, alive: set<nat>)

  ghost predicate HomesAlive(w: World) {
    forall c :: c in w.home ==> w.home[c] in w.alive
  }

  function LookupOf(w: World, client: string): Lookup {
    if client in w.home then At(w.home[client]) else Offline
  }

  /** The answers that world gives to pod `who` working on pod's stream, when
      lookups and XADD succeed; only sends may still fail. */
  predicate Answers(w: World, who: nat, pod: nat, client: string, env: Env) {
    && env.local == ((who, client) in w.pool)
    && env.first == env.again == env.inner == LookupOf(w, client)
    && env.added
    && env.sourceAlive == (pod in w.alive)
  }

  /** A pod works on its own stream; a janitor on that of a pod without heartbeat. */
  predicate MayProcess(w: World, who: nat, pod: nat) {
    who in w.alive && (who == pod || pod !in w.alive)
  }

  /** 1 in the wrong stream, 0 in the stream of the client's own pod. */
  function Rank(w: World, client: string, pod: nat): nat
    requires client in w.home
  {
    if w.home[client] == pod then 0 else 1
  }

  /** A pass over a known client's entry never leaves it pending; it moves it
      only to the client's recorded pod, and the rank strictly drops; at rank 0
      it appends nothing at all. */
  lemma HopsDescend(cfg: Config, w: World, who: nat, pod: nat, e: Entry, now: nat, env: Env)
    requires HomesAlive(w) && e.client in w.home
    requires MayProcess(w, who, pod) && Answers(w, who, pod, e.client, env)
    ensures var v := Decide(cfg, who, pod, e, now, env);
      && !v.Keep?
      && (v.Move? ==> v.to == w.home[e.client] && Rank(w, e.client, v.to) < Rank(w, e.client, pod))
      && (Rank(w, e.client, pod) == 0 ==> who == pod && (v.Deliver? || v.Discard?))
  {
    assert w.home[e.client] in w.alive;
  }

  /** On a good entry, the pass of any pod but the home either delivers on the
      spot or hands the message over. */
  lemma WrongStreamMovesOn(cfg: Config, w: World, who: nat, pod: nat, e: Entry, now: nat, env: Env)
    requires HomesAlive(w) && e.client in w.home && e.client != ""
    requires MayProcess(w, who, pod) && Answers(w, who, pod, e.client, env)
    requires cfg.maxPendingMs > 0 ==> Age(now, e.id) <= cfg.maxPendingMs
    requires who != w.home[e.client]
    ensures Decide(cfg, who, pod, e, now, env) ==
      if (who, e.client) in w.pool && env.sent then Deliver else Move(w.home[e.client])
  {
    assert w.home[e.client] in w.alive;
  }

  // ----- Every run -----

  /** The event fits a presence that stands still. */
  predicate Fits(w: World, s: State, e: Event) {
    e.Process? && Enabled(s, e) ==>
      MayProcess(w, e.who, e.pod) && Answers(w, e.who, e.pod, Record(s, e.pod, e.id).entry.client, e.env)
  }

  /** All processing of a run does; whatever else happens in it is free. */
  predicate Steadfast(w: World, s: State, es: seq<Event>) {
    es == [] ||
      (Steadfast(w, s, es[..|es| - 1])
       && (Run(s, es[..|es| - 1]).Some? ==> Fits(w, Run(s, es[..|es| - 1]).value, es[|es| - 1])))
  }

  /** A pass that appends message t to another stream. */
  predicate IsHop(s: State, e: Event, t: nat) {
    && e.Process? && Enabled(s, e)
    && Record(s, e.pod, e.id).entry.token == t
    && Decide(s.cfg, e.who, e.pod, Record(s, e.pod, e.id).entry, s.now, e.env).Move?
  }

  function Hops(s: State, es: seq<Event>, t: nat): nat {
    if es == [] then 0
    else
      var init := es[..|es| - 1];
      Hops(s, init, t) + if Run(s, init).Some? && IsHop(Run(s, init).value, es[|es| - 1], t) then 1 else 0
  }

  /** Copies of message t that are not in stream h. */
  function Far(s: State, h: nat, t: nat): int
    requires h < |s.streams|
  {
    AllLive(s.streams, t) - LiveIn(s.streams[h], t)
  }

  lemma {:induction false} FarIsNat(streams: seq<Stream>, h: nat, t: nat)
    requires h < |streams|
    ensures AllLive(streams, t) >= LiveIn(streams[h], t)
  {
    hide LiveIn;
    if h > 0 {
      FarIsNat(streams[1..], h - 1, t);
    }
  }

  /** What replacing one stream does to the copies elsewhere. */
  lemma FarUpdate(s: State, s': State, pod: nat, st: Stream, h: nat, t: nat)
    requires h < |s.streams| && pod < |s.streams| && s'.streams == s.streams[pod := st]
    ensures Far(s', h, t) == Far(s, h, t) + if pod == h then 0 else LiveIn(st, t) - LiveIn(s.streams[pod], t)
  {
    hide LiveIn;
    AllLiveUpdate(s.streams, pod, st, t);
  }

  lemma AppendFar(s: State, pod: nat, m: Message, token: nat, evict: nat, h: nat, t: nat)
    requires Inv(s) && pod < |s.streams| && CanEvict(s, pod, evict) && h < |s.streams|
    ensures var s' := Append(s, pod, m, token, evict);
      && |s'.streams| == |s.streams|
      && Far(s', h, t) <= Far(s, h, t) + if pod != h && token == t then 1 else 0
  {
    var st, e := s.streams[pod], NewEntry(s, pod, m, token);
    assert PodOk(pod, st, s.now, s.copies, s.handed);
    hide Inv, PodOk, LiveIn, XAdd, XTrim, Far;
    LiveAdd(st, s.now, e, t);
    AddedIsUnread(st, s.now, e);
    AppendStreams(s, pod, m, token, evict);
    LiveTrim(XAdd(st, e), s.now, evict, t);
    FarUpdate(s, Append(s, pod, m, token, evict), pod, XTrim(XAdd(st, e), evict), h, t);
  }

  lemma AppendStreams(s: State, pod: nat, m: Message, token: nat, evict: nat)
    requires pod < |s.streams| && CanEvict(s, pod, evict)
    ensures evict <= |XAdd(s.streams[pod], NewEntry(s, pod, m, token)).entries|
    ensures Append(s, pod, m, token, evict).streams
      == s.streams[pod := XTrim(XAdd(s.streams[pod], NewEntry(s, pod, m, token)), evict)]
  {
  }

  /** A pass over message t: it leaves the far copies alone or takes one away,
      and a hop takes one away. */
  lemma ProcessFar(w: World, s: State, e: Event, t: nat)
    requires Inv(s) && AllGenuine(s) && e.Process? && Enabled(s, e) && HomesAlive(w) && Fits(w, s, e)
    requires t < |s.published| && s.published[t].client in w.home && w.home[s.published[t].client] < |s.streams|
    ensures var h := w.home[s.published[t].client];
      && |Step(s, e).streams| == |s.streams|
      && Far(Step(s, e), h, t) + (if IsHop(s, e, t) then 1 else 0) <= Far(s, h, t)
  {
    var h := w.home[s.published[t].client];
    var entry := Record(s, e.pod, e.id).entry;
    var v := Decide(s.cfg, e.who, e.pod, entry, s.now, e.env);
    PendingIsGenuine(s, e.pod, e.id);
    if entry.token == t {
      HopsDescend(s.cfg, w, e.who, e.pod, entry, s.now, e.env);
    }
    hide Inv, AllGenuine, Decide, LiveIn, Far, HomesAlive, Answers, MayProcess;
    if v.Keep? {
      LiveHeld(s.streams[e.pod], e.id, 1, t);
      FarUpdate(s, Step(s, e), e.pod, SetHeld(s.streams[e.pod], e.id, 1), h, t);
    } else {
      var s1 := Settle(s, e.who, entry, v, e.evict);
      SettleKeepsPel(s, e.who, entry, v, e.evict, e.pod);
      SettleFar(s, e.who, entry, v, e.evict, h, t);
      LiveAck(s1.streams[e.pod], e.id, t);
      FarUpdate(s1, Step(s, e), e.pod, XAck(s1.streams[e.pod], e.id), h, t);
    }
  }

  lemma SettleFar(s: State, who: nat, e: Entry, v: Verdict, evict: nat, h: nat, t: nat)
    requires Inv(s) && VerdictFits(s, v, evict) && h < |s.streams|
    ensures var s' := Settle(s, who, e, v, evict);
      && |s'.streams| == |s.streams|
      && Far(s', h, t) <= Far(s, h, t) + if v.Move? && v.to != h && e.token == t then 1 else 0
  {
    if v.Move? {
      AppendFar(s, v.to, Message(e.client, e.payload), e.token, evict, h, t);
    }
  }

  lemma PendingIsGenuine(s: State, pod: nat, id: Id)
    requires Inv(s) && AllGenuine(s) && pod < |s.streams| && IsPending(s.streams[pod], id)
    ensures Genuine(s.published, Record(s, pod, id).entry)
  {
    assert PodOk(pod, s.streams[pod], s.now, s.copies, s.handed);
    assert Handout(pod, Record(s, pod, id).entry) in s.handed;
  }

  /** The steps that work on one stream. */
  predicate OnOneStream(e: Event) {
    e.CreateGroup? || e.Read? || e.Claim? || e.Abandon? || e.ForceAck? || e.Trim? || e.DropStream?
  }

  /** What such a step leaves of its stream. */
  function StreamAfter(st: Stream, e: Event, now: nat, minIdle: nat): Stream
    requires OnOneStream(e)
    requires e.Claim? ==> e.lo <= e.hi <= |st.pel|
    requires e.Abandon? ==> IsPending(st, e.id)
    requires e.ForceAck? ==> IsPending(st, e.id)
    requires e.Trim? ==> e.k <= |st.entries|
  {
    match e
    case CreateGroup(_) => XGroupCreate(st)
    case Read(_, count) => XReadGroup(st, count, now)
    case Claim(_, lo, hi) => XAutoClaim(st, lo, hi, now, minIdle)
    case Abandon(_, id) => SetHeld(st, id, 0)
    case ForceAck(_, id) => XAck(st, id)
    case Trim(_, k, _) => XTrim(st, k)
    case DropStream(_) => NO_STREAM
  }

  lemma OneStreamStep(s: State, e: Event)
    requires Enabled(s, e) && OnOneStream(e)
    ensures Step(s, e).streams == s.streams[e.pod := StreamAfter(s.streams[e.pod], e, s.now, MinIdle(s.cfg))]
  {
    hide XReadGroup, XAutoClaim, XGroupCreate, SetHeld, XAck, TrimLost, ClaimLost, Losses;
  }

  lemma OneStreamLive(st: Stream, e: Event, now: nat, minIdle: nat, t: nat)
    requires StreamOk(st, now) && OnOneStream(e)
    requires e.Claim? ==> e.lo <= e.hi <= |st.pel|
    requires e.Abandon? ==> IsPending(st, e.id)
    requires e.ForceAck? ==> IsPending(st, e.id)
    requires e.Trim? ==> e.k <= |st.entries|
    ensures LiveIn(StreamAfter(st, e, now, minIdle), t) <= LiveIn(st, t)
  {
    hide LiveIn, XReadGroup, XAutoClaim, XGroupCreate, XTrim, SetHeld, XAck, StreamOk;
    match e
    case CreateGroup(_) =>
      if !st.grouped {
        UngroupedIsEmpty(st, now);
      }
      LiveCreate(st, t);
    case Read(_, count) => LiveRead(st, now, count, t);
    case Claim(_, lo, hi) => LiveClaim(st, lo, hi, now, minIdle, t);
    case Abandon(_, id) => LiveHeld(st, id, 0, t);
    case ForceAck(_, id) => LiveAck(st, id, t);
    case Trim(_, k, _) => LiveTrim(st, now, k, t);
    case DropStream(_) => LiveSplit(NO_STREAM, t);
  }

  lemma UngroupedIsEmpty(st: Stream, now: nat)
    requires StreamOk(st, now) && !st.grouped
    ensures st.cursor == ZERO && st.pel == []
  {
  }

  lemma FarStep(w: World, s: State, e: Event, t: nat)
    requires Inv(s) && AllGenuine(s) && !e.Effect? && !e.Ack? && Enabled(s, e) && HomesAlive(w) && Fits(w, s, e)
    requires t < |s.published| && s.published[t].client in w.home && w.home[s.published[t].client] < |s.streams|
    ensures var h := w.home[s.published[t].client];
      && |Step(s, e).streams| == |s.streams| && s.published <= Step(s, e).published
      && Far(Step(s, e), h, t) + (if IsHop(s, e, t) then 1 else 0) <= Far(s, h, t)
  {
    PublishedStays(s, e);
    hide Inv, Far, AllGenuine, Step;
    if e.Process? {
      ProcessFar(w, s, e, t);
    } else if OnOneStream(e) {
      OneStreamFar(w, s, e, t);
    } else if e.Publish? {
      PublishFar(w, s, e, t);
    } else {
      TickFar(w, s, e, t);
    }
  }

  lemma TickFar(w: World, s: State, e: Event, t: nat)
    requires e.Tick? && t < |s.published|
    requires s.published[t].client in w.home && w.home[s.published[t].client] < |s.streams|
    ensures Far(Step(s, e), w.home[s.published[t].client], t) == Far(s, w.home[s.published[t].client], t)
  {
  }

  lemma OneStreamFar(w: World, s: State, e: Event, t: nat)
    requires Inv(s) && Enabled(s, e) && OnOneStream(e)
    requires t < |s.published| && s.published[t].client in w.home && w.home[s.published[t].client] < |s.streams|
    ensures Far(Step(s, e), w.home[s.published[t].client], t) <= Far(s, w.home[s.published[t].client], t)
  {
    assert PodOk(e.pod, s.streams[e.pod], s.now, s.copies, s.handed);
    hide Inv, LiveIn, Far, Step, StreamAfter, StreamOk, PodOk;
    OneStreamStep(s, e);
    OneStreamLive(s.streams[e.pod], e, s.now, MinIdle(s.cfg), t);
    FarUpdate(s, Step(s, e), e.pod, Step(s, e).streams[e.pod], w.home[s.published[t].client], t);
  }

  lemma PublishFar(w: World, s: State, e: Event, t: nat)
    requires Inv(s) && Enabled(s, e) && e.Publish?
    requires t < |s.published| && s.published[t].client in w.home && w.home[s.published[t].client] < |s.streams|
    ensures Far(Step(s, e), w.home[s.published[t].client], t) <= Far(s, w.home[s.published[t].client], t)
  {
    hide Inv, LiveIn, Append;
    AppendFar(s, e.pod, e.message, |s.published|, e.evict, w.home[s.published[t].client], t);
  }

  lemma PublishedStays(s: State, e: Event)
    requires Enabled(s, e)
    ensures s.published <= Step(s, e).published && |Step(s, e).streams| == |s.streams|
  {
    hide Decide, XAutoClaim, XReadGroup, XAck, XTrim, XAdd, TrimLost, ClaimLost, Losses, SetHeld, XGroupCreate;
  }

  lemma {:induction false} HopsAndFar(w: World, s: State, es: seq<Event>, t: nat)
    requires Inv(s) && AllGenuine(s) && Atomic(es) && Run(s, es).Some? && Steadfast(w, s, es) && HomesAlive(w)
    requires t < |s.published| && s.published[t].client in w.home && w.home[s.published[t].client] < |s.streams|
    ensures var (h, last) := (w.home[s.published[t].client], Run(s, es).value);
      && Inv(last) && AllGenuine(last) && s.published <= last.published && |last.streams| == |s.streams|
      && Hops(s, es, t) + Far(last, h, t) <= Far(s, h, t)
  {
    hide Inv, AllGenuine, Step, Enabled, Fits, IsHop, Far, HomesAlive;
    if es != [] {
      var init, e := es[..|es| - 1], es[|es| - 1];
      HopsAndFar(w, s, init, t);
      var r := Run(s, init).value;
      FarStep(w, r, e, t);
      InvStep(r, e);
      GenuineStep(r, e);
    }
  }

  /** While presence stands still and recorded pods are alive, in every run from
      every reachable state, whatever reads, claims, publishes, trims, drains and
      crashes it contains: the hops of a message plus its copies left outside its
      client's stream are no more than there were, and that is one at most. So a
      message hops at most once, and never out of its client's stream. */
  lemma HopsAreBounded(cfg: Config, pods: nat, before: seq<Event>, es: seq<Event>, w: World, t: nat)
    requires Atomic(before) && Atomic(es) && Run(Start(cfg, pods), before).Some? && HomesAlive(w)
    requires var s := Run(Start(cfg, pods), before).value;
      && Run(s, es).Some? && Steadfast(w, s, es)
      && t < |s.published| && s.published[t].client in w.home && w.home[s.published[t].client] < |s.streams|
    ensures var s := Run(Start(cfg, pods), before).value;
      var (h, last) := (w.home[s.published[t].client], Run(s, es).value);
      && |last.streams| == |s.streams|
      && 0 <= Far(last, h, t)
      && Hops(s, es, t) + Far(last, h, t) <= Far(s, h, t) <= 1
  {
    hide Run, Hops, Steadfast, LiveIn, AllLive;
    StartInv(cfg, pods);
    RunInv(Start(cfg, pods), before);
    RunGenuine(cfg, pods, before);
    var s := Run(Start(cfg, pods), before).value;
    var h := w.home[s.published[t].client];
    HopsAndFar(w, s, es, t);
    RunBalance(cfg, pods, before, t);
    FarIsNat(s.streams, h, t);
    FarIsNat(Run(s, es).value.streams, h, t);
  }

  // ----- The last pass -----

  /** A pass over message t in its client's stream that can succeed. */
  predicate GoodPass(w: World, s: State, e: Event, t: nat) {
    && e.Process? && Enabled(s, e) && Fits(w, s, e)
    && var entry := Record(s, e.pod, e.id).entry;
    && entry.token == t && entry.client != "" && entry.client in w.home && w.home[entry.client] == e.pod
    && (e.pod, entry.client) in w.pool && e.env.sent
    && (s.cfg.maxPendingMs > 0 ==> Age(s.now, entry.id) <= s.cfg.maxPendingMs)
  }

  lemma GoodPassDelivers(w: World, s: State, e: Event, t: nat)
    requires HomesAlive(w) && GoodPass(w, s, e, t)
    ensures e.who == e.pod
    ensures Step(s, e).log == s.log + [Delivered(Record(s, e.pod, e.id).entry, e.pod)]
    ensures Step(s, e).copies == s.copies
  {
    assert e.pod in w.alive;
  }

  lemma {:induction false} RunPrefix(s: State, es: seq<Event>, i: nat)
    requires Run(s, es).Some? && i < |es|
    ensures Run(s, es[..i]).Some? && Enabled(Run(s, es[..i]).value, es[i])
    ensures Step(Run(s, es[..i]).value, es[i]).log <= Run(s, es).value.log
  {
    hide Step, Enabled;
    var init := es[..|es| - 1];
    if i < |es| - 1 {
      RunPrefix(s, init, i);
      assert init[..i] == es[..i];
      LogGrows(Run(s, init).value, es[|es| - 1]);
    } else {
      assert es[..i] == init;
    }
  }

  lemma {:induction false} DeliveryIsCounted(log: seq<Outcome>, k: nat)
    requires k < |log| && log[k].Delivered?
    ensures Deliveries(log, log[k].entry.token) >= 1
  {
    if k < |log| - 1 {
      DeliveryIsCounted(log[..|log| - 1], k);
    }
  }

  /** Wherever in a run such a pass over a message comes, the message is delivered
      on its client's pod, to its client, with its payload, once and for all. */
  lemma ReachesItsClient(cfg: Config, pods: nat, before: seq<Event>, es: seq<Event>, w: World, t: nat, i: nat)
    requires Atomic(before) && Atomic(es) && Run(Start(cfg, pods), before).Some? && HomesAlive(w)
    requires var s := Run(Start(cfg, pods), before).value;
      && Run(s, es).Some? && t < |s.published| && i < |es|
      && Run(s, es[..i]).Some? && GoodPass(w, Run(s, es[..i]).value, es[i], t)
    ensures var s := Run(Start(cfg, pods), before).value;
      var r := Run(s, es[..i]).value;
      var (entry, last) := (Record(r, es[i].pod, es[i].id).entry, Run(s, es).value);
      && |r.log| < |last.log| && last.log[|r.log|] == Delivered(entry, w.home[entry.client])
      && Message(entry.client, entry.payload) == s.published[t]
      && Deliveries(last.log, t) == 1 && Drops(last.log, t) == 0 && AllLive(last.streams, t) == 0
  {
    hide Run, Deliveries, Drops, AllRecoverable, AllStranded, AllLive, Step;
    var s := Run(Start(cfg, pods), before).value;
    var (r, last) := (Run(s, es[..i]).value, Run(s, es).value);
    RunPrefix(s, es, i);
    GoodPassDelivers(w, r, es[i], t);
    DeliveryIsCounted(last.log, |r.log|);
    PublishedInRun(s, es);
    PublishedInRun(s, es[..i]);
    RunConcat(Start(cfg, pods), before, es);
    RunConcat(Start(cfg, pods), before, es[..i]);
    ExactlyOnceAccount(cfg, pods, before + es, t);
    LiveIsBoth(last.streams, t);
    StartInv(cfg, pods);
    RunInv(Start(cfg, pods), before + es[..i]);
    RunGenuine(cfg, pods, before + es[..i]);
    PendingIsGenuine(r, es[i].pod, es[i].id);
  }

  lemma {:induction false} PublishedInRun(s: State, es: seq<Event>)
    requires Run(s, es).Some?
    ensures s.published <= Run(s, es).value.published
  {
    hide Step, Enabled;
    if es != [] {
      PublishedInRun(s, es[..|es| - 1]);
      PublishedStays(Run(s, es[..|es| - 1]).value, es[|es| - 1]);
    }
  }

  // ----- A run that gets there -----

  /** From any held entry whose pass moves it there is such a run: the hop, some
      waiting, as many reads of the loop's size as the backlog takes, a pass. */
  lemma OneHopThenDelivered(s: State, w: World, who: nat, pod: nat, id: Id, env: Env, wait: nat, env': Env)
    returns (es: seq<Event>, last: State)
    requires Inv(s) && HomesAlive(w) && pod < |s.streams| && IsPending(s.streams[pod], id)
    requires Enabled(s, Process(who, pod, id, env, 0))
    requires var c := Record(s, pod, id).entry.client;
      && c in w.home && c != ""
      && MayProcess(w, who, pod) && Answers(w, who, pod, c, env)
      && w.home[c] < |s.streams| && s.streams[w.home[c]].grouped
      && Answers(w, w.home[c], w.home[c], c, env') && env'.sent && (w.home[c], c) in w.pool
      && Decide(s.cfg, who, pod, Record(s, pod, id).entry, s.now, env).Move?
    requires s.cfg.maxPendingMs > 0 ==> wait <= s.cfg.maxPendingMs
    ensures Run(s, es) == Some(last) && |es| >= 4
    ensures var e := Record(s, pod, id).entry; var home := w.home[e.client];
      && es[0] == Process(who, pod, id, env, 0) && es[1] == Tick(wait)
      && (forall i :: 2 <= i < |es| - 1 ==> es[i] == Read(home, ReadCountOf(s.cfg)))
      && |last.log| == |s.log| + 1
      && last.log[|s.log|].Delivered? && last.log[|s.log|].pod == home
      && last.log[|s.log|].entry.client == e.client
      && last.log[|s.log|].entry.payload == e.payload
      && last.log[|s.log|].entry.token == e.token
      && last.copies == s.copies + 1
      && |last.streams| == |s.streams|
      && !IsPending(last.streams[home], last.log[|s.log|].entry.id)
  {
    hide Inv, Step, Enabled, Run, Decide, ReadCountOf;
    var e := Record(s, pod, id).entry;
    var home := w.home[e.client];
    var e1 := Process(who, pod, id, env, 0);
    var m := NewEntry(s, home, Message(e.client, e.payload), e.token);
    FirstPass(s, w, who, pod, id, env);
    var s1 := Step(s, e1);
    TickRuns(s1, wait);
    var s2 := Step(s1, Tick(wait));
    var rounds, s3 := ReadsReach(s2, home, m);
    var e4 := Process(home, home, m.id, env', 0);
    LastPass(s3, w, home, m, env');
    last := Step(s3, e4);
    es := [e1, Tick(wait)] + rounds + [e4];
    JourneyRuns(s, e1, Tick(wait), rounds, e4);
  }

  lemma JourneyRuns(s: State, a: Event, b: Event, es: seq<Event>, d: Event)
    requires Enabled(s, a) && Enabled(Step(s, a), b) && Run(Step(Step(s, a), b), es).Some?
    requires Enabled(Run(Step(Step(s, a), b), es).value, d)
    ensures Run(s, [a, b] + es + [d]) == Some(Step(Run(Step(Step(s, a), b), es).value, d))
  {
    hide Step, Enabled;
    assert Run(s, []) == Some(s);
    RunSnoc(s, [], a);
    assert [] + [a] == [a] && [a] + [b] == [a, b];
    RunSnoc(s, [a], b);
    RunConcat(s, [a, b], es);
    RunSnoc(s, [a, b] + es, d);
  }

  lemma TickRuns(s: State, wait: nat)
    requires Inv(s)
    ensures Enabled(s, Tick(wait)) && Inv(Step(s, Tick(wait)))
    ensures Step(s, Tick(wait)) == s.(now := s.now + wait)
  {
    InvStep(s, Tick(wait));
  }

  lemma FirstPass(s: State, w: World, who: nat, pod: nat, id: Id, env: Env)
    requires Inv(s) && HomesAlive(w)
    requires Enabled(s, Process(who, pod, id, env, 0))
    requires var c := Record(s, pod, id).entry.client;
      && c in w.home && MayProcess(w, who, pod) && Answers(w, who, pod, c, env) && w.home[c] < |s.streams|
      && Decide(s.cfg, who, pod, Record(s, pod, id).entry, s.now, env).Move?
    ensures var e := Record(s, pod, id).entry; var home := w.home[e.client];
      var m := NewEntry(s, home, Message(e.client, e.payload), e.token);
      var s1 := Step(s, Process(who, pod, id, env, 0));
      && Inv(s1)
      && |s1.streams| == |s.streams| && s1.log == s.log && s1.copies == s.copies + 1
      && s1.cfg == s.cfg && s1.now == s.now
      && s1.streams[home].grouped == s.streams[home].grouped
      && m.id.ms == s.now && m in Unread(s1.streams[home])
  {
    var e := Record(s, pod, id).entry;
    var home := w.home[e.client];
    HopsDescend(s.cfg, w, who, pod, e, s.now, env);
    MovedCopy(s, who, pod, id, env, home);
    InvStep(s, Process(who, pod, id, env, 0));
  }

  /** The home pod's pass over a copy in hand. */
  lemma LastPass(s: State, w: World, home: nat, m: Entry, env: Env)
    requires Inv(s) && home < |s.streams| && IsPending(s.streams[home], m.id)
    requires Record(s, home, m.id).entry == m && Record(s, home, m.id).held
    requires m.client != "" && Answers(w, home, home, m.client, env) && env.sent && (home, m.client) in w.pool
    requires s.cfg.maxPendingMs > 0 ==> Age(s.now, m.id) <= s.cfg.maxPendingMs
    ensures var e := Process(home, home, m.id, env, 0);
      && Enabled(s, e)
      && Step(s, e) == AckAt(s.(log := s.log + [Delivered(m, home)]), home, m.id)
      && |Step(s, e).streams| == |s.streams|
      && !IsPending(Step(s, e).streams[home], m.id)
  {
    assert PodOk(home, s.streams[home], s.now, s.copies, s.handed);
    AckKeepsOk(s.streams[home], s.now, m.id);
  }

  /** What a moving pass leaves: the new copy unread at the end of the home stream. */
  lemma MovedCopy(s: State, who: nat, pod: nat, id: Id, env: Env, home: nat)
    requires Inv(s) && Enabled(s, Process(who, pod, id, env, 0)) && home < |s.streams| && home != pod
    requires var e := Record(s, pod, id).entry; Decide(s.cfg, who, pod, e, s.now, env) == Move(home)
    ensures var e := Record(s, pod, id).entry;
      var m := NewEntry(s, home, Message(e.client, e.payload), e.token);
      var s1 := Step(s, Process(who, pod, id, env, 0));
      && |s1.streams| == |s.streams| && s1.log == s.log && s1.copies == s.copies + 1
      && s1.cfg == s.cfg && s1.now == s.now
      && s1.streams[home] == XAdd(s.streams[home], m)
      && m.id.ms == s.now
      && m in Unread(s1.streams[home])
  {
    var e := Record(s, pod, id).entry;
    var t := Append(s, home, Message(e.client, e.payload), e.token, 0);
    hide Inv, Decide, Unread, Append, XAck, IndexOf, Record, NewEntry, XAdd, CanEvict;
    AppendedCopy(s, home, Message(e.client, e.payload), e.token);
    assert Step(s, Process(who, pod, id, env, 0)) == AckAt(t, pod, id);
  }

  lemma AppendedCopy(s: State, home: nat, msg: Message, token: nat)
    requires Inv(s) && home < |s.streams|
    ensures CanEvict(s, home, 0)
    ensures var (m, t) := (NewEntry(s, home, msg, token), Append(s, home, msg, token, 0));
      && |t.streams| == |s.streams| && t.log == s.log && t.copies == s.copies + 1
      && t.cfg == s.cfg && t.now == s.now
      && t.streams[home] == XAdd(s.streams[home], m)
      && m.id.ms == s.now && m in Unread(t.streams[home])
  {
    var m := NewEntry(s, home, msg, token);
    hide Inv, StreamOk, Unread, Append, CanEvict;
    ClockOfNew(s, home, msg, token);
    SortedHere(s, home);
    hide NewEntry, XAdd, SortedPel;
    AppendPlain(s, home, msg, token);
    AddedIsUnread(s.streams[home], s.now, m);
    LastIsIn(Unread(s.streams[home]), m);
  }

  lemma LastIsIn(u: seq<Entry>, m: Entry)
    ensures m in u + [m]
  {
  }

  lemma AppendPlain(s: State, home: nat, msg: Message, token: nat)
    requires home < |s.streams|
    ensures CanEvict(s, home, 0)
    ensures Append(s, home, msg, token, 0) ==
      WithStream(s, home, XAdd(s.streams[home], NewEntry(s, home, msg, token))).(copies := s.copies + 1)
  {
    hide NewEntry, XAdd, ReadCount;
    var st := XAdd(s.streams[home], NewEntry(s, home, msg, token));
    assert XTrim(st, 0) == st && TrimLost(st, 0) == [];
    assert Losses([], Trimmed) == [];
  }

  lemma ClockOfNew(s: State, home: nat, msg: Message, token: nat)
    requires Inv(s) && home < |s.streams|
    ensures NewEntry(s, home, msg, token).id.ms == s.now
    ensures NewEntry(s, home, msg, token).id == NextId(s.streams[home].top, s.now)
  {
    SortedHere(s, home);
    hide Inv;
  }

  lemma HandOutAt(pel: seq<Pending>, b: seq<Entry>, pel': seq<Pending>, now: nat, j: nat, m: Entry)
    requires pel' == pel + HandOut(b, now) && SortedPel(pel') && j < |b| && b[j] == m
    ensures IndexOf(pel', m.id) == |pel| + j
    ensures pel'[|pel| + j] == Pending(m, now, 1, true, 0)
  {
    assert pel'[|pel| + j] == HandOut(b, now)[j];
    IndexInPel(pel', |pel| + j);
  }

  /** One read either puts an unread entry in hand or brings it nearer. */
  lemma ReadOnce(st: Stream, now: nat, m: Entry, count: nat)
    requires StreamOk(st, now) && st.grouped && m in Unread(st) && count > 0
    ensures var st' := XReadGroup(st, count, now);
      && StreamOk(st', now) && st'.grouped
      && (m !in Batch(st, count) ==> m in Unread(st') && |Unread(st')| < |Unread(st)|)
      && (m in Batch(st, count) ==>
            IsPending(st', m.id) && st'.pel[IndexOf(st'.pel, m.id)] == Pending(m, now, 1, true, 0))
  {
    hide StreamOk, Unread, Batch, XReadGroup, IndexOf, HandOut, SortedPel;
    ReadKeepsOk(st, now, count);
    ReadKeepsGroup(st, now, count);
    if m in Batch(st, count) {
      ReadTakes(st, now, m, count);
    } else {
      ReadLeaves(st, now, m, count);
    }
  }

  lemma ReadLeaves(st: Stream, now: nat, m: Entry, count: nat)
    requires StreamOk(st, now) && m in Unread(st) && count > 0 && m !in Batch(st, count)
    ensures var v := Unread(XReadGroup(st, count, now)); m in v && |v| < |Unread(st)|
  {
    BatchNotEmpty(st, count, m);
    hide StreamOk, Unread, Batch, XReadGroup, HandOut;
    ReadMovesBatch(st, now, count);
    InEither(Batch(st, count), Unread(XReadGroup(st, count, now)), m);
  }

  lemma ReadTakes(st: Stream, now: nat, m: Entry, count: nat)
    requires StreamOk(st, now) && m in Batch(st, count) && SortedPel(XReadGroup(st, count, now).pel)
    ensures var st' := XReadGroup(st, count, now);
      IsPending(st', m.id) && st'.pel[IndexOf(st'.pel, m.id)] == Pending(m, now, 1, true, 0)
  {
    var b := Batch(st, count);
    hide StreamOk, Unread, Batch, XReadGroup, IndexOf, HandOut, SortedPel;
    ReadMovesBatch(st, now, count);
    var j :| 0 <= j < |b| && b[j] == m;
    HandOutAt(st.pel, b, XReadGroup(st, count, now).pel, now, j, m);
  }

  lemma ReadKeepsGroup(st: Stream, now: nat, count: nat)
    requires StreamOk(XReadGroup(st, count, now), now)
    ensures SortedPel(XReadGroup(st, count, now).pel)
    ensures XReadGroup(st, count, now).grouped == st.grouped
  {
    hide Batch, HandOut;
  }

  lemma InEither(a: seq<Entry>, b: seq<Entry>, m: Entry)
    ensures m in a + b <==> m in a || m in b
  {
  }

  lemma BatchNotEmpty(st: Stream, count: nat, m: Entry)
    requires m in Unread(st) && count > 0
    ensures |Batch(st, count)| > 0
  {
  }

  lemma ReadStep(s: State, pod: nat, m: Entry)
    requires Inv(s) && pod < |s.streams| && s.streams[pod].grouped && m in Unread(s.streams[pod])
    ensures var e := Read(pod, ReadCountOf(s.cfg)); var s' := Step(s, e);
      && Enabled(s, e) && Inv(s')
      && |s'.streams| == |s.streams| && s'.streams[pod].grouped
      && s'.log == s.log && s'.copies == s.copies && s'.cfg == s.cfg && s'.now == s.now
      && (m !in Batch(s.streams[pod], ReadCountOf(s.cfg)) ==>
            m in Unread(s'.streams[pod]) && |Unread(s'.streams[pod])| < |Unread(s.streams[pod])|)
      && (m in Batch(s.streams[pod], ReadCountOf(s.cfg)) ==>
            IsPending(s'.streams[pod], m.id) && Record(s', pod, m.id).entry == m && Record(s', pod, m.id).held)
  {
    SortedHere(s, pod);
    InvStep(s, Read(pod, ReadCountOf(s.cfg)));
    hide Inv, StreamOk, Batch, Unread, XReadGroup, IndexOf, HandoutsOf, SortedPel, ReadCountOf;
    ReadCountPositive(s.cfg);
    ReadOnce(s.streams[pod], s.now, m, ReadCountOf(s.cfg));
  }

  lemma ReadCountPositive(cfg: Config)
    ensures ReadCountOf(cfg) > 0
  {
  }

  /** Reads of the loop's size reach any unread entry. */
  lemma ReadsReach(s: State, pod: nat, m: Entry) returns (es: seq<Event>, last: State)
    requires Inv(s) && pod < |s.streams| && s.streams[pod].grouped && m in Unread(s.streams[pod])
    ensures |es| >= 1 && forall i :: 0 <= i < |es| ==> es[i] == Read(pod, ReadCountOf(s.cfg))
    ensures Run(s, es) == Some(last) && Inv(last)
    ensures |last.streams| == |s.streams| && IsPending(last.streams[pod], m.id)
    ensures Record(last, pod, m.id).entry == m && Record(last, pod, m.id).held
    ensures last.log == s.log && last.copies == s.copies && last.cfg == s.cfg && last.now == s.now
    decreases |Unread(s.streams[pod])|
  {
    hide Inv, Step, Enabled, Unread, Batch, Run, ReadCountOf;
    var e := Read(pod, ReadCountOf(s.cfg));
    ReadStep(s, pod, m);
    last := Step(s, e);
    OneEvent(s, e);
    es := [e];
    if m !in Batch(s.streams[pod], ReadCountOf(s.cfg)) {
      var rest;
      rest, last := ReadsReach(last, pod, m);
      RunConcat(s, [e], rest);
      es := [e] + rest;
    }
  }

  lemma OneEvent(s: State, e: Event)
    requires Enabled(s, e)
    ensures Run(s, [e]) == Some(Step(s, e))
  {
    hide Step, Enabled;
    assert Run(s, []) == Some(s);
    RunSnoc(s, [], e);
    assert [] + [e] == [e];
  }
}
