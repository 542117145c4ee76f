/** What a worker does between two commands of its own: a batch in its hands,
    passes over it, and the steps of other workers in between. */
module Batches {
  import opened StreamIds
  import opened RedisStreams
  import opened Cluster
  import opened WellFormed
  import opened StreamLaws
  import opened Stranding
  import opened Departures

  // ----- Own steps and those of others -----

  /** A step of the fleet, and whether it is the worker's own. */
  datatype Act = Act(event: Event, own: bool)

  function Events(acts: seq<Act>): (es: seq<Event>)
    ensures |es| == |acts|
    ensures forall i :: 0 <= i < |acts| ==> es[i] == acts[i].event
  {
    seq(|acts|, i requires 0 <= i < |acts| => acts[i].event)
  }

  function Foreign(es: seq<Event>): (acts: seq<Act>)
    ensures |acts| == |es|
    ensures forall i :: 0 <= i < |es| ==> acts[i] == Act(es[i], false)
  {
    seq(|es|, i requires 0 <= i < |es| => Act(es[i], false))
  }

  /** The steps are a run from s to s'. */
  ghost predicate Leads(s: State, acts: seq<Act>, s': State) {
    Run(s, Events(acts)) == Some(s')
  }

  ghost predicate AllAtomic(acts: seq<Act>) {
    Atomic(Events(acts))
  }

  /** The ids of the worker's own passes, in order. */
  function Passed(acts: seq<Act>): seq<Id> {
    if acts == [] then [] else PassedIn(acts[0]) + Passed(acts[1..])
  }

  function PassedIn(act: Act): seq<Id> {
    if !act.own then []
    else if act.event.Process? then [act.event.id]
    else if act.event.Effect? then [act.event.entry.id]
    else []
  }

  /** The answers its passes had from outside, in order. */
  function Envs(acts: seq<Act>): (envs: seq<Env>)
    ensures |envs| == |Passed(acts)|
  {
    if acts == [] then [] else EnvIn(acts[0]) + Envs(acts[1..])
  }

  function EnvIn(act: Act): (envs: seq<Env>)
    ensures |envs| == |PassedIn(act)|
  {
    if !act.own then []
    else if act.event.Process? then [act.event.env]
    else if act.event.Effect? then [act.event.env]
    else []
  }

  predicate Within(l: Lookup, pods: nat) {
    l.At? ==> l.pod < pods
  }

  /** What a pass makes of an answer: one that names a pod there is not is an error. */
  function Heard(env: Env, pods: nat): Env {
    env.(first := if Within(env.first, pods) then env.first else Failed,
         again := if Within(env.again, pods) then env.again else Failed,
         inner := if Within(env.inner, pods) then env.inner else Failed)
  }

  lemma HeardFits(s: State, who: nat, pod: nat, e: Entry, env: Env, said: Env)
    requires who < |s.streams| && env == Heard(said, |s.streams|)
    ensures var v := Decide(s.cfg, who, pod, e, s.now, env); v.Move? ==> v.to < |s.streams|
  {
  }

  /** The passes heard what the outside world says, from its k-th answer on. */
  ghost predicate OnTape(acts: seq<Act>, tape: nat -> Env, k: nat, pods: nat) {
    forall i :: 0 <= i < |Envs(acts)| ==> Envs(acts)[i] == Heard(tape(k + i), pods)
  }

  lemma {:induction false} EnvsConcat(a: seq<Act>, b: seq<Act>)
    ensures Envs(a + b) == Envs(a) + Envs(b)
  {
    hide EnvIn, Passed;
    if a == [] {
      assert a + b == b;
    } else {
      assert (a + b)[1..] == a[1..] + b;
      EnvsConcat(a[1..], b);
      assert Envs(a + b) == EnvIn(a[0]) + (Envs(a[1..]) + Envs(b));
    }
  }

  lemma TapeGoesOn(a: seq<Act>, b: seq<Act>, tape: nat -> Env, k: nat, pods: nat)
    requires OnTape(a, tape, k, pods) && OnTape(b, tape, k + |Passed(a)|, pods)
    ensures OnTape(a + b, tape, k, pods)
  {
    hide Envs, Passed, Heard;
    EnvsConcat(a, b);
    forall i | 0 <= i < |Envs(a + b)|
      ensures Envs(a + b)[i] == Heard(tape(k + i), pods)
    {
      if i >= |Envs(a)| {
        assert Envs(a + b)[i] == Envs(b)[i - |Envs(a)|];
        assert Envs(b)[i - |Envs(a)|] == Heard(tape(k + |Passed(a)| + (i - |Envs(a)|)), pods);
      }
    }
  }

  lemma NothingHeard(acts: seq<Act>, tape: nat -> Env, k: nat, pods: nat)
    requires Passed(acts) == []
    ensures OnTape(acts, tape, k, pods)
  {
  }

  lemma LeadsNowhere(s: State)
    ensures Leads(s, [], s) && AllAtomic([]) && Passed([]) == []
  {
  }

  lemma LeadsOne(s: State, e: Event, own: bool)
    requires Enabled(s, e)
    ensures Leads(s, [Act(e, own)], Step(s, e))
    ensures !e.Effect? && !e.Ack? ==> AllAtomic([Act(e, own)])
  {
    hide Step, Enabled;
    assert Run(s, []) == Some(s);
    RunSnoc(s, [], e);
    assert Events([Act(e, own)]) == [] + [e];
  }

  lemma LeadsOn(s: State, a: seq<Act>, t: State, b: seq<Act>, u: State)
    requires Leads(s, a, t) && Leads(t, b, u)
    ensures Leads(s, a + b, u)
    ensures AllAtomic(a) && AllAtomic(b) ==> AllAtomic(a + b)
    ensures Passed(a + b) == Passed(a) + Passed(b)
  {
    hide Run;
    RunConcat(s, Events(a), Events(b));
    assert Events(a + b) == Events(a) + Events(b);
    PassedConcat(a, b);
  }

  /** What can be said of a worker that is alone with its group: its passes are
      one step each, and no unread entry goes but by a pass or on record. */
  ghost predicate Sole(s: State, acts: seq<Act>, s': State, pod: nat) {
    AllAtomic(acts) && NoneVanish(s, s', pod, Passed(acts))
  }

  lemma SoleNowhere(s: State, pod: nat)
    requires pod < |s.streams|
    ensures Leads(s, [], s) && Passed([]) == [] && Sole(s, [], s, pod)
  {
    LeadsNowhere(s);
    NoneVanishSame(s, s, pod);
  }

  lemma SoleOn(s: State, a: seq<Act>, t: State, b: seq<Act>, u: State, pod: nat)
    requires Leads(s, a, t) && Leads(t, b, u)
    ensures Leads(s, a + b, u)
    ensures Passed(a + b) == Passed(a) + Passed(b)
    ensures Sole(s, a, t, pod) && Sole(t, b, u, pod) ==> Sole(s, a + b, u, pod)
  {
    hide Leads, NoneVanish, AllAtomic, Passed;
    LeadsOn(s, a, t, b, u);
    if Sole(s, a, t, pod) && Sole(t, b, u, pod) {
      NoneVanishJoin(s, t, u, pod, Passed(a), Passed(b));
    }
  }

  /** And the passes of the second part hear the answers that follow. */
  lemma GoesOn(s: State, a: seq<Act>, t: State, b: seq<Act>, u: State, pod: nat, tape: nat -> Env, k: nat)
    requires Leads(s, a, t) && Leads(t, b, u)
    ensures var n := |u.streams|;
      && (OnTape(a, tape, k, n) || Passed(a) == [])
      && (OnTape(b, tape, k + |Passed(a)|, n) || Passed(b) == []) ==>
        OnTape(a + b, tape, k, n)
    ensures Leads(s, a + b, u)
    ensures Passed(a + b) == Passed(a) + Passed(b)
    ensures Sole(s, a, t, pod) && Sole(t, b, u, pod) ==> Sole(s, a + b, u, pod)
  {
    hide Leads, Sole, Passed, OnTape;
    SoleOn(s, a, t, b, u, pod);
    if (OnTape(a, tape, k, |u.streams|) || Passed(a) == [])
       && (OnTape(b, tape, k + |Passed(a)|, |u.streams|) || Passed(b) == []) {
      if Passed(a) == [] {
        NothingHeard(a, tape, k, |u.streams|);
      }
      if Passed(b) == [] {
        NothingHeard(b, tape, k + |Passed(a)|, |u.streams|);
      }
      TapeGoesOn(a, b, tape, k, |u.streams|);
    }
  }

  lemma {:induction false} PassedConcat(a: seq<Act>, b: seq<Act>)
    ensures Passed(a + b) == Passed(a) + Passed(b)
  {
    hide PassedIn;
    if a == [] {
      assert a + b == b;
    } else {
      assert (a + b)[1..] == a[1..] + b;
      PassedConcat(a[1..], b);
      assert Passed(a + b) == PassedIn(a[0]) + (Passed(a[1..]) + Passed(b));
    }
  }

  lemma {:induction false} ForeignPassNothing(acts: seq<Act>)
    requires forall i :: 0 <= i < |acts| ==> !acts[i].own
    ensures Passed(acts) == []
  {
    if acts != [] {
      ForeignPassNothing(acts[1..]);
    }
  }

  /** What no step changes or takes back. */
  ghost predicate Follows(s: State, s': State) {
    && s'.cfg == s.cfg && |s'.streams| == |s.streams| && s.now <= s'.now
    && s.handed <= s'.handed && s.finished <= s'.finished && s.log <= s'.log
  }

  lemma StepFollows(s: State, e: Event)
    requires Enabled(s, e)
    ensures Follows(s, Step(s, e))
  {
    LogGrows(s, e);
    hide Decide, XAutoClaim, XReadGroup, XAck, XTrim, XAdd, TrimLost, ClaimLost, Losses, SetHeld, XGroupCreate;
  }

  lemma {:induction false} RunFollows(s: State, es: seq<Event>)
    requires Run(s, es).Some?
    ensures Follows(s, Run(s, es).value)
  {
    hide Step, Enabled;
    if es != [] {
      RunFollows(s, es[..|es| - 1]);
      StepFollows(Run(s, es[..|es| - 1]).value, es[|es| - 1]);
    }
  }

  lemma LeadsKeeps(s: State, acts: seq<Act>, s': State)
    requires Leads(s, acts, s')
    ensures Follows(s, s')
    ensures Inv(s) ==> Inv(s')
  {
    hide Inv, Follows, Run;
    RunFollows(s, Events(acts));
    if Inv(s) {
      RunInv(s, Events(acts));
    }
  }

  // ----- Floors -----

  /** A floor that a trim may cut at stays one, whatever is done meanwhile. */
  lemma FloorStays(s: State, e: Event, pod: nat, floor: Id)
    requires Inv(s) && Enabled(s, e) && pod < |s.streams| && FloorOk(s.streams[pod], s.now, floor)
    ensures |Step(s, e).streams| == |s.streams| && FloorOk(Step(s, e).streams[pod], Step(s, e).now, floor)
  {
    StepFollows(s, e);
    SortedHere(s, pod);
    if e.DropStream? && e.pod == pod {
      assert !Before(s.streams[pod].top, floor) || floor.ms < s.now;
    } else {
      hide Inv, StreamOk, Step, Enabled;
      CursorGrows(s, e, pod);
    }
  }

  lemma CursorGrows(s: State, e: Event, pod: nat)
    requires Inv(s) && Enabled(s, e) && pod < |s.streams| && !(e.DropStream? && e.pod == pod)
    ensures |Step(s, e).streams| == |s.streams|
    ensures !Before(Step(s, e).streams[pod].cursor, s.streams[pod].cursor)
  {
    StepFollows(s, e);
    SortedHere(s, pod);
    hide Append, Decide, Settle, XAutoClaim, XAck, SetHeld, TrimLost, Losses, LiveEntries, ReadCount;
    match e
    case Publish(to, m, evict) => AppendCursor(s, to, m, |s.published|, evict, pod);
    case Process(_, _, _, _, _) => ProcessCursor(s, e, pod);
    case Effect(who, p, entry, env, evict) =>
      SettleCursor(s, who, entry, Decide(s.cfg, who, p, entry, s.now, env), evict, pod);
    case Read(p, count) =>
      if p == pod {
        ReadCursor(s.streams[pod], s.now, count);
      }
    case Ack(p, id) => AckCursor(s.streams[p], id);
    case ForceAck(p, id) => AckCursor(s.streams[p], id);
    case Abandon(p, id) => HeldOnly(s.streams[p], id);
    case _ =>
  }

  lemma ProcessCursor(s: State, e: Event, pod: nat)
    requires e.Process? && Enabled(s, e) && pod < |s.streams|
    ensures |Step(s, e).streams| == |s.streams| && Step(s, e).streams[pod].cursor == s.streams[pod].cursor
  {
    var entry := Record(s, e.pod, e.id).entry;
    var v := Decide(s.cfg, e.who, e.pod, entry, s.now, e.env);
    SettleCursor(s, e.who, entry, v, e.evict, pod);
    hide Settle, Decide, CanEvict;
  }

  lemma SettleCursor(s: State, who: nat, e: Entry, v: Verdict, evict: nat, pod: nat)
    requires VerdictFits(s, v, evict) && pod < |s.streams|
    ensures var s' := Settle(s, who, e, v, evict);
      |s'.streams| == |s.streams| && s'.streams[pod].cursor == s.streams[pod].cursor
  {
    if v.Move? {
      AppendCursor(s, v.to, Message(e.client, e.payload), e.token, evict, pod);
    }
    hide Append;
  }

  lemma AppendCursor(s: State, to: nat, m: Message, token: nat, evict: nat, pod: nat)
    requires to < |s.streams| && CanEvict(s, to, evict) && pod < |s.streams|
    ensures var s' := Append(s, to, m, token, evict);
      |s'.streams| == |s.streams| && s'.streams[pod].cursor == s.streams[pod].cursor
  {
  }

  lemma AckCursor(st: Stream, id: Id)
    ensures XAck(st, id).cursor == st.cursor
  {
  }

  lemma ReadCursor(st: Stream, now: nat, count: nat)
    requires StreamOk(st, now)
    ensures !Before(XReadGroup(st, count, now).cursor, st.cursor)
  {
    var (b, r) := (Batch(st, count), ReadCount(st.entries, st.cursor));
    if b != [] {
      PassedIsPrefix(st, now, r + |b| - 1);
      assert b[|b| - 1] == st.entries[r + (|b| - 1)];
    }
  }

  lemma {:induction false} FloorLasts(s: State, es: seq<Event>, pod: nat, floor: Id)
    requires Inv(s) && Run(s, es).Some? && pod < |s.streams| && FloorOk(s.streams[pod], s.now, floor)
    ensures var s' := Run(s, es).value;
      |s'.streams| == |s.streams| && FloorOk(s'.streams[pod], s'.now, floor)
  {
    hide Inv, Step, Enabled, FloorOk;
    if es != [] {
      var init := es[..|es| - 1];
      FloorLasts(s, init, pod, floor);
      RunInv(s, init);
      FloorStays(Run(s, init).value, es[|es| - 1], pod, floor);
    }
  }

  // ----- A front and what comes behind -----

  /** v is u with `added` behind it and `gone` elements off its front. */
  ghost predicate Front<T>(u: seq<T>, v: seq<T>, added: seq<T>, gone: nat) {
    gone <= |u| + |added| && v == (u + added)[gone..]
  }

  lemma FrontSame<T>(u: seq<T>)
    ensures Front(u, u, [], 0)
  {
    assert (u + [])[0..] == u;
  }

  lemma FrontDrop<T>(u: seq<T>, n: nat)
    requires n <= |u|
    ensures Front(u, u[n..], [], n)
  {
    assert u + [] == u;
  }

  lemma FrontJoin<T>(u: seq<T>, v: seq<T>, w: seq<T>, a: seq<T>, x: nat, b: seq<T>, y: nat)
    requires Front(u, v, a, x) && Front(v, w, b, y)
    ensures Front(u, w, a + b, x + y)
  {
    assert (u + a)[x..] + b == (u + a + b)[x..];
    assert u + a + b == u + (a + b);
  }

  /** At least n elements, or all of u, are off the front. */
  ghost predicate Drained<T>(u: seq<T>, v: seq<T>, added: seq<T>, gone: nat, n: nat) {
    Front(u, v, added, gone) && gone >= Min(n, |u|)
  }

  lemma DrainedMore<T>(u: seq<T>, v: seq<T>, w: seq<T>, a: seq<T>, x: nat, n: nat, b: seq<T>, y: nat, m: nat)
    requires Drained(u, v, a, x, n) && Drained(v, w, b, y, m)
    ensures Drained(u, w, a + b, x + y, n + m)
  {
    FrontLength(u, v, a, x);
    FrontJoin(u, v, w, a, x, b, y);
  }

  lemma FrontLength<T>(u: seq<T>, v: seq<T>, added: seq<T>, gone: nat)
    requires Front(u, v, added, gone)
    ensures |v| == |u| + |added| - gone
  {
  }

  /** A stream whose unread part has grown by `added` and lost `gone`, though not
      the last of them, with its group in place. */
  ghost predicate Grown(st: Stream, st': Stream, added: seq<Entry>, gone: nat) {
    && st'.grouped == st.grouped
    && Front(Unread(st), Unread(st'), added, gone)
    && (added == [] ==> gone == 0 && st'.entries == st.entries && st'.cursor == st.cursor)
    && (added != [] ==> gone < |Unread(st)| + |added|)
  }

  lemma GrownSame(st: Stream, st': Stream)
    requires st'.entries == st.entries && st'.cursor == st.cursor && st'.grouped == st.grouped
    ensures Grown(st, st', [], 0)
  {
    FrontSame(Unread(st));
  }

  lemma GrownJoin(r: Stream, s: Stream, t: Stream, a: seq<Entry>, x: nat, b: seq<Entry>, y: nat)
    requires Grown(r, s, a, x) && Grown(s, t, b, y)
    ensures Grown(r, t, a + b, x + y)
  {
    hide Unread;
    FrontLength(Unread(r), Unread(s), a, x);
    FrontJoin(Unread(r), Unread(s), Unread(t), a, x, b, y);
  }

  lemma AppendGrows(st: Stream, now: nat, n: Entry, k: nat) returns (gone: nat)
    requires StreamOk(st, now) && n.id == NextId(st.top, now) && k <= |st.entries|
    ensures Grown(st, XTrim(XAdd(st, n), k), [n], gone)
  {
    gone := |TrimLost(XAdd(st, n), k)|;
    AddedIsUnread(st, now, n);
    TrimUnread(XAdd(st, n), now, k);
  }

  // ----- Others -----

  /** A step that leaves the pod's consumer group to others: it may publish to the
      stream, but neither reads nor claims, acknowledges, trims or drops. */
  predicate LeavesGroup(e: Event, pod: nat) {
    match e
    case Tick(_) => true
    case Publish(_, _, _) => true
    case CreateGroup(p) => p != pod
    case Read(p, _) => p != pod
    case Claim(p, _, _) => p != pod
    case Process(_, p, _, _, _) => p != pod
    case Abandon(p, _) => p != pod
    case Effect(_, _, _, _, _) => false
    case Ack(_, _) => false
    case ForceAck(p, _) => p != pod
    case Trim(p, _, _) => p != pod
    case DropStream(p) => p != pod
  }

  predicate AllLeaveGroup(es: seq<Event>, pod: nat) {
    forall i :: 0 <= i < |es| ==> LeavesGroup(es[i], pod)
  }

  lemma AppendGrowsAt(s: State, to: nat, m: Message, token: nat, evict: nat, pod: nat)
    returns (added: seq<Entry>, gone: nat)
    requires Inv(s) && to < |s.streams| && pod < |s.streams| && CanEvict(s, to, evict)
    ensures var s' := Append(s, to, m, token, evict);
      && |s'.streams| == |s.streams| && s'.streams[pod].pel == s.streams[pod].pel
      && Grown(s.streams[pod], s'.streams[pod], added, gone)
  {
    var st := s.streams[pod];
    assert PodOk(pod, st, s.now, s.copies, s.handed);
    hide Inv, PodOk, StreamOk, Unread, Front, TrimLost;
    if to == pod {
      var n := NewEntry(s, to, m, token);
      added := [n];
      gone := AppendGrows(st, s.now, n, evict);
    } else {
      added, gone := [], 0;
      GrownSame(st, st);
    }
  }

  lemma PoliteProcess(s: State, e: Event, pod: nat) returns (added: seq<Entry>, gone: nat)
    requires Inv(s) && Enabled(s, e) && pod < |s.streams| && e.Process? && e.pod != pod
    ensures var s' := Step(s, e);
      && |s'.streams| == |s.streams| && s'.streams[pod].pel == s.streams[pod].pel
      && Grown(s.streams[pod], s'.streams[pod], added, gone)
  {
    var st := s.streams[pod];
    var entry := Record(s, e.pod, e.id).entry;
    var v := Decide(s.cfg, e.who, e.pod, entry, s.now, e.env);
    hide Inv, Decide, Grown, SetHeld, XAck, CanEvict;
    if v.Keep? {
      added, gone := [], 0;
      GrownSame(st, st);
    } else {
      added, gone := SettleGrowsAt(s, e.who, entry, v, e.evict, pod);
      hide Settle;
      assert Step(s, e) == AckAt(Settle(s, e.who, entry, v, e.evict), e.pod, e.id);
    }
  }

  lemma SettleGrowsAt(s: State, who: nat, e: Entry, v: Verdict, evict: nat, pod: nat)
    returns (added: seq<Entry>, gone: nat)
    requires Inv(s) && VerdictFits(s, v, evict) && pod < |s.streams|
    ensures var s' := Settle(s, who, e, v, evict);
      && |s'.streams| == |s.streams| && s'.streams[pod].pel == s.streams[pod].pel
      && Grown(s.streams[pod], s'.streams[pod], added, gone)
  {
    hide Inv, Append, Grown;
    if v.Move? {
      added, gone := AppendGrowsAt(s, v.to, Message(e.client, e.payload), e.token, evict, pod);
    } else {
      added, gone := [], 0;
      GrownSame(s.streams[pod], s.streams[pod]);
    }
  }

  lemma PoliteStep(s: State, e: Event, pod: nat) returns (added: seq<Entry>, gone: nat)
    requires Inv(s) && Enabled(s, e) && pod < |s.streams| && LeavesGroup(e, pod)
    ensures var s' := Step(s, e);
      && |s'.streams| == |s.streams| && s'.streams[pod].pel == s.streams[pod].pel
      && Grown(s.streams[pod], s'.streams[pod], added, gone)
  {
    hide Inv, Append, Grown;
    if e.Publish? {
      added, gone := AppendGrowsAt(s, e.pod, e.message, |s.published|, e.evict, pod);
    } else if e.Process? {
      added, gone := PoliteProcess(s, e, pod);
    } else {
      added, gone := [], 0;
      QuietStep(s, e, pod);
      GrownSame(s.streams[pod], s.streams[pod]);
    }
  }

  lemma QuietStep(s: State, e: Event, pod: nat)
    requires Enabled(s, e) && pod < |s.streams| && LeavesGroup(e, pod) && !e.Publish? && !e.Process?
    ensures |Step(s, e).streams| == |s.streams| && Step(s, e).streams[pod] == s.streams[pod]
  {
  }

  lemma {:induction false} PoliteRun(s: State, es: seq<Event>, pod: nat) returns (added: seq<Entry>, gone: nat)
    requires Inv(s) && Run(s, es).Some? && pod < |s.streams| && AllLeaveGroup(es, pod)
    ensures Atomic(es)
    ensures var s' := Run(s, es).value;
      && |s'.streams| == |s.streams| && s'.streams[pod].pel == s.streams[pod].pel
      && Grown(s.streams[pod], s'.streams[pod], added, gone)
    decreases |es|
  {
    hide Inv, Step, Enabled, Grown;
    if es == [] {
      added, gone := [], 0;
      GrownSame(s.streams[pod], s.streams[pod]);
    } else {
      var init, e := es[..|es| - 1], es[|es| - 1];
      added, gone := PoliteRun(s, init, pod);
      RunInv(s, init);
      var t := Run(s, init).value;
      var a, x := PoliteStep(t, e, pod);
      GrownJoin(s.streams[pod], t.streams[pod], Step(t, e).streams[pod], added, gone, a, x);
      added, gone := added + a, gone + x;
    }
  }

  // ----- A batch in hand -----

  predicate InHands(pel: seq<Pending>, e: Entry) {
    exists k :: 0 <= k < |pel| && pel[k].entry == e && pel[k].held
  }

  /** Entries i, i+1, ... of a batch wait in this worker's hands. */
  ghost predicate Waiting(pel: seq<Pending>, batch: seq<Entry>, i: nat) {
    && SortedPel(pel) && Sorted(batch)
    && (forall j :: i <= j < |batch| ==> InHands(pel, batch[j]))
  }

  lemma HandsRecord(st: Stream, e: Entry)
    requires SortedPel(st.pel) && InHands(st.pel, e)
    ensures IsPending(st, e.id)
    ensures st.pel[IndexOf(st.pel, e.id)].entry == e && st.pel[IndexOf(st.pel, e.id)].held
  {
    var k :| 0 <= k < |st.pel| && st.pel[k].entry == e && st.pel[k].held;
    IndexInPel(st.pel, k);
  }

  /** One pass's effect on the pending list. */
  predicate OnePass(pel: seq<Pending>, pel': seq<Pending>, id: Id) {
    var i := IndexOf(pel, id);
    && i < |pel|
    && (pel' == Without(pel, i) || pel' == pel[i := pel[i].(held := false, kept := pel[i].kept + 1)])
  }

  /** That of passes over the ids, one after the other. */
  ghost predicate PassesOver(pel: seq<Pending>, pel': seq<Pending>, ids: seq<Id>)
    decreases |ids|
  {
    if ids == [] then pel' == pel
    else
      var init, id := ids[..|ids| - 1], ids[|ids| - 1];
      exists mid :: PassesOver(pel, mid, init) && OnePass(mid, pel', id)
  }

  lemma PassesOverSnoc(pel: seq<Pending>, mid: seq<Pending>, pel': seq<Pending>, ids: seq<Id>, id: Id)
    requires PassesOver(pel, mid, ids) && OnePass(mid, pel', id)
    ensures PassesOver(pel, pel', ids + [id])
  {
    assert (ids + [id])[..|ids + [id]| - 1] == ids;
  }

  lemma SettlePel(s: State, who: nat, e: Entry, v: Verdict, evict: nat, pod: nat)
    requires VerdictFits(s, v, evict) && pod < |s.streams|
    ensures var s' := Settle(s, who, e, v, evict);
      && |s'.streams| == |s.streams| && s'.streams[pod].pel == s.streams[pod].pel
      && s'.handed == s.handed && s'.cfg == s.cfg && s'.finished == s.finished && s'.now == s.now
  {
  }

  lemma PassPel(s: State, who: nat, pod: nat, id: Id, env: Env, evict: nat)
    requires Enabled(s, Process(who, pod, id, env, evict))
    ensures |Step(s, Process(who, pod, id, env, evict)).streams| == |s.streams|
    ensures OnePass(s.streams[pod].pel, Step(s, Process(who, pod, id, env, evict)).streams[pod].pel, id)
  {
    var entry := Record(s, pod, id).entry;
    var v := Decide(s.cfg, who, pod, entry, s.now, env);
    hide Decide;
    if !v.Keep? {
      SettlePel(s, who, entry, v, evict, pod);
    }
  }

  lemma OthersWait(pel: seq<Pending>, pel': seq<Pending>, id: Id, e: Entry)
    requires OnePass(pel, pel', id) && InHands(pel, e) && e.id != id
    ensures InHands(pel', e)
  {
    var i := IndexOf(pel, id);
    var k :| 0 <= k < |pel| && pel[k].entry == e && pel[k].held;
    if pel' == Without(pel, i) {
      assert pel'[if k < i then k else k - 1] == pel[k];
    } else {
      assert pel'[k] == pel[k];
    }
  }

  /** A pass over the next waiting entry leaves the others waiting. */
  lemma PassKeepsWaiting(pel: seq<Pending>, pel': seq<Pending>, batch: seq<Entry>, i: nat)
    requires i < |batch| && Waiting(pel, batch, i) && OnePass(pel, pel', batch[i].id) && SortedPel(pel')
    ensures Waiting(pel', batch, i + 1)
  {
    hide InHands, OnePass, SortedPel;
    forall j | i + 1 <= j < |batch|
      ensures InHands(pel', batch[j])
    {
      assert Before(batch[i].id, batch[j].id);
      OthersWait(pel, pel', batch[i].id, batch[j]);
    }
  }

  /** A pass may append to the stream it works for, and that may evict old
      entries; otherwise it leaves the unread part alone. */
  lemma PassGrows(s: State, e: Event, pod: nat) returns (added: seq<Entry>, gone: nat)
    requires Inv(s) && Enabled(s, e) && pod < |s.streams| && e.Process? && e.pod == pod
    ensures |Step(s, e).streams| == |s.streams|
    ensures Grown(s.streams[pod], Step(s, e).streams[pod], added, gone)
  {
    var st := s.streams[pod];
    var entry := Record(s, pod, e.id).entry;
    var v := Decide(s.cfg, e.who, pod, entry, s.now, e.env);
    hide Inv, Decide, Grown, XAck, SetHeld, Settle, CanEvict;
    if v.Keep? {
      added, gone := [], 0;
      HeldOnly(st, e.id);
      GrownSame(st, SetHeld(st, e.id, 1));
    } else {
      added, gone := SettleGrowsAt(s, e.who, entry, v, e.evict, pod);
      var mid := Settle(s, e.who, entry, v, e.evict).streams[pod];
      PelOnly(mid, e.id);
      GrownSame(mid, XAck(mid, e.id));
      GrownJoin(st, mid, XAck(mid, e.id), added, gone, [], 0);
      assert added + [] == added;
    }
  }

  lemma PelOnly(st: Stream, id: Id)
    ensures var st' := XAck(st, id); st'.entries == st.entries && st'.cursor == st.cursor && st'.grouped == st.grouped
  {
  }

  lemma HeldOnly(st: Stream, id: Id)
    requires IsPending(st, id)
    ensures var st' := SetHeld(st, id, 1);
      st'.entries == st.entries && st'.cursor == st.cursor && st'.grouped == st.grouped
  {
  }

  // ----- How batches come into hand -----

  lemma {:induction false} ClaimedInHands(pel: seq<Pending>, es: seq<Entry>, now: nat, minIdle: nat, j: nat)
    requires j < |Claimed(pel, es, now, minIdle)|
    ensures InHands(ClaimPel(pel, es, now, minIdle), Claimed(pel, es, now, minIdle)[j])
    ensures Listed(pel, Claimed(pel, es, now, minIdle)[j])
  {
    hide Due, Stored;
    var c, b := ClaimPel(pel, es, now, minIdle), Claimed(pel, es, now, minIdle);
    var c', b' := ClaimPel(pel[1..], es, now, minIdle), Claimed(pel[1..], es, now, minIdle);
    if j < |b| - |b'| {
      assert c[0].entry == b[j] && c[0].held;
      assert pel[0].entry == b[j];
    } else {
      var j' := j - (|b| - |b'|);
      assert b[j] == b'[j'];
      ClaimedInHands(pel[1..], es, now, minIdle, j');
      var k :| 0 <= k < |c'| && c'[k].entry == b'[j'] && c'[k].held;
      assert c[k + (|c| - |c'|)] == c'[k];
      var i :| 0 <= i < |pel[1..]| && pel[1..][i].entry == b'[j'];
      assert pel[i + 1].entry == b[j];
    }
  }

  lemma {:induction false} ClaimedSorted(pel: seq<Pending>, es: seq<Entry>, now: nat, minIdle: nat)
    requires SortedPel(pel)
    ensures Sorted(Claimed(pel, es, now, minIdle))
  {
    hide Due, Stored;
    if pel != [] {
      var b, b' := Claimed(pel, es, now, minIdle), Claimed(pel[1..], es, now, minIdle);
      ClaimedSorted(pel[1..], es, now, minIdle);
      forall j | 0 <= j < |b'|
        ensures Before(pel[0].entry.id, b'[j].id)
      {
        ClaimedInHands(pel[1..], es, now, minIdle, j);
        var i :| 0 <= i < |pel[1..]| && pel[1..][i].entry == b'[j];
        assert pel[i + 1].entry == b'[j];
      }
      assert b == b' || b == [pel[0].entry] + b';
    }
  }

  /** A claim puts in hand what it returns. */
  lemma ClaimWaits(st: Stream, lo: nat, hi: nat, now: nat, minIdle: nat)
    requires SortedPel(st.pel) && lo <= hi <= |st.pel|
    ensures Waiting(XAutoClaim(st, lo, hi, now, minIdle).pel, Claimed(st.pel[lo..hi], st.entries, now, minIdle), 0)
  {
    var part := st.pel[lo..hi];
    assert SortedPel(part);
    var c, b := ClaimPel(part, st.entries, now, minIdle), Claimed(part, st.entries, now, minIdle);
    ClaimSorted(st, lo, hi, now, minIdle);
    ClaimedSorted(part, st.entries, now, minIdle);
    var pel := XAutoClaim(st, lo, hi, now, minIdle).pel;
    assert forall k :: 0 <= k < |c| ==> pel[lo + k] == c[k];
    hide ClaimPel, Claimed, SortedPel, Sorted, XAutoClaim;
    forall j | 0 <= j < |b|
      ensures InHands(pel, b[j])
    {
      ClaimedInHands(part, st.entries, now, minIdle, j);
      var k :| 0 <= k < |c| && c[k].entry == b[j] && c[k].held;
      assert pel[lo + k] == c[k];
    }
  }

  lemma HandedOut(pel: seq<Pending>, b: seq<Entry>, now: nat, j: nat)
    requires j < |b|
    ensures InHands(pel + HandOut(b, now), b[j])
  {
    assert (pel + HandOut(b, now))[|pel| + j] == Pending(b[j], now, 1, true, 0);
  }

  /** So does a read. */
  lemma ReadWaits(st: Stream, now: nat, count: nat)
    requires StreamOk(st, now) && st.grouped
    ensures Waiting(XReadGroup(st, count, now).pel, Batch(st, count), 0)
  {
    var b := Batch(st, count);
    ReadMovesBatch(st, now, count);
    ReadKeepsOk(st, now, count);
    BatchIsSlice(st, count);
    SliceSorted(st.entries, st.cursor, |b|);
    var pel := XReadGroup(st, count, now).pel;
    hide XReadGroup, Batch, ReadCount, HandOut, InHands, Sorted, SortedPel;
    forall j | 0 <= j < |b| ensures InHands(pel, b[j]) {
      HandedOut(st.pel, b, now, j);
    }
  }

  /** Everybody who holds a batch was handed it. */
  ghost predicate HandedAll(s: State, pod: nat, batch: seq<Entry>) {
    forall j :: 0 <= j < |batch| ==> Handout(pod, batch[j]) in s.handed
  }

  lemma ClaimIsHanded(s: State, pod: nat, lo: nat, hi: nat)
    requires Inv(s) && Enabled(s, Claim(pod, lo, hi))
    ensures var st := s.streams[pod];
      HandedAll(Step(s, Claim(pod, lo, hi)), pod, Claimed(st.pel[lo..hi], st.entries, s.now, MinIdle(s.cfg)))
  {
    var st := s.streams[pod];
    var part := st.pel[lo..hi];
    var b := Claimed(part, st.entries, s.now, MinIdle(s.cfg));
    assert PodOk(pod, st, s.now, s.copies, s.handed);
    hide Claimed, StreamOk, HandoutOk, ReadExactly;
    forall j | 0 <= j < |b| ensures Handout(pod, b[j]) in s.handed {
      ClaimedInHands(part, st.entries, s.now, MinIdle(s.cfg), j);
      var i :| 0 <= i < |part| && part[i].entry == b[j];
      assert Handout(pod, st.pel[lo + i].entry) in s.handed;
    }
  }

  lemma ReadIsHanded(s: State, pod: nat, count: nat)
    requires Enabled(s, Read(pod, count))
    ensures HandedAll(Step(s, Read(pod, count)), pod, Batch(s.streams[pod], count))
  {
  }

  // ----- One pass -----

  /** A pass over an entry in hand: processing and acknowledgement as one step. */
  lemma OwnPass(s: State, who: nat, pod: nat, e: Entry, env: Env, evict: nat)
    requires pod < |s.streams| && SortedPel(s.streams[pod].pel) && InHands(s.streams[pod].pel, e)
    requires VerdictFits(s, Decide(s.cfg, who, pod, e, s.now, env), evict)
    ensures IsPending(s.streams[pod], e.id)
    ensures var p := Process(who, pod, e.id, env, evict);
      && Enabled(s, p) && Record(s, pod, e.id).entry == e
      && Leads(s, [Act(p, true)], Step(s, p)) && AllAtomic([Act(p, true)])
      && Passed([Act(p, true)]) == [e.id] && Step(s, p).now == s.now
      && Step(s, p) ==
         var v := Decide(s.cfg, who, pod, e, s.now, env);
         if v.Keep? then WithStream(s, pod, SetHeld(s.streams[pod], e.id, 1))
         else AckAt(Settle(s, who, e, v, evict), pod, e.id)
  {
    HandsRecord(s.streams[pod], e);
    hide Decide, InHands, Settle, SetHeld;
    var v := Decide(s.cfg, who, pod, e, s.now, env);
    SettlePel(s, who, e, v, evict, pod);
    var p := Process(who, pod, e.id, env, evict);
    LeadsOne(s, p, true);
    assert [Act(p, true)][1..] == [];
  }

  /** The first half of a pass that is not one step: the effect, without the
      acknowledgement. */
  lemma LatePass(s: State, who: nat, pod: nat, e: Entry, env: Env, evict: nat)
    requires Inv(s) && pod < |s.streams| && Handout(pod, e) in s.handed
    requires VerdictFits(s, Decide(s.cfg, who, pod, e, s.now, env), evict)
    ensures var f := Effect(who, pod, e, env, evict); var v := Decide(s.cfg, who, pod, e, s.now, env);
      && Enabled(s, f) && Inv(Step(s, f)) && Follows(s, Step(s, f)) && Step(s, f).now == s.now
      && Leads(s, [Act(f, true)], Step(s, f)) && Passed([Act(f, true)]) == [e.id]
      && Step(s, f) ==
         if v.Keep? then s else Settle(s, who, e, v, evict).(finished := s.finished + {Handout(pod, e)})
  {
    var f := Effect(who, pod, e, env, evict);
    var v := Decide(s.cfg, who, pod, e, s.now, env);
    hide Decide, Settle, Inv, Follows;
    assert Enabled(s, f);
    LeadsOne(s, f, true);
    LeadsKeeps(s, [Act(f, true)], Step(s, f));
    SettlePel(s, who, e, v, evict, pod);
    assert [Act(f, true)][1..] == [];
  }

  /** The second half. */
  lemma LateAck(s: State, pod: nat, e: Entry)
    requires Inv(s) && pod < |s.streams| && Handout(pod, e) in s.finished
    ensures var a := Ack(pod, e.id);
      && Enabled(s, a) && Step(s, a) == AckAt(s, pod, e.id) && Step(s, a).now == s.now
      && Leads(s, [Act(a, true)], Step(s, a)) && Passed([Act(a, true)]) == []
      && Inv(Step(s, a)) && Follows(s, Step(s, a))
  {
    var a := Ack(pod, e.id);
    hide Inv, Follows;
    assert Handout(pod, e).entry == e;
    assert Enabled(s, a);
    LeadsOne(s, a, true);
    LeadsKeeps(s, [Act(a, true)], Step(s, a));
    assert [Act(a, true)][1..] == [];
  }
}
