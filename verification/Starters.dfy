/** Admission of conversation-starter requests: one in flight per client id,
    and a bounded number of them at a time. */
module Starters {
  import opened Cluster

  /** The keys of StartersInFlight, and StartersSem, which may be missing. */
  datatype Admission = Admission(inFlight: set<string>, size: Option<nat>, held: nat)

  predicate HasRoom(a: Admission) {
    a.size.Some? && a.held < a.size.value
  }

  /** The client's entry and a permit are taken together or not at all. */
  function AfterRequest(a: Admission, id: string): Admission {
    if id in a.inFlight || !HasRoom(a) then a
    else a.(inFlight := a.inFlight + {id}, held := a.held + 1)
  }

  datatype Data = Data(account: string, linkText: string)

  datatype Reply = Accepted | Ignored | NeedRegistration | DataRequired | FieldsRequired | LimitReached

  // ----- The handler of one connection -----

  class App {
    const configured: bool
    const size: Option<nat>
    var inFlight: set<string>
    var held: nat

    constructor (configured: bool, size: Option<nat>)
      ensures this.configured == configured && Now() == Admission({}, size, 0)
    {
      this.configured, this.size := configured, size;
      inFlight, held := {}, 0;
    }

    ghost function Now(): Admission
      reads this
    {
      Admission(inFlight, size, held)
    }

    method LoadOrStore(id: string) returns (loaded: bool)
      modifies this`inFlight
      ensures loaded == (id in old(inFlight)) && inFlight == old(inFlight) + {id}
    {
      loaded := id in inFlight;
      inFlight := inFlight + {id};
    }

    method TryAcquire() returns (ok: bool)
      modifies this`held
      ensures ok == HasRoom(old(Now())) && held == old(held) + if ok then 1 else 0
    {
      ok := size.Some? && held < size.value;
      if ok {
        held := held + 1;
      }
    }

    /** GetPDPStarters up to the start of its goroutine. */
    method GetPDPStarters(id: string, callback: string, data: Option<Data>) returns (reply: Reply)
      modifies this
      ensures reply == Accepted <==>
        && id != "" && callback != "" && configured
        && data.Some? && data.value.account != "" && data.value.linkText != ""
        && id !in old(inFlight) && HasRoom(old(Now()))
      ensures Now() == if reply == Accepted then AfterRequest(old(Now()), id) else old(Now())
      ensures reply == NeedRegistration <==> id == "" || callback == ""
      ensures reply == DataRequired <==> id != "" && callback != "" && configured && data.None?
      ensures reply == FieldsRequired <==>
        && id != "" && callback != "" && configured
        && data.Some? && (data.value.account == "" || data.value.linkText == "")
      ensures reply == LimitReached <==>
        && id != "" && callback != "" && configured
        && data.Some? && data.value.account != "" && data.value.linkText != ""
        && id !in old(inFlight) && !HasRoom(old(Now()))
    {
      if id == "" || callback == "" {
        return NeedRegistration;
      }
      if !configured {
        return Ignored;
      }
      if data.None? {
        return DataRequired;
      }
      if data.value.account == "" || data.value.linkText == "" {
        return FieldsRequired;
      }
      var loaded := LoadOrStore(id);
      if loaded {
        assert inFlight == old(inFlight);
        return Ignored;
      }
      var ok := TryAcquire();
      if !ok {
        inFlight := inFlight - {id};
        assert inFlight == old(inFlight);
        return LimitReached;
      }
      reply := Accepted;
    }

    /** What the goroutine defers, for the client id it found at its start. */
    method Finish(id: string)
      requires held > 0
      modifies this
      ensures Now() == old(Now()).(inFlight := old(inFlight) - {id}, held := old(held) - 1)
    {
      held := held - 1;
      inFlight := inFlight - {id};
    }
  }

  // ----- All interleavings -----

  /** A request after it stored its entry: it has a permit and its goroutine is
      to start; the goroutine has fixed the id it will delete; it has given its
      permit back. */
  datatype Phase = Stored | Spawned | Running(mine: string) | Released(mine: string)

  datatype Request = Request(conn: nat, key: string, phase: Phase)

  /** `ids` is each connection's client id, which registering again changes. */
  datatype Desk = Desk(admission: Admission, live: map<nat, Request>, next: nat, ids: map<nat, string>)

  function Open(size: Option<nat>): Desk {
    Desk(Admission({}, size, 0), map[], 0, map[])
  }

  datatype Turn =
    | Ask(conn: nat)
    | Admit(request: nat)
    | Begin(request: nat)
    | Release(request: nat)
    | Delete(request: nat)
    | Rename(conn: nat, id: string)

  /** A connection handles one message at a time, so it registers again only
      when it is not in the middle of asking. */
  predicate Enabled(d: Desk, t: Turn) {
    match t
    case Ask(c) =>
      c in d.ids && d.ids[c] != "" && forall r :: r in d.live && d.live[r].conn == c ==> !d.live[r].phase.Stored?
    case Admit(r) => r in d.live && d.live[r].phase.Stored? && d.live[r].conn in d.ids
    case Begin(r) => r in d.live && d.live[r].phase.Spawned? && d.live[r].conn in d.ids
    case Release(r) => r in d.live && d.live[r].phase.Running? && d.admission.held > 0
    case Delete(r) => r in d.live && d.live[r].phase.Released?
    case Rename(c, _) => forall r :: r in d.live && d.live[r].conn == c ==> !d.live[r].phase.Stored?
  }

  function WithPhase(d: Desk, r: nat, p: Phase): map<nat, Request>
    requires r in d.live
  {
    d.live[r := d.live[r].(phase := p)]
  }

  function Take(d: Desk, t: Turn): Desk
    requires Enabled(d, t)
  {
    var a := d.admission;
    match t
    case Ask(c) =>
      if d.ids[c] in a.inFlight then d
      else
        d.(admission := a.(inFlight := a.inFlight + {d.ids[c]}),
           live := d.live[d.next := Request(c, d.ids[c], Stored)],
           next := d.next + 1)
    case Admit(r) =>
      if HasRoom(a) then d.(admission := a.(held := a.held + 1), live := WithPhase(d, r, Spawned))
      else d.(admission := a.(inFlight := a.inFlight - {d.ids[d.live[r].conn]}), live := d.live - {r})
    case Begin(r) => d.(live := WithPhase(d, r, Running(d.ids[d.live[r].conn])))
    case Release(r) =>
      d.(admission := a.(held := a.held - 1), live := WithPhase(d, r, Released(d.live[r].phase.mine)))
    case Delete(r) => d.(admission := a.(inFlight := a.inFlight - {d.live[r].phase.mine}), live := d.live - {r})
    case Rename(c, id) => d.(ids := d.ids[c := id])
  }

  /** A handler that nobody interrupts asks and is admitted. */
  lemma AskThenAdmit(d: Desk, c: nat)
    requires Enabled(d, Ask(c))
    ensures var e := Take(d, Ask(c));
      if d.ids[c] in d.admission.inFlight then e == d && d.admission == AfterRequest(d.admission, d.ids[c])
      else Enabled(e, Admit(d.next)) && Take(e, Admit(d.next)).admission == AfterRequest(d.admission, d.ids[c])
  {
    assert d.admission.inFlight + {d.ids[c]} - {d.ids[c]} == d.admission.inFlight - {d.ids[c]};
  }

  /** A request is taken on exactly when its client has none in flight and a permit is
      left, which it then holds, with an entry under the client's id; a refused one leaves
      nothing behind. */
  lemma AskingIsExact(d: Desk, c: nat)
    requires Enabled(d, Ask(c)) && d.next !in d.live
    ensures var e := Take(d, Ask(c));
      && (d.next in e.live <==> d.ids[c] !in d.admission.inFlight)
      && (d.next !in e.live ==> e == d)
      && (d.next in e.live ==>
            && Enabled(e, Admit(d.next))
            && var f := Take(e, Admit(d.next));
               && (d.next in f.live <==> d.admission.size.Some? && d.admission.held < d.admission.size.value)
               && (d.next in f.live ==>
                     && f.live[d.next] == Request(c, d.ids[c], Spawned)
                     && f.admission.held == d.admission.held + 1
                     && f.admission.inFlight == d.admission.inFlight + {d.ids[c]})
               && (d.next !in f.live ==> f.live == d.live && f.admission == d.admission))
  {
    assert d.admission.inFlight + {d.ids[c]} - {d.ids[c]} == d.admission.inFlight - {d.ids[c]};
  }

  /** A request that was taken on and runs to its end gives everything back: entry, permit
      and its place among the live requests. */
  lemma RunningGivesBack(d: Desk, c: nat)
    requires Enabled(d, Ask(c)) && d.next !in d.live && d.ids[c] !in d.admission.inFlight && HasRoom(d.admission)
    ensures var r := d.next;
      var admitted := Take(Take(d, Ask(c)), Admit(r));
      && Enabled(admitted, Begin(r)) && Enabled(Take(admitted, Begin(r)), Release(r))
      && Enabled(Take(Take(admitted, Begin(r)), Release(r)), Delete(r))
      && Take(Take(Take(admitted, Begin(r)), Release(r)), Delete(r)) == d.(next := d.next + 1)
  {
    AskingIsExact(d, c);
    var e := Take(Take(Take(Take(Take(d, Ask(c)), Admit(d.next)), Begin(d.next)), Release(d.next)), Delete(d.next));
    assert e.admission.inFlight == d.admission.inFlight;
    assert e.live == d.live;
  }

  function Play(d: Desk, ts: seq<Turn>): Option<Desk> {
    if ts == [] then Some(d)
    else
      match Play(d, ts[..|ts| - 1])
      case None => None
      case Some(e) => if Enabled(e, ts[|ts| - 1]) then Some(Take(e, ts[|ts| - 1])) else None
  }

  // ----- Permits, in every run -----

  predicate HasPermit(r: Request) {
    r.phase.Spawned? || r.phase.Running?
  }

  function Permits(d: Desk): set<nat> {
    set r | r in d.live && HasPermit(d.live[r])
  }

  ghost predicate Counted(d: Desk) {
    && d.admission.held == |Permits(d)|
    && (if d.admission.size.Some? then d.admission.held <= d.admission.size.value else d.admission.held == 0)
    && (forall r :: r in d.live ==> r < d.next)
  }

  lemma AdmitCounts(d: Desk, r: nat)
    requires Counted(d) && Enabled(d, Admit(r)) && HasRoom(d.admission)
    ensures Permits(Take(d, Admit(r))) == Permits(d) + {r} && r !in Permits(d)
  {
  }

  lemma CountedTake(d: Desk, t: Turn)
    requires Counted(d) && Enabled(d, t)
    ensures Counted(Take(d, t)) && Take(d, t).admission.size == d.admission.size
  {
    var e := Take(d, t);
    match t
    case Admit(r) =>
      if HasRoom(d.admission) {
        AdmitCounts(d, r);
      } else {
        assert Permits(e) == Permits(d);
      }
    case Release(r) => assert Permits(e) == Permits(d) - {r} && r in Permits(d);
    case _ => assert Permits(e) == Permits(d);
  }

  /** In every run the permits held are those of the requests at work, and no
      more than the semaphore has; without a semaphore nobody gets one. */
  lemma {:induction false} PermitsAreBounded(size: Option<nat>, ts: seq<Turn>)
    requires Play(Open(size), ts).Some?
    ensures var d := Play(Open(size), ts).value;
      && Counted(d) && d.admission.size == size
      && d.admission.held == |Permits(d)|
      && d.admission.held <= (if size.Some? then size.value else 0)
  {
    if ts != [] {
      PermitsAreBounded(size, ts[..|ts| - 1]);
      CountedTake(Play(Open(size), ts[..|ts| - 1]).value, ts[|ts| - 1]);
    } else {
      assert Permits(Open(size)) == {};
    }
  }

  // ----- Entries, when goroutines find their client unchanged -----

  /** A goroutine that starts finds its client under the id it asked for. */
  predicate Steady(d: Desk, t: Turn) {
    t.Begin? && t.request in d.live ==>
      var r := d.live[t.request];
      r.conn in d.ids && d.ids[r.conn] == r.key
  }

  predicate SteadyRun(d: Desk, ts: seq<Turn>) {
    ts == [] ||
      (SteadyRun(d, ts[..|ts| - 1])
       && (Play(d, ts[..|ts| - 1]).Some? ==> Steady(Play(d, ts[..|ts| - 1]).value, ts[|ts| - 1])))
  }

  /** Whoever deletes an entry deletes its own. */
  predicate OwnKey(d: Desk, r: nat)
    requires r in d.live
  {
    var q := d.live[r];
    match q.phase
    case Running(mine) => mine == q.key
    case Released(mine) => mine == q.key
    case Stored => q.conn in d.ids && d.ids[q.conn] == q.key
    case Spawned => true
  }

  ghost predicate Matched(d: Desk) {
    && (forall r :: r in d.live ==> OwnKey(d, r) && d.live[r].key in d.admission.inFlight)
    && (forall r, q :: r in d.live && q in d.live && d.live[r].key == d.live[q].key ==> r == q)
    && (forall id :: id in d.admission.inFlight ==> Owned(d, id))
    && (forall r :: r in d.live ==> r < d.next)
  }

  ghost predicate Owned(d: Desk, id: string) {
    exists r :: r in d.live && d.live[r].key == id
  }

  /** The entries stay owned when no request but a deleted one goes. */
  lemma StillOwned(d: Desk, e: Desk, id: string)
    requires Owned(d, id)
    requires forall r :: r in d.live && d.live[r].key == id ==> r in e.live && e.live[r].key == id
    ensures Owned(e, id)
  {
    var r :| r in d.live && d.live[r].key == id;
    assert r in e.live && e.live[r].key == id;
  }

  lemma MatchedAsk(d: Desk, c: nat)
    requires Matched(d) && Enabled(d, Ask(c))
    ensures Matched(Take(d, Ask(c)))
  {
    var e := Take(d, Ask(c));
    if d.ids[c] !in d.admission.inFlight {
      assert Owned(e, d.ids[c]) by {
        assert e.live[d.next].key == d.ids[c];
      }
      forall id | id in d.admission.inFlight ensures Owned(e, id) {
        StillOwned(d, e, id);
      }
    }
  }

  /** A request moves on without touching the entries. */
  lemma MatchedPhase(d: Desk, e: Desk, r: nat)
    requires Matched(d) && r in d.live && e.next == d.next && e.ids == d.ids
    requires e.live.Keys == d.live.Keys && e.admission.inFlight == d.admission.inFlight
    requires forall q :: q in d.live && q != r ==> e.live[q] == d.live[q]
    requires e.live[r].key == d.live[r].key && OwnKey(e, r)
    ensures Matched(e)
  {
    forall q | q in d.live && q != r ensures OwnKey(e, q) {
    }
    hide OwnKey;
    forall id | id in e.admission.inFlight ensures Owned(e, id) {
      StillOwned(d, e, id);
    }
    hide Owned;
  }

  /** A request goes and takes its own entry with it. */
  lemma MatchedGone(d: Desk, e: Desk, r: nat)
    requires Matched(d) && r in d.live && e.next == d.next && e.ids == d.ids
    requires e.live == d.live - {r} && e.admission.inFlight == d.admission.inFlight - {d.live[r].key}
    ensures Matched(e)
  {
    forall id | id in e.admission.inFlight ensures Owned(e, id) {
      StillOwned(d, e, id);
    }
  }

  /** Entries stay matched to requests in every step but one: a goroutine that
      starts after its client has registered under another id. */
  lemma MatchedTake(d: Desk, t: Turn)
    requires Matched(d) && Enabled(d, t)
    ensures Matched(Take(d, t)) <==> Steady(d, t)
  {
    var e := Take(d, t);
    match t
    case Ask(c) => MatchedAsk(d, c);
    case Admit(r) =>
      assert OwnKey(d, r);
      if HasRoom(d.admission) {
        MatchedPhase(d, e, r);
      } else {
        MatchedGone(d, e, r);
      }
    case Begin(r) =>
      if Steady(d, t) {
        MatchedPhase(d, e, r);
      } else {
        assert !OwnKey(e, r);
      }
    case Release(r) =>
      assert OwnKey(d, r);
      MatchedPhase(d, e, r);
    case Delete(r) =>
      assert OwnKey(d, r);
      MatchedGone(d, e, r);
    case Rename(c, id) =>
      forall x | x in e.admission.inFlight ensures Owned(e, x) {
        StillOwned(d, e, x);
      }
  }

  lemma {:induction false} SteadyIsMatched(size: Option<nat>, ts: seq<Turn>)
    requires Play(Open(size), ts).Some? && SteadyRun(Open(size), ts)
    ensures Matched(Play(Open(size), ts).value)
  {
    if ts != [] {
      SteadyIsMatched(size, ts[..|ts| - 1]);
      MatchedTake(Play(Open(size), ts[..|ts| - 1]).value, ts[|ts| - 1]);
    }
  }

  function Keys(d: Desk): map<nat, string> {
    map r | r in d.live :: d.live[r].key
  }

  lemma {:induction false} SameSize(m: map<nat, string>, s: set<string>)
    requires forall r :: r in m ==> m[r] in s
    requires forall r, q :: r in m && q in m && m[r] == m[q] ==> r == q
    requires forall id :: id in s ==> exists r :: r in m && m[r] == id
    ensures |m| == |s|
    decreases |m|
  {
    if m == map[] {
      assert s == {};
    } else {
      var r :| r in m;
      var m' := m - {r};
      assert m'.Keys == m.Keys - {r};
      forall id | id in s - {m[r]} ensures exists q :: q in m' && m'[q] == id {
        var q :| q in m && m[q] == id;
        assert q in m' && m'[q] == id;
      }
      SameSize(m', s - {m[r]});
    }
  }

  /** In every steady run: one live request per client id, as many entries as
      live requests, no more permits than entries, every deletion of an entry is
      its owner's, and when nobody is left nothing is. */
  lemma StartersAdmission(size: Option<nat>, ts: seq<Turn>)
    requires Play(Open(size), ts).Some? && SteadyRun(Open(size), ts)
    ensures var d := Play(Open(size), ts).value;
      && (forall r, q :: r in d.live && q in d.live && d.live[r].key == d.live[q].key ==> r == q)
      && |d.admission.inFlight| == |d.live|
      && d.admission.held <= |d.admission.inFlight|
      && (forall r :: r in d.live && d.live[r].phase.Released? ==> d.live[r].phase.mine == d.live[r].key)
      && (d.live == map[] ==> d.admission.inFlight == {} && d.admission.held == 0)
  {
    hide Play, SteadyRun;
    PermitsAreBounded(size, ts);
    SteadyIsMatched(size, ts);
    var d := Play(Open(size), ts).value;
    EntriesAndPermits(d);
  }

  lemma EntriesAndPermits(d: Desk)
    requires Counted(d) && Matched(d)
    ensures |d.admission.inFlight| == |d.live| && d.admission.held <= |d.live|
    ensures forall r :: r in d.live && d.live[r].phase.Released? ==> d.live[r].phase.mine == d.live[r].key
    ensures d.live == map[] ==> d.admission.inFlight == {}
  {
    forall id | id in d.admission.inFlight ensures exists r :: r in Keys(d) && Keys(d)[r] == id {
      assert Owned(d, id);
      var r :| r in d.live && d.live[r].key == id;
      assert r in Keys(d);
    }
    SameSize(Keys(d), d.admission.inFlight);
    assert Keys(d).Keys == d.live.Keys;
    SubsetSize(Permits(d), d.live.Keys);
    if d.live == map[] {
      assert |d.admission.inFlight| == 0;
    }
  }

  lemma {:induction false} SubsetSize(a: set<nat>, b: set<nat>)
    requires a <= b
    ensures |a| <= |b|
  {
    assert b == a + (b - a);
  }

  // ----- When they do not -----

  lemma Then(d: Desk, ts: seq<Turn>, t: Turn)
    requires Play(d, ts).Some? && Enabled(Play(d, ts).value, t)
    ensures Play(d, ts + [t]) == Some(Take(Play(d, ts).value, t))
  {
    assert (ts + [t])[..|ts + [t]| - 1] == ts;
  }

  const RENAMED: seq<Turn> :=
    [Rename(0, "a")] + [Ask(0)] + [Admit(0)] + [Rename(0, "b")] + [Begin(0)] + [Release(0)] + [Delete(0)]

  /** The goroutine reads the client id when it starts, not when the entry was
      stored. A connection that registers under a new id in between leaves its
      old entry behind: nobody is at work, and yet the old id is refused. */
  lemma RenamingLeavesAnEntry()
    ensures Play(Open(Some(1)), RENAMED).Some?
    ensures var d := Play(Open(Some(1)), RENAMED).value;
      && d.live == map[] && d.admission.held == 0 && d.admission.inFlight == {"a"}
      && !SteadyRun(Open(Some(1)), RENAMED)
  {
    var ts, d4 := RenamedInTime();
    var d5 := Desk(Admission({"a"}, Some(1), 1), map[0 := Request(0, "a", Running("b"))], 1, map[0 := "b"]);
    var d6 := Desk(Admission({"a"}, Some(1), 0), map[0 := Request(0, "a", Released("b"))], 1, map[0 := "b"]);
    var d7 := Desk(Admission({"a"}, Some(1), 0), map[], 1, map[0 := "b"]);
    ts := Goes(ts, d4, Begin(0), d5);
    ts := Goes(ts, d5, Release(0), d6);
    assert {"a"} - {"b"} == {"a"};
    ts := Goes(ts, d6, Delete(0), d7);
    assert ts == RENAMED;
    assert !Owned(d7, "a");
    if SteadyRun(Open(Some(1)), RENAMED) {
      SteadyIsMatched(Some(1), RENAMED);
    }
  }

  lemma RenamedInTime() returns (ts: seq<Turn>, d: Desk)
    ensures ts == [Rename(0, "a")] + [Ask(0)] + [Admit(0)] + [Rename(0, "b")]
    ensures d == Desk(Admission({"a"}, Some(1), 1), map[0 := Request(0, "a", Spawned)], 1, map[0 := "b"])
    ensures Play(Open(Some(1)), ts) == Some(d)
  {
    var d1 := Desk(Admission({}, Some(1), 0), map[], 0, map[0 := "a"]);
    var d2 := Desk(Admission({"a"}, Some(1), 0), map[0 := Request(0, "a", Stored)], 1, map[0 := "a"]);
    var d3 := Desk(Admission({"a"}, Some(1), 1), map[0 := Request(0, "a", Spawned)], 1, map[0 := "a"]);
    d := Desk(Admission({"a"}, Some(1), 1), map[0 := Request(0, "a", Spawned)], 1, map[0 := "b"]);
    ts := Goes([], Open(Some(1)), Rename(0, "a"), d1);
    ts := Goes(ts, d1, Ask(0), d2);
    ts := Goes(ts, d2, Admit(0), d3);
    ts := Goes(ts, d3, Rename(0, "b"), d);
  }

  lemma Goes(ts: seq<Turn>, d: Desk, t: Turn, e: Desk) returns (longer: seq<Turn>)
    requires Play(Open(Some(1)), ts) == Some(d) && Enabled(d, t) && Take(d, t) == e
    ensures longer == ts + [t] && Play(Open(Some(1)), longer) == Some(e)
  {
    longer := ts + [t];
    Then(Open(Some(1)), ts, t);
  }
}
