/** Concurrent SendMessage calls for chunks: each takes the mutex, raises the
    counter of its message id, reads it back and gives the mutex up. */
module UnaryMutex {
  import opened Cluster
  import Q = Sequencing

  datatype Call =
    | Waiting(id: string)
    | Inside(id: string)
    | Raised(id: string)
    | Numbered(id: string, number: int)
    | Done(id: string, number: int)

  datatype Race = Race(calls: seq<Call>, tracker: Q.Tracker, mutex: Option<nat>)

  function Begin(ids: seq<string>, tracker: Q.Tracker): Race {
    Race(seq(|ids|, i requires 0 <= i < |ids| => Waiting(ids[i])), tracker, None)
  }

  /** Call t can take its next step: only a waiting call can be blocked. */
  predicate CanGo(r: Race, t: nat) {
    t < |r.calls| && !r.calls[t].Done? && (r.calls[t].Waiting? ==> r.mutex.None?)
  }

  function Go(r: Race, t: nat): Race
    requires CanGo(r, t)
  {
    match r.calls[t]
    case Waiting(id) => r.(calls := r.calls[t := Inside(id)], mutex := Some(t))
    case Inside(id) =>
      r.(calls := r.calls[t := Raised(id)], tracker := r.tracker[id := Q.Value(r.tracker, id) + 1])
    case Raised(id) => r.(calls := r.calls[t := Numbered(id, Q.Value(r.tracker, id))])
    case Numbered(id, n) => r.(calls := r.calls[t := Done(id, n)], mutex := None)
    case Done(_, _) => r
  }

  function Interleave(r: Race, schedule: seq<nat>): Option<Race> {
    if schedule == [] then Some(r)
    else
      match Interleave(r, schedule[..|schedule| - 1])
      case None => None
      case Some(q) =>
        if CanGo(q, schedule[|schedule| - 1]) then Some(Go(q, schedule[|schedule| - 1])) else None
  }

  predicate HasNumber(c: Call) {
    c.Numbered? || c.Done?
  }

  predicate Counted(c: Call) {
    c.Raised? || HasNumber(c)
  }

  /** The calls for `id` that have raised the counter. */
  function CountedFor(r: Race, id: string): set<nat> {
    set t: nat | t < |r.calls| && r.calls[t].id == id && Counted(r.calls[t])
  }

  /** Call t accounts for number k. */
  predicate Takes(r: Race, t: nat, id: string, k: int) {
    && t < |r.calls| && r.calls[t].id == id
    && (if HasNumber(r.calls[t]) then r.calls[t].number == k
        else r.calls[t].Raised? && Q.Value(r.tracker, id) == k)
  }

  ghost predicate Taken(r: Race, id: string, k: int) {
    exists t: nat :: Takes(r, t, id, k)
  }

  ghost predicate Exclusive(r: Race) {
    forall t: nat :: t < |r.calls| ==>
      ((r.calls[t].Inside? || r.calls[t].Raised? || r.calls[t].Numbered?) <==> r.mutex == Some(t))
  }

  ghost predicate Numbering(r: Race, tracker: Q.Tracker) {
    && (forall id :: Q.Value(r.tracker, id) == Q.Value(tracker, id) + |CountedFor(r, id)|)
    && (forall id, k: int :: Q.Value(tracker, id) < k <= Q.Value(r.tracker, id) ==> Taken(r, id, k))
    && (forall t: nat, id, k: int :: Takes(r, t, id, k) ==> Q.Value(tracker, id) < k <= Q.Value(r.tracker, id))
    && (forall t: nat, u: nat, id, k: int :: Takes(r, t, id, k) && Takes(r, u, id, k) ==> t == u)
  }

  lemma ExclusiveGo(r: Race, t: nat)
    requires Exclusive(r) && CanGo(r, t)
    ensures Exclusive(Go(r, t))
  {
  }

  lemma NumberingGo(r: Race, t: nat, tracker: Q.Tracker)
    requires Exclusive(r) && Numbering(r, tracker) && CanGo(r, t)
    ensures Numbering(Go(r, t), tracker)
  {
    var q := Go(r, t);
    if r.calls[t].Inside? {
      RaisingNumbers(r, t, tracker);
    } else {
      assert q.tracker == r.tracker;
      forall u: nat, id, k: int ensures Takes(q, u, id, k) <==> Takes(r, u, id, k) {
      }
      forall id ensures CountedFor(q, id) == CountedFor(r, id) {
      }
      forall id, k: int | Q.Value(tracker, id) < k <= Q.Value(q.tracker, id) ensures Taken(q, id, k) {
        assert Taken(r, id, k);
        var u: nat :| Takes(r, u, id, k);
        assert Takes(q, u, id, k);
      }
    }
  }

  /** A call that raises the counter takes the next number; nobody else's
      changes, as nobody else is between raising and reading. */
  lemma RaisingTakes(r: Race, t: nat, u: nat, id: string, k: int)
    requires Exclusive(r) && CanGo(r, t) && r.calls[t].Inside?
    ensures Takes(Go(r, t), u, id, k) <==>
      Takes(r, u, id, k) || (u == t && id == r.calls[t].id && k == Q.Value(r.tracker, id) + 1)
  {
    assert u < |r.calls| && r.calls[u].Raised? ==> u == t;
  }

  lemma RaisingCounts(r: Race, t: nat, id: string)
    requires CanGo(r, t) && r.calls[t].Inside?
    ensures Q.Value(Go(r, t).tracker, id) == Q.Value(r.tracker, id) + if id == r.calls[t].id then 1 else 0
    ensures |CountedFor(Go(r, t), id)| == |CountedFor(r, id)| + if id == r.calls[t].id then 1 else 0
  {
    assert t !in CountedFor(r, id);
    assert CountedFor(Go(r, t), id) == if id == r.calls[t].id then CountedFor(r, id) + {t} else CountedFor(r, id);
  }

  lemma RaisingNumbers(r: Race, t: nat, tracker: Q.Tracker)
    requires Exclusive(r) && Numbering(r, tracker) && CanGo(r, t) && r.calls[t].Inside?
    ensures Numbering(Go(r, t), tracker)
  {
    hide Go, Exclusive, Takes, CountedFor, Q.Value;
    var q, mine := Go(r, t), r.calls[t].id;
    forall u: nat, id, k: int
      ensures Takes(q, u, id, k) <==> Takes(r, u, id, k) || (u == t && id == mine && k == Q.Value(r.tracker, id) + 1)
    {
      RaisingTakes(r, t, u, id, k);
    }
    forall id
      ensures Q.Value(q.tracker, id) == Q.Value(r.tracker, id) + if id == mine then 1 else 0
      ensures |CountedFor(q, id)| == |CountedFor(r, id)| + if id == mine then 1 else 0
    {
      RaisingCounts(r, t, id);
    }
    forall id, k: int | Q.Value(tracker, id) < k <= Q.Value(q.tracker, id) ensures Taken(q, id, k) {
      if id == mine && k == Q.Value(r.tracker, id) + 1 {
        assert Takes(q, t, id, k);
      } else {
        assert Taken(r, id, k);
        var u: nat :| Takes(r, u, id, k);
        assert Takes(q, u, id, k);
      }
    }
  }

  lemma {:induction false} AlwaysNumbered(ids: seq<string>, tracker: Q.Tracker, schedule: seq<nat>)
    requires Interleave(Begin(ids, tracker), schedule).Some?
    ensures var r := Interleave(Begin(ids, tracker), schedule).value;
      && Exclusive(r) && Numbering(r, tracker)
      && |r.calls| == |ids| && (forall t :: 0 <= t < |ids| ==> r.calls[t].id == ids[t])
  {
    var b := Begin(ids, tracker);
    if schedule == [] {
      forall id ensures CountedFor(b, id) == {} {
      }
    } else {
      var init := schedule[..|schedule| - 1];
      AlwaysNumbered(ids, tracker, init);
      var q, t := Interleave(b, init).value, schedule[|schedule| - 1];
      ExclusiveGo(q, t);
      NumberingGo(q, t, tracker);
    }
  }

  function CallsFor(ids: seq<string>, id: string): set<nat> {
    set t: nat | t < |ids| && ids[t] == id
  }

  ghost predicate Given(calls: seq<Call>, id: string, k: int) {
    exists t :: 0 <= t < |calls| && calls[t] == Done(id, k)
  }

  /** However concurrent calls are interleaved, once all are done the numbers of
      each message id are a permutation of the next n, where n calls were for
      that id; the counter stands at the last. */
  lemma NumbersAreAPermutation(ids: seq<string>, tracker: Q.Tracker, schedule: seq<nat>, id: string)
    requires Interleave(Begin(ids, tracker), schedule).Some?
    requires var r := Interleave(Begin(ids, tracker), schedule).value;
      forall t :: 0 <= t < |r.calls| ==> r.calls[t].Done?
    ensures var r := Interleave(Begin(ids, tracker), schedule).value;
      var base, n := Q.Value(tracker, id), |CallsFor(ids, id)|;
      && |r.calls| == |ids| && (forall t :: 0 <= t < |ids| ==> r.calls[t].Done?)
      && Q.Value(r.tracker, id) == base + n
      && (forall t :: t in CallsFor(ids, id) ==> base < r.calls[t].number <= base + n)
      && (forall k :: base < k <= base + n ==> Given(r.calls, id, k))
      && (forall t, u :: t in CallsFor(ids, id) && u in CallsFor(ids, id) && t != u ==>
            r.calls[t].number != r.calls[u].number)
  {
    AlwaysNumbered(ids, tracker, schedule);
    var r := Interleave(Begin(ids, tracker), schedule).value;
    var base := Q.Value(tracker, id);
    assert CountedFor(r, id) == CallsFor(ids, id);
    forall t | t in CallsFor(ids, id) ensures Takes(r, t, id, r.calls[t].number) {
    }
    forall k | base < k <= base + |CallsFor(ids, id)|
      ensures Given(r.calls, id, k)
    {
      assert Taken(r, id, k);
      var t: nat :| Takes(r, t, id, k);
      assert r.calls[t] == Done(id, k);
    }
  }

  /** Nor can the calls block each other for good: as long as one is not done,
      one can go on. */
  lemma SomeCallCanGo(ids: seq<string>, tracker: Q.Tracker, schedule: seq<nat>, t: nat)
    requires Interleave(Begin(ids, tracker), schedule).Some?
    requires var r := Interleave(Begin(ids, tracker), schedule).value;
      t < |r.calls| && !r.calls[t].Done?
    ensures exists u :: CanGo(Interleave(Begin(ids, tracker), schedule).value, u)
  {
    AlwaysNumbered(ids, tracker, schedule);
    MutexHolder(ids, tracker, schedule);
    var r := Interleave(Begin(ids, tracker), schedule).value;
    assert CanGo(r, if r.mutex.Some? then r.mutex.value else t);
  }

  lemma {:induction false} MutexHolder(ids: seq<string>, tracker: Q.Tracker, schedule: seq<nat>)
    requires Interleave(Begin(ids, tracker), schedule).Some?
    ensures var r := Interleave(Begin(ids, tracker), schedule).value;
      r.mutex.Some? ==> r.mutex.value < |r.calls|
  {
    if schedule != [] {
      MutexHolder(ids, tracker, schedule[..|schedule| - 1]);
    }
  }
}
