/** The lease lock that keeps two janitors off one dead pod's stream. */
module JanitorLock {
  import opened Cluster

  /** A key set with SET NX PX: its token and the moment it expires. */
  datatype Lease = Lease(token: nat, until: nat)

  function Current(key: Option<Lease>, now: nat): Option<Lease> {
    if key.Some? && now < key.value.until then key else None
  }

  /** SET NX PX */
  function SetNx(key: Option<Lease>, now: nat, token: nat, lease: nat): Option<Lease> {
    if Current(key, now).Some? then key else Some(Lease(token, now + lease))
  }

  /** The release script: delete the key if it still holds the token. */
  function CompareDelete(key: Option<Lease>, now: nat, token: nat): Option<Lease> {
    if Current(key, now).Some? && key.value.token == token then None else key
  }

  class LockKey {
    var key: Option<Lease>
    var now: nat

    constructor ()
      ensures key == None && now == 0
    {
      key := None;
      now := 0;
    }

    method AcquireLock(token: nat, lease: nat) returns (ok: bool)
      modifies this
      ensures key == SetNx(old(key), now, token, lease) && now == old(now)
      ensures ok <==> old(key).None? || old(key).value.until <= now
      ensures ok ==> key == Some(Lease(token, now + lease))
      ensures !ok ==> key == old(key)
    {
      ok := !(key.Some? && now < key.value.until);
      if ok {
        key := Some(Lease(token, now + lease));
      }
    }

    method ReleaseLock(token: nat)
      modifies this
      ensures key == CompareDelete(old(key), now, token) && now == old(now)
      ensures old(key).Some? && old(key).value.token != token ==> key == old(key)
      ensures old(key).Some? && old(key).value.token == token && now < old(key).value.until ==> key == None
    {
      if key.Some? && now < key.value.until && key.value.token == token {
        key := None;
      }
    }
  }

  // ----- Janitors -----

  /** A drain under way: the token its lock was taken with, and when. */
  datatype Drain = Drain(token: nat, start: nat)

  /** `tokens` counts the tokens made so far: each acquisition makes a new one. */
  datatype Guard = Guard(now: nat, lease: nat, key: Option<Lease>, drains: map<nat, Drain>, tokens: nat)

  datatype Move =
    | Wait(ms: nat)
    | Acquire(janitor: nat)
    | Finish(janitor: nat)
    | Die(janitor: nat)

  predicate CanMove(g: Guard, m: Move) {
    match m
    case Wait(_) => true
    case Acquire(j) => j !in g.drains
    case Finish(j) => j in g.drains
    case Die(j) => j in g.drains
  }

  /** A janitor that gets the lock starts to drain; one that does not goes on
      to the next pod. A janitor that dies never releases. */
  function Next(g: Guard, m: Move): Guard
    requires CanMove(g, m)
  {
    match m
    case Wait(ms) => g.(now := g.now + ms)
    case Acquire(j) =>
      if Current(g.key, g.now).Some? then g.(tokens := g.tokens + 1)
      else g.(key := SetNx(g.key, g.now, g.tokens, g.lease),
              drains := g.drains[j := Drain(g.tokens, g.now)],
              tokens := g.tokens + 1)
    case Finish(j) =>
      g.(key := CompareDelete(g.key, g.now, g.drains[j].token), drains := g.drains - {j})
    case Die(j) => g.(drains := g.drains - {j})
  }

  function Play(g: Guard, ms: seq<Move>): Option<Guard> {
    if ms == [] then Some(g)
    else
      match Play(g, ms[..|ms| - 1])
      case None => None
      case Some(t) => if CanMove(t, ms[|ms| - 1]) then Some(Next(t, ms[|ms| - 1])) else None
  }

  function Fresh(lease: nat): Guard {
    Guard(0, lease, None, map[], 0)
  }

  predicate InLease(g: Guard, j: nat)
    requires j in g.drains
  {
    g.now < g.drains[j].start + g.lease
  }

  /** Whoever drains within its lease owns the key. */
  ghost predicate Owned(g: Guard) {
    && (forall j :: j in g.drains ==> g.drains[j].token < g.tokens && g.drains[j].start <= g.now)
    && (forall i, j :: i in g.drains && j in g.drains && i != j ==> g.drains[i].token != g.drains[j].token)
    && (forall j :: j in g.drains && InLease(g, j) ==>
          g.key == Some(Lease(g.drains[j].token, g.drains[j].start + g.lease)))
  }

  lemma OwnedNext(g: Guard, m: Move)
    requires Owned(g) && CanMove(g, m)
    ensures Owned(Next(g, m))
  {
    if m.Acquire? && Current(g.key, g.now).None? {
      AcquireOwned(g, m);
    }
  }

  /** Whoever drained within its lease held the key, so a free key means that
      nobody does. */
  lemma AcquireOwned(g: Guard, m: Move)
    requires Owned(g) && CanMove(g, m) && m.Acquire? && Current(g.key, g.now).None?
    ensures Owned(Next(g, m))
  {
    var h := Next(g, m);
    forall j | j in h.drains && j != m.janitor
      ensures !InLease(h, j) && h.drains[j].token < g.tokens
    {
      assert h.drains[j] == g.drains[j];
    }
  }

  lemma {:induction false} PlayOwned(lease: nat, ms: seq<Move>)
    requires Play(Fresh(lease), ms).Some?
    ensures Owned(Play(Fresh(lease), ms).value)
  {
    if ms != [] {
      PlayOwned(lease, ms[..|ms| - 1]);
      OwnedNext(Play(Fresh(lease), ms[..|ms| - 1]).value, ms[|ms| - 1]);
    }
  }

  /** In every run at most one janitor drains within its lease; so if no drain
      outlives its lease at most one is draining at all. */
  lemma OneDrainAtATime(lease: nat, ms: seq<Move>, i: nat, j: nat)
    requires Play(Fresh(lease), ms).Some?
    requires var g := Play(Fresh(lease), ms).value;
      i in g.drains && j in g.drains && InLease(g, i) && InLease(g, j)
    ensures i == j
  {
    PlayOwned(lease, ms);
  }

  /** A release, even a late one, takes the lock from nobody who is draining
      within its lease. */
  lemma LateReleaseIsHarmless(lease: nat, ms: seq<Move>, late: nat, j: nat)
    requires Play(Fresh(lease), ms).Some?
    requires var g := Play(Fresh(lease), ms).value;
      late in g.drains && j in g.drains && late != j && InLease(g, j)
    ensures var g := Play(Fresh(lease), ms).value;
      && Next(g, Finish(late)).key == g.key
      && g.key == Some(Lease(g.drains[j].token, g.drains[j].start + lease))
  {
    PlayOwned(lease, ms);
    PlayLease(lease, ms);
  }

  /** In every run a janitor that asks gets the lock exactly when no key is there or its
      lease is over; then the key is its own, under a token never used before, for one
      lease from now. Otherwise nobody's lock or drain changes. */
  lemma AcquiringTakesAFreeLock(lease: nat, ms: seq<Move>, j: nat)
    requires Play(Fresh(lease), ms).Some? && j !in Play(Fresh(lease), ms).value.drains
    ensures var g := Play(Fresh(lease), ms).value;
      var h := Next(g, Acquire(j));
      && (j in h.drains <==> g.key.None? || g.key.value.until <= g.now)
      && (j in h.drains ==>
            && h.key == Some(Lease(h.drains[j].token, g.now + lease)) && h.drains[j].start == g.now
            && (forall i :: i in g.drains ==> i in h.drains && h.drains[i] == g.drains[i]
                                              && g.drains[i].token != h.drains[j].token))
      && (j !in h.drains ==> h.key == g.key && h.drains == g.drains)
  {
    PlayOwned(lease, ms);
    PlayLease(lease, ms);
  }

  /** A janitor that is through within its lease frees the lock: whoever asks next, on
      the spot, gets it. */
  lemma ReleasingFrees(lease: nat, ms: seq<Move>, i: nat, j: nat)
    requires Play(Fresh(lease), ms).Some?
    requires var g := Play(Fresh(lease), ms).value;
      i in g.drains && InLease(g, i) && (j == i || j !in g.drains)
    ensures var g := Next(Play(Fresh(lease), ms).value, Finish(i));
      && g.key == None && i !in g.drains && j in Next(g, Acquire(j)).drains
  {
    PlayOwned(lease, ms);
  }

  /** And when a janitor dies, or never releases, the lock is free after one lease
      at the latest. */
  lemma TheLockComesFree(lease: nat, ms: seq<Move>, wait: nat, j: nat)
    requires Play(Fresh(lease), ms).Some? && j !in Play(Fresh(lease), ms).value.drains && wait >= lease
    ensures j in Next(Next(Play(Fresh(lease), ms).value, Wait(wait)), Acquire(j)).drains
  {
    KeyExpires(lease, ms);
  }

  lemma {:induction false} KeyExpires(lease: nat, ms: seq<Move>)
    requires Play(Fresh(lease), ms).Some?
    ensures var g := Play(Fresh(lease), ms).value;
      g.lease == lease && (g.key.Some? ==> g.key.value.until <= g.now + lease)
  {
    if ms != [] {
      KeyExpires(lease, ms[..|ms| - 1]);
    }
  }

  lemma {:induction false} PlayLease(lease: nat, ms: seq<Move>)
    requires Play(Fresh(lease), ms).Some?
    ensures Play(Fresh(lease), ms).value.lease == lease
  {
    if ms != [] {
      PlayLease(lease, ms[..|ms| - 1]);
    }
  }

  /** The lease is what the exclusion rests on: a drain of more than 5 ms under
      a lease of 5 ms is joined by a second one. */
  lemma OverrunCanOverlap()
    ensures Play(Fresh(5), [Acquire(0), Wait(5), Acquire(1)]).Some?
    ensures var g := Play(Fresh(5), [Acquire(0), Wait(5), Acquire(1)]).value;
      0 in g.drains && 1 in g.drains && !InLease(g, 0)
  {
    var ms := [Acquire(0), Wait(5), Acquire(1)];
    assert ms[..2] == [Acquire(0), Wait(5)] && ms[..2][..1] == [Acquire(0)] && ms[..2][..1][..0] == [];
    assert Play(Fresh(5), []) == Some(Fresh(5));
    assert Play(Fresh(5), [Acquire(0)]) == Some(Next(Fresh(5), Acquire(0)));
    assert Play(Fresh(5), [Acquire(0), Wait(5)]).Some?;
  }
}
