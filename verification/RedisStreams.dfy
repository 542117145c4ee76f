/** The part of Redis Streams the router relies on: one pod's stream with its
    consumer group. A missing key is the empty stream without a group. */
module RedisStreams {
  import opened StreamIds

  /** A stream entry. `token` (which original publish it carries) and `copy`
      (which append wrote it) are history: no command looks at them. */
  datatype Entry = Entry(id: Id, client: string, payload: string, token: nat, copy: nat)

  /** A pending-list record: the entry as it was handed out, the last delivery
      time and the delivery counter. `held` says a worker still has it in hand,
      `kept` counts how often processing left it pending. */
  datatype Pending = Pending(entry: Entry, since: nat, times: nat, held: bool, kept: nat)

  /** `top` is the last id the stream generated, `cursor` the group's
      last-delivered id, `pel` the group's pending list in id order. */
  datatype Stream = Stream(entries: seq<Entry>, top: Id, grouped: bool, cursor: Id, pel: seq<Pending>)

  const NO_STREAM := Stream([], ZERO, false, ZERO, [])

  predicate Sorted(es: seq<Entry>) {
    forall i, j :: 0 <= i < j < |es| ==> Before(es[i].id, es[j].id)
  }

  predicate SortedPel(pel: seq<Pending>) {
    forall i, j :: 0 <= i < j < |pel| ==> Before(pel[i].entry.id, pel[j].entry.id)
  }

  function PassedFrom(es: seq<Entry>, cursor: Id, i: nat): (k: nat)
    requires i <= |es|
    requires forall j :: 0 <= j < i ==> !Before(cursor, es[j].id)
    ensures i <= k <= |es|
    ensures forall j :: 0 <= j < k ==> !Before(cursor, es[j].id)
    ensures k < |es| ==> Before(cursor, es[k].id)
    decreases |es| - i
  {
    if i < |es| && !Before(cursor, es[i].id) then PassedFrom(es, cursor, i + 1) else i
  }

  /** How many leading entries the cursor has passed. */
  function ReadCount(es: seq<Entry>, cursor: Id): (k: nat)
    ensures k <= |es|
    ensures forall j :: 0 <= j < k ==> !Before(cursor, es[j].id)
    ensures k < |es| ==> Before(cursor, es[k].id)
  {
    PassedFrom(es, cursor, 0)
  }

  function Unread(st: Stream): seq<Entry> {
    st.entries[ReadCount(st.entries, st.cursor)..]
  }

  function PelEntries(pel: seq<Pending>): (es: seq<Entry>)
    ensures |es| == |pel|
    ensures forall i :: 0 <= i < |pel| ==> es[i] == pel[i].entry
  {
    seq(|pel|, i requires 0 <= i < |pel| => pel[i].entry)
  }

  /** Unread or pending: what no acknowledgement and no trim has taken yet. */
  function LiveEntries(st: Stream): seq<Entry> {
    Unread(st) + PelEntries(st.pel)
  }

  predicate Stored(es: seq<Entry>, id: Id) {
    exists i :: 0 <= i < |es| && es[i].id == id
  }

  /** A record nobody has in hand and whose entry is gone from the stream: no
      claim will ever return it. */
  predicate Stranded(r: Pending, es: seq<Entry>) {
    !r.held && !Stored(es, r.entry.id)
  }

  function StrandedOf(pel: seq<Pending>, es: seq<Entry>): seq<Entry> {
    if pel == [] then []
    else (if Stranded(pel[0], es) then [pel[0].entry] else []) + StrandedOf(pel[1..], es)
  }

  function InReach(pel: seq<Pending>, es: seq<Entry>): seq<Entry> {
    if pel == [] then []
    else (if Stranded(pel[0], es) then [] else [pel[0].entry]) + InReach(pel[1..], es)
  }

  /** What can still be handed out, claimed or finished: the unread entries, and
      the pending ones that are stored or in somebody's hands. */
  function Recoverable(st: Stream): seq<Entry> {
    Unread(st) + InReach(st.pel, st.entries)
  }

  predicate EntriesOk(es: seq<Entry>, top: Id, now: nat) {
    && Sorted(es)
    && (forall i :: 0 <= i < |es| ==> Before(ZERO, es[i].id))
    && (es != [] ==> es[|es| - 1].id == top)
    && (es == [] ==> top == ZERO || top.ms < now)
    && top.ms <= now
  }

  predicate PelOk(pel: seq<Pending>, cursor: Id) {
    && SortedPel(pel)
    && (forall i :: 0 <= i < |pel| ==> Before(ZERO, pel[i].entry.id) && !Before(cursor, pel[i].entry.id))
  }

  predicate StreamOk(st: Stream, now: nat) {
    && EntriesOk(st.entries, st.top, now)
    && PelOk(st.pel, st.cursor)
    && !Before(st.top, st.cursor)
    && (!st.grouped ==> st.cursor == ZERO && st.pel == [])
  }

  // ----- Commands -----

  /** XADD * */
  function XAdd(st: Stream, e: Entry): Stream {
    st.(entries := st.entries + [e], top := e.id)
  }

  /** XTRIM, seen as dropping the k oldest entries. The pending list is untouched. */
  function XTrim(st: Stream, k: nat): Stream
    requires k <= |st.entries|
  {
    st.(entries := st.entries[k..])
  }

  /** Unread entries a trim of k drops. */
  function TrimLost(st: Stream, k: nat): (lost: seq<Entry>)
    requires k <= |st.entries|
    ensures |lost| <= k
  {
    var r := ReadCount(st.entries, st.cursor);
    if k <= r then [] else st.entries[r..k]
  }

  /** XGROUP CREATE ... 0-0 MKSTREAM; BUSYGROUP when it exists. */
  function XGroupCreate(st: Stream): Stream {
    if st.grouped then st else st.(grouped := true, cursor := ZERO, pel := [])
  }

  function Min(a: int, b: int): int { if a < b then a else b }

  /** The oldest unread entries, `count` at most. */
  function Batch(st: Stream, count: nat): (b: seq<Entry>)
    ensures var r := ReadCount(st.entries, st.cursor);
      && |b| == Min(count, |st.entries| - r)
      && (forall i :: 0 <= i < |b| ==> b[i] == st.entries[r + i])
  {
    var r := ReadCount(st.entries, st.cursor);
    st.entries[r..r + Min(count, |st.entries| - r)]
  }

  function HandOut(es: seq<Entry>, now: nat): (pel: seq<Pending>)
    ensures |pel| == |es|
    ensures forall i :: 0 <= i < |es| ==> pel[i] == Pending(es[i], now, 1, true, 0)
  {
    seq(|es|, i requires 0 <= i < |es| => Pending(es[i], now, 1, true, 0))
  }

  /** XREADGROUP ... > */
  function XReadGroup(st: Stream, count: nat, now: nat): Stream {
    var batch := Batch(st, count);
    if batch == [] then st
    else st.(cursor := batch[|batch| - 1].id, pel := st.pel + HandOut(batch, now))
  }

  function IndexFrom(pel: seq<Pending>, id: Id, i: nat): (k: nat)
    requires i <= |pel|
    requires forall j :: 0 <= j < i ==> pel[j].entry.id != id
    ensures k <= |pel|
    ensures k < |pel| ==> pel[k].entry.id == id
    ensures forall j :: 0 <= j < k ==> pel[j].entry.id != id
    decreases |pel| - i
  {
    if i < |pel| && pel[i].entry.id != id then IndexFrom(pel, id, i + 1) else i
  }

  /** Position of an id in the pending list, or the list's length. */
  function IndexOf(pel: seq<Pending>, id: Id): (k: nat)
    ensures k <= |pel|
    ensures k < |pel| ==> pel[k].entry.id == id
    ensures forall j :: 0 <= j < k ==> pel[j].entry.id != id
  {
    IndexFrom(pel, id, 0)
  }

  predicate IsPending(st: Stream, id: Id) {
    IndexOf(st.pel, id) < |st.pel|
  }

  function Without(pel: seq<Pending>, i: nat): seq<Pending>
    requires i < |pel|
  {
    pel[..i] + pel[i + 1..]
  }

  /** XACK */
  function XAck(st: Stream, id: Id): Stream {
    var i := IndexOf(st.pel, id);
    if i < |st.pel| then st.(pel := Without(st.pel, i)) else st
  }

  predicate Due(r: Pending, now: nat, minIdle: nat) {
    r.since + minIdle <= now
  }

  /** What a claim deals with: it looks for the entry before it looks at the
      idle time, so a record whose entry is gone is dealt with at any time. */
  predicate Handled(r: Pending, es: seq<Entry>, now: nat, minIdle: nat) {
    !Stored(es, r.entry.id) || Due(r, now, minIdle)
  }

  /** XAUTOCLAIM over a stretch of the pending list: a record whose entry is gone
      from the stream is deleted, the other due ones change hands. */
  function ClaimPel(pel: seq<Pending>, es: seq<Entry>, now: nat, minIdle: nat): seq<Pending> {
    if pel == [] then []
    else
      var r := pel[0];
      (if !Stored(es, r.entry.id) then []
       else if Due(r, now, minIdle) then [Pending(r.entry, now, r.times + 1, true, r.kept)]
       else [r]) + ClaimPel(pel[1..], es, now, minIdle)
  }

  /** The entries a claim hands to the caller. */
  function Claimed(pel: seq<Pending>, es: seq<Entry>, now: nat, minIdle: nat): seq<Entry> {
    if pel == [] then []
    else
      var r := pel[0];
      (if Due(r, now, minIdle) && Stored(es, r.entry.id) then [r.entry] else [])
      + Claimed(pel[1..], es, now, minIdle)
  }

  /** The entries a claim deletes from the pending list. */
  function ClaimLost(pel: seq<Pending>, es: seq<Entry>): seq<Entry> {
    if pel == [] then []
    else
      var r := pel[0];
      (if !Stored(es, r.entry.id) then [r.entry] else []) + ClaimLost(pel[1..], es)
  }

  function XAutoClaim(st: Stream, lo: nat, hi: nat, now: nat, minIdle: nat): Stream
    requires lo <= hi <= |st.pel|
  {
    st.(pel := st.pel[..lo] + ClaimPel(st.pel[lo..hi], st.entries, now, minIdle) + st.pel[hi..])
  }

  // ----- Facts -----

  lemma ReadCountIs(es: seq<Entry>, cursor: Id, k: nat)
    requires k <= |es|
    requires forall i :: 0 <= i < k ==> !Before(cursor, es[i].id)
    requires k < |es| ==> Before(cursor, es[k].id)
    ensures ReadCount(es, cursor) == k
  {
  }

  /** In a sorted stream the passed entries are exactly a prefix. */
  lemma PassedIsPrefix(st: Stream, now: nat, i: nat)
    requires StreamOk(st, now) && i < |st.entries|
    ensures i < ReadCount(st.entries, st.cursor) <==> !Before(st.cursor, st.entries[i].id)
  {
  }

  lemma SortedSnoc(es: seq<Entry>, top: Id, now: nat, e: Entry)
    requires EntriesOk(es, top, now) && e.id == NextId(top, now)
    ensures EntriesOk(es + [e], e.id, now)
  {
    var fs := es + [e];
    forall i, j | 0 <= i < j < |fs|
      ensures Before(fs[i].id, fs[j].id)
    {
      if j == |es| && i < |es| - 1 {
        assert Before(es[i].id, es[|es| - 1].id);
      }
    }
  }

  lemma AddedIsUnread(st: Stream, now: nat, e: Entry)
    requires StreamOk(st, now) && e.id == NextId(st.top, now)
    ensures StreamOk(XAdd(st, e), now)
    ensures Unread(XAdd(st, e)) == Unread(st) + [e]
  {
    SortedSnoc(st.entries, st.top, now, e);
    var r := ReadCount(st.entries, st.cursor);
    ReadCountIs(st.entries + [e], st.cursor, r);
    assert (st.entries + [e])[r..] == st.entries[r..] + [e];
  }

  lemma TrimUnread(st: Stream, now: nat, k: nat)
    requires StreamOk(st, now) && k <= |st.entries|
    ensures Unread(st) == TrimLost(st, k) + Unread(XTrim(st, k))
  {
    hide ReadCount, PelOk;
    var es, r := st.entries, ReadCount(st.entries, st.cursor);
    if k <= r {
      DroppedPassed(es, st.cursor, k);
      assert es[k..][r - k..] == es[r..];
    } else {
      assert k < |es| ==> Before(es[r].id, es[k].id);
      DroppedUnread(es, st.cursor, k);
      assert es[r..] == es[r..k] + es[k..];
      assert es[k..][0..] == es[k..];
    }
  }

  lemma DroppedPassed(es: seq<Entry>, cursor: Id, k: nat)
    requires k <= ReadCount(es, cursor)
    ensures ReadCount(es[k..], cursor) == ReadCount(es, cursor) - k
  {
    ReadCountIs(es[k..], cursor, ReadCount(es, cursor) - k);
  }

  lemma DroppedUnread(es: seq<Entry>, cursor: Id, k: nat)
    requires k <= |es| && (k < |es| ==> Before(cursor, es[k].id))
    ensures ReadCount(es[k..], cursor) == 0
  {
    ReadCountIs(es[k..], cursor, 0);
  }

  lemma PelGrows(pel: seq<Pending>, cursor: Id, batch: seq<Entry>, now: nat)
    requires PelOk(pel, cursor) && Sorted(batch) && batch != []
    requires forall i :: 0 <= i < |batch| ==> Before(cursor, batch[i].id)
    ensures PelOk(pel + HandOut(batch, now), batch[|batch| - 1].id)
  {
    var (h, last) := (HandOut(batch, now), batch[|batch| - 1].id);
    forall i, j | 0 <= i < j < |pel + h|
      ensures Before((pel + h)[i].entry.id, (pel + h)[j].entry.id)
    {
      if i < |pel| <= j {
        assert Before(cursor, batch[j - |pel|].id);
      }
    }
    forall i | 0 <= i < |pel + h|
      ensures Before(ZERO, (pel + h)[i].entry.id) && !Before(last, (pel + h)[i].entry.id)
    {
      if i < |pel| {
        assert Before(cursor, batch[|batch| - 1].id);
      } else {
        assert Before(cursor, batch[i - |pel|].id);
        assert (pel + h)[i].entry == batch[i - |pel|];
        assert i - |pel| < |batch| - 1 ==> Before(batch[i - |pel|].id, last);
      }
    }
  }

  lemma BatchIsSlice(st: Stream, count: nat)
    ensures var (b, r) := (Batch(st, count), ReadCount(st.entries, st.cursor));
      r + |b| <= |st.entries| && b == st.entries[r..r + |b|]
  {
  }

  lemma SliceSorted(es: seq<Entry>, cursor: Id, n: nat)
    requires Sorted(es) && ReadCount(es, cursor) + n <= |es|
    ensures var r := ReadCount(es, cursor); var b := es[r..r + n];
      && Sorted(b)
      && (forall i :: 0 <= i < n ==> Before(cursor, b[i].id))
  {
    var r := ReadCount(es, cursor);
    forall i | r <= i < r + n
      ensures Before(cursor, es[i].id)
    {
      assert i > r ==> Before(es[r].id, es[i].id);
    }
  }

  lemma SliceEnd(es: seq<Entry>, r: nat, n: nat)
    requires Sorted(es) && 0 < n && r + n <= |es|
    ensures ReadCount(es, es[r + n - 1].id) == r + n
    ensures !Before(es[|es| - 1].id, es[r + n - 1].id)
  {
    var last := r + n - 1;
    assert last < |es| - 1 ==> Before(es[last].id, es[|es| - 1].id);
    ReadCountIs(es, es[last].id, r + n);
  }

  /** A read hands out the oldest unread entries and nothing else. */
  lemma ReadMovesBatch(st: Stream, now: nat, count: nat)
    requires StreamOk(st, now)
    ensures Unread(st) == Batch(st, count) + Unread(XReadGroup(st, count, now))
    ensures XReadGroup(st, count, now).pel == st.pel + HandOut(Batch(st, count), now)
  {
    if Batch(st, count) == [] {
      assert st.pel + HandOut([], now) == st.pel;
    } else {
      ReadMovesSome(st, now, count);
    }
  }

  lemma ReadMovesSome(st: Stream, now: nat, count: nat)
    requires Sorted(st.entries) && Batch(st, count) != []
    ensures Unread(st) == Batch(st, count) + Unread(XReadGroup(st, count, now))
  {
    hide ReadCount, HandOut, Sorted, Batch;
    var b, es, r := Batch(st, count), st.entries, ReadCount(st.entries, st.cursor);
    BatchIsSlice(st, count);
    LastOfSlice(es, r, |b|);
    SliceEnd(es, r, |b|);
    SliceSplit(es, r, |b|);
  }

  lemma LastOfSlice(es: seq<Entry>, r: nat, n: nat)
    requires 0 < n && r + n <= |es|
    ensures es[r..r + n][n - 1] == es[r + n - 1]
  {
  }

  lemma SliceSplit(es: seq<Entry>, r: nat, n: nat)
    requires r + n <= |es|
    ensures es[r..] == es[r..r + n] + es[r + n..]
  {
  }

  lemma ReadKeepsOk(st: Stream, now: nat, count: nat)
    requires StreamOk(st, now) && st.grouped
    ensures StreamOk(XReadGroup(st, count, now), now)
  {
    var b, es := Batch(st, count), st.entries;
    var r := ReadCount(es, st.cursor);
    BatchIsSlice(st, count);
    if b != [] {
      SliceSorted(es, st.cursor, |b|);
      assert b[|b| - 1] == es[r + |b| - 1];
      SliceEnd(es, r, |b|);
      PelGrows(st.pel, st.cursor, b, now);
    }
  }

  lemma AckKeepsOk(st: Stream, now: nat, id: Id)
    requires StreamOk(st, now)
    ensures StreamOk(XAck(st, id), now)
    ensures Unread(XAck(st, id)) == Unread(st)
    ensures !IsPending(XAck(st, id), id)
  {
  }

  lemma IndexInPel(pel: seq<Pending>, i: nat)
    requires SortedPel(pel) && i < |pel|
    ensures IndexOf(pel, pel[i].entry.id) == i
  {
  }

  /** A claim keeps the order of the pending list and invents no entry. */
  lemma {:induction false} ClaimKeepsOrder(pel: seq<Pending>, es: seq<Entry>, now: nat, minIdle: nat)
    requires SortedPel(pel)
    ensures var c := ClaimPel(pel, es, now, minIdle);
      && SortedPel(c)
      && (forall j :: 0 <= j < |c| ==> exists i :: 0 <= i < |pel| && pel[i].entry == c[j].entry)
  {
    if pel != [] {
      ClaimKeepsOrder(pel[1..], es, now, minIdle);
      var rest := ClaimPel(pel[1..], es, now, minIdle);
      var c := ClaimPel(pel, es, now, minIdle);
      forall j | 0 <= j < |rest|
        ensures exists i :: 1 <= i < |pel| && pel[i].entry == rest[j].entry
      {
        var i :| 0 <= i < |pel[1..]| && pel[1..][i].entry == rest[j].entry;
        assert pel[i + 1].entry == rest[j].entry;
      }
      assert c == rest || (|c| == 1 + |rest| && c[0].entry == pel[0].entry && c[1..] == rest);
    }
  }
}
