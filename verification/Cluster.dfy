/** The fleet of pods around one Redis: what one processing pass decides for
    an entry, and every atomic step the routers, the publishers and the clock
    can take. */
module Cluster {
  import opened StreamIds
  import opened RedisStreams

  datatype Option<T> = None | Some(value: T)

  // ----- Configuration -----

  datatype Config = Config(
    maxLen: int, readCount: int, claimIdleMs: int, maxPendingMs: int,
    retentionMs: int, deadRetentionMs: int)

  function OrDefault(v: int, default: nat): (r: nat)
    ensures default > 0 ==> r > 0
  {
    if v > 0 then v else default
  }

  function ReadCountOf(cfg: Config): nat { OrDefault(cfg.readCount, 100) }

  function MinIdle(cfg: Config): nat { OrDefault(cfg.claimIdleMs, 60000) }

  function DeadRetention(cfg: Config): nat { OrDefault(cfg.deadRetentionMs, 3600000) }

  /** How long a failed lookup may keep an entry pending. */
  function Window(cfg: Config): nat { OrDefault(cfg.maxPendingMs, 60000) }

  // ----- One processing pass -----

  datatype Lookup = Failed | Offline | At(pod: nat)

  /** Results of the calls a processing pass makes into code outside the
      router: isLocal, deliver, the presence lookups (the one of processMessage,
      the re-check after a failed send and the one inside PublishToClient),
      XADD and the heartbeat check of the source pod. */
  datatype Env = Env(local: bool, sent: bool, first: Lookup, again: Lookup, inner: Lookup,
                     added: bool, sourceAlive: bool)

  datatype Reason =
    | NoClient | TooOld | SendFailed | LookupTooLong | OfflineTooLong
    | RepublishFailed | RepublishOffline | SourceAlive | ForceAcked | Trimmed | Deleted

  datatype Verdict = Deliver | Move(to: nat) | Keep | Discard(why: Reason)

  function Age(now: nat, id: Id): int { now - id.ms }

  /** PublishToClient on behalf of a processing pass. */
  function Republish(env: Env): Verdict {
    match env.inner
    case Failed => Discard(RepublishFailed)
    case Offline => Discard(RepublishOffline)
    case At(t) => if env.added then Move(t) else Discard(RepublishFailed)
  }

  /** shouldRetryMessage: a failed lookup has the whole window, a client that
      is known to be offline half of it. */
  function RetryOrDrop(cfg: Config, id: Id, now: nat, lookupFailed: bool): Verdict {
    if Age(now, id) > (if lookupFailed then Window(cfg) else Window(cfg) / 2)
    then Discard(if lookupFailed then LookupTooLong else OfflineTooLong)
    else Keep
  }

  /** For a client in this pod's own pool. */
  function LocalVerdict(who: nat, env: Env): (v: Verdict)
    ensures !v.Keep?
  {
    if env.sent then Deliver
    else if env.again.At? && env.again.pod != who then Republish(env)
    else Discard(SendFailed)
  }

  /** For a client that is not local but registered. */
  function ElsewhereVerdict(who: nat, pod: nat, env: Env): (v: Verdict)
    requires env.first.At?
    ensures !v.Keep?
  {
    if env.first.pod == who then (if env.sent then Deliver else Discard(SendFailed))
    else if env.first.pod == pod then
      if env.sourceAlive then Discard(SourceAlive)
      else if env.added then Move(who)
      else Discard(RepublishFailed)
    else Republish(env)
  }

  /** What pod `who` does with an entry handed to it from pod `pod`'s stream. */
  function Decide(cfg: Config, who: nat, pod: nat, e: Entry, now: nat, env: Env): Verdict {
    if e.client == "" then Discard(NoClient)
    else if cfg.maxPendingMs > 0 && Age(now, e.id) > cfg.maxPendingMs then Discard(TooOld)
    else if env.local then LocalVerdict(who, env)
    else
      match env.first
      case Failed => RetryOrDrop(cfg, e.id, now, true)
      case Offline => RetryOrDrop(cfg, e.id, now, false)
      case At(_) => ElsewhereVerdict(who, pod, env)
  }

  // ----- State -----

  datatype Message = Message(client: string, payload: string)

  datatype Outcome =
    | Delivered(entry: Entry, pod: nat)
    | Dropped(entry: Entry, why: Reason)

  /** An entry that some worker received from a pod's stream. */
  datatype Handout = Handout(pod: nat, entry: Entry)

  /** `published`, `log`, `copies`, `handed` and `finished` are history: the
      original publishes, the deliveries and drops so far, the number of
      appends, what was ever handed out, and for what a worker has completed
      the effect that entitles it to acknowledge. */
  datatype State = State(
    cfg: Config, now: nat, streams: seq<Stream>,
    published: seq<Message>, log: seq<Outcome>, copies: nat,
    handed: set<Handout>, finished: set<Handout>)

  function Start(cfg: Config, pods: nat): State {
    State(cfg, 0, seq(pods, _ => NO_STREAM), [], [], 0, {}, {})
  }

  function Losses(es: seq<Entry>, why: Reason): (os: seq<Outcome>)
    ensures |os| == |es|
    ensures forall i :: 0 <= i < |es| ==> os[i] == Dropped(es[i], why)
  {
    seq(|es|, i requires 0 <= i < |es| => Dropped(es[i], why))
  }

  function HandoutsOf(pod: nat, es: seq<Entry>): set<Handout> {
    set i | 0 <= i < |es| :: Handout(pod, es[i])
  }

  function WithStream(s: State, pod: nat, st: Stream): State
    requires pod < |s.streams|
  {
    s.(streams := s.streams[pod := st])
  }

  /** Drop the k oldest entries; the unread ones among them are lost. */
  function Evict(s: State, pod: nat, k: nat): State
    requires pod < |s.streams| && k <= |s.streams[pod].entries|
  {
    var st := s.streams[pod];
    WithStream(s, pod, XTrim(st, k)).(log := s.log + Losses(TrimLost(st, k), Trimmed))
  }

  /** XADD with MAXLEN ~ may drop old entries as long as MAXLEN remain. */
  predicate CanEvict(s: State, pod: nat, evict: nat)
    requires pod < |s.streams|
  {
    evict == 0 || (s.cfg.maxLen > 0 && evict + s.cfg.maxLen <= |s.streams[pod].entries| + 1)
  }

  function NewEntry(s: State, pod: nat, m: Message, token: nat): Entry
    requires pod < |s.streams|
  {
    Entry(NextId(s.streams[pod].top, s.now), m.client, m.payload, token, s.copies)
  }

  function Append(s: State, pod: nat, m: Message, token: nat, evict: nat): State
    requires pod < |s.streams| && CanEvict(s, pod, evict)
  {
    var e := NewEntry(s, pod, m, token);
    Evict(WithStream(s, pod, XAdd(s.streams[pod], e)).(copies := s.copies + 1), pod, evict)
  }

  /** The effect of a verdict, before any acknowledgement. */
  function Settle(s: State, who: nat, e: Entry, v: Verdict, evict: nat): State
    requires v.Move? ==> v.to < |s.streams| && CanEvict(s, v.to, evict)
  {
    match v
    case Deliver => s.(log := s.log + [Delivered(e, who)])
    case Move(t) => Append(s, t, Message(e.client, e.payload), e.token, evict)
    case Keep => s
    case Discard(why) => s.(log := s.log + [Dropped(e, why)])
  }

  // ----- Steps -----

  datatype Event =
    | Tick(ms: nat)
    | Publish(pod: nat, message: Message, evict: nat)
    | CreateGroup(pod: nat)
    | Read(pod: nat, count: nat)
    | Claim(pod: nat, lo: nat, hi: nat)
    | Process(who: nat, pod: nat, id: Id, env: Env, evict: nat)
    | Abandon(pod: nat, id: Id)
    | Effect(who: nat, pod: nat, entry: Entry, env: Env, evict: nat)
    | Ack(pod: nat, id: Id)
    | ForceAck(pod: nat, id: Id)
    | Trim(pod: nat, k: nat, floor: Id)
    | DropStream(pod: nat)

  predicate VerdictFits(s: State, v: Verdict, evict: nat) {
    v.Move? ==> v.to < |s.streams| && CanEvict(s, v.to, evict)
  }

  function Record(s: State, pod: nat, id: Id): Pending
    requires pod < |s.streams| && IsPending(s.streams[pod], id)
  {
    s.streams[pod].pel[IndexOf(s.streams[pod].pel, id)]
  }

  /** Trims cut strictly in the past, or at an id the group has read. */
  predicate FloorOk(st: Stream, now: nat, floor: Id) {
    floor.ms < now || !Before(st.cursor, floor)
  }

  /** Deleting a stream makes Redis forget its last id, so new ones differ from
      the old ones only by the clock. */
  predicate InThePast(top: Id, now: nat) {
    top == ZERO || top.ms < now
  }

  predicate Enabled(s: State, e: Event) {
    match e
    case Tick(_) => true
    case Publish(pod, _, evict) => pod < |s.streams| && CanEvict(s, pod, evict)
    case CreateGroup(pod) => pod < |s.streams|
    case Read(pod, _) => pod < |s.streams| && s.streams[pod].grouped
    case Claim(pod, lo, hi) => pod < |s.streams| && lo <= hi <= |s.streams[pod].pel|
    case Process(who, pod, id, env, evict) =>
      && pod < |s.streams|
      && IsPending(s.streams[pod], id)
      && Record(s, pod, id).held
      && VerdictFits(s, Decide(s.cfg, who, pod, Record(s, pod, id).entry, s.now, env), evict)
    case Abandon(pod, id) => pod < |s.streams| && IsPending(s.streams[pod], id)
    case Effect(who, pod, entry, env, evict) =>
      && pod < |s.streams|
      && Handout(pod, entry) in s.handed
      && VerdictFits(s, Decide(s.cfg, who, pod, entry, s.now, env), evict)
    case Ack(pod, id) =>
      pod < |s.streams| && exists h :: h in s.finished && h.pod == pod && h.entry.id == id
    case ForceAck(pod, id) => pod < |s.streams| && IsPending(s.streams[pod], id)
    case Trim(pod, k, floor) =>
      && pod < |s.streams|
      && k <= |s.streams[pod].entries|
      && FloorOk(s.streams[pod], s.now, floor)
      && (forall i :: 0 <= i < k ==> Before(s.streams[pod].entries[i].id, floor))
    case DropStream(pod) => pod < |s.streams| && InThePast(s.streams[pod].top, s.now)
  }

  function SetHeld(st: Stream, id: Id, kept: nat): Stream
    requires IsPending(st, id)
  {
    var i := IndexOf(st.pel, id);
    st.(pel := st.pel[i := st.pel[i].(held := false, kept := st.pel[i].kept + kept)])
  }

  function AckAt(s: State, pod: nat, id: Id): State
    requires pod < |s.streams|
  {
    WithStream(s, pod, XAck(s.streams[pod], id))
  }

  function Step(s: State, e: Event): State
    requires Enabled(s, e)
  {
    match e
    case Tick(ms) => s.(now := s.now + ms)
    case Publish(pod, m, evict) =>
      Append(s, pod, m, |s.published|, evict).(published := s.published + [m])
    case CreateGroup(pod) => WithStream(s, pod, XGroupCreate(s.streams[pod]))
    case Read(pod, count) =>
      var st := s.streams[pod];
      WithStream(s, pod, XReadGroup(st, count, s.now))
        .(handed := s.handed + HandoutsOf(pod, Batch(st, count)))
    case Claim(pod, lo, hi) =>
      var st := s.streams[pod];
      WithStream(s, pod, XAutoClaim(st, lo, hi, s.now, MinIdle(s.cfg)))
        .(log := s.log + Losses(ClaimLost(st.pel[lo..hi], st.entries), Trimmed))
    case Process(who, pod, id, env, evict) =>
      var entry := Record(s, pod, id).entry;
      var v := Decide(s.cfg, who, pod, entry, s.now, env);
      if v.Keep? then WithStream(s, pod, SetHeld(s.streams[pod], id, 1))
      else AckAt(Settle(s, who, entry, v, evict), pod, id)
    case Abandon(pod, id) => WithStream(s, pod, SetHeld(s.streams[pod], id, 0))
    case Effect(who, pod, entry, env, evict) =>
      var v := Decide(s.cfg, who, pod, entry, s.now, env);
      if v.Keep? then s
      else Settle(s, who, entry, v, evict).(finished := s.finished + {Handout(pod, entry)})
    case Ack(pod, id) => AckAt(s, pod, id)
    case ForceAck(pod, id) =>
      AckAt(s.(log := s.log + [Dropped(Record(s, pod, id).entry, ForceAcked)]), pod, id)
    case Trim(pod, k, _) => Evict(s, pod, k)
    case DropStream(pod) =>
      WithStream(s, pod, NO_STREAM).(log := s.log + Losses(LiveEntries(s.streams[pod]), Deleted))
  }

  /** The state after a list of events, if each was enabled in its turn. */
  function Run(s: State, es: seq<Event>): Option<State> {
    if es == [] then Some(s)
    else
      match Run(s, es[..|es| - 1])
      case None => None
      case Some(t) => if Enabled(t, es[|es| - 1]) then Some(Step(t, es[|es| - 1])) else None
  }

  /** Runs in which processing is atomic with its acknowledgement. */
  predicate Atomic(es: seq<Event>) {
    forall i :: 0 <= i < |es| ==> !es[i].Effect? && !es[i].Ack?
  }

  lemma RunSnoc(s: State, es: seq<Event>, e: Event)
    requires Run(s, es).Some? && Enabled(Run(s, es).value, e)
    ensures Run(s, es + [e]) == Some(Step(Run(s, es).value, e))
  {
    assert (es + [e])[..|es + [e]| - 1] == es;
  }

  lemma {:induction false} RunConcat(s: State, es: seq<Event>, fs: seq<Event>)
    requires Run(s, es).Some?
    ensures Run(s, es + fs) == Run(Run(s, es).value, fs)
  {
    if fs == [] {
      assert es + fs == es;
    } else {
      var init := fs[..|fs| - 1];
      RunConcat(s, es, init);
      assert (es + fs)[..|es + fs| - 1] == es + init;
      assert (es + fs)[|es + fs| - 1] == fs[|fs| - 1];
    }
  }
}
