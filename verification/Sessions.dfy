/** Who owns a client: the connection pool of each pod, the shared presence
    rows, and the force_close messages between them. */
module Sessions {
  import opened StreamIds
  import opened RedisStreams
  import opened Cluster

  /** A field of ws:clients. */
  datatype Row = Row(pod: nat, conn: nat, token: string)

  /** ws:clients and ws:clients:lastseen */
  datatype Store = Store(rows: map<string, Row>, seen: map<string, int>)

  /** One pod: its pool, its open-connections gauge, and, as history, the pool
      entries taken over in place, closed by a delivered force_close, and
      registered without the gauge being raised. */
  datatype Pod = Pod(pool: map<string, nat>, gauge: int, overwritten: nat, forced: nat, failed: nat)

  const EMPTY_POD := Pod(map[], 0, 0, 0, 0)

  /** What one handler sees and changes: its pod, the store, its connection's
      client id, and the pod it told to close a client. */
  datatype View = View(pod: Pod, store: Store, name: string, told: Option<nat>)

  datatype Request = Request(id: string, callback: string, token: string)

  /** Which of the calls made on the way succeed; `routed` says whether the
      process has a streams router at all, and `zrem` is the second command of
      a removal, after `del`. */
  datatype Calls = Calls(
    get: bool, answered: bool, routed: bool, publish: bool, del: bool, zrem: bool, add: bool, parsed: bool,
    triggered: bool)

  datatype Reply =
    | Registered | Closed
    | BlankField | LookupFailed | HandlerDead | IdTaken | PublishFailed | BadCallback | StoreFailed | TriggerFailed
    | InvalidClient | InvalidToken

  // ----- The store -----

  /** The row goes, and the last-seen time unless its removal fails. */
  function Forget(st: Store, id: string, zrem: bool): Store {
    Store(st.rows - {id}, if zrem then st.seen - {id} else st.seen)
  }

  /** The compare-and-delete script of RemoveConnectedClientIf. */
  function ForgetIf(st: Store, id: string, conn: nat): Store {
    if id in st.rows && st.rows[id].conn == conn then Forget(st, id, true) else st
  }

  /** The script of the presence cleanup. */
  function Sweep(st: Store, id: string, expected: Row, cutoff: int, beats: set<nat>): Store {
    if id !in st.rows || st.rows[id] != expected then st
    else if expected.pod in beats then st
    else if id !in st.seen then st
    else if st.seen[id] < cutoff then Forget(st, id, true)
    else st
  }

  // ----- The handlers -----

  /** Make the recorded owner let go of the client; None when that fails. */
  function EvictOwner(v: View, self: nat, id: string, owner: Row, calls: Calls): Option<View> {
    if owner.pod == self then
      if id in v.pod.pool
      then Some(v.(pod := v.pod.(pool := v.pod.pool - {id}, gauge := v.pod.gauge - 1)))
      else Some(v)
    else if !calls.routed then Some(v)
    else if calls.publish then Some(v.(told := Some(owner.pod)))
    else None
  }

  function Admit(v: View, self: nat, conn: nat, r: Request, calls: Calls): (View, Reply) {
    var v1 := v.(name := r.id);
    if !calls.parsed then (v1, BadCallback)
    else if !calls.add then (v1, StoreFailed)
    else
      var v2 := v1.(
        store := v.store.(rows := v.store.rows[r.id := Row(self, conn, r.token)]),
        pod := v.pod.(pool := v.pod.pool[r.id := conn],
                      overwritten := v.pod.overwritten + if r.id in v.pod.pool then 1 else 0));
      if calls.triggered then (v2.(pod := v2.pod.(gauge := v2.pod.gauge + 1)), Registered)
      else (v2.(pod := v2.pod.(failed := v2.pod.failed + 1)), TriggerFailed)
  }

  function Register(v: View, self: nat, conn: nat, r: Request, beats: set<nat>, calls: Calls): (View, Reply) {
    if r.id == "" || r.callback == "" then (v, BlankField)
    else if !calls.get then (v, LookupFailed)
    else if r.id !in v.store.rows then Admit(v, self, conn, r, calls)
    else
      var owner := v.store.rows[r.id];
      if !(calls.answered && owner.pod in beats) then
        (if calls.del then v.(store := Forget(v.store, r.id, calls.zrem)) else v, HandlerDead)
      else if owner.token != "" && owner.token != r.token then (v, IdTaken)
      else
        match EvictOwner(v, self, r.id, owner, calls)
        case None => (v, PublishFailed)
        case Some(v1) => Admit(v1, self, conn, r, calls)
  }

  function CloseSession(v: View, self: nat, id: string, token: string, calls: Calls): (View, Reply) {
    if !calls.get then (v, LookupFailed)
    else if id !in v.store.rows then (v, InvalidClient)
    else
      var owner := v.store.rows[id];
      if owner.token != "" && owner.token != token then (v, InvalidToken)
      else
        match EvictOwner(v, self, id, owner, calls)
        case None => (v, PublishFailed)
        case Some(v1) => (if calls.del then v1.(store := ForgetIf(v1.store, id, owner.conn)) else v1, Closed)
  }

  /** The deferred cleanup of Read: only a connection that is still in the pool
      itself is taken out, and only its own row. */
  function ReadExit(v: View, conn: nat, del: bool): View {
    if v.name in v.pod.pool && v.pod.pool[v.name] == conn then
      v.(pod := v.pod.(pool := v.pod.pool - {v.name}, gauge := v.pod.gauge - 1),
         store := if del then ForgetIf(v.store, v.name, conn) else v.store)
    else v
  }

  /** A force_close delivered to a pod closes whatever connection the pool holds
      under that client id; it leaves the gauge alone. */
  function ForceCloseAt(pod: Pod, id: string): Pod {
    if id in pod.pool then pod.(pool := pod.pool - {id}, forced := pod.forced + 1) else pod
  }

  // ----- The fleet -----

  /** `inbox[p]` are the unacknowledged force_close entries of pod p's stream,
      by client id. A connection belongs to one pod and remembers the client id
      it last registered for. `limit` is the age beyond which the router drops
      entries, none if it is not positive. */
  datatype Fleet = Fleet(
    pods: seq<Pod>, store: Store, beats: set<nat>, inbox: seq<multiset<string>>,
    home: map<nat, nat>, names: map<nat, string>, open: set<nat>, limit: int)

  function Empty(n: nat, limit: int): Fleet {
    Fleet(seq(n, _ => EMPTY_POD), Store(map[], map[]), {}, seq(n, _ => multiset{}), map[], map[], {}, limit)
  }

  /** `Lose` is a force_close trimmed, evicted or force-acknowledged. */
  datatype Action =
    | Connect(pod: nat, conn: nat)
    | Enrol(conn: nat, request: Request, calls: Calls)
    | Hangup(conn: nat, id: string, token: string, calls: Calls)
    | Exit(conn: nat, del: bool)
    | Handle(who: nat, pod: nat, id: string, age: nat)
    | Lose(pod: nat, id: string)
    | Crash(pod: nat)
    | Beat(pod: nat)
    | Expire(pod: nat)
    | Touch(id: string, at: int)
    | Cleanup(id: string, expected: Row, cutoff: int)

  /** What the router decides for a force_close for `id` that pod `who` took
      from pod `pod`'s stream, all its Redis calls succeeding. */
  function Fate(f: Fleet, who: nat, pod: nat, id: string, age: nat): Verdict
    requires who < |f.pods|
  {
    var found := if id in f.store.rows then At(f.store.rows[id].pod) else Offline;
    var local := id in f.pods[who].pool;
    Decide(Config(0, 0, 0, f.limit, 0, 0), who, pod, Entry(Id(0, 0), id, "force_close", 0, 0), age,
           Env(local, local, found, found, found, true, pod in f.beats))
  }

  /** A pod whose pool is not empty has its heartbeat; the janitors take over
      only streams of pods without one. */
  predicate Possible(f: Fleet, e: Action) {
    match e
    case Connect(p, c) => p < |f.pods| && c !in f.home
    case Enrol(c, _, _) => c in f.open && c in f.home && c in f.names && f.home[c] in f.beats && f.home[c] < |f.pods|
    case Hangup(c, _, _, _) => c in f.open && c in f.home && c in f.names && f.home[c] < |f.pods|
    case Exit(c, _) => c in f.open && c in f.home && c in f.names && f.home[c] < |f.pods|
    case Handle(who, p, id, age) =>
      && who < |f.pods| && p < |f.inbox|
      && id in f.inbox[p]
      && (who == p || p !in f.beats)
      && (Fate(f, who, p, id, age).Move? ==> Fate(f, who, p, id, age).to < |f.inbox|)
    case Lose(p, id) => p < |f.inbox| && id in f.inbox[p]
    case Crash(p) => p < |f.pods|
    case Beat(p) => p < |f.pods|
    case Expire(p) => p < |f.pods| && f.pods[p].pool == map[]
    case Touch(_, _) => true
    case Cleanup(_, _, _) => true
  }

  function ViewOf(f: Fleet, conn: nat): View
    requires conn in f.home && conn in f.names && f.home[conn] < |f.pods|
  {
    View(f.pods[f.home[conn]], f.store, f.names[conn], None)
  }

  function WithView(f: Fleet, conn: nat, id: string, v: View): Fleet
    requires conn in f.home && f.home[conn] < |f.pods|
  {
    f.(pods := f.pods[f.home[conn] := v.pod],
       store := v.store,
       names := f.names[conn := v.name],
       inbox := if v.told.Some? && v.told.value < |f.inbox| then Post(f.inbox, v.told.value, id) else f.inbox)
  }

  function Post(inbox: seq<multiset<string>>, pod: nat, id: string): seq<multiset<string>>
    requires pod < |inbox|
  {
    inbox[pod := inbox[pod] + multiset{id}]
  }

  function Take(inbox: seq<multiset<string>>, pod: nat, id: string): seq<multiset<string>>
    requires pod < |inbox|
  {
    inbox[pod := inbox[pod] - multiset{id}]
  }

  function After(f: Fleet, e: Action): Fleet
    requires Possible(f, e)
  {
    match e
    case Connect(p, c) => f.(home := f.home[c := p], names := f.names[c := ""], open := f.open + {c})
    case Enrol(c, r, calls) => WithView(f, c, r.id, Register(ViewOf(f, c), f.home[c], c, r, f.beats, calls).0)
    case Hangup(c, id, token, calls) => WithView(f, c, id, CloseSession(ViewOf(f, c), f.home[c], id, token, calls).0)
    case Exit(c, del) => WithView(f, c, "", ReadExit(ViewOf(f, c), c, del)).(open := f.open - {c})
    case Handle(who, p, id, age) =>
      (match Fate(f, who, p, id, age)
       case Deliver => f.(pods := f.pods[who := ForceCloseAt(f.pods[who], id)], inbox := Take(f.inbox, p, id))
       case Move(t) => f.(inbox := Post(Take(f.inbox, p, id), t, id))
       case Keep => f
       case Discard(_) => f.(inbox := Take(f.inbox, p, id)))
    case Lose(p, id) => f.(inbox := Take(f.inbox, p, id))
    case Crash(p) =>
      f.(pods := f.pods[p := EMPTY_POD], open := set c | c in f.open && c in f.home && f.home[c] != p)
    case Beat(p) => f.(beats := f.beats + {p})
    case Expire(p) => f.(beats := f.beats - {p})
    case Touch(id, at) => f.(store := f.store.(seen := f.store.seen[id := at]))
    case Cleanup(id, expected, cutoff) => f.(store := Sweep(f.store, id, expected, cutoff, f.beats))
  }

  function Replay(f: Fleet, es: seq<Action>): Option<Fleet> {
    if es == [] then Some(f)
    else
      match Replay(f, es[..|es| - 1])
      case None => None
      case Some(g) => if Possible(g, es[|es| - 1]) then Some(After(g, es[|es| - 1])) else None
  }
}
