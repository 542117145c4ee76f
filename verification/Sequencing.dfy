/** The gRPC message stream: numbering the chunks of an answer per message id,
    once with a tracker local to the stream and once with one on the server. */
module Sequencing {
  import opened Cluster
  import opened GoStrings

  // ----- Messages -----

  /** `index` is the rationale_index when it parses; `final` is what
      isFinalOutputContent says of the content. */
  datatype Message = Message(
    kind: string, msgId: string, urn: string, content: string, channel: string, index: Option<int>, final: bool)

  /** What publishing to the client comes to. */
  datatype Publish = Published | NotConnected | Failed(error: string)

  /** `storable` says whether the history service takes the message. */
  datatype Arrival = Arrival(message: Message, publish: Publish, storable: bool)

  datatype Payload =
    | StreamStart(id: string)
    | StreamDelta(v: string, number: int)
    | StreamEnd(id: string, content: string)
    | StreamRationale(id: string, content: string, index: int)
    | ControlPayload(kind: string, to: string, from: string, channel: string)

  datatype Response = Response(
    status: string, msgId: string, message: string, code: string, error: string, final: bool, sequence: int)

  datatype Outcome = Ok(response: Response) | Err(error: string)

  /** What has gone out: payloads by receiver, and messages saved to history. */
  datatype World = World(sent: seq<(string, Payload)>, saved: seq<(string, string)>)

  /** The contact without its scheme. */
  function NormalizeContactURN(urn: string): string {
    var i := Index(urn, ':');
    if i != -1 then urn[i + 1..] else urn
  }

  /** Go's int32(n) */
  function Int32(n: int): int {
    (n + 0x8000_0000) % 0x1_0000_0000 - 0x8000_0000
  }

  function Success(m: Message, text: string): Response {
    Response("success", m.msgId, text, "", "", false, 0)
  }

  function ErrorResponse(m: Message, code: string, error: string): Response {
    Response("error", m.msgId, "", code, error, false, 0)
  }

  // ----- One message -----

  type Tracker = map<string, int>

  function Value(t: Tracker, id: string): int {
    if id in t then t[id] else 0
  }

  function Emit(w: World, m: Message, p: Payload, publish: Publish): World {
    if publish.Published? then w.(sent := w.sent + [(NormalizeContactURN(m.urn), p)]) else w
  }

  function Setup(w: World, a: Arrival): (World, Outcome) {
    var m := a.message;
    (Emit(w, m, StreamStart(m.msgId), a.publish),
     match a.publish
     case Failed(e) => Ok(ErrorResponse(m, "PUBLISH_ERROR", e))
     case NotConnected => Ok(ErrorResponse(m, "CLIENT_OFFLINE", "client is not connected"))
     case Published => Ok(Success(m, "setup acknowledged, stream_start sent")))
  }

  function Delta(w: World, a: Arrival, number: int): (World, Outcome) {
    var m := a.message;
    (Emit(w, m, StreamDelta(m.content, number), a.publish),
     if a.publish.Failed? then Err("failed to publish delta: " + a.publish.error)
     else Ok(Success(m, "delta received and forwarded").(sequence := Int32(number))))
  }

  function Completed(w: World, a: Arrival): (World, Outcome) {
    var m := a.message;
    if a.publish.Failed? then (w, Err("failed to publish stream end: " + a.publish.error))
    else
      var w1 := Emit(w, m, StreamEnd(m.msgId, m.content), a.publish);
      (if m.final || !a.storable then w1 else w1.(saved := w1.saved + [(NormalizeContactURN(m.urn), m.content)]),
       Ok(Success(m, "message completed, stream_end sent").(final := true)))
  }

  function Control(w: World, a: Arrival): (World, Outcome) {
    var m := a.message;
    (Emit(w, m, ControlPayload(m.content, NormalizeContactURN(m.urn), "system", m.channel), a.publish),
     if a.publish.Failed? then Err("failed to publish control message: " + a.publish.error)
     else Ok(Success(m, "control message forwarded")))
  }

  function Rationale(w: World, a: Arrival): (World, Outcome) {
    var m := a.message;
    var text := TrimSpace(m.content);
    if text == "" then (w, Ok(Success(m, "rationale forwarded")))
    else
      (Emit(w, m, StreamRationale(m.msgId, text, if m.index.Some? then m.index.value else 0), a.publish),
       if a.publish.Failed? then Err("failed to publish rationale: " + a.publish.error)
       else Ok(Success(m, "rationale forwarded")))
  }

  datatype Step = Step(world: World, tracker: Tracker, outcome: Outcome)

  function With(out: (World, Outcome), t: Tracker): Step {
    Step(out.0, t, out.1)
  }

  /** processStreamMessageWithSeq with a tracker */
  function StreamStep(w: World, t: Tracker, a: Arrival): Step {
    var m := a.message;
    if m.kind == "setup" then With(Setup(w, a), t[m.msgId := 0])
    else if m.kind == "completed" then With(Completed(w, a), t - {m.msgId})
    else if m.kind == "control" then With(Control(w, a), t)
    else if m.kind == "rationale" then With(Rationale(w, a), t)
    else
      var n := Value(t, m.msgId) + 1;
      With(Delta(w, a, n), t[m.msgId := n])
  }

  /** processStreamMessageWithSeq without a tracker: every delta is number 1 */
  function PlainStep(w: World, a: Arrival): (World, Outcome) {
    var s := StreamStep(w, map[], a);
    (s.world, s.outcome)
  }

  /** processStreamMessageWithUnarySeq */
  function UnaryStep(w: World, t: Tracker, a: Arrival): Step {
    var m := a.message;
    if m.kind == "setup" then With(PlainStep(w, a), t[m.msgId := 0])
    else if m.kind == "completed" then With(PlainStep(w, a), t - {m.msgId})
    else if m.kind == "rationale" then With(Rationale(w, a), t)
    else
      var n := Value(t, m.msgId) + 1;
      With(Delta(w, a, n), t[m.msgId := n])
  }

  /** What both RPCs answer for an outcome. */
  function Answer(m: Message, out: Outcome): Response {
    match out
    case Ok(r) => r
    case Err(e) => ErrorResponse(m, "PROCESSING_ERROR", e)
  }

  // ----- A list of messages -----

  datatype Transcript = Transcript(world: World, tracker: Tracker, responses: seq<Response>)

  /** Before the first message: nothing answered, nothing tracked. */
  function Opening(w: World): Transcript {
    Transcript(w, map[], [])
  }

  function Extend(t: Transcript, s: Step, m: Message): Transcript {
    Transcript(s.world, s.tracker, t.responses + [Answer(m, s.outcome)])
  }

  function StreamRun(from: Transcript, msgs: seq<Arrival>): (t: Transcript)
    ensures |t.responses| == |from.responses| + |msgs|
  {
    if msgs == [] then from
    else
      var t := StreamRun(from, msgs[..|msgs| - 1]);
      var a := msgs[|msgs| - 1];
      Extend(t, StreamStep(t.world, t.tracker, a), a.message)
  }

  function UnaryRun(from: Transcript, msgs: seq<Arrival>): (t: Transcript)
    ensures |t.responses| == |from.responses| + |msgs|
  {
    if msgs == [] then from
    else
      var t := UnaryRun(from, msgs[..|msgs| - 1]);
      var a := msgs[|msgs| - 1];
      Extend(t, UnaryStep(t.world, t.tracker, a), a.message)
  }

  predicate HasControl(msgs: seq<Arrival>) {
    exists i :: 0 <= i < |msgs| && msgs[i].message.kind == "control"
  }

  lemma SameStep(w: World, t: Tracker, a: Arrival)
    requires a.message.kind != "control"
    ensures StreamStep(w, t, a) == UnaryStep(w, t, a)
  {
  }

  /** A control message is answered differently whatever came before it. */
  lemma ControlTellsThemApart(w: World, t: Tracker, v: World, u: Tracker, a: Arrival)
    requires a.message.kind == "control"
    ensures Answer(a.message, StreamStep(w, t, a).outcome) != Answer(a.message, UnaryStep(v, u, a).outcome)
  {
    if a.publish.Failed? {
      var p := "failed to publish control message: " + a.publish.error;
      var q := "failed to publish delta: " + a.publish.error;
      assert p[18] == 'c' && q[18] == 'd';
    } else {
      assert "control message forwarded"[0] != "delta received and forwarded"[0];
    }
  }

  /** From the same state, streaming a list of messages and sending them one by
      one come to the same answers exactly when none is a control message; and then they publish the
      same payloads, save the same history and leave the same tracker. */
  lemma {:induction false} StreamAndUnaryAgree(from: Transcript, msgs: seq<Arrival>)
    ensures StreamRun(from, msgs).responses == UnaryRun(from, msgs).responses <==> !HasControl(msgs)
    ensures !HasControl(msgs) ==> StreamRun(from, msgs) == UnaryRun(from, msgs)
  {
    if msgs == [] {
    } else {
      var init, a := msgs[..|msgs| - 1], msgs[|msgs| - 1];
      StreamAndUnaryAgree(from, init);
      var s, u := StreamRun(from, init), UnaryRun(from, init);
      assert StreamRun(from, msgs).responses[..|from.responses| + |init|] == s.responses;
      assert UnaryRun(from, msgs).responses[..|from.responses| + |init|] == u.responses;
      if a.message.kind == "control" {
        ControlTellsThemApart(s.world, s.tracker, u.world, u.tracker, a);
        var last := |from.responses| + |init|;
        assert StreamRun(from, msgs).responses[last] != UnaryRun(from, msgs).responses[last];
        assert msgs[|msgs| - 1].message.kind == "control";
      } else {
        SameStep(s.world, s.tracker, a);
        assert HasControl(msgs) <==> HasControl(init) by {
          if HasControl(msgs) {
            var i :| 0 <= i < |msgs| && msgs[i].message.kind == "control";
            assert init[i] == msgs[i];
          }
          if HasControl(init) {
            var i :| 0 <= i < |init| && init[i].message.kind == "control";
            assert msgs[i] == init[i];
          }
        }
      }
    }
  }

  // ----- The numbers -----

  predicate IsDelta(m: Message) {
    m.kind != "setup" && m.kind != "completed" && m.kind != "control" && m.kind != "rationale"
  }

  predicate Resets(m: Message, id: string) {
    (m.kind == "setup" || m.kind == "completed") && m.msgId == id
  }

  /** The chunks for `id` among the first n messages that no later setup or
      completed for `id` among them has closed off. */
  function Turn(msgs: seq<Arrival>, n: nat, id: string): set<nat>
    requires n <= |msgs|
  {
    set j: nat | j < n && IsDelta(msgs[j].message) && msgs[j].message.msgId == id
      && (forall k :: j < k < n ==> !Resets(msgs[k].message, id))
  }

  lemma TurnGrows(msgs: seq<Arrival>, n: nat, id: string)
    requires n < |msgs|
    ensures var m := msgs[n].message;
      Turn(msgs, n + 1, id) ==
        if Resets(m, id) then {}
        else if IsDelta(m) && m.msgId == id then Turn(msgs, n, id) + {n}
        else Turn(msgs, n, id)
  {
    var m := msgs[n].message;
    forall j: nat | j < n
      ensures j in Turn(msgs, n + 1, id) <==> j in Turn(msgs, n, id) && !Resets(m, id)
    {
      assert (forall k :: j < k < n + 1 ==> !Resets(msgs[k].message, id)) <==>
             (forall k :: j < k < n ==> !Resets(msgs[k].message, id)) && !Resets(m, id);
    }
  }

  lemma StepCounts(w: World, t: Tracker, a: Arrival, id: string)
    ensures Value(StreamStep(w, t, a).tracker, id) ==
      if Resets(a.message, id) then 0
      else if IsDelta(a.message) && a.message.msgId == id then Value(t, id) + 1
      else Value(t, id)
  {
  }

  /** The tracker holds, for every message id, how many chunks its current turn
      has had. */
  lemma {:induction false} TrackerCountsTheTurn(w: World, msgs: seq<Arrival>, n: nat, id: string)
    requires n <= |msgs|
    ensures Value(StreamRun(Opening(w), msgs[..n]).tracker, id) == |Turn(msgs, n, id)|
  {
    hide StreamStep, IsDelta, Resets;
    if n == 0 {
      assert Turn(msgs, 0, id) == {};
    } else {
      TrackerCountsTheTurn(w, msgs, n - 1, id);
      TurnGrows(msgs, n - 1, id);
      assert msgs[..n][..n - 1] == msgs[..n - 1];
      var t := StreamRun(Opening(w), msgs[..n - 1]);
      StepCounts(t.world, t.tracker, msgs[n - 1], id);
      assert n - 1 !in Turn(msgs, n - 1, id);
    }
  }

  /** The i-th message, if it is a chunk, goes out with the number of chunks its
      turn has had, itself included: so each turn is numbered 1, 2, 3, ...,
      whatever rationales, control messages or other message ids come between. */
  lemma ChunksAreNumberedInTurn(w: World, msgs: seq<Arrival>, i: nat)
    requires i < |msgs| && IsDelta(msgs[i].message) && !msgs[i].publish.Failed?
    ensures var number := |Turn(msgs, i + 1, msgs[i].message.msgId)|;
      && i in Turn(msgs, i + 1, msgs[i].message.msgId)
      && StreamRun(Opening(w), msgs[..i + 1]).responses[i].sequence == Int32(number)
      && (msgs[i].publish.Published? ==>
            StreamRun(Opening(w), msgs[..i + 1]).world.sent == StreamRun(Opening(w), msgs[..i]).world.sent
              + [(NormalizeContactURN(msgs[i].message.urn), StreamDelta(msgs[i].message.content, number))])
      && (forall j :: j in Turn(msgs, i, msgs[i].message.msgId) ==>
            |Turn(msgs, j + 1, msgs[i].message.msgId)| < number)
  {
    var id := msgs[i].message.msgId;
    TrackerCountsTheTurn(w, msgs, i + 1, id);
    assert msgs[..i + 1][..i] == msgs[..i];
    forall j | j in Turn(msgs, i, id) ensures |Turn(msgs, j + 1, id)| < |Turn(msgs, i + 1, id)| {
      EarlierTurnIsSmaller(msgs, i, j);
    }
  }

  lemma EarlierTurnIsSmaller(msgs: seq<Arrival>, i: nat, j: nat)
    requires i < |msgs| && IsDelta(msgs[i].message) && j in Turn(msgs, i, msgs[i].message.msgId)
    ensures |Turn(msgs, j + 1, msgs[i].message.msgId)| < |Turn(msgs, i + 1, msgs[i].message.msgId)|
  {
    var id := msgs[i].message.msgId;
    var early, late := Turn(msgs, j + 1, id), Turn(msgs, i + 1, id);
    forall x | x in early ensures x in late {
      forall k | x < k < i + 1 ensures !Resets(msgs[k].message, id) {
        assert k < j + 1 || j < k < i || k == i;
      }
    }
    assert i !in early && i in late;
    Smaller(early, late);
  }

  lemma Smaller(s: set<nat>, t: set<nat>)
    requires s < t
    ensures |s| < |t|
  {
    var rest := t - s;
    assert t == s + rest && rest != {};
  }

  // ----- One response for a whole stream -----

  /** StreamToServer: the last message's response, or the closing one. */
  function ClosingResponse(w: World, msgs: seq<Arrival>): Response {
    var done := Response("success", if msgs == [] then "" else msgs[|msgs| - 1].message.msgId,
                         "stream completed", "", "", false, 0);
    if msgs == [] then done
    else
      var t := StreamRun(Opening(w), msgs[..|msgs| - 1]);
      match StreamStep(t.world, t.tracker, msgs[|msgs| - 1]).outcome
      case Ok(r) => r
      case Err(_) => done
  }

  predicate CannotBeSent(a: Arrival) {
    a.publish.Failed? && a.message.kind != "setup"
    && !(a.message.kind == "rationale" && TrimSpace(a.message.content) == "")
  }

  lemma WhenAStepErrs(w: World, t: Tracker, a: Arrival)
    ensures StreamStep(w, t, a).outcome.Err? <==> CannotBeSent(a)
    ensures StreamStep(w, t, a).outcome.Ok? ==> StreamStep(w, t, a).outcome.response.message != "stream completed"
  {
    hide TrimSpace;
    assert "setup acknowledged, stream_start sent"[1] != "stream completed"[1];
  }

  /** A client stream whose last message could not be published still ends in
      the success response, where the bidirectional stream answers with an
      error; it does so exactly then. */
  lemma ClientStreamHidesItsLastError(w: World, msgs: seq<Arrival>)
    requires msgs != []
    ensures var closing := ClosingResponse(w, msgs);
      && (closing.message == "stream completed" <==> CannotBeSent(msgs[|msgs| - 1]))
      && (closing.message == "stream completed" ==>
            && closing == Response("success", msgs[|msgs| - 1].message.msgId, "stream completed", "", "", false, 0)
            && StreamRun(Opening(w), msgs).responses[|msgs| - 1].status == "error")
      && (closing.message != "stream completed" ==> closing == StreamRun(Opening(w), msgs).responses[|msgs| - 1])
  {
    hide StreamStep, CannotBeSent;
    var t := StreamRun(Opening(w), msgs[..|msgs| - 1]);
    WhenAStepErrs(t.world, t.tracker, msgs[|msgs| - 1]);
  }
}
