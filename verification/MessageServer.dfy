/** The gRPC server object: its message handlers, which publish and keep the
    trackers up to date. */
module MessageServer {
  import opened Cluster
  import opened GoStrings
  import Q = Sequencing

  /** The map a stream keeps for its own messages. */
  class Tracker {
    var numbers: Q.Tracker

    constructor ()
      ensures numbers == map[]
    {
      numbers := map[];
    }
  }

  class Server {
    var unarySeqTracker: Q.Tracker
    var sent: seq<(string, Q.Payload)>
    var saved: seq<(string, string)>

    constructor ()
      ensures Out() == Q.World([], []) && unarySeqTracker == map[]
    {
      unarySeqTracker := map[];
      sent, saved := [], [];
    }

    ghost function Out(): Q.World
      reads this
    {
      Q.World(sent, saved)
    }

    /** publishStreamPayload and publishToWebSocket: whether the payload went
        out, and the error otherwise met. */
    method Publish(m: Q.Message, p: Q.Payload, publish: Q.Publish) returns (published: bool, error: Option<string>)
      modifies this`sent
      ensures Out() == Q.Emit(old(Out()), m, p, publish)
      ensures published == publish.Published?
      ensures error == if publish.Failed? then Some(publish.error) else None
    {
      published, error := false, None;
      match publish
      case Failed(e) => error := Some(e);
      case NotConnected =>
      case Published =>
        sent := sent + [(Q.NormalizeContactURN(m.urn), p)];
        published := true;
    }

    method SendDeltaWithSeq(a: Q.Arrival, number: int) returns (out: Q.Outcome)
      modifies this`sent
      ensures (Out(), out) == Q.Delta(old(Out()), a, number)
    {
      var _, error := Publish(a.message, Q.StreamDelta(a.message.content, number), a.publish);
      if error.Some? {
        return Q.Err("failed to publish delta: " + error.value);
      }
      out := Q.Ok(Q.Success(a.message, "delta received and forwarded").(sequence := Q.Int32(number)));
    }

    /** A missing tracker makes every chunk number 1. */
    method HandleDeltaMessage(a: Q.Arrival, tracker: Tracker?) returns (out: Q.Outcome)
      modifies this`sent, tracker
      ensures tracker == null ==> (Out(), out) == Q.Delta(old(Out()), a, 1)
      ensures tracker != null ==>
        var number := Q.Value(old(tracker.numbers), a.message.msgId) + 1;
        && tracker.numbers == old(tracker.numbers)[a.message.msgId := number]
        && (Out(), out) == Q.Delta(old(Out()), a, number)
    {
      var number := 1;
      if tracker != null {
        var id := a.message.msgId;
        tracker.numbers := tracker.numbers[id := (if id in tracker.numbers then tracker.numbers[id] else 0) + 1];
        number := tracker.numbers[id];
      }
      out := SendDeltaWithSeq(a, number);
    }

    method HandleRationaleMessage(a: Q.Arrival) returns (out: Q.Outcome)
      modifies this`sent
      ensures (Out(), out) == Q.Rationale(old(Out()), a)
    {
      var m := a.message;
      var text := TrimSpace(m.content);
      if text == "" {
        return Q.Ok(Q.Success(m, "rationale forwarded"));
      }
      var index := 0;
      if m.index.Some? {
        index := m.index.value;
      }
      var _, error := Publish(m, Q.StreamRationale(m.msgId, text, index), a.publish);
      if error.Some? {
        return Q.Err("failed to publish rationale: " + error.value);
      }
      out := Q.Ok(Q.Success(m, "rationale forwarded"));
    }

    method HandleControlMessage(a: Q.Arrival) returns (out: Q.Outcome)
      modifies this`sent
      ensures (Out(), out) == Q.Control(old(Out()), a)
    {
      var m := a.message;
      var payload := Q.ControlPayload(m.content, Q.NormalizeContactURN(m.urn), "system", m.channel);
      var _, error := Publish(m, payload, a.publish);
      if error.Some? {
        return Q.Err("failed to publish control message: " + error.value);
      }
      out := Q.Ok(Q.Success(m, "control message forwarded"));
    }

    /** The message is saved to history unless it is marked as final output; that
        the history refuses it is only logged. */
    method HandleCompletedMessage(a: Q.Arrival) returns (out: Q.Outcome)
      modifies this`sent, this`saved
      ensures (Out(), out) == Q.Completed(old(Out()), a)
    {
      var m := a.message;
      var _, error := Publish(m, Q.StreamEnd(m.msgId, m.content), a.publish);
      if error.Some? {
        return Q.Err("failed to publish stream end: " + error.value);
      }
      if !m.final {
        var _ := Save(m, a.storable);
      }
      out := Q.Ok(Q.Success(m, "message completed, stream_end sent").(final := true));
    }

    method Save(m: Q.Message, storable: bool) returns (ok: bool)
      modifies this`saved
      ensures ok == storable
      ensures saved == if storable then old(saved) + [(Q.NormalizeContactURN(m.urn), m.content)] else old(saved)
    {
      ok := storable;
      if storable {
        saved := saved + [(Q.NormalizeContactURN(m.urn), m.content)];
      }
    }

    method HandleSetup(a: Q.Arrival) returns (out: Q.Outcome)
      modifies this`sent
      ensures (Out(), out) == Q.Setup(old(Out()), a)
    {
      var m := a.message;
      var published, error := Publish(m, Q.StreamStart(m.msgId), a.publish);
      if error.Some? {
        return Q.Ok(Q.ErrorResponse(m, "PUBLISH_ERROR", error.value));
      }
      if !published {
        return Q.Ok(Q.ErrorResponse(m, "CLIENT_OFFLINE", "client is not connected"));
      }
      out := Q.Ok(Q.Success(m, "setup acknowledged, stream_start sent"));
    }

    method ProcessStreamMessageWithSeq(a: Q.Arrival, tracker: Tracker?) returns (out: Q.Outcome)
      modifies this`sent, this`saved, tracker
      ensures tracker == null ==> (Out(), out) == Q.PlainStep(old(Out()), a)
      ensures tracker != null ==>
        Q.Step(Out(), tracker.numbers, out) == Q.StreamStep(old(Out()), old(tracker.numbers), a)
    {
      var kind := a.message.kind;
      if kind == "setup" {
        if tracker != null {
          tracker.numbers := tracker.numbers[a.message.msgId := 0];
        }
        out := HandleSetup(a);
      } else if kind == "delta" {
        out := HandleDeltaMessage(a, tracker);
      } else if kind == "completed" {
        if tracker != null {
          tracker.numbers := tracker.numbers - {a.message.msgId};
        }
        out := HandleCompletedMessage(a);
      } else if kind == "control" {
        out := HandleControlMessage(a);
      } else if kind == "rationale" {
        out := HandleRationaleMessage(a);
      } else {
        out := HandleDeltaMessage(a, tracker);
      }
    }

    /** The part of the unary path that the mutex guards for a chunk. */
    method NextNumber(id: string) returns (number: int)
      modifies this`unarySeqTracker
      ensures number == Q.Value(old(unarySeqTracker), id) + 1
      ensures unarySeqTracker == old(unarySeqTracker)[id := number]
    {
      unarySeqTracker := unarySeqTracker[id := (if id in unarySeqTracker then unarySeqTracker[id] else 0) + 1];
      number := unarySeqTracker[id];
    }

    method ProcessStreamMessageWithUnarySeq(a: Q.Arrival) returns (out: Q.Outcome)
      modifies this
      ensures Q.Step(Out(), unarySeqTracker, out) == Q.UnaryStep(old(Out()), old(unarySeqTracker), a)
    {
      var kind := a.message.kind;
      if kind == "setup" {
        unarySeqTracker := unarySeqTracker[a.message.msgId := 0];
        out := ProcessStreamMessageWithSeq(a, null);
      } else if kind == "completed" {
        unarySeqTracker := unarySeqTracker - {a.message.msgId};
        out := ProcessStreamMessageWithSeq(a, null);
      } else if kind == "delta" {
        var number := NextNumber(a.message.msgId);
        out := SendDeltaWithSeq(a, number);
      } else if kind == "rationale" {
        out := HandleRationaleMessage(a);
      } else {
        var number := NextNumber(a.message.msgId);
        out := SendDeltaWithSeq(a, number);
      }
    }

    /** The messages of a bidirectional stream, each answered in its turn. The
        stream ends when the client closes it, when receiving breaks off with
        `broken`, or when the response to message `refused` cannot be sent. */
    method StreamMessages(msgs: seq<Q.Arrival>, broken: Option<string>, refused: nat)
      returns (responses: seq<Q.Response>, error: Option<string>)
      modifies this
      ensures var n := if refused < |msgs| then refused + 1 else |msgs|;
        var t := Q.StreamRun(Q.Opening(old(Out())), msgs[..n]);
        Out() == t.world && responses == if refused < |msgs| then t.responses[..refused] else t.responses
      ensures error ==
        if refused < |msgs| then Some("error sending response")
        else if broken.Some? then Some("error receiving message: " + broken.value)
        else None
      ensures unarySeqTracker == old(unarySeqTracker)
    {
      var tracker := new Tracker();
      responses := [];
      ghost var opening := Q.Opening(Out());
      for i := 0 to |msgs|
        invariant fresh(tracker) && i <= refused
        invariant unarySeqTracker == old(unarySeqTracker)
        invariant Q.Transcript(Out(), tracker.numbers, responses) == Q.StreamRun(opening, msgs[..i])
      {
        assert msgs[..i + 1][..i] == msgs[..i];
        var out := ProcessStreamMessageWithSeq(msgs[i], tracker);
        var response := match out
          case Ok(r) => r
          case Err(e) => Q.ErrorResponse(msgs[i].message, "PROCESSING_ERROR", e);
        if i == refused {
          return responses, Some("error sending response");
        }
        responses := responses + [response];
      }
      assert msgs[..|msgs|] == msgs;
      error := if broken.Some? then Some("error receiving message: " + broken.value) else None;
    }

    method SendMessage(a: Q.Arrival) returns (response: Q.Response)
      modifies this
      ensures var s := Q.UnaryStep(old(Out()), old(unarySeqTracker), a);
        Out() == s.world && unarySeqTracker == s.tracker && response == Q.Answer(a.message, s.outcome)
    {
      var out := ProcessStreamMessageWithUnarySeq(a);
      response := match out
        case Ok(r) => r
        case Err(e) => Q.ErrorResponse(a.message, "PROCESSING_ERROR", e);
    }

    /** A client stream: only the last message's response is returned, if it has
        one, and none if receiving breaks off. */
    method StreamToServer(msgs: seq<Q.Arrival>, broken: Option<string>)
      returns (response: Option<Q.Response>, error: Option<string>)
      modifies this
      ensures Out() == Q.StreamRun(Q.Opening(old(Out())), msgs).world
      ensures response == if broken.Some? then None else Some(Q.ClosingResponse(old(Out()), msgs))
      ensures error == if broken.Some? then Some("error receiving: " + broken.value) else None
      ensures unarySeqTracker == old(unarySeqTracker)
    {
      var tracker := new Tracker();
      var lastMsgID := "";
      var lastResponse: Option<Q.Response> := None;
      ghost var opening := Q.Opening(Out());
      for i := 0 to |msgs|
        invariant fresh(tracker)
        invariant unarySeqTracker == old(unarySeqTracker)
        invariant var t := Q.StreamRun(opening, msgs[..i]);
          Out() == t.world && tracker.numbers == t.tracker
        invariant i == 0 ==> lastMsgID == "" && lastResponse == None
        invariant i > 0 ==> lastMsgID == msgs[i - 1].message.msgId
        invariant i > 0 ==>
          var t := Q.StreamRun(opening, msgs[..i - 1]);
          var s := Q.StreamStep(t.world, t.tracker, msgs[i - 1]);
          lastResponse == if s.outcome.Ok? then Some(s.outcome.response) else None
      {
        assert msgs[..i + 1][..i] == msgs[..i];
        lastMsgID := msgs[i].message.msgId;
        var out := ProcessStreamMessageWithSeq(msgs[i], tracker);
        lastResponse := if out.Ok? then Some(out.response) else None;
      }
      assert msgs[..|msgs|] == msgs;
      if broken.Some? {
        return None, Some("error receiving: " + broken.value);
      }
      if lastResponse.Some? {
        return lastResponse, None;
      }
      return Some(Q.Response("success", lastMsgID, "stream completed", "", "", false, 0)), None;
    }
  }
}
