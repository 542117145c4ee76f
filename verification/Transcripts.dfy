/** What a list of messages comes to, told by position: which of them reach the
    history and the client, in what form, and how each is answered. */
module Transcripts {
  import opened GoStrings
  import opened Positions
  import opened Sequencing

  // ----- One message -----

  /** A completed message that was not lost on the way, is not marked as final output,
      and that the history takes. */
  predicate Saves(a: Arrival) {
    a.message.kind == "completed" && !a.publish.Failed? && !a.message.final && a.storable
  }

  predicate IsBlank(a: Arrival) {
    a.message.kind == "rationale" && forall i :: 0 <= i < |a.message.content| ==> IsSpace(a.message.content[i])
  }

  predicate GoesOut(a: Arrival) {
    a.publish.Published? && !IsBlank(a)
  }

  /** What goes out for the i-th message: a chunk under its number within its turn. */
  predicate IsSentFor(msgs: seq<Arrival>, i: nat, p: Payload)
    requires i < |msgs|
  {
    var m := msgs[i].message;
    && (m.kind == "setup" ==> p == StreamStart(m.msgId))
    && (m.kind == "completed" ==> p == StreamEnd(m.msgId, m.content))
    && (m.kind == "control" ==> p == ControlPayload(m.content, NormalizeContactURN(m.urn), "system", m.channel))
    && (m.kind == "rationale" ==>
          && p.StreamRationale? && p.id == m.msgId && p.content == TrimSpace(m.content)
          && p.index == if m.index.Some? then m.index.value else 0)
    && (IsDelta(m) ==> p == StreamDelta(m.content, |Turn(msgs, i + 1, m.msgId)|))
  }

  function WhatFailed(m: Message): string {
    if m.kind == "completed" then "failed to publish stream end: "
    else if m.kind == "control" then "failed to publish control message: "
    else if m.kind == "rationale" then "failed to publish rationale: "
    else "failed to publish delta: "
  }

  function WhatWasDone(m: Message): string {
    if m.kind == "setup" then "setup acknowledged, stream_start sent"
    else if m.kind == "completed" then "message completed, stream_end sent"
    else if m.kind == "control" then "control message forwarded"
    else if m.kind == "rationale" then "rationale forwarded"
    else "delta received and forwarded"
  }

  predicate IsRefused(a: Arrival) {
    !IsBlank(a) && (a.publish.Failed? || (a.message.kind == "setup" && a.publish.NotConnected?))
  }

  /** The answer to a message: an error exactly when publishing failed, or, for a setup,
      when the client is not connected. `number` is a chunk's number. */
  predicate IsAnswer(a: Arrival, number: nat, r: Response) {
    var m := a.message;
    && r.msgId == m.msgId
    && (r.status == "error" <==> IsRefused(a)) && (r.status == "success" <==> !IsRefused(a))
    && r.code == (if !IsRefused(a) then "" else if m.kind != "setup" then "PROCESSING_ERROR"
                  else if a.publish.Failed? then "PUBLISH_ERROR" else "CLIENT_OFFLINE")
    && r.error == (if !IsRefused(a) then "" else if a.publish.NotConnected? then "client is not connected"
                   else if m.kind == "setup" then a.publish.error else WhatFailed(m) + a.publish.error)
    && r.message == (if IsRefused(a) then "" else WhatWasDone(m))
    && (r.final <==> m.kind == "completed" && !IsRefused(a))
    && r.sequence == if IsDelta(m) && !IsRefused(a) then Int32(number) else 0
  }

  /** The answer to the i-th message of a list. */
  predicate IsAnswerTo(msgs: seq<Arrival>, i: nat, r: Response)
    requires i < |msgs|
  {
    IsAnswer(msgs[i], |Turn(msgs, i + 1, msgs[i].message.msgId)|, r)
  }

  // ----- Either path -----

  /** The unary path has no control messages: one is a chunk like any other. */
  function AsChunk(a: Arrival): Arrival {
    if a.message.kind == "control" then a.(message := a.message.(kind := "delta")) else a
  }

  function Treated(unary: bool, msgs: seq<Arrival>): (r: seq<Arrival>)
    ensures |r| == |msgs|
    ensures forall i :: 0 <= i < |msgs| ==> r[i] == if unary then AsChunk(msgs[i]) else msgs[i]
  {
    if unary then seq(|msgs|, i requires 0 <= i < |msgs| => AsChunk(msgs[i])) else msgs
  }

  function RunOf(unary: bool, w: World, msgs: seq<Arrival>): Transcript {
    if unary then UnaryRun(Opening(w), msgs) else StreamRun(Opening(w), msgs)
  }

  lemma ChunkStep(w: World, t: Tracker, a: Arrival)
    ensures UnaryStep(w, t, a) == StreamStep(w, t, AsChunk(a))
    ensures Answer(a.message, UnaryStep(w, t, a).outcome) ==
      Answer(AsChunk(a).message, StreamStep(w, t, AsChunk(a)).outcome)
  {
  }

  /** Sending messages one by one, from whatever came before, is streaming them with the
      control messages turned into chunks. */
  lemma {:induction false} UnaryIsStreamOfChunks(from: Transcript, msgs: seq<Arrival>)
    ensures UnaryRun(from, msgs) == StreamRun(from, Treated(true, msgs))
  {
    hide UnaryStep, StreamStep, AsChunk, Answer;
    if msgs != [] {
      var init, a := msgs[..|msgs| - 1], msgs[|msgs| - 1];
      UnaryIsStreamOfChunks(from, init);
      assert Treated(true, msgs)[..|msgs| - 1] == Treated(true, init);
      var t := UnaryRun(from, init);
      ChunkStep(t.world, t.tracker, a);
    }
  }

  lemma RunIsStream(unary: bool, w: World, msgs: seq<Arrival>)
    ensures RunOf(unary, w, msgs) == StreamRun(Opening(w), Treated(unary, msgs))
  {
    UnaryIsStreamOfChunks(Opening(w), msgs);
  }

  // ----- One step -----

  lemma BlankIsTrimmedAway(a: Arrival)
    ensures IsBlank(a) <==> a.message.kind == "rationale" && TrimSpace(a.message.content) == ""
  {
  }

  lemma StepSaves(w: World, t: Tracker, a: Arrival)
    ensures var saved := StreamStep(w, t, a).world.saved;
      saved == w.saved + if Saves(a) then [(NormalizeContactURN(a.message.urn), a.message.content)] else []
  {
    hide TrimSpace;
  }

  /** The payload for the last message of the list, if it goes out. */
  lemma StepSends(w: World, t: Tracker, msgs: seq<Arrival>) returns (p: Payload)
    requires msgs != []
    requires var m := msgs[|msgs| - 1].message;
      IsDelta(m) ==> Value(t, m.msgId) + 1 == |Turn(msgs, |msgs|, m.msgId)|
    ensures var a := msgs[|msgs| - 1];
      && (GoesOut(a) ==> IsSentFor(msgs, |msgs| - 1, p))
      && StreamStep(w, t, a).world.sent ==
           w.sent + if GoesOut(a) then [(NormalizeContactURN(a.message.urn), p)] else []
  {
    hide TrimSpace, IsBlank, Turn;
    var a := msgs[|msgs| - 1];
    BlankIsTrimmedAway(a);
    if GoesOut(a) {
      p := StreamStep(w, t, a).world.sent[|w.sent|].1;
    } else {
      p := StreamStart("");
    }
  }

  lemma SetupAnswers(w: World, a: Arrival, n: nat)
    requires a.message.kind == "setup"
    ensures IsAnswer(a, n, Answer(a.message, Setup(w, a).1))
  {
  }

  lemma DeltaAnswers(w: World, a: Arrival, n: nat)
    requires IsDelta(a.message)
    ensures IsAnswer(a, n, Answer(a.message, Delta(w, a, n).1))
  {
    hide Int32;
  }

  lemma CompletedAnswers(w: World, a: Arrival, n: nat)
    requires a.message.kind == "completed"
    ensures IsAnswer(a, n, Answer(a.message, Completed(w, a).1))
  {
  }

  lemma ControlAnswers(w: World, a: Arrival, n: nat)
    requires a.message.kind == "control"
    ensures IsAnswer(a, n, Answer(a.message, Control(w, a).1))
  {
  }

  lemma RationaleAnswers(w: World, a: Arrival, n: nat)
    requires a.message.kind == "rationale"
    ensures IsAnswer(a, n, Answer(a.message, Rationale(w, a).1))
  {
    hide TrimSpace, IsBlank;
    BlankIsTrimmedAway(a);
  }

  lemma StepAnswers(w: World, t: Tracker, msgs: seq<Arrival>)
    requires msgs != []
    requires var m := msgs[|msgs| - 1].message;
      IsDelta(m) ==> Value(t, m.msgId) + 1 == |Turn(msgs, |msgs|, m.msgId)|
    ensures var a := msgs[|msgs| - 1];
      IsAnswerTo(msgs, |msgs| - 1, Answer(a.message, StreamStep(w, t, a).outcome))
  {
    hide Setup, Delta, Completed, Control, Rationale, IsAnswer, Answer, Turn;
    var a := msgs[|msgs| - 1];
    var n := |Turn(msgs, |msgs|, a.message.msgId)|;
    if a.message.kind == "setup" {
      SetupAnswers(w, a, n);
    } else if a.message.kind == "completed" {
      CompletedAnswers(w, a, n);
    } else if a.message.kind == "control" {
      ControlAnswers(w, a, n);
    } else if a.message.kind == "rationale" {
      RationaleAnswers(w, a, n);
    } else {
      DeltaAnswers(w, a, n);
    }
  }

  /** The tracker is where the last message's number comes from. */
  lemma NumberFits(w: World, msgs: seq<Arrival>)
    requires msgs != []
    ensures var m := msgs[|msgs| - 1].message;
      IsDelta(m) ==>
        Value(StreamRun(Opening(w), msgs[..|msgs| - 1]).tracker, m.msgId) + 1 == |Turn(msgs, |msgs|, m.msgId)|
  {
    var m := msgs[|msgs| - 1].message;
    TrackerCountsTheTurn(w, msgs, |msgs| - 1, m.msgId);
    TurnGrows(msgs, |msgs| - 1, m.msgId);
    assert |msgs| - 1 !in Turn(msgs, |msgs| - 1, m.msgId);
  }

  // ----- In order -----

  function Saved(msgs: seq<Arrival>): set<nat> {
    set i: nat | i < |msgs| && Saves(msgs[i])
  }

  function SentOut(msgs: seq<Arrival>): set<nat> {
    set i: nat | i < |msgs| && GoesOut(msgs[i])
  }

  lemma {:induction false} StreamHistory(w: World, msgs: seq<Arrival>) returns (at: seq<nat>)
    ensures Lists(at, |msgs|, Saved(msgs))
    ensures var saved := StreamRun(Opening(w), msgs).world.saved;
      && |saved| == |w.saved| + |at| && saved[..|w.saved|] == w.saved
      && forall k :: 0 <= k < |at| ==>
           saved[|w.saved| + k] == (NormalizeContactURN(msgs[at[k]].message.urn), msgs[at[k]].message.content)
  {
    hide StreamStep, Saves;
    if msgs == [] {
      return [];
    }
    var n := |msgs| - 1;
    at := StreamHistory(w, msgs[..n]);
    var t := StreamRun(Opening(w), msgs[..n]);
    StepSaves(t.world, t.tracker, msgs[n]);
    assert Saved(msgs) == Saved(msgs[..n]) + if Saves(msgs[n]) then {n} else {};
    ListsNext(at, n, Saved(msgs[..n]));
    if Saves(msgs[n]) {
      at := at + [n];
    }
  }

  lemma {:induction false} StreamSends(w: World, msgs: seq<Arrival>) returns (at: seq<nat>)
    ensures Lists(at, |msgs|, SentOut(msgs))
    ensures var sent := StreamRun(Opening(w), msgs).world.sent;
      && |sent| == |w.sent| + |at| && sent[..|w.sent|] == w.sent
      && forall k :: 0 <= k < |at| ==>
           && sent[|w.sent| + k].0 == NormalizeContactURN(msgs[at[k]].message.urn)
           && IsSentFor(msgs, at[k], sent[|w.sent| + k].1)
  {
    hide StreamStep, GoesOut, IsSentFor;
    if msgs == [] {
      return [];
    }
    var n := |msgs| - 1;
    at := StreamSends(w, msgs[..n]);
    var t := StreamRun(Opening(w), msgs[..n]);
    NumberFits(w, msgs);
    var p := StepSends(t.world, t.tracker, msgs);
    forall i: nat, q | i < n
      ensures IsSentFor(msgs[..n], i, q) <==> IsSentFor(msgs, i, q)
    {
      SentForPrefix(msgs, n, i, q);
    }
    assert SentOut(msgs) == SentOut(msgs[..n]) + if GoesOut(msgs[n]) then {n} else {};
    ListsNext(at, n, SentOut(msgs[..n]));
    if GoesOut(msgs[n]) {
      at := at + [n];
    }
  }

  lemma TurnOfPrefix(msgs: seq<Arrival>, n: nat, i: nat, id: string)
    requires i < n <= |msgs|
    ensures Turn(msgs[..n], i + 1, id) == Turn(msgs, i + 1, id)
  {
  }

  lemma SentForPrefix(msgs: seq<Arrival>, n: nat, i: nat, p: Payload)
    requires i < n <= |msgs|
    ensures IsSentFor(msgs[..n], i, p) <==> IsSentFor(msgs, i, p)
  {
    hide Turn, TrimSpace;
    TurnOfPrefix(msgs, n, i, msgs[i].message.msgId);
  }

  lemma AnswerToPrefix(msgs: seq<Arrival>, n: nat, i: nat, r: Response)
    requires i < n <= |msgs|
    ensures IsAnswerTo(msgs[..n], i, r) <==> IsAnswerTo(msgs, i, r)
  {
    hide Turn, IsAnswer;
    TurnOfPrefix(msgs, n, i, msgs[i].message.msgId);
  }

  lemma {:induction false} StreamAnswers(w: World, msgs: seq<Arrival>)
    ensures var rs := StreamRun(Opening(w), msgs).responses;
      |rs| == |msgs| && forall i :: 0 <= i < |msgs| ==> IsAnswerTo(msgs, i, rs[i])
  {
    hide StreamStep, IsAnswerTo, Answer;
    if msgs != [] {
      var n := |msgs| - 1;
      StreamAnswers(w, msgs[..n]);
      var t := StreamRun(Opening(w), msgs[..n]);
      NumberFits(w, msgs);
      StepAnswers(t.world, t.tracker, msgs);
      forall i: nat, r | i < n
        ensures IsAnswerTo(msgs[..n], i, r) <==> IsAnswerTo(msgs, i, r)
      {
        AnswerToPrefix(msgs, n, i, r);
      }
    }
  }

  /** Streamed or sent one by one, the history grows by exactly the messages that are
      completed, were not lost in publishing, are not final output and can be stored:
      each once, in order, under the contact without its scheme. */
  lemma HistoryInOrder(unary: bool, w: World, msgs: seq<Arrival>) returns (at: seq<nat>)
    ensures Lists(at, |msgs|, Saved(msgs))
    ensures var saved := RunOf(unary, w, msgs).world.saved;
      && |saved| == |w.saved| + |at| && saved[..|w.saved|] == w.saved
      && forall k :: 0 <= k < |at| ==>
           saved[|w.saved| + k] == (NormalizeContactURN(msgs[at[k]].message.urn), msgs[at[k]].message.content)
  {
    hide StreamRun, UnaryRun, NormalizeContactURN;
    RunIsStream(unary, w, msgs);
    at := StreamHistory(w, Treated(unary, msgs));
    assert Saved(Treated(unary, msgs)) == Saved(msgs);
  }

  /** The client gets, in order and each to its own contact, exactly one payload for each
      message that is published and is not a blank rationale, of the kind and with the
      content the message calls for; a chunk under its number within its turn, where the
      unary path counts a control message as a chunk. */
  lemma PayloadsInOrder(unary: bool, w: World, msgs: seq<Arrival>) returns (at: seq<nat>)
    ensures Lists(at, |msgs|, SentOut(msgs))
    ensures var sent := RunOf(unary, w, msgs).world.sent;
      && |sent| == |w.sent| + |at| && sent[..|w.sent|] == w.sent
      && forall k :: 0 <= k < |at| ==>
           && sent[|w.sent| + k].0 == NormalizeContactURN(msgs[at[k]].message.urn)
           && IsSentFor(Treated(unary, msgs), at[k], sent[|w.sent| + k].1)
  {
    hide StreamRun, UnaryRun, NormalizeContactURN, IsSentFor;
    RunIsStream(unary, w, msgs);
    at := StreamSends(w, Treated(unary, msgs));
    assert SentOut(Treated(unary, msgs)) == SentOut(msgs);
  }

  /** Each message is answered in its turn: with an error exactly when publishing it
      failed or it was a setup for a client that is not connected. */
  lemma AnswersInOrder(unary: bool, w: World, msgs: seq<Arrival>)
    ensures var rs := RunOf(unary, w, msgs).responses;
      |rs| == |msgs| && forall i :: 0 <= i < |msgs| ==> IsAnswerTo(Treated(unary, msgs), i, rs[i])
  {
    RunIsStream(unary, w, msgs);
    StreamAnswers(w, Treated(unary, msgs));
  }

  // ----- Contacts and numbers -----

  /** A contact loses what stands before its first colon, and the colon; without a colon
      it is as it was. */
  lemma SchemeGoes(scheme: string, rest: string)
    requires ':' !in scheme
    ensures NormalizeContactURN(scheme + ":" + rest) == rest
    ensures NormalizeContactURN(scheme) == scheme
  {
    var urn := scheme + ":" + rest;
    assert urn[|scheme|] == ':';
    var i := Index(urn, ':');
    assert forall k :: 0 <= k < |scheme| ==> urn[k] == scheme[k];
    assert forall k :: 0 <= k < i ==> urn[..i][k] == urn[k];
  }

  /** A number in a response is the chunk's own number up to 2147483647, and agrees
      with it modulo 4294967296 beyond. */
  lemma NumbersWrap(n: int)
    ensures -0x8000_0000 <= Int32(n) < 0x8000_0000 && (Int32(n) - n) % 0x1_0000_0000 == 0
    ensures Int32(n) == n <==> -0x8000_0000 <= n < 0x8000_0000
  {
  }
}
