/** ipc/subscriber.go: numbering the log chunks of each job for the persist service. */
module LogNumbering {
  import opened Wrappers
  import opened LogBuffer
  import opened LogDelivery
  import opened Framing

  // A message for the persist service; wire is its protobuf encoding.
  datatype Msg =
    | Log(jobUuid: string, sequence: nat, content: Chunk, wire: Bytes)
    | Telemetry(wire: Bytes)

  // An event from the channel, with the encoding its message would get.
  datatype Received = Received(event: Event, wire: Bytes)

  datatype Numbers = Numbers(sequence: map<string, nat>, msgs: seq<Msg>)

  function Next(sequence: map<string, nat>, job: string): nat { if job in sequence then sequence[job] else 0 }

  // The message for one event, if it is one to forward.
  function MsgFor(sequence: map<string, nat>, r: Received): Option<Msg> {
    if r.event.LogChunk? && r.event.data != [] then
      Some(Log(r.event.jobUuid, Next(sequence, r.event.jobUuid), r.event.data, r.wire))
    else None
  }

  function NumberAll(received: seq<Received>): Numbers {
    if received == [] then Numbers(map[], [])
    else
      var n := NumberAll(received[..|received| - 1]);
      var m := MsgFor(n.sequence, received[|received| - 1]);
      if m.None? then n
      else Numbers(n.sequence[m.value.jobUuid := m.value.sequence + 1], n.msgs + [m.value])
  }

  // The events received with a non-empty chunk of a job.
  function EventsOf(received: seq<Received>, job: string): seq<Received> {
    if received == [] then []
    else
      var r := received[|received| - 1];
      EventsOf(received[..|received| - 1], job) + if r.event.LogChunk? && r.event.data != [] && r.event.jobUuid == job then [r] else []
  }

  function LogsOf(msgs: seq<Msg>, job: string): seq<Msg> {
    if msgs == [] then []
    else
      var m := msgs[|msgs| - 1];
      LogsOf(msgs[..|msgs| - 1], job) + if m.Log? && m.jobUuid == job then [m] else []
  }

  lemma LogsThen(msgs: seq<Msg>, m: Msg, job: string)
    ensures LogsOf(msgs + [m], job) == LogsOf(msgs, job) + if m.Log? && m.jobUuid == job then [m] else []
  {
    assert (msgs + [m])[..|msgs|] == msgs;
  }

  // Message x carries, as number i of the job, what event r brought.
  predicate Carries(x: Msg, job: string, i: nat, r: Received) {
    x.Log? && x.jobUuid == job && x.sequence == i && r.event.LogChunk? && x.content == r.event.data && x.wire == r.wire
  }

  /** Message number i of a job carries the i-th non-empty chunk received for it, in the encoding it
      came with, and there is exactly one message for each. */
  lemma {:induction false} NumberedAsReceived(received: seq<Received>, job: string)
    ensures var logs, events := LogsOf(NumberAll(received).msgs, job), EventsOf(received, job);
            && |logs| == |events| == Next(NumberAll(received).sequence, job)
            && forall i :: 0 <= i < |logs| ==> Carries(logs[i], job, i, events[i])
  {
    if received != [] {
      var init := received[..|received| - 1];
      NumberedAsReceived(init, job);
      var n := NumberAll(init);
      var m := MsgFor(n.sequence, received[|received| - 1]);
      if m.Some? {
        LogsThen(n.msgs, m.value, job);
      }
    }
  }

  lemma {:induction false} LogAmong(msgs: seq<Msg>, m: Msg)
    requires m in msgs && m.Log?
    ensures m in LogsOf(msgs, m.jobUuid)
  {
    var init := msgs[..|msgs| - 1];
    if m in init {
      LogAmong(init, m);
    }
  }

  lemma NumberedMessage(received: seq<Received>, m: Msg)
    requires m in NumberAll(received).msgs && m.Log?
    ensures m.sequence < |EventsOf(received, m.jobUuid)| == Next(NumberAll(received).sequence, m.jobUuid)
    ensures Carries(m, m.jobUuid, m.sequence, EventsOf(received, m.jobUuid)[m.sequence])
  {
    NumberedAsReceived(received, m.jobUuid);
    LogAmong(NumberAll(received).msgs, m);
  }

  lemma NumberThen(received: seq<Received>, r: Received)
    ensures var n := NumberAll(received);
            NumberAll(received + [r]).msgs == n.msgs + if MsgFor(n.sequence, r).Some? then [MsgFor(n.sequence, r).value] else []
  {
    assert (received + [r])[..|received|] == received;
  }

  /** The loop of processEvents over the events received so far. */
  method ProcessEvents(received: seq<Received>) returns (msgs: seq<Msg>)
    ensures msgs == NumberAll(received).msgs
  {
    var sequence: map<string, nat> := map[];
    msgs := [];
    for i := 0 to |received|
      invariant NumberAll(received[..i]) == Numbers(sequence, msgs)
    {
      assert received[..i + 1][..i] == received[..i];
      var event := received[i].event;
      if !event.LogChunk? {
        continue;
      }
      if |event.data| == 0 {
        continue;
      }
      var seq' := if event.jobUuid in sequence then sequence[event.jobUuid] else 0;
      sequence := sequence[event.jobUuid := seq' + 1];
      msgs := msgs + [Log(event.jobUuid, seq', event.data, received[i].wire)];
    }
    assert received[..|received|] == received;
  }
}
