/** job_store_adapter.go: how the chunks one writer appends to a job's log reach one streaming
    client, as interleaved atomic steps. The writer appends to the buffer and then publishes: it
    captures the subscribers under the topic's lock and then offers the chunk to each channel,
    giving up after a timeout. The client subscribes, takes a snapshot of the buffer, sends it,
    and then pumps the channel until a terminal status and a quiet period. */
module LogDelivery {
  import opened Wrappers
  import opened JobDomain
  import opened LogBuffer

  datatype Event = LogChunk(jobUuid: string, data: Chunk) | Updated(jobUuid: string, status: Status)

  datatype Config = Config(
    uuid: string,
    buffered: bool,     // persist enabled and the job has a log buffer
    capacity: nat,      // of a subscriber's channel
    skipCount: int)

  const DRAIN_QUIET_PERIOD: nat := 500

  const PUBLISH_TIMEOUT: nat := 100

  // Captured: the subscribers are, and at what time; whether the client is one of them.
  datatype Writer = Idle | Appended | Captured(toClient: bool, since: nat)

  datatype Why = JobGone | SendFailed | Cancelled | ChannelClosed | Drained | OnlyBuffer

  datatype Phase = Away | Ready | Sending | Pumping | Ended(why: Why)

  datatype State = State(
    log: seq<Chunk>,          // everything written
    buf: seq<Chunk>,          // the contents of the log buffer
    writer: Writer,
    phase: Phase,
    streaming: bool,          // the job was running when the client came, so it subscribed
    live: bool,               // the client's channel is open and in the topic's map
    queue: seq<Event>,        // the channel
    pending: seq<Chunk>,      // taken from the buffer or the channel, not sent
    sent: seq<Chunk>,
    deadline: Option<nat>,    // set while draining
    now: nat,
    first: nat,               // history: the chunks offered to the client are log[first..next]
    next: nat,
    dropped: set<nat>,        // history: those of them that timed out
    snapshot: Option<nat>,    // history: the size of the buffer when the client read it
    lateAt: seq<nat>)         // history: when the completion and the chunks after it were handled

  datatype Action =
    | Write(chunk: Chunk) | Capture | Deliver | TimeOut
    | Publish(e: Event)
    | Come(isCompleted: bool) | FindJobGone | TakeSnapshot | SendPending(ok: bool) | StartPump
    | Receive(ok: bool) | Cancel | CloseChannel | SeeClosed | DrainOver
    | Tick(to: nat)

  const Init := State([], [], Idle, Away, false, false, [], [], [], None, 0, 0, 0, {}, None, [])

  predicate IsFinal(st: Status) { st in {COMPLETED, FAILED, STOPPED} }

  predicate Mine(c: Config, e: Event) { e.LogChunk? && e.jobUuid == c.uuid }

  // The writer has a chunk for the client's channel. While it waits for room the channel stays
  // full, so it times out on a full channel only.
  predicate Offering(s: State) { s.writer.Captured? && s.writer.toClient && s.live }

  ghost predicate Enabled(c: Config, s: State, a: Action) {
    match a
    case Write(chunk) => s.writer.Idle? && chunk != []
    case Capture => s.writer.Appended?
    case Deliver => s.writer.Captured? && (Offering(s) ==> |s.queue| < c.capacity)
    case TimeOut => Offering(s) && |s.queue| >= c.capacity && s.now >= s.writer.since + PUBLISH_TIMEOUT
    case Publish(e) => !Mine(c, e) && s.live && |s.queue| < c.capacity
    case Come(_) => s.phase.Away?
    case FindJobGone => s.phase.Ready? && s.streaming
    case TakeSnapshot => s.phase.Ready?
    case SendPending(_) => s.phase.Sending? && s.pending != []
    case StartPump => s.phase.Sending? && s.pending == []
    case Receive(_) => s.phase.Pumping? && s.queue != []
    case Cancel => s.phase.Pumping?
    case CloseChannel => s.live
    case SeeClosed => s.phase.Pumping? && !s.live && s.queue == []
    case DrainOver => s.phase.Pumping? && s.deadline.Some? && s.now > s.deadline.value
    case Tick(to) => to >= s.now
  }

  function End(s: State, why: Why): State { s.(phase := Ended(why), live := false) }

  // WriteToBuffer up to its publish. An empty chunk changes nothing.
  function Append(c: Config, s: State, chunk: Chunk): State {
    s.(log := s.log + [chunk], buf := if c.buffered then s.buf + [chunk] else s.buf, writer := Appended)
  }

  // The offer to the client's channel ends, successfully or not. What happens to a chunk offered
  // to a channel closed in the meantime is not described.
  function Offer(c: Config, s: State, taken: bool): State
    requires s.log != []
  {
    if Offering(s) then
      s.(writer := Idle, next := s.next + 1,
         queue := if taken then s.queue + [LogChunk(c.uuid, s.log[|s.log| - 1])] else s.queue,
         dropped := if taken then s.dropped else s.dropped + {|s.log| - 1})
    else s.(writer := Idle)
  }

  // Subscribing: a chunk whose subscribers are already captured is not for this client.
  function Subscribe(s: State): State {
    var n := if s.writer.Appended? && |s.log| > 0 then |s.log| - 1 else |s.log|;
    s.(phase := Ready, streaming := true, live := true, first := n, next := n)
  }

  function Snapshot(c: Config, s: State): seq<Chunk> { if c.buffered then AfterSkip(s.buf, c.skipCount) else [] }

  // One turn of the pump on a received event.
  function Handle(c: Config, s: State, ok: bool): State
    requires s.queue != []
  {
    var e, rest := s.queue[0], s.queue[1..];
    if e.jobUuid != c.uuid then s.(queue := rest)
    else match e
      case LogChunk(_, data) =>
        if data == [] then s.(queue := rest)
        else if !ok then End(s.(queue := rest, pending := [data]), SendFailed)
        else
          var s' := s.(queue := rest, sent := s.sent + [data]);
          if s.deadline.None? then s'
          else s'.(deadline := Some(s.now + DRAIN_QUIET_PERIOD), lateAt := s.lateAt + [s.now])
      case Updated(_, status) =>
        if IsFinal(status) && s.deadline.None? then
          s.(queue := rest, deadline := Some(s.now + DRAIN_QUIET_PERIOD), lateAt := s.lateAt + [s.now])
        else s.(queue := rest)
  }

  ghost function Apply(c: Config, s: State, a: Action): State {
    match a
    case Write(chunk) => Append(c, s, chunk)
    case Capture => s.(writer := Captured(s.live, s.now))
    case Deliver => if s.log == [] then s else Offer(c, s, true)
    case TimeOut => if s.log == [] then s else Offer(c, s, false)
    case Publish(e) => s.(queue := s.queue + [e])
    case Come(isCompleted) => if isCompleted then s.(phase := Ready) else Subscribe(s)
    case FindJobGone => End(s, JobGone)
    case TakeSnapshot => s.(phase := Sending, pending := Snapshot(c, s), snapshot := Some(|s.buf|))
    case SendPending(ok) =>
      if s.pending == [] then s
      else if ok then s.(sent := s.sent + [s.pending[0]], pending := s.pending[1..])
      else End(s, SendFailed)
    case StartPump => if s.streaming then s.(phase := Pumping) else End(s, OnlyBuffer)
    case Receive(ok) => if s.queue == [] then s else Handle(c, s, ok)
    case Cancel => End(s, Cancelled)
    case CloseChannel => s.(live := false)
    case SeeClosed => End(s, ChannelClosed)
    case DrainOver => End(s, Drained)
    case Tick(to) => s.(now := to)
  }

  ghost function Step(c: Config, s: State, a: Action): State { if Enabled(c, s, a) then Apply(c, s, a) else s }

  ghost function Exec(c: Config, s: State, acts: seq<Action>): State
    decreases |acts|
  {
    if acts == [] then s else Exec(c, Step(c, s, acts[0]), acts[1..])
  }

  ghost predicate Reachable(c: Config, s: State) { exists acts :: s == Exec(c, Init, acts) }

  // --- what the client has and will get ---

  // The chunks of log[lo..hi] that were not dropped, in order.
  ghost function Kept(log: seq<Chunk>, lo: nat, hi: nat, dropped: set<nat>): seq<Chunk>
    requires hi <= |log|
  {
    if hi <= lo then []
    else Kept(log, lo, hi - 1, dropped) + if hi - 1 in dropped then [] else [log[hi - 1]]
  }

  // The job's chunks in a channel.
  ghost function Chunks(c: Config, q: seq<Event>): seq<Chunk> {
    if q == [] then [] else (if Mine(c, q[0]) then [q[0].data] else []) + Chunks(c, q[1..])
  }

  ghost function Gets(c: Config, s: State): seq<Chunk> { s.sent + s.pending + Chunks(c, s.queue) }

  ghost function FromBuffer(c: Config, s: State): seq<Chunk>
    requires s.snapshot.Some? ==> s.snapshot.value <= |s.log|
  {
    if c.buffered && s.snapshot.Some? then AfterSkip(s.log[..s.snapshot.value], c.skipCount) else []
  }

  // --- the invariant ---

  ghost predicate WriterOk(c: Config, s: State) {
    && (s.buf == if c.buffered then s.log else [])
    && (!s.writer.Idle? ==> s.log != [])
    && (forall i :: 0 <= i < |s.log| ==> s.log[i] != [])
  }

  ghost predicate OffersOk(c: Config, s: State) {
    && s.first <= s.next <= |s.log|
    && (s.live ==> s.streaming && s.next == if s.writer.Appended? || (s.writer.Captured? && s.writer.toClient) then |s.log| - 1 else |s.log|)
    && (forall i :: i in s.dropped ==> s.first <= i < s.next)
    && (s.writer.Captured? && s.writer.toClient ==> s.streaming)
    && (!s.streaming ==> !s.live && s.first == s.next && s.queue == [])
    && (forall e :: e in s.queue && Mine(c, e) ==> e.data != [])
  }

  ghost predicate PhaseOk(c: Config, s: State) {
    && (s.phase.Away? ==> !s.streaming)
    && (s.phase.Away? || s.phase.Ready? ==> s.pending == [] && s.sent == [] && s.snapshot == None)
    && (s.phase.Sending? || s.phase.Pumping? ==> s.snapshot.Some?)
    && (s.phase.Pumping? ==> s.pending == [] && s.streaming)
    && (s.phase.Ended? ==> !s.live)
    && (s.snapshot.Some? ==> s.snapshot.value <= |s.buf| && (c.buffered && s.streaming ==> s.first <= s.snapshot.value))
  }

  ghost predicate DeliveryOk(c: Config, s: State)
    requires s.snapshot.Some? ==> s.snapshot.value <= |s.log|
    requires s.next <= |s.log|
  {
    Gets(c, s) == FromBuffer(c, s) + Kept(s.log, s.first, s.next, s.dropped)
  }

  ghost predicate DrainOk(s: State) {
    && (s.deadline.None? <==> s.lateAt == [])
    && (forall t :: t in s.lateAt ==> t <= s.now && t + DRAIN_QUIET_PERIOD <= s.deadline.value)
    && (s.phase == Ended(Drained) ==> s.deadline.Some? && s.now > s.deadline.value)
  }

  ghost predicate Shape(c: Config, s: State) {
    WriterOk(c, s) && OffersOk(c, s) && PhaseOk(c, s) && DrainOk(s)
  }

  ghost predicate Inv(c: Config, s: State) { Shape(c, s) && DeliveryOk(c, s) }

  lemma {:induction false} KeptSame(log: seq<Chunk>, log': seq<Chunk>, lo: nat, hi: nat, d: set<nat>, d': set<nat>)
    requires hi <= |log| <= |log'| && log == log'[..|log|]
    requires forall i :: 0 <= i < hi ==> (i in d <==> i in d')
    ensures Kept(log, lo, hi, d) == Kept(log', lo, hi, d')
  {
    if hi > lo {
      KeptSame(log, log', lo, hi - 1, d, d');
    }
  }

  lemma {:induction false} KeptAll(log: seq<Chunk>, lo: nat, hi: nat)
    requires lo <= hi <= |log|
    ensures Kept(log, lo, hi, {}) == log[lo..hi]
  {
    if hi > lo {
      KeptAll(log, lo, hi - 1);
      assert log[lo..hi] == log[lo..hi - 1] + [log[hi - 1]];
    }
  }

  lemma {:induction false} ChunksAppend(c: Config, q: seq<Event>, e: Event)
    ensures Chunks(c, q + [e]) == Chunks(c, q) + if Mine(c, e) then [e.data] else []
  {
    if q != [] {
      assert (q + [e])[1..] == q[1..] + [e];
      ChunksAppend(c, q[1..], e);
    }
  }

  // --- every step keeps it ---

  lemma InvInitially(c: Config)
    ensures Inv(c, Init)
  {
  }

  lemma ShapeKept(c: Config, s: State, a: Action)
    requires Shape(c, s) && Enabled(c, s, a)
    ensures Shape(c, Apply(c, s, a))
  {
    match a {
      case Deliver => OfferShape(c, s, true);
      case TimeOut => OfferShape(c, s, false);
      case Receive(ok) => HandleShape(c, s, ok);
      case Write(chunk) => AppendShape(c, s, chunk);
      case Come(isCompleted) =>
      case Capture | TakeSnapshot | Publish(_) | FindJobGone | SendPending(_) | StartPump
         | Cancel | CloseChannel | SeeClosed | DrainOver | Tick(_) => PlainShape(c, s, a);
    }
  }

  lemma PlainShape(c: Config, s: State, a: Action)
    requires Shape(c, s) && Enabled(c, s, a)
    requires !a.Write? && !a.Deliver? && !a.TimeOut? && !a.Receive? && !a.Come?
    ensures Shape(c, Apply(c, s, a))
  {
    hide Snapshot;
    if a.TakeSnapshot? || a.SendPending? || a.StartPump? {
      BufferShape(c, s, a);
    } else if a.FindJobGone? || a.Cancel? || a.SeeClosed? || a.DrainOver? {
      EndShape(c, s, a);
    }
  }

  lemma BufferShape(c: Config, s: State, a: Action)
    requires Shape(c, s) && Enabled(c, s, a) && (a.TakeSnapshot? || a.SendPending? || a.StartPump?)
    ensures Shape(c, Apply(c, s, a))
  {
    hide Snapshot;
  }

  lemma EndShape(c: Config, s: State, a: Action)
    requires Shape(c, s) && Enabled(c, s, a) && (a.FindJobGone? || a.Cancel? || a.SeeClosed? || a.DrainOver?)
    ensures Shape(c, Apply(c, s, a))
  {
  }

  lemma AppendShape(c: Config, s: State, chunk: Chunk)
    requires Shape(c, s) && s.writer.Idle? && chunk != []
    ensures Shape(c, Append(c, s, chunk))
  {
  }

  lemma OfferShape(c: Config, s: State, taken: bool)
    requires Shape(c, s) && s.writer.Captured?
    ensures Shape(c, Offer(c, s, taken))
  {
    assert s.log[|s.log| - 1] != [];
  }

  lemma HandleShape(c: Config, s: State, ok: bool)
    requires Shape(c, s) && s.phase.Pumping? && s.queue != []
    ensures Shape(c, Handle(c, s, ok))
  {
    hide WriterOk, DrainOk;
    var s' := Handle(c, s, ok);
    assert WriterOk(c, s') by { HandleWriter(c, s, ok); }
    assert DrainOk(s') by { HandleDrain(c, s, ok); }
    assert forall e :: e in s'.queue ==> e in s.queue;
  }

  lemma HandleWriter(c: Config, s: State, ok: bool)
    requires WriterOk(c, s) && s.queue != []
    ensures WriterOk(c, Handle(c, s, ok))
  {
  }

  lemma HandleDrain(c: Config, s: State, ok: bool)
    requires DrainOk(s) && s.phase.Pumping? && s.queue != []
    ensures DrainOk(Handle(c, s, ok))
  {
  }

  lemma AppendDelivers(c: Config, s: State, chunk: Chunk)
    requires Inv(c, s)
    ensures DeliveryOk(c, Append(c, s, chunk))
  {
    var s' := Append(c, s, chunk);
    KeptSame(s.log, s'.log, s.first, s.next, s.dropped, s.dropped);
    if s.snapshot.Some? {
      assert s'.log[..s.snapshot.value] == s.log[..s.snapshot.value];
    }
  }

  // What the end of an offer adds to what the client gets.
  ghost function Added(s: State, taken: bool): seq<Chunk>
    requires s.log != []
  {
    if taken then [s.log[|s.log| - 1]] else []
  }

  lemma OfferDelivers(c: Config, s: State, taken: bool)
    requires Inv(c, s) && Offering(s)
    ensures DeliveryOk(c, Offer(c, s, taken))
  {
    OfferGets(c, s, taken);
    OfferKept(c, s, taken);
    hide AfterSkip, Gets, Kept, Offer, Mine, Shape;
    var s' := Offer(c, s, taken);
    Reassociate(FromBuffer(c, s), Kept(s.log, s.first, s.next, s.dropped), Added(s, taken));
    assert FromBuffer(c, s') == FromBuffer(c, s);
  }

  lemma OfferGets(c: Config, s: State, taken: bool)
    requires Offering(s) && s.log != []
    ensures Gets(c, Offer(c, s, taken)) == Gets(c, s) + Added(s, taken)
  {
    hide AfterSkip, Kept;
    if taken {
      var x := s.log[|s.log| - 1];
      ChunksAppend(c, s.queue, LogChunk(c.uuid, x));
      assert Mine(c, LogChunk(c.uuid, x));
      Reassociate(s.sent + s.pending, Chunks(c, s.queue), [x]);
    } else {
      assert Gets(c, s) + [] == Gets(c, s);
    }
  }

  lemma OfferKept(c: Config, s: State, taken: bool)
    requires Inv(c, s) && Offering(s)
    ensures var s' := Offer(c, s, taken);
            && s'.log == s.log && s'.snapshot == s.snapshot && s'.first == s.first
            && s'.next == s.next + 1 == |s.log|
            && Kept(s'.log, s'.first, s'.next, s'.dropped) == Kept(s.log, s.first, s.next, s.dropped) + Added(s, taken)
  {
    hide AfterSkip, Gets, WriterOk, PhaseOk, DrainOk;
    var s' := Offer(c, s, taken);
    assert s.log != [] by { Written(c, s); }
    KeptSame(s.log, s.log, s.first, s.next, s.dropped, s'.dropped);
  }

  lemma Written(c: Config, s: State)
    requires WriterOk(c, s) && !s.writer.Idle?
    ensures s.log != []
  {
  }

  lemma Reassociate(a: seq<Chunk>, b: seq<Chunk>, d: seq<Chunk>)
    ensures a + b + d == a + (b + d)
  {
  }

  lemma SnapshotDelivers(c: Config, s: State)
    requires Inv(c, s) && s.phase.Ready?
    ensures DeliveryOk(c, Apply(c, s, TakeSnapshot))
  {
    hide AfterSkip, Kept, Chunks, DrainOk, OffersOk;
    var s' := Apply(c, s, TakeSnapshot);
    assert c.buffered ==> s.log[..|s.log|] == s.log == s.buf;
    assert s'.pending == FromBuffer(c, s');
    assert [] + s'.pending == s'.pending;
    assert Gets(c, s) == Chunks(c, s.queue);
  }

  lemma SendDelivers(c: Config, s: State, ok: bool)
    requires Inv(c, s) && s.phase.Sending? && s.pending != []
    ensures DeliveryOk(c, Apply(c, s, SendPending(ok)))
  {
    hide AfterSkip, Kept, Chunks, Shape;
    Moves(s.sent, s.pending, Chunks(c, s.queue));
  }

  // Sending the first of the pending chunks.
  lemma Moves(sent: seq<Chunk>, pending: seq<Chunk>, rest: seq<Chunk>)
    requires pending != []
    ensures sent + [pending[0]] + pending[1..] + rest == sent + pending + rest
  {
    assert [pending[0]] + pending[1..] == pending;
    Reassociate(sent, [pending[0]], pending[1..]);
  }

  lemma Arrives(sent: seq<Chunk>, x: Chunk, rest: seq<Chunk>)
    ensures sent + [x] + [] + rest == sent + [] + ([x] + rest)
  {
  }


  lemma HandleDelivers(c: Config, s: State, ok: bool)
    requires Inv(c, s) && s.phase.Pumping? && s.queue != []
    ensures DeliveryOk(c, Handle(c, s, ok))
  {
    hide AfterSkip, Kept;
    var s', e := Handle(c, s, ok), s.queue[0];
    var t := Chunks(c, s.queue[1..]);
    assert Mine(c, e) ==> e.data != [];
    if Mine(c, e) {
      Arrives(s.sent, e.data, t);
    } else {
      assert [] + t == t;
    }
    assert Gets(c, s') == Gets(c, s);
  }

  lemma DeliveryKept(c: Config, s: State, a: Action)
    requires Inv(c, s) && Enabled(c, s, a)
    ensures Shape(c, Apply(c, s, a)) && DeliveryOk(c, Apply(c, s, a))
  {
    hide WriterOk, DrainOk;
    ShapeKept(c, s, a);
    match a {
      case Write(chunk) => AppendDelivers(c, s, chunk);
      case Deliver => if Offering(s) { OfferDelivers(c, s, true); }
      case TimeOut => OfferDelivers(c, s, false);
      case Publish(e) => ChunksAppend(c, s.queue, e);
      case Come(isCompleted) =>
      case TakeSnapshot => SnapshotDelivers(c, s);
      case SendPending(ok) => SendDelivers(c, s, ok);
      case Receive(ok) => HandleDelivers(c, s, ok);
      case Capture | FindJobGone | StartPump | Cancel | CloseChannel | SeeClosed | DrainOver | Tick(_) =>
    }
  }

  lemma StepKeepsInv(c: Config, s: State, a: Action)
    requires Inv(c, s)
    ensures Inv(c, Step(c, s, a))
  {
    if Enabled(c, s, a) {
      DeliveryKept(c, s, a);
    }
  }

  lemma {:induction false} RunKeepsInv(c: Config, s: State, acts: seq<Action>)
    requires Inv(c, s)
    ensures Inv(c, Exec(c, s, acts))
    decreases |acts|
  {
    if acts != [] {
      StepKeepsInv(c, s, acts[0]);
      RunKeepsInv(c, Step(c, s, acts[0]), acts[1..]);
    }
  }

  lemma ReachableInv(c: Config, s: State)
    requires Reachable(c, s)
    ensures Inv(c, s)
  {
    var acts :| s == Exec(c, Init, acts);
    RunKeepsInv(c, Init, acts);
  }

  // --- the theorems ---

  /** What a client has been sent, is about to be sent and still has queued is, in every reachable
      state and in this order, the snapshot past its skip count and then the chunks offered to its
      channel less those that timed out. */
  lemma DeliveredExactly(c: Config, s: State)
    requires Reachable(c, s)
    ensures s.first <= s.next <= |s.log| && (s.snapshot.Some? ==> s.snapshot.value <= |s.log|)
    ensures Gets(c, s) == FromBuffer(c, s) + Kept(s.log, s.first, s.next, s.dropped)
  {
    ReachableInv(c, s);
  }

  /** The seam: with the buffer on and no timeout, the two parts are consecutive stretches of the
      log that meet or overlap, and everything published since the client subscribed is in the
      second. */
  lemma NoGapAtTheSeam(c: Config, s: State)
    requires Reachable(c, s) && c.buffered && s.streaming && s.snapshot.Some? && s.dropped == {}
    ensures s.first <= s.snapshot.value <= |s.log| && s.first <= s.next <= |s.log|
    ensures Gets(c, s) == AfterSkip(s.log[..s.snapshot.value], c.skipCount) + s.log[s.first..s.next]
    ensures s.live && s.writer.Idle? ==> s.next == |s.log|
  {
    ReachableInv(c, s);
    KeptAll(s.log, s.first, s.next);
  }

  // Where chunk i of the log is in what the client gets.
  function Place(skipCount: int, snapshot: nat, first: nat, i: nat): int {
    var skip := if skipCount <= 0 then 0 else skipCount;
    if i < snapshot then i - skip else (if skip >= snapshot then 0 else snapshot - skip) + i - first
  }

  lemma PlaceHolds(log: seq<Chunk>, skipCount: int, snapshot: nat, first: nat, next: nat, i: nat)
    requires first <= snapshot <= |log| && first <= next <= |log| && skipCount <= i < next
    ensures var all := AfterSkip(log[..snapshot], skipCount) + log[first..next];
            && 0 <= Place(skipCount, snapshot, first, i) < |all|
            && all[Place(skipCount, snapshot, first, i)] == log[i]
  {
  }

  /** No chunk past the skip count is lost and none is out of order: each one has its place, later
      chunks have later places, and so the overlap only repeats chunks. */
  lemma NothingLost(c: Config, s: State, i: nat, j: nat)
    requires Reachable(c, s) && c.buffered && s.streaming && s.snapshot.Some? && s.dropped == {}
    requires c.skipCount <= i <= j < s.next
    ensures j < |s.log|
    ensures var p, q := Place(c.skipCount, s.snapshot.value, s.first, i), Place(c.skipCount, s.snapshot.value, s.first, j);
            0 <= p <= q < |Gets(c, s)| && (i < j ==> p < q) && Gets(c, s)[p] == s.log[i] && Gets(c, s)[q] == s.log[j]
  {
    hide Reachable, Gets, AfterSkip;
    NoGapAtTheSeam(c, s);
    PlaceHolds(s.log, c.skipCount, s.snapshot.value, s.first, s.next, i);
    PlaceHolds(s.log, c.skipCount, s.snapshot.value, s.first, s.next, j);
  }

  // --- with timeouts ---

  lemma {:induction false} KeptLength(log: seq<Chunk>, lo: nat, hi: nat, d: set<nat>)
    requires lo <= hi <= |log|
    ensures |Kept(log, lo, hi, d)| <= hi - lo
    ensures (exists i :: lo <= i < hi && i in d) ==> |Kept(log, lo, hi, d)| < hi - lo
  {
    if hi > lo {
      KeptLength(log, lo, hi - 1, d);
      assert (exists i :: lo <= i < hi && i in d) ==> hi - 1 in d || exists i :: lo <= i < hi - 1 && i in d;
    }
  }

  /** What a client gets is the snapshot and every chunk published since it subscribed if and only if
      no offer timed out. */
  lemma CompleteExactlyWhen(c: Config, s: State)
    requires Reachable(c, s)
    ensures s.first <= s.next <= |s.log| && (s.snapshot.Some? ==> s.snapshot.value <= |s.log|)
    ensures Gets(c, s) == FromBuffer(c, s) + s.log[s.first..s.next] <==> s.dropped == {}
  {
    hide Reachable, FromBuffer, Gets;
    ReachableInv(c, s);
    if s.dropped == {} {
      KeptAll(s.log, s.first, s.next);
    } else {
      SomeDropped(c, s);
      KeptLength(s.log, s.first, s.next, s.dropped);
      assert |s.log[s.first..s.next]| == s.next - s.first;
    }
  }

  lemma SomeDropped(c: Config, s: State)
    requires OffersOk(c, s) && s.dropped != {}
    ensures exists i :: s.first <= i < s.next && i in s.dropped
  {
    assert |s.dropped| > 0;
    if forall i :: s.first <= i < s.next ==> i !in s.dropped {
      NoneBelow(s.dropped, s.next);
    }
  }

  lemma {:induction false} NoneBelow(d: set<nat>, n: nat)
    requires forall i :: i in d ==> i < n
    requires forall i :: 0 <= i < n ==> i !in d
    ensures |d| == 0
  {
    var all := set i: nat | 0 <= i < n && i in d;
    assert d <= all;
    assert all <= {};
  }

  // The positions in the log of the chunks kept of log[lo..hi].
  ghost function KeptFrom(lo: nat, hi: nat, dropped: set<nat>): seq<nat> {
    if hi <= lo then [] else KeptFrom(lo, hi - 1, dropped) + if hi - 1 in dropped then [] else [hi - 1]
  }

  lemma {:induction false} KeptFromHolds(log: seq<Chunk>, lo: nat, hi: nat, d: set<nat>)
    requires hi <= |log|
    ensures |KeptFrom(lo, hi, d)| == |Kept(log, lo, hi, d)|
    ensures forall k :: 0 <= k < |KeptFrom(lo, hi, d)| ==>
              KeptFrom(lo, hi, d)[k] < hi && Kept(log, lo, hi, d)[k] == log[KeptFrom(lo, hi, d)[k]]
    ensures forall i :: i in KeptFrom(lo, hi, d) <==> lo <= i < hi && i !in d
  {
    if hi > lo {
      KeptFromHolds(log, lo, hi - 1, d);
    }
  }

  // The positions in the log of the chunks of the snapshot past the skip count.
  ghost function Positions(lo: nat, hi: nat): seq<nat> { if hi <= lo then [] else Positions(lo, hi - 1) + [hi - 1] }

  lemma {:induction false} PositionsHold(lo: nat, hi: nat)
    ensures |Positions(lo, hi)| == if hi <= lo then 0 else hi - lo
    ensures forall k :: 0 <= k < |Positions(lo, hi)| ==> Positions(lo, hi)[k] == lo + k
    ensures forall i :: i in Positions(lo, hi) <==> lo <= i < hi
  {
    if hi > lo {
      PositionsHold(lo, hi - 1);
    }
  }

  // Which chunk of the log each chunk the client gets is.
  ghost function Sources(c: Config, s: State): seq<nat> {
    (if c.buffered && s.snapshot.Some? then Positions(if c.skipCount <= 0 then 0 else c.skipCount, s.snapshot.value) else [])
    + KeptFrom(s.first, s.next, s.dropped)
  }

  // chunks are the chunks of the log at positions.
  predicate AreAt(log: seq<Chunk>, chunks: seq<Chunk>, positions: seq<nat>) {
    |chunks| == |positions| && forall k :: 0 <= k < |chunks| ==> positions[k] < |log| && chunks[k] == log[positions[k]]
  }

  lemma JoinedAreAt(log: seq<Chunk>, a: seq<Chunk>, p: seq<nat>, b: seq<Chunk>, q: seq<nat>)
    requires AreAt(log, a, p) && AreAt(log, b, q)
    ensures AreAt(log, a + b, p + q)
  {
  }

  lemma BufferAreAt(c: Config, s: State)
    requires s.snapshot.Some? && s.snapshot.value <= |s.log|
    ensures AreAt(s.log, AfterSkip(s.log[..s.snapshot.value], c.skipCount),
                  Positions(if c.skipCount <= 0 then 0 else c.skipCount, s.snapshot.value))
  {
    PositionsHold(if c.skipCount <= 0 then 0 else c.skipCount, s.snapshot.value);
  }

  lemma SourcesHold(c: Config, s: State)
    requires Reachable(c, s)
    ensures AreAt(s.log, Gets(c, s), Sources(c, s))
  {
    hide Reachable, Gets, AreAt, AfterSkip;
    ReachableInv(c, s);
    var live, from := Kept(s.log, s.first, s.next, s.dropped), KeptFrom(s.first, s.next, s.dropped);
    assert AreAt(s.log, live, from) by { KeptAreAt(s); }
    if c.buffered && s.snapshot.Some? {
      BufferAreAt(c, s);
      JoinedAreAt(s.log, FromBuffer(c, s), Positions(if c.skipCount <= 0 then 0 else c.skipCount, s.snapshot.value), live, from);
    } else {
      assert [] + live == live && [] + from == from;
    }
  }

  lemma KeptAreAt(s: State)
    requires s.next <= |s.log|
    ensures AreAt(s.log, Kept(s.log, s.first, s.next, s.dropped), KeptFrom(s.first, s.next, s.dropped))
  {
    KeptFromHolds(s.log, s.first, s.next, s.dropped);
  }

  /** A chunk past the skip count and published by now is missing from what the client gets, in
      which the k-th chunk is chunk Sources(c, s)[k] of the log, if and only if its offer timed out
      and the snapshot was taken before it was written. */
  lemma MissingExactlyWhen(c: Config, s: State, i: nat)
    requires Reachable(c, s) && c.buffered && s.streaming && s.snapshot.Some? && c.skipCount <= i < s.next
    ensures AreAt(s.log, Gets(c, s), Sources(c, s))
    ensures i !in Sources(c, s) <==> i in s.dropped && i >= s.snapshot.value
  {
    hide Reachable, Gets;
    ReachableInv(c, s);
    SourcesHold(c, s);
    KeptFromHolds(s.log, s.first, s.next, s.dropped);
    PositionsHold(if c.skipCount <= 0 then 0 else c.skipCount, s.snapshot.value);
  }

  /** So of a log of different chunks, which can be told apart, exactly those chunks are missing. */
  lemma MissingChunkExactlyWhen(c: Config, s: State, i: nat)
    requires Reachable(c, s) && c.buffered && s.streaming && s.snapshot.Some? && c.skipCount <= i < s.next
    requires forall j, k :: 0 <= j < k < |s.log| ==> s.log[j] != s.log[k]
    ensures i < |s.log| && (s.log[i] !in Gets(c, s) <==> i in s.dropped && i >= s.snapshot.value)
  {
    hide Reachable, Gets, Sources;
    MissingExactlyWhen(c, s, i);
    var all, from := Gets(c, s), Sources(c, s);
    assert i < |s.log| by { DeliveredExactly(c, s); }
    assert forall k :: 0 <= k < |all| ==> (all[k] == s.log[i] <==> from[k] == i);
  }

  /** Without the buffer there is only the live part. */
  lemma UnbufferedIsLive(c: Config, s: State)
    requires Reachable(c, s) && !c.buffered && s.dropped == {}
    ensures s.first <= s.next <= |s.log| && Gets(c, s) == s.log[s.first..s.next]
  {
    ReachableInv(c, s);
    KeptAll(s.log, s.first, s.next);
  }

  /** A stream that ends by draining has been quiet for longer than the quiet period since the
      completion and since every chunk sent after it. */
  lemma DrainWaitsForQuiet(c: Config, s: State)
    requires Reachable(c, s) && s.phase == Ended(Drained)
    ensures s.lateAt != [] && forall t :: t in s.lateAt ==> s.now > t + 500
  {
    ReachableInv(c, s);
  }

  // --- what the histories record ---

  /** Only a timeout drops a chunk, the one just written; only a write adds to the log; a delivery puts
      the chunk just written into the channel; and those captured are the subscribers there then. */
  lemma OffersRecorded(c: Config, s: State, a: Action)
    requires Reachable(c, s)
    ensures Step(c, s, a).log == s.log + (if a.Write? && Enabled(c, s, a) then [a.chunk] else [])
    ensures Step(c, s, a).dropped == s.dropped + (if a.TimeOut? && Enabled(c, s, a) then {|s.log| - 1} else {})
    ensures a.Deliver? && Enabled(c, s, a) && Offering(s) ==>
              s.log != [] && Step(c, s, a).queue == s.queue + [LogChunk(c.uuid, s.log[|s.log| - 1])]
    ensures a.Capture? && Enabled(c, s, a) ==> Step(c, s, a).writer == Captured(s.live, s.now)
  {
    hide Reachable, Inv;
    WrittenBefore(c, s);
    if a.Receive? {
      ReceiveRecords(c, s, a.ok);
    }
    hide Handle, AfterSkip;
  }

  lemma WrittenBefore(c: Config, s: State)
    requires Reachable(c, s)
    ensures !s.writer.Idle? ==> s.log != []
    ensures s.buf == if c.buffered then s.log else []
  {
    hide Reachable;
    ReachableInv(c, s);
    hide DeliveryOk;
  }

  lemma ReceiveRecords(c: Config, s: State, ok: bool)
    ensures Step(c, s, Receive(ok)).log == s.log && Step(c, s, Receive(ok)).dropped == s.dropped
    ensures Step(c, s, Receive(ok)).snapshot == s.snapshot
  {
  }

  /** A snapshot is of the whole log so far, past the skip count; nothing else takes one. */
  lemma SnapshotTaken(c: Config, s: State, a: Action)
    requires Reachable(c, s)
    ensures Step(c, s, a).snapshot == if a.TakeSnapshot? && Enabled(c, s, a) then Some(|s.buf|) else s.snapshot
    ensures a.TakeSnapshot? && Enabled(c, s, a) ==> Step(c, s, a).pending == if c.buffered then AfterSkip(s.log, c.skipCount) else []
  {
    hide Reachable, Inv;
    WrittenBefore(c, s);
    if a.Receive? {
      ReceiveRecords(c, s, a.ok);
    }
    hide Handle, AfterSkip;
  }

  /** How an event of the channel is handled: another job's is skipped; a chunk is sent and, while
      draining, puts the end off by 500 ms; COMPLETED, FAILED and STOPPED start the drain, other
      statuses do nothing. */
  lemma HandledAs(c: Config, s: State, ok: bool)
    requires Reachable(c, s) && s.phase.Pumping? && s.queue != []
    ensures var s', e := Step(c, s, Receive(ok)), s.queue[0];
            && s'.queue == s.queue[1..]
            && (e.jobUuid != c.uuid ==> s' == s.(queue := s.queue[1..]))
            && (e.jobUuid == c.uuid && e.LogChunk? ==>
                  if ok then s'.sent == s.sent + [e.data] && s'.deadline == (if s.deadline.Some? then Some(s.now + 500) else None)
                  else s'.phase == Ended(SendFailed))
            && (e.jobUuid == c.uuid && e.Updated? ==>
                  s' == s.(queue := s.queue[1..], deadline := s'.deadline, lateAt := s'.lateAt)
                  && s'.deadline == if s.deadline.None? && e.status in {COMPLETED, FAILED, STOPPED} then Some(s.now + 500) else s.deadline)
  {
    hide Reachable, Chunks, Kept;
    ReachableInv(c, s);
    assert s.queue[0] in s.queue;
    hide DeliveryOk;
  }

  /** A client that came after the job's end gets the buffer past the skip count and no more. */
  lemma CompletedGetsBuffer(c: Config, s: State)
    requires Reachable(c, s) && s.phase.Sending? && s.pending == [] && !s.streaming
    ensures Step(c, s, StartPump).phase == Ended(OnlyBuffer) && Step(c, s, StartPump).sent == s.sent
    ensures s.snapshot.Some? && s.snapshot.value <= |s.log|
    ensures s.sent == if c.buffered then AfterSkip(s.log[..s.snapshot.value], c.skipCount) else []
  {
    hide Reachable, AfterSkip;
    ReachableInv(c, s);
    assert Chunks(c, s.queue) == [] && Kept(s.log, s.first, s.next, s.dropped) == [];
    assert s.sent + [] + [] == s.sent;
  }

  /** Coming to a running job subscribes from the next publish on, coming to a completed one does
      not; and a streaming client goes on to the channel once the snapshot is sent. */
  lemma ComesAs(c: Config, s: State, isCompleted: bool)
    requires Reachable(c, s)
    ensures s.phase.Away? ==>
              var s' := Step(c, s, Come(isCompleted));
              s'.phase == Ready && s'.streaming == s'.live == !isCompleted && s'.log == s.log && s'.queue == []
    ensures s.phase.Sending? && s.pending == [] && s.streaming ==> Step(c, s, StartPump) == s.(phase := Pumping)
  {
    hide Reachable;
    ReachableInv(c, s);
    hide DeliveryOk;
  }

  /** How a stream ends: with its reason, unsubscribed, and with nothing sent or written by that. */
  lemma EndsAs(c: Config, s: State)
    ensures s.phase.Ready? && s.streaming ==> Step(c, s, FindJobGone) == s.(phase := Ended(JobGone), live := false)
    ensures s.phase.Sending? && s.pending != [] ==> Step(c, s, SendPending(false)) == s.(phase := Ended(SendFailed), live := false)
    ensures s.phase.Pumping? ==> Step(c, s, Cancel) == s.(phase := Ended(Cancelled), live := false)
    ensures s.phase.Pumping? && !s.live && s.queue == [] ==> Step(c, s, SeeClosed) == s.(phase := Ended(ChannelClosed))
    ensures s.phase.Pumping? && s.deadline.Some? && s.now > s.deadline.value ==>
              Step(c, s, DrainOver) == s.(phase := Ended(Drained), live := false)
    ensures s.live ==> Step(c, s, CloseChannel) == s.(live := false)
  {
  }

  /** The snapshot goes out in order, by sends alone. */
  lemma {:induction false} SnapshotGetsOut(c: Config, s: State) returns (acts: seq<Action>)
    requires s.phase.Sending?
    ensures forall a :: a in acts ==> a == SendPending(true)
    ensures Exec(c, s, acts) == s.(sent := s.sent + s.pending, pending := [])
    decreases |s.pending|
  {
    if s.pending == [] {
      acts := [];
      assert s.sent + [] == s.sent;
    } else {
      var s' := Step(c, s, SendPending(true));
      assert s' == s.(sent := s.sent + [s.pending[0]], pending := s.pending[1..]);
      var rest := SnapshotGetsOut(c, s');
      acts := [SendPending(true)] + rest;
      assert acts[1..] == rest;
      assert s.sent + [s.pending[0]] + s.pending[1..] == s.sent + s.pending;
    }
  }

  // An event that starts the drain.
  predicate IsEnd(c: Config, e: Event) {
    e.Updated? && e.jobUuid == c.uuid && (e.status == COMPLETED || e.status == FAILED || e.status == STOPPED)
  }

  ghost predicate EndPublished(c: Config, acts: seq<Action>) { exists a :: a in acts && a.Publish? && IsEnd(c, a.e) }

  predicate EndSeen(c: Config, s: State) { s.deadline.Some? || exists e :: e in s.queue && IsEnd(c, e) }

  lemma EndStep(c: Config, s: State, a: Action)
    requires EndSeen(c, Step(c, s, a)) && !EndSeen(c, s)
    ensures a.Publish? && IsEnd(c, a.e)
  {
    hide AfterSkip;
    assert s.queue != [] ==> s.queue[0] in s.queue;
    var s' := Step(c, s, a);
    if s'.deadline.None? {
      var e :| e in s'.queue && IsEnd(c, e);
      assert e !in s.queue;
    }
  }

  lemma {:induction false} EndRun(c: Config, s: State, acts: seq<Action>)
    requires EndSeen(c, Exec(c, s, acts))
    ensures EndSeen(c, s) || EndPublished(c, acts)
    decreases |acts|
  {
    hide Step, EndSeen, IsEnd;
    if acts != [] {
      EndRun(c, Step(c, s, acts[0]), acts[1..]);
      if !EndPublished(c, acts[1..]) && !EndSeen(c, s) {
        EndStep(c, s, acts[0]);
        assert acts[0] in acts;
      }
    }
  }

  /** A stream ends by draining only in a run in which a COMPLETED, FAILED or STOPPED status of its
      own job has been published. */
  lemma DrainedAfterEnd(c: Config, acts: seq<Action>)
    requires Exec(c, Init, acts).phase == Ended(Drained)
    ensures exists a :: a in acts && a.Publish? && a.e.Updated? && a.e.jobUuid == c.uuid && a.e.status in {COMPLETED, FAILED, STOPPED}
  {
    hide Exec;
    RunKeepsInvFromInit(c, acts);
    EndRun(c, Init, acts);
  }

  lemma RunKeepsInvFromInit(c: Config, acts: seq<Action>)
    ensures Inv(c, Exec(c, Init, acts))
  {
    assert Reachable(c, Exec(c, Init, acts));
    ReachableInv(c, Exec(c, Init, acts));
  }

  lemma {:induction false} ExecThen(c: Config, s: State, acts: seq<Action>, a: Action)
    ensures Exec(c, s, acts + [a]) == Step(c, Exec(c, s, acts), a)
    decreases |acts|
  {
    if acts == [] {
      assert Exec(c, Step(c, s, a), []) == Step(c, s, a);
    } else {
      assert (acts + [a])[1..] == acts[1..] + [a];
      ExecThen(c, Step(c, s, acts[0]), acts[1..], a);
    }
  }

  lemma ReachableStep(c: Config, s: State, a: Action)
    requires Reachable(c, s)
    ensures Reachable(c, Step(c, s, a))
  {
    var acts :| s == Exec(c, Init, acts);
    ExecThen(c, Init, acts, a);
  }

  // Timeouts do lose chunks: the events of other jobs fill the channel of a client that does not
  // take any for the length of the timeout, and a chunk never reaches it.
  lemma TimeOutLosesAChunk(c: Config, x: Chunk, other: string)
    requires x != [] && c.buffered && other != c.uuid
    ensures exists s :: Reachable(c, s) && s.phase.Pumping? && s.writer.Idle? && s.log == [x]
                        && |s.queue| == c.capacity && Gets(c, s) == []
  {
    hide Reachable, Step;
    var s3 := EmptyPump(c);
    s3 := FillChannel(c, s3, Updated(other, RUNNING), c.capacity);
    ReachableStep(c, s3, Write(x));
    var s4 := Step(c, s3, Write(x));
    ReachableStep(c, s4, Capture);
    var s5 := Step(c, s4, Capture);
    ReachableStep(c, s5, Tick(s5.now + PUBLISH_TIMEOUT));
    var s6 := Step(c, s5, Tick(s5.now + PUBLISH_TIMEOUT));
    ReachableStep(c, s6, TimeOut);
    var s7 := Step(c, s6, TimeOut);
    OfferMisses(c, s3, x);
    assert [] + [] + Chunks(c, s7.queue) == [];
  }

  lemma EmptyPump(c: Config) returns (s: State)
    requires c.buffered
    ensures Reachable(c, s) && s.phase.Pumping? && s.live && s.writer.Idle?
    ensures s.log == [] && s.queue == [] && s.pending == [] && s.sent == []
  {
    hide Reachable;
    InitReachable(c);
    ReachableStep(c, Init, Come(false));
    s := Step(c, Init, Come(false));
    ReachableStep(c, s, TakeSnapshot);
    s := Step(c, s, TakeSnapshot);
    assert s.pending == [];
    ReachableStep(c, s, StartPump);
    s := Step(c, s, StartPump);
  }

  lemma {:induction false} FillChannel(c: Config, s: State, e: Event, k: nat) returns (s': State)
    requires Reachable(c, s) && s.live && s.queue == [] && !Mine(c, e) && k <= c.capacity
    ensures Reachable(c, s') && s' == s.(queue := s'.queue) && |s'.queue| == k && Chunks(c, s'.queue) == []
  {
    hide Reachable;
    if k == 0 {
      s' := s;
    } else {
      var s1 := FillChannel(c, s, e, k - 1);
      ReachableStep(c, s1, Publish(e));
      s' := Step(c, s1, Publish(e));
      ChunksAppend(c, s1.queue, e);
    }
  }

  lemma OfferMisses(c: Config, s: State, x: Chunk)
    requires x != [] && s.phase.Pumping? && s.live && s.writer.Idle? && |s.queue| == c.capacity
    requires s.log == [] && s.pending == [] && s.sent == []
    ensures var s5 := Step(c, Step(c, s, Write(x)), Capture);
            var s' := Step(c, Step(c, s5, Tick(s5.now + PUBLISH_TIMEOUT)), TimeOut);
            s'.phase.Pumping? && s'.writer.Idle? && s'.log == [x] && s'.queue == s.queue && s'.pending == [] && s'.sent == []
  {
  }

  lemma InitReachable(c: Config)
    ensures Reachable(c, Init)
  {
    assert Exec(c, Init, []) == Init;
  }
}
