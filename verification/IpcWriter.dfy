/** ipc/writer.go as interleaved atomic steps: the subscriber and other producers calling write,
    writeLoop, reconnectLoop, and Close. */
module IpcWriter {
  import opened Wrappers
  import opened Framing
  import opened LogNumbering

  datatype Config = Config(capacity: nat, maxAttempts: nat)

  // Where the messages are.
  datatype Mail = Mail(
    received: seq<Received>,
    sub: Option<Msg>,             // held by the subscriber inside write
    others: multiset<Msg>,        // held by other producers inside write
    queue: seq<Msg>,
    hand: Option<Msg>,            // held by writeLoop
    sent: seq<Msg>,
    dropped: multiset<Msg>,       // counted in msgsDropped
    errored: multiset<Msg>,       // counted in writeErrors
    rejected: multiset<Msg>,      // refused because of shutdown
    offered: multiset<Msg>)       // history: every call of write

  // A connection and what was written to it: history.
  datatype Connection = Connection(bytes: Bytes, open: bool, sent: seq<Msg>, tail: Bytes, torn: Option<Msg>)

  datatype Loop =
    | Select | Waiting | Ready
    | Captured(id: nat) | Half(id: nat)   // before the length, before the message
    | Failing | Closing                   // before connected.Store(false), before closeConnection
    | Halted

  datatype Reconnect = Start | Ticking | Checked | Dialing(initial: bool) | GaveUp | Stopped

  datatype Link = Link(
    loop: Loop,
    conn: Option<nat>,
    connected: bool,
    conns: seq<Connection>,
    reconnect: Reconnect,         // Dialing holds connMu
    attempts: nat,
    dials: seq<bool>)             // history: outcomes of net.Dial

  datatype State = State(mail: Mail, link: Link, cancelled: bool)

  datatype Action =
    | Receive(r: Received) | SubEnqueue | SubTimeOut | SubReject
    | Offer(m: Msg) | Enqueue(m: Msg) | TimeOut(m: Msg) | Reject(m: Msg)
    | Take | SeeConnected | WaitCap | Capture | MarshalFails | WriteLength(k: nat) | WriteBody(k: nat)
    | StoreFalse | CloseConnection | LoopHalt
    | Begin | Dial(ok: bool) | Check | ReconnectHalt
    | Cancel

  const Init := State(
    Mail([], None, multiset{}, [], None, [], multiset{}, multiset{}, multiset{}, multiset{}),
    Link(Select, None, false, [], Start, 0, []), false)

  ghost predicate Enabled(c: Config, s: State, a: Action) {
    var m, l := s.mail, s.link;
    match a
    case Receive(r) => m.sub.None? && r.wire != []
    case SubEnqueue => m.sub.Some? && |m.queue| < c.capacity
    case SubTimeOut => m.sub.Some?
    case SubReject => m.sub.Some? && s.cancelled
    case Offer(x) => x.Telemetry? && x.wire != []
    case Enqueue(x) => x in m.others && |m.queue| < c.capacity
    case TimeOut(x) => x in m.others
    case Reject(x) => x in m.others && s.cancelled
    case Take => l.loop.Select? && m.queue != []
    case SeeConnected => l.loop.Waiting? && l.connected
    case WaitCap => l.loop.Waiting?
    case Capture => l.loop.Ready? && !l.reconnect.Dialing?
    case MarshalFails => l.loop.Captured?
    case WriteLength(k) => l.loop.Captured? && k <= 4
    case WriteBody(k) => l.loop.Half? && m.hand.Some? && k <= |m.hand.value.wire|
    case StoreFalse => l.loop.Failing?
    case CloseConnection => l.loop.Closing? && !l.reconnect.Dialing?
    case LoopHalt => l.loop.Select? && s.cancelled
    case Begin => l.reconnect.Start? || l.reconnect.Checked?
    case Dial(_) => l.reconnect.Dialing?
    case Check => l.reconnect.Ticking?
    case ReconnectHalt => l.reconnect.Ticking? && s.cancelled
    case Cancel => true
  }

  // --- the steps on messages ---

  function OptSeq(o: Option<Msg>): seq<Msg> { if o.Some? then [o.value] else [] }

  function Accept(m: Mail, r: Received): Mail {
    var o := MsgFor(NumberAll(m.received).sequence, r);
    m.(received := m.received + [r], sub := o,
       offered := if o.Some? then m.offered + multiset{o.value} else m.offered)
  }

  function DropHand(m: Mail): Mail { m.(hand := None, dropped := m.dropped + multiset(OptSeq(m.hand))) }

  function FailHand(m: Mail): Mail { m.(hand := None, errored := m.errored + multiset(OptSeq(m.hand))) }

  function SentHand(m: Mail): Mail { m.(hand := None, sent := m.sent + OptSeq(m.hand)) }

  ghost function MailStep(s: State, a: Action): Mail
  {
    var m := s.mail;
    match a
    case Receive(r) => Accept(m, r)
    case SubEnqueue => m.(sub := None, queue := m.queue + OptSeq(m.sub))
    case SubTimeOut => m.(sub := None, dropped := m.dropped + multiset(OptSeq(m.sub)))
    case SubReject => m.(sub := None, rejected := m.rejected + multiset(OptSeq(m.sub)))
    case Offer(x) => m.(others := m.others + multiset{x}, offered := m.offered + multiset{x})
    case Enqueue(x) => m.(others := m.others - multiset{x}, queue := m.queue + [x])
    case TimeOut(x) => m.(others := m.others - multiset{x}, dropped := m.dropped + multiset{x})
    case Reject(x) => m.(others := m.others - multiset{x}, rejected := m.rejected + multiset{x})
    case Take => if m.queue == [] then m else m.(hand := Some(m.queue[0]), queue := m.queue[1..])
    case WaitCap => DropHand(m)
    case Capture => if s.link.conn.None? then FailHand(m) else m
    case MarshalFails => FailHand(m)
    case WriteLength(k) => if k < 4 then FailHand(m) else m
    case WriteBody(k) => if m.hand.Some? && k < |m.hand.value.wire| then FailHand(m) else SentHand(m)
    case _ => m
  }

  // --- the steps on the connection ---

  function CloseIt(c: Connection): Connection { c.(open := false) }

  function CloseCurrent(l: Link): Link {
    if l.conn.Some? && l.conn.value < |l.conns| then
      l.(conn := None, conns := l.conns[l.conn.value := CloseIt(l.conns[l.conn.value])])
    else l.(conn := None)
  }

  // Bytes of message x go out on connection id; all of them or, torn, a part.
  function PutBytes(l: Link, id: nat, part: Bytes, torn: Option<Msg>): Link {
    if id >= |l.conns| then l
    else
      var c := l.conns[id];
      l.(conns := l.conns[id := c.(bytes := c.bytes + part, tail := c.tail + part, torn := torn)])
  }

  // The last byte of a frame has gone out.
  function Finish(l: Link, id: nat, x: Msg): Link {
    if id >= |l.conns| then l
    else l.(conns := l.conns[id := l.conns[id].(sent := l.conns[id].sent + [x], tail := [])])
  }

  function LengthStep(l: Link, id: nat, x: Msg, k: nat): Link
    requires k <= 4
  {
    var part := BigEndian(|x.wire|)[..k];
    if k < 4 then PutBytes(l, id, part, Some(x)).(loop := Failing) else PutBytes(l, id, part, None).(loop := Half(id))
  }

  function BodyStep(l: Link, id: nat, x: Msg, k: nat): Link
    requires k <= |x.wire|
  {
    if k < |x.wire| then PutBytes(l, id, x.wire[..k], Some(x)).(loop := Failing)
    else Finish(PutBytes(l, id, x.wire, None), id, x).(loop := Select)
  }

  function DialStep(l: Link, initial: bool, ok: bool): Link {
    if ok then
      l.(conn := Some(|l.conns|), conns := l.conns + [Connection([], true, [], [], None)], connected := true,
         reconnect := Ticking, attempts := if initial then l.attempts else 0, dials := l.dials + [true])
    else l.(reconnect := Ticking, attempts := l.attempts + 1, dials := l.dials + [false])
  }

  function ShouldRetry(c: Config, l: Link): bool { c.maxAttempts == 0 || l.attempts < c.maxAttempts }

  ghost function LinkStep(c: Config, s: State, a: Action): Link
    requires Enabled(c, s, a)
  {
    var m, l := s.mail, s.link;
    match a
    case Take => l.(loop := Waiting)
    case SeeConnected => l.(loop := Ready)
    case WaitCap => l.(loop := Select)
    case Capture => l.(loop := if l.conn.None? then Failing else Captured(l.conn.value))
    case MarshalFails => l.(loop := Failing)
    case WriteLength(k) => if m.hand.None? then l else LengthStep(l, l.loop.id, m.hand.value, k)
    case WriteBody(k) => BodyStep(l, l.loop.id, m.hand.value, k)
    case StoreFalse => l.(loop := Closing, connected := false)
    case CloseConnection => CloseCurrent(l).(loop := Select)
    case LoopHalt => l.(loop := Halted)
    case Begin => CloseCurrent(l).(reconnect := Dialing(l.reconnect.Start?))
    case Dial(ok) => DialStep(l, l.reconnect.initial, ok)
    case Check => if l.connected then l else l.(reconnect := if ShouldRetry(c, l) then Checked else GaveUp)
    case ReconnectHalt => l.(reconnect := Stopped)
    case _ => l
  }

  ghost function Step(c: Config, s: State, a: Action): State {
    if Enabled(c, s, a) then State(MailStep(s, a), LinkStep(c, s, a), s.cancelled || a.Cancel?) else s
  }

  ghost function Exec(c: Config, s: State, acts: seq<Action>): State
    decreases |acts|
  {
    if acts == [] then s else Exec(c, Step(c, s, acts[0]), acts[1..])
  }

  ghost predicate Reachable(c: Config, s: State) { exists acts :: s == Exec(c, Init, acts) }

  // --- messages: none is lost without being counted, and a job's stay in order ---

  // Every log message still on its way, and those sent, in order.
  function Line(m: Mail): seq<Msg> { m.sent + OptSeq(m.hand) + m.queue + OptSeq(m.sub) }

  ghost predicate Conserved(m: Mail) {
    m.offered == multiset(Line(m)) + m.others + (m.dropped + m.errored + m.rejected)
  }

  predicate SameJobLogs(x: Msg, y: Msg) { x.Log? && y.Log? && x.jobUuid == y.jobUuid }

  predicate Increasing(s: seq<Msg>) {
    forall i, j :: 0 <= i < j < |s| && SameJobLogs(s[i], s[j]) ==> s[i].sequence < s[j].sequence
  }

  predicate FromNumbering(m: Mail, x: Msg) {
    x.wire != [] && (x.Log? ==> x in NumberAll(m.received).msgs)
  }

  ghost predicate MailOk(m: Mail) {
    && Conserved(m)
    && Increasing(Line(m))
    && (forall x :: x in Line(m) ==> FromNumbering(m, x))
    && (forall x :: x in m.others ==> x.Telemetry? && x.wire != [])
  }

  lemma IncreasingWithout(a: seq<Msg>, x: Msg, b: seq<Msg>)
    requires Increasing(a + [x] + b)
    ensures Increasing(a + b)
  {
    var s, t := a + [x] + b, a + b;
    forall i, j | 0 <= i < j < |t| && SameJobLogs(t[i], t[j]) ensures t[i].sequence < t[j].sequence {
      var i', j' := if i < |a| then i else i + 1, if j < |a| then j else j + 1;
      assert t[i] == s[i'] && t[j] == s[j'];
    }
  }

  lemma IncreasingWith(a: seq<Msg>, x: Msg, b: seq<Msg>)
    requires Increasing(a + b) && x.Telemetry?
    ensures Increasing(a + [x] + b)
  {
    var s, t := a + [x] + b, a + b;
    forall i, j | 0 <= i < j < |s| && SameJobLogs(s[i], s[j]) ensures s[i].sequence < s[j].sequence {
      var i', j' := if i < |a| then i else i - 1, if j < |a| then j else j - 1;
      assert s[i] == t[i'] && s[j] == t[j'];
    }
  }

  lemma IncreasingThen(a: seq<Msg>, x: Msg)
    requires Increasing(a) && forall y :: y in a && SameJobLogs(y, x) ==> y.sequence < x.sequence
    ensures Increasing(a + [x])
  {
  }

  lemma Without(a: seq<Msg>, x: Msg, b: seq<Msg>)
    ensures multiset(a + [x] + b) == multiset(a + b) + multiset{x}
    ensures forall y :: y in a + [x] + b <==> y == x || y in a + b
  {
  }

  // Nothing a message's place depends on has changed.
  predicate SameBooks(m: Mail, m': Mail) {
    m.received == m'.received && m.others == m'.others && m.offered == m'.offered
  }

  // A message leaves the line and is accounted for.
  lemma LineLoses(m: Mail, m': Mail, a: seq<Msg>, x: Msg, b: seq<Msg>)
    requires MailOk(m) && Line(m) == a + [x] + b && Line(m') == a + b && SameBooks(m, m')
    requires m'.dropped + m'.errored + m'.rejected == m.dropped + m.errored + m.rejected + multiset{x}
    ensures MailOk(m')
  {
    hide NumberAll, Increasing, Line;
    Without(a, x, b);
    IncreasingWithout(a, x, b);
    forall y | y in Line(m') ensures FromNumbering(m', y) { assert FromNumbering(m, y); }
  }

  lemma LineStays(m: Mail, m': Mail)
    requires MailOk(m) && Line(m) == Line(m') && SameBooks(m, m')
    requires m'.dropped == m.dropped && m'.errored == m.errored && m'.rejected == m.rejected
    ensures MailOk(m')
  {
    hide NumberAll, Increasing, Line;
    forall y | y in Line(m') ensures FromNumbering(m', y) { assert FromNumbering(m, y); }
  }

  lemma HandLeaves(m: Mail, m': Mail)
    requires MailOk(m) && (m' == DropHand(m) || m' == FailHand(m))
    ensures MailOk(m')
  {
    hide MailOk;
    if m.hand.Some? {
      var x, b := m.hand.value, m.queue + OptSeq(m.sub);
      assert Line(m) == m.sent + [x] + b && Line(m') == m.sent + b;
      LineLoses(m, m', m.sent, x, b);
    } else {
      LineStays(m, m');
    }
  }

  lemma SubLeaves(m: Mail, m': Mail)
    requires MailOk(m)
    requires m' == m.(sub := None, dropped := m.dropped + multiset(OptSeq(m.sub)))
          || m' == m.(sub := None, rejected := m.rejected + multiset(OptSeq(m.sub)))
    ensures MailOk(m')
  {
    hide MailOk;
    if m.sub.Some? {
      var x, a := m.sub.value, m.sent + OptSeq(m.hand) + m.queue;
      assert Line(m) == a + [x] + [] && Line(m') == a + [];
      LineLoses(m, m', a, x, []);
    } else {
      LineStays(m, m');
    }
  }

  // The others' messages: one arrives, one is queued, one is given up.
  lemma OfferKeeps(m: Mail, x: Msg)
    requires MailOk(m) && x.Telemetry? && x.wire != []
    ensures MailOk(m.(others := m.others + multiset{x}, offered := m.offered + multiset{x}))
  {
    hide NumberAll, Increasing, Line;
    var m' := m.(others := m.others + multiset{x}, offered := m.offered + multiset{x});
    assert Line(m') == Line(m) by { SameLine(m, m'); }
    forall y | y in Line(m') ensures FromNumbering(m', y) { assert FromNumbering(m, y); }
    OneMore(multiset(Line(m)), m.others, m.dropped + m.errored + m.rejected, x);
  }

  lemma OneMore(a: multiset<Msg>, b: multiset<Msg>, c: multiset<Msg>, x: Msg)
    ensures a + b + c + multiset{x} == a + (b + multiset{x}) + c
  {
  }

  lemma LeaveKeeps(m: Mail, m': Mail, x: Msg)
    requires MailOk(m) && x in m.others && Line(m) == Line(m') && m.received == m'.received && m.offered == m'.offered
    requires m'.others == m.others - multiset{x}
    requires m'.dropped + m'.errored + m'.rejected == m.dropped + m.errored + m.rejected + multiset{x}
    ensures MailOk(m')
  {
    hide NumberAll, Increasing, Line;
    forall y | y in Line(m') ensures FromNumbering(m', y) { assert FromNumbering(m, y); }
    assert m.others == m'.others + multiset{x};
  }

  lemma EnqueueKeeps(m: Mail, x: Msg)
    requires MailOk(m) && x in m.others
    ensures MailOk(m.(others := m.others - multiset{x}, queue := m.queue + [x]))
  {
    var m' := m.(others := m.others - multiset{x}, queue := m.queue + [x]);
    var a, b := m.sent + OptSeq(m.hand) + m.queue, OptSeq(m.sub);
    assert Line(m) == a + b;
    assert Line(m') == a + [x] + b;
    LineGains(m, m', a, x, b);
  }

  lemma LineGains(m: Mail, m': Mail, a: seq<Msg>, x: Msg, b: seq<Msg>)
    requires MailOk(m) && x in m.others && Line(m) == a + b && Line(m') == a + [x] + b
    requires m.received == m'.received && m.offered == m'.offered && m'.others == m.others - multiset{x}
    requires m'.dropped == m.dropped && m'.errored == m.errored && m'.rejected == m.rejected
    ensures MailOk(m')
  {
    hide NumberAll, Increasing, Line;
    Without(a, x, b);
    IncreasingWith(a, x, b);
    forall y | y in Line(m') ensures FromNumbering(m', y) { assert y != x ==> FromNumbering(m, y); }
    assert m.others == m'.others + multiset{x};
  }

  lemma AcceptKeeps(m: Mail, r: Received)
    requires MailOk(m) && m.sub.None? && r.wire != []
    ensures MailOk(Accept(m, r))
  {
    var m' := Accept(m, r);
    var a := Line(m);
    assert Line(m') == a + OptSeq(m'.sub) by { assert a == m.sent + OptSeq(m.hand) + m.queue; }
    AcceptLine(m, m', r, a);
  }

  // A message on its way stays one of those numbered, and has a lower number than a new one of its job.
  lemma AcceptedLater(m: Mail, r: Received, y: Msg)
    requires FromNumbering(m, y)
    ensures FromNumbering(Accept(m, r), y)
    ensures var sub := Accept(m, r).sub; sub.Some? && SameJobLogs(y, sub.value) ==> y.sequence < sub.value.sequence
  {
    hide NumberAll;
    NumberThen(m.received, r);
    if y.Log? {
      NumberedMessage(m.received, y);
    }
  }

  lemma AcceptLine(m: Mail, m': Mail, r: Received, a: seq<Msg>)
    requires MailOk(m) && m' == Accept(m, r) && r.wire != [] && a == Line(m) && Line(m') == a + OptSeq(m'.sub)
    ensures MailOk(m')
  {
    hide NumberAll, Increasing, Line;
    NumberThen(m.received, r);
    forall y | y in a ensures FromNumbering(m', y) && (m'.sub.Some? && SameJobLogs(y, m'.sub.value) ==> y.sequence < m'.sub.value.sequence) {
      assert FromNumbering(m, y);
      AcceptedLater(m, r, y);
    }
    if m'.sub.Some? {
      IncreasingThen(a, m'.sub.value);
      assert multiset(a + [m'.sub.value]) == multiset(a) + multiset{m'.sub.value};
    } else {
      assert a + [] == a;
    }
  }

  lemma TakeKeeps(m: Mail)
    requires MailOk(m) && m.hand.None? && m.queue != []
    ensures MailOk(m.(hand := Some(m.queue[0]), queue := m.queue[1..]))
  {
    hide MailOk;
    var m' := m.(hand := Some(m.queue[0]), queue := m.queue[1..]);
    assert [m.queue[0]] + m.queue[1..] == m.queue;
    assert Line(m') == Line(m);
    LineStays(m, m');
  }

  lemma SentKeeps(m: Mail)
    requires MailOk(m)
    ensures MailOk(SentHand(m))
  {
    hide MailOk;
    assert Line(SentHand(m)) == Line(m);
    LineStays(m, SentHand(m));
  }

  lemma SubEnqueueKeeps(m: Mail)
    requires MailOk(m)
    ensures MailOk(m.(sub := None, queue := m.queue + OptSeq(m.sub)))
  {
    hide MailOk;
    var m' := m.(sub := None, queue := m.queue + OptSeq(m.sub));
    assert Line(m') == Line(m);
    LineStays(m, m');
  }

  lemma MailKept(c: Config, s: State, a: Action)
    requires MailOk(s.mail) && Enabled(c, s, a) && (s.link.loop.Select? ==> s.mail.hand.None?)
    ensures MailOk(MailStep(s, a))
  {
    hide MailOk, Line, Accept;
    var m, m' := s.mail, MailStep(s, a);
    match a {
      case Receive(r) => AcceptKeeps(m, r);
      case SubEnqueue => SubEnqueueKeeps(m);
      case SubTimeOut => SubLeaves(m, m');
      case SubReject => SubLeaves(m, m');
      case Offer(x) => OfferKeeps(m, x);
      case Enqueue(x) => EnqueueKeeps(m, x);
      case TimeOut(x) => assert Line(m') == Line(m) by { SameLine(m, m'); } LeaveKeeps(m, m', x);
      case Reject(x) => assert Line(m') == Line(m) by { SameLine(m, m'); } LeaveKeeps(m, m', x);
      case Take => TakeKeeps(m);
      case WaitCap => HandLeaves(m, m');
      case Capture => if s.link.conn.None? { HandLeaves(m, m'); }
      case MarshalFails => HandLeaves(m, m');
      case WriteLength(k) => if k < 4 { HandLeaves(m, m'); }
      case WriteBody(k) => if k < |m.hand.value.wire| { HandLeaves(m, m'); } else { SentKeeps(m); }
      case _ =>
    }
  }

  lemma SameLine(m: Mail, m': Mail)
    requires m.sent == m'.sent && m.hand == m'.hand && m.queue == m'.queue && m.sub == m'.sub
    ensures Line(m) == Line(m')
  {
  }

  // --- connections: whole frames, and nothing after an error ---

  function Wires(ms: seq<Msg>): seq<Bytes> {
    if ms == [] then [] else Wires(ms[..|ms| - 1]) + [ms[|ms| - 1].wire]
  }

  function AllSent(conns: seq<Connection>): seq<Msg> {
    if conns == [] then [] else AllSent(conns[..|conns| - 1]) + conns[|conns| - 1].sent
  }

  predicate Holds(loop: Loop) { loop.Waiting? || loop.Ready? || loop.Captured? || loop.Half? }

  // What is on a connection beyond whole frames.
  predicate TailOk(k: Connection, partial: Option<Msg>) {
    match k.torn
    case Some(x) => StrictPrefix(k.tail, Frame(x.wire))
    case None => k.tail == if partial.Some? then BigEndian(|partial.value.wire|) else []
  }

  function Partial(s: State, id: nat): Option<Msg> { if s.link.loop == Half(id) then s.mail.hand else None }

  predicate BytesOk(k: Connection) { k.bytes == Frames(Wires(k.sent)) + k.tail }

  // connect runs only while writeLoop is not between seeing connected and reporting an error.
  predicate PhasesOk(s: State) {
    var l := s.link;
    && (s.mail.hand.Some? <==> Holds(l.loop))
    && (l.loop.Ready? || l.loop.Captured? || l.loop.Half? || l.loop.Failing? ==> l.connected)
    && (l.reconnect.Start? || l.reconnect.Checked? || l.reconnect.Dialing? ==> !l.connected)
    && (l.loop.Captured? || l.loop.Half? ==> l.conn == Some(l.loop.id))
  }

  predicate ConnsOk(l: Link) {
    && (l.conn.Some? ==> l.conn.value == |l.conns| - 1)
    && (forall id :: 0 <= id < |l.conns| ==> (l.conns[id].open <==> l.conn == Some(id)))
    && (l.reconnect.Dialing? ==> l.conn.None?)
    && (forall id :: 0 <= id < |l.conns| && l.conns[id].torn.Some? && l.conns[id].open ==> l.loop.Failing? || l.loop.Closing?)
  }

  predicate StreamsOk(s: State) {
    forall id :: 0 <= id < |s.link.conns| ==> BytesOk(s.link.conns[id]) && TailOk(s.link.conns[id], Partial(s, id))
  }

  ghost predicate Inv(c: Config, s: State) {
    && MailOk(s.mail) && PhasesOk(s) && ConnsOk(s.link) && StreamsOk(s)
    && s.mail.sent == AllSent(s.link.conns)
    && DialsOk(c, s.link)
  }

  // The dials that failed since the last that did not.
  function Failures(dials: seq<bool>): nat {
    if dials == [] || dials[|dials| - 1] then 0 else 1 + Failures(dials[..|dials| - 1])
  }

  predicate DialsOk(c: Config, l: Link) {
    && l.attempts == Failures(l.dials)
    && (l.reconnect.Start? || (l.reconnect.Dialing? && l.reconnect.initial) ==> l.dials == [])
    && (l.reconnect.Checked? || (l.reconnect.Dialing? && !l.reconnect.initial) ==> ShouldRetry(c, l))
    && (c.maxAttempts > 0 ==> l.attempts <= c.maxAttempts)
    && (l.reconnect.GaveUp? ==> c.maxAttempts > 0 && l.attempts == c.maxAttempts)
  }

  lemma PhasesKept(c: Config, s: State, a: Action)
    requires PhasesOk(s) && ConnsOk(s.link) && Enabled(c, s, a)
    ensures PhasesOk(Step(c, s, a))
  {
    hide NumberAll, Accept, BigEndian;
    if !a.Capture? && !a.WriteLength? && !a.WriteBody? && !a.Take? {
      PlainPhases(c, s, a);
    }
  }

  predicate OnMailOnly(a: Action) {
    a.Receive? || a.SubEnqueue? || a.SubTimeOut? || a.SubReject? || a.Offer? || a.Enqueue? || a.TimeOut? || a.Reject? || a.Cancel?
  }

  lemma MailOnly(c: Config, s: State, a: Action)
    requires Enabled(c, s, a) && OnMailOnly(a)
    ensures MailStep(s, a).hand == s.mail.hand && LinkStep(c, s, a) == s.link
  {
  }

  lemma PlainPhases(c: Config, s: State, a: Action)
    requires PhasesOk(s) && ConnsOk(s.link) && Enabled(c, s, a)
    requires !a.Capture? && !a.WriteLength? && !a.WriteBody? && !a.Take?
    ensures PhasesOk(Step(c, s, a))
  {
    hide NumberAll, BigEndian;
    if OnMailOnly(a) {
      hide Enabled, MailStep, LinkStep;
      MailOnly(c, s, a);
    } else {
      LinkPhases(c, s, a);
    }
  }

  lemma LinkPhases(c: Config, s: State, a: Action)
    requires PhasesOk(s) && ConnsOk(s.link) && Enabled(c, s, a) && !OnMailOnly(a)
    requires !a.Capture? && !a.WriteLength? && !a.WriteBody? && !a.Take?
    ensures PhasesOk(Step(c, s, a))
  {
    hide NumberAll, BigEndian, Accept;
  }

  lemma ConnsKept(c: Config, s: State, a: Action)
    requires PhasesOk(s) && ConnsOk(s.link) && Enabled(c, s, a)
    ensures ConnsOk(LinkStep(c, s, a))
  {
    hide NumberAll;
  }

  lemma DialsKept(c: Config, s: State, a: Action)
    requires DialsOk(c, s.link) && Enabled(c, s, a)
    ensures DialsOk(c, LinkStep(c, s, a))
  {
    if a.Begin? || a.Dial? || a.Check? || a.ReconnectHalt? {
      ReconnectDials(c, s, a);
    } else {
      OthersDoNotDial(c, s, a);
    }
  }

  lemma OthersDoNotDial(c: Config, s: State, a: Action)
    requires Enabled(c, s, a) && !a.Begin? && !a.Dial? && !a.Check? && !a.ReconnectHalt?
    ensures var l, l' := s.link, LinkStep(c, s, a);
            l'.attempts == l.attempts && l'.dials == l.dials && l'.reconnect == l.reconnect
  {
    hide BigEndian;
  }

  lemma ReconnectDials(c: Config, s: State, a: Action)
    requires DialsOk(c, s.link) && Enabled(c, s, a) && (a.Begin? || a.Dial? || a.Check? || a.ReconnectHalt?)
    ensures DialsOk(c, LinkStep(c, s, a))
  {
    if a.Dial? {
      assert (s.link.dials + [a.ok])[..|s.link.dials|] == s.link.dials;
    }
  }

  lemma StrictPart(a: Bytes, b: Bytes, k: nat)
    requires k < |b|
    ensures StrictPrefix(a + b[..k], a + b)
  {
    assert (a + b)[..|a| + k] == a + b[..k];
  }

  lemma WiresThen(ms: seq<Msg>, x: Msg)
    ensures Wires(ms + [x]) == Wires(ms) + [x.wire]
  {
    assert (ms + [x])[..|ms|] == ms;
  }

  lemma LengthStream(k0: Connection, x: Msg, k: nat, l: Link, id: nat)
    requires id < |l.conns| && l.conns[id] == k0 && BytesOk(k0) && k0.tail == [] && k <= 4
    ensures var l' := LengthStep(l, id, x, k);
            |l'.conns| == |l.conns| && BytesOk(l'.conns[id]) && TailOk(l'.conns[id], Some(x))
            && forall j :: 0 <= j < |l.conns| && j != id ==> l'.conns[j] == l.conns[j]
  {
    hide BigEndian, Frames, Wires;
    var part := BigEndian(|x.wire|)[..k];
    assert k0.bytes + part == Frames(Wires(k0.sent)) + part;
    if k < 4 {
      assert part == Frame(x.wire)[..k];
    } else {
      assert part == BigEndian(|x.wire|);
    }
  }

  lemma BodyStream(k0: Connection, x: Msg, k: nat, l: Link, id: nat)
    requires id < |l.conns| && l.conns[id] == k0 && BytesOk(k0) && k0.tail == BigEndian(|x.wire|) && k <= |x.wire|
    ensures var l' := BodyStep(l, id, x, k);
            |l'.conns| == |l.conns| && BytesOk(l'.conns[id]) && TailOk(l'.conns[id], None)
            && forall j :: 0 <= j < |l.conns| && j != id ==> l'.conns[j] == l.conns[j]
  {
    hide BigEndian, Frames, Wires;
    var f := Frames(Wires(k0.sent));
    Associates(f, k0.tail, x.wire[..k]);
    if k < |x.wire| {
      StrictPart(k0.tail, x.wire, k);
    } else {
      assert x.wire[..k] == x.wire;
      WiresThen(k0.sent, x);
      FramesThen(Wires(k0.sent), x.wire);
      Associates(f, k0.tail, x.wire);
      var g := Frames(Wires(k0.sent + [x]));
      assert g == f + Frame(x.wire);
      assert k0.bytes + x.wire == g;
      assert g + [] == g;
    }
  }

  // The connection writeLoop writes to is open and has no torn frame.
  lemma WritesToOpen(s: State)
    requires PhasesOk(s) && ConnsOk(s.link) && (s.link.loop.Captured? || s.link.loop.Half?)
    ensures s.link.loop.id < |s.link.conns| && s.link.conns[s.link.loop.id].open && s.link.conns[s.link.loop.id].torn.None?
    ensures s.mail.hand.Some?
  {
    assert s.link.conns[s.link.loop.id].open;
  }

  lemma StreamsKept(c: Config, s: State, a: Action)
    requires PhasesOk(s) && ConnsOk(s.link) && StreamsOk(s) && Enabled(c, s, a)
    ensures StreamsOk(Step(c, s, a))
  {
    if a.WriteLength? {
      LengthStreams(c, s, a.k);
    } else if a.WriteBody? {
      BodyStreams(c, s, a.k);
    } else {
      OtherStreams(c, s, a);
    }
  }

  lemma LengthStreams(c: Config, s: State, k: nat)
    requires PhasesOk(s) && ConnsOk(s.link) && StreamsOk(s) && Enabled(c, s, WriteLength(k))
    ensures StreamsOk(Step(c, s, WriteLength(k)))
  {
    hide LengthStep, BytesOk, FailHand;
    var s', id := Step(c, s, WriteLength(k)), s.link.loop.id;
    var x := s.mail.hand.value;
    WritesToOpen(s);
    assert TailOk(s.link.conns[id], None) && BytesOk(s.link.conns[id]);
    LengthStream(s.link.conns[id], x, k, s.link, id);
    LengthPc(s.link, id, x, k);
    forall j | 0 <= j < |s'.link.conns| ensures BytesOk(s'.link.conns[j]) && TailOk(s'.link.conns[j], Partial(s', j)) {
      if j != id { assert TailOk(s.link.conns[j], Partial(s, j)); }
    }
  }

  lemma LengthPc(l: Link, id: nat, x: Msg, k: nat)
    requires k <= 4 && id < |l.conns|
    ensures LengthStep(l, id, x, k).loop == if k < 4 then Failing else Half(id)
    ensures LengthStep(l, id, x, k).conns[id].torn == if k < 4 then Some(x) else None
  {
  }

  lemma BodyPc(l: Link, id: nat, x: Msg, k: nat)
    requires k <= |x.wire|
    ensures var l' := BodyStep(l, id, x, k).loop; l'.Failing? || l'.Select?
  {
  }

  lemma BodyStreams(c: Config, s: State, k: nat)
    requires PhasesOk(s) && ConnsOk(s.link) && StreamsOk(s) && Enabled(c, s, WriteBody(k))
    ensures StreamsOk(Step(c, s, WriteBody(k)))
  {
    hide BodyStep, BytesOk, FailHand, SentHand;
    var s', id := Step(c, s, WriteBody(k)), s.link.loop.id;
    var x := s.mail.hand.value;
    WritesToOpen(s);
    assert TailOk(s.link.conns[id], Some(x)) && BytesOk(s.link.conns[id]);
    BodyStream(s.link.conns[id], x, k, s.link, id);
    BodyPc(s.link, id, x, k);
    forall j | 0 <= j < |s'.link.conns| ensures BytesOk(s'.link.conns[j]) && TailOk(s'.link.conns[j], Partial(s', j)) {
      assert Partial(s', j) == None;
      if j != id { assert TailOk(s.link.conns[j], Partial(s, j)); }
    }
  }

  // What a connection holds, apart from being open, is changed by writing only.
  predicate SameContent(k: Connection, k': Connection) {
    k'.bytes == k.bytes && k'.sent == k.sent && k'.tail == k.tail && k'.torn == k.torn
  }

  lemma OnlyWritesWrite(c: Config, s: State, a: Action)
    requires PhasesOk(s) && Enabled(c, s, a) && !a.WriteLength? && !a.WriteBody?
    ensures var l, l' := s.link, Step(c, s, a).link;
            && |l.conns| <= |l'.conns|
            && (forall j :: 0 <= j < |l.conns| ==> SameContent(l.conns[j], l'.conns[j]))
            && (forall j :: |l.conns| <= j < |l'.conns| ==> l'.conns[j] == Connection([], true, [], [], None))
            && (forall j :: Partial(Step(c, s, a), j) == Partial(s, j))
  {
    hide NumberAll, BigEndian, LengthStep, BodyStep;
  }

  lemma OtherStreams(c: Config, s: State, a: Action)
    requires PhasesOk(s) && ConnsOk(s.link) && StreamsOk(s) && Enabled(c, s, a) && !a.WriteLength? && !a.WriteBody?
    ensures StreamsOk(Step(c, s, a))
  {
    hide Step, Enabled, Partial, BytesOk, PhasesOk, ConnsOk;
    var s' := Step(c, s, a);
    OnlyWritesWrite(c, s, a);
    forall j | 0 <= j < |s'.link.conns| ensures BytesOk(s'.link.conns[j]) && TailOk(s'.link.conns[j], Partial(s', j)) {
      if j < |s.link.conns| {
        assert SameContent(s.link.conns[j], s'.link.conns[j]);
        assert BytesOk(s.link.conns[j]) && TailOk(s.link.conns[j], Partial(s, j));
        SameBytes(s.link.conns[j], s'.link.conns[j]);
      } else {
        NoPartial(s, j);
        NewBytes(s'.link.conns[j]);
      }
    }
  }

  lemma SameBytes(k: Connection, k': Connection)
    requires SameContent(k, k') && BytesOk(k)
    ensures BytesOk(k')
  {
  }

  lemma NewBytes(k: Connection)
    requires k == Connection([], true, [], [], None)
    ensures BytesOk(k)
  {
  }

  lemma NoPartial(s: State, j: nat)
    requires PhasesOk(s) && ConnsOk(s.link) && j >= |s.link.conns|
    ensures Partial(s, j) == None
  {
  }

  // --- what was sent ---

  lemma {:induction false} AllSentSame(a: seq<Connection>, b: seq<Connection>)
    requires |a| <= |b| && forall j :: 0 <= j < |a| ==> a[j].sent == b[j].sent
    requires forall j :: |a| <= j < |b| ==> b[j].sent == []
    ensures AllSent(a) == AllSent(b)
    decreases |b|
  {
    if |b| > |a| {
      AllSentSame(a, b[..|b| - 1]);
    } else if |b| > 0 {
      AllSentSame(a[..|a| - 1], b[..|b| - 1]);
    }
  }

  lemma SentKept(c: Config, s: State, a: Action)
    requires PhasesOk(s) && ConnsOk(s.link) && Enabled(c, s, a) && s.mail.sent == AllSent(s.link.conns)
    ensures Step(c, s, a).mail.sent == AllSent(Step(c, s, a).link.conns)
  {
    if a.WriteBody? {
      BodySent(c, s, a.k);
    } else {
      OtherSent(c, s, a);
    }
  }

  lemma BodySent(c: Config, s: State, k: nat)
    requires PhasesOk(s) && ConnsOk(s.link) && Enabled(c, s, WriteBody(k)) && s.mail.sent == AllSent(s.link.conns)
    ensures var s' := Step(c, s, WriteBody(k)); s'.mail.sent == AllSent(s'.link.conns)
  {
    hide BigEndian;
    WritesToOpen(s);
    var s' := Step(c, s, WriteBody(k));
    var n := |s.link.conns| - 1;
    assert s'.link.conns[..n] == s.link.conns[..n];
    if k == |s.mail.hand.value.wire| {
      assert s'.link.conns[n].sent == s.link.conns[n].sent + [s.mail.hand.value];
    } else {
      AllSentSame(s.link.conns, s'.link.conns);
    }
  }

  lemma OtherSent(c: Config, s: State, a: Action)
    requires PhasesOk(s) && ConnsOk(s.link) && Enabled(c, s, a) && s.mail.sent == AllSent(s.link.conns) && !a.WriteBody?
    ensures Step(c, s, a).mail.sent == AllSent(Step(c, s, a).link.conns)
  {
    hide BigEndian, NumberAll, AllSent, MailStep, PhasesOk, ConnsOk;
    var s' := Step(c, s, a);
    assert s'.mail.sent == s.mail.sent by { SentStays(s, a); }
    if !a.WriteLength? {
      hide Step;
      OnlyWritesWrite(c, s, a);
      assert forall j :: 0 <= j < |s.link.conns| ==> SameContent(s.link.conns[j], s'.link.conns[j]);
    }
    AllSentSame(s.link.conns, s'.link.conns);
  }

  lemma SentStays(s: State, a: Action)
    requires !a.WriteBody?
    ensures MailStep(s, a).sent == s.mail.sent
  {
  }

  // --- runs ---

  lemma InvInitially(c: Config)
    ensures Inv(c, Init)
  {
  }

  lemma StepKeepsInv(c: Config, s: State, a: Action)
    requires Inv(c, s)
    ensures Inv(c, Step(c, s, a))
  {
    if Enabled(c, s, a) {
      hide Enabled, MailOk, ConnsOk, StreamsOk, AllSent, DialsOk, MailStep, LinkStep;
      MailKept(c, s, a);
      PhasesKept(c, s, a);
      ConnsKept(c, s, a);
      StreamsKept(c, s, a);
      SentKept(c, s, a);
      DialsKept(c, s, a);
    }
  }

  lemma {:induction false} RunKeepsInv(c: Config, s: State, acts: seq<Action>)
    requires Inv(c, s)
    ensures Inv(c, Exec(c, s, acts))
    decreases |acts|
  {
    hide Inv;
    if acts != [] {
      StepKeepsInv(c, s, acts[0]);
      RunKeepsInv(c, Step(c, s, acts[0]), acts[1..]);
    }
  }

  lemma ReachableInv(c: Config, s: State)
    requires Reachable(c, s)
    ensures Inv(c, s)
  {
    hide Inv;
    var acts :| s == Exec(c, Init, acts);
    InvInitially(c);
    RunKeepsInv(c, Init, acts);
  }

  // --- the theorems ---

  /** Every message offered is, in every reachable state, in exactly one place: sent, in hand,
      queued, with a producer still inside write, or counted as dropped, failed or refused. */
  lemma NothingUncounted(c: Config, s: State)
    requires Reachable(c, s)
    ensures var m := s.mail;
            m.offered == multiset(m.sent + OptSeq(m.hand) + m.queue + OptSeq(m.sub)) + m.others + (m.dropped + m.errored + m.rejected)
  {
    hide Reachable;
    ReachableInv(c, s);
  }

  /** Every log message written, on whatever connection, carries under its number i the i-th
      non-empty chunk received for its job, in the encoding it came with. */
  lemma SentLogsRefineReceived(c: Config, s: State, i: nat)
    requires Reachable(c, s) && i < |s.mail.sent| && s.mail.sent[i].Log?
    ensures s.mail.sent == AllSent(s.link.conns)
    ensures var x := s.mail.sent[i];
            var events := EventsOf(s.mail.received, x.jobUuid);
            x.sequence < |events| && Carries(x, x.jobUuid, x.sequence, events[x.sequence])
  {
    hide Reachable, NumberAll;
    ReachableInv(c, s);
    var l := Line(s.mail);
    assert l[i] == s.mail.sent[i];
    assert FromNumbering(s.mail, l[i]);
    NumberedMessage(s.mail.received, l[i]);
  }

  /** The log messages written for a job, over all connections, carry strictly increasing numbers. */
  lemma SentLogsInOrder(c: Config, s: State, i: nat, j: nat)
    requires Reachable(c, s) && i < j < |s.mail.sent| && SameJobLogs(s.mail.sent[i], s.mail.sent[j])
    ensures s.mail.sent[i].sequence < s.mail.sent[j].sequence
  {
    hide Reachable, NumberAll;
    ReachableInv(c, s);
    var l := Line(s.mail);
    assert l[i] == s.mail.sent[i] && l[j] == s.mail.sent[j];
  }

  // The message a truncated frame, if there is one, is of.
  function Unfinished(s: State, id: nat): Option<Msg>
    requires id < |s.link.conns|
  {
    if s.link.conns[id].torn.Some? then s.link.conns[id].torn else Partial(s, id)
  }

  /** What the persist service reads on a connection is exactly the messages sent on it, in order,
      and at most a truncated frame, as long as they are within its limit. */
  lemma ReaderGetsWhatWasSent(c: Config, s: State, id: nat, max: nat)
    requires Reachable(c, s) && id < |s.link.conns|
    requires forall x :: x in s.link.conns[id].sent ==> Fits(max, x.wire)
    requires Unfinished(s, id).Some? ==> Fits(max, Unfinished(s, id).value.wire)
    ensures Decode(max, s.link.conns[id].bytes) == Decoded(Wires(s.link.conns[id].sent), s.link.conns[id].tail, false)
  {
    hide Reachable, BigEndian, Frames;
    ReachableInv(c, s);
    var k, u := s.link.conns[id], Unfinished(s, id);
    assert BytesOk(k) && TailOk(k, Partial(s, id));
    WiresMembers(k.sent);
    if k.torn.None? && u.Some? {
      assert u.value in Line(s.mail);
      assert FromNumbering(s.mail, u.value);
      StrictPart(BigEndian(|u.value.wire|), u.value.wire, 0);
      assert k.tail + u.value.wire[..0] == k.tail;
    }
    DecodeFrames(max, Wires(k.sent), if u.Some? then u.value.wire else [], k.tail);
  }

  lemma {:induction false} WiresMembers(ms: seq<Msg>)
    ensures forall w :: w in Wires(ms) ==> exists x :: x in ms && x.wire == w
  {
    if ms != [] {
      WiresMembers(ms[..|ms| - 1]);
    }
  }

  /** A connection on which a write failed is never written to again. */
  lemma {:induction false} TornIsFinal(c: Config, s: State, acts: seq<Action>, id: nat)
    requires Inv(c, s) && id < |s.link.conns| && s.link.conns[id].torn.Some?
    ensures id < |Exec(c, s, acts).link.conns| && SameContent(s.link.conns[id], Exec(c, s, acts).link.conns[id])
    decreases |acts|
  {
    if acts != [] {
      hide Inv;
      TornStep(c, s, acts[0], id);
      StepKeepsInv(c, s, acts[0]);
      TornIsFinal(c, Step(c, s, acts[0]), acts[1..], id);
    }
  }

  lemma TornStep(c: Config, s: State, a: Action, id: nat)
    requires Inv(c, s) && id < |s.link.conns| && s.link.conns[id].torn.Some?
    ensures id < |Step(c, s, a).link.conns| && SameContent(s.link.conns[id], Step(c, s, a).link.conns[id])
  {
    hide NumberAll, BigEndian, MailOk, StreamsOk, AllSent;
    if Enabled(c, s, a) {
      if a.WriteLength? || a.WriteBody? {
        WritesToOpen(s);
      } else {
        hide Step;
        OnlyWritesWrite(c, s, a);
      }
    }
  }

  /** connect never runs while a message is being sent, so a message is only ever written to the
      one open connection. */
  lemma ConnectNeverOverlapsSend(c: Config, s: State)
    requires Reachable(c, s) && (s.link.loop.Captured? || s.link.loop.Half?)
    ensures !s.link.reconnect.Dialing? && !s.link.reconnect.Checked?
    ensures var id := s.link.loop.id;
            && id < |s.link.conns| && s.link.conns[id].torn.None?
            && forall j :: 0 <= j < |s.link.conns| ==> (s.link.conns[j].open <==> j == id)
  {
    hide Reachable, MailOk, StreamsOk;
    ReachableInv(c, s);
    WritesToOpen(s);
  }

  /** Reconnecting is given up only with a limit set, and then after exactly that many dials in a
      row have failed. */
  lemma GivesUpAfterLimit(c: Config, s: State)
    requires Reachable(c, s)
    ensures c.maxAttempts > 0 ==> Failures(s.link.dials) <= c.maxAttempts
    ensures s.link.reconnect.GaveUp? ==> c.maxAttempts > 0 && Failures(s.link.dials) == c.maxAttempts
  {
    hide Reachable, MailOk, StreamsOk;
    ReachableInv(c, s);
  }

  lemma {:induction false} ExecThen(c: Config, s: State, acts: seq<Action>, a: Action)
    ensures Exec(c, s, acts + [a]) == Step(c, Exec(c, s, acts), a)
    decreases |acts|
  {
    hide Step;
    if acts == [] {
      assert Exec(c, Step(c, s, a), []) == Step(c, s, a);
    } else {
      assert (acts + [a])[1..] == acts[1..] + [a];
      ExecThen(c, Step(c, s, acts[0]), acts[1..], a);
    }
  }

  lemma ReachableStep(c: Config, s: State, a: Action) returns (s': State)
    requires Reachable(c, s)
    ensures Reachable(c, s') && s' == Step(c, s, a)
  {
    hide Step;
    var acts :| s == Exec(c, Init, acts);
    ExecThen(c, Init, acts, a);
    s' := Step(c, s, a);
  }

  lemma InitReachable(c: Config)
    ensures Reachable(c, Init)
  {
    assert Exec(c, Init, []) == Init;
  }

  // The stages of the run below: the first connection is made, a message is queued, writeLoop is
  // about to send it, the write fails, and reconnectLoop connects again.
  lemma FirstDial(c: Config) returns (s: State)
    ensures Reachable(c, s) && s.mail == Init.mail
    ensures s.link == Link(Select, Some(0), true, [Connection([], true, [], [], None)], Ticking, 0, [true])
  {
    hide Reachable, Exec, NumberAll;
    InitReachable(c);
    s := ReachableStep(c, Init, Begin);
    assert s == State(Init.mail, Init.link.(reconnect := Dialing(true)), false);
    s := ReachableStep(c, s, Dial(true));
    assert [] + [true] == [true];
    assert [] + [Connection([], true, [], [], None)] == [Connection([], true, [], [], None)];
  }

  lemma Queued(c: Config, s: State, x: Msg) returns (s': State)
    requires Reachable(c, s) && s.mail == Init.mail && c.capacity > 0 && x.Telemetry? && x.wire != []
    ensures Reachable(c, s') && s'.link == s.link && s'.mail.queue == [x] && s'.mail.hand == None
  {
    hide Reachable, Exec, NumberAll;
    s' := ReachableStep(c, s, Offer(x));
    assert x in s'.mail.others;
    s' := ReachableStep(c, s', Enqueue(x));
  }

  lemma AboutToSend(c: Config, s: State, x: Msg) returns (s': State)
    requires Reachable(c, s) && s.mail.queue == [x] && s.link.loop.Select? && s.link.connected
    requires s.link.conn == Some(0) && s.link.reconnect.Ticking?
    ensures Reachable(c, s') && s'.mail.hand == Some(x) && s'.link == s.link.(loop := Captured(0))
  {
    hide Reachable, Exec, NumberAll;
    s' := ReachableStep(c, s, Take);
    s' := ReachableStep(c, s', SeeConnected);
    s' := ReachableStep(c, s', Capture);
  }

  lemma SendFails(c: Config, s: State) returns (s': State)
    requires Reachable(c, s) && s.mail.hand.Some? && s.link.loop.Captured?
    ensures Reachable(c, s') && s'.link.loop.Closing? && !s'.link.connected
    ensures s'.link.reconnect == s.link.reconnect && s'.link.attempts == s.link.attempts
  {
    hide Reachable, Exec, NumberAll, BigEndian;
    s' := ReachableStep(c, s, WriteLength(0));
    s' := ReachableStep(c, s', StoreFalse);
  }

  lemma Reconnects(c: Config, s: State) returns (s': State)
    requires Reachable(c, s) && s.link.loop.Closing? && !s.link.connected && s.link.reconnect.Ticking? && s.link.attempts == 0
    ensures Reachable(c, s') && s'.link.loop.Closing? && s'.link.connected && s'.link.conn.Some? && s'.link.reconnect.Ticking?
  {
    hide Reachable, Exec, NumberAll;
    s' := ReachableStep(c, s, Check);
    s' := ReachableStep(c, s', Begin);
    s' := ReachableStep(c, s', Dial(true));
  }

  // connected does not imply a connection: writeLoop's late closeConnection, after an error, can
  // close the connection that reconnectLoop has just made.
  lemma ConnectedWithoutConnection(c: Config, x: Msg)
    requires c.capacity > 0 && x.Telemetry? && x.wire != []
    ensures exists s :: Reachable(c, s) && s.link.loop.Select? && Stranded(s)
  {
    hide Reachable, Exec, NumberAll;
    var s := FirstDial(c);
    s := Queued(c, s, x);
    s := AboutToSend(c, s, x);
    s := SendFails(c, s);
    s := Reconnects(c, s);
    s := ReachableStep(c, s, CloseConnection);
  }

  // The flag is set and there is no connection.
  predicate Stranded(s: State) { s.link.connected && s.link.conn.None? }

  // closeConnection, called after the flag was cleared, finds it set again.
  ghost predicate LateClose(c: Config, s: State, a: Action) {
    a.CloseConnection? && Enabled(c, s, a) && s.link.connected
  }

  /** connected stops implying a connection with one step only: a closeConnection that finds the
      flag set again. */
  lemma StrandedExactlyWhen(c: Config, s: State, a: Action)
    requires Reachable(c, s) && !Stranded(s)
    ensures Stranded(Step(c, s, a)) <==> LateClose(c, s, a)
  {
    hide Reachable, MailOk, StreamsOk, NumberAll, BigEndian;
    ReachableInv(c, s);
    LinkOnly(c, s, a);
  }

  /** And it implies one again with one step only: writeLoop clearing the flag after the error
      that the missing connection causes. */
  lemma StrandedUntilCleared(c: Config, s: State, a: Action)
    requires Reachable(c, s) && Stranded(s)
    ensures Stranded(Step(c, s, a)) <==> !(a.StoreFalse? && Enabled(c, s, a))
  {
    hide Reachable, MailOk, StreamsOk, NumberAll, BigEndian;
    ReachableInv(c, s);
    LinkOnly(c, s, a);
  }

  lemma LinkOnly(c: Config, s: State, a: Action)
    ensures Step(c, s, a).link == if Enabled(c, s, a) then LinkStep(c, s, a) else s.link
  {
  }

  /** Over whole runs: the flag is set without a connection if and only if there was such a late
      close and the flag has not been cleared since. */
  lemma {:induction false} StrandedRuns(c: Config, acts: seq<Action>)
    ensures Stranded(Exec(c, Init, acts)) <==>
              exists k {:trigger acts[k]} :: 0 <= k < |acts| && LateClose(c, Exec(c, Init, acts[..k]), acts[k])
                && forall i {:trigger acts[i]} :: k < i < |acts| ==> !(acts[i].StoreFalse? && Enabled(c, Exec(c, Init, acts[..i]), acts[i]))
    decreases |acts|
  {
    hide Step, Enabled;
    if acts == [] {
      assert Exec(c, Init, acts) == Init;
    } else {
      var n := |acts| - 1;
      var init, a := acts[..n], acts[n];
      var s := Exec(c, Init, init);
      StrandedRuns(c, init);
      assert acts == init + [a];
      ExecThen(c, Init, init, a);
      assert Reachable(c, s);
      if Stranded(s) {
        StrandedUntilCleared(c, s, a);
      } else {
        StrandedExactlyWhen(c, s, a);
      }
      assert forall k :: 0 <= k < n ==> init[..k] == acts[..k] && init[k] == acts[k];
    }
  }

  /** What that state costs: the next message taken fails without a byte written, and no other
      does before the flag is cleared. */
  lemma StrandedCosts(c: Config, s: State, a: Action)
    requires Reachable(c, s) && Stranded(s)
    ensures var s' := Step(c, s, a);
            s'.link.conns == s.link.conns && s'.mail.sent == s.mail.sent
    ensures var s' := Step(c, s, a);
            if a.Capture? && Enabled(c, s, a) then
              s.mail.hand.Some? && s'.mail.errored == s.mail.errored + multiset{s.mail.hand.value} && s'.link.loop.Failing?
            else s'.mail.errored == s.mail.errored && (s.link.loop.Failing? && !a.StoreFalse? ==> s'.link.loop.Failing?)
  {
    hide Reachable, MailOk, StreamsOk, NumberAll, BigEndian;
    ReachableInv(c, s);
    assert !s.link.loop.Captured? && !s.link.loop.Half? && !s.link.reconnect.Dialing?;
    if Enabled(c, s, a) && a.Capture? {
      assert multiset([s.mail.hand.value]) == multiset{s.mail.hand.value};
    }
  }
}
