/** ipc/writer.go: what each step does to the messages, counter by counter, and that with a
    connection the queue gets out. */
module IpcProgress {
  import opened Wrappers
  import opened Framing
  import opened LogNumbering
  import opened IpcWriter

  // The message a step of writeLoop or of the subscriber is about.
  function Mine(o: Option<Msg>): multiset<Msg> { if o.Some? then multiset{o.value} else multiset{} }

  // msgsDropped counts the messages a producer gave up on after waiting and those writeLoop held
  // past its wait cap.
  ghost function Drops(c: Config, s: State, a: Action): multiset<Msg> {
    if !Enabled(c, s, a) then multiset{}
    else match a
      case SubTimeOut => Mine(s.mail.sub)
      case TimeOut(x) => multiset{x}
      case WaitCap => Mine(s.mail.hand)
      case _ => multiset{}
  }

  // writeErrors counts those that met no connection, could not be encoded or were not written whole.
  ghost function Errors(c: Config, s: State, a: Action): multiset<Msg> {
    if !Enabled(c, s, a) then multiset{}
    else match a
      case Capture => if s.link.conn.None? then Mine(s.mail.hand) else multiset{}
      case MarshalFails => Mine(s.mail.hand)
      case WriteLength(k) => if k < 4 then Mine(s.mail.hand) else multiset{}
      case WriteBody(k) => if s.mail.hand.Some? && k < |s.mail.hand.value.wire| then Mine(s.mail.hand) else multiset{}
      case _ => multiset{}
  }

  /** Each counter grows by exactly the messages it is there to count, and a message counts as sent
      with the step that writes its last byte. */
  lemma CountedFor(c: Config, s: State, a: Action)
    ensures var s' := Step(c, s, a);
            && s'.mail.dropped == s.mail.dropped + Drops(c, s, a)
            && s'.mail.errored == s.mail.errored + Errors(c, s, a)
            && s'.mail.rejected == s.mail.rejected +
                 (if Enabled(c, s, a) && a.SubReject? then Mine(s.mail.sub) else if Enabled(c, s, a) && a.Reject? then multiset{a.m} else multiset{})
            && s'.mail.sent == s.mail.sent +
                 (if Enabled(c, s, a) && a.WriteBody? && s.mail.hand.Some? && a.k == |s.mail.hand.value.wire| then [s.mail.hand.value] else [])
  {
    if Enabled(c, s, a) {
      if OnMailOnly(a) {
        ProducersCounted(c, s, a);
      } else {
        LoopCounted(c, s, a);
      }
    }
  }

  lemma ProducersCounted(c: Config, s: State, a: Action)
    requires Enabled(c, s, a) && OnMailOnly(a)
    ensures var m, m' := s.mail, MailStep(s, a);
            && m'.dropped == m.dropped + Drops(c, s, a) && m'.errored == m.errored && Errors(c, s, a) == multiset{} && m'.sent == m.sent
            && m'.rejected == m.rejected + if a.SubReject? then Mine(m.sub) else if a.Reject? then multiset{a.m} else multiset{}
  {
    hide Accept;
    OptBag(s.mail.sub);
    if a.Receive? {
      AcceptCounts(s.mail, a.r);
    }
  }

  lemma AcceptCounts(m: Mail, r: Received)
    ensures var m' := Accept(m, r); m'.dropped == m.dropped && m'.errored == m.errored && m'.sent == m.sent && m'.rejected == m.rejected
  {
    hide NumberAll, MsgFor;
  }

  lemma LoopCounted(c: Config, s: State, a: Action)
    requires Enabled(c, s, a) && !OnMailOnly(a)
    ensures var m, m' := s.mail, MailStep(s, a);
            && m'.dropped == m.dropped + Drops(c, s, a) && m'.errored == m.errored + Errors(c, s, a) && m'.rejected == m.rejected
            && m'.sent == m.sent + if a.WriteBody? && m.hand.Some? && a.k == |m.hand.value.wire| then [m.hand.value] else []
  {
    hide NumberAll, MsgFor;
    OptBag(s.mail.hand);
  }

  lemma OptBag(o: Option<Msg>)
    ensures multiset(OptSeq(o)) == Mine(o)
  {
  }

  // --- with a connection the queue gets out ---

  // writeLoop is about to look at the queue and reconnectLoop has a connection up.
  predicate Up(s: State) {
    && s.link.loop.Select? && s.link.connected && s.link.conn.Some? && s.link.conn.value < |s.link.conns|
    && !s.link.reconnect.Dialing? && s.mail.hand.None?
  }

  // Steps of writeLoop that go well.
  predicate GoesWell(a: Action) {
    a.Take? || a.SeeConnected? || a.Capture? || (a.WriteLength? && a.k == 4) || a.WriteBody?
  }

  // From s to s' only the messages of the queue have moved, out onto the connection.
  ghost predicate Moved(s: State, s': State, n: nat)
    requires n <= |s.mail.queue|
  {
    s'.mail == s.mail.(queue := s.mail.queue[n..], sent := s.mail.sent + s.mail.queue[..n])
  }

  lemma OneGoesOut(c: Config, s: State) returns (acts: seq<Action>)
    requires Up(s) && s.mail.queue != []
    ensures forall a :: a in acts ==> GoesWell(a)
    ensures Up(Exec(c, s, acts)) && Moved(s, Exec(c, s, acts), 1)
  {
    hide NumberAll, BigEndian;
    var x, id := s.mail.queue[0], s.link.conn.value;
    var s1 := Step(c, s, Take);
    var s2 := Step(c, s1, SeeConnected);
    var s3 := Step(c, s2, Capture);
    assert s3 == State(s.mail.(hand := Some(x), queue := s.mail.queue[1..]), s.link.(loop := Captured(id)), s.cancelled);
    var s4 := AfterLength(c, s3, id, x);
    var s5 := AfterBody(c, s4, id, x);
    acts := [Take, SeeConnected, Capture, WriteLength(4), WriteBody(|x.wire|)];
    hide Step;
    FiveSteps(c, s, acts);
  }

  lemma AfterLength(c: Config, s: State, id: nat, x: Msg) returns (s': State)
    requires s.link.loop == Captured(id) && s.mail.hand == Some(x)
    ensures s' == Step(c, s, WriteLength(4)) && s'.mail == s.mail && s'.link == s.link.(loop := Half(id), conns := s'.link.conns)
    ensures |s'.link.conns| == |s.link.conns|
  {
    hide NumberAll, BigEndian;
    s' := Step(c, s, WriteLength(4));
  }

  lemma AfterBody(c: Config, s: State, id: nat, x: Msg) returns (s': State)
    requires s.link.loop == Half(id) && s.mail.hand == Some(x)
    ensures s' == Step(c, s, WriteBody(|x.wire|)) && s'.mail == s.mail.(hand := None, sent := s.mail.sent + [x])
    ensures s'.link == s.link.(loop := Select, conns := s'.link.conns) && |s'.link.conns| == |s.link.conns|
  {
    hide NumberAll, BigEndian;
    s' := Step(c, s, WriteBody(|x.wire|));
  }

  lemma FiveSteps(c: Config, s: State, acts: seq<Action>)
    requires |acts| == 5
    ensures Exec(c, s, acts) == Step(c, Step(c, Step(c, Step(c, Step(c, s, acts[0]), acts[1]), acts[2]), acts[3]), acts[4])
  {
    hide Step;
    var s2 := Step(c, Step(c, s, acts[0]), acts[1]);
    var s4 := Step(c, Step(c, s2, acts[2]), acts[3]);
    assert acts[1..][1..] == acts[2..] && acts[2..][1..] == acts[3..] && acts[3..][1..] == acts[4..] && acts[4..][1..] == [];
    assert Exec(c, s4, acts[4..]) == Step(c, s4, acts[4]);
    assert Exec(c, s2, acts[2..]) == Exec(c, s4, acts[4..]);
  }

  lemma {:induction false} ExecJoin(c: Config, s: State, a: seq<Action>, b: seq<Action>)
    ensures Exec(c, s, a + b) == Exec(c, Exec(c, s, a), b)
    decreases |a|
  {
    hide Step;
    if a == [] {
      assert a + b == b;
    } else {
      assert (a + b)[1..] == a[1..] + b;
      ExecJoin(c, Step(c, s, a[0]), a[1..], b);
    }
  }

  /** With a connection up and no failure, writeLoop by itself sends everything that is queued, in
      order, and drops nothing. */
  lemma {:induction false} QueueGetsOut(c: Config, s: State) returns (acts: seq<Action>)
    requires Up(s)
    ensures forall a :: a in acts ==> GoesWell(a)
    ensures Up(Exec(c, s, acts)) && Moved(s, Exec(c, s, acts), |s.mail.queue|)
    decreases |s.mail.queue|
  {
    hide Step, Up, GoesWell;
    if s.mail.queue == [] {
      acts := [];
      assert s.mail.sent + [] == s.mail.sent;
    } else {
      var first := OneGoesOut(c, s);
      var s1 := Exec(c, s, first);
      var rest := QueueGetsOut(c, s1);
      acts := first + rest;
      ExecJoin(c, s, first, rest);
      var q := s.mail.queue;
      assert s.mail.sent + q[..1] + q[1..] == s.mail.sent + q;
      assert q[1..][..|q| - 1] == q[1..] && q[..|q|] == q && q[1..][|q| - 1..] == [] && q[|q|..] == [];
    }
  }

  /** Without one, and with attempts left, three steps of reconnectLoop make one. */
  lemma CanReconnect(c: Config, s: State)
    requires s.link.reconnect.Ticking? && !s.link.connected && (c.maxAttempts == 0 || s.link.attempts < c.maxAttempts)
    ensures var s' := Exec(c, s, [Check, Begin, Dial(true)]);
            && s'.mail == s.mail && s'.link.loop == s.link.loop && s'.link.connected && s'.link.reconnect.Ticking?
            && s'.link.conn == Some(|s.link.conns|) && |s'.link.conns| == |s.link.conns| + 1 && s'.link.attempts == 0
  {
    hide NumberAll;
    var acts := [Check, Begin, Dial(true)];
    var s1 := Step(c, s, Check);
    assert s1 == s.(link := s.link.(reconnect := Checked));
    var s2 := Step(c, s1, Begin);
    assert s2.link.reconnect == Dialing(false);
    var s3 := Step(c, s2, Dial(true));
    hide Step;
    ThreeSteps(c, s, acts);
  }

  lemma ThreeSteps(c: Config, s: State, acts: seq<Action>)
    requires |acts| == 3
    ensures Exec(c, s, acts) == Step(c, Step(c, Step(c, s, acts[0]), acts[1]), acts[2])
  {
    hide Step;
    var s2 := Step(c, Step(c, s, acts[0]), acts[1]);
    assert acts[1..][1..] == acts[2..] && acts[2..][1..] == [];
    assert Exec(c, s2, acts[2..]) == Step(c, s2, acts[2]);
  }

  // --- shutdown ---

  ghost predicate OnlyCancelled(s: State) {
    s.mail.rejected != multiset{} || s.link.loop.Halted? || s.link.reconnect.Stopped? ==> s.cancelled
  }

  lemma CancelledStep(c: Config, s: State, a: Action)
    requires OnlyCancelled(s)
    ensures OnlyCancelled(Step(c, s, a)) && (Step(c, s, a).cancelled <==> s.cancelled || (a.Cancel? && Enabled(c, s, a)))
  {
    hide NumberAll, MsgFor, BigEndian;
    CountedFor(c, s, a);
    if Enabled(c, s, a) {
      LinkHalts(c, s, a);
    }
    hide MailStep, LinkStep;
  }

  lemma LinkHalts(c: Config, s: State, a: Action)
    requires Enabled(c, s, a)
    ensures LinkStep(c, s, a).loop.Halted? ==> s.link.loop.Halted? || s.cancelled
    ensures LinkStep(c, s, a).reconnect.Stopped? ==> s.link.reconnect.Stopped? || s.cancelled
    ensures a.SubReject? || a.Reject? ==> s.cancelled
  {
    hide NumberAll, BigEndian;
  }

  /** A message is refused, and a loop stops other than by giving up, only once shutdown has begun. */
  lemma {:induction false} RefusedOnlyAtShutdown(c: Config, acts: seq<Action>)
    ensures OnlyCancelled(Exec(c, Init, acts))
    ensures Exec(c, Init, acts).cancelled ==> exists a :: a in acts && a.Cancel?
  {
    RunCancelled(c, Init, acts);
  }

  lemma {:induction false} RunCancelled(c: Config, s: State, acts: seq<Action>)
    requires OnlyCancelled(s)
    ensures OnlyCancelled(Exec(c, s, acts))
    ensures Exec(c, s, acts).cancelled ==> s.cancelled || exists a :: a in acts && a.Cancel?
    decreases |acts|
  {
    hide Step, OnlyCancelled, Enabled;
    if acts != [] {
      CancelledStep(c, s, acts[0]);
      RunCancelled(c, Step(c, s, acts[0]), acts[1..]);
    }
  }

  /** Once shutdown has begun the loops stop where they look for it. */
  lemma LoopsStop(c: Config, s: State)
    requires s.cancelled
    ensures s.link.loop.Select? ==> Step(c, s, LoopHalt) == s.(link := s.link.(loop := Halted))
    ensures s.link.reconnect.Ticking? ==> Step(c, s, ReconnectHalt) == s.(link := s.link.(reconnect := Stopped))
  {
  }

  /** The queue never holds more than its capacity. */
  lemma {:induction false} QueueBounded(c: Config, s: State, acts: seq<Action>)
    requires |s.mail.queue| <= c.capacity
    ensures |Exec(c, s, acts).mail.queue| <= c.capacity
    decreases |acts|
  {
    if acts != [] {
      QueueStep(c, s, acts[0]);
      hide Step;
      QueueBounded(c, Step(c, s, acts[0]), acts[1..]);
    }
  }

  lemma QueueStep(c: Config, s: State, a: Action)
    requires |s.mail.queue| <= c.capacity
    ensures |Step(c, s, a).mail.queue| <= c.capacity
  {
    hide NumberAll, MsgFor, LinkStep;
  }
}
