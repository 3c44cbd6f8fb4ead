/** pubsub/pubsub.go: the life of subscriber channels under Subscribe, Publish, unsubscribe,
    context cancellation and Close, one step per lock region or channel operation. Subscribe and
    Publish hold closeMutex for reading from start to end, Close holds it for writing, and
    unsubscribe does not take it. */
module PubSub {
  type Tid = nat
  type SubId = nat        // the number nextMessageID gave the subscription

  datatype Msg = Msg(id: nat, publisher: Tid, topic: string, payload: string)

  datatype Unsub = No | Doing(t: Tid) | Done

  datatype Chan = Chan(
    topic: string,
    open: bool,
    closes: nat,          // history: how often close was called on it
    got: seq<Msg>,        // history: everything put into it
    unsub: Unsub)         // the unsubscribed flag, and who set it

  datatype Pc =
    | Idle
    | Subscribing(topic: string) | SubNamed(topic: string, id: nat) | Subscribed
    | Publishing(topic: string, payload: string) | PubNamed(topic: string, payload: string, id: nat)
    // history: captured, the subscribers found in the topic, and missed, those whose send timed out
    | Sending(msg: Msg, targets: set<SubId>, captured: set<SubId>, missed: set<SubId>)
    | Unsubscribing(k: SubId)
    | Closing(left: set<string>)

  datatype State = State(
    closed: bool,
    topics: map<string, set<SubId>>,
    chan: map<SubId, Chan>,
    messageID: nat,
    pc: map<Tid, Pc>)

  datatype Action =
    | SubEnter(t: Tid, topic: string) | SubName(t: Tid) | SubAdd(t: Tid) | SubReturn(t: Tid)
    | PubEnter(t: Tid, topic: string, payload: string) | PubName(t: Tid) | PubCapture(t: Tid)
    | PubSend(t: Tid, k: SubId) | PubTimeOut(t: Tid, k: SubId) | PubCancel(t: Tid) | PubReturn(t: Tid)
    | UnsubFlag(t: Tid, k: SubId) | UnsubRemove(t: Tid)
    | CloseEnter(t: Tid) | CloseTopic(t: Tid, topic: string) | CloseReturn(t: Tid)

  const Init := State(false, map[], map[], 0, map[])

  function At(s: State, t: Tid): Pc { if t in s.pc then s.pc[t] else Idle }

  function Go(s: State, t: Tid, p: Pc): State { s.(pc := s.pc[t := p]) }

  function Subs(s: State, topic: string): set<SubId> { if topic in s.topics then s.topics[topic] else {} }

  // Who holds closeMutex for reading.
  predicate Reads(p: Pc) {
    p.Subscribing? || p.SubNamed? || p.Subscribed? || p.Publishing? || p.PubNamed? || p.Sending?
  }

  ghost predicate WriterFree(s: State) { forall t {:trigger At(s, t)} :: !At(s, t).Closing? }

  ghost predicate Free(s: State) { forall t {:trigger At(s, t)} :: !At(s, t).Closing? && !Reads(At(s, t)) }

  ghost predicate Enabled(s: State, a: Action) {
    match a
    case SubEnter(t, _) => At(s, t).Idle? && WriterFree(s)
    case SubName(t) => At(s, t).Subscribing?
    case SubAdd(t) => At(s, t).SubNamed?
    case SubReturn(t) => At(s, t).Subscribed?
    case PubEnter(t, _, _) => At(s, t).Idle? && WriterFree(s)
    case PubName(t) => At(s, t).Publishing?
    case PubCapture(t) => At(s, t).PubNamed?
    case PubSend(t, k) => At(s, t).Sending? && k in At(s, t).targets && k in s.chan && s.chan[k].open
    case PubTimeOut(t, k) => At(s, t).Sending? && k in At(s, t).targets
    case PubCancel(t) => At(s, t).Sending? && At(s, t).targets != {}
    case PubReturn(t) => At(s, t).Sending? && At(s, t).targets == {}
    case UnsubFlag(t, k) => At(s, t).Idle? && k in s.chan
    case UnsubRemove(t) => At(s, t).Unsubscribing? && At(s, t).k in s.chan
    case CloseEnter(t) => At(s, t).Idle? && Free(s)
    case CloseTopic(t, topic) => At(s, t).Closing? && topic in At(s, t).left
    case CloseReturn(t) => At(s, t).Closing? && At(s, t).left == {}
  }

  // --- the steps that do something ---

  // getOrCreateTopic.
  function WithTopic(s: State, topic: string): State {
    if topic in s.topics then s else s.(topics := s.topics[topic := {}])
  }

  function Enter(s: State, t: Tid, topic: string, p: Pc): State {
    if s.closed then s else Go(WithTopic(s, topic), t, p)
  }

  // nextMessageID.
  function Name(s: State, t: Tid, p: Pc): State { Go(s.(messageID := s.messageID + 1), t, p) }

  function Add(s: State, t: Tid, topic: string, id: nat): State {
    Go(s.(topics := s.topics[topic := Subs(s, topic) + {id}], chan := s.chan[id := Chan(topic, true, 0, [], No)]), t, Subscribed)
  }

  function Capture(s: State, t: Tid, msg: Msg): State {
    Go(s, t, Sending(msg, Subs(s, msg.topic), Subs(s, msg.topic), {}))
  }

  function Put(s: State, t: Tid, k: SubId): State
    requires At(s, t).Sending? && k in s.chan
  {
    var p := At(s, t);
    Go(s.(chan := s.chan[k := s.chan[k].(got := s.chan[k].got + [p.msg])]), t, p.(targets := p.targets - {k}))
  }

  function Miss(s: State, t: Tid, k: SubId): State
    requires At(s, t).Sending?
  {
    var p := At(s, t);
    Go(s, t, p.(targets := p.targets - {k}, missed := p.missed + {k}))
  }

  function CloseChan(c: Chan): Chan { c.(open := false, closes := c.closes + 1) }

  // The first caller sets the flag and goes on; later ones return.
  function Flag(s: State, t: Tid, k: SubId): State
    requires k in s.chan
  {
    if !s.chan[k].unsub.No? then s
    else Go(s.(chan := s.chan[k := s.chan[k].(unsub := Doing(t))]), t, Unsubscribing(k))
  }

  function Remove(s: State, t: Tid, k: SubId): State
    requires k in s.chan
  {
    var c := s.chan[k].(unsub := Done);
    if k in Subs(s, c.topic) then
      Go(s.(topics := s.topics[c.topic := Subs(s, c.topic) - {k}], chan := s.chan[k := CloseChan(c)]), t, Idle)
    else Go(s.(chan := s.chan[k := c]), t, Idle)
  }

  function CloseAll(s: State, t: Tid, topic: string, left: set<string>): State {
    Go(s.(topics := s.topics[topic := {}],
          chan := map k | k in s.chan :: if k in Subs(s, topic) then CloseChan(s.chan[k]) else s.chan[k]),
       t, Closing(left - {topic}))
  }

  ghost function Apply(s: State, a: Action): State
    requires Enabled(s, a)
  {
    match a
    case SubEnter(t, topic) => Enter(s, t, topic, Subscribing(topic))
    case SubName(t) => Name(s, t, SubNamed(At(s, t).topic, s.messageID + 1))
    case SubAdd(t) => Add(s, t, At(s, t).topic, At(s, t).id)
    case SubReturn(t) => Go(s, t, Idle)
    case PubEnter(t, topic, payload) => Enter(s, t, topic, Publishing(topic, payload))
    case PubName(t) => Name(s, t, PubNamed(At(s, t).topic, At(s, t).payload, s.messageID + 1))
    case PubCapture(t) => Capture(s, t, Msg(At(s, t).id, t, At(s, t).topic, At(s, t).payload))
    case PubSend(t, k) => Put(s, t, k)
    case PubTimeOut(t, k) => Miss(s, t, k)
    case PubCancel(t) => Go(s, t, Idle)
    case PubReturn(t) => Go(s, t, Idle)
    case UnsubFlag(t, k) => Flag(s, t, k)
    case UnsubRemove(t) => Remove(s, t, At(s, t).k)
    case CloseEnter(t) => if s.closed then s else Go(s.(closed := true), t, Closing(s.topics.Keys))
    case CloseTopic(t, topic) => CloseAll(s, t, topic, At(s, t).left)
    case CloseReturn(t) => Go(s.(topics := map[]), t, Idle)
  }

  ghost function Step(s: State, a: Action): State { if Enabled(s, a) then Apply(s, a) else s }

  ghost function Exec(s: State, acts: seq<Action>): State
    decreases |acts|
  {
    if acts == [] then s else Exec(Step(s, acts[0]), acts[1..])
  }

  ghost predicate Reachable(s: State) { exists acts :: s == Exec(Init, acts) }

  // --- the invariant ---

  ghost predicate LocksOk(s: State) {
    && (forall t, u {:trigger At(s, t), At(s, u)} :: At(s, t).Closing? && (At(s, u).Closing? || Reads(At(s, u))) ==> t == u)
    && (forall t {:trigger At(s, t)} :: At(s, t).Closing? ==> s.closed && forall n :: n in s.topics && n !in At(s, t).left ==> s.topics[n] == {})
    && (s.closed && WriterFree(s) ==> s.topics == map[])
    && (s.closed ==> forall t {:trigger At(s, t)} :: !Reads(At(s, t)))
  }

  predicate ListedOk(s: State) {
    && (forall k :: k in s.chan ==> (s.chan[k].open <==> k in Subs(s, s.chan[k].topic)))
    && (forall k :: k in s.chan ==> s.chan[k].closes == if s.chan[k].open then 0 else 1)
    && (forall n, k :: n in s.topics && k in s.topics[n] ==> k in s.chan && s.chan[k].topic == n)
  }

  ghost predicate UnsubOk(s: State) {
    && (forall t {:trigger At(s, t)} :: At(s, t).Unsubscribing? ==> At(s, t).k in s.chan && s.chan[At(s, t).k].unsub == Doing(t))
    && (forall k :: k in s.chan && s.chan[k].unsub.Doing? ==> At(s, s.chan[k].unsub.t) == Unsubscribing(k))
    && (forall k :: k in s.chan && s.chan[k].unsub == Done ==> !s.chan[k].open)
    && (forall k :: k in s.chan && !s.chan[k].open ==> s.closed || s.chan[k].unsub == Done)
  }

  ghost predicate SubNamesOk(s: State) {
    && (forall k :: k in s.chan ==> k <= s.messageID)
    && (forall t {:trigger At(s, t)} :: At(s, t).SubNamed? ==> At(s, t).id <= s.messageID && At(s, t).id !in s.chan)
    && (forall t, u {:trigger At(s, t), At(s, u)} :: At(s, t).SubNamed? && At(s, u).SubNamed? && At(s, t).id == At(s, u).id ==> t == u)
  }

  ghost predicate PubNamesOk(s: State) {
    && (forall t {:trigger At(s, t)} :: At(s, t).PubNamed? ==> At(s, t).id <= s.messageID)
    && (forall t {:trigger At(s, t)} :: At(s, t).Sending? ==> At(s, t).msg.id <= s.messageID && At(s, t).msg.publisher == t)
    && (forall t {:trigger At(s, t)} :: At(s, t).Sending? ==> forall k :: k in At(s, t).targets ==> k in s.chan)
  }

  ghost predicate NamesOk(s: State) { SubNamesOk(s) && PubNamesOk(s) }

  // The highest number a publisher has put into channel k so far.
  function Ceiling(s: State, t: Tid, k: SubId): int {
    match At(s, t)
    case PubNamed(_, _, id) => id - 1
    case Sending(msg, targets, _, _) => if k in targets then msg.id - 1 else msg.id
    case _ => s.messageID
  }

  predicate Increasing(got: seq<Msg>) {
    forall i, j :: 0 <= i < j < |got| && got[i].publisher == got[j].publisher ==> got[i].id < got[j].id
  }

  ghost predicate OrderOk(s: State) {
    forall k :: k in s.chan ==>
      Increasing(s.chan[k].got) && forall m :: m in s.chan[k].got ==> m.id <= Ceiling(s, m.publisher, k) && m.id <= s.messageID
  }

  // Of the subscribers a publish has captured, all of its topic, exactly those have its message that
  // it is done with and has not missed.
  predicate SendOk(s: State, p: Pc)
    requires p.Sending?
  {
    && p.targets <= p.captured && p.missed <= p.captured - p.targets
    && (forall k :: k in p.captured ==> k in s.chan && s.chan[k].topic == p.msg.topic)
    && (forall k :: k in s.chan ==> (p.msg in s.chan[k].got <==> k in p.captured - p.targets - p.missed))
  }

  ghost predicate SendsOk(s: State) {
    && (forall t {:trigger At(s, t)} :: At(s, t).Sending? ==> SendOk(s, At(s, t)))
    && (forall k :: k in s.chan ==> forall m :: m in s.chan[k].got ==> m.topic == s.chan[k].topic)
  }

  ghost predicate Inv(s: State) { LocksOk(s) && ListedOk(s) && UnsubOk(s) && NamesOk(s) && OrderOk(s) && SendsOk(s) }

  // --- every step keeps each part ---

  // A step moves one thread.
  lemma OthersStay(s: State, a: Action)
    requires Enabled(s, a)
    ensures forall u {:trigger At(Apply(s, a), u)} :: u != a.t ==> At(Apply(s, a), u) == At(s, u)
  {
  }

  lemma LocksKept(s: State, a: Action)
    requires LocksOk(s) && ListedOk(s) && Enabled(s, a)
    ensures LocksOk(Apply(s, a))
  {
    OthersStay(s, a);
    var s' := Apply(s, a);
    if !WriterFree(s) && !a.CloseReturn? {
      var w :| At(s, w).Closing?;
      assert At(s', w).Closing?;
    }
    assert At(s', a.t).Closing? || a.CloseReturn? || !At(s, a.t).Closing?;
  }

  lemma ListedKept(s: State, a: Action)
    requires LocksOk(s) && ListedOk(s) && NamesOk(s) && Enabled(s, a)
    ensures ListedOk(Apply(s, a))
  {
    match a {
      case SubAdd(t) => AddListed(s, t);
      case UnsubRemove(t) => RemoveListed(s, t);
      case CloseTopic(t, topic) => CloseListed(s, t, topic);
      case CloseReturn(t) => ReturnListed(s, t);
      case _ => PlainListed(s, a);
    }
  }

  lemma PlainListed(s: State, a: Action)
    requires ListedOk(s) && Enabled(s, a)
    requires !a.SubAdd? && !a.UnsubRemove? && !a.CloseTopic? && !a.CloseReturn?
    ensures ListedOk(Apply(s, a))
  {
    if a.SubEnter? || a.PubEnter? {
      TopicListed(s, a);
    } else if a.PubSend? || a.UnsubFlag? {
      FieldListed(s, a);
    }
  }

  lemma TopicListed(s: State, a: Action)
    requires ListedOk(s) && Enabled(s, a) && (a.SubEnter? || a.PubEnter?)
    ensures ListedOk(Apply(s, a))
  {
    assert forall n :: Subs(Apply(s, a), n) == Subs(s, n);
  }

  lemma FieldListed(s: State, a: Action)
    requires ListedOk(s) && Enabled(s, a) && (a.PubSend? || a.UnsubFlag?)
    ensures ListedOk(Apply(s, a))
  {
  }

  lemma AddListed(s: State, t: Tid)
    requires ListedOk(s) && NamesOk(s) && At(s, t).SubNamed?
    ensures ListedOk(Add(s, t, At(s, t).topic, At(s, t).id))
  {
  }

  lemma RemoveListed(s: State, t: Tid)
    requires ListedOk(s) && At(s, t).Unsubscribing? && At(s, t).k in s.chan
    ensures ListedOk(Remove(s, t, At(s, t).k))
  {
  }

  lemma CloseListed(s: State, t: Tid, topic: string)
    requires ListedOk(s) && At(s, t).Closing?
    ensures ListedOk(CloseAll(s, t, topic, At(s, t).left))
  {
  }

  lemma ReturnListed(s: State, t: Tid)
    requires ListedOk(s) && LocksOk(s) && At(s, t).Closing? && At(s, t).left == {}
    ensures ListedOk(Apply(s, CloseReturn(t)))
  {
    assert forall n :: n in s.topics ==> s.topics[n] == {};
  }

  lemma UnsubKept(s: State, a: Action)
    requires LocksOk(s) && ListedOk(s) && UnsubOk(s) && NamesOk(s) && Enabled(s, a)
    ensures UnsubOk(Apply(s, a))
  {
    if a.UnsubRemove? {
      RemoveUnsub(s, a.t);
    } else if a.UnsubFlag? {
      FlagUnsub(s, a.t, a.k);
    } else if a.SubAdd? || a.CloseTopic? || a.PubSend? {
      ChanUnsub(s, a);
    } else {
      PlainUnsub(s, a);
    }
  }

  lemma RemoveUnsub(s: State, t: Tid)
    requires ListedOk(s) && UnsubOk(s) && Enabled(s, UnsubRemove(t))
    ensures UnsubOk(Apply(s, UnsubRemove(t)))
  {
    OthersStay(s, UnsubRemove(t));
  }

  lemma FlagUnsub(s: State, t: Tid, k: SubId)
    requires UnsubOk(s) && Enabled(s, UnsubFlag(t, k))
    ensures UnsubOk(Apply(s, UnsubFlag(t, k)))
  {
    OthersStay(s, UnsubFlag(t, k));
  }

  lemma ChanUnsub(s: State, a: Action)
    requires LocksOk(s) && ListedOk(s) && UnsubOk(s) && SubNamesOk(s) && Enabled(s, a)
    requires a.SubAdd? || a.CloseTopic? || a.PubSend?
    ensures UnsubOk(Apply(s, a))
  {
    OthersStay(s, a);
  }

  lemma PlainUnsub(s: State, a: Action)
    requires UnsubOk(s) && Enabled(s, a)
    requires !a.UnsubRemove? && !a.UnsubFlag? && !a.SubAdd? && !a.CloseTopic? && !a.PubSend?
    ensures UnsubOk(Apply(s, a))
  {
    OthersStay(s, a);
  }

  lemma SubNamesKept(s: State, a: Action)
    requires SubNamesOk(s) && Enabled(s, a)
    requires a.UnsubRemove? || a.CloseTopic? ==> ListedOk(s)
    ensures SubNamesOk(Apply(s, a))
  {
    OthersStay(s, a);
  }

  lemma PubNamesKept(s: State, a: Action)
    requires ListedOk(s) && PubNamesOk(s) && Enabled(s, a)
    ensures PubNamesOk(Apply(s, a))
  {
    OthersStay(s, a);
  }

  lemma NamesKept(s: State, a: Action)
    requires ListedOk(s) && NamesOk(s) && Enabled(s, a)
    ensures NamesOk(Apply(s, a))
  {
    hide SubNamesOk, PubNamesOk, Apply, Enabled, ListedOk;
    SubNamesKept(s, a);
    PubNamesKept(s, a);
  }

  lemma CeilingRises(s: State, a: Action, u: Tid, k: SubId)
    requires NamesOk(s) && Enabled(s, a) && k in s.chan
    ensures Ceiling(Apply(s, a), u, k) >= Ceiling(s, u, k) || Ceiling(Apply(s, a), u, k) >= s.messageID
  {
    OthersStay(s, a);
    var s' := Apply(s, a);
    assert u != a.t ==> At(s', u) == At(s, u);
  }

  lemma IncreasingThen(got: seq<Msg>, m: Msg)
    requires Increasing(got) && forall x :: x in got && x.publisher == m.publisher ==> x.id < m.id
    ensures Increasing(got + [m])
  {
  }

  lemma PutOrder(s: State, t: Tid, k: SubId)
    requires NamesOk(s) && OrderOk(s) && Enabled(s, PubSend(t, k))
    ensures OrderOk(Apply(s, PubSend(t, k)))
  {
    hide Increasing;
    var a := PubSend(t, k);
    var s' := Apply(s, a);
    var m0 := At(s, t).msg;
    forall m | m in s.chan[k].got && m.publisher == t ensures m.id < m0.id {
      assert m.id <= Ceiling(s, t, k);
    }
    IncreasingThen(s.chan[k].got, m0);
    forall j | j in s'.chan
      ensures Increasing(s'.chan[j].got) && forall m :: m in s'.chan[j].got ==> m.id <= Ceiling(s', m.publisher, j) && m.id <= s'.messageID
    {
      PutCeilings(s, t, k, j);
    }
  }

  lemma PutCeilings(s: State, t: Tid, k: SubId, j: SubId)
    requires NamesOk(s) && OrderOk(s) && Enabled(s, PubSend(t, k)) && j in s.chan
    ensures var s' := Apply(s, PubSend(t, k));
            forall m :: m in s'.chan[j].got ==> m.id <= Ceiling(s', m.publisher, j) && m.id <= s'.messageID
  {
    hide Increasing, Ceiling;
    var a := PubSend(t, k);
    var s' := Apply(s, a);
    forall m | m in s'.chan[j].got ensures m.id <= Ceiling(s', m.publisher, j) && m.id <= s'.messageID {
      if m in s.chan[j].got {
        CeilingRises(s, a, m.publisher, j);
      } else {
        assert m == At(s, t).msg && j == k;
        assert Ceiling(s', t, k) == m.id by { CeilingAfterPut(s, t, k); }
      }
    }
  }

  lemma CeilingAfterPut(s: State, t: Tid, k: SubId)
    requires Enabled(s, PubSend(t, k))
    ensures Ceiling(Apply(s, PubSend(t, k)), t, k) == At(s, t).msg.id
  {
  }

  lemma OrderKept(s: State, a: Action)
    requires NamesOk(s) && OrderOk(s) && Enabled(s, a)
    ensures OrderOk(Apply(s, a))
  {
    hide Ceiling, Increasing, NamesOk;
    var s' := Apply(s, a);
    if a.PubSend? {
      PutOrder(s, a.t, a.k);
    } else {
      GotStays(s, a);
      forall k | k in s'.chan
        ensures Increasing(s'.chan[k].got) && forall m :: m in s'.chan[k].got ==> m.id <= Ceiling(s', m.publisher, k) && m.id <= s'.messageID
      {
        if k in s.chan && s'.chan[k].got == s.chan[k].got {
          forall m | m in s.chan[k].got ensures m.id <= Ceiling(s', m.publisher, k) {
            CeilingRises(s, a, m.publisher, k);
          }
        } else {
          assert Increasing([]) by { NothingIncreases(); }
        }
      }
    }
  }

  lemma NothingIncreases()
    ensures Increasing([])
  {
  }

  lemma GotStays(s: State, a: Action)
    requires Enabled(s, a) && !a.PubSend?
    ensures s.messageID <= Apply(s, a).messageID
    ensures forall k :: k in Apply(s, a).chan ==>
              Apply(s, a).chan[k].got == if k in s.chan && !(a.SubAdd? && k == At(s, a.t).id) then s.chan[k].got else []
  {
  }

  lemma CaptureSends(s: State, t: Tid)
    requires ListedOk(s) && OrderOk(s) && Enabled(s, PubCapture(t))
    ensures SendOk(Apply(s, PubCapture(t)), At(Apply(s, PubCapture(t)), t))
  {
    hide Increasing;
    var p := At(Apply(s, PubCapture(t)), t);
    assert forall k :: k in s.chan ==> Ceiling(s, t, k) < p.msg.id;
    assert forall k :: k in s.chan ==> forall m :: m in s.chan[k].got ==> m.id <= Ceiling(s, m.publisher, k);
  }

  // What a step does to the channels leaves the publishes of other threads in order.
  lemma OtherSends(s: State, a: Action, u: Tid)
    requires SubNamesOk(s) && PubNamesOk(s) && SendsOk(s) && Enabled(s, a) && u != a.t && At(s, u).Sending?
    ensures SendOk(Apply(s, a), At(s, u))
  {
    ChannelsStay(s, a);
    hide Apply, Enabled;
    var s', p := Apply(s, a), At(s, u);
    forall k | k in s'.chan ensures p.msg in s'.chan[k].got <==> k in p.captured - p.targets - p.missed {
      assert k in s.chan ==> (p.msg in s.chan[k].got <==> k in p.captured - p.targets - p.missed);
      assert a.PubSend? && At(s, a.t).Sending? ==> At(s, a.t).msg.publisher == a.t;
    }
  }

  // Channels only come, with nothing in them, and only a send puts anything into one.
  lemma ChannelsStay(s: State, a: Action)
    requires SubNamesOk(s) && Enabled(s, a)
    ensures var s' := Apply(s, a);
            && (forall k :: k in s.chan ==> k in s'.chan && s'.chan[k].topic == s.chan[k].topic)
            && (forall k :: k in s'.chan ==>
                  s'.chan[k].got == (if k in s.chan then s.chan[k].got else []) + if a.PubSend? && k == a.k then [At(s, a.t).msg] else [])
    ensures a.PubSend? ==> At(s, a.t).Sending? && a.k in At(s, a.t).targets
  {
    hide UnsubOk;
  }

  lemma OwnSends(s: State, a: Action)
    requires SubNamesOk(s) && SendsOk(s) && Enabled(s, a) && (a.PubSend? || a.PubTimeOut?)
    ensures SendOk(Apply(s, a), At(Apply(s, a), a.t))
  {
    assert SendOk(s, At(s, a.t));
  }

  lemma TopicsOfMessages(s: State, a: Action)
    requires SubNamesOk(s) && SendsOk(s) && Enabled(s, a)
    ensures var s' := Apply(s, a);
            forall k :: k in s'.chan ==> forall m :: m in s'.chan[k].got ==> m.topic == s'.chan[k].topic
  {
    ChannelsStay(s, a);
    if a.PubSend? {
      assert SendOk(s, At(s, a.t));
    }
    hide Apply, Enabled;
    var s' := Apply(s, a);
    forall k, m | k in s'.chan && m in s'.chan[k].got ensures m.topic == s'.chan[k].topic {
      if k in s.chan && m in s.chan[k].got {
        assert m.topic == s.chan[k].topic;
      }
    }
  }

  lemma SendsKept(s: State, a: Action)
    requires ListedOk(s) && NamesOk(s) && OrderOk(s) && SendsOk(s) && Enabled(s, a)
    ensures SendsOk(Apply(s, a))
  {
    var s' := Apply(s, a);
    TopicsOfMessages(s, a);
    forall t {:trigger At(s', t)} | At(s', t).Sending? ensures SendOk(s', At(s', t)) {
      if t != a.t {
        OthersStay(s, a);
        assert At(s', t) == At(s, t);
        OtherSends(s, a, t);
      } else {
        OwnStep(s, a);
        if a.PubCapture? {
          CaptureSends(s, t);
        } else {
          OwnSends(s, a);
        }
      }
    }
  }

  lemma OwnStep(s: State, a: Action)
    requires Enabled(s, a) && At(Apply(s, a), a.t).Sending?
    ensures a.PubCapture? || a.PubSend? || a.PubTimeOut?
  {
  }

  lemma StepKeepsInv(s: State, a: Action)
    requires Inv(s)
    ensures Inv(Step(s, a))
  {
    hide LocksOk, ListedOk, UnsubOk, NamesOk, OrderOk, SendsOk, Enabled, Apply;
    if Enabled(s, a) {
      LocksKept(s, a);
      ListedKept(s, a);
      UnsubKept(s, a);
      NamesKept(s, a);
      OrderKept(s, a);
      SendsKept(s, a);
    }
  }

  lemma {:induction false} RunKeepsInv(s: State, acts: seq<Action>)
    requires Inv(s)
    ensures Inv(Exec(s, acts))
    decreases |acts|
  {
    hide Inv;
    if acts != [] {
      StepKeepsInv(s, acts[0]);
      RunKeepsInv(Step(s, acts[0]), acts[1..]);
    }
  }

  lemma ReachableInv(s: State)
    requires Reachable(s)
    ensures Inv(s)
  {
    var acts :| s == Exec(Init, acts);
    RunKeepsInv(Init, acts);
  }

  // --- the theorems ---

  /** Over every interleaving a channel is closed at most once, and a subscriber is in its topic's
      map exactly as long as its channel is open. */
  lemma ClosedAtMostOnce(s: State, k: SubId)
    requires Reachable(s) && k in s.chan
    ensures s.chan[k].closes <= 1 && (s.chan[k].closes == 0 <==> k in Subs(s, s.chan[k].topic))
    ensures s.chan[k].open <==> s.chan[k].closes == 0
  {
    ReachableInv(s);
  }

  /** Once Close has returned every channel ever handed out is closed and no topic is left. */
  lemma CloseClosesAll(s: State)
    requires Reachable(s) && s.closed && WriterFree(s)
    ensures s.topics == map[] && forall k :: k in s.chan ==> !s.chan[k].open && s.chan[k].closes == 1
  {
    ReachableInv(s);
  }

  /** And it stays so: whatever is called afterwards, no channel is opened, closed again or
      written to. */
  lemma {:induction false} ClosedForGood(s: State, acts: seq<Action>)
    requires Inv(s) && s.closed && WriterFree(s)
    ensures var s' := Exec(s, acts);
            && s'.closed && WriterFree(s') && s'.chan.Keys == s.chan.Keys
            && forall k :: k in s.chan ==> s'.chan[k].closes == s.chan[k].closes && s'.chan[k].got == s.chan[k].got
    decreases |acts|
  {
    hide UnsubOk, NamesOk, OrderOk, SendsOk;
    if acts != [] {
      ClosedStep(s, acts[0]);
      StepKeepsInv(s, acts[0]);
      ClosedForGood(Step(s, acts[0]), acts[1..]);
    }
  }

  lemma ClosedStep(s: State, a: Action)
    requires LocksOk(s) && ListedOk(s) && s.closed && WriterFree(s)
    ensures var s' := Step(s, a);
            && s'.closed && WriterFree(s') && s'.chan.Keys == s.chan.Keys
            && forall k :: k in s.chan ==> s'.chan[k].closes == s.chan[k].closes && s'.chan[k].got == s.chan[k].got
  {
    if Enabled(s, a) {
      OthersStay(s, a);
      assert !Reads(At(s, a.t)) && !At(s, a.t).Closing?;
    }
  }

  /** The messages one publisher puts into one channel have increasing numbers, in channel order. */
  lemma PublisherOrder(s: State, k: SubId, i: nat, j: nat)
    requires Reachable(s) && k in s.chan && i < j < |s.chan[k].got|
    requires s.chan[k].got[i].publisher == s.chan[k].got[j].publisher
    ensures s.chan[k].got[i].id < s.chan[k].got[j].id
  {
    ReachableInv(s);
  }

  lemma {:induction false} OncePerChannel(got: seq<Msg>, m: Msg)
    requires Increasing(got) && m in got
    ensures multiset(got)[m] == 1
  {
    var init, last := got[..|got| - 1], got[|got| - 1];
    assert got == init + [last] && multiset(got) == multiset(init) + multiset{last};
    assert Increasing(init) by {
      assert forall i :: 0 <= i < |init| ==> init[i] == got[i];
    }
    if m == last {
      assert forall i :: 0 <= i < |init| ==> init[i] == got[i];
      assert m !in init;
    } else {
      OncePerChannel(init, m);
    }
  }

  /** At any time during a publish exactly those channels have its message, each once, whose
      subscribers it captured, is done with and did not miss. */
  lemma SentSoFar(s: State, t: Tid, k: SubId)
    requires Reachable(s) && At(s, t).Sending? && k in s.chan
    ensures var p := At(s, t);
            multiset(s.chan[k].got)[p.msg] == if k in p.captured && k !in p.targets && k !in p.missed then 1 else 0
    ensures forall m :: m in s.chan[k].got ==> m.topic == s.chan[k].topic && multiset(s.chan[k].got)[m] == 1
  {
    hide Reachable;
    ReachableInv(s);
    assert SendOk(s, At(s, t));
    forall m | m in s.chan[k].got ensures multiset(s.chan[k].got)[m] == 1 {
      OncePerChannel(s.chan[k].got, m);
    }
  }

  // The sends of thread t that time out in the course of a run.
  ghost function TimedOut(s: State, acts: seq<Action>, t: Tid): set<SubId>
    decreases |acts|
  {
    if acts == [] then {}
    else
      TimedOut(Step(s, acts[0]), acts[1..], t)
      + if acts[0].PubTimeOut? && acts[0].t == t && Enabled(s, acts[0]) then {acts[0].k} else {}
  }

  predicate NoReturn(acts: seq<Action>, t: Tid) { forall a :: a in acts && (a.PubReturn? || a.PubCancel?) ==> a.t != t }

  lemma StaysSending(s: State, a: Action, t: Tid)
    requires At(s, t).Sending? && !((a.PubReturn? || a.PubCancel?) && a.t == t)
    ensures var p, p' := At(s, t), At(Step(s, a), t);
            && p'.Sending? && p'.msg == p.msg && p'.captured == p.captured
            && p'.missed == p.missed + if a.PubTimeOut? && a.t == t && Enabled(s, a) then {a.k} else {}
  {
    if Enabled(s, a) {
      OthersStay(s, a);
      assert t != a.t ==> At(Apply(s, a), t) == At(s, t);
    }
  }

  lemma {:induction false} SendingRun(s: State, acts: seq<Action>, t: Tid)
    requires At(s, t).Sending? && NoReturn(acts, t)
    ensures var p, p' := At(s, t), At(Exec(s, acts), t);
            p'.Sending? && p'.msg == p.msg && p'.captured == p.captured && p'.missed == p.missed + TimedOut(s, acts, t)
    decreases |acts|
  {
    hide Step, Enabled;
    if acts != [] {
      StaysSending(s, acts[0], t);
      assert forall a :: a in acts[1..] ==> a in acts;
      SendingRun(Step(s, acts[0]), acts[1..], t);
    }
  }

  /** A publish, from its look at the topic to its end, whatever goes on meanwhile: its message is
      in the channels of exactly those subscribers that the topic then had and whose send did not
      time out, once each, and in no other. */
  lemma PublishDelivers(s: State, t: Tid, acts: seq<Action>, k: SubId)
    requires Reachable(s) && At(s, t).PubNamed? && NoReturn(acts, t)
    requires At(Exec(Step(s, PubCapture(t)), acts), t).Sending? && At(Exec(Step(s, PubCapture(t)), acts), t).targets == {}
    requires k in Exec(Step(s, PubCapture(t)), acts).chan
    ensures var p, s1 := At(s, t), Step(s, PubCapture(t));
            multiset(Exec(s1, acts).chan[k].got)[Msg(p.id, t, p.topic, p.payload)] ==
              if k in Subs(s, p.topic) && k !in TimedOut(s1, acts, t) then 1 else 0
  {
    var s1 := Step(s, PubCapture(t));
    assert At(s1, t) == Sending(Msg(At(s, t).id, t, At(s, t).topic, At(s, t).payload), Subs(s, At(s, t).topic), Subs(s, At(s, t).topic), {});
    hide Reachable, Step;
    ReachableStep(s, PubCapture(t));
    ReachableRun(s1, acts);
    SendingRun(s1, acts, t);
    SentSoFar(Exec(s1, acts), t, k);
  }

  lemma {:induction false} ReachableRun(s: State, acts: seq<Action>)
    requires Reachable(s)
    ensures Reachable(Exec(s, acts))
    decreases |acts|
  {
    hide Step, Reachable;
    if acts != [] {
      ReachableStep(s, acts[0]);
      ReachableRun(Step(s, acts[0]), acts[1..]);
    }
  }

  /** As long as the channels it still has to serve are open, a publish can go through with all of
      them, by its own sends alone. */
  lemma {:induction false} PublishCanFinish(s: State, t: Tid) returns (acts: seq<Action>)
    requires At(s, t).Sending? && forall k :: k in At(s, t).targets ==> k in s.chan && s.chan[k].open
    ensures forall a :: a in acts ==> a.PubSend? && a.t == t
    ensures var p, p' := At(s, t), At(Exec(s, acts), t);
            p'.Sending? && p'.msg == p.msg && p'.captured == p.captured && p'.missed == p.missed && p'.targets == {}
    decreases At(s, t).targets
  {
    if At(s, t).targets == {} {
      acts := [];
    } else {
      var k :| k in At(s, t).targets;
      var s' := Step(s, PubSend(t, k));
      assert At(s', t).targets == At(s, t).targets - {k};
      var rest := PublishCanFinish(s', t);
      acts := [PubSend(t, k)] + rest;
      assert acts[1..] == rest;
    }
  }

  /** One send puts exactly its message at the end of its channel and changes no other channel. */
  lemma SendPuts(s: State, t: Tid, k: SubId)
    requires Reachable(s) && Enabled(s, PubSend(t, k))
    ensures var s' := Apply(s, PubSend(t, k));
            && s'.chan == s.chan[k := s.chan[k].(got := s.chan[k].got + [At(s, t).msg])]
            && At(s, t).msg !in s.chan[k].got && At(s', t).targets == At(s, t).targets - {k}
  {
    hide Reachable;
    ReachableInv(s);
    assert SendOk(s, At(s, t));
  }

  /** And nothing else puts anything in or takes it out again: what a channel has been sent only
      grows. */
  lemma GotGrows(s: State, a: Action, k: SubId)
    requires Reachable(s) && k in s.chan
    ensures k in Step(s, a).chan
    ensures Step(s, a).chan[k].got == s.chan[k].got + if Enabled(s, a) && a.PubSend? && a.k == k then [At(s, a.t).msg] else []
  {
    hide Reachable;
    ReachableInv(s);
    if Enabled(s, a) {
      ChannelsStay(s, a);
    }
    hide Inv, Apply, Enabled;
  }

  /** A new subscription is listed, open and empty; the others are as they were. */
  lemma SubscriptionStarts(s: State, t: Tid)
    requires Reachable(s) && Enabled(s, SubAdd(t))
    ensures var s', topic, id := Apply(s, SubAdd(t)), At(s, t).topic, At(s, t).id;
            && id !in s.chan && s'.chan == s.chan[id := Chan(topic, true, 0, [], No)]
            && forall n :: Subs(s', n) == if n == topic then Subs(s, n) + {id} else Subs(s, n)
  {
    hide Reachable;
    ReachableInv(s);
  }

  /** A publisher about to send finds the channel closed if and only if its subscriber's own
      unsubscribe has run to the end in the meantime; Close is never the cause. */
  lemma SendMeetsClosedExactlyWhen(s: State, t: Tid, k: SubId)
    requires Reachable(s) && At(s, t).Sending? && k in At(s, t).targets
    ensures k in s.chan && (!s.chan[k].open <==> s.chan[k].unsub == Done)
    ensures !s.closed
  {
    ReachableInv(s);
    assert Reads(At(s, t));
  }

  lemma {:induction false} ExecThen(s: State, acts: seq<Action>, a: Action)
    ensures Exec(s, acts + [a]) == Step(Exec(s, acts), a)
    decreases |acts|
  {
    if acts == [] {
      assert Exec(Step(s, a), []) == Step(s, a);
    } else {
      assert (acts + [a])[1..] == acts[1..] + [a];
      ExecThen(Step(s, acts[0]), acts[1..], a);
    }
  }

  lemma ReachableStep(s: State, a: Action)
    requires Reachable(s)
    ensures Reachable(Step(s, a))
  {
    var acts :| s == Exec(Init, acts);
    ExecThen(Init, acts, a);
  }

  lemma InitReachable()
    ensures Reachable(Init)
  {
    assert Exec(Init, []) == Init;
  }

  // That does happen: publisher 1 captures subscriber 1, which then unsubscribes.
  lemma SendCanMeetClosed()
    ensures exists s, k :: Reachable(s) && At(s, 1).Sending? && k in At(s, 1).targets && k in s.chan && !s.chan[k].open
  {
    hide Reachable, Exec;
    InitReachable();
    var s1 := SubscribeOne();
    ReachableStep(s1, PubEnter(1, "jobs", "x"));
    var s2 := Step(s1, PubEnter(1, "jobs", "x"));
    ReachableStep(s2, PubName(1));
    var s3 := Step(s2, PubName(1));
    ReachableStep(s3, PubCapture(1));
    var s4 := Step(s3, PubCapture(1));
    ReachableStep(s4, UnsubFlag(0, 1));
    var s5 := Step(s4, UnsubFlag(0, 1));
    ReachableStep(s5, UnsubRemove(0));
    var s6 := Step(s5, UnsubRemove(0));
    assert 1 in At(s6, 1).targets && !s6.chan[1].open;
  }

  lemma SubscribeOne() returns (s: State)
    ensures Reachable(s) && WriterFree(s) && !s.closed && At(s, 0).Idle? && At(s, 1).Idle?
    ensures s.topics == map["jobs" := {1}] && s.chan == map[1 := Chan("jobs", true, 0, [], No)]
  {
    hide Reachable, Exec;
    InitReachable();
    ReachableStep(Init, SubEnter(0, "jobs"));
    s := Step(Init, SubEnter(0, "jobs"));
    ReachableStep(s, SubName(0));
    s := Step(s, SubName(0));
    ReachableStep(s, SubAdd(0));
    assert s.topics == map["jobs" := {}] && At(s, 0) == SubNamed("jobs", 1);
    s := Step(s, SubAdd(0));
    assert {} + {1 as SubId} == {1};
    assert s.topics == map["jobs" := {1}];
    ReachableStep(s, SubReturn(0));
    s := Step(s, SubReturn(0));
  }
}
