/** What becomes of a scheduled job, over every run of Dispatch.dfy: told by the requests that were
    made and the steps the loop took, not by the model's own notes. */
module DispatchOutcomes {
  import opened Wrappers
  import opened QueueSpec
  import opened JobDomain
  import opened Dispatch

  // --- what a run has done, read off its steps ---

  // The entry of the job that a step schedules or recovers.
  ghost function Admits(s: State, a: Action): set<Entry> {
    if a.Schedule? && Enabled(s, a) then {Entry(a.id, a.time)}
    else if a.Recover? && Enabled(s, a) then {a.e}
    else {}
  }

  // The job a client takes out of the queue.
  ghost function TakesOut(s: State, a: Action): set<Id> {
    if a.StopRemove? && Enabled(s, a) && a.removed then {At(s, a.t).id} else {}
  }

  // The entry the loop takes out of the queue.
  ghost function Pops(s: State, a: Action): set<Entry> {
    if a.Pop? && Enabled(s, a) && a.next.Some? then {a.next.value} else {}
  }

  ghost function Next(s: State, a: Action): State {
    if Enabled(s, a) then Apply(s, a) else s
  }

  ghost function Admitted(s: State, acts: seq<Action>): set<Entry>
    decreases |acts|
  {
    if acts == [] then {} else Admits(s, acts[0]) + Admitted(Next(s, acts[0]), acts[1..])
  }

  ghost function TakenOut(s: State, acts: seq<Action>): set<Id>
    decreases |acts|
  {
    if acts == [] then {} else TakesOut(s, acts[0]) + TakenOut(Next(s, acts[0]), acts[1..])
  }

  ghost function Popped(s: State, acts: seq<Action>): set<Entry>
    decreases |acts|
  {
    if acts == [] then {} else Pops(s, acts[0]) + Popped(Next(s, acts[0]), acts[1..])
  }

  // --- the ledger ---

  // A client that has the entry on its way into the queue.
  predicate Brings(c: Client, e: Entry) { c == Stored(e) || c == Adding(e) }

  // A client that has the job on its way out of the queue.
  predicate Cancels(c: Client, id: Id) { c == Cancelling(id) || c == Cancel(id) }

  // Which of the five an admitted job is at.
  ghost predicate AtHome(s: State, e: Entry, taken: set<Id>, popped: set<Entry>)
    requires e.id in s.place
  {
    match s.place[e.id]
    case ToRecover => false
    case AtClient(t) =>
      e !in popped && if e.id in taken then Cancels(At(s, t), e.id) else Brings(At(s, t), e)
    case Queued => e in s.queue && e.id !in taken && e !in popped
    case AtScheduler => e.id !in taken && e in popped
    case Cancelled => e.id in s.cancelled && e.id in taken && e !in popped
    case Started => e.id in s.dispatched && e.id !in taken && e in popped
  }

  ghost predicate LedgerOk(s: State, admitted: set<Entry>, taken: set<Id>, popped: set<Entry>) {
    && (forall e :: e in admitted ==> e.id in s.place && AtHome(s, e, taken, popped))
    && (forall e, f :: e in admitted && f in admitted && e.id == f.id ==> e == f)
    && (forall id :: id in s.place && !s.place[id].ToRecover? && !s.place[id].Started? ==> exists e :: e in admitted && e.id == id)
    && (forall id :: id in s.dispatched || id in taken ==> exists e :: e in admitted && e.id == id)
    && popped <= admitted
  }

  lemma EntryOfClient(s: State, t: Tid, admitted: set<Entry>, taken: set<Id>, popped: set<Entry>)
    requires Inv(s) && LedgerOk(s, admitted, taken, popped)
    ensures (At(s, t).Stored? || At(s, t).Adding?) ==> At(s, t).e in admitted
  {
    hide Inv;
    if At(s, t).Stored? || At(s, t).Adding? {
      ClientAt(s, t);
      var f :| f in admitted && f.id == At(s, t).e.id;
      assert AtHome(s, f, taken, popped);
    }
  }

  // A job is at the client that holds it.
  lemma HeldAt(s: State, t: Tid, id: Id)
    requires Inv(s)
    ensures Held(At(s, t)) == Some(id) ==> id in s.place && s.place[id] == AtClient(t)
    ensures id in s.place && s.place[id] == AtClient(t) ==> Held(At(s, t)) == Some(id)
  {
    if t in s.clients {
      assert ClientOk(s, t, s.clients[t]);
    }
    if id in s.place {
      assert JobOk(s, id);
    }
  }

  // Nothing about job x has changed.
  ghost predicate Still(s: State, s': State, x: Id) {
    && (x in s'.place <==> x in s.place)
    && (x in s.place ==> s'.place[x] == s.place[x])
    && (x in s.place && s.place[x].AtClient? ==> At(s', s.place[x].t) == At(s, s.place[x].t))
    && (forall e: Entry :: e.id == x ==> (e in s'.queue <==> e in s.queue))
    && (x in s'.dispatched <==> x in s.dispatched)
    && (x in s'.cancelled <==> x in s.cancelled)
  }

  lemma StillAtHome(s: State, s': State, e: Entry, taken: set<Id>, popped: set<Entry>, taken': set<Id>, popped': set<Entry>)
    requires e.id in s.place && AtHome(s, e, taken, popped) && Still(s, s', e.id)
    requires (e.id in taken' <==> e.id in taken) && (e in popped' <==> e in popped)
    ensures AtHome(s', e, taken', popped')
  {
  }

  // Steps after which every job is where it was.
  predicate Idles(s: State, a: Action)
    requires Enabled(s, a)
  {
    a.Signal? || a.StopLook? || a.StopSignal? || a.StoreTask? || a.GiveUp? || a.DeleteLook? || a.DeleteCheck? || a.DeleteStore?
    || a.DeleteTask? || a.LifeCreate? || a.LifeWrite? || a.Tick? || a.Peek? || a.Park? || a.Wake? || a.TimerFires? || a.ReadStore? || a.Halt?
    || (a.StopRemove? && !a.removed) || (a.Pop? && a.next.None?) || (a.StopWrite? && At(s, a.t).Stop?)
  }

  predicate OfNoClient(a: Action) { OfLoop(a) || a.Pop? || a.ReadStore? || a.Tick? || a.LifeCreate? || a.LifeWrite? }

  ghost predicate PlacesSame(s: State, s': State) {
    s'.place == s.place && s'.queue == s.queue && s'.dispatched == s.dispatched && s'.cancelled == s.cancelled
  }

  lemma LoopKeepsPlaces(s: State, a: Action)
    requires Enabled(s, a) && Idles(s, a) && OfNoClient(a)
    ensures PlacesSame(s, Apply(s, a)) && Apply(s, a).clients == s.clients
  {
    hide IsMin, Removes, Takes, IsScheduled, IsRunning;
    if OfLoop(a) {
      OwnKeepsPlaces(s, a);
    } else {
      OthersKeepPlaces(s, a);
    }
    hide Apply, Enabled, PlacesSame;
  }

  lemma OwnKeepsPlaces(s: State, a: Action)
    requires Enabled(s, a) && OfLoop(a)
    ensures PlacesSame(s, Apply(s, a)) && Apply(s, a).clients == s.clients
  {
    hide IsMin;
  }

  lemma OthersKeepPlaces(s: State, a: Action)
    requires Enabled(s, a) && Idles(s, a) && OfNoClient(a) && !OfLoop(a)
    ensures PlacesSame(s, Apply(s, a)) && Apply(s, a).clients == s.clients
  {
    hide IsMin, IsScheduled, IsRunning;
  }

  lemma ClientKeepsPlaces(s: State, a: Action)
    requires Enabled(s, a) && Idles(s, a) && !OfNoClient(a)
    ensures PlacesSame(s, Apply(s, a))
  {
    hide IsMin, Removes, Takes, IsScheduled, IsRunning;
  }

  lemma IdleKeepsPlaces(s: State, a: Action)
    requires Enabled(s, a) && Idles(s, a)
    ensures PlacesSame(s, Apply(s, a))
  {
    hide Enabled, Apply, Idles, PlacesSame;
    if OfNoClient(a) {
      LoopKeepsPlaces(s, a);
    } else {
      ClientKeepsPlaces(s, a);
    }
  }

  lemma IdleKeepsClient(s: State, a: Action, t: Tid)
    requires Enabled(s, a) && Idles(s, a)
    ensures (At(s, t).Stored? || At(s, t).Adding?) ==> Brings(At(Apply(s, a), t), At(s, t).e)
    ensures (At(s, t).Cancelling? || At(s, t).Cancel?) ==> Cancels(At(Apply(s, a), t), At(s, t).id)
  {
    hide Removes, Takes, IsMin;
    if OfNoClient(a) {
      LoopKeepsPlaces(s, a);
    } else if At(Apply(s, a), t) != At(s, t) {
      ClientOfStep(s, a, t);
    }
  }

  // The only client a step moves is the one that takes it.
  lemma ClientOfStep(s: State, a: Action, t: Tid)
    requires Enabled(s, a) && Idles(s, a) && !OfNoClient(a) && At(Apply(s, a), t) != At(s, t)
    ensures At(s, t).Stored? ==> a == StoreTask(t)
    ensures At(s, t).Cancelling? ==> a == StopSignal(t)
    ensures !At(s, t).Adding? && !At(s, t).Cancel?
  {
    hide Removes, Takes, IsMin;
  }

  lemma IdleKeeps(s: State, a: Action, admitted: set<Entry>, taken: set<Id>, popped: set<Entry>)
    requires LedgerOk(s, admitted, taken, popped) && Enabled(s, a) && Idles(s, a)
    ensures LedgerOk(Apply(s, a), admitted, taken, popped)
  {
    hide Apply, Enabled, Idles;
    IdleKeepsPlaces(s, a);
    var s' := Apply(s, a);
    forall e | e in admitted ensures AtHome(s', e, taken, popped) {
      assert AtHome(s, e, taken, popped);
      if s.place[e.id].AtClient? {
        IdleKeepsClient(s, a, s.place[e.id].t);
      }
    }
  }

  // A step that touches one job only: the others are as they were, and that one is at home.
  lemma OneMoves(s: State, s': State, e: Entry, admitted: set<Entry>, taken: set<Id>, popped: set<Entry>,
                 admitted': set<Entry>, taken': set<Id>, popped': set<Entry>)
    requires LedgerOk(s, admitted, taken, popped)
    requires forall x :: x != e.id ==> Still(s, s', x)
    requires admitted' == admitted + {e} && (e in admitted || forall f :: f in admitted ==> f.id != e.id)
    requires (taken' == taken || taken' == taken + {e.id}) && (popped' == popped || popped' == popped + {e})
    requires e.id in s'.place && AtHome(s', e, taken', popped')
    ensures LedgerOk(s', admitted', taken', popped')
  {
    forall f | f in admitted' ensures f.id in s'.place && AtHome(s', f, taken', popped') {
      if f.id != e.id {
        assert AtHome(s, f, taken, popped);
        StillAtHome(s, s', f, taken, popped, taken', popped');
      }
    }
    forall id | id in s'.place && !s'.place[id].ToRecover? && !s'.place[id].Started? ensures exists f :: f in admitted' && f.id == id {
      if id != e.id {
        assert Still(s, s', id);
      }
    }
    forall id | id in s'.dispatched || id in taken' ensures exists f :: f in admitted' && f.id == id {
      if id != e.id {
        assert Still(s, s', id);
      }
    }
  }

  // A client that holds no job, or holds this one, moves on with it.
  lemma OtherJobsStill(s: State, s': State, t: Tid, id: Id)
    requires Inv(s) && Held(At(s, t)) in {None, Some(id)}
    requires forall u :: u != t ==> At(s', u) == At(s, u)
    requires forall x :: x != id ==> (x in s'.place <==> x in s.place) && (x in s.place ==> s'.place[x] == s.place[x])
    requires forall x :: x != id ==> (x in s'.dispatched <==> x in s.dispatched) && (x in s'.cancelled <==> x in s.cancelled)
    requires forall e: Entry :: e.id != id ==> (e in s'.queue <==> e in s.queue)
    ensures forall x :: x != id ==> Still(s, s', x)
  {
    hide Inv, Held;
    forall x | x != id ensures Still(s, s', x) {
      HeldAt(s, t, x);
    }
  }

  lemma FreshJob(s: State, id: Id, admitted: set<Entry>, taken: set<Id>, popped: set<Entry>)
    requires LedgerOk(s, admitted, taken, popped) && (id in s.place ==> s.place[id] == ToRecover)
    ensures id !in taken && (forall f :: f in admitted ==> f.id != id) && (forall f :: f in popped ==> f.id != id)
    ensures id !in s.dispatched
  {
    forall f | f in admitted ensures f.id != id {
      assert AtHome(s, f, taken, popped);
    }
  }

  lemma QueuedIsAdmitted(s: State, e: Entry, admitted: set<Entry>, taken: set<Id>, popped: set<Entry>)
    requires Inv(s) && LedgerOk(s, admitted, taken, popped) && e in s.queue
    ensures e in admitted && AtHome(s, e, taken, popped) && e.id in s.place && s.place[e.id] == Queued
  {
    QueuedAt(s, e);
    var f :| f in admitted && f.id == e.id;
    assert AtHome(s, f, taken, popped);
  }

  lemma AdmissionKeeps(s: State, a: Action, admitted: set<Entry>, taken: set<Id>, popped: set<Entry>)
    requires Inv(s) && LedgerOk(s, admitted, taken, popped) && Enabled(s, a) && (a.Schedule? || a.Recover?)
    ensures LedgerOk(Apply(s, a), admitted + Admits(s, a), taken, popped)
  {
    var s' := Apply(s, a);
    var e := if a.Schedule? then Entry(a.id, a.time) else a.e;
    FreshJob(s, e.id, admitted, taken, popped);
    hide Inv, LedgerOk;
    OtherJobsStill(s, s', a.t, e.id);
    OneMoves(s, s', e, admitted, taken, popped, admitted + Admits(s, a), taken, popped);
  }

  lemma QueueAddKeeps(s: State, t: Tid, admitted: set<Entry>, taken: set<Id>, popped: set<Entry>)
    requires Inv(s) && LedgerOk(s, admitted, taken, popped) && At(s, t).Adding?
    ensures LedgerOk(Enqueue(s, t, At(s, t).e), admitted, taken, popped)
  {
    var e := At(s, t).e;
    var s' := Enqueue(s, t, e);
    EntryOfClient(s, t, admitted, taken, popped);
    HeldAt(s, t, e.id);
    assert AtHome(s, e, taken, popped);
    hide Inv, LedgerOk;
    assert admitted == admitted + {e};
    OtherJobsStill(s, s', t, e.id);
    OneMoves(s, s', e, admitted, taken, popped, admitted, taken, popped);
  }

  lemma TakingKeeps(s: State, t: Tid, e: Entry, q': multiset<Entry>, admitted: set<Entry>, taken: set<Id>, popped: set<Entry>)
    requires Inv(s) && LedgerOk(s, admitted, taken, popped)
    requires At(s, t).StopLooked? && e in s.queue && q' == s.queue - multiset{e}
    ensures LedgerOk(TakeOut(s, t, e.id, q'), admitted, taken + {e.id}, popped)
  {
    var s' := TakeOut(s, t, e.id, q');
    QueuedIsAdmitted(s, e, admitted, taken, popped);
    hide Inv, LedgerOk;
    assert admitted == admitted + {e};
    OtherJobsStill(s, s', t, e.id);
    OneMoves(s, s', e, admitted, taken, popped, admitted, taken + {e.id}, popped);
  }

  lemma CancelKeeps(s: State, t: Tid, admitted: set<Entry>, taken: set<Id>, popped: set<Entry>)
    requires Inv(s) && LedgerOk(s, admitted, taken, popped) && At(s, t).Cancel?
    ensures LedgerOk(FinishCancel(s, t, At(s, t).id), admitted, taken, popped)
  {
    var id := At(s, t).id;
    var s' := FinishCancel(s, t, id);
    HeldAt(s, t, id);
    var e :| e in admitted && e.id == id;
    assert AtHome(s, e, taken, popped);
    hide Inv, LedgerOk;
    assert admitted == admitted + {e};
    OtherJobsStill(s, s', t, id);
    OneMoves(s, s', e, admitted, taken, popped, admitted, taken, popped);
  }

  lemma PopMovesOne(s: State, e: Entry, q': multiset<Entry>)
    requires Inv(s) && q' == s.queue - multiset{e} && e.id in s.place
    ensures forall x :: x != e.id ==> Still(s, TakeNext(s, e, q'), x)
  {
    hide Inv;
    var t := IdleClient(s);
    OtherJobsStill(s, TakeNext(s, e, q'), t, e.id);
  }

  lemma PopKeeps(s: State, e: Entry, q': multiset<Entry>, admitted: set<Entry>, taken: set<Id>, popped: set<Entry>)
    requires Inv(s) && LedgerOk(s, admitted, taken, popped) && e in s.queue && q' == s.queue - multiset{e}
    ensures LedgerOk(TakeNext(s, e, q'), admitted, taken, popped + {e})
  {
    var s' := TakeNext(s, e, q');
    hide Inv, LedgerOk;
    QueuedIsAdmitted(s, e, admitted, taken, popped);
    assert admitted == admitted + {e};
    PopMovesOne(s, e, q');
    OneMoves(s, s', e, admitted, taken, popped, admitted, taken, popped + {e});
  }

  lemma LaunchKeeps(s: State, admitted: set<Entry>, taken: set<Id>, popped: set<Entry>)
    requires Inv(s) && LedgerOk(s, admitted, taken, popped) && s.loop.Fresh?
    ensures LedgerOk(Start(s, s.loop.id), admitted, taken, popped)
  {
    var id := s.loop.id;
    var s' := Start(s, id);
    assert InHand(s.loop, id) && JobOk(s, id);
    var e :| e in admitted && e.id == id;
    assert AtHome(s, e, taken, popped);
    var t := IdleClient(s);
    hide Inv, LedgerOk;
    assert admitted == admitted + {e};
    OtherJobsStill(s, s', t, id);
    OneMoves(s, s', e, admitted, taken, popped, admitted, taken, popped);
  }

  lemma RunNowLedger(s: State, id: Id, admitted: set<Entry>, taken: set<Id>, popped: set<Entry>)
    requires LedgerOk(s, admitted, taken, popped) && id !in s.place
    ensures LedgerOk(s.(place := s.place[id := Started]), admitted, taken, popped)
  {
    var s' := s.(place := s.place[id := Started]);
    FreshJob(s, id, admitted, taken, popped);
    forall e | e in admitted ensures AtHome(s', e, taken, popped) {
      assert AtHome(s, e, taken, popped);
    }
  }

  lemma StepKeepsLedger(s: State, a: Action, admitted: set<Entry>, taken: set<Id>, popped: set<Entry>)
    requires Inv(s) && LedgerOk(s, admitted, taken, popped) && Enabled(s, a)
    ensures LedgerOk(Apply(s, a), admitted + Admits(s, a), taken + TakesOut(s, a), popped + Pops(s, a))
  {
    hide LedgerOk, Inv;
    if Idles(s, a) {
      IdleKeeps(s, a, admitted, taken, popped);
      assert admitted + Admits(s, a) == admitted && taken + TakesOut(s, a) == taken && popped + Pops(s, a) == popped;
    } else {
      MovesKeep(s, a, admitted, taken, popped);
    }
  }

  lemma MovesKeep(s: State, a: Action, admitted: set<Entry>, taken: set<Id>, popped: set<Entry>)
    requires Inv(s) && LedgerOk(s, admitted, taken, popped) && Enabled(s, a) && !Idles(s, a)
    ensures LedgerOk(Apply(s, a), admitted + Admits(s, a), taken + TakesOut(s, a), popped + Pops(s, a))
  {
    hide LedgerOk, Inv;
    assert !(a.Schedule? || a.Recover?) ==> admitted + Admits(s, a) == admitted;
    assert !a.StopRemove? ==> taken + TakesOut(s, a) == taken;
    assert !a.Pop? ==> popped + Pops(s, a) == popped;
    if a.Schedule? || a.Recover? {
      AdmissionKeeps(s, a, admitted, taken, popped);
    } else if a.StopRemove? {
      var e :| e in s.queue && e.id == At(s, a.t).id && a.q' == s.queue - multiset{e};
      TakingKeeps(s, a.t, e, a.q', admitted, taken, popped);
    } else if a.Pop? {
      PopKeeps(s, a.next.value, a.q', admitted, taken, popped);
    } else {
      OtherMovesKeep(s, a, admitted, taken, popped);
    }
  }

  lemma OtherMovesKeep(s: State, a: Action, admitted: set<Entry>, taken: set<Id>, popped: set<Entry>)
    requires Inv(s) && LedgerOk(s, admitted, taken, popped) && Enabled(s, a)
    requires a.QueueAdd? || (a.StopWrite? && At(s, a.t).Cancel?) || a.Launch? || a.RunNow?
    ensures LedgerOk(Apply(s, a), admitted, taken, popped)
  {
    hide LedgerOk;
    match a {
      case QueueAdd(t) => QueueAddKeeps(s, t, admitted, taken, popped);
      case StopWrite(t) => CancelKeeps(s, t, admitted, taken, popped);
      case Launch => LaunchKeeps(s, admitted, taken, popped);
      case RunNow(id) => RunNowLedger(s, id, admitted, taken, popped);
    }
  }

  lemma {:induction false} RunKeepsLedger(s: State, acts: seq<Action>, admitted: set<Entry>, taken: set<Id>, popped: set<Entry>)
    requires Inv(s) && LedgerOk(s, admitted, taken, popped)
    ensures Inv(Exec(s, acts))
    ensures LedgerOk(Exec(s, acts), admitted + Admitted(s, acts), taken + TakenOut(s, acts), popped + Popped(s, acts))
    decreases |acts|
  {
    hide Inv, LedgerOk, Enabled, Apply, Admits, TakesOut, Pops;
    if acts == [] {
      assert admitted + {} == admitted && taken + {} == taken && popped + {} == popped;
    } else {
      var a, rest := acts[0], acts[1..];
      NothingWhenDisabled(s, a);
      var s', ad, ta, po := Next(s, a), admitted + Admits(s, a), taken + TakesOut(s, a), popped + Pops(s, a);
      if Enabled(s, a) {
        StepKeepsInv(s, a);
        StepKeepsLedger(s, a, admitted, taken, popped);
      } else {
        assert ad == admitted && ta == taken && po == popped;
      }
      RunKeepsLedger(s', rest, ad, ta, po);
      assert ad + Admitted(s', rest) == admitted + Admitted(s, acts);
      assert ta + TakenOut(s', rest) == taken + TakenOut(s, acts);
      assert po + Popped(s', rest) == popped + Popped(s, acts);
    }
  }

  lemma NothingWhenDisabled(s: State, a: Action)
    ensures !Enabled(s, a) ==> Admits(s, a) == {} && TakesOut(s, a) == {} && Pops(s, a) == {}
  {
    hide Enabled;
  }

  // --- theorems over every run ---

  lemma RunLedger(s0: State, acts: seq<Action>)
    requires Init(s0)
    ensures Inv(Exec(s0, acts))
    ensures LedgerOk(Exec(s0, acts), Admitted(s0, acts), TakenOut(s0, acts), Popped(s0, acts))
  {
    RunKeepsLedger(s0, acts, {}, {}, {});
    assert {} + Admitted(s0, acts) == Admitted(s0, acts);
    assert {} + TakenOut(s0, acts) == TakenOut(s0, acts);
    assert {} + Popped(s0, acts) == Popped(s0, acts);
  }

  // A job that was scheduled or recovered is, at any time, in exactly one state: taken out by a
  // client, and then being cancelled or cancelled; popped by the loop, and then in its hands or
  // dispatched; or neither, and then on its way into the queue or queued with its own time.
  lemma OneOutcome(s0: State, acts: seq<Action>, e: Entry)
    requires Init(s0) && e in Admitted(s0, acts)
    ensures var s, out, popped := Exec(s0, acts), e.id in TakenOut(s0, acts), e in Popped(s0, acts);
            && !(out && popped)
            && (e.id in s.cancelled <==> out && forall t :: !Cancels(At(s, t), e.id))
            && ((exists t :: Cancels(At(s, t), e.id)) <==> out && e.id !in s.cancelled)
            && (e.id in s.dispatched <==> popped && !InHand(s.loop, e.id))
            && (InHand(s.loop, e.id) <==> popped && e.id !in s.dispatched)
            && (e in s.queue <==> !out && !popped && forall t :: !Brings(At(s, t), e))
            && ((exists t :: Brings(At(s, t), e)) <==> !out && !popped && e !in s.queue)
  {
    RunLedger(s0, acts);
    var s := Exec(s0, acts);
    assert AtHome(s, e, TakenOut(s0, acts), Popped(s0, acts));
    JobAt(s, e.id);
    forall t ensures Brings(At(s, t), e) || Cancels(At(s, t), e.id) ==> s.place[e.id] == AtClient(t) {
      HeldAt(s, t, e.id);
    }
    PlacesOfLogs(s, e.id);
    hide Inv, LedgerOk;
    assert e in s.queue ==> HasId(s.queue, e.id);
    if e in s.queue {
      QueuedAt(s, e);
    }
  }

  lemma PlacesOfLogs(s: State, id: Id)
    requires Inv(s) && id in s.place
    ensures id in s.dispatched ==> s.place[id] == Started
    ensures id in s.cancelled ==> s.place[id] == Cancelled
  {
  }

  // Nothing else is dispatched, cancelled or queued: no job that was not scheduled or recovered is.
  lemma NothingElse(s0: State, acts: seq<Action>)
    requires Init(s0)
    ensures forall id :: id in Exec(s0, acts).dispatched ==> exists e :: e in Popped(s0, acts) && e.id == id
    ensures forall id :: id in Exec(s0, acts).cancelled ==> id in TakenOut(s0, acts)
    ensures forall e :: e in Exec(s0, acts).queue ==> e in Admitted(s0, acts)
    ensures Popped(s0, acts) <= Admitted(s0, acts)
    ensures forall id :: id in TakenOut(s0, acts) ==> exists e :: e in Admitted(s0, acts) && e.id == id
  {
    RunLedger(s0, acts);
    var s, admitted, taken, popped := Exec(s0, acts), Admitted(s0, acts), TakenOut(s0, acts), Popped(s0, acts);
    hide Exec;
    forall e | e in s.queue ensures e in admitted {
      QueuedIsAdmitted(s, e, admitted, taken, popped);
    }
    forall id | id in s.dispatched ensures exists e :: e in popped && e.id == id {
      var e :| e in admitted && e.id == id;
      assert AtHome(s, e, taken, popped);
    }
    forall id | id in s.cancelled ensures id in taken {
      var e :| e in admitted && e.id == id;
      assert AtHome(s, e, taken, popped);
    }
  }

  // What each step does to the records: a launched job is INITIALIZING and counted as dispatched, a
  // cancelled one CANCELED and counted as cancelled, a stopped one STOPPED unless it is gone.
  lemma RecordsChange(s: State, a: Action)
    requires Reachable(s) && Enabled(s, a)
    ensures var s' := Apply(s, a);
            match a
            case Schedule(_, id, _) => s'.store == s.store[id := SCHEDULED]
            case Launch => s'.store == s.store[s.loop.id := INITIALIZING]
            case StopWrite(t) =>
              if At(s, t).Cancel? then s'.store == s.store[At(s, t).id := CANCELED]
              else s'.store == if At(s, t).id in s.tasks then s.store[At(s, t).id := STOPPED] else s.store
            case DeleteStore(t) => s'.store == s.store - {At(s, t).id}
            case LifeCreate(id, st) => s'.store == s.store[id := st]
            case LifeWrite(id, st) => s'.store == if id in s.tasks then s.store[id := st] else s.store
            case _ => s'.store == s.store
    ensures Apply(s, a).dispatched == s.dispatched + if a.Launch? then [s.loop.id] else []
    ensures Apply(s, a).cancelled == s.cancelled + if a.StopWrite? && At(s, a.t).Cancel? then [At(s, a.t).id] else []
  {
    hide Reachable, Removes, Takes, IsMin;
    if a.Launch? {
      LaunchRecords(s);
    } else if a.StopWrite? {
      StopRecords(s, a.t);
    }
  }

  lemma LaunchRecords(s: State)
    requires Reachable(s) && s.loop.Fresh?
    ensures var s' := Apply(s, Launch);
            s'.store == s.store[s.loop.id := INITIALIZING] && s'.dispatched == s.dispatched + [s.loop.id] && s'.cancelled == s.cancelled
  {
    hide Inv, Reachable;
    ReachableIsInv(s);
    LaunchedHasTask(s);
  }

  lemma LaunchedHasTask(s: State)
    requires Inv(s) && s.loop.Fresh?
    ensures s.loop.st == Some(SCHEDULED) && s.loop.id in s.tasks
  {
    PoppedIsScheduled(s);
    assert InHand(s.loop, s.loop.id);
    JobAt(s, s.loop.id);
  }

  lemma StopRecords(s: State, t: Tid)
    requires Reachable(s) && (At(s, t).Cancel? || At(s, t).Stop?)
    ensures var s', id := Apply(s, StopWrite(t)), At(s, t).id;
            && s'.dispatched == s.dispatched
            && if At(s, t).Cancel? then s'.store == s.store[id := CANCELED] && s'.cancelled == s.cancelled + [id]
               else s'.store == (if id in s.tasks then s.store[id := STOPPED] else s.store) && s'.cancelled == s.cancelled
  {
    hide Inv, Reachable;
    ReachableIsInv(s);
    if At(s, t).Cancel? {
      CancelHasTask(s, t);
    }
  }

  // A job being cancelled has its task still, so the write is not dropped.
  lemma CancelHasTask(s: State, t: Tid)
    requires Inv(s) && At(s, t).Cancel?
    ensures At(s, t).id in s.tasks
  {
    HeldAt(s, t, At(s, t).id);
    JobAt(s, At(s, t).id);
  }

  // So a record that says SCHEDULED stops saying so with two steps only.
  lemma ScheduledUntil(s: State, a: Action, id: Id)
    requires Reachable(s) && Enabled(s, a) && id in s.store && s.store[id] == SCHEDULED
    ensures var s' := Apply(s, a);
            !(id in s'.store && s'.store[id] == SCHEDULED) <==>
              (a.Launch? && s.loop.id == id) || (a.StopWrite? && At(s, a.t) == Cancel(id))
  {
    hide Reachable;
    RecordsChange(s, a);
    ReachableIsInv(s);
    JobAt(s, id);
    hide Apply, Enabled;
    if a.StopWrite? || a.DeleteStore? {
      ClientAt(s, a.t);
    }
  }

  // --- the loop serves what is due ---

  predicate OwnStep(a: Action) { (OfLoop(a) && !a.Halt?) || a.Pop? || a.ReadStore? || a.Launch? }

  // From s to s' everything due has been dispatched and nothing else has left the queue.
  ghost predicate Serves(s: State, s': State) {
    && s'.now == s.now && s'.queue <= s.queue && s.dispatched <= s'.dispatched
    && (forall e :: e in s'.queue ==> e.time > s.now)
    && (forall e :: e in s.queue ==> e in s'.queue || e.id in s'.dispatched)
    && (forall id :: InHand(s.loop, id) ==> id in s'.dispatched)
    && (forall e :: e in s.queue && e.time > s.now ==> e in s'.queue)
  }

  ghost predicate Ready(s: State) {
    Reachable(s) && !s.loop.Halted? && forall t :: t in s.clients ==> !Pending(s.clients[t])
  }

  ghost predicate AnyDue(s: State) { exists e :: e in s.queue && e.time <= s.now }

  // The loop has a job in its hands, or a due one to fetch.
  ghost predicate Busy(s: State) { s.loop.Holding? || s.loop.Fresh? || AnyDue(s) }

  lemma {:induction false} MinExists(q: multiset<Entry>) returns (e: Entry)
    requires q != multiset{}
    ensures IsMin(q, e)
    decreases |q|
  {
    var x :| x in q;
    if q - multiset{x} == multiset{} {
      e := x;
      assert forall y :: y in q ==> y == x || y in q - multiset{x};
    } else {
      var y := MinExists(q - multiset{x});
      e := if x.time <= y.time then x else y;
      assert forall z :: z in q ==> z == x || z in q - multiset{x};
    }
  }

  lemma OwnReady(s: State, a: Action) returns (s': State)
    requires Ready(s) && Enabled(s, a) && OwnStep(a)
    ensures Ready(s') && s' == Apply(s, a)
  {
    hide Reachable, IsMin, Takes;
    ReachStep(s, a);
    OwnKeepsClients(s, a);
    s' := Apply(s, a);
    hide Apply, Enabled, OwnStep;
  }

  lemma OwnKeepsClients(s: State, a: Action)
    requires Enabled(s, a) && OwnStep(a)
    ensures Apply(s, a).clients == s.clients && !Apply(s, a).loop.Halted?
  {
    hide IsMin, Takes;
    if a.Launch? {
      LaunchMoves(s);
    } else if a.Pop? {
      PopMoves(s, a.next, a.q');
    } else if OfLoop(a) {
      OtherMoves(s, a);
    }
  }

  lemma LaunchMoves(s: State)
    requires s.loop.Fresh?
    ensures var s' := Apply(s, Launch);
            s'.clients == s.clients && s'.now == s.now && s'.queue == s.queue && s'.token == s.token && s'.loop == Top
  {
  }

  lemma PopMoves(s: State, next: Option<Entry>, q': multiset<Entry>)
    requires Enabled(s, Pop(next, q'))
    ensures var s' := Apply(s, Pop(next, q'));
            s'.clients == s.clients && s'.now == s.now && s'.loop == if next.Some? then Holding(next.value.id) else Top
  {
  }

  lemma OtherMoves(s: State, a: Action)
    requires Enabled(s, a) && OfLoop(a)
    ensures Apply(s, a).clients == s.clients && (Apply(s, a).loop.Halted? ==> a.Halt?)
  {
    hide IsMin;
  }

  lemma Before(s: State, a: Action, rest: seq<Action>) returns (acts: seq<Action>)
    requires Enabled(s, a)
    ensures acts == [a] + rest && Exec(s, acts) == Exec(Apply(s, a), rest)
  {
    acts := [a] + rest;
    assert acts[1..] == rest;
  }

  predicate AllOwn(acts: seq<Action>) { forall a :: a in acts ==> OwnStep(a) }

  function Rank(l: Loop): nat {
    match l
    case Holding(_) => 7
    case Fresh(_, _) => 6
    case Top => 5
    case Peeked(_) => 4
    case Asleep(_) => 3
    case Due(_) => 2
    case Halted => 0
  }

  // The step the loop is to take next.
  lemma NextOwn(s: State) returns (a: Action)
    requires Ready(s) && Busy(s)
    ensures Enabled(s, a) && OwnStep(a) && (a.Pop? ==> a.next.Some?)
  {
    hide Reachable;
    match s.loop {
      case Top =>
        var min := MinExists(s.queue);
        a := Peek(min);
        assert Enabled(s, Peek(min));
      case Peeked(_) => a := Park;
      case Asleep(_) => a := NextAsleep(s);
      case Due(_) =>
        var min := MinExists(s.queue);
        a := Pop(Some(min), s.queue - multiset{min});
        assert Enabled(s, Pop(Some(min), s.queue - multiset{min}));
      case Holding(_) => a := ReadStore;
      case Fresh(_, _) => a := Launch;
    }
  }

  lemma NextAsleep(s: State) returns (a: Action)
    requires Ready(s) && AnyDue(s) && s.loop.Asleep?
    ensures Enabled(s, a) && (a.Wake? || a.TimerFires?)
  {
    if s.token {
      a := Wake;
    } else {
      NoLostWakeup(s);
      hide Reachable;
      a := TimerFires;
    }
  }

  // It fetches nothing that is not due, and a job it fetches stays in its hands until it is
  // dispatched; and it gets on.
  lemma OwnStepServes(s: State, a: Action)
    requires Ready(s) && Busy(s) && Enabled(s, a) && OwnStep(a) && (a.Pop? ==> a.next.Some?)
    ensures var s' := Apply(s, a);
            && s'.now == s.now
            && (if a.Pop? then a.next.value in s.queue && s'.queue == s.queue - multiset{a.next.value}
                               && a.next.value.time <= s.now && InHand(s'.loop, a.next.value.id)
                else s'.queue == s.queue)
            && s'.dispatched == s.dispatched + (if a.Launch? then [s.loop.id] else [])
            && (forall id :: InHand(s.loop, id) ==> (if a.Launch? then id == s.loop.id else InHand(s'.loop, id)))
            && (!a.Pop? ==> if a.Wake? then s.token && !s'.token else s'.token == s.token && Rank(s'.loop) < Rank(s.loop))
  {
    hide Reachable;
    if a.Launch? {
      RecordsChange(s, a);
      LaunchMoves(s);
    } else if a.Pop? {
      PopServes(s, a.next.value, a.q');
    } else {
      OtherServes(s, a);
    }
  }

  lemma PopServes(s: State, e: Entry, q': multiset<Entry>)
    requires Ready(s) && Busy(s) && Enabled(s, Pop(Some(e), q'))
    ensures var s' := Apply(s, Pop(Some(e), q'));
            s'.now == s.now && s'.dispatched == s.dispatched && e in s.queue && s'.queue == s.queue - multiset{e}
            && e.time <= s.now && s'.loop == Holding(e.id)
  {
    hide Reachable;
  }

  // The clock, the queue and the job in hand are as they were, and the loop has got on.
  ghost predicate GetsOn(s: State, s': State) {
    && s'.now == s.now && s'.dispatched == s.dispatched && s'.queue == s.queue
    && (forall id :: InHand(s.loop, id) ==> InHand(s'.loop, id))
    && s'.token == s.token && Rank(s'.loop) < Rank(s.loop)
  }

  lemma PeekGetsOn(s: State, head: Entry)
    requires Enabled(s, Peek(head))
    ensures GetsOn(s, Apply(s, Peek(head)))
  {
  }

  lemma ParkGetsOn(s: State)
    requires Enabled(s, Park)
    ensures GetsOn(s, Apply(s, Park))
  {
  }

  lemma TimerGetsOn(s: State)
    requires Enabled(s, TimerFires)
    ensures GetsOn(s, Apply(s, TimerFires))
  {
  }

  lemma ReadGetsOn(s: State)
    requires Enabled(s, ReadStore)
    ensures GetsOn(s, Apply(s, ReadStore))
  {
  }

  lemma WakeGetsOn(s: State)
    requires Enabled(s, Wake)
    ensures var s' := Apply(s, Wake);
            s'.now == s.now && s'.dispatched == s.dispatched && s'.queue == s.queue && s.token && !s'.token
    ensures forall id :: !InHand(s.loop, id)
  {
  }

  lemma OtherServes(s: State, a: Action)
    requires Enabled(s, a) && OwnStep(a) && !a.Launch? && !a.Pop?
    ensures if a.Wake? then
              var s' := Apply(s, a);
              && s'.now == s.now && s'.dispatched == s.dispatched && s'.queue == s.queue && s.token && !s'.token
              && (forall id :: !InHand(s.loop, id))
            else GetsOn(s, Apply(s, a))
  {
    hide Apply, Enabled, GetsOn;
    match a {
      case Peek(head) => PeekGetsOn(s, head);
      case Park => ParkGetsOn(s);
      case TimerFires => TimerGetsOn(s);
      case ReadStore => ReadGetsOn(s);
      case Wake => WakeGetsOn(s);
    }
  }

  // A step that takes out a due entry, if any, and dispatches a job, if any, before one that serves.
  lemma ServesAfter(s: State, s1: State, s2: State, popped: Option<Entry>, launched: Option<Id>)
    requires s1.now == s.now && s1.queue == (if popped.Some? then s.queue - multiset{popped.value} else s.queue)
    requires popped.Some? ==> popped.value in s.queue && popped.value.time <= s.now && InHand(s1.loop, popped.value.id)
    requires s1.dispatched == s.dispatched + if launched.Some? then [launched.value] else []
    requires forall id :: InHand(s.loop, id) ==> launched == Some(id) || InHand(s1.loop, id)
    requires Serves(s1, s2)
    ensures Serves(s, s2)
  {
    hide InHand;
    forall e | e in s.queue ensures (e in s2.queue || e.id in s2.dispatched) && (e.time > s.now ==> e in s2.queue) {
      assert e in s1.queue || popped == Some(e);
    }
    forall id | InHand(s.loop, id) ensures id in s2.dispatched {
      if launched == Some(id) {
        assert s1.dispatched[|s.dispatched|] == id == s2.dispatched[|s.dispatched|];
      }
    }
  }

  lemma ServesOn(s: State, a: Action, s2: State)
    requires Ready(s) && Busy(s) && Enabled(s, a) && OwnStep(a) && (a.Pop? ==> a.next.Some?)
    requires Serves(Apply(s, a), s2)
    ensures Serves(s, s2)
  {
    hide Serves;
    OwnStepServes(s, a);
    hide Ready, Busy, Apply, Enabled, OwnStep;
    ServesAfter(s, Apply(s, a), s2, if a.Pop? then a.next else None, if a.Launch? then Some(s.loop.id) else None);
  }

  // While no client owes it a signal, the loop by itself gets every due job dispatched.
  lemma {:induction false} LoopServes(s: State) returns (acts: seq<Action>)
    requires Ready(s)
    ensures AllOwn(acts) && Serves(s, Exec(s, acts))
    decreases |s.queue|, s.token, Rank(s.loop)
  {
    if Busy(s) {
      var a := NextOwn(s);
      var s' := OwnReady(s, a);
      OwnStepServes(s, a);
      hide Ready, Apply, Enabled, Busy, Serves, OwnStep;
      var rest := LoopServes(s');
      acts := Before(s, a, rest);
      ServesOn(s, a, Exec(s, acts));
    } else {
      acts := [];
    }
  }

  // --- a request on its own ---

  lemma FourSteps(s: State, acts: seq<Action>)
    requires |acts| == 4
    ensures Exec(s, acts) == Next(Next(Next(Next(s, acts[0]), acts[1]), acts[2]), acts[3])
  {
    hide Apply, Enabled;
    var s2 := Next(Next(s, acts[0]), acts[1]);
    var s3 := Next(s2, acts[2]);
    assert acts[1..][1..] == acts[2..] && acts[2..][1..] == acts[3..] && acts[3..][1..] == [];
    assert Exec(s3, acts[3..]) == Next(s3, acts[3]);
    assert Exec(s2, acts[2..]) == Exec(s3, acts[3..]);
  }

  /** StopJob with nobody in between, on a job in the queue: it is out of the queue, CANCELED and
      counted as cancelled, and the loop has a wake signal. */
  lemma StopCancels(s: State, t: Tid, e: Entry)
    requires Reachable(s) && At(s, t).Idle? && e in s.queue
    ensures var s' := Exec(s, [StopLook(t, e.id), StopRemove(t, true, s.queue - multiset{e}), StopSignal(t), StopWrite(t)]);
            && s'.queue == s.queue - multiset{e} && s'.store == s.store[e.id := CANCELED] && s'.cancelled == s.cancelled + [e.id]
            && s'.token && At(s', t).Idle? && s'.loop == s.loop
  {
    hide Reachable;
    ReachableIsInv(s);
    var q' := s.queue - multiset{e};
    QueuedWithTask(s, e);
    hide Inv;
    var s1 := AfterLook(s, t, e.id);
    var s2 := AfterRemove(s1, t, e, q');
    var s3 := AfterSignal(s2, t, e.id);
    var s4 := AfterWrite(s3, t, e.id);
    hide Apply, Enabled;
    FourSteps(s, [StopLook(t, e.id), StopRemove(t, true, q'), StopSignal(t), StopWrite(t)]);
  }

  lemma AfterLook(s: State, t: Tid, id: Id) returns (s': State)
    requires At(s, t).Idle? && id in s.store
    ensures s' == Next(s, StopLook(t, id)) == Go(s, t, StopLooked(id, s.store[id]))
  {
    s' := Next(s, StopLook(t, id));
  }

  lemma AfterRemove(s: State, t: Tid, e: Entry, q': multiset<Entry>) returns (s': State)
    requires At(s, t) == StopLooked(e.id, SCHEDULED) && e in s.queue && q' == s.queue - multiset{e}
    ensures s' == Next(s, StopRemove(t, true, q')) == TakeOut(s, t, e.id, q')
  {
    assert HasId(s.queue, e.id);
    s' := Next(s, StopRemove(t, true, q'));
  }

  lemma AfterSignal(s: State, t: Tid, id: Id) returns (s': State)
    requires At(s, t) == Cancelling(id)
    ensures s' == Next(s, StopSignal(t)) == Go(s, t, Cancel(id)).(token := true)
  {
    s' := Next(s, StopSignal(t));
  }

  lemma AfterWrite(s: State, t: Tid, id: Id) returns (s': State)
    requires At(s, t) == Cancel(id)
    ensures s' == Next(s, StopWrite(t)) == FinishCancel(s, t, id)
  {
    s' := Next(s, StopWrite(t));
  }

  lemma QueuedWithTask(s: State, e: Entry)
    requires Inv(s) && e in s.queue
    ensures e.id in s.store && s.store[e.id] == SCHEDULED && e.id in s.tasks
  {
    QueuedAt(s, e);
  }

  /** On any other job StopJob alone cancels nothing: a RUNNING one becomes STOPPED, and for the rest,
      a SCHEDULED one that has left the queue included, no record changes. */
  lemma StopOtherwise(s: State, t: Tid, id: Id)
    requires At(s, t).Idle? && id in s.store && !HasId(s.queue, id)
    ensures var st := s.store[id];
            var acts := if st == SCHEDULED then [StopLook(t, id), StopRemove(t, false, s.queue)]
                        else if st == RUNNING then [StopLook(t, id), GiveUp(t), StopWrite(t)] else [StopLook(t, id), GiveUp(t)];
            var s' := Exec(s, acts);
            && s'.queue == s.queue && s'.cancelled == s.cancelled && At(s', t).Idle?
            && s'.store == if st == RUNNING && id in s.tasks then s.store[id := STOPPED] else s.store
  {
    var st := s.store[id];
    var s1 := Next(s, StopLook(t, id));
    assert s1 == Go(s, t, StopLooked(id, st));
    if st == SCHEDULED {
      var s2 := Next(s1, StopRemove(t, false, s.queue));
      assert s2 == Go(s1, t, Idle);
      TwoSteps(s, StopLook(t, id), StopRemove(t, false, s.queue));
    } else if st == RUNNING {
      StopRunning(s, t, id);
    } else {
      var s2 := Next(s1, GiveUp(t));
      assert s2 == Go(s1, t, Idle);
      TwoSteps(s, StopLook(t, id), GiveUp(t));
    }
  }

  lemma StopRunning(s: State, t: Tid, id: Id)
    requires At(s, t).Idle? && id in s.store && s.store[id] == RUNNING
    ensures var s' := Exec(s, [StopLook(t, id), GiveUp(t), StopWrite(t)]);
            && s'.queue == s.queue && s'.cancelled == s.cancelled && At(s', t).Idle?
            && s'.store == if id in s.tasks then s.store[id := STOPPED] else s.store
  {
    var acts := [StopLook(t, id), GiveUp(t), StopWrite(t)];
    var s1 := AfterLook(s, t, id);
    var s2 := AfterGiveUp(s1, t, id);
    var s3 := AfterStop(s2, t, id);
    hide Apply, Enabled;
    assert acts[1..][1..] == acts[2..] && acts[2..][1..] == [];
    assert Exec(s2, acts[2..]) == s3;
  }

  lemma AfterGiveUp(s: State, t: Tid, id: Id) returns (s': State)
    requires At(s, t) == StopLooked(id, RUNNING)
    ensures s' == Next(s, GiveUp(t)) == Go(s, t, Stop(id))
  {
    s' := Next(s, GiveUp(t));
  }

  lemma AfterStop(s: State, t: Tid, id: Id) returns (s': State)
    requires At(s, t) == Stop(id)
    ensures s' == Next(s, StopWrite(t)) == Update(Go(s, t, Idle), id, STOPPED)
  {
    s' := Next(s, StopWrite(t));
  }

  lemma TwoSteps(s: State, a: Action, b: Action)
    ensures Exec(s, [a, b]) == Next(Next(s, a), b)
  {
    hide Apply, Enabled;
    assert [a, b][1..] == [b] && [b][1..] == [];
    assert Exec(Next(s, a), [b]) == Next(Next(s, a), b);
  }

  /** DeleteJob refuses a RUNNING and a SCHEDULED job at its first look and an INITIALIZING one at its
      second; any other is gone afterwards, record and task, and nothing else is. */
  lemma DeleteAlone(s: State, t: Tid, id: Id)
    requires At(s, t).Idle? && id in s.store
    ensures s.store[id] in {RUNNING, SCHEDULED} <==> !Enabled(s, DeleteLook(t, id))
    ensures s.store[id] == INITIALIZING ==> !Enabled(Next(s, DeleteLook(t, id)), DeleteCheck(t))
    ensures s.store[id] !in {RUNNING, SCHEDULED, INITIALIZING} ==>
              var s' := Exec(s, [DeleteLook(t, id), DeleteCheck(t), DeleteStore(t), DeleteTask(t)]);
              s'.store == s.store - {id} && s'.tasks == s.tasks - {id} && s'.queue == s.queue && At(s', t).Idle?
  {
    DeleteRefuses(s, t, id);
    if s.store[id] !in {RUNNING, SCHEDULED, INITIALIZING} {
      var s1 := AfterDeleteLook(s, t, id);
      var s2 := AfterCheck(s1, t, id);
      var s3 := AfterStore(s2, t, id);
      var s4 := AfterTask(s3, t, id);
      hide Apply, Enabled;
      FourSteps(s, [DeleteLook(t, id), DeleteCheck(t), DeleteStore(t), DeleteTask(t)]);
    }
  }

  lemma DeleteRefuses(s: State, t: Tid, id: Id)
    requires At(s, t).Idle? && id in s.store
    ensures s.store[id] in {RUNNING, SCHEDULED} <==> !Enabled(s, DeleteLook(t, id))
    ensures s.store[id] == INITIALIZING ==> !Enabled(Next(s, DeleteLook(t, id)), DeleteCheck(t))
  {
  }

  lemma AfterDeleteLook(s: State, t: Tid, id: Id) returns (s': State)
    requires At(s, t).Idle? && id in s.store && s.store[id] !in {RUNNING, SCHEDULED}
    ensures s' == Next(s, DeleteLook(t, id)) == Go(s, t, DeleteLooked(id))
  {
    s' := Next(s, DeleteLook(t, id));
  }

  lemma AfterCheck(s: State, t: Tid, id: Id) returns (s': State)
    requires At(s, t) == DeleteLooked(id) && id in s.store && s.store[id] !in {RUNNING, INITIALIZING}
    ensures s' == Next(s, DeleteCheck(t)) == Go(s, t, Delete(id))
  {
    s' := Next(s, DeleteCheck(t));
  }

  lemma AfterStore(s: State, t: Tid, id: Id) returns (s': State)
    requires At(s, t) == Delete(id)
    ensures s' == Next(s, DeleteStore(t)) == Go(s, t, Deleted(id)).(store := s.store - {id})
  {
    s' := Next(s, DeleteStore(t));
  }

  lemma AfterTask(s: State, t: Tid, id: Id) returns (s': State)
    requires At(s, t) == Deleted(id)
    ensures s' == Next(s, DeleteTask(t)) == Go(s, t, Idle).(tasks := s.tasks - {id})
  {
    s' := Next(s, DeleteTask(t));
  }

  /** A job run at once gets its record and task, is not queued and counts neither as dispatched by the
      loop nor as cancelled. */
  lemma RunsNow(s: State, id: Id, st: Status)
    requires id !in s.place && !IsScheduled(st)
    ensures var s' := Exec(s, [RunNow(id), LifeCreate(id, st)]);
            && s'.store == s.store[id := st] && s'.tasks == s.tasks + {id}
            && s'.queue == s.queue && s'.dispatched == s.dispatched && s'.cancelled == s.cancelled && s'.loop == s.loop
  {
    var s1 := AfterRunNow(s, id);
    var s2 := AfterCreate(s1, id, st);
    hide Apply, Enabled;
    TwoSteps(s, RunNow(id), LifeCreate(id, st));
  }

  lemma AfterRunNow(s: State, id: Id) returns (s': State)
    requires id !in s.place
    ensures s' == Next(s, RunNow(id)) == s.(place := s.place[id := Started])
  {
    s' := Next(s, RunNow(id));
  }

  lemma AfterCreate(s: State, id: Id, st: Status) returns (s': State)
    requires id in s.place && s.place[id] == Started && !IsScheduled(st)
    ensures s' == Next(s, LifeCreate(id, st)) == s.(store := s.store[id := st], tasks := s.tasks + {id})
  {
    s' := Next(s, LifeCreate(id, st));
  }

  /** A halted loop stays halted and takes no job any more. */
  lemma HaltedForGood(s: State, a: Action)
    requires Enabled(s, a)
    ensures a.Halt? ==> Apply(s, a) == s.(loop := Halted)
    ensures s.loop.Halted? ==> Apply(s, a).loop.Halted? && Apply(s, a).dispatched == s.dispatched
  {
    hide IsMin, Takes, Removes;
  }
}
