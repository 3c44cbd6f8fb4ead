/** scheduler.go and the scheduling paths of joblet.go as interleaved atomic steps: the
    scheduler goroutine, any number of client requests, start-up recovery, and the goroutines
    that write the status of jobs already started. One step per lock region or channel
    operation. */
module Dispatch {
  import opened Wrappers
  import opened QueueSpec
  import opened JobDomain

  type Id = string
  type Tid = nat

  // Where the one right to run a job is. The code keeps no such record. The steps of the scheduler,
  // of stop and of delete do not read it; it guards those that bring a job in or change the status
  // of a running one, and so carries what is assumed of them: a new job has a fresh id, start-up
  // recovers a job once, and only a job that has been started has its status written.
  datatype Place = ToRecover | AtClient(t: Tid) | Queued | AtScheduler | Cancelled | Started

  // What the loop found when it looked at the head of the queue.
  datatype Plan = NoJobs | Until(e: Entry)

  datatype Loop =
    | Top                            // about to Peek
    | Peeked(plan: Plan)             // Peek done, not yet waiting
    | Asleep(plan: Plan)             // in one of the two selects
    | Due(e: Entry)                  // about to call Next
    | Holding(id: Id)                // job popped, store not read yet
    | Fresh(id: Id, st: Option<Status>) // store read, status not written yet
    | Halted

  datatype Client =
    | Idle
    | Stored(e: Entry)               // job record created, task wrapper not yet
    | Adding(e: Entry)               // about to call AddJob
    | Signalling                     // queue grown, wake signal not sent yet
    | StopLooked(id: Id, st: Status)
    | Cancelling(id: Id)             // removed from the queue, wake signal not sent yet
    | Cancel(id: Id)                 // about to write CANCELED
    | Stop(id: Id)                   // about to write STOPPED
    | DeleteLooked(id: Id)
    | Delete(id: Id)                 // second status check passed
    | Deleted(id: Id)

  datatype State = State(
    store: map<Id, Status>,
    tasks: set<Id>,
    queue: multiset<Entry>,
    token: bool,                     // newJobSignal's one slot
    loop: Loop,
    clients: map<Tid, Client>,
    now: int,
    place: map<Id, Place>,           // defined for every id ever used
    dispatched: seq<Id>,             // history
    cancelled: seq<Id>,              // history: cancellations reported to a client
    refused: seq<Id>)                // history: jobs popped and then not run

  datatype Action =
    | Schedule(t: Tid, id: Id, time: int) | StoreTask(t: Tid) | QueueAdd(t: Tid) | Signal(t: Tid)
    | Recover(t: Tid, e: Entry)
    | StopLook(t: Tid, id: Id) | StopRemove(t: Tid, removed: bool, q': multiset<Entry>)
    | StopSignal(t: Tid) | StopWrite(t: Tid) | GiveUp(t: Tid)
    | DeleteLook(t: Tid, id: Id) | DeleteCheck(t: Tid) | DeleteStore(t: Tid) | DeleteTask(t: Tid)
    | RunNow(id: Id) | LifeCreate(id: Id, st: Status) | LifeWrite(id: Id, st: Status)
    | Tick(to: int)
    | Peek(head: Entry) | Park | Wake | TimerFires | Pop(next: Option<Entry>, q': multiset<Entry>)
    | ReadStore | Launch | Halt

  // --- the steps ---

  function At(s: State, t: Tid): Client { if t in s.clients then s.clients[t] else Idle }

  function Go(s: State, t: Tid, c: Client): State { s.(clients := s.clients[t := c]) }

  // UpdateJob: dropped unless the job has a task wrapper.
  function Update(s: State, id: Id, st: Status): State {
    if id in s.tasks then s.(store := s.store[id := st]) else s
  }

  // scheduleJob up to jobStore.Create, with a fresh id.
  function Create(s: State, t: Tid, e: Entry): State {
    s.(store := s.store[e.id := SCHEDULED], clients := s.clients[t := Stored(e)], place := s.place[e.id := AtClient(t)])
  }

  // The second half of CreateNewJob.
  function Wrap(s: State, t: Tid, e: Entry): State {
    s.(tasks := s.tasks + {e.id}, clients := s.clients[t := Adding(e)])
  }

  // AddJob's queue change.
  function Enqueue(s: State, t: Tid, e: Entry): State {
    s.(queue := s.queue + multiset{e}, clients := s.clients[t := Signalling], place := s.place[e.id := Queued])
  }

  // RecoverScheduledJobs reaching the next job.
  function Restore(s: State, t: Tid, e: Entry): State {
    s.(clients := s.clients[t := Adding(e)], place := s.place[e.id := AtClient(t)])
  }

  // RemoveJob's queue change, when it finds the job.
  function TakeOut(s: State, t: Tid, id: Id, q': multiset<Entry>): State {
    s.(queue := q', clients := s.clients[t := Cancelling(id)], place := s.place[id := AtClient(t)])
  }

  // StopJob writing CANCELED.
  function FinishCancel(s: State, t: Tid, id: Id): State {
    s.(store := if id in s.tasks then s.store[id := CANCELED] else s.store,
       clients := s.clients[t := Idle], place := s.place[id := Cancelled], cancelled := s.cancelled + [id])
  }

  // The loop taking a job off the queue.
  function TakeNext(s: State, e: Entry, q': multiset<Entry>): State {
    s.(queue := q', loop := Holding(e.id), place := s.place[e.id := AtScheduler])
  }

  // executeScheduledJob passing both status checks.
  function Start(s: State, id: Id): State {
    s.(store := if id in s.tasks then s.store[id := INITIALIZING] else s.store,
       loop := Top, place := s.place[id := Started], dispatched := s.dispatched + [id])
  }

  ghost predicate Enabled(s: State, a: Action) {
    match a
    case Schedule(t, id, _) => At(s, t).Idle? && id !in s.place
    case StoreTask(t) => At(s, t).Stored?
    case QueueAdd(t) => At(s, t).Adding?
    case Signal(t) => At(s, t).Signalling?
    case Recover(t, e) => At(s, t).Idle? && e.id in s.place && s.place[e.id] == ToRecover
    case StopLook(t, id) => At(s, t).Idle? && id in s.store
    case StopRemove(t, removed, q') =>
      At(s, t).StopLooked? && IsScheduled(At(s, t).st) && Removes(s.queue, At(s, t).id, removed, q')
    case StopSignal(t) => At(s, t).Cancelling?
    case StopWrite(t) => At(s, t).Cancel? || At(s, t).Stop?
    case GiveUp(t) => (At(s, t).StopLooked? && !IsScheduled(At(s, t).st)) || At(s, t).DeleteLooked? || At(s, t).Deleted?
    case DeleteLook(t, id) =>
      At(s, t).Idle? && id in s.store && !IsRunning(s.store[id]) && !IsScheduled(s.store[id])
    case DeleteCheck(t) =>
      At(s, t).DeleteLooked? && At(s, t).id in s.store
      && s.store[At(s, t).id] != RUNNING && s.store[At(s, t).id] != INITIALIZING
    case DeleteStore(t) => At(s, t).Delete?
    case DeleteTask(t) => At(s, t).Deleted?
    case RunNow(id) => id !in s.place
    case LifeCreate(id, st) => id in s.place && s.place[id] == Started && !IsScheduled(st)
    case LifeWrite(id, st) => id in s.place && s.place[id] == Started && !IsScheduled(st)
    case Tick(to) => s.now <= to
    case Peek(head) => s.loop.Top? && (s.queue == multiset{} || IsMin(s.queue, head))
    case Park => s.loop.Peeked?
    case Wake => s.loop.Asleep? && s.token
    case TimerFires => s.loop.Asleep? && s.loop.plan.Until? && s.loop.plan.e.time <= s.now
    case Pop(next, q') => s.loop.Due? && Takes(s.queue, next, q')
    case ReadStore => s.loop.Holding?
    case Launch => s.loop.Fresh?
    case Halt => s.loop.Top? || s.loop.Asleep?
  }

  ghost function Apply(s: State, a: Action): State
    requires Enabled(s, a)
  {
    match a
    case Schedule(t, id, time) => Create(s, t, Entry(id, time))
    case StoreTask(t) => Wrap(s, t, At(s, t).e)
    case QueueAdd(t) => Enqueue(s, t, At(s, t).e)
    case Signal(t) => Go(s, t, Idle).(token := true)
    case Recover(t, e) => Restore(s, t, e)
    case StopLook(t, id) => Go(s, t, StopLooked(id, s.store[id]))
    case StopRemove(t, removed, q') =>
      if removed then TakeOut(s, t, At(s, t).id, q') else Go(s, t, Idle)
    case StopSignal(t) => Go(s, t, Cancel(At(s, t).id)).(token := true)
    case StopWrite(t) =>
      if At(s, t).Cancel? then FinishCancel(s, t, At(s, t).id) else Update(Go(s, t, Idle), At(s, t).id, STOPPED)
    case GiveUp(t) =>
      if At(s, t).StopLooked? && IsRunning(At(s, t).st) then Go(s, t, Stop(At(s, t).id)) else Go(s, t, Idle)
    case DeleteLook(t, id) => Go(s, t, DeleteLooked(id))
    case DeleteCheck(t) => Go(s, t, Delete(At(s, t).id))
    case DeleteStore(t) => Go(s, t, Deleted(At(s, t).id)).(store := s.store - {At(s, t).id})
    case DeleteTask(t) => Go(s, t, Idle).(tasks := s.tasks - {At(s, t).id})
    case RunNow(id) => s.(place := s.place[id := Started])
    case LifeCreate(id, st) => s.(store := s.store[id := st], tasks := s.tasks + {id})
    case LifeWrite(id, st) => Update(s, id, st)
    case Tick(to) => s.(now := to)
    case Peek(head) => s.(loop := Peeked(if s.queue == multiset{} then NoJobs else Until(head)))
    case Park =>
      (match s.loop.plan
       case NoJobs => s.(loop := Asleep(NoJobs))
       case Until(e) => s.(loop := if e.time > s.now then Asleep(Until(e)) else Due(e)))
    case Wake => s.(loop := Top, token := false)
    case TimerFires => s.(loop := Due(s.loop.plan.e))
    case Pop(next, q') =>
      (match next
       case None => s.(loop := Top)
       case Some(e) => TakeNext(s, e, q'))
    case ReadStore =>
      var id := s.loop.id;
      s.(loop := Fresh(id, if id in s.store then Some(s.store[id]) else None))
    case Launch =>
      var id := s.loop.id;
      if s.loop.st == Some(SCHEDULED) then Start(s, id)
      else s.(loop := Top, refused := s.refused + [id])
    case Halt => s.(loop := Halted)
  }

  // A run under any schedule: an action that is not enabled when its turn comes does nothing.
  ghost function Exec(s: State, acts: seq<Action>): State
    decreases |acts|
  {
    if acts == [] then s
    else Exec(if Enabled(s, acts[0]) then Apply(s, acts[0]) else s, acts[1..])
  }

  // The state at start-up: jobs restored from persistent storage, those among them that are
  // still scheduled waiting to be recovered into the queue, and nothing running.
  ghost predicate Init(s: State) {
    && s.queue == multiset{} && !s.token && s.loop == Top && s.clients == map[]
    && s.tasks == s.store.Keys && s.place.Keys == s.store.Keys
    && (forall id :: id in s.store ==> s.place[id] == if IsScheduled(s.store[id]) then ToRecover else Started)
    && s.dispatched == [] && s.cancelled == [] && s.refused == []
  }

  // --- the invariant ---

  // The job whose right to run client c holds.
  function Held(c: Client): Option<Id> {
    match c
    case Stored(e) => Some(e.id)
    case Adding(e) => Some(e.id)
    case Cancelling(id) => Some(id)
    case Cancel(id) => Some(id)
    case _ => None
  }

  // The job the scheduler has popped and not yet decided on.
  predicate InHand(l: Loop, id: Id) { (l.Holding? || l.Fresh?) && l.id == id }

  predicate Final(p: Place) { p.Cancelled? || p.Started? }

  // An id some client has looked up and found past its scheduled phase.
  predicate Settled(s: State, id: Id) { id in s.place && Final(s.place[id]) }

  ghost predicate ClientOk(s: State, t: Tid, c: Client) {
    && (Held(c).Some? ==> Held(c).value in s.place && s.place[Held(c).value] == AtClient(t))
    && (match c
        case StopLooked(id, st) => id in s.place && (!IsScheduled(st) ==> Settled(s, id))
        case Stop(id) => Settled(s, id)
        case DeleteLooked(id) => Settled(s, id)
        case Delete(id) => Settled(s, id)
        case Deleted(id) => Settled(s, id)
        case _ => true)
  }

  ghost predicate JobOk(s: State, id: Id)
    requires id in s.place
  {
    && (!Final(s.place[id]) ==> id in s.store && s.store[id] == SCHEDULED)
    && (Final(s.place[id]) && id in s.store ==> s.store[id] != SCHEDULED)
    && (!Final(s.place[id]) && id !in s.tasks ==> s.place[id].AtClient? && At(s, s.place[id].t).Stored?)
    && (s.place[id].AtClient? ==> Held(At(s, s.place[id].t)) == Some(id))
    && (s.place[id].Queued? ==> HasId(s.queue, id))
    && (s.place[id].AtScheduler? <==> InHand(s.loop, id))
  }

  ghost predicate QueueOk(s: State) {
    && (forall e :: e in s.queue ==> s.queue[e] == 1 && e.id in s.place && s.place[e.id] == Queued)
    && (forall e, f :: e in s.queue && f in s.queue && e.id == f.id ==> e == f)
  }

  ghost predicate NoDup(ids: seq<Id>) { forall i, j :: 0 <= i < j < |ids| ==> ids[i] != ids[j] }

  ghost predicate LogOk(s: State) {
    && NoDup(s.dispatched) && NoDup(s.cancelled) && s.refused == []
    && (forall id :: id in s.dispatched ==> id in s.place && s.place[id] == Started)
    && (forall id :: id in s.cancelled ==> id in s.place && s.place[id] == Cancelled)
  }

  ghost predicate LoopOk(s: State) {
    && (forall id :: InHand(s.loop, id) ==> id in s.place)
    && (s.loop.Fresh? ==> s.loop.st == Some(SCHEDULED))
    && (s.loop.Due? ==> s.loop.e.time <= s.now)
  }

  ghost predicate Inv(s: State) {
    && (forall t :: t in s.clients ==> ClientOk(s, t, s.clients[t]))
    && (forall id :: id in s.place ==> JobOk(s, id))
    && (forall id :: id in s.store ==> id in s.place)
    && QueueOk(s) && LogOk(s) && LoopOk(s)
  }

  // A client moves on without taking or giving up a job.
  lemma ClientMoves(s: State, t: Tid, c: Client, token: bool)
    requires Inv(s) && ClientOk(s, t, c)
    requires Held(c) == Held(At(s, t)) && !At(s, t).Stored?
    ensures Inv(Go(s, t, c).(token := token))
  {
    var s' := Go(s, t, c).(token := token);
    forall id | id in s'.place ensures JobOk(s', id) {
      assert JobOk(s, id);
    }
    forall u | u in s'.clients ensures ClientOk(s', u, s'.clients[u]) {
      assert u != t ==> ClientOk(s, u, s.clients[u]);
    }
  }

  // The loop moves on, or time passes, without a job changing hands.
  lemma LoopMoves(s: State, l: Loop, token: bool, now: int)
    requires Inv(s) && s.now <= now
    requires forall id :: InHand(l, id) <==> InHand(s.loop, id)
    requires LoopOk(s.(loop := l, now := now))
    ensures Inv(s.(loop := l, token := token, now := now))
  {
    var s' := s.(loop := l, token := token, now := now);
    forall id | id in s'.place ensures JobOk(s', id) {
      assert JobOk(s, id);
    }
    forall u | u in s'.clients ensures ClientOk(s', u, s'.clients[u]) {
      assert ClientOk(s, u, s.clients[u]);
    }
  }

  // The record of a settled job changes, but never back to scheduled.
  lemma SettledChanges(s: State, id: Id, store: map<Id, Status>, tasks: set<Id>)
    requires Inv(s) && Settled(s, id)
    requires forall x :: x != id ==> (x in store <==> x in s.store) && (x in store ==> store[x] == s.store[x])
    requires id in store ==> store[id] != SCHEDULED
    requires forall x :: x != id ==> (x in tasks <==> x in s.tasks)
    ensures Inv(s.(store := store, tasks := tasks))
  {
    var s' := s.(store := store, tasks := tasks);
    forall x | x in s'.place ensures JobOk(s', x) {
      assert JobOk(s, x);
    }
    forall u | u in s'.clients ensures ClientOk(s', u, s'.clients[u]) {
      assert ClientOk(s, u, s.clients[u]);
    }
  }

  // Clients other than t, the queue's other entries and the loop's other jobs are as before.
  ghost predicate ElsewhereSame(s: State, s': State, t: Tid, id: Id) {
    && (forall u :: u != t ==> At(s', u) == At(s, u))
    && (forall x :: x != id && HasId(s.queue, x) ==> HasId(s'.queue, x))
    && (forall x :: x != id ==> (InHand(s'.loop, x) <==> InHand(s.loop, x)))
    && Held(At(s, t)) in {None, Some(id)}
  }

  lemma OthersKeep(s: State, s': State, t: Tid, id: Id)
    requires Inv(s) && ElsewhereSame(s, s', t, id)
    requires s'.store == s.store && s'.tasks == s.tasks && s'.place.Keys == s.place.Keys
    requires forall x :: x in s.place && x != id ==> s'.place[x] == s.place[x]
    ensures forall x :: x in s'.place && x != id ==> JobOk(s', x)
  {
    forall x | x in s'.place && x != id ensures JobOk(s', x) {
      assert JobOk(s, x);
    }
  }

  // A scheduled job changes hands: id moves from the place it is at to p, and client t, the
  // queue and the loop change accordingly.
  lemma HandsOver(s: State, s': State, t: Tid, id: Id, p: Place)
    requires Inv(s) && ElsewhereSame(s, s', t, id)
    requires s'.store == s.store && s'.tasks == s.tasks && s'.now == s.now && s'.dispatched == s.dispatched
             && s'.cancelled == s.cancelled && s'.refused == s.refused
    requires id in s.place && s'.place == s.place[id := p] && !Final(s.place[id]) && !Final(p)
    requires forall u :: u in s'.clients ==> u in s.clients || u == t
    requires t in s'.clients ==> ClientOk(s', t, s'.clients[t])
    requires QueueOk(s') && (s'.loop == s.loop || LoopOk(s')) && JobOk(s', id)
    requires forall u :: u != t && u in s.clients ==> Held(s.clients[u]) != Some(id)
    ensures Inv(s')
  {
    OthersKeep(s, s', t, id);
    forall u | u in s'.clients && u != t ensures ClientOk(s', u, s'.clients[u]) {
      assert At(s', u) == At(s, u) && ClientOk(s, u, s.clients[u]);
    }
  }

  // Only the client at which a job is holds it.
  lemma HeldOnce(s: State, t: Tid, id: Id)
    requires Inv(s) && id in s.place && (s.place[id].AtClient? ==> s.place[id].t == t)
    ensures forall u :: u != t && u in s.clients ==> Held(s.clients[u]) != Some(id)
  {
    forall u | u != t && u in s.clients ensures Held(s.clients[u]) != Some(id) {
      assert ClientOk(s, u, s.clients[u]);
    }
  }

  // An entry with another id leaving or joining the queue does not hide job x.
  lemma StillQueued(q: multiset<Entry>, e: Entry)
    ensures forall x :: x != e.id && HasId(q, x) ==> HasId(q - multiset{e}, x) && HasId(q + multiset{e}, x)
  {
    forall x | x != e.id && HasId(q, x) ensures HasId(q - multiset{e}, x) && HasId(q + multiset{e}, x) {
      var f :| f in q && f.id == x;
      assert f in q - multiset{e} && f in q + multiset{e};
    }
  }

  // Once entry e leaves, the queue is in order without its id.
  lemma EntryLeaves(s: State, s': State, e: Entry, p: Place)
    requires QueueOk(s) && e in s.queue
    requires s'.queue == s.queue - multiset{e} && s'.place == s.place[e.id := p]
    ensures QueueOk(s') && forall x :: x != e.id && HasId(s.queue, x) ==> HasId(s'.queue, x)
  {
    StillQueued(s.queue, e);
  }

  // Once entry e joins under an id not queued before, the queue is in order and holds its id.
  lemma EntryJoins(s: State, s': State, e: Entry)
    requires QueueOk(s) && e.id in s.place && s.place[e.id] != Queued
    requires s'.queue == s.queue + multiset{e} && s'.place == s.place[e.id := Queued]
    ensures QueueOk(s') && HasId(s'.queue, e.id) && forall x :: x != e.id && HasId(s.queue, x) ==> HasId(s'.queue, x)
  {
    StillQueued(s.queue, e);
    assert e in s'.queue;
  }

  lemma JobAt(s: State, id: Id)
    requires Inv(s) && id in s.place
    ensures JobOk(s, id) && QueueOk(s) && LoopOk(s)
  {
  }

  lemma ClientAt(s: State, t: Tid)
    requires Inv(s)
    ensures ClientOk(s, t, At(s, t))
  {
  }

  lemma EnqueueKeeps(s: State, t: Tid)
    requires Inv(s) && At(s, t).Adding?
    ensures Inv(Enqueue(s, t, At(s, t).e))
  {
    hide Inv, QueueOk, LoopOk, HasId;
    var e := At(s, t).e;
    var s' := Enqueue(s, t, e);
    ClientAt(s, t);
    JobAt(s, e.id);
    EntryJoins(s, s', e);
    HeldOnce(s, t, e.id);
    HandsOver(s, s', t, e.id, Queued);
  }

  lemma RestoreKeeps(s: State, t: Tid, e: Entry)
    requires Inv(s) && At(s, t).Idle? && e.id in s.place && s.place[e.id] == ToRecover
    ensures Inv(Restore(s, t, e))
  {
    hide Inv, LoopOk, HasId;
    var s' := Restore(s, t, e);
    JobAt(s, e.id);
    HeldOnce(s, t, e.id);
    HandsOver(s, s', t, e.id, AtClient(t));
  }

  lemma TakeOutKeeps(s: State, t: Tid, e: Entry)
    requires Inv(s) && At(s, t).StopLooked? && e in s.queue
    ensures Inv(TakeOut(s, t, e.id, s.queue - multiset{e}))
  {
    hide Inv, LoopOk, HasId;
    var s' := TakeOut(s, t, e.id, s.queue - multiset{e});
    QueuedAt(s, e);
    EntryLeaves(s, s', e, AtClient(t));
    HeldOnce(s, t, e.id);
    hide QueueOk;
    HandsOver(s, s', t, e.id, AtClient(t));
  }

  lemma TakeNextKeeps(s: State, e: Entry, q': multiset<Entry>)
    requires Inv(s) && s.loop.Due? && e in s.queue && q' == s.queue - multiset{e}
    ensures Inv(TakeNext(s, e, q'))
  {
    hide Inv, HasId;
    var s' := TakeNext(s, e, q');
    QueuedAt(s, e);
    EntryLeaves(s, s', e, AtScheduler);
    var t := IdleClient(s);
    HeldOnce(s, t, e.id);
    hide QueueOk;
    HandsOver(s, s', t, e.id, AtScheduler);
  }

  lemma QueuedAt(s: State, e: Entry)
    requires Inv(s) && e in s.queue
    ensures e.id in s.place && s.place[e.id] == Queued && JobOk(s, e.id) && QueueOk(s)
  {
  }

  // There is always a client that has never asked for anything.
  lemma {:induction false} IdleClient(s: State) returns (t: Tid)
    ensures t !in s.clients
  {
    t := Above(s.clients.Keys);
    assert t in s.clients.Keys ==> t < t;
  }

  lemma {:induction false} Above(ts: set<Tid>) returns (t: Tid)
    ensures forall u :: u in ts ==> u < t
  {
    if ts == {} {
      return 0;
    }
    var u :| u in ts;
    t := Above(ts - {u});
    t := if u < t then t else u + 1;
    assert forall v :: v in ts ==> v == u || v in ts - {u};
  }

  // A job under a fresh id does not touch the queue, the logs or the loop.
  lemma FreshId(s: State, s': State, id: Id, p: Place)
    requires Inv(s) && id !in s.place && s'.place == s.place[id := p]
    requires s'.queue == s.queue && s'.loop == s.loop && s'.now == s.now && s'.dispatched == s.dispatched
             && s'.cancelled == s.cancelled && s'.refused == s.refused
    ensures QueueOk(s') && LogOk(s') && LoopOk(s')
    ensures !InHand(s.loop, id) && id !in s.store
  {
  }

  lemma CreateKeeps(s: State, t: Tid, e: Entry)
    requires Inv(s) && At(s, t).Idle? && e.id !in s.place
    ensures Inv(Create(s, t, e))
  {
    hide QueueOk, LogOk, LoopOk, HasId;
    var s' := Create(s, t, e);
    FreshId(s, s', e.id, AtClient(t));
    forall x | x in s'.place && x != e.id ensures JobOk(s', x) {
      assert JobOk(s, x);
    }
    forall u | u in s'.clients ensures ClientOk(s', u, s'.clients[u]) {
      assert u in s.clients ==> ClientOk(s, u, s.clients[u]);
    }
  }

  lemma WrapKeeps(s: State, t: Tid)
    requires Inv(s) && At(s, t).Stored?
    ensures Inv(Wrap(s, t, At(s, t).e))
  {
    var e := At(s, t).e;
    var s' := Wrap(s, t, e);
    assert ClientOk(s, t, s.clients[t]) && JobOk(s, e.id);
    forall x | x in s'.place && x != e.id ensures JobOk(s', x) {
      assert JobOk(s, x);
    }
    forall u | u in s'.clients ensures ClientOk(s', u, s'.clients[u]) {
      assert ClientOk(s, u, s.clients[u]);
    }
  }

  lemma FinishCancelKeeps(s: State, t: Tid)
    requires Inv(s) && At(s, t).Cancel?
    ensures Inv(FinishCancel(s, t, At(s, t).id))
  {
    var id := At(s, t).id;
    var s' := FinishCancel(s, t, id);
    assert ClientOk(s, t, s.clients[t]) && JobOk(s, id);
    forall x | x in s'.place && x != id ensures JobOk(s', x) {
      assert JobOk(s, x);
    }
    forall u | u in s'.clients ensures ClientOk(s', u, s'.clients[u]) {
      assert ClientOk(s, u, s.clients[u]);
    }
  }

  lemma StartKeeps(s: State)
    requires Inv(s) && s.loop.Fresh?
    ensures Inv(Start(s, s.loop.id))
  {
    var id := s.loop.id;
    var s' := Start(s, id);
    assert InHand(s.loop, id) && JobOk(s, id);
    forall x | x in s'.place && x != id ensures JobOk(s', x) {
      assert JobOk(s, x);
    }
    forall u | u in s'.clients ensures ClientOk(s', u, s'.clients[u]) {
      assert ClientOk(s, u, s.clients[u]);
    }
  }

  lemma LookKeeps(s: State, t: Tid, id: Id)
    requires Inv(s) && At(s, t).Idle? && id in s.store
    ensures Inv(Go(s, t, StopLooked(id, s.store[id])))
    ensures !IsScheduled(s.store[id]) ==> Inv(Go(s, t, DeleteLooked(id)))
  {
    assert JobOk(s, id);
    ClientMoves(s, t, StopLooked(id, s.store[id]), s.token);
    if !IsScheduled(s.store[id]) {
      ClientMoves(s, t, DeleteLooked(id), s.token);
    }
  }

  lemma SignalKeeps(s: State, t: Tid)
    requires Inv(s) && (At(s, t).Signalling? || At(s, t).Cancelling?)
    ensures Inv(Go(s, t, if At(s, t).Signalling? then Idle else Cancel(At(s, t).id)).(token := true))
  {
    assert ClientOk(s, t, s.clients[t]);
    ClientMoves(s, t, if At(s, t).Signalling? then Idle else Cancel(At(s, t).id), true);
  }

  // A client that holds no job and is not about to create one may stop at any time.
  lemma QuitKeeps(s: State, t: Tid)
    requires Inv(s) && Held(At(s, t)) == None
    ensures Inv(Go(s, t, Idle))
  {
    ClientMoves(s, t, Idle, s.token);
  }

  predicate FoundSettled(c: Client) {
    c.DeleteLooked? || c.Delete? || c.Deleted? || c.Stop? || (c.StopLooked? && !IsScheduled(c.st))
  }

  // What a client that found a job settled may go on to do with it.
  lemma ProceedKeeps(s: State, t: Tid, c: Client)
    requires Inv(s) && FoundSettled(At(s, t))
    requires c.Idle? || ((c.Stop? || c.Delete? || c.Deleted?) && c.id == At(s, t).id)
    ensures Settled(s, At(s, t).id) && Inv(Go(s, t, c))
  {
    assert ClientOk(s, t, s.clients[t]);
    ClientMoves(s, t, c, s.token);
  }

  lemma RecordKeeps(s: State, id: Id, st: Status)
    requires Inv(s) && Settled(s, id) && !IsScheduled(st)
    ensures Inv(Update(s, id, st))
    ensures Inv(s.(store := s.store[id := st], tasks := s.tasks + {id}))
    ensures Inv(s.(store := s.store - {id})) && Inv(s.(tasks := s.tasks - {id}))
  {
    SettledChanges(s, id, s.store[id := st], s.tasks);
    SettledChanges(s, id, s.store[id := st], s.tasks + {id});
    SettledChanges(s, id, s.store - {id}, s.tasks);
    SettledChanges(s, id, s.store, s.tasks - {id});
  }

  // The scheduler always finds the job it popped still scheduled.
  lemma PoppedIsScheduled(s: State)
    requires Inv(s) && (s.loop.Holding? || s.loop.Fresh?)
    ensures s.loop.id in s.store && s.store[s.loop.id] == SCHEDULED
    ensures s.loop.Fresh? ==> s.loop.st == Some(SCHEDULED)
    ensures Inv(s.(loop := Fresh(s.loop.id, Some(SCHEDULED))))
  {
    assert InHand(s.loop, s.loop.id) && JobOk(s, s.loop.id);
    LoopMoves(s, Fresh(s.loop.id, Some(SCHEDULED)), s.token, s.now);
  }

  lemma LoopTurns(s: State, l: Loop, token: bool, now: int)
    requires Inv(s) && !s.loop.Holding? && !s.loop.Fresh? && !l.Holding? && !l.Fresh? && s.now <= now
    requires l.Due? ==> l.e.time <= now
    ensures Inv(s.(loop := l, token := token, now := now))
  {
    LoopMoves(s, l, token, now);
  }

  lemma StopKeeps(s: State, t: Tid, removed: bool, q': multiset<Entry>)
    requires Inv(s) && Enabled(s, StopRemove(t, removed, q'))
    ensures Inv(Apply(s, StopRemove(t, removed, q')))
  {
    if removed {
      var e :| e in s.queue && e.id == At(s, t).id && q' == s.queue - multiset{e};
      TakeOutKeeps(s, t, e);
    } else {
      QuitKeeps(s, t);
    }
  }

  lemma ClientStepKeeps(s: State, a: Action)
    requires Inv(s) && Enabled(s, a)
    requires a.GiveUp? || a.DeleteCheck? || a.DeleteStore? || a.DeleteTask? || a.StopWrite?
    ensures Inv(Apply(s, a))
  {
    hide Inv, Removes;
    var t := a.t;
    var id := At(s, t).id;
    if a.StopWrite? && At(s, t).Cancel? {
      FinishCancelKeeps(s, t);
    } else {
      match a {
        case GiveUp(_) => ProceedKeeps(s, t, At(Apply(s, a), t));
        case DeleteCheck(_) => ProceedKeeps(s, t, Delete(id));
        case DeleteStore(_) => ProceedKeeps(s, t, Deleted(id)); RecordKeeps(Go(s, t, Deleted(id)), id, STOPPED);
        case DeleteTask(_) => ProceedKeeps(s, t, Idle); RecordKeeps(Go(s, t, Idle), id, STOPPED);
        case StopWrite(_) => ProceedKeeps(s, t, Idle); RecordKeeps(Go(s, t, Idle), id, STOPPED);
      }
    }
  }

  lemma RunNowKeeps(s: State, id: Id)
    requires Inv(s) && id !in s.place
    ensures Inv(s.(place := s.place[id := Started]))
  {
    hide QueueOk, LogOk, LoopOk, HasId;
    var s' := s.(place := s.place[id := Started]);
    FreshId(s, s', id, Started);
    forall x | x in s'.place && x != id ensures JobOk(s', x) {
      assert JobOk(s, x);
    }
    forall u | u in s'.clients ensures ClientOk(s', u, s'.clients[u]) {
      assert ClientOk(s, u, s.clients[u]);
    }
  }

  lemma PopStepKeeps(s: State, a: Action)
    requires Inv(s) && Enabled(s, a) && (a.Pop? || a.ReadStore? || a.Launch?)
    ensures Inv(Apply(s, a))
  {
    hide Inv;
    match a {
      case Pop(next, q') => if next.Some? { TakeNextKeeps(s, next.value, q'); } else { LoopTurns(s, Top, s.token, s.now); }
      case ReadStore => PoppedIsScheduled(s);
      case Launch => PoppedIsScheduled(s); StartKeeps(s);
    }
  }

  predicate OfLoop(a: Action) { a.Peek? || a.Park? || a.Wake? || a.TimerFires? || a.Halt? }

  lemma LoopStepKeeps(s: State, a: Action)
    requires Inv(s) && Enabled(s, a) && OfLoop(a)
    ensures Inv(Apply(s, a))
  {
    hide Inv, IsMin;
    LoopTurns(s, Apply(s, a).loop, Apply(s, a).token, s.now);
  }

  lemma StepKeepsInv(s: State, a: Action)
    requires Inv(s) && Enabled(s, a)
    ensures Inv(Apply(s, a))
  {
    hide Inv, Removes;
    match a {
      case Schedule(t, id, time) => CreateKeeps(s, t, Entry(id, time));
      case StoreTask(t) => WrapKeeps(s, t);
      case QueueAdd(t) => EnqueueKeeps(s, t);
      case Recover(t, e) => RestoreKeeps(s, t, e);
      case StopRemove(t, removed, q') => StopKeeps(s, t, removed, q');
      case RunNow(id) => RunNowKeeps(s, id);
      case LifeCreate(id, st) => RecordKeeps(s, id, st);
      case LifeWrite(id, st) => RecordKeeps(s, id, st);
      case StopLook(t, id) => LookKeeps(s, t, id);
      case DeleteLook(t, id) => LookKeeps(s, t, id);
      case Signal(t) => SignalKeeps(s, t);
      case StopSignal(t) => SignalKeeps(s, t);
      case GiveUp(_) => ClientStepKeeps(s, a);
      case DeleteCheck(_) => ClientStepKeeps(s, a);
      case DeleteStore(_) => ClientStepKeeps(s, a);
      case DeleteTask(_) => ClientStepKeeps(s, a);
      case StopWrite(_) => ClientStepKeeps(s, a);
      case Tick(to) => TickKeeps(s, to);
      case Pop(_, _) => PopStepKeeps(s, a);
      case ReadStore => PopStepKeeps(s, a);
      case Launch => PopStepKeeps(s, a);
      case _ => LoopStepKeeps(s, a);
    }
  }

  lemma TickKeeps(s: State, to: int)
    requires Inv(s) && s.now <= to
    ensures Inv(s.(now := to))
  {
    LoopMoves(s, s.loop, s.token, to);
  }

  // --- theorems over every run ---

  lemma {:induction false} RunKeepsInv(s: State, acts: seq<Action>)
    requires Inv(s)
    ensures Inv(Exec(s, acts))
    decreases |acts|
  {
    if acts != [] {
      if Enabled(s, acts[0]) {
        StepKeepsInv(s, acts[0]);
        RunKeepsInv(Apply(s, acts[0]), acts[1..]);
      } else {
        RunKeepsInv(s, acts[1..]);
      }
    }
  }

  ghost predicate Reachable(s: State) {
    exists s0, acts :: Init(s0) && s == Exec(s0, acts)
  }

  lemma ReachableIsInv(s: State)
    requires Reachable(s)
    ensures Inv(s)
  {
    var s0, acts :| Init(s0) && s == Exec(s0, acts);
    RunKeepsInv(s0, acts);
  }

  // Cancel and dispatch exclude each other: no job is dispatched twice, none is both reported
  // cancelled and dispatched, and no job the loop pops fails a status check.
  lemma CancelExcludesDispatch(s: State)
    requires Reachable(s)
    ensures NoDup(s.dispatched) && NoDup(s.cancelled)
    ensures forall id :: id in s.dispatched ==> id !in s.cancelled
    ensures s.refused == []
  {
    ReachableIsInv(s);
  }

  // No scheduled job is lost or duplicated: every id ever used is waiting to be recovered, in
  // one client's hands, in the queue exactly once, in the loop's hands, or past being scheduled;
  // and until it is past that, its record exists and says SCHEDULED.
  lemma EveryJobIsAccountedFor(s: State, id: Id)
    requires Reachable(s) && id in s.place
    ensures s.place[id] == Queued <==> HasId(s.queue, id)
    ensures forall e, f :: e in s.queue && f in s.queue && e.id == id && f.id == id ==> e == f && s.queue[e] == 1
    ensures s.place[id] == AtScheduler <==> InHand(s.loop, id)
    ensures forall t :: Held(At(s, t)) == Some(id) ==> s.place[id] == AtClient(t)
    ensures Settled(s, id) || (id in s.store && s.store[id] == SCHEDULED)
  {
    ReachableIsInv(s);
    assert JobOk(s, id);
    forall t | Held(At(s, t)) == Some(id) ensures s.place[id] == AtClient(t) {
      assert ClientOk(s, t, s.clients[t]);
    }
  }

  // --- no lost wakeup ---

  ghost predicate IsHead(plan: Plan, q: multiset<Entry>) {
    match plan
    case NoJobs => q == multiset{}
    case Until(e) => IsMin(q, e)
  }

  // A client that changed the queue and has not sent its wake signal yet.
  predicate Pending(c: Client) { c.Signalling? || c.Cancelling? }

  // A wake-up is on its way.
  ghost predicate Covered(s: State) {
    s.token || exists t :: t in s.clients && Pending(s.clients[t])
  }

  predicate HasPlan(l: Loop) { l.Peeked? || l.Asleep? }

  ghost predicate WakeOk(s: State) {
    HasPlan(s.loop) ==> Covered(s) || IsHead(s.loop.plan, s.queue)
  }

  // A wake-up on its way is lost only when the loop takes it and looks again.
  lemma CoverStays(s: State, a: Action)
    requires Covered(s) && Enabled(s, a)
    ensures Covered(Apply(s, a)) || a.Wake?
  {
    if s.token {
      TokenStays(s, a);
    } else {
      hide Apply, Enabled;
      var t :| t in s.clients && Pending(s.clients[t]);
      PendingStays(s, a, t);
    }
  }

  lemma TokenStays(s: State, a: Action)
    requires s.token && Enabled(s, a)
    ensures Apply(s, a).token || a.Wake?
  {
    hide Removes, Takes, IsMin;
  }

  lemma PendingStays(s: State, a: Action, t: Tid)
    requires t in s.clients && Pending(s.clients[t]) && Enabled(s, a)
    ensures var s' := Apply(s, a); s'.token || (t in s'.clients && Pending(s'.clients[t]))
  {
    hide Removes, Takes, IsMin;
  }

  // Whoever changes the queue under a plan owes the loop a wake-up.
  lemma PlanStays(s: State, a: Action)
    requires Enabled(s, a) && HasPlan(s.loop) && IsHead(s.loop.plan, s.queue)
    ensures var s' := Apply(s, a); HasPlan(s'.loop) ==> Covered(s') || IsHead(s'.loop.plan, s'.queue)
  {
    var s' := Apply(s, a);
    if a.QueueAdd? || (a.StopRemove? && a.removed) {
      assert a.t in s'.clients && Pending(s'.clients[a.t]);
    }
  }

  // A plan is made by looking at the head of the queue.
  lemma PlanIsMade(s: State, a: Action)
    requires Enabled(s, a) && !HasPlan(s.loop)
    ensures var s' := Apply(s, a); HasPlan(s'.loop) ==> IsHead(s'.loop.plan, s'.queue)
  {
    hide Removes, Takes, IsMin;
  }

  lemma StepKeepsWakeOk(s: State, a: Action)
    requires WakeOk(s) && Enabled(s, a)
    ensures WakeOk(Apply(s, a))
  {
    if !HasPlan(s.loop) {
      PlanIsMade(s, a);
    } else if Covered(s) {
      CoverStays(s, a);
    } else {
      PlanStays(s, a);
    }
    if a.Wake? {
      assert !HasPlan(Apply(s, a).loop);
    }
    hide Apply, Enabled, Covered, IsHead;
  }

  lemma {:induction false} RunKeepsWakeOk(s: State, acts: seq<Action>)
    requires WakeOk(s)
    ensures WakeOk(Exec(s, acts))
    decreases |acts|
  {
    if acts != [] {
      if Enabled(s, acts[0]) {
        StepKeepsWakeOk(s, acts[0]);
        RunKeepsWakeOk(Apply(s, acts[0]), acts[1..]);
      } else {
        RunKeepsWakeOk(s, acts[1..]);
      }
    }
  }

  // Whenever the loop is parked, a wake token is waiting, or a client is between its queue change
  // and its signal, or the plan the loop sleeps on is still the head of the queue.
  lemma NoLostWakeup(s: State)
    requires Reachable(s) && s.loop.Asleep?
    ensures s.token || (exists t :: t in s.clients && Pending(s.clients[t])) || IsHead(s.loop.plan, s.queue)
  {
    var s0, acts :| Init(s0) && s == Exec(s0, acts);
    RunKeepsWakeOk(s0, acts);
  }

  // --- no early dispatch ---

  // Along this run nobody takes entry e out of the queue.
  ghost predicate Spares(s: State, acts: seq<Action>, e: Entry)
    decreases |acts|
  {
    acts == [] ||
    (&& !acts[0].Pop?
     && (acts[0].StopRemove? && At(s, acts[0].t).StopLooked? ==> At(s, acts[0].t).id != e.id)
     && Spares(Exec(s, acts[..1]), acts[1..], e))
  }

  lemma SpareStep(s: State, a: Action, e: Entry)
    requires Enabled(s, a) && !a.Pop? && (a.StopRemove? ==> At(s, a.t).id != e.id) && e in s.queue
    ensures e in Apply(s, a).queue
  {
    if a.StopRemove? && a.removed {
      var f :| f in s.queue && f.id == At(s, a.t).id && a.q' == s.queue - multiset{f};
      assert f != e;
    }
  }

  lemma ExecOne(s: State, acts: seq<Action>)
    requires acts != []
    ensures Exec(s, acts[..1]) == if Enabled(s, acts[0]) then Apply(s, acts[0]) else s
    ensures Exec(s, acts) == Exec(Exec(s, acts[..1]), acts[1..])
  {
    assert acts[..1][1..] == [] && acts[..1][0] == acts[0];
  }

  lemma {:induction false} SparedStays(s: State, acts: seq<Action>, e: Entry)
    requires e in s.queue && Spares(s, acts, e)
    ensures e in Exec(s, acts).queue
    decreases |acts|
  {
    if acts != [] {
      ExecOne(s, acts);
      if Enabled(s, acts[0]) {
        SpareStep(s, acts[0], e);
      }
      SparedStays(Exec(s, acts[..1]), acts[1..], e);
    }
  }

  // If between Peek and Next the others only add jobs and remove jobs other than the peeked one,
  // then Next finds a job, and that job is due, whether or not it is the one peeked.
  lemma NoEarlyDispatch(s: State, e: Entry, acts: seq<Action>, next: Option<Entry>, q': multiset<Entry>)
    requires Reachable(s) && s.loop == Top && IsMin(s.queue, e)
    requires Spares(Apply(s, Peek(e)), acts, e)
    requires var s1 := Exec(Apply(s, Peek(e)), acts); s1.loop == Due(e) && Enabled(s1, Pop(next, q'))
    ensures next.Some? && next.value.time <= Exec(Apply(s, Peek(e)), acts).now
  {
    var s0 := Apply(s, Peek(e));
    var s1 := Exec(s0, acts);
    SparedStays(s0, acts, e);
    ReachableIsInv(s);
    StepKeepsInv(s, Peek(e));
    RunKeepsInv(s0, acts);
  }

  // Without that proviso: the job Next takes is due exactly when some job in the queue is.
  lemma DueExactlyWhen(s: State, e: Entry, q': multiset<Entry>)
    requires Enabled(s, Pop(Some(e), q'))
    ensures e.time <= s.now <==> exists x :: x in s.queue && x.time <= s.now
  {
  }

  // The loop, about to call Next, is early exactly when the job it looked at is gone and every job
  // that is still queued has its time ahead.
  lemma EarlyExactlyWhen(s: State, next: Entry, q': multiset<Entry>)
    requires Reachable(s) && s.loop.Due? && Enabled(s, Pop(Some(next), q'))
    ensures s.now < next.time <==> s.loop.e !in s.queue && forall x :: x in s.queue ==> s.now < x.time
  {
    ReachableIsInv(s);
  }

  // Somebody takes entry e out of the queue in the course of this run.
  ghost predicate Leaves(s: State, acts: seq<Action>, e: Entry)
    decreases |acts|
  {
    acts != [] &&
    var s' := Exec(s, acts[..1]);
    s'.queue[e] < s.queue[e] || Leaves(s', acts[1..], e)
  }

  lemma {:induction false} StaysOrLeaves(s: State, acts: seq<Action>, e: Entry)
    ensures s.queue[e] <= Exec(s, acts).queue[e] || Leaves(s, acts, e)
    decreases |acts|
  {
    if acts != [] {
      ExecOne(s, acts);
      StaysOrLeaves(Exec(s, acts[..1]), acts[1..], e);
    }
  }

  // From the look at the head on: if Next then hands out a job before its time, the head has been
  // taken out of the queue in between, whatever else the others did.
  lemma EarlyOnlyIfTakenOut(s: State, e: Entry, acts: seq<Action>, next: Entry, q': multiset<Entry>)
    requires Reachable(s) && s.loop == Top && IsMin(s.queue, e)
    requires var s1 := Exec(Apply(s, Peek(e)), acts); s1.loop == Due(e) && Enabled(s1, Pop(Some(next), q'))
    requires Exec(Apply(s, Peek(e)), acts).now < next.time
    ensures Leaves(Apply(s, Peek(e)), acts, e)
  {
    var s0 := Apply(s, Peek(e));
    var s1 := Exec(s0, acts);
    StaysOrLeaves(s0, acts, e);
    ReachableIsInv(s);
    StepKeepsInv(s, Peek(e));
    RunKeepsInv(s0, acts);
  }

  // A run from start-up, given step by step.
  lemma ReachStep(s: State, a: Action)
    requires Reachable(s) && Enabled(s, a)
    ensures Reachable(Apply(s, a))
  {
    var s0, acts :| Init(s0) && s == Exec(s0, acts);
    ExecAppend(s0, acts, a);
  }

  lemma {:induction false} ExecAppend(s: State, acts: seq<Action>, a: Action)
    ensures Exec(s, acts + [a]) == var s1 := Exec(s, acts); if Enabled(s1, a) then Apply(s1, a) else s1
    decreases |acts|
  {
    if acts == [] {
      assert (acts + [a])[1..] == [];
    } else {
      assert (acts + [a])[1..] == acts[1..] + [a];
      ExecAppend(if Enabled(s, acts[0]) then Apply(s, acts[0]) else s, acts[1..], a);
    }
  }

  // Two restored jobs, one due and one not, are recovered into the queue.
  lemma TwoRecovered(a: Entry, b: Entry) returns (s: State)
    requires a.id != b.id && a.time <= b.time
    ensures Reachable(s) && s.queue == multiset{a, b} && s.loop == Top && s.now == a.time
    ensures a.id in s.store && s.store[a.id] == SCHEDULED && At(s, 2).Idle?
  {
    var store := map[a.id := SCHEDULED, b.id := SCHEDULED];
    s := State(store, {a.id, b.id}, multiset{}, false, Top, map[], a.time,
               map[a.id := ToRecover, b.id := ToRecover], [], [], []);
    assert Reachable(s) by { assert Init(s) && s == Exec(s, []); }
    hide Reachable;
    s := RecoverOne(s, 0, a);
    s := RecoverOne(s, 1, b);
  }

  lemma RecoverOne(s: State, t: Tid, e: Entry) returns (s': State)
    requires Reachable(s) && Enabled(s, Recover(t, e))
    ensures Reachable(s') && s' == Enqueue(Restore(s, t, e), t, e)
  {
    hide Reachable;
    ReachStep(s, Recover(t, e));
    ReachStep(Restore(s, t, e), QueueAdd(t));
    s' := Enqueue(Restore(s, t, e), t, e);
  }

  // The loop looks at the head of the queue and finds it due.
  lemma FoundDue(s: State, a: Entry) returns (s': State)
    requires Reachable(s) && IsMin(s.queue, a) && s.loop == Top && a.time <= s.now
    ensures Reachable(s') && s' == s.(loop := Due(a))
  {
    hide Reachable;
    ReachStep(s, Peek(a));
    ReachStep(s.(loop := Peeked(Until(a))), Park);
    s' := s.(loop := Due(a));
  }

  // A client cancels a queued job.
  lemma CancelledWhileDue(s: State, t: Tid, a: Entry, q': multiset<Entry>) returns (s': State)
    requires Reachable(s) && a in s.queue && q' == s.queue - multiset{a}
    requires a.id in s.store && s.store[a.id] == SCHEDULED && At(s, t).Idle?
    ensures Reachable(s') && s'.loop == s.loop && s'.queue == q' && s'.now == s.now
  {
    hide Reachable;
    ReachStep(s, StopLook(t, a.id));
    var s1 := Go(s, t, StopLooked(a.id, SCHEDULED));
    ReachStep(s1, StopRemove(t, true, q'));
    s' := TakeOut(s1, t, a.id, q');
  }

  // The proviso cannot be dropped: once the peeked job has been cancelled, Next may hand the loop
  // a job whose time has not come.
  lemma EarlyDispatchWithoutTheProviso()
    ensures exists s, e, q' :: Reachable(s) && s.loop.Due? && Enabled(s, Pop(Some(e), q')) && s.now < e.time
  {
    hide Reachable;
    var a, b := Entry("a", 5), Entry("b", 100);
    var s := TwoRecovered(a, b);
    s := FoundDue(s, a);
    s := CancelledWhileDue(s, 2, a, multiset{b});
    assert Enabled(s, Pop(Some(b), multiset{}));
  }
}
