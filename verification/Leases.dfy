/** Which job holds which address of one network, when jobs are attached and detached concurrently:
    network_store_adapter.go under network_service.go and the cleanup coordinator, one step per
    call of the store or the pool. Detaching reads the job's record, releases the address it names
    and then deletes the record. */
module Leases {
  import opened IpPools

  type Tid = nat
  type Job = string

  datatype Pc =
    | Idle
    | Holding(job: Job, ip: string)       // AllocateIP done, AssignJobToNetwork not yet
    | Undoing(ip: string)                 // the assignment failed, ReleaseIP not yet
    | Looked(job: Job, ip: string)        // the record read, ReleaseIP not yet
    | Released(job: Job)                  // the record not deleted yet

  // A job has an address from its assignment until a detach of the job releases it.
  datatype Lease = Lease(job: Job, ip: string)

  // On whose account an allocated address is.
  datatype Account = OfThread(t: Tid) | OfRecord(job: Job) | LeftBy(job: Job)

  datatype State = State(
    pool: Pool,
    records: map<Job, string>,
    pc: map<Tid, Pc>,
    account: map<string, Account>,        // history
    held: set<Lease>)                     // history

  datatype Action =
    | Allocate(t: Tid, job: Job) | Assign(t: Tid) | AssignFails(t: Tid) | Undo(t: Tid)
    | Look(t: Tid, job: Job) | ReleaseIt(t: Tid) | DeleteIt(t: Tid)

  function At(s: State, t: Tid): Pc { if t in s.pc then s.pc[t] else Idle }

  predicate Enabled(s: State, a: Action) {
    match a
    case Allocate(t, _) => At(s, t).Idle? && s.pool.available != []
    case Assign(t) => At(s, t).Holding?
    case AssignFails(t) => At(s, t).Holding?
    case Undo(t) => At(s, t).Undoing?
    case Look(t, job) => At(s, t).Idle? && job in s.records
    case ReleaseIt(t) => At(s, t).Looked?
    case DeleteIt(t) => At(s, t).Released?
  }

  // The record of a job goes; its address, if still on its account, is left by it for good.
  function Drop(account: map<string, Account>, records: map<Job, string>, job: Job): map<string, Account> {
    if job in records && records[job] in account && account[records[job]] == OfRecord(job)
    then account[records[job] := LeftBy(job)] else account
  }

  function Allocated(s: State, t: Tid, job: Job): State
    requires s.pool.available != []
  {
    var ip := s.pool.available[0];
    s.(pool := Do(s.pool, IpPools.Allocate), pc := s.pc[t := Holding(job, ip)], account := s.account[ip := OfThread(t)])
  }

  // SimpleAllocationStore.Create overwrites.
  function Assigned(s: State, t: Tid, job: Job, ip: string): State {
    s.(records := s.records[job := ip], pc := s.pc[t := Idle], account := Drop(s.account, s.records, job)[ip := OfRecord(job)],
       held := s.held + {Lease(job, ip)})
  }

  function GivenBack(s: State, t: Tid, ip: string, p: Pc): State {
    s.(pool := Do(s.pool, IpPools.Release(ip)), pc := s.pc[t := p],
       account := if ip in s.pool.allocatedIPs then s.account - {ip} else s.account,
       held := if p.Released? then s.held - {Lease(p.job, ip)} else s.held)
  }

  function Seen(s: State, t: Tid, job: Job): State
    requires job in s.records
  {
    var ip := s.records[job];
    s.(pc := s.pc[t := Looked(job, ip)],
       account := if ip in s.account && s.account[ip] == OfRecord(job) then s.account[ip := OfThread(t)] else s.account)
  }

  function Deleted(s: State, t: Tid, job: Job): State {
    s.(records := s.records - {job}, pc := s.pc[t := Idle], account := Drop(s.account, s.records, job))
  }

  function Apply(s: State, a: Action): State
    requires Enabled(s, a)
  {
    match a
    case Allocate(t, job) => Allocated(s, t, job)
    case Assign(t) => Assigned(s, t, At(s, t).job, At(s, t).ip)
    case AssignFails(t) => s.(pc := s.pc[t := Undoing(At(s, t).ip)])
    case Undo(t) => GivenBack(s, t, At(s, t).ip, Idle)
    case Look(t, job) => Seen(s, t, job)
    case ReleaseIt(t) => GivenBack(s, t, At(s, t).ip, Released(At(s, t).job))
    case DeleteIt(t) => Deleted(s, t, At(s, t).job)
  }

  // A thread is between reading a job's record and deleting it.
  predicate Detaches(p: Pc, job: Job) { (p.Looked? || p.Released?) && p.job == job }

  // A detach does not start while another one of the same job is under way. The cleanup
  // coordinator's CleanupJob sees to that among its own callers with its table of active cleanups;
  // the execution coordinator calls CleanupNetworking without it, when a launch fails and on a stop.
  ghost predicate Separate(s: State, a: Action) {
    a.Look? ==> forall u {:trigger At(s, u)} :: !Detaches(At(s, u), a.job)
  }

  // The weaker condition that is exact: the address a detach reads in the job's record is still on
  // the record's account, that is, no other detach has read this same assignment.
  predicate Own(s: State, a: Action) {
    a.Look? && a.job in s.records ==> s.records[a.job] in s.account && s.account[s.records[a.job]] == OfRecord(a.job)
  }

  function Init(hosts: seq<string>): State { State(Pool(hosts, {}), map[], map[], map[], {}) }

  // A run in which every step is possible when it is taken.
  predicate Runs(s: State, acts: seq<Action>)
    decreases |acts|
  {
    acts == [] || (Enabled(s, acts[0]) && Runs(Apply(s, acts[0]), acts[1..]))
  }

  function End(s: State, acts: seq<Action>): State
    requires Runs(s, acts)
    decreases |acts|
  {
    if acts == [] then s else End(Apply(s, acts[0]), acts[1..])
  }

  ghost predicate AllSeparate(s: State, acts: seq<Action>)
    requires Runs(s, acts)
    decreases |acts|
  {
    acts == [] || (Separate(s, acts[0]) && AllSeparate(Apply(s, acts[0]), acts[1..]))
  }

  predicate AllOwn(s: State, acts: seq<Action>)
    requires Runs(s, acts)
    decreases |acts|
  {
    acts == [] || (Own(s, acts[0]) && AllOwn(Apply(s, acts[0]), acts[1..]))
  }

  // --- the invariant ---

  predicate PoolOk(s: State) {
    && s.account.Keys == s.pool.allocatedIPs
    && (forall ip :: ip in s.pool.available ==> ip !in s.pool.allocatedIPs)
    && NoDuplicates(s.pool.available)
    && (forall job :: job in s.records ==> s.records[job] in s.pool.available || s.records[job] in s.pool.allocatedIPs)
  }

  predicate Has(p: Pc, ip: string) { (p.Holding? || p.Undoing? || p.Looked?) && p.ip == ip }

  // An address is on a thread's account exactly while the thread is to assign or release it.
  ghost predicate ThreadsOk(s: State) {
    && (forall t {:trigger At(s, t)} :: At(s, t).Holding? || At(s, t).Undoing? || At(s, t).Looked? ==>
          At(s, t).ip in s.account && s.account[At(s, t).ip] == OfThread(t))
    && (forall ip :: ip in s.account && s.account[ip].OfThread? ==> Has(At(s, s.account[ip].t), ip))
  }

  // A job's record names an address on its account, unless the job is being detached.
  ghost predicate RecordOk(s: State, job: Job)
    requires job in s.records
  {
    var ip := s.records[job];
    || (ip in s.account && s.account[ip] == OfRecord(job))
    || exists u {:trigger At(s, u)} :: At(s, u) == Looked(job, ip) || At(s, u) == Released(job)
  }

  ghost predicate RecordsOk(s: State) { forall job :: job in s.records ==> RecordOk(s, job) }

  // An address on a job's account is the one its record names, one left by a job is not, and
  // either is held by the job.
  predicate AccountOk(s: State, ip: string)
    requires ip in s.account
  {
    match s.account[ip]
    case OfThread(_) => true
    case OfRecord(job) => job in s.records && s.records[job] == ip && Lease(job, ip) in s.held
    case LeftBy(job) => !(job in s.records && s.records[job] == ip) && Lease(job, ip) in s.held
  }

  predicate AccountsOk(s: State) { forall ip :: ip in s.account ==> AccountOk(s, ip) }

  // A held address is on the account of its job's record or of the thread detaching the job, or
  // left by the job.
  predicate LeaseOk(s: State, l: Lease) {
    && l.ip in s.account
    && match s.account[l.ip]
       case OfRecord(job) => job == l.job
       case LeftBy(job) => job == l.job
       case OfThread(t) => At(s, t) == Looked(l.job, l.ip)
  }

  // No address is held by two jobs.
  predicate Exclusive(s: State) { forall l, m :: l in s.held && m in s.held && l.ip == m.ip ==> l == m }

  predicate HeldOk(s: State) { (forall l :: l in s.held ==> LeaseOk(s, l)) && Exclusive(s) }

  ghost predicate Inv(s: State) { PoolOk(s) && ThreadsOk(s) && RecordsOk(s) && AccountsOk(s) && HeldOk(s) }

  lemma OthersStay(s: State, a: Action)
    requires Enabled(s, a)
    ensures forall u {:trigger At(Apply(s, a), u)} :: u != a.t ==> At(Apply(s, a), u) == At(s, u)
  {
  }

  lemma PoolKept(s: State, a: Action)
    requires Inv(s) && Enabled(s, a)
    ensures PoolOk(Apply(s, a))
  {
    var s' := Apply(s, a);
    if a.Allocate? {
      assert s.pool.available == [s.pool.available[0]] + s.pool.available[1..];
    }
    if a.Assign? {
      assert Drop(s.account, s.records, At(s, a.t).job).Keys == s.account.Keys;
    }
  }

  lemma ThreadsKept(s: State, a: Action)
    requires Inv(s) && Enabled(s, a) && Own(s, a)
    ensures ThreadsOk(Apply(s, a))
  {
    OthersStay(s, a);
    hide IpPools.Do;
  }

  lemma RecordsKept(s: State, a: Action)
    requires Inv(s) && Enabled(s, a) && Own(s, a)
    ensures RecordsOk(Apply(s, a))
  {
    OthersStay(s, a);
    hide IpPools.Do;
    var s' := Apply(s, a);
    forall job | job in s'.records ensures RecordOk(s', job) {
      if job in s.records && s'.records[job] == s.records[job] {
        RecordStays(s, a, job);
      }
    }
  }

  lemma AccountsKept(s: State, a: Action)
    requires Inv(s) && Enabled(s, a) && Own(s, a)
    ensures AccountsOk(Apply(s, a))
  {
    hide IpPools.Do, RecordsOk;
    var s' := Apply(s, a);
    forall ip | ip in s'.account ensures AccountOk(s', ip) {
      assert ip in s.account ==> AccountOk(s, ip);
    }
  }

  lemma RecordStays(s: State, a: Action, job: Job)
    requires Inv(s) && Enabled(s, a) && Own(s, a) && job in s.records && job in Apply(s, a).records
    requires Apply(s, a).records[job] == s.records[job]
    ensures RecordOk(Apply(s, a), job)
  {
    OthersStay(s, a);
    hide IpPools.Do;
    var s', ip := Apply(s, a), s.records[job];
    if ip in s.account && s.account[ip] == OfRecord(job) {
      assert a.Look? && a.job == job ==> At(s', a.t) == Looked(job, ip);
    } else {
      var u :| At(s, u) == Looked(job, ip) || At(s, u) == Released(job);
      assert At(s', u) == At(s, u) || At(s', u) == Released(job);
    }
  }

  lemma HeldKept(s: State, a: Action)
    requires Inv(s) && Enabled(s, a) && Own(s, a)
    ensures HeldOk(Apply(s, a))
  {
    OthersStay(s, a);
    hide IpPools.Do;
  }

  lemma {:induction false} RunKeeps(s: State, acts: seq<Action>)
    requires Inv(s) && Runs(s, acts) && AllOwn(s, acts)
    ensures Inv(End(s, acts))
    decreases |acts|
  {
    if acts != [] {
      hide PoolOk, ThreadsOk, RecordsOk, AccountsOk, HeldOk, Own, Enabled, Apply;
      PoolKept(s, acts[0]);
      ThreadsKept(s, acts[0]);
      RecordsKept(s, acts[0]);
      AccountsKept(s, acts[0]);
      HeldKept(s, acts[0]);
      RunKeeps(Apply(s, acts[0]), acts[1..]);
    }
  }

  lemma InvInitially(hosts: seq<string>)
    requires NoDuplicates(hosts)
    ensures Inv(Init(hosts))
  {
  }

  /** Detaches of a job that do not overlap read assignments of their own. */
  lemma SeparateIsOwn(s: State, a: Action)
    requires Inv(s) && Enabled(s, a) && Separate(s, a)
    ensures Own(s, a)
  {
    if a.Look? {
      assert RecordOk(s, a.job);
    }
  }

  lemma {:induction false} SeparateRunsAreOwn(s: State, acts: seq<Action>)
    requires Inv(s) && Runs(s, acts) && AllSeparate(s, acts)
    ensures AllOwn(s, acts)
    decreases |acts|
  {
    if acts != [] {
      hide PoolOk, ThreadsOk, RecordsOk, AccountsOk, HeldOk, Own, Enabled, Apply, Separate;
      SeparateIsOwn(s, acts[0]);
      PoolKept(s, acts[0]);
      ThreadsKept(s, acts[0]);
      RecordsKept(s, acts[0]);
      AccountsKept(s, acts[0]);
      HeldKept(s, acts[0]);
      SeparateRunsAreOwn(Apply(s, acts[0]), acts[1..]);
    }
  }

  // --- what the condition gives ---

  /** As long as every detach reads an assignment no other detach has read, over every interleaving
      no address is held by two jobs, and a held address is allocated in the pool. */
  lemma NoAddressHeldTwice(hosts: seq<string>, acts: seq<Action>, j: Job, k: Job, ip: string)
    requires NoDuplicates(hosts) && Runs(Init(hosts), acts) && AllOwn(Init(hosts), acts)
    requires Lease(j, ip) in End(Init(hosts), acts).held && Lease(k, ip) in End(Init(hosts), acts).held
    ensures j == k && ip in End(Init(hosts), acts).pool.allocatedIPs
  {
    InvInitially(hosts);
    RunKeeps(Init(hosts), acts);
    assert LeaseOk(End(Init(hosts), acts), Lease(j, ip));
    assert Lease(j, ip).ip == Lease(k, ip).ip;
  }

  /** As long as no two detaches of one job overlap, two jobs' records name the same address only
      while one of the jobs is being detached and its address is already released. */
  lemma NoAddressShared(hosts: seq<string>, acts: seq<Action>, j: Job, k: Job)
    requires NoDuplicates(hosts) && Runs(Init(hosts), acts) && AllSeparate(Init(hosts), acts)
    requires var s := End(Init(hosts), acts);
             j in s.records && k in s.records && j != k && s.records[j] == s.records[k]
    ensures exists t {:trigger At(End(Init(hosts), acts), t)} ::
              At(End(Init(hosts), acts), t) == Released(j) || At(End(Init(hosts), acts), t) == Released(k)
  {
    InvInitially(hosts);
    SeparateRunsAreOwn(Init(hosts), acts);
    RunKeeps(Init(hosts), acts);
    var s := End(Init(hosts), acts);
    assert RecordOk(s, j) && RecordOk(s, k);
  }

  /** Under the same condition an address just allocated is in no job's record, unless that job's
      detach has released it already. */
  lemma AllocatedIsFresh(hosts: seq<string>, acts: seq<Action>, t: Tid, j: Job)
    requires NoDuplicates(hosts) && Runs(Init(hosts), acts) && AllSeparate(Init(hosts), acts)
    requires var s := End(Init(hosts), acts);
             At(s, t).Holding? && j in s.records && s.records[j] == At(s, t).ip
    ensures exists u {:trigger At(End(Init(hosts), acts), u)} :: At(End(Init(hosts), acts), u) == Released(j)
  {
    InvInitially(hosts);
    SeparateRunsAreOwn(Init(hosts), acts);
    RunKeeps(Init(hosts), acts);
    assert RecordOk(End(Init(hosts), acts), j);
  }

  /** And the address of a job that is not being detached is allocated in the pool. */
  lemma HeldIsAllocated(hosts: seq<string>, acts: seq<Action>, j: Job)
    requires NoDuplicates(hosts) && Runs(Init(hosts), acts) && AllSeparate(Init(hosts), acts)
    requires var s := End(Init(hosts), acts);
             j in s.records && forall t {:trigger At(s, t)} :: !Detaches(At(s, t), j)
    ensures var s := End(Init(hosts), acts);
            s.records[j] in s.pool.allocatedIPs
  {
    InvInitially(hosts);
    SeparateRunsAreOwn(Init(hosts), acts);
    RunKeeps(Init(hosts), acts);
    assert RecordOk(End(Init(hosts), acts), j);
  }

  // --- no address is lost ---

  // A job is attached only while it has no record and is not being detached.
  ghost predicate FreshAttach(s: State, a: Action)
    requires Enabled(s, a)
  {
    a.Assign? ==> At(s, a.t).job !in s.records && forall u {:trigger At(s, u)} :: !Detaches(At(s, u), At(s, a.t).job)
  }

  ghost predicate AllFresh(s: State, acts: seq<Action>)
    requires Runs(s, acts)
    decreases |acts|
  {
    acts == [] || (FreshAttach(s, acts[0]) && AllFresh(Apply(s, acts[0]), acts[1..]))
  }

  // No address is left behind, and the record of a job being detached is not on its own account.
  ghost predicate NoneLeft(s: State) {
    && (forall ip :: ip in s.account ==> !s.account[ip].LeftBy?)
    && (forall t, job {:trigger Detaches(At(s, t), job)} :: Detaches(At(s, t), job) && job in s.records ==>
          !(s.records[job] in s.account && s.account[s.records[job]] == OfRecord(job)))
  }

  lemma NoneLeftKept(s: State, a: Action)
    requires Inv(s) && NoneLeft(s) && Enabled(s, a) && Own(s, a) && FreshAttach(s, a)
    ensures NoneLeft(Apply(s, a))
  {
    OthersStay(s, a);
    hide IpPools.Do, RecordsOk, AccountsOk, HeldOk;
    var s' := Apply(s, a);
    if a.DeleteIt? {
      assert Detaches(At(s, a.t), At(s, a.t).job);
    }
    forall t, job | Detaches(At(s', t), job) && job in s'.records
      ensures !(s'.records[job] in s'.account && s'.account[s'.records[job]] == OfRecord(job))
    {
      assert t != a.t ==> Detaches(At(s, t), job);
      assert a.ReleaseIt? && t == a.t ==> Detaches(At(s, t), job);
    }
  }

  lemma {:induction false} RunLeavesNone(s: State, acts: seq<Action>)
    requires Inv(s) && NoneLeft(s) && Runs(s, acts) && AllOwn(s, acts) && AllFresh(s, acts)
    ensures Inv(End(s, acts)) && NoneLeft(End(s, acts))
    decreases |acts|
  {
    if acts != [] {
      hide PoolOk, ThreadsOk, RecordsOk, AccountsOk, HeldOk, Own, Enabled, Apply, NoneLeft, FreshAttach;
      PoolKept(s, acts[0]);
      ThreadsKept(s, acts[0]);
      RecordsKept(s, acts[0]);
      AccountsKept(s, acts[0]);
      HeldKept(s, acts[0]);
      NoneLeftKept(s, acts[0]);
      RunLeavesNone(Apply(s, acts[0]), acts[1..]);
    }
  }

  /** If besides every job is attached only while it has no record and is not being detached, then
      whenever nobody is at work the allocated addresses are exactly those the records name, one
      job's each: no address is lost. */
  lemma NothingLeaks(hosts: seq<string>, acts: seq<Action>, ip: string)
    requires NoDuplicates(hosts) && Runs(Init(hosts), acts) && AllOwn(Init(hosts), acts) && AllFresh(Init(hosts), acts)
    requires forall t {:trigger At(End(Init(hosts), acts), t)} :: At(End(Init(hosts), acts), t).Idle?
    ensures var s := End(Init(hosts), acts);
            ip in s.pool.allocatedIPs <==> exists job :: job in s.records && s.records[job] == ip
    ensures var s := End(Init(hosts), acts);
            forall j, k :: j in s.records && k in s.records && s.records[j] == s.records[k] ==> j == k
  {
    InvInitially(hosts);
    RunLeavesNone(Init(hosts), acts);
    var s := End(Init(hosts), acts);
    hide End, Runs, AllOwn, AllFresh;
    if ip in s.account {
      assert AccountOk(s, ip);
    }
    forall job | job in s.records ensures s.records[job] in s.account && s.account[s.records[job]] == OfRecord(job) {
      assert RecordOk(s, job);
    }
  }

  // The condition is needed: attaching a job again while its record is in place loses the address
  // the record named.
  lemma AttachingAgainLeaks(s: State, t: Tid, job: Job)
    requires Inv(s) && At(s, t).Idle? && job in s.records && s.records[job] in s.account
    requires s.account[s.records[job]] == OfRecord(job) && s.pool.available != []
    requires forall k :: k in s.records && k != job ==> s.records[k] != s.records[job]
    ensures var acts := [Action.Allocate(t, job), Assign(t)];
            Runs(s, acts) &&
            var s' := End(s, acts);
            s.records[job] in s'.pool.allocatedIPs && At(s', t).Idle? && forall k :: k in s'.records ==> s'.records[k] != s.records[job]
  {
    var acts := [Action.Allocate(t, job), Assign(t)];
    var s1 := Apply(s, acts[0]);
    var s2 := Apply(s1, acts[1]);
    assert acts[1..] == [Assign(t)] && acts[1..][1..] == [];
    assert Runs(s2, []) && Runs(s1, acts[1..]) && End(s1, acts[1..]) == s2;
  }

  // --- and that nothing weaker does ---

  predicate LookFree(acts: seq<Action>) { forall a :: a in acts ==> !a.Look? }

  lemma Prepend(s: State, a: Action, rest: seq<Action>) returns (acts: seq<Action>)
    requires Enabled(s, a) && Runs(Apply(s, a), rest)
    ensures Runs(s, acts) && End(s, acts) == End(Apply(s, a), rest)
    ensures !a.Look? && LookFree(rest) ==> LookFree(acts)
  {
    acts := [a] + rest;
    assert acts[1..] == rest;
  }

  lemma {:induction false} Chain(s: State, acts: seq<Action>, more: seq<Action>)
    requires Runs(s, acts) && Runs(End(s, acts), more)
    ensures Runs(s, acts + more) && End(s, acts + more) == End(End(s, acts), more)
    ensures LookFree(acts) && LookFree(more) ==> LookFree(acts + more)
    decreases |acts|
  {
    if acts == [] {
      assert acts + more == more;
    } else {
      assert (acts + more)[1..] == acts[1..] + more;
      Chain(Apply(s, acts[0]), acts[1..], more);
    }
  }

  lemma {:induction false} Above(ts: set<Tid>) returns (t: Tid)
    ensures forall u :: u in ts ==> u < t
  {
    if ts == {} {
      return 0;
    }
    var u :| u in ts;
    t := Above(ts - {u});
    t := if u < t then t else u + 1;
    assert forall v :: v in ts ==> v == u || v in ts - {u};
  }

  lemma {:induction false} IdleThread(s: State) returns (t: Tid)
    ensures t !in s.pc
  {
    t := Above(s.pc.Keys);
    assert t in s.pc.Keys ==> t < t;
  }

  // Busy threads have stayed where they were, and no lease is gone.
  ghost predicate Goes(s: State, s': State) {
    && (forall u {:trigger At(s', u)} :: !At(s, u).Idle? ==> At(s', u) == At(s, u))
    && s.held <= s'.held
  }

  // Idle threads can allocate until the address at place p of the pool is handed out, and give
  // it to a job.
  lemma {:induction false} DrawsOut(s: State, p: nat, job: Job) returns (acts: seq<Action>)
    requires p < |s.pool.available|
    ensures Runs(s, acts) && LookFree(acts) && Goes(s, End(s, acts))
    ensures var ip := s.pool.available[p];
            Lease(job, ip) in End(s, acts).held && ip in End(s, acts).pool.allocatedIPs
    decreases p
  {
    var t := IdleThread(s);
    var s1 := Apply(s, Action.Allocate(t, job));
    if p == 0 {
      acts := Prepend(s1, Assign(t), []);
      acts := Prepend(s, Action.Allocate(t, job), acts);
    } else {
      assert s1.pool.available[p - 1] == s.pool.available[p];
      var rest := DrawsOut(s1, p - 1, job);
      acts := Prepend(s, Action.Allocate(t, job), rest);
      assert Goes(s, s1);
    }
  }

  lemma GoesOn(s: State, s1: State, s2: State)
    requires Goes(s, s1) && Goes(s1, s2)
    ensures Goes(s, s2)
  {
    assert forall u :: !At(s, u).Idle? ==> At(s1, u) == At(s, u);
  }

  // A thread that is going to release a free address makes two jobs hold it.
  lemma SharesFree(s: State, t: Tid, job: Job, ip: string) returns (acts: seq<Action>)
    requires At(s, t) == Looked(job, ip) && ip in s.pool.available
    ensures Runs(s, acts) && LookFree(acts) && !Exclusive(End(s, acts))
  {
    var p :| 0 <= p < |s.pool.available| && s.pool.available[p] == ip;
    var b := job + "2";
    var first := DrawsOut(s, p, b);
    var s2 := End(s, first);
    var second := SharesHeld(s2, t, job, b, ip);
    Chain(s, first, second);
    acts := first + second;
  }

  // And so does one that is going to release an address another job holds.
  lemma SharesHeld(s: State, t: Tid, job: Job, k: Job, ip: string) returns (acts: seq<Action>)
    requires At(s, t) == Looked(job, ip) && ip in s.pool.allocatedIPs && Lease(k, ip) in s.held && k != job
    ensures Runs(s, acts) && LookFree(acts) && !Exclusive(End(s, acts))
  {
    var s1 := Apply(s, ReleaseIt(t));
    assert s1.pool.available == s.pool.available + [ip];
    assert Lease(k, ip) in s1.held;
    var rest := DrawsOut(s1, |s.pool.available|, k + "2");
    acts := Prepend(s, ReleaseIt(t), rest);
    var l, m := Lease(k, ip), Lease(k + "2", ip);
    assert l in End(s, acts).held && m in End(s, acts).held && l != m && l.ip == m.ip;
  }

  // The thread whose account an address is on can free it.
  lemma ThreadFrees(s: State, w: Tid, ip: string) returns (acts: seq<Action>)
    requires Has(At(s, w), ip) && ip in s.pool.allocatedIPs
    ensures Runs(s, acts) && LookFree(acts) && ip in End(s, acts).pool.available
    ensures forall u {:trigger At(End(s, acts), u)} :: u != w ==> At(End(s, acts), u) == At(s, u)
  {
    if At(s, w).Holding? {
      var s1 := Apply(s, AssignFails(w));
      acts := Prepend(s1, Undo(w), []);
      acts := Prepend(s, AssignFails(w), acts);
    } else if At(s, w).Undoing? {
      acts := Prepend(s, Undo(w), []);
    } else {
      acts := Prepend(s, ReleaseIt(w), []);
    }
  }

  lemma OthersLookShares(s: State, t: Tid, job: Job) returns (acts: seq<Action>)
    requires Inv(s) && Enabled(s, Look(t, job)) && !Own(s, Look(t, job))
    ensures Runs(Apply(s, Look(t, job)), acts) && LookFree(acts) && !Exclusive(End(Apply(s, Look(t, job)), acts))
  {
    var s1, ip := Apply(s, Look(t, job)), s.records[job];
    if ip !in s.account {
      acts := SharesFree(s1, t, job, ip);
    } else if s.account[ip].OfThread? {
      var w := s.account[ip].t;
      assert Has(At(s, w), ip) && w != t && At(s1, w) == At(s, w);
      var first := ThreadFrees(s1, w, ip);
      var second := SharesFree(End(s1, first), t, job, ip);
      Chain(s1, first, second);
      acts := first + second;
    } else {
      acts := SharesHeld(s1, t, job, s.account[ip].job, ip);
    }
  }

  lemma {:induction false} LookFreeIsOwn(s: State, acts: seq<Action>)
    requires Runs(s, acts) && LookFree(acts)
    ensures AllOwn(s, acts)
    decreases |acts|
  {
    if acts != [] {
      assert !acts[0].Look?;
      LookFreeIsOwn(Apply(s, acts[0]), acts[1..]);
    }
  }

  /** The condition is exact: from any state the condition has kept, starting one more detach can
      lead to two jobs holding one address, with no further detach started, if and only if the
      assignment it reads is not its own. */
  lemma OwnIsExact(s: State, t: Tid, job: Job)
    requires Inv(s) && Enabled(s, Look(t, job))
    ensures Own(s, Look(t, job)) <==>
              forall acts :: Runs(Apply(s, Look(t, job)), acts) && LookFree(acts) ==> Exclusive(End(Apply(s, Look(t, job)), acts))
  {
    var a := Look(t, job);
    if Own(s, a) {
      PoolKept(s, a);
      ThreadsKept(s, a);
      RecordsKept(s, a);
      AccountsKept(s, a);
      HeldKept(s, a);
      var s1 := Apply(s, a);
      hide Apply, Enabled, PoolOk, ThreadsOk, RecordsOk, AccountsOk, Own;
      forall acts | Runs(s1, acts) && LookFree(acts) ensures Exclusive(End(s1, acts)) {
        LookFreeIsOwn(s1, acts);
        RunKeeps(s1, acts);
      }
    } else {
      var acts := OthersLookShares(s, t, job);
    }
  }

  // A run from the start: after two overlapping detaches of job a the records of b and c name the
  // same address x for good, with nobody at work.
  lemma OverlappingDetachesShare(x: string)
    ensures exists acts ::
              Runs(Init([x]), acts) &&
              var s := End(Init([x]), acts);
              s.records == map["b" := x, "c" := x] && At(s, 0).Idle? && At(s, 1).Idle? && At(s, 2).Idle?
  {
    hide Apply, Enabled;
    var s0 := Init([x]);
    var s2 := Attached(s0, "a", x);
    var s6 := DetachedOnce(s2, x);
    var s8 := Attached(s6, "b", x);
    var s10 := DetachedAgain(s8, x);
    var s12 := Attached(s10, "c", x);
    var acts := AttachFirst(s10, "c", x, []);
    acts := DetachAgainFirst(s8, x, acts);
    acts := AttachFirst(s6, "b", x, acts);
    acts := DetachOnceFirst(s2, x, acts);
    acts := AttachFirst(s0, "a", x, acts);
    assert End(s0, acts) == s12;
  }

  // Threads 1 and 2 both read a's record; thread 1 finishes its detach.
  function DetachedOnce(s: State, x: string): (s': State)
    requires s.records == map["a" := x] && s.pool == Pool([], {x}) && At(s, 1).Idle? && At(s, 2).Idle?
    ensures s'.records == map[] && s'.pool == Pool([x], {})
    ensures At(s', 0) == At(s, 0) && At(s', 1).Idle? && At(s', 2) == Looked("a", x)
  {
    assert {x} - {x} == {} && [] + [x] == [x];
    Apply(Apply(Apply(Apply(s, Look(1, "a")), Look(2, "a")), ReleaseIt(1)), DeleteIt(1))
  }

  lemma DetachOnceFirst(s: State, x: string, rest: seq<Action>) returns (acts: seq<Action>)
    requires s.records == map["a" := x] && s.pool == Pool([], {x}) && At(s, 1).Idle? && At(s, 2).Idle?
    requires Runs(DetachedOnce(s, x), rest)
    ensures Runs(s, acts) && End(s, acts) == End(DetachedOnce(s, x), rest)
  {
    var s1 := Apply(s, Look(1, "a"));
    var s2 := Apply(s1, Look(2, "a"));
    acts := Prepend(Apply(s2, ReleaseIt(1)), DeleteIt(1), rest);
    acts := Prepend(s2, ReleaseIt(1), acts);
    acts := Prepend(s1, Look(2, "a"), acts);
    acts := Prepend(s, Look(1, "a"), acts);
  }

  // Thread 2 goes on with what it read, although the address is b's by now.
  function DetachedAgain(s: State, x: string): (s': State)
    requires s.records == map["b" := x] && s.pool == Pool([], {x}) && At(s, 2) == Looked("a", x)
    ensures s'.records == s.records && s'.pool == Pool([x], {})
    ensures At(s', 0) == At(s, 0) && At(s', 1) == At(s, 1) && At(s', 2).Idle?
  {
    assert {x} - {x} == {} && [] + [x] == [x];
    Apply(Apply(s, ReleaseIt(2)), DeleteIt(2))
  }

  lemma DetachAgainFirst(s: State, x: string, rest: seq<Action>) returns (acts: seq<Action>)
    requires s.records == map["b" := x] && s.pool == Pool([], {x}) && At(s, 2) == Looked("a", x)
    requires Runs(DetachedAgain(s, x), rest)
    ensures Runs(s, acts) && End(s, acts) == End(DetachedAgain(s, x), rest)
  {
    acts := Prepend(Apply(s, ReleaseIt(2)), DeleteIt(2), rest);
    acts := Prepend(s, ReleaseIt(2), acts);
  }

  // Thread 0 attaches a job to the only free address.
  function Attached(s: State, job: Job, x: string): (s': State)
    requires At(s, 0).Idle? && s.pool == Pool([x], {})
    ensures s'.records == s.records[job := x] && s'.pool == Pool([], {x})
    ensures At(s', 0).Idle? && At(s', 1) == At(s, 1) && At(s', 2) == At(s, 2)
  {
    assert [x][1..] == [] && {} + {x} == {x};
    Apply(Apply(s, Action.Allocate(0, job)), Assign(0))
  }

  lemma AttachFirst(s: State, job: Job, x: string, rest: seq<Action>) returns (acts: seq<Action>)
    requires At(s, 0).Idle? && s.pool == Pool([x], {}) && Runs(Attached(s, job, x), rest)
    ensures Runs(s, acts) && End(s, acts) == End(Attached(s, job, x), rest)
  {
    acts := Prepend(Apply(s, Action.Allocate(0, job)), Assign(0), rest);
    acts := Prepend(s, Action.Allocate(0, job), acts);
  }
}
