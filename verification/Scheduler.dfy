/** scheduler.go and the recovery loop of joblet.go, one goroutine at a time: what AddJob,
    RemoveJob and RecoverScheduledJobs do to the queue and to the wake signal. Dispatch.dfy
    interleaves these with each other and with the scheduler loop. */
module Schedulers {
  import opened Wrappers
  import opened JobDomain
  import opened QueueSpec
  import opened PriorityQueues

  // What RecoverScheduledJobs reads of a job.
  datatype Record = Record(uuid: string, nodeId: string, status: Status, scheduledTime: Option<int>)

  function RecordOf(job: Job): Record
    reads job
  {
    Record(job.Uuid, job.NodeId, job.Status, job.ScheduledTime)
  }

  // A job to recover: still scheduled, and this node's.
  predicate Ours(r: Record, node: string) { IsScheduled(r.status) && r.nodeId == node }

  // What one stored job adds to the queue.
  function EntryFor(r: Record, node: string): seq<Entry> {
    if Ours(r, node) && r.scheduledTime.Some? then [Entry(r.uuid, r.scheduledTime.value)] else []
  }

  // What the first n stored jobs add to the queue.
  function EntriesFor(rs: seq<Record>, n: nat, node: string): seq<Entry>
    requires n <= |rs|
  {
    if n == 0 then [] else EntriesFor(rs, n - 1, node) + EntryFor(rs[n - 1], node)
  }

  // How many of the first n should have been recovered but have no time.
  ghost function Untimed(rs: seq<Record>, n: nat, node: string): nat
    requires n <= |rs|
  {
    if n == 0 then 0
    else Untimed(rs, n - 1, node) + if Ours(rs[n - 1], node) && rs[n - 1].scheduledTime == None then 1 else 0
  }

  // Exactly the scheduled, timed jobs of this node are recovered.
  lemma {:induction false} EntriesForMembers(rs: seq<Record>, n: nat, node: string, e: Entry)
    requires n <= |rs|
    ensures e in EntriesFor(rs, n, node) <==>
              exists k :: 0 <= k < n && rs[k].status == SCHEDULED && rs[k].nodeId == node
                          && rs[k].scheduledTime == Some(e.time) && rs[k].uuid == e.id
  {
    if n > 0 {
      EntriesForMembers(rs, n - 1, node, e);
      assert e in EntriesFor(rs, n, node) <==> e in EntriesFor(rs, n - 1, node) || e in EntryFor(rs[n - 1], node);
    }
  }

  // The first n jobs that are to be recovered at all, and those of them with the given time.
  function ToRecover(rs: seq<Record>, n: nat, node: string): set<nat>
    requires n <= |rs|
  {
    set k | 0 <= k < n && rs[k].status == SCHEDULED && rs[k].nodeId == node
  }

  function WithTime(rs: seq<Record>, n: nat, node: string, time: Option<int>): set<nat>
    requires n <= |rs|
  {
    set k | k in ToRecover(rs, n, node) && rs[k].scheduledTime == time
  }

  function WithEntry(rs: seq<Record>, n: nat, node: string, e: Entry): set<nat>
    requires n <= |rs|
  {
    set k | k in WithTime(rs, n, node, Some(e.time)) && rs[k].uuid == e.id
  }

  predicate HasEntry(r: Record, node: string, e: Entry) { Ours(r, node) && r.scheduledTime == Some(e.time) && r.uuid == e.id }

  function If(c: bool, k: nat): set<nat> { if c then {k} else {} }

  lemma ToRecoverMore(rs: seq<Record>, n: nat, node: string)
    requires 0 < n <= |rs|
    ensures ToRecover(rs, n, node) == ToRecover(rs, n - 1, node) + If(Ours(rs[n - 1], node), n - 1)
    ensures n - 1 !in ToRecover(rs, n - 1, node)
  {
  }

  lemma WithTimeMore(rs: seq<Record>, n: nat, node: string, time: Option<int>)
    requires 0 < n <= |rs|
    ensures WithTime(rs, n, node, time) == WithTime(rs, n - 1, node, time) + If(Ours(rs[n - 1], node) && rs[n - 1].scheduledTime == time, n - 1)
    ensures n - 1 !in WithTime(rs, n - 1, node, time)
  {
    ToRecoverMore(rs, n, node);
    hide ToRecover, Ours;
  }

  lemma WithEntryMore(rs: seq<Record>, n: nat, node: string, e: Entry)
    requires 0 < n <= |rs|
    ensures WithEntry(rs, n, node, e) == WithEntry(rs, n - 1, node, e) + If(HasEntry(rs[n - 1], node, e), n - 1)
    ensures n - 1 !in WithEntry(rs, n - 1, node, e)
  {
    WithTimeMore(rs, n, node, Some(e.time));
    hide ToRecover, WithTime, Ours;
  }

  // Each of the sets grows by the n-th job if it qualifies.
  lemma OneMore(rs: seq<Record>, n: nat, node: string, time: Option<int>, e: Entry)
    requires 0 < n <= |rs|
    ensures |ToRecover(rs, n, node)| == |ToRecover(rs, n - 1, node)| + if Ours(rs[n - 1], node) then 1 else 0
    ensures |WithTime(rs, n, node, time)| ==
              |WithTime(rs, n - 1, node, time)| + if Ours(rs[n - 1], node) && rs[n - 1].scheduledTime == time then 1 else 0
    ensures |WithEntry(rs, n, node, e)| == |WithEntry(rs, n - 1, node, e)| + if HasEntry(rs[n - 1], node, e) then 1 else 0
  {
    hide ToRecover, WithTime, WithEntry, HasEntry, Ours;
    ToRecoverMore(rs, n, node);
    WithTimeMore(rs, n, node, time);
    WithEntryMore(rs, n, node, e);
    Grows(ToRecover(rs, n, node), ToRecover(rs, n - 1, node), n - 1, Ours(rs[n - 1], node));
    Grows(WithTime(rs, n, node, time), WithTime(rs, n - 1, node, time), n - 1, Ours(rs[n - 1], node) && rs[n - 1].scheduledTime == time);
    Grows(WithEntry(rs, n, node, e), WithEntry(rs, n - 1, node, e), n - 1, HasEntry(rs[n - 1], node, e));
  }

  lemma Grows(s: set<nat>, t: set<nat>, x: nat, c: bool)
    requires x !in t && s == t + If(c, x)
    ensures |s| == |t| + if c then 1 else 0
  {
  }

  lemma EntryOnce(r: Record, node: string, e: Entry)
    ensures multiset(EntryFor(r, node))[e] == if HasEntry(r, node, e) then 1 else 0
    ensures |EntryFor(r, node)| == if Ours(r, node) && r.scheduledTime != None then 1 else 0
  {
  }

  /** An entry is recovered once for each job that has it, so jobs with different ids are recovered
      once each. */
  lemma {:induction false} EntriesForCount(rs: seq<Record>, n: nat, node: string, e: Entry)
    requires n <= |rs|
    ensures multiset(EntriesFor(rs, n, node))[e] == |WithEntry(rs, n, node, e)|
  {
    hide EntryFor, WithEntry, HasEntry;
    if n > 0 {
      EntriesForCount(rs, n - 1, node, e);
      OneMore(rs, n, node, None, e);
      EntryOnce(rs[n - 1], node, e);
    } else {
      NoneYet(rs, node, e);
    }
  }

  /** Every job to recover counts either as recovered or as skipped, the latter exactly if it has no
      time. */
  lemma {:induction false} RecoveredOrSkipped(rs: seq<Record>, n: nat, node: string)
    requires n <= |rs|
    ensures |EntriesFor(rs, n, node)| + Untimed(rs, n, node) == |ToRecover(rs, n, node)|
    ensures Untimed(rs, n, node) == |WithTime(rs, n, node, None)|
  {
    hide EntryFor, ToRecover, WithTime;
    if n > 0 {
      RecoveredOrSkipped(rs, n - 1, node);
      OneMore(rs, n, node, None, Entry("", 0));
      EntryOnce(rs[n - 1], node, Entry("", 0));
    } else {
      NoneYet(rs, node, Entry("", 0));
    }
  }

  lemma NoneYet(rs: seq<Record>, node: string, e: Entry)
    ensures ToRecover(rs, 0, node) == {} && WithTime(rs, 0, node, None) == {} && WithEntry(rs, 0, node, e) == {}
  {
  }

  class Scheduler {
    const queue: PriorityQueue
    var newJobSignal: bool   // whether the one-slot channel holds a signal

    ghost predicate Valid()
      reads this, queue, queue.Repr
    {
      queue.Valid()
    }

    constructor ()
      ensures Valid() && fresh(queue) && queue.Repr == {} && queue.Contents() == multiset{} && !newJobSignal
    {
      queue := new PriorityQueue();
      newJobSignal := false;
    }

    method AddJob(job: Job)
      requires Valid()
      modifies this, queue, queue.Repr`Index
      ensures Valid() && fresh(queue.Repr - old(queue.Repr))
      ensures job.ScheduledTime == None ==>
                queue.Contents() == old(queue.Contents()) && newJobSignal == old(newJobSignal)
      ensures job.ScheduledTime.Some? ==>
                && queue.Contents() == old(queue.Contents()) + multiset{Entry(job.Uuid, job.ScheduledTime.value)}
                && newJobSignal
    {
      if job.ScheduledTime == None {
        return;
      }
      queue.Add(job);
      newJobSignal := true;
    }

    method RemoveJob(jobID: string) returns (removed: bool)
      requires Valid()
      modifies this, queue, queue.Repr`Index
      ensures Valid() && queue.Repr <= old(queue.Repr)
      ensures Removes(old(queue.Contents()), jobID, removed, queue.Contents())
      ensures newJobSignal == (old(newJobSignal) || removed)
    {
      removed := queue.Remove(jobID);
      if removed {
        newJobSignal := true;
      }
    }

    // One turn of RecoverScheduledJobs' loop. AddJob never fails.
    method RecoverOne(job: Job, currentNodeId: string) returns (recovered: nat, skipped: nat)
      requires Valid()
      modifies this, queue, queue.Repr`Index
      ensures Valid() && fresh(queue.Repr - old(queue.Repr))
      ensures queue.Contents() == old(queue.Contents()) + multiset(EntryFor(RecordOf(job), currentNodeId))
      ensures recovered == |EntryFor(RecordOf(job), currentNodeId)|
      ensures skipped == if Ours(RecordOf(job), currentNodeId) && job.ScheduledTime == None then 1 else 0
      ensures newJobSignal == (old(newJobSignal) || recovered > 0)
    {
      recovered, skipped := 0, 0;
      if !IsScheduled(job.Status) || job.NodeId != currentNodeId {
        return;
      }
      if job.ScheduledTime == None {
        return 0, 1;
      }
      AddJob(job);
      recovered := 1;
    }

    // Every scheduled job of this node that has a time joins the queue, overdue or not; the
    // counters say how many did and how many had no time. The ghost rs is what the jobs say.
    method RecoverScheduledJobs(jobs: seq<Job>, currentNodeId: string, ghost rs: seq<Record>)
      returns (recovered: nat, skipped: nat)
      requires Valid()
      requires |rs| == |jobs| && forall k :: 0 <= k < |jobs| ==> RecordOf(jobs[k]) == rs[k]
      modifies this, queue, queue.Repr`Index
      ensures Valid() && fresh(queue.Repr - old(queue.Repr))
      ensures queue.Contents() == old(queue.Contents()) + multiset(EntriesFor(rs, |rs|, currentNodeId))
      ensures recovered == |EntriesFor(rs, |rs|, currentNodeId)| && skipped == Untimed(rs, |rs|, currentNodeId)
      ensures newJobSignal == (old(newJobSignal) || recovered > 0)
    {
      hide PriorityQueue.Valid, PriorityQueue.Contents, Scheduler.Valid, Ours, EntryFor;
      recovered, skipped := 0, 0;
      for i := 0 to |jobs|
        invariant Valid() && fresh(queue.Repr - old(queue.Repr))
        invariant forall k :: 0 <= k < |jobs| ==> RecordOf(jobs[k]) == rs[k]
        invariant queue.Contents() == old(queue.Contents()) + multiset(EntriesFor(rs, i, currentNodeId))
        invariant recovered == |EntriesFor(rs, i, currentNodeId)| && skipped == Untimed(rs, i, currentNodeId)
        invariant newJobSignal == (old(newJobSignal) || recovered > 0)
      {
        var r, k := RecoverOne(jobs[i], currentNodeId);
        recovered, skipped := recovered + r, skipped + k;
      }
    }
  }
}
