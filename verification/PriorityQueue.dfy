/** priority_queue.go: an indexed binary heap whose nodes know their own position. */
module PriorityQueues {
  import opened Wrappers
  import opened JobDomain
  import opened QueueSpec
  import opened HeapOrder

  class ScheduledJob {
    const Job: Job
    var ScheduledTime: int
    var Index: int

    constructor (job: Job, scheduledTime: int)
      ensures Job == job && ScheduledTime == scheduledTime && Index == 0
    {
      Job := job;
      ScheduledTime := scheduledTime;
      Index := 0;
    }
  }

  ghost function EntryOf(next: Option<ScheduledJob>): Option<Entry>
      reads if next.Some? then {next.value} else {}
  {
    match next
    case None => None
    case Some(x) => Some(Entry(x.Job.Uuid, x.ScheduledTime))
  }

  class PriorityQueue {
    var items: seq<ScheduledJob>
    ghost var view: seq<Entry>        // the entries of items, node by node
    ghost var Repr: set<ScheduledJob> // the nodes in the queue

    // Back-pointers are exact, so no node occurs twice.
    ghost predicate Indexed()
      reads this, Repr
    {
      && |view| == |items|
      && forall i {:trigger items[i]} :: 0 <= i < |items| ==>
           && items[i] in Repr && items[i].Index == i
           && view[i] == Entry(items[i].Job.Uuid, items[i].ScheduledTime)
    }

    ghost predicate Valid()
      reads this, Repr
    {
      Indexed() && Heap(view, |view|)
    }

    // No two nodes share a job, and each job shows the time its node is ordered by. The
    // scheduler reads the job's time, the heap the node's.
    ghost predicate InStep()
      reads this`Repr, Repr`ScheduledTime, (set x | x in Repr :: x.Job)`ScheduledTime
    {
      && (forall x, y :: x in Repr && y in Repr && x != y ==> x.Job != y.Job)
      && (forall x :: x in Repr ==> x.Job.ScheduledTime == Some(x.ScheduledTime))
    }

    ghost function Contents(): multiset<Entry>
      reads this
    {
      multiset(view)
    }

    constructor ()
      ensures Valid() && Contents() == multiset{} && Repr == {}
    {
      items, view := [], [];
      Repr := {};
    }

    predicate Less(i: nat, j: nat)
      requires i < |items| && j < |items|
      reads this, items
    {
      items[i].ScheduledTime < items[j].ScheduledTime
    }

    method Swap(i: nat, j: nat)
      requires Indexed() && i < |items| && j < |items|
      modifies this`items, this`view, Repr`Index
      ensures Indexed()
      ensures items == Swapped(old(items), i, j) && view == Swapped(old(view), i, j)
    {
      items := items[i := items[j]][j := items[i]];
      view := Swapped(view, i, j);
      items[i].Index := i;
      items[j].Index := j;
    }

    // heap.Interface's Push: append, without restoring the order.
    method Push(item: ScheduledJob)
      requires Indexed() && item !in Repr
      modifies this, item`Index
      ensures Indexed() && Repr == old(Repr) + {item}
      ensures items == old(items) + [item]
      ensures view == old(view) + [Entry(item.Job.Uuid, item.ScheduledTime)]
    {
      item.Index := |items|;
      items := items + [item];
      view := view + [Entry(item.Job.Uuid, item.ScheduledTime)];
      Repr := Repr + {item};
    }

    // heap.Interface's Pop: drop the last node; the nodes before it are already in order.
    method Pop() returns (item: ScheduledJob)
      requires Indexed() && |items| > 0 && Heap(view, |items| - 1)
      modifies this, Repr`Index
      ensures Valid()
      ensures item == old(items)[|old(items)| - 1] && item.Index == -1
      ensures items == old(items)[..|old(items)| - 1] && view == old(view)[..|items|]
      ensures Repr == old(Repr) - {item}
      ensures Contents() == old(Contents()) - multiset{Entry(item.Job.Uuid, item.ScheduledTime)}
    {
      var n := |items|;
      item := items[n - 1];
      item.Index := -1;
      assert view == view[..n - 1] + [view[n - 1]];
      HeapPrefix(view, n - 1, n - 1);
      items := items[..n - 1];
      view := view[..n - 1];
      Repr := Repr - {item};
    }

    // Nodes from n on stay where they are, and the entries are rearranged.
    twostate predicate Rearranged(n: nat)
      reads this
    {
      && |items| == |old(items)| && |view| == |old(view)| && multiset(view) == multiset(old(view))
      && forall k :: n <= k < |items| ==> items[k] == old(items)[k]
    }

    // One turn of up's loop: where node j went.
    method RiseOnce(j: nat, ghost n: nat) returns (i: nat)
      requires Indexed() && j < n <= |items|
      requires HeapBelow(view, n, j)
      modifies this`items, this`view, Repr`Index
      ensures Indexed() && Rearranged(n)
      ensures i <= j && HeapBelow(view, n, i)
      ensures i == j ==> Heap(view, n)
    {
      i := Parent(j);
      if i == j || !Less(j, i) {
        return j;
      }
      RiseStep(view, n, j);
      SwapKeepsBag(view, i, j);
      Swap(i, j);
    }

    // up of container/heap. It only looks at nodes above j0, so it restores the order of any
    // first n nodes that contain j0; heap.Remove calls it while the removed node sits at n.
    method Up(j0: nat, ghost n: nat)
      requires Indexed() && j0 < n <= |items|
      requires HeapBelow(view, n, j0)
      modifies this`items, this`view, Repr`Index
      ensures Indexed() && Rearranged(n) && Heap(view, n)
    {
      var j := j0;
      while true
        invariant 0 <= j < n && Indexed() && Rearranged(n) && HeapBelow(view, n, j)
        decreases j
      {
        var i := RiseOnce(j, n);
        if i == j {
          break;
        }
        j := i;
      }
    }

    // The child of node i that down compares it with: the right one only if strictly smaller.
    method SmallerChild(i: nat, n: nat) returns (j: nat)
      requires Indexed() && 2 * i + 1 < n <= |items|
      ensures j < n && Parent(j) == i
      ensures view[j].time <= view[2 * i + 1].time
      ensures 2 * i + 2 < n ==> view[j].time <= view[2 * i + 2].time
    {
      j := 2 * i + 1;
      if j + 1 < n && Less(j + 1, j) {
        j := j + 1;
      }
    }

    // One turn of down's loop: where node i went.
    method SinkOnce(i: nat, n: nat) returns (j: nat)
      requires Indexed() && i < |items| && n <= |items|
      requires HeapAround(view, n, i)
      modifies this`items, this`view, Repr`Index
      ensures Indexed() && Rearranged(n)
      ensures j == i ==> view == old(view) && HeapBelow(view, n, i)
      ensures j != i ==> i < j < n && HeapAround(view, n, j) && Edge(view, j)
    {
      if 2 * i + 1 < n {
        j := SmallerChild(i, n);
        if Less(j, i) {
          SinkStep(view, n, i, j);
          SwapKeepsBag(view, i, j);
          Swap(i, j);
          return;
        }
      }
      SinkStops(view, n, i);
      j := i;
    }

    // down of container/heap, on the first n nodes. Reports whether node i0 moved.
    method Down(i0: nat, n: nat) returns (moved: bool)
      requires Indexed() && i0 < |items| && n <= |items|
      requires HeapAround(view, n, i0)
      modifies this`items, this`view, Repr`Index
      ensures Indexed() && Rearranged(n)
      ensures if moved then Heap(view, n) else HeapBelow(view, n, i0)
    {
      var i := i0;
      while true
        invariant Indexed() && Rearranged(n) && i0 <= i < |items|
        invariant HeapAround(view, n, i) && (i > i0 ==> i < n && Edge(view, i))
        decreases |items| - i
      {
        var j := SinkOnce(i, n);
        if j == i {
          break;
        }
        i := j;
      }
      moved := i > i0;
      if moved {
        OrderedAbove(view, n, i);
      }
    }

    // heap.Fix: restore the order after node i changed its time.
    method Fix(i: nat)
      requires Indexed() && i < |items|
      requires HeapAround(view, |items|, i)
      modifies this`items, this`view, Repr`Index
      ensures Valid() && Contents() == old(Contents())
    {
      var moved := Down(i, |items|);
      if !moved {
        Up(i, |items|);
      }
    }

    // The part of heap.Remove before its Pop: node i changes places with the last node, which
    // then sinks or rises among the nodes before it.
    method MoveLast(i: nat)
      requires Valid() && i < |items| - 1
      modifies this`items, this`view, Repr`Index
      ensures Indexed() && Rearranged(|items|) && Heap(view, |items| - 1)
      ensures items[|items| - 1] == old(items[i])
    {
      var n := |items| - 1;
      LastReplaces(view, i);
      SwapKeepsBag(view, i, n);
      Swap(i, n);
      var moved := Down(i, n);
      if !moved {
        Up(i, n);
      }
    }

    // heap.Remove: take out node i.
    method RemoveAt(i: nat) returns (item: ScheduledJob)
      requires Valid() && i < |items|
      modifies this, Repr`Index
      ensures Valid()
      ensures item == old(items[i]) && item.Index == -1
      ensures Repr == old(Repr) - {item}
      ensures Contents() == old(Contents()) - multiset{Entry(item.Job.Uuid, item.ScheduledTime)}
      ensures Entry(item.Job.Uuid, item.ScheduledTime) == old(view[i])
    {
      var n := |items| - 1;
      if n != i {
        MoveLast(i);
      } else {
        HeapPrefix(view, n + 1, n);
      }
      item := Pop();
    }

    // The position of the first node for a job, if there is one.
    method Find(jobID: string) returns (i: nat)
      requires Indexed()
      ensures i <= |items|
      ensures i < |items| ==> view[i].id == jobID && view[i] in Contents()
      ensures HasId(Contents(), jobID) <==> i < |items|
    {
      i := 0;
      while i < |items| && items[i].Job.Uuid != jobID
        invariant i <= |items|
        invariant forall k :: 0 <= k < i ==> view[k].id != jobID
      {
        i := i + 1;
      }
      assert i < |view| ==> view[i] in multiset(view);
      assert forall e :: e in multiset(view) ==> e in view;
    }

    method Add(job: Job)
      requires Valid()
      modifies this, Repr`Index
      ensures Valid() && fresh(Repr - old(Repr))
      ensures Contents() == if job.ScheduledTime == None then old(Contents())
                            else old(Contents()) + multiset{Entry(job.Uuid, job.ScheduledTime.value)}
      ensures job.ScheduledTime.Some? ==> exists x :: x in Repr && fresh(x) && Repr == old(Repr) + {x} && x.Job == job
      ensures job.ScheduledTime == None ==> Repr == old(Repr)
      ensures old(InStep() && forall x :: x in Repr ==> x.Job != job) ==> InStep()
    {
      if job.ScheduledTime == None {
        return;
      }
      var scheduledJob := new ScheduledJob(job, job.ScheduledTime.value);
      AppendBelow(view, Entry(job.Uuid, job.ScheduledTime.value));
      Push(scheduledJob);
      Up(|items| - 1, |items|);
    }

    method Peek() returns (next: Option<ScheduledJob>)
      requires Valid()
      ensures next == None <==> Contents() == multiset{}
      ensures next.Some? ==> next.value in Repr && IsMin(Contents(), EntryOf(next).value)
    {
      if |items| == 0 {
        return None;
      }
      RootEntryIsMin(view);
      next := Some(items[0]);
    }

    method Next() returns (next: Option<ScheduledJob>)
      requires Valid()
      modifies this, Repr`Index
      ensures Valid()
      ensures Takes(old(Contents()), EntryOf(next), Contents())
      ensures if next.Some? then next.value in old(Repr) && Repr == old(Repr) - {next.value} && next.value.Index == -1 else Repr == old(Repr)
      ensures old(InStep()) ==> InStep()
    {
      if |items| == 0 {
        return None;
      }
      RootEntryIsMin(view);
      // heap.Pop swaps node 0 with the last one and sinks it, as heap.Remove(0) does.
      var item := RemoveAt(0);
      next := Some(item);
    }

    // Next until it finds nothing, as a client that waits for every job does: all jobs come out, in
    // order of time.
    method Drain() returns (outs: seq<Entry>)
      requires Valid()
      modifies this, Repr`Index
      ensures Valid() && Contents() == multiset{}
      ensures multiset(outs) == old(Contents()) && InTimeOrder(outs)
    {
      outs := [];
      var next := Next();
      while next.Some?
        invariant Valid() && Repr <= old(Repr)
        invariant Draining(old(Contents()), outs, EntryOf(next), Contents())
        decreases |Contents()|, next.Some?
      {
        hide Draining;
        var e := Entry(next.value.Job.Uuid, next.value.ScheduledTime);
        ghost var q := Contents();
        next := Next();
        DrainStep(old(Contents()), outs, e, q, EntryOf(next), Contents());
        outs := outs + [e];
      }
    }

    method Remove(jobID: string) returns (removed: bool)
      requires Valid()
      modifies this, Repr`Index
      ensures Valid()
      ensures Removes(old(Contents()), jobID, removed, Contents())
      ensures if removed then exists x :: x in old(Repr) && x.Job.Uuid == jobID && Repr == old(Repr) - {x} else Repr == old(Repr)
      ensures old(InStep()) ==> InStep()
    {
      var i := Find(jobID);
      if i == |items| {
        return false;
      }
      var item := RemoveAt(i);
      removed := true;
    }

    // Update's writes to a node and its job, before the heap is repaired.
    method SetTime(i: nat, newScheduledTime: int)
      requires Valid() && i < |items|
      modifies this`view, {items[i]}`ScheduledTime, {items[i].Job}`ScheduledTime
      ensures Indexed() && HeapAround(view, |items|, i)
      ensures view == old(view)[i := Entry(old(view[i]).id, newScheduledTime)]
      ensures old(InStep()) ==> InStep()
    {
      var item := items[i];
      item.ScheduledTime := newScheduledTime;
      item.Job.ScheduledTime := Some(newScheduledTime);
      ChangeDamages(view, i, Entry(view[i].id, newScheduledTime));
      view := view[i := Entry(view[i].id, newScheduledTime)];
    }

    method Update(jobID: string, newScheduledTime: int) returns (found: bool)
      requires Valid()
      modifies this`items, this`view, Repr, set x | x in Repr :: x.Job
      ensures Valid()
      ensures Reschedules(old(Contents()), jobID, newScheduledTime, found, Contents())
      ensures old(InStep()) ==> InStep()
    {
      hide HeapAround, Heap, HasId;
      var i := Find(jobID);
      if i == |items| {
        return false;
      }
      SetTime(i, newScheduledTime);
      Fix(items[i].Index);
      found := true;
    }
  }
}
