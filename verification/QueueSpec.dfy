/** The queue of scheduled jobs, as its clients see it: a bag of entries ordered by time.
    The heap in PriorityQueue.dfy and the interleaving model in Dispatch.dfy share these definitions. */
module QueueSpec {
  import opened Wrappers

  datatype Entry = Entry(id: string, time: int)

  ghost predicate IsMin(q: multiset<Entry>, e: Entry) {
    e in q && forall x :: x in q ==> e.time <= x.time
  }

  ghost predicate HasId(q: multiset<Entry>, id: string) {
    exists e :: e in q && e.id == id
  }

  // The effect of taking the next entry: a minimum leaves, or the queue was empty.
  ghost predicate Takes(q: multiset<Entry>, next: Option<Entry>, q': multiset<Entry>) {
    match next
    case None => q == multiset{} && q' == q
    case Some(e) => IsMin(q, e) && q' == q - multiset{e}
  }

  // The effect of removing by id: some entry with that id leaves, or nothing changes.
  ghost predicate Removes(q: multiset<Entry>, id: string, removed: bool, q': multiset<Entry>) {
    && (removed <==> HasId(q, id))
    && (!removed ==> q' == q)
    && (removed ==> exists e :: e in q && e.id == id && q' == q - multiset{e})
  }

  // The effect of rescheduling by id: some entry with that id changes its time and nothing else.
  ghost predicate Reschedules(q: multiset<Entry>, id: string, time: int, found: bool, q': multiset<Entry>) {
    && (found <==> HasId(q, id))
    && (!found ==> q' == q)
    && (found ==> exists e :: e in q && e.id == id && q' == q - multiset{e} + multiset{Entry(id, time)})
  }

  // outs is what repeatedly taking a minimum out of q yields until q is empty.
  ghost predicate Drains(q: multiset<Entry>, outs: seq<Entry>)
    decreases |outs|
  {
    if outs == [] then q == multiset{}
    else IsMin(q, outs[0]) && Drains(q - multiset{outs[0]}, outs[1..])
  }

  predicate InTimeOrder(es: seq<Entry>) {
    forall i, j {:trigger es[i], es[j]} :: 0 <= i < j < |es| ==> es[i].time <= es[j].time
  }

  lemma OrderFromFirst(e: Entry, rest: seq<Entry>)
    requires InTimeOrder(rest) && forall x :: x in multiset(rest) ==> e.time <= x.time
    ensures InTimeOrder([e] + rest)
  {
    var es := [e] + rest;
    forall i, j | 0 <= i < j < |es| ensures es[i].time <= es[j].time {
      assert rest[j - 1] in multiset(rest);
    }
  }

  lemma OrderOfRest(e: Entry, rest: seq<Entry>)
    requires InTimeOrder([e] + rest)
    ensures InTimeOrder(rest) && forall x :: x in rest ==> e.time <= x.time
  {
    var es := [e] + rest;
    assert forall i :: 0 <= i < |rest| ==> rest[i] == es[i + 1];
    assert es[0] == e;
  }

  lemma {:induction false} DrainInOrder(q: multiset<Entry>, outs: seq<Entry>)
    requires Drains(q, outs)
    ensures multiset(outs) == q && InTimeOrder(outs)
    decreases |outs|
  {
    if outs != [] {
      var e, rest := outs[0], outs[1..];
      assert outs == [e] + rest;
      DrainInOrder(q - multiset{e}, rest);
      BagOfFirst(q, e, rest);
      OrderFromFirst(e, rest);
    }
  }

  lemma BagOfFirst(q: multiset<Entry>, e: Entry, rest: seq<Entry>)
    ensures e in q && multiset(rest) == q - multiset{e} <==> multiset([e] + rest) == q
    ensures IsMin(q, e) && multiset(rest) == q - multiset{e} ==> forall x :: x in multiset(rest) ==> e.time <= x.time
  {
    assert multiset([e] + rest) == multiset{e} + multiset(rest);
  }

  lemma {:induction false} OrderedDrain(outs: seq<Entry>)
    requires InTimeOrder(outs)
    ensures Drains(multiset(outs), outs)
    decreases |outs|
  {
    if outs != [] {
      var e, rest := outs[0], outs[1..];
      assert outs == [e] + rest;
      OrderOfRest(e, rest);
      OrderedDrain(rest);
      hide InTimeOrder, Drains;
      BagOfFirst(multiset(outs), e, rest);
      assert IsMin(multiset(outs), e);
      FirstDrains(multiset(outs), e, rest);
    }
  }

  lemma FirstDrains(q: multiset<Entry>, e: Entry, rest: seq<Entry>)
    requires IsMin(q, e) && Drains(q - multiset{e}, rest)
    ensures Drains(q, [e] + rest)
  {
    assert ([e] + rest)[1..] == rest;
  }

  // What draining a queue can yield: exactly the arrangements of its entries in order of time.
  lemma DrainIsSorted(q: multiset<Entry>, outs: seq<Entry>)
    ensures Drains(q, outs) <==> multiset(outs) == q && InTimeOrder(outs)
  {
    if Drains(q, outs) {
      DrainInOrder(q, outs);
    } else if InTimeOrder(outs) {
      OrderedDrain(outs);
    }
  }

  // Half way through a drain of all: outs has come out, next is in hand and q is still queued.
  ghost predicate Draining(all: multiset<Entry>, outs: seq<Entry>, next: Option<Entry>, q: multiset<Entry>) {
    match next
    case None => multiset(outs) == all && q == multiset{} && InTimeOrder(outs)
    case Some(e) =>
      && multiset(outs) + multiset{e} + q == all && InTimeOrder(outs)
      && (forall o :: o in outs ==> o.time <= e.time)
      && (forall x :: x in q ==> e.time <= x.time)
  }

  lemma OrderToLast(outs: seq<Entry>, e: Entry)
    requires InTimeOrder(outs) && forall o :: o in outs ==> o.time <= e.time
    ensures InTimeOrder(outs + [e])
  {
    assert forall i :: 0 <= i < |outs| ==> outs[i] in outs;
  }

  lemma DrainStep(all: multiset<Entry>, outs: seq<Entry>, e: Entry, q: multiset<Entry>, next: Option<Entry>, q': multiset<Entry>)
    requires Draining(all, outs, Some(e), q) && Takes(q, next, q')
    ensures Draining(all, outs + [e], next, q')
  {
    OrderToLast(outs, e);
    assert multiset(outs + [e]) == multiset(outs) + multiset{e};
    hide InTimeOrder;
    if next.Some? {
      assert q == multiset{next.value} + q';
    }
  }
}
