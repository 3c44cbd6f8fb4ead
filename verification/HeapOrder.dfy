/** Facts about binary heaps laid out in a sequence. */
module HeapOrder {
  import opened QueueSpec

  // Parent of node 0 is node 0: the source divides -1 by 2 with truncation.
  function Parent(j: nat): (p: nat)
    ensures p <= j && (j > 0 ==> p < j && (j == 2 * p + 1 || j == 2 * p + 2))
  {
    if j == 0 then 0 else (j - 1) / 2
  }

  // The edge above node c respects the order.
  predicate Edge(es: seq<Entry>, c: nat)
    requires c < |es|
  {
    es[Parent(c)].time <= es[c].time
  }

  ghost predicate Heap(es: seq<Entry>, n: nat)
    requires n <= |es|
  {
    forall c: nat {:trigger Edge(es, c)} :: 0 < c < n ==> Edge(es, c)
  }

  // The parent of node k is no larger than node c.
  predicate Above(es: seq<Entry>, k: nat, c: nat)
    requires k < |es| && c < |es|
  {
    es[Parent(k)].time <= es[c].time
  }

  // Every edge below n respects the order except the edges around node k; the children of k
  // are nevertheless no smaller than the parent of k.
  ghost predicate HeapAround(es: seq<Entry>, n: nat, k: nat)
    requires n <= |es| && k < |es|
  {
    && (forall c: nat {:trigger Edge(es, c)} :: 0 < c < n && c != k && Parent(c) != k ==> Edge(es, c))
    && (forall c: nat {:trigger Above(es, k, c)} :: 0 < c < n && Parent(c) == k && k > 0 ==> Above(es, k, c))
  }

  // Only the edge above node k may be out of order.
  ghost predicate HeapBelow(es: seq<Entry>, n: nat, k: nat)
    requires n <= |es| && k < |es|
  {
    && (forall c: nat {:trigger Edge(es, c)} :: 0 < c < n && c != k ==> Edge(es, c))
    && (forall c: nat {:trigger Above(es, k, c)} :: 0 < c < n && Parent(c) == k && k > 0 ==> Above(es, k, c))
  }

  // The root of a heap is a minimum.
  lemma {:induction false} RootIsMin(es: seq<Entry>, k: nat)
    requires Heap(es, |es|) && k < |es|
    ensures es[0].time <= es[k].time
    decreases k
  {
    if k > 0 {
      assert Edge(es, k);
      RootIsMin(es, Parent(k));
    }
  }

  lemma RootEntryIsMin(es: seq<Entry>)
    requires Heap(es, |es|) && |es| > 0
    ensures IsMin(multiset(es), es[0])
  {
    assert es[0] in es;
    forall x | x in multiset(es) ensures es[0].time <= x.time {
      var k :| 0 <= k < |es| && es[k] == x;
      RootIsMin(es, k);
    }
  }

  function Swapped<T>(s: seq<T>, i: nat, j: nat): (r: seq<T>)
    requires i < |s| && j < |s|
    ensures |r| == |s|
  {
    s[i := s[j]][j := s[i]]
  }

  lemma SwapKeepsBag<T>(s: seq<T>, i: nat, j: nat)
    requires i < |s| && j < |s|
    ensures multiset(Swapped(s, i, j)) == multiset(s)
  {
  }

  // Moving a node below its smaller child moves the damage to that child.
  lemma SinkStep(es: seq<Entry>, n: nat, i: nat, j: nat)
    requires n <= |es| && i < j < n && Parent(j) == i
    requires HeapAround(es, n, i)
    requires es[j].time <= es[2 * i + 1].time && (2 * i + 2 < n ==> es[j].time <= es[2 * i + 2].time)
    requires es[j].time < es[i].time
    ensures var es' := Swapped(es, i, j); HeapAround(es', n, j) && Edge(es', j) && (i > 0 ==> Edge(es', i))
  {
    var es' := Swapped(es, i, j);
    forall c: nat | 0 < c < n && c != j && Parent(c) != j ensures Edge(es', c) {
      if Parent(c) == i {
      } else if c == i {
        assert Above(es, i, j);
      } else {
        assert Edge(es, c);
      }
    }
    forall c: nat | 0 < c < n && Parent(c) == j ensures Above(es', j, c) {
      assert Edge(es, c);
    }
  }

  // The first n nodes of a heap are a heap, also on their own.
  lemma HeapPrefix(es: seq<Entry>, m: nat, n: nat)
    requires n <= m <= |es| && Heap(es, m)
    ensures Heap(es, n) && Heap(es[..n], n)
  {
    forall c: nat | 0 < c < n ensures Edge(es[..n], c) {
      assert Edge(es, c);
    }
  }

  // A node no larger than its children leaves at most the edge above it out of order.
  lemma SinkStops(es: seq<Entry>, n: nat, i: nat)
    requires n <= |es| && i < |es| && HeapAround(es, n, i)
    requires 2 * i + 1 < n ==> es[i].time <= es[2 * i + 1].time
    requires 2 * i + 2 < n ==> es[i].time <= es[2 * i + 2].time
    ensures HeapBelow(es, n, i)
  {
    forall c: nat | 0 < c < n && Parent(c) == i ensures Edge(es, c) {
    }
  }

  // Nothing is out of order once the edge above the node is in order too.
  lemma OrderedAbove(es: seq<Entry>, n: nat, i: nat)
    requires n <= |es| && i < n && HeapBelow(es, n, i)
    requires i > 0 ==> Edge(es, i)
    ensures Heap(es, n)
  {
  }

  // Appending a node damages only the edge above it.
  lemma AppendBelow(es: seq<Entry>, e: Entry)
    requires Heap(es, |es|)
    ensures HeapBelow(es + [e], |es| + 1, |es|)
  {
    var es' := es + [e];
    forall c: nat | 0 < c < |es| ensures Edge(es', c) {
      assert Edge(es, c);
    }
  }

  // Changing the time of node i damages only the edges around it.
  lemma ChangeDamages(es: seq<Entry>, i: nat, e: Entry)
    requires Heap(es, |es|) && i < |es|
    ensures HeapAround(es[i := e], |es|, i)
  {
    var es' := es[i := e];
    forall c: nat | 0 < c < |es| && c != i && Parent(c) != i ensures Edge(es', c) {
      assert Edge(es, c);
    }
    forall c: nat | 0 < c < |es| && Parent(c) == i && i > 0 ensures Above(es', i, c) {
      assert Edge(es, i) && Edge(es, c);
    }
  }

  // Putting the last node in place of node i damages only the edges around i.
  lemma LastReplaces(es: seq<Entry>, i: nat)
    requires Heap(es, |es|) && i < |es| - 1
    ensures HeapAround(Swapped(es, i, |es| - 1), |es| - 1, i)
  {
    var n := |es| - 1;
    var es' := Swapped(es, i, n);
    forall c: nat | 0 < c < n && c != i && Parent(c) != i ensures Edge(es', c) {
      assert Edge(es, c);
    }
    forall c: nat | 0 < c < n && Parent(c) == i && i > 0 ensures Above(es', i, c) {
      assert Edge(es, i) && Edge(es, c);
    }
  }

  // Moving a node above its larger parent moves the damage to that parent.
  lemma RiseStep(es: seq<Entry>, n: nat, j: nat)
    requires n <= |es| && 0 < j < n
    requires HeapBelow(es, n, j)
    requires es[j].time < es[Parent(j)].time
    ensures HeapBelow(Swapped(es, Parent(j), j), n, Parent(j))
  {
    var i := Parent(j);
    var es' := Swapped(es, i, j);
    forall c: nat | 0 < c < n && c != i ensures Edge(es', c) {
      if Parent(c) == i {
        assert c != j ==> Edge(es, c);
      } else if Parent(c) == j {
        assert Edge(es, c) && Above(es, j, c);
      } else {
        assert Edge(es, c);
      }
    }
    forall c: nat | 0 < c < n && Parent(c) == i && i > 0 ensures Above(es', i, c) {
      assert Edge(es, i);
      assert c != j ==> Edge(es, c);
    }
  }
}
