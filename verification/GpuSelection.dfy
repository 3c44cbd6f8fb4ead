/** gpu/allocation_strategy.go: the four ways to choose GPUs for a job. sort.Slice is not stable, so
    nothing here depends on how it orders GPUs its comparator does not tell apart. */
module GpuSelection {
  import opened Wrappers

  class GPU {
    const Index: int
    const MemoryMB: int
    var InUse: bool
    var JobUUID: string
    var Quarantined: bool

    constructor (index: int, memoryMB: int)
      ensures Index == index && MemoryMB == memoryMB && !InUse && JobUUID == "" && !Quarantined
    {
      Index, MemoryMB := index, memoryMB;
      InUse, JobUUID, Quarantined := false, "", false;
    }
  }

  datatype Strategy = FirstFit | Pack | Spread | BestFit

  function GetAllocationStrategy(name: string): Strategy {
    if name == "pack" then Pack
    else if name == "spread" then Spread
    else if name == "best-fit" then BestFit
    else FirstFit
  }

  // --- comparators ---

  datatype Order = Rising | Falling | Fit(gpuMemoryMB: int)

  function OrderOf(s: Strategy, gpuMemoryMB: int): Order {
    match s
    case FirstFit => Rising
    case Pack => Rising
    case Spread => Falling
    case BestFit => Fit(gpuMemoryMB)
  }

  predicate Less(o: Order, a: GPU, b: GPU) {
    match o
    case Rising => a.Index < b.Index
    case Falling => a.Index > b.Index
    case Fit(gpuMemoryMB) =>
      if gpuMemoryMB > 0 then
        var wasteA, wasteB := a.MemoryMB - gpuMemoryMB, b.MemoryMB - gpuMemoryMB;
        if wasteA >= 0 && wasteB >= 0 then wasteA < wasteB
        else if wasteA >= 0 then true
        else if wasteB >= 0 then false
        else a.MemoryMB > b.MemoryMB
      else a.MemoryMB < b.MemoryMB
  }

  /** Each comparator is a strict weak order, which is what sort.Slice needs. */
  lemma StrictWeakOrder(o: Order, a: GPU, b: GPU, c: GPU)
    ensures !Less(o, a, a) && (Less(o, a, b) ==> !Less(o, b, a))
    ensures Less(o, a, b) && Less(o, b, c) ==> Less(o, a, c)
    ensures !Less(o, a, b) && !Less(o, b, c) ==> !Less(o, a, c)
  {
  }

  // Best fit prefers the smaller of two GPUs that are large enough, then the larger of two that are not.
  lemma FitPrefers(gpuMemoryMB: int, a: GPU, b: GPU)
    requires gpuMemoryMB > 0
    ensures Less(Fit(gpuMemoryMB), a, b) <==>
              || (a.MemoryMB >= gpuMemoryMB > b.MemoryMB)
              || (a.MemoryMB >= gpuMemoryMB && b.MemoryMB >= gpuMemoryMB && a.MemoryMB < b.MemoryMB)
              || (a.MemoryMB < gpuMemoryMB && b.MemoryMB < gpuMemoryMB && a.MemoryMB > b.MemoryMB)
  {
  }

  predicate Sorted(o: Order, s: seq<GPU>) { forall i, j :: 0 <= i < j < |s| ==> !Less(o, s[j], s[i]) }

  // sort.Slice on a copy: some arrangement in the comparator's order.
  method SortSlice(o: Order, gpus: seq<GPU>) returns (r: seq<GPU>)
    ensures multiset(r) == multiset(gpus) && Sorted(o, r)
  {
    r := [];
    for k := 0 to |gpus|
      invariant multiset(r) == multiset(gpus[..k]) && Sorted(o, r)
    {
      assert gpus[..k + 1] == gpus[..k] + [gpus[k]];
      r := Insert(o, r, gpus[k]);
    }
    assert gpus[..|gpus|] == gpus;
  }

  method Insert(o: Order, s: seq<GPU>, x: GPU) returns (r: seq<GPU>)
    requires Sorted(o, s)
    ensures multiset(r) == multiset(s) + multiset{x} && Sorted(o, r)
  {
    hide Less;
    var p := |s|;
    while p > 0 && Less(o, x, s[p - 1])
      invariant 0 <= p <= |s|
      invariant forall i :: p <= i < |s| ==> Less(o, x, s[i])
    {
      p := p - 1;
    }
    r := s[..p] + [x] + s[p..];
    InsertSorted(o, s, x, p);
    assert s == s[..p] + s[p..];
    BagAround(s[..p], x, s[p..]);
  }

  lemma BagAround(a: seq<GPU>, x: GPU, b: seq<GPU>)
    ensures multiset(a + [x] + b) == multiset(a + b) + multiset{x}
  {
  }

  lemma InsertSorted(o: Order, s: seq<GPU>, x: GPU, p: nat)
    requires Sorted(o, s) && p <= |s| && (p > 0 ==> !Less(o, x, s[p - 1]))
    requires forall i :: p <= i < |s| ==> Less(o, x, s[i])
    ensures Sorted(o, s[..p] + [x] + s[p..])
  {
    hide Less;
    var r := s[..p] + [x] + s[p..];
    forall i, j | 0 <= i < j < |r| ensures !Less(o, r[j], r[i]) {
      if j == p {
        assert r[i] == s[i] && r[j] == x;
        if i < p - 1 {
          StrictWeakOrder(o, x, s[p - 1], s[i]);
        }
      } else if i == p {
        assert r[j] == s[j - 1];
        StrictWeakOrder(o, x, s[j - 1], x);
      } else {
        assert r[i] == s[if i < p then i else i - 1] && r[j] == s[if j < p then j else j - 1];
      }
    }
  }

  // --- the choice ---

  // Every step-th GPU of the first k * step.
  function Every(s: seq<GPU>, step: nat, k: nat): (r: seq<GPU>)
    requires step >= 1 && k * step <= |s|
    ensures |r| == k
  {
    if k == 0 then []
    else
      assert (k - 1) * step + step == k * step;
      Every(s, step, k - 1) + [s[(k - 1) * step]]
  }

  lemma StepFits(n: nat, k: nat)
    requires k > 0
    ensures k * (n / k) <= n && (n >= 2 * k ==> n / k >= 2) && (n >= k ==> n / k >= 1)
  {
  }

  function Picked(s: Strategy, sorted: seq<GPU>, gpuCount: nat): (r: seq<GPU>)
    requires gpuCount <= |sorted|
    ensures |r| == gpuCount
  {
    if s.Spread? && gpuCount > 1 && |sorted| >= gpuCount * 2 then
      StepFits(|sorted|, gpuCount);
      Every(sorted, |sorted| / gpuCount, gpuCount)
    else sorted[..gpuCount]
  }

  predicate Arranged(s: Strategy, gpuMemoryMB: int, available: seq<GPU>, sorted: seq<GPU>) {
    if s.FirstFit? then sorted == available
    else multiset(sorted) == multiset(available) && Sorted(OrderOf(s, gpuMemoryMB), sorted)
  }

  // A possible result of SelectGPUs, its sort having given sorted.
  predicate IsOutcome(s: Strategy, available: seq<GPU>, gpuCount: nat, gpuMemoryMB: int, sorted: seq<GPU>, selected: seq<GPU>) {
    Arranged(s, gpuMemoryMB, available, sorted) && gpuCount <= |sorted| && selected == Picked(s, sorted, gpuCount)
  }

  datatype Error = NotEnoughGPUs | Disabled | InvalidCount

  method SelectGPUs(s: Strategy, available: seq<GPU>, gpuCount: nat, gpuMemoryMB: int)
    returns (r: Result<seq<GPU>, Error>, ghost arrangement: seq<GPU>)
    ensures r.Ok? <==> |available| >= gpuCount
    ensures r.Ok? ==> IsOutcome(s, available, gpuCount, gpuMemoryMB, arrangement, r.value)
    ensures r.Err? ==> r.error == NotEnoughGPUs
  {
    arrangement := available;
    if |available| < gpuCount {
      return Err(NotEnoughGPUs), arrangement;
    }
    if s.FirstFit? {
      return Ok(available[..gpuCount]), arrangement;
    }
    var sorted := SortSlice(OrderOf(s, gpuMemoryMB), available);
    arrangement := sorted;
    assert |sorted| == |multiset(sorted)| == |multiset(available)| == |available|;
    if s.Spread? && gpuCount > 1 && |sorted| >= gpuCount * 2 {
      var selected := SelectEvery(sorted, gpuCount);
      return Ok(selected), arrangement;
    }
    return Ok(sorted[..gpuCount]), arrangement;
  }

  // The branch of the spread strategy that leaves GPUs out in between. The guard is always met, so
  // the source's second loop, which would fill remaining places, has none to fill.
  method SelectEvery(sorted: seq<GPU>, gpuCount: nat) returns (selected: seq<GPU>)
    requires gpuCount > 1 && |sorted| >= gpuCount * 2
    ensures selected == Picked(Spread, sorted, gpuCount)
  {
    selected := [];
    var step := |sorted| / gpuCount;
    StepFits(|sorted|, gpuCount);
    for i := 0 to gpuCount
      invariant i * step <= |sorted|
      invariant selected == Every(sorted, step, i)
    {
      Spaced(i, gpuCount, step);
      EveryThen(sorted, step, i);
      var idx := i * step;
      if idx < |sorted| {
        selected := selected + [sorted[idx]];
      }
    }
    assert |selected| == gpuCount;
  }

  lemma EveryThen(s: seq<GPU>, step: nat, i: nat)
    requires step >= 1 && i * step + step <= |s|
    ensures (i + 1) * step == i * step + step
    ensures i * step < |s| && Every(s, step, i + 1) == Every(s, step, i) + [s[i * step]]
  {
    assert (i + 1) * step == i * step + step;
    assert (i + 1) - 1 == i;
  }

  // --- what every strategy gives ---

  predicate NoDuplicates<T(==)>(s: seq<T>) { forall i, j :: 0 <= i < j < |s| ==> s[i] != s[j] }

  lemma SameElements(a: seq<GPU>, b: seq<GPU>)
    requires multiset(a) == multiset(b)
    ensures forall x :: x in a <==> x in b
    ensures |a| == |b|
  {
    assert |multiset(a)| == |a| && |multiset(b)| == |b|;
    forall x ensures x in a <==> x in b {
      assert x in a <==> x in multiset(a);
      assert x in b <==> x in multiset(b);
    }
  }

  lemma {:induction false} NoDuplicatesBag(a: seq<GPU>)
    ensures NoDuplicates(a) <==> forall x :: x in multiset(a) ==> multiset(a)[x] == 1
  {
    if a != [] {
      var init, last := a[..|a| - 1], a[|a| - 1];
      NoDuplicatesBag(init);
      assert a == init + [last];
      assert multiset(a) == multiset(init) + multiset{last};
      if NoDuplicates(a) {
        assert last !in init;
      }
      if forall x :: x in multiset(a) ==> multiset(a)[x] == 1 {
        assert multiset(a)[last] == 1;
        assert last !in multiset(init);
        forall x | x in multiset(init) ensures multiset(init)[x] == 1 {
          assert multiset(a)[x] == 1;
        }
      }
    }
  }

  lemma NoDuplicatesKept(a: seq<GPU>, b: seq<GPU>)
    requires multiset(a) == multiset(b) && NoDuplicates(a)
    ensures NoDuplicates(b)
  {
    NoDuplicatesBag(a);
    NoDuplicatesBag(b);
  }

  lemma {:induction false} EveryAt(s: seq<GPU>, step: nat, k: nat, i: nat)
    requires step >= 1 && k * step <= |s| && i < k
    ensures i * step < |s| && Every(s, step, k)[i] == s[i * step]
  {
    assert (k - 1) * step + step == k * step;
    if i < k - 1 {
      EveryAt(s, step, k - 1, i);
    }
  }

  lemma PickedAt(s: Strategy, sorted: seq<GPU>, gpuCount: nat, i: nat) returns (p: nat)
    requires gpuCount <= |sorted| && i < gpuCount
    ensures p < |sorted| && Picked(s, sorted, gpuCount)[i] == sorted[p]
    ensures p == if s.Spread? && gpuCount > 1 && |sorted| >= gpuCount * 2 then i * (|sorted| / gpuCount) else i
  {
    if s.Spread? && gpuCount > 1 && |sorted| >= gpuCount * 2 {
      StepFits(|sorted|, gpuCount);
      EveryAt(sorted, |sorted| / gpuCount, gpuCount, i);
      p := i * (|sorted| / gpuCount);
    } else {
      p := i;
    }
  }

  lemma Spaced(i: nat, j: nat, step: nat)
    requires i < j && step >= 1
    ensures i * step + step <= j * step
  {
    assert (i + 1) * step <= j * step;
  }

  /** Under every strategy the result is as many different GPUs as asked for, all of them from
      those available. */
  lemma OutcomeIsLegal(s: Strategy, available: seq<GPU>, gpuCount: nat, gpuMemoryMB: int, sorted: seq<GPU>, selected: seq<GPU>)
    requires NoDuplicates(available) && IsOutcome(s, available, gpuCount, gpuMemoryMB, sorted, selected)
    ensures |selected| == gpuCount && NoDuplicates(selected) && forall g :: g in selected ==> g in available
  {
    SameElements(sorted, available);
    NoDuplicatesKept(available, sorted);
    forall i | 0 <= i < gpuCount ensures selected[i] in available {
      var p := PickedAt(s, sorted, gpuCount, i);
    }
    forall i, j | 0 <= i < j < gpuCount ensures selected[i] != selected[j] {
      var p := PickedAt(s, sorted, gpuCount, i);
      var q := PickedAt(s, sorted, gpuCount, j);
      StepFits(|sorted|, gpuCount);
      Spaced(i, j, |sorted| / gpuCount);
    }
  }

  /** Spreading leaves a GPU out between any two that it chooses, when there are at least twice as
      many as asked for. */
  lemma SpreadLeavesGaps(available: seq<GPU>, gpuCount: nat, gpuMemoryMB: int, sorted: seq<GPU>, selected: seq<GPU>, i: nat, j: nat)
    requires NoDuplicates(available) && IsOutcome(Spread, available, gpuCount, gpuMemoryMB, sorted, selected)
    requires forall g, h :: g in available && h in available && g.Index == h.Index ==> g == h
    requires i < j < gpuCount && |available| >= gpuCount * 2
    ensures |selected| == gpuCount
    ensures exists g :: g in available && selected[j].Index < g.Index < selected[i].Index
  {
    OutcomeIsLegal(Spread, available, gpuCount, gpuMemoryMB, sorted, selected);
    SameElements(sorted, available);
    NoDuplicatesKept(available, sorted);
    var p := PickedAt(Spread, sorted, gpuCount, i);
    var q := PickedAt(Spread, sorted, gpuCount, j);
    StepFits(|sorted|, gpuCount);
    Spaced(i, j, |sorted| / gpuCount);
    var g := sorted[p + 1];
    assert !Less(Falling, sorted[p + 1], sorted[p]) && !Less(Falling, sorted[q], sorted[p + 1]);
    assert g in available && sorted[p] in available && sorted[q] in available;
    assert g != sorted[p] && g != sorted[q];
  }

  // --- best fit ---

  // Memory a GPU has beyond what is asked for.
  function Waste(gpuMemoryMB: int, g: GPU): int { g.MemoryMB - if gpuMemoryMB > 0 then gpuMemoryMB else 0 }

  // The total over the GPUs of xs that are in chosen.
  function TotalWaste(gpuMemoryMB: int, xs: seq<GPU>, chosen: set<GPU>): int {
    if xs == [] then 0
    else
      var last := xs[|xs| - 1];
      TotalWaste(gpuMemoryMB, xs[..|xs| - 1], chosen) + if last in chosen then Waste(gpuMemoryMB, last) else 0
  }

  function Count(xs: seq<GPU>, chosen: set<GPU>): nat {
    if xs == [] then 0 else Count(xs[..|xs| - 1], chosen) + if xs[|xs| - 1] in chosen then 1 else 0
  }

  lemma {:induction false} CountIsSize(xs: seq<GPU>, chosen: set<GPU>)
    requires NoDuplicates(xs) && forall g :: g in chosen ==> g in xs
    ensures Count(xs, chosen) == |chosen|
  {
    if xs == [] {
      assert chosen == {};
    } else {
      var init, last := xs[..|xs| - 1], xs[|xs| - 1];
      var rest := chosen - {last};
      CountIsSize(init, rest);
      CountSame(init, chosen, rest);
      assert last in chosen ==> chosen == rest + {last};
      assert last !in chosen ==> chosen == rest;
    }
  }

  lemma {:induction false} CountSame(xs: seq<GPU>, a: set<GPU>, b: set<GPU>)
    requires forall g :: g in xs ==> (g in a <==> g in b)
    ensures Count(xs, a) == Count(xs, b)
  {
    if xs != [] {
      CountSame(xs[..|xs| - 1], a, b);
    }
  }

  lemma {:induction false} CountAtMost(xs: seq<GPU>, chosen: set<GPU>)
    ensures Count(xs, chosen) <= |xs|
  {
    if xs != [] {
      CountAtMost(xs[..|xs| - 1], chosen);
    }
  }

  function FirstWaste(gpuMemoryMB: int, xs: seq<GPU>, k: nat): int
    requires k <= |xs|
  {
    if k == 0 then 0 else FirstWaste(gpuMemoryMB, xs, k - 1) + Waste(gpuMemoryMB, xs[k - 1])
  }

  lemma {:induction false} FirstWastePrefix(gpuMemoryMB: int, xs: seq<GPU>, n: nat, k: nat)
    requires k <= n <= |xs|
    ensures FirstWaste(gpuMemoryMB, xs[..n], k) == FirstWaste(gpuMemoryMB, xs, k)
  {
    if k > 0 {
      FirstWastePrefix(gpuMemoryMB, xs, n, k - 1);
    }
  }

  predicate WasteRises(gpuMemoryMB: int, xs: seq<GPU>) {
    forall i, j :: 0 <= i < j < |xs| ==> Waste(gpuMemoryMB, xs[i]) <= Waste(gpuMemoryMB, xs[j])
  }

  // The exchange argument: as many of the least wasteful waste no more than any others.
  lemma {:induction false} Exchange(gpuMemoryMB: int, xs: seq<GPU>, chosen: set<GPU>)
    requires WasteRises(gpuMemoryMB, xs)
    ensures Count(xs, chosen) <= |xs|
    ensures FirstWaste(gpuMemoryMB, xs, Count(xs, chosen)) <= TotalWaste(gpuMemoryMB, xs, chosen)
  {
    CountAtMost(xs, chosen);
    if xs != [] {
      var init, last := xs[..|xs| - 1], xs[|xs| - 1];
      Exchange(gpuMemoryMB, init, chosen);
      var k := Count(init, chosen);
      FirstWastePrefix(gpuMemoryMB, xs, |xs| - 1, k);
      if last in chosen {
        assert k < |xs| - 1 ==> Waste(gpuMemoryMB, xs[k]) <= Waste(gpuMemoryMB, last);
      }
    }
  }

  // The first k in order, summed as a set.
  lemma {:induction false} FirstAsSet(gpuMemoryMB: int, xs: seq<GPU>, k: nat, chosen: set<GPU>)
    requires k <= |xs| && forall i :: 0 <= i < |xs| ==> (xs[i] in chosen <==> i < k)
    ensures TotalWaste(gpuMemoryMB, xs, chosen) == FirstWaste(gpuMemoryMB, xs, k)
  {
    if xs != [] {
      var init := xs[..|xs| - 1];
      if k == |xs| {
        FirstAsSet(gpuMemoryMB, init, k - 1, chosen);
        FirstWastePrefix(gpuMemoryMB, xs, |xs| - 1, k - 1);
      } else {
        FirstAsSet(gpuMemoryMB, init, k, chosen);
        FirstWastePrefix(gpuMemoryMB, xs, |xs| - 1, k);
      }
    }
  }

  lemma WithoutSame(a: seq<GPU>, x: GPU, b: seq<GPU>, c: seq<GPU>, d: seq<GPU>)
    ensures multiset(a + [x] + b) == multiset(c + [x] + d) ==> multiset(a + b) == multiset(c + d)
  {
    BagAround(a, x, b);
    BagAround(c, x, d);
    assert multiset(a + [x] + b) - multiset{x} == multiset(a + b);
    assert multiset(c + [x] + d) - multiset{x} == multiset(c + d);
  }

  // A total does not depend on the arrangement.
  lemma {:induction false} TotalRearranged(gpuMemoryMB: int, xs: seq<GPU>, ys: seq<GPU>, chosen: set<GPU>)
    requires multiset(xs) == multiset(ys)
    ensures TotalWaste(gpuMemoryMB, xs, chosen) == TotalWaste(gpuMemoryMB, ys, chosen)
    decreases |xs|
  {
    if xs == [] {
      SameElements(xs, ys);
    } else {
      hide TotalWaste;
      var init, last := xs[..|xs| - 1], xs[|xs| - 1];
      var p := PickedOut(xs, ys);
      var a, b := ys[..p], ys[p + 1..];
      TotalRearranged(gpuMemoryMB, init, a + b, chosen);
      TotalSplit(gpuMemoryMB, a, last, b, chosen);
      TotalSplit(gpuMemoryMB, init, last, [], chosen);
      assert xs == init + [last] + [] && ys == a + [last] + b && init + [] == init;
    }
  }

  // Where the last of xs is in ys.
  lemma PickedOut(xs: seq<GPU>, ys: seq<GPU>) returns (p: nat)
    requires xs != [] && multiset(xs) == multiset(ys)
    ensures p < |ys| && ys[p] == xs[|xs| - 1] && multiset(xs[..|xs| - 1]) == multiset(ys[..p] + ys[p + 1..])
  {
    SameElements(xs, ys);
    var init, last := xs[..|xs| - 1], xs[|xs| - 1];
    assert last in ys;
    p :| 0 <= p < |ys| && ys[p] == last;
    WithoutSame(init, last, [], ys[..p], ys[p + 1..]);
    assert xs == init + [last] + [] && ys == ys[..p] + [last] + ys[p + 1..] && init + [] == init;
  }

  lemma {:induction false} TotalSplit(gpuMemoryMB: int, a: seq<GPU>, x: GPU, b: seq<GPU>, chosen: set<GPU>)
    ensures TotalWaste(gpuMemoryMB, a + [x] + b, chosen) ==
              TotalWaste(gpuMemoryMB, a + b, chosen) + if x in chosen then Waste(gpuMemoryMB, x) else 0
  {
    if b == [] {
      assert (a + [x] + b)[..|a|] == a && a + b == a;
    } else {
      var init := b[..|b| - 1];
      TotalSplit(gpuMemoryMB, a, x, init, chosen);
      assert (a + [x] + b)[..|a| + |b|] == a + [x] + init;
      assert (a + b)[..|a| + |b| - 1] == a + init;
    }
  }

  /** Best fit is optimal: no other choice of that many available GPUs, each of them large enough,
      wastes less memory in total, whatever the sort does with ties. */
  lemma BestFitIsOptimal(available: seq<GPU>, gpuCount: nat, gpuMemoryMB: int, sorted: seq<GPU>, selected: seq<GPU>, other: set<GPU>)
    requires NoDuplicates(available) && IsOutcome(BestFit, available, gpuCount, gpuMemoryMB, sorted, selected)
    requires gpuMemoryMB > 0 ==> forall g :: g in available ==> g.MemoryMB >= gpuMemoryMB
    requires (forall g :: g in other ==> g in available) && |other| == gpuCount
    ensures TotalWaste(gpuMemoryMB, available, set g | g in selected) <= TotalWaste(gpuMemoryMB, available, other)
  {
    var chosen := set g | g in selected;
    SameElements(sorted, available);
    NoDuplicatesKept(available, sorted);
    SortedWasteRises(gpuMemoryMB, sorted);
    CountIsSize(sorted, other);
    Exchange(gpuMemoryMB, sorted, other);
    assert selected == sorted[..gpuCount];
    FirstAsSet(gpuMemoryMB, sorted, gpuCount, chosen);
    TotalRearranged(gpuMemoryMB, available, sorted, chosen);
    TotalRearranged(gpuMemoryMB, available, sorted, other);
  }

  lemma SortedWasteRises(gpuMemoryMB: int, sorted: seq<GPU>)
    requires Sorted(Fit(gpuMemoryMB), sorted)
    requires gpuMemoryMB > 0 ==> forall g :: g in sorted ==> g.MemoryMB >= gpuMemoryMB
    ensures WasteRises(gpuMemoryMB, sorted)
  {
    forall i, j | 0 <= i < j < |sorted| ensures Waste(gpuMemoryMB, sorted[i]) <= Waste(gpuMemoryMB, sorted[j]) {
      assert sorted[i] in sorted && sorted[j] in sorted;
      assert !Less(Fit(gpuMemoryMB), sorted[j], sorted[i]);
    }
  }

  /** In AllocateGPUs, which sorts by index first, packing chooses what first-fit does. */
  lemma PackIsFirstFit(available: seq<GPU>, gpuCount: nat, gpuMemoryMB: int, sorted: seq<GPU>, selected: seq<GPU>)
    requires Sorted(Rising, available)
    requires forall g, h :: g in available && h in available && g.Index == h.Index ==> g == h
    requires IsOutcome(Pack, available, gpuCount, gpuMemoryMB, sorted, selected)
    ensures IsOutcome(FirstFit, available, gpuCount, gpuMemoryMB, available, selected)
  {
    SortedOnce(available, sorted);
  }

  lemma SameFirst(a: seq<GPU>, b: seq<GPU>)
    requires multiset(a) == multiset(b) && Sorted(Rising, a) && Sorted(Rising, b) && a != [] && b != []
    requires forall g, h :: g in a && h in a && g.Index == h.Index ==> g == h
    ensures a[0] == b[0]
  {
    SameElements(a, b);
    assert a[0] in b && b[0] in a;
    var p :| 0 <= p < |b| && b[p] == a[0];
    var q :| 0 <= q < |a| && a[q] == b[0];
    assert p > 0 ==> !Less(Rising, b[p], b[0]);
    assert q > 0 ==> !Less(Rising, a[q], a[0]);
    assert a[0] in a;
  }

  lemma {:induction false} SortedOnce(a: seq<GPU>, b: seq<GPU>)
    requires multiset(a) == multiset(b) && Sorted(Rising, a) && Sorted(Rising, b)
    requires forall g, h :: g in a && h in a && g.Index == h.Index ==> g == h
    ensures a == b
    decreases |a|
  {
    SameElements(a, b);
    if a != [] {
      hide Less;
      SameFirst(a, b);
      WithoutSame([], a[0], a[1..], [], b[1..]);
      assert a == [] + [a[0]] + a[1..] && b == [] + [b[0]] + b[1..];
      assert [] + a[1..] == a[1..] && [] + b[1..] == b[1..];
      SortedOnce(a[1..], b[1..]);
    }
  }
}
