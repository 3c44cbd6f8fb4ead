/** gpu/manager.go: the manager itself, over GPU objects it changes in place. */
module GpuManagers {
  import opened Wrappers
  import S = GpuSelection
  import O = GpuOwnership

  // The indices of some GPUs, in order.
  function Indices(gpus: seq<S.GPU>): (r: seq<int>)
    ensures |r| == |gpus| && forall k :: 0 <= k < |gpus| ==> r[k] == gpus[k].Index
  {
    if gpus == [] then [] else Indices(gpus[..|gpus| - 1]) + [gpus[|gpus| - 1].Index]
  }

  function CardOf(g: S.GPU): O.Card
    reads g
  {
    O.Card(g.MemoryMB, g.InUse, g.JobUUID, g.Quarantined)
  }

  // What a new request for gpuCount GPUs gives, between the states s and s'.
  predicate Granted(s: O.State, s': O.State, jobID: string, gpuCount: int, gpuMemoryMB: int, r: Result<O.Allocation, S.Error>) {
    if |O.Eligible(s, gpuMemoryMB)| >= gpuCount then
      && r.Ok?
      && r.value == O.Allocation(r.value.gpuIndices, gpuCount, gpuMemoryMB)
      && O.Legal(s, gpuCount, gpuMemoryMB, r.value.gpuIndices)
      && s' == O.Allocated(s, jobID, gpuCount, gpuMemoryMB, r.value.gpuIndices)
    else r == Err(S.NotEnoughGPUs) && s' == s
  }

  // The GPUs with the indices in wanted, each once.
  ghost predicate Lists(gpus: map<int, S.GPU>, wanted: set<int>, listed: seq<S.GPU>) {
    && S.NoDuplicates(listed) && |listed| == |wanted|
    && forall g :: g in listed ==> g.Index in wanted && g.Index in gpus && gpus[g.Index] == g
  }

  // How a request was decided: the candidates by index, how the strategy's sort arranged them, and
  // what it selected.
  datatype Choice = Choice(available: seq<S.GPU>, arrangement: seq<S.GPU>, selected: seq<S.GPU>)

  ghost predicate Chosen(gpus: map<int, S.GPU>, eligible: set<int>, s: S.Strategy, gpuCount: nat, gpuMemoryMB: int, c: Choice) {
    && Lists(gpus, eligible, c.available) && S.Sorted(S.Rising, c.available)
    && S.IsOutcome(s, c.available, gpuCount, gpuMemoryMB, c.arrangement, c.selected)
  }

  // --- what the configured name of a strategy means for a grant ---

  /** "best-fit": what is granted wastes no more memory in total than any other choice of that many
      of the suited GPUs. */
  lemma BestFitGrant(gpus: map<int, S.GPU>, suited: set<int>, gpuCount: nat, gpuMemoryMB: int, c: Choice, other: set<S.GPU>)
    requires gpuMemoryMB > 0 ==> forall i :: i in suited && i in gpus ==> gpus[i].MemoryMB >= gpuMemoryMB
    requires Chosen(gpus, suited, S.GetAllocationStrategy("best-fit"), gpuCount, gpuMemoryMB, c)
    requires (forall g :: g in other ==> g in c.available) && |other| == gpuCount
    ensures S.TotalWaste(gpuMemoryMB, c.available, set g | g in c.selected) <= S.TotalWaste(gpuMemoryMB, c.available, other)
  {
    S.BestFitIsOptimal(c.available, gpuCount, gpuMemoryMB, c.arrangement, c.selected, other);
  }

  /** Any name but "best-fit" and "spread": the suited GPUs with the lowest indices, in that order. */
  lemma LowestGrant(name: string, gpus: map<int, S.GPU>, suited: set<int>, gpuCount: nat, gpuMemoryMB: int, c: Choice, i: nat, h: S.GPU)
    requires name != "best-fit" && name != "spread"
    requires (forall j :: j in gpus ==> gpus[j].Index == j) && Chosen(gpus, suited, S.GetAllocationStrategy(name), gpuCount, gpuMemoryMB, c)
    requires i < gpuCount && h in c.available && h !in c.selected[..i]
    ensures |c.selected| == gpuCount && c.selected[i].Index <= h.Index
  {
    assert S.IsOutcome(S.FirstFit, c.available, gpuCount, gpuMemoryMB, c.available, c.selected) by {
      if name == "pack" {
        S.PackIsFirstFit(c.available, gpuCount, gpuMemoryMB, c.arrangement, c.selected);
      }
    }
    assert c.selected == c.available[..gpuCount];
    var k :| 0 <= k < |c.available| && c.available[k] == h;
    assert forall j :: 0 <= j < i ==> c.selected[..i][j] == c.available[j];
    assert k > i ==> !S.Less(S.Rising, c.available[k], c.available[i]);
  }

  /** "spread": with falling indices, GPU number i is i strides down, so that others lie between any
      two chosen; without room for that, the ones with the highest indices. */
  lemma SpreadGrant(gpus: map<int, S.GPU>, suited: set<int>, gpuCount: nat, gpuMemoryMB: int, c: Choice, i: nat)
    requires (forall j :: j in gpus ==> gpus[j].Index == j) && Chosen(gpus, suited, S.GetAllocationStrategy("spread"), gpuCount, gpuMemoryMB, c)
    requires i < gpuCount
    ensures |c.arrangement| == |suited| && |c.selected| == gpuCount
    ensures forall k, l :: 0 <= k < l < |c.arrangement| ==> c.arrangement[k].Index > c.arrangement[l].Index
    ensures forall g :: g in c.arrangement <==> g in c.available
    ensures var p := if gpuCount > 1 && |suited| >= 2 * gpuCount then i * (|suited| / gpuCount) else i;
            p < |c.arrangement| && c.selected[i] == c.arrangement[p]
  {
    S.SameElements(c.arrangement, c.available);
    S.NoDuplicatesKept(c.available, c.arrangement);
    var p := S.PickedAt(S.Spread, c.arrangement, gpuCount, i);
    forall k, l | 0 <= k < l < |c.arrangement| ensures c.arrangement[k].Index > c.arrangement[l].Index {
      assert c.arrangement[k] in c.available && c.arrangement[l] in c.available;
      assert !S.Less(S.Falling, c.arrangement[l], c.arrangement[k]);
    }
  }

  lemma ListsNothing(gpus: map<int, S.GPU>)
    ensures Lists(gpus, {}, [])
  {
  }

  lemma ListsOneMore(gpus: map<int, S.GPU>, wanted: set<int>, listed: seq<S.GPU>, i: int)
    requires Lists(gpus, wanted, listed) && i in gpus && gpus[i].Index == i
    ensures i !in wanted ==> Lists(gpus, wanted + {i}, listed + [gpus[i]])
  {
    if i !in wanted {
      var l := listed + [gpus[i]];
      assert |wanted + {i}| == |wanted| + 1;
      assert gpus[i] !in listed;
      assert forall g :: g in l ==> g in listed || g == gpus[i];
    }
  }

  lemma CardsTaken(before: map<int, O.Card>, after: map<int, O.Card>, chosen: seq<int>, jobID: string)
    requires after.Keys == before.Keys
    requires forall i :: i in before ==> after[i] == if i in chosen then before[i].(inUse := true, jobUUID := jobID) else before[i]
    ensures after == O.Take(before, chosen, jobID)
  {
    var t := O.Take(before, chosen, jobID);
    assert t.Keys == before.Keys;
    assert forall i :: i in before.Keys ==> t[i] == after[i];
  }

  lemma CardsGivenBack(before: map<int, O.Card>, after: map<int, O.Card>, indices: seq<int>)
    requires after.Keys == before.Keys
    requires forall i :: i in before ==> after[i] == if i in indices then before[i].(inUse := false, jobUUID := "") else before[i]
    ensures after == O.GiveBack(before, indices)
  {
    var t := O.GiveBack(before, indices);
    assert t.Keys == before.Keys;
    assert forall i :: i in before.Keys ==> t[i] == after[i];
  }

  lemma EligibleCards(s: O.State, gpuMemoryMB: int)
    ensures forall i :: i in O.Eligible(s, gpuMemoryMB) <==> i in s.cards && O.Allocatable(s.cards[i], gpuMemoryMB)
  {
  }

  lemma IndicesOf(gpus: map<int, S.GPU>, selected: seq<S.GPU>)
    requires S.NoDuplicates(selected) && forall g :: g in selected ==> g.Index in gpus && gpus[g.Index] == g
    requires forall i :: i in gpus ==> gpus[i].Index == i
    ensures O.NoDuplicates(Indices(selected))
    ensures forall i :: i in gpus ==> (i in Indices(selected) <==> gpus[i] in selected)
    ensures forall i :: i in Indices(selected) ==> exists g :: g in selected && g.Index == i
  {
    var r := Indices(selected);
    forall i, j | 0 <= i < j < |r| ensures r[i] != r[j] {
      assert selected[i] in selected && selected[j] in selected;
    }
    forall i | i in gpus && gpus[i] in selected ensures i in r {
      var k :| 0 <= k < |selected| && selected[k] == gpus[i];
      assert r[k] == i;
    }
    forall i | i in r ensures exists g :: g in selected && g.Index == i {
      var k :| 0 <= k < |r| && r[k] == i;
      assert selected[k] in selected;
    }
  }

  // g is the last of the GPUs with index i.
  predicate IsLast(gpus: seq<S.GPU>, i: int, g: S.GPU) {
    exists k :: 0 <= k < |gpus| && gpus[k] == g && g.Index == i && forall j :: k < j < |gpus| ==> gpus[j].Index != i
  }

  // Every index discovered is in the map, with the last GPU that has it.
  ghost predicate Discovered(gpus: map<int, S.GPU>, discoveredGPUs: seq<S.GPU>) {
    && (forall i :: i in gpus ==> IsLast(discoveredGPUs, i, gpus[i]))
    && (forall g :: g in discoveredGPUs ==> g.Index in gpus)
  }

  lemma DiscoveredOneMore(gpus: map<int, S.GPU>, discoveredGPUs: seq<S.GPU>, k: nat)
    requires k < |discoveredGPUs| && Discovered(gpus, discoveredGPUs[..k])
    ensures Discovered(gpus[discoveredGPUs[k].Index := discoveredGPUs[k]], discoveredGPUs[..k + 1])
  {
    LastOneMore(discoveredGPUs, k);
    hide IsLast;
    var more := gpus[discoveredGPUs[k].Index := discoveredGPUs[k]];
    forall i | i in more ensures IsLast(discoveredGPUs[..k + 1], i, more[i]) {
      assert i != discoveredGPUs[k].Index ==> IsLast(discoveredGPUs[..k], i, gpus[i]);
    }
    assert forall g :: g in discoveredGPUs[..k + 1] ==> g in discoveredGPUs[..k] || g == discoveredGPUs[k];
  }

  lemma LastOneMore(gpus: seq<S.GPU>, k: nat)
    requires k < |gpus|
    ensures forall i, g :: IsLast(gpus[..k + 1], i, g) <==>
              if gpus[k].Index == i then g == gpus[k] else IsLast(gpus[..k], i, g)
  {
    var more := gpus[..k + 1];
    forall i, g ensures IsLast(more, i, g) <==> if gpus[k].Index == i then g == gpus[k] else IsLast(gpus[..k], i, g) {
      assert more[k] == gpus[k];
      if IsLast(more, i, g) && gpus[k].Index != i {
        var m :| 0 <= m < |more| && more[m] == g && g.Index == i && forall j :: m < j < |more| ==> more[j].Index != i;
        assert gpus[..k][m] == g;
      }
      if IsLast(gpus[..k], i, g) && gpus[k].Index != i {
        var m :| 0 <= m < k && gpus[..k][m] == g && g.Index == i && forall j :: m < j < k ==> gpus[..k][j].Index != i;
        assert more[m] == g;
        assert forall j :: m < j < k ==> more[j] == gpus[..k][j];
      }
    }
  }

  // The reading of GPU i after its reset, if there is one, is within what is taken for clean.
  predicate LowReading(readings: map<int, Option<int>>, i: int) {
    i in readings && readings[i].Some? && readings[i].value <= 64
  }

  lemma {:induction false} NoReleaseProbes(indices: seq<int>)
    ensures forall k :: 0 <= k < |O.ReleaseAll(indices)| ==> !O.ReleaseAll(indices)[k].Probed?
  {
    if indices != [] {
      NoReleaseProbes(indices[..|indices| - 1]);
    }
  }

  lemma {:induction false} NoScrubProbes(s: O.State, indices: seq<int>, readings: map<int, Option<int>>)
    ensures s.log <= O.ScrubAll(s, false, indices, readings).log
    ensures var log := O.ScrubAll(s, false, indices, readings).log;
            forall k :: |s.log| <= k < |log| ==> !log[k].Probed?
  {
    if indices != [] {
      NoScrubProbes(s, indices[..|indices| - 1], readings);
    }
  }

  lemma NoProbes(s: O.State, log: seq<O.Event>, indices: seq<int>, readings: map<int, Option<int>>)
    requires s.log == log + O.ReleaseAll(indices)
    ensures forall policy {:trigger O.Scrub(s, policy, indices, readings)} :: policy != "strict" ==>
              forall k :: |log| <= k < |O.Scrub(s, policy, indices, readings).log| ==> !O.Scrub(s, policy, indices, readings).log[k].Probed?
  {
    NoReleaseProbes(indices);
    NoScrubProbes(s, indices, readings);
  }

  class Manager {
    const enabled: bool
    const strategyName: string
    const allocationStrategy: S.Strategy
    const scrubPolicy: string
    var gpus: map<int, S.GPU>
    var allocations: map<string, O.Allocation>
    ghost var log: seq<O.Event>

    ghost predicate Indexed()
      reads this
    {
      forall i :: i in gpus ==> gpus[i].Index == i
    }

    ghost function View(): O.State
      reads this, gpus.Values
    {
      O.State(map i | i in gpus :: CardOf(gpus[i]), allocations, log)
    }

    // What every request keeps: flags and records agree, and with a policy that makes GPUs fit for
    // the next job every grant so far was of a fit one.
    ghost predicate Valid()
      reads this, gpus.Values
    {
      && Indexed() && allocationStrategy == S.GetAllocationStrategy(strategyName)
      && O.OwnershipOk(View()) && forall verified: bool :: O.Makes(scrubPolicy, verified) ==> O.FitOk(View(), verified)
    }

    constructor (enabled: bool, strategyName: string, scrubPolicy: string)
      ensures Valid() && gpus == map[] && allocations == map[] && log == []
      ensures this.enabled == enabled && this.strategyName == strategyName && this.scrubPolicy == scrubPolicy
    {
      this.enabled, this.strategyName, this.scrubPolicy := enabled, strategyName, scrubPolicy;
      allocationStrategy := S.GetAllocationStrategy(strategyName);
      gpus, allocations, log := map[], map[], [];
      new;
      O.InitialOk(View());
    }

    // The loop over the GPUs discovered.
    method Discover(discoveredGPUs: seq<S.GPU>)
      requires gpus == map[]
      modifies this`gpus
      ensures Discovered(gpus, discoveredGPUs)
    {
      for k := 0 to |discoveredGPUs|
        invariant Discovered(gpus, discoveredGPUs[..k])
      {
        DiscoveredOneMore(gpus, discoveredGPUs, k);
        gpus := gpus[discoveredGPUs[k].Index := discoveredGPUs[k]];
      }
      assert discoveredGPUs[..|discoveredGPUs|] == discoveredGPUs;
    }

    // Done once, before any request; of two GPUs with one index the later is kept.
    method Initialize(discoveredGPUs: seq<S.GPU>)
      requires Valid() && gpus == map[] && allocations == map[] && log == []
      requires forall g :: g in discoveredGPUs ==> !g.InUse && g.JobUUID == "" && !g.Quarantined
      modifies this`gpus
      ensures Valid() && O.Initial(View())
      ensures if enabled then Discovered(gpus, discoveredGPUs) else gpus == map[]
    {
      if enabled {
        Discover(discoveredGPUs);
      }
      assert forall i :: i in gpus ==> gpus[i] in discoveredGPUs;
      O.InitialOk(View());
    }

    // order is the order in which ranging over the map yields its values, which Go leaves open.
    ghost predicate Yields(order: seq<S.GPU>)
      reads this
    {
      && S.NoDuplicates(order)
      && (forall g :: g in order ==> g.Index in gpus && gpus[g.Index] == g)
      && (forall i :: i in gpus ==> gpus[i] in order)
    }

    // One GPU of the map, after those with the indices in seen.
    method Consider(gpu: S.GPU, gpuMemoryMB: int, available: seq<S.GPU>, ghost seen: set<int>) returns (more: seq<S.GPU>)
      requires Indexed() && gpu.Index in gpus && gpus[gpu.Index] == gpu && gpu.Index !in seen
      requires Lists(gpus, O.Eligible(View(), gpuMemoryMB) * seen, available)
      ensures Lists(gpus, O.Eligible(View(), gpuMemoryMB) * (seen + {gpu.Index}), more)
    {
      hide O.Eligible, Lists;
      ghost var eligible, i := O.Eligible(View(), gpuMemoryMB), gpu.Index;
      EligibleCards(View(), gpuMemoryMB);
      assert View().cards[i] == CardOf(gpu);
      assert eligible * (seen + {i}) == if i in eligible then (eligible * seen) + {i} else eligible * seen;
      ListsOneMore(gpus, eligible * seen, available, i);
      if gpu.InUse || gpu.Quarantined {
        return available;
      }
      if gpuMemoryMB > 0 && gpu.MemoryMB < gpuMemoryMB {
        return available;
      }
      more := available + [gpu];
    }

    // The GPUs a request may be given.
    method CollectAvailable(order: seq<S.GPU>, gpuMemoryMB: int) returns (available: seq<S.GPU>)
      requires Indexed() && Yields(order)
      ensures Lists(gpus, O.Eligible(View(), gpuMemoryMB), available)
    {
      hide O.Eligible, Lists;
      available := [];
      ghost var seen: set<int> := {};
      ListsNothing(gpus);
      assert O.Eligible(View(), gpuMemoryMB) * seen == {};
      for k := 0 to |order|
        invariant forall i :: i in seen ==> i in gpus && gpus[i] in order[..k]
        invariant forall g :: g in order[..k] ==> g.Index in seen
        invariant Lists(gpus, O.Eligible(View(), gpuMemoryMB) * seen, available)
      {
        assert order[..k + 1] == order[..k] + [order[k]];
        available := Consider(order[k], gpuMemoryMB, available, seen);
        seen := seen + {order[k].Index};
      }
      AllSeen(order, seen, gpuMemoryMB);
    }

    lemma AllSeen(order: seq<S.GPU>, seen: set<int>, gpuMemoryMB: int)
      requires Indexed() && Yields(order) && forall g :: g in order[..|order|] ==> g.Index in seen
      ensures O.Eligible(View(), gpuMemoryMB) * seen == O.Eligible(View(), gpuMemoryMB)
    {
      hide O.Eligible;
      EligibleCards(View(), gpuMemoryMB);
      assert order[..|order|] == order;
      forall i | i in O.Eligible(View(), gpuMemoryMB) ensures i in seen {
        assert gpus[i] in order;
      }
    }

    // Marking the selected GPUs as the job's.
    method MarkTaken(selected: seq<S.GPU>, jobID: string) returns (allocatedIndices: seq<int>)
      modifies selected
      ensures allocatedIndices == Indices(selected)
      ensures forall g :: g in selected ==> g.InUse && g.JobUUID == jobID && g.Quarantined == old(g.Quarantined)
    {
      allocatedIndices := [];
      for k := 0 to |selected|
        invariant allocatedIndices == Indices(selected[..k])
        invariant forall g :: g in selected ==> g.Quarantined == old(g.Quarantined)
        invariant forall j :: 0 <= j < k ==> selected[j].InUse && selected[j].JobUUID == jobID
      {
        assert selected[..k + 1][..k] == selected[..k];
        selected[k].InUse := true;
        selected[k].JobUUID := jobID;
        allocatedIndices := allocatedIndices + [selected[k].Index];
      }
      assert selected[..|selected|] == selected;
    }

    // The GPUs that are free, not quarantined and large enough.
    ghost function Suited(gpuMemoryMB: int): set<int>
      reads this, gpus.Values
    {
      set i | i in gpus && !gpus[i].InUse && !gpus[i].Quarantined && (gpuMemoryMB <= 0 || gpus[i].MemoryMB >= gpuMemoryMB)
    }

    lemma SuitedIsEligible(gpuMemoryMB: int)
      ensures O.Eligible(View(), gpuMemoryMB) == Suited(gpuMemoryMB)
    {
      hide O.Eligible;
      EligibleCards(View(), gpuMemoryMB);
      assert forall i :: i in gpus ==> View().cards[i] == CardOf(gpus[i]);
      assert View().cards.Keys == gpus.Keys;
      forall i ensures i in O.Eligible(View(), gpuMemoryMB) <==> i in Suited(gpuMemoryMB) {
        assert i in gpus ==> (O.Allocatable(View().cards[i], gpuMemoryMB) <==> i in Suited(gpuMemoryMB));
      }
    }

    /** A new request succeeds exactly when enough free, unquarantined, large enough GPUs exist,
        under every strategy; it then owns as many of them as it asked for, those the strategy
        selects, and nothing else changes. */
    method AllocateGPUs(jobID: string, gpuCount: int, gpuMemoryMB: int, order: seq<S.GPU>)
      returns (r: Result<O.Allocation, S.Error>, ghost choice: Choice)
      requires Valid() && Yields(order)
      modifies this`allocations, this`log, gpus.Values
      ensures Valid()
      ensures !enabled ==> r == Err(S.Disabled) && View() == old(View())
      ensures enabled && gpuCount <= 0 ==> r == Err(S.InvalidCount) && View() == old(View())
      ensures enabled && gpuCount > 0 && jobID in old(allocations) ==> r == Ok(old(allocations)[jobID]) && View() == old(View())
      ensures enabled && gpuCount > 0 && jobID !in old(allocations) ==>
                && (if |old(Suited(gpuMemoryMB))| >= gpuCount then r.Ok? else r == Err(S.NotEnoughGPUs) && View() == old(View()))
                && (r.Ok? ==> && Gives(old(View()), old(Suited(gpuMemoryMB)), jobID, gpuCount, gpuMemoryMB, r.value)
                              && Chosen(gpus, old(Suited(gpuMemoryMB)), allocationStrategy, gpuCount, gpuMemoryMB, choice)
                              && r.value.gpuIndices == Indices(choice.selected))
    {
      choice := Choice([], [], []);
      if !enabled {
        return Err(S.Disabled), choice;
      }
      if gpuCount <= 0 {
        return Err(S.InvalidCount), choice;
      }
      if jobID in allocations {
        return Ok(allocations[jobID]), choice;
      }
      hide O.OwnershipOk, O.FitOk, O.Eligible, Chosen;
      ghost var before := View();
      SuitedIsEligible(gpuMemoryMB);
      r, choice := AllocateNew(jobID, gpuCount, gpuMemoryMB, order);
      if r.Ok? {
        GrantValid(before, jobID, gpuCount, gpuMemoryMB, r.value.gpuIndices);
        GrantGives(before, jobID, gpuCount, gpuMemoryMB, r.value.gpuIndices);
      }
    }

    // What the owner of a new allocation has: that many of the suited GPUs, each once, and they are
    // in use by it; the other GPUs, records and all quarantines are as before.
    ghost predicate Gives(before: O.State, suited: set<int>, jobID: string, gpuCount: int, gpuMemoryMB: int, a: O.Allocation)
      reads this, gpus.Values
    {
      && a.gpuCount == gpuCount == |a.gpuIndices| && a.gpuMemoryMB == gpuMemoryMB
      && O.NoDuplicates(a.gpuIndices) && (forall i :: i in a.gpuIndices ==> i in suited)
      && allocations == before.allocations[jobID := a] && gpus.Keys == before.cards.Keys
      && forall i :: i in gpus ==>
           && gpus[i].InUse == (before.cards[i].inUse || i in a.gpuIndices)
           && gpus[i].JobUUID == (if i in a.gpuIndices then jobID else before.cards[i].jobUUID)
           && gpus[i].Quarantined == before.cards[i].quarantined
    }

    lemma GrantGives(before: O.State, jobID: string, gpuCount: int, gpuMemoryMB: int, chosen: seq<int>)
      requires O.Legal(before, gpuCount, gpuMemoryMB, chosen)
      requires View() == O.Allocated(before, jobID, gpuCount, gpuMemoryMB, chosen)
      ensures Gives(before, O.Eligible(before, gpuMemoryMB), jobID, gpuCount, gpuMemoryMB, O.Allocation(chosen, gpuCount, gpuMemoryMB))
    {
      hide O.Eligible;
      assert View().cards.Keys == gpus.Keys;
      assert O.Take(before.cards, chosen, jobID).Keys == before.cards.Keys;
      forall i | i in gpus ensures CardOf(gpus[i]) == O.Take(before.cards, chosen, jobID)[i] {
        assert View().cards[i] == CardOf(gpus[i]);
      }
    }

    lemma GrantValid(before: O.State, jobID: string, gpuCount: int, gpuMemoryMB: int, chosen: seq<int>)
      requires gpuCount > 0 && jobID !in before.allocations && O.Legal(before, gpuCount, gpuMemoryMB, chosen)
      requires View() == O.Allocated(before, jobID, gpuCount, gpuMemoryMB, chosen)
      requires O.OwnershipOk(before) && forall verified: bool :: O.Makes(scrubPolicy, verified) ==> O.FitOk(before, verified)
      ensures O.OwnershipOk(View()) && forall verified: bool :: O.Makes(scrubPolicy, verified) ==> O.FitOk(View(), verified)
    {
      hide O.OwnershipOk, O.FitOk, O.Legal;
      O.AllocateKeeps(before, jobID, gpuCount, gpuMemoryMB, chosen);
      forall verified: bool | O.Makes(scrubPolicy, verified) ensures O.FitOk(View(), verified) {
        O.AllocateFit(before, jobID, gpuCount, gpuMemoryMB, chosen, verified);
      }
    }

    method AllocateNew(jobID: string, gpuCount: int, gpuMemoryMB: int, order: seq<S.GPU>)
      returns (r: Result<O.Allocation, S.Error>, ghost choice: Choice)
      requires Indexed() && Yields(order) && gpuCount > 0 && jobID !in allocations
      modifies this`allocations, this`log, gpus.Values
      ensures Indexed() && Granted(old(View()), View(), jobID, gpuCount, gpuMemoryMB, r)
      ensures r.Ok? ==> Chosen(gpus, O.Eligible(old(View()), gpuMemoryMB), allocationStrategy, gpuCount, gpuMemoryMB, choice)
                        && r.value.gpuIndices == Indices(choice.selected)
    {
      hide O.Eligible, S.IsOutcome, S.Sorted;
      ghost var eligible := O.Eligible(View(), gpuMemoryMB);
      var available := CollectAvailable(order, gpuMemoryMB);
      var sorted := S.SortSlice(S.Rising, available);
      S.SameElements(sorted, available);
      S.NoDuplicatesKept(available, sorted);
      assert Lists(gpus, eligible, sorted);
      var selected, arrangement := S.SelectGPUs(allocationStrategy, sorted, gpuCount, gpuMemoryMB);
      if selected.Err? {
        return Err(selected.error), Choice([], [], []);
      }
      S.OutcomeIsLegal(allocationStrategy, sorted, gpuCount, gpuMemoryMB, arrangement, selected.value);
      assert forall g :: g in selected.value ==> g in sorted;
      choice := Choice(sorted, arrangement, selected.value);
      r := Grant(jobID, gpuCount, gpuMemoryMB, selected.value);
    }

    method Grant(jobID: string, gpuCount: int, gpuMemoryMB: int, selected: seq<S.GPU>) returns (r: Result<O.Allocation, S.Error>)
      requires Indexed() && jobID !in allocations && |selected| == gpuCount > 0 && S.NoDuplicates(selected)
      requires forall g :: g in selected ==> g.Index in O.Eligible(View(), gpuMemoryMB) && g.Index in gpus && gpus[g.Index] == g
      modifies this`allocations, this`log, gpus.Values
      ensures r == Ok(O.Allocation(Indices(selected), gpuCount, gpuMemoryMB))
      ensures O.Legal(old(View()), gpuCount, gpuMemoryMB, Indices(selected))
      ensures View() == O.Allocated(old(View()), jobID, gpuCount, gpuMemoryMB, Indices(selected))
    {
      hide O.Eligible, O.Take, O.GrantAll, O.NoDuplicates, Indices;
      ghost var before := View();
      IndicesOf(gpus, selected);
      assert O.Legal(before, gpuCount, gpuMemoryMB, Indices(selected));
      var allocatedIndices := MarkOnly(selected, jobID);
      var allocation := O.Allocation(allocatedIndices, gpuCount, gpuMemoryMB);
      allocations := allocations[jobID := allocation];
      log := log + O.GrantAll(allocatedIndices);
      assert View().cards == O.Take(before.cards, allocatedIndices, jobID);
      r := Ok(allocation);
    }

    method MarkOnly(selected: seq<S.GPU>, jobID: string) returns (allocatedIndices: seq<int>)
      requires Indexed() && S.NoDuplicates(selected)
      requires forall g :: g in selected ==> g.Index in gpus && gpus[g.Index] == g
      modifies gpus.Values
      ensures allocatedIndices == Indices(selected)
      ensures View().cards == O.Take(old(View().cards), allocatedIndices, jobID)
    {
      assert forall g :: g in selected ==> g in gpus.Values;
      allocatedIndices := MarkTaken(selected, jobID);
      IndicesOf(gpus, selected);
      CardsTaken(old(View().cards), View().cards, allocatedIndices, jobID);
    }

    // The first half of ReleaseGPUs.
    method MarkFree(indices: seq<int>)
      requires Indexed()
      modifies gpus.Values
      ensures forall i :: i in gpus ==>
                CardOf(gpus[i]) == if i in indices then old(CardOf(gpus[i])).(inUse := false, jobUUID := "") else old(CardOf(gpus[i]))
    {
      for k := 0 to |indices|
        invariant forall i :: i in gpus ==>
                    CardOf(gpus[i]) == if i in indices[..k] then old(CardOf(gpus[i])).(inUse := false, jobUUID := "") else old(CardOf(gpus[i]))
      {
        assert indices[..k + 1] == indices[..k] + [indices[k]];
        if indices[k] in gpus {
          var gpu := gpus[indices[k]];
          assert forall i :: i in gpus && gpus[i] == gpu ==> i == indices[k];
          gpu.InUse := false;
          gpu.JobUUID := "";
        }
      }
    }

    method Quarantine(gpuIndex: int)
      requires Indexed()
      modifies gpus.Values
      ensures View() == old(View()).(cards := O.Quarantined(old(View().cards), gpuIndex))
    {
      if gpuIndex !in gpus {
        return;
      }
      assert forall i :: i in gpus && gpus[i] == gpus[gpuIndex] ==> i == gpuIndex;
      gpus[gpuIndex].Quarantined := true;
      assert forall i :: i in gpus && i != gpuIndex ==> CardOf(gpus[i]) == old(CardOf(gpus[i]));
    }

    // One turn of scrubOnRelease's loop; a reset that fails is reported and nothing else.
    method ScrubGPU(policy: string, idx: int, usedMB: Option<int>)
      requires Indexed()
      modifies this`log, gpus.Values
      ensures View() == O.ScrubOne(old(View()), policy == "strict", idx, usedMB)
    {
      log := log + [O.Reset(idx)];
      if policy != "strict" {
        return;
      }
      log := log + [O.Probed(idx, usedMB)];
      if usedMB.None? {
        Quarantine(idx);
        return;
      }
      if usedMB.value > O.SCRUB_RESIDUAL_THRESHOLD_MB {
        Quarantine(idx);
        return;
      }
    }

    // readings are what nvidia-smi reports after each reset.
    method ScrubOnRelease(gpuIndices: seq<int>, readings: map<int, Option<int>>)
      requires Indexed()
      modifies this`log, gpus.Values
      ensures View() == O.Scrub(old(View()), scrubPolicy, gpuIndices, readings)
      ensures forall i :: i in gpus ==>
                && (gpus[i].Quarantined <==> old(gpus[i].Quarantined) || (scrubPolicy == "strict" && i in gpuIndices && !LowReading(readings, i)))
                && gpus[i].InUse == old(gpus[i].InUse) && gpus[i].JobUUID == old(gpus[i].JobUUID)
      ensures allocations == old(allocations)
    {
      hide O.ScrubOne, O.Reading;
      var policy := if scrubPolicy == "" then "reset" else scrubPolicy;
      ghost var before := View();
      if policy != "off" && |gpuIndices| != 0 {
        for k := 0 to |gpuIndices|
          invariant View() == O.Scrub(before, policy, gpuIndices[..k], readings)
        {
          assert gpuIndices[..k + 1][..k] == gpuIndices[..k];
          ScrubGPU(policy, gpuIndices[k], O.Reading(readings, gpuIndices[k]));
        }
        assert gpuIndices[..|gpuIndices|] == gpuIndices;
      }
      ScrubFlags(before, gpuIndices, readings);
    }

    lemma ScrubFlags(before: O.State, gpuIndices: seq<int>, readings: map<int, Option<int>>)
      requires View() == O.Scrub(before, scrubPolicy, gpuIndices, readings)
      ensures allocations == before.allocations && gpus.Keys == before.cards.Keys
      ensures forall i :: i in gpus ==>
                && (gpus[i].Quarantined <==> before.cards[i].quarantined || (scrubPolicy == "strict" && i in gpuIndices && !LowReading(readings, i)))
                && gpus[i].InUse == before.cards[i].inUse && gpus[i].JobUUID == before.cards[i].jobUUID
    {
      hide O.ScrubAll;
      O.ScrubEffect(before, scrubPolicy == "strict", gpuIndices, readings);
      assert View().cards.Keys == gpus.Keys;
      assert forall i :: i in gpus ==> View().cards[i] == CardOf(gpus[i]);
    }

    /** A release frees exactly the job's GPUs and forgets its record. Under the strict policy those
        of them whose reading is missing or above 64 MB are quarantined; under any other, the empty
        one included, no quarantine flag changes. */
    method ReleaseGPUs(jobID: string, readings: map<int, Option<int>>)
      requires Valid()
      modifies this`allocations, this`log, gpus.Values
      ensures Valid()
      ensures View() == if enabled then O.Do(old(View()), scrubPolicy, O.Release(jobID, readings)) else old(View())
      ensures enabled && jobID in old(allocations) ==>
                var indices := old(allocations)[jobID].gpuIndices;
                && allocations == old(allocations) - {jobID}
                && (forall i :: i in gpus ==>
                      && gpus[i].InUse == (old(gpus[i].InUse) && i !in indices)
                      && gpus[i].JobUUID == (if i in indices then "" else old(gpus[i].JobUUID))
                      && (gpus[i].Quarantined <==> old(gpus[i].Quarantined) || (scrubPolicy == "strict" && i in indices && !LowReading(readings, i))))
      ensures scrubPolicy != "strict" ==> forall k :: |old(log)| <= k < |log| ==> !log[k].Probed?
    {
      hide O.OwnershipOk, O.FitOk;
      ghost var before := View();
      if enabled && jobID in allocations {
        var allocation := allocations[jobID];
        MarkFree(allocation.gpuIndices);
        allocations := allocations - {jobID};
        log := log + O.ReleaseAll(allocation.gpuIndices);
        CardsGivenBack(before.cards, View().cards, allocation.gpuIndices);
        ScrubOnRelease(allocation.gpuIndices, readings);
        NoProbes(O.State(O.GiveBack(before.cards, allocation.gpuIndices), allocations, before.log + O.ReleaseAll(allocation.gpuIndices)),
                 before.log, allocation.gpuIndices, readings);
        ReleaseValid(before, jobID, readings);
      }
    }

    lemma ReleaseValid(before: O.State, jobID: string, readings: map<int, Option<int>>)
      requires View() == O.ReleasedState(before, scrubPolicy, jobID, readings)
      requires O.OwnershipOk(before) && forall verified: bool :: O.Makes(scrubPolicy, verified) ==> O.FitOk(before, verified)
      ensures O.OwnershipOk(View()) && forall verified: bool :: O.Makes(scrubPolicy, verified) ==> O.FitOk(View(), verified)
    {
      hide O.OwnershipOk, O.FitOk, O.ReleasedState;
      O.ReleaseKeeps(before, scrubPolicy, jobID, readings);
      forall verified: bool | O.Makes(scrubPolicy, verified) ensures O.FitOk(View(), verified) {
        O.ReleaseFit(before, scrubPolicy, jobID, readings, verified);
      }
    }

    method ClearQuarantine(gpuIndex: int) returns (ok: bool)
      requires Valid()
      modifies this`log, gpus.Values
      ensures Valid() && (ok <==> gpuIndex in gpus)
      ensures View() == O.Do(old(View()), scrubPolicy, O.ClearQuarantine(gpuIndex))
      ensures forall i :: i in gpus ==>
                && gpus[i].Quarantined == (old(gpus[i].Quarantined) && i != gpuIndex)
                && gpus[i].InUse == old(gpus[i].InUse) && gpus[i].JobUUID == old(gpus[i].JobUUID)
    {
      hide O.OwnershipOk, O.FitOk;
      if gpuIndex !in gpus {
        return false;
      }
      ghost var before := View();
      assert forall i :: i in gpus && gpus[i] == gpus[gpuIndex] ==> i == gpuIndex;
      gpus[gpuIndex].Quarantined := false;
      assert forall i :: i in gpus && i != gpuIndex ==> CardOf(gpus[i]) == old(CardOf(gpus[i]));
      log := log + [O.Cleared(gpuIndex)];
      assert View() == O.ClearedState(before, gpuIndex) by {
        assert View().cards == before.cards[gpuIndex := before.cards[gpuIndex].(quarantined := false)];
      }
      hide O.ClearedState;
      O.ClearKeeps(before, gpuIndex);
      forall verified: bool | O.Makes(scrubPolicy, verified) ensures O.FitOk(View(), verified) {
        O.ClearFit(before, gpuIndex, verified);
      }
      ok := true;
    }

    /** In the history of a manager configured "strict", between a GPU's release and its next grant
        lie a probe of at most 64 MB or an operator's clearing. */
    lemma StrictHistory(r: nat, g: nat)
      requires Valid() && scrubPolicy == "strict"
      requires r < g < |log| && log[g].Granted? && log[r] == O.Released(log[g].i)
      ensures exists k :: r < k < g &&
                (log[k] == O.Cleared(log[g].i)
                 || (log[k].Probed? && log[k].i == log[g].i && log[k].usedMB.Some? && log[k].usedMB.value <= 64))
    {
      assert O.Makes(scrubPolicy, true);
      O.GrantedFit(log, true, r, g);
    }

    /** And in that of one configured anything but "off", a reset. */
    lemma ResetHistory(r: nat, g: nat)
      requires Valid() && scrubPolicy != "off"
      requires r < g < |log| && log[g].Granted? && log[r] == O.Released(log[g].i)
      ensures exists k :: r < k < g && log[k] == O.Reset(log[g].i)
    {
      assert O.Makes(scrubPolicy, false);
      O.GrantedFit(log, false, r, g);
    }
  }
}
