/** gpu/manager.go on values: who owns which GPU, and what is known about a GPU's memory when it is
    handed out. Every method holds the manager's mutex throughout, so a run is a sequence of them. */
module GpuOwnership {
  import opened Wrappers

  datatype Card = Card(memoryMB: int, inUse: bool, jobUUID: string, quarantined: bool)

  datatype Allocation = Allocation(gpuIndices: seq<int>, gpuCount: int, gpuMemoryMB: int)

  // History: what happened to GPUs. A reset may fail; a probe has a reading in MB unless it failed.
  datatype Event = Granted(i: int) | Released(i: int) | Reset(i: int) | Probed(i: int, usedMB: Option<int>) | Cleared(i: int)

  datatype State = State(cards: map<int, Card>, allocations: map<string, Allocation>, log: seq<Event>)

  const SCRUB_RESIDUAL_THRESHOLD_MB := 64

  // --- the operations ---

  predicate Allocatable(c: Card, gpuMemoryMB: int) {
    !c.inUse && !c.quarantined && !(gpuMemoryMB > 0 && c.memoryMB < gpuMemoryMB)
  }

  // The free, unquarantined, large enough GPUs.
  function Eligible(s: State, gpuMemoryMB: int): set<int> {
    set i | i in s.cards && Allocatable(s.cards[i], gpuMemoryMB)
  }

  predicate NoDuplicates(s: seq<int>) { forall i, j :: 0 <= i < j < |s| ==> s[i] != s[j] }

  predicate Legal(s: State, gpuCount: int, gpuMemoryMB: int, chosen: seq<int>) {
    |chosen| == gpuCount && NoDuplicates(chosen) && forall i :: i in chosen ==> i in Eligible(s, gpuMemoryMB)
  }

  function GrantAll(chosen: seq<int>): seq<Event> {
    if chosen == [] then [] else GrantAll(chosen[..|chosen| - 1]) + [Granted(chosen[|chosen| - 1])]
  }

  function ReleaseAll(indices: seq<int>): seq<Event> {
    if indices == [] then [] else ReleaseAll(indices[..|indices| - 1]) + [Released(indices[|indices| - 1])]
  }

  function Take(cards: map<int, Card>, chosen: seq<int>, job: string): map<int, Card> {
    map i | i in cards :: if i in chosen then cards[i].(inUse := true, jobUUID := job) else cards[i]
  }

  function GiveBack(cards: map<int, Card>, indices: seq<int>): map<int, Card> {
    map i | i in cards :: if i in indices then cards[i].(inUse := false, jobUUID := "") else cards[i]
  }

  // AllocateGPUs, having selected chosen for a job without an allocation.
  function Allocated(s: State, job: string, gpuCount: int, gpuMemoryMB: int, chosen: seq<int>): State {
    State(Take(s.cards, chosen, job), s.allocations[job := Allocation(chosen, gpuCount, gpuMemoryMB)], s.log + GrantAll(chosen))
  }

  function Reading(readings: map<int, Option<int>>, i: int): Option<int> { if i in readings then readings[i] else None }

  predicate Clean(reading: Option<int>) { reading.Some? && reading.value <= SCRUB_RESIDUAL_THRESHOLD_MB }

  function Quarantined(cards: map<int, Card>, i: int): map<int, Card> {
    if i in cards then cards[i := cards[i].(quarantined := true)] else cards
  }

  // One turn of scrubOnRelease: a reset, whose failure changes nothing, and a probe if strict.
  function ScrubOne(s: State, strict: bool, i: int, reading: Option<int>): State {
    if strict then
      s.(log := s.log + [Reset(i)] + [Probed(i, reading)], cards := if Clean(reading) then s.cards else Quarantined(s.cards, i))
    else s.(log := s.log + [Reset(i)])
  }

  function ScrubAll(s: State, strict: bool, indices: seq<int>, readings: map<int, Option<int>>): State {
    if indices == [] then s
    else
      var i := indices[|indices| - 1];
      ScrubOne(ScrubAll(s, strict, indices[..|indices| - 1], readings), strict, i, Reading(readings, i))
  }

  // scrubOnRelease; every policy but "off" and "strict" resets the GPUs and believes the result.
  function Scrub(s: State, policy: string, indices: seq<int>, readings: map<int, Option<int>>): State {
    if policy == "off" then s else ScrubAll(s, policy == "strict", indices, readings)
  }

  // ReleaseGPUs.
  function ReleasedState(s: State, policy: string, job: string, readings: map<int, Option<int>>): State {
    if job !in s.allocations then s
    else
      var indices := s.allocations[job].gpuIndices;
      Scrub(State(GiveBack(s.cards, indices), s.allocations - {job}, s.log + ReleaseAll(indices)), policy, indices, readings)
  }

  function ClearedState(s: State, i: int): State {
    if i in s.cards then s.(cards := s.cards[i := s.cards[i].(quarantined := false)], log := s.log + [Cleared(i)]) else s
  }

  datatype Action =
    | Allocate(job: string, gpuCount: int, gpuMemoryMB: int, chosen: seq<int>)
    | Release(job: string, readings: map<int, Option<int>>)
    | ClearQuarantine(i: int)

  // An allocation for a job that has one, or that too few GPUs are eligible for, changes nothing.
  function Do(s: State, policy: string, a: Action): State {
    match a
    case Allocate(job, gpuCount, gpuMemoryMB, chosen) =>
      if gpuCount > 0 && job !in s.allocations && Legal(s, gpuCount, gpuMemoryMB, chosen)
      then Allocated(s, job, gpuCount, gpuMemoryMB, chosen) else s
    case Release(job, readings) => ReleasedState(s, policy, job, readings)
    case ClearQuarantine(i) => ClearedState(s, i)
  }

  function Exec(s: State, policy: string, acts: seq<Action>): State
    decreases |acts|
  {
    if acts == [] then s else Exec(Do(s, policy, acts[0]), policy, acts[1..])
  }

  // After Initialize.
  predicate Initial(s: State) {
    s.allocations == map[] && s.log == [] && forall i :: i in s.cards ==> s.cards[i] == Card(s.cards[i].memoryMB, false, "", false)
  }

  // --- ownership ---

  // A GPU's own account of who has it, against the allocation records.
  predicate CardOk(s: State, i: int)
    requires i in s.cards
  {
    var c := s.cards[i];
    && (c.inUse ==> c.jobUUID in s.allocations && i in s.allocations[c.jobUUID].gpuIndices)
    && (!c.inUse ==> c.jobUUID == "")
    && (c.quarantined ==> !c.inUse)
  }

  predicate RecordOk(s: State, job: string)
    requires job in s.allocations
  {
    var a := s.allocations[job];
    && NoDuplicates(a.gpuIndices) && |a.gpuIndices| == a.gpuCount > 0
    && forall i :: i in a.gpuIndices ==> i in s.cards && s.cards[i].inUse && s.cards[i].jobUUID == job
  }

  ghost predicate OwnershipOk(s: State) {
    && (forall i :: i in s.cards ==> CardOk(s, i))
    && (forall job :: job in s.allocations ==> RecordOk(s, job))
  }

  lemma AllocateKeeps(s: State, job: string, gpuCount: int, gpuMemoryMB: int, chosen: seq<int>)
    requires OwnershipOk(s) && gpuCount > 0 && job !in s.allocations && Legal(s, gpuCount, gpuMemoryMB, chosen)
    ensures OwnershipOk(Allocated(s, job, gpuCount, gpuMemoryMB, chosen))
  {
    var s' := Allocated(s, job, gpuCount, gpuMemoryMB, chosen);
    forall i | i in s'.cards ensures CardOk(s', i) { assert CardOk(s, i); }
    forall j | j in s'.allocations ensures RecordOk(s', j) {
      if j != job {
        assert RecordOk(s, j);
      } else {
        assert forall i :: i in chosen ==> i in Eligible(s, gpuMemoryMB);
      }
    }
  }

  lemma GiveBackKeeps(s: State, job: string, log: seq<Event>)
    requires OwnershipOk(s) && job in s.allocations
    ensures OwnershipOk(State(GiveBack(s.cards, s.allocations[job].gpuIndices), s.allocations - {job}, log))
  {
    var indices := s.allocations[job].gpuIndices;
    var s' := State(GiveBack(s.cards, indices), s.allocations - {job}, log);
    assert RecordOk(s, job);
    forall i | i in s'.cards ensures CardOk(s', i) { assert CardOk(s, i); }
    forall j | j in s'.allocations ensures RecordOk(s', j) { assert RecordOk(s, j); }
  }

  // Scrubbing only ever sets quarantine flags, of the given GPUs and if strict.
  lemma {:induction false} ScrubEffect(s: State, strict: bool, indices: seq<int>, readings: map<int, Option<int>>)
    ensures var s' := ScrubAll(s, strict, indices, readings);
            && s'.allocations == s.allocations && s'.cards.Keys == s.cards.Keys
            && forall i :: i in s.cards ==>
                 s'.cards[i] == s.cards[i].(quarantined := s.cards[i].quarantined || (strict && i in indices && !Clean(Reading(readings, i))))
  {
    hide Clean, Reading;
    if indices != [] {
      var init, k := indices[..|indices| - 1], indices[|indices| - 1];
      ScrubEffect(s, strict, init, readings);
      assert indices == init + [k];
      assert forall i :: i in indices <==> i in init || i == k;
      ScrubOneEffect(ScrubAll(s, strict, init, readings), strict, k, Reading(readings, k));
    }
  }

  lemma ScrubOneEffect(s: State, strict: bool, k: int, reading: Option<int>)
    ensures var s' := ScrubOne(s, strict, k, reading);
            && s'.allocations == s.allocations && s'.cards.Keys == s.cards.Keys
            && forall i :: i in s.cards ==>
                 s'.cards[i] == s.cards[i].(quarantined := s.cards[i].quarantined || (strict && i == k && !Clean(reading)))
  {
  }

  lemma ReleaseKeeps(s: State, policy: string, job: string, readings: map<int, Option<int>>)
    requires OwnershipOk(s)
    ensures OwnershipOk(ReleasedState(s, policy, job, readings))
  {
    if job in s.allocations {
      var indices := s.allocations[job].gpuIndices;
      var s1 := State(GiveBack(s.cards, indices), s.allocations - {job}, s.log + ReleaseAll(indices));
      GiveBackKeeps(s, job, s1.log);
      ScrubEffect(s1, policy == "strict", indices, readings);
      var s' := ReleasedState(s, policy, job, readings);
      assert RecordOk(s, job);
      forall i | i in s'.cards ensures CardOk(s', i) { assert CardOk(s1, i); }
      forall j | j in s'.allocations ensures RecordOk(s', j) { assert RecordOk(s1, j); }
    }
  }

  lemma ClearKeeps(s: State, i: int)
    requires OwnershipOk(s)
    ensures OwnershipOk(ClearedState(s, i))
  {
    var s' := ClearedState(s, i);
    forall k | k in s'.cards ensures CardOk(s', k) { assert CardOk(s, k); }
    forall j | j in s'.allocations ensures RecordOk(s', j) { assert RecordOk(s, j); }
  }

  lemma {:induction false} RunKeeps(s: State, policy: string, acts: seq<Action>)
    requires OwnershipOk(s)
    ensures OwnershipOk(Exec(s, policy, acts))
    decreases |acts|
  {
    hide OwnershipOk;
    if acts != [] {
      match acts[0] {
        case Allocate(job, gpuCount, gpuMemoryMB, chosen) =>
          if gpuCount > 0 && job !in s.allocations && Legal(s, gpuCount, gpuMemoryMB, chosen) {
            AllocateKeeps(s, job, gpuCount, gpuMemoryMB, chosen);
          }
        case Release(job, readings) => ReleaseKeeps(s, policy, job, readings);
        case ClearQuarantine(i) => ClearKeeps(s, i);
      }
      RunKeeps(Do(s, policy, acts[0]), policy, acts[1..]);
    }
  }

  /** In every reachable state a GPU is in use if and only if it occurs in an allocation; that
      allocation is then its job's, the only one, and holds it once; and a quarantined GPU is never
      in use. */
  lemma OwnershipAgrees(s0: State, policy: string, acts: seq<Action>, i: int)
    requires Initial(s0) && i in Exec(s0, policy, acts).cards
    ensures var s := Exec(s0, policy, acts);
            && (s.cards[i].inUse <==> exists job :: job in s.allocations && i in s.allocations[job].gpuIndices)
            && (forall job :: job in s.allocations ==>
                  (i in s.allocations[job].gpuIndices <==> s.cards[i].inUse && s.cards[i].jobUUID == job))
            && (forall job :: job in s.allocations ==> NoDuplicates(s.allocations[job].gpuIndices))
            && (s.cards[i].quarantined ==> !s.cards[i].inUse)
  {
    assert forall k :: k in s0.cards ==> CardOk(s0, k);
    RunKeeps(s0, policy, acts);
    var s := Exec(s0, policy, acts);
    assert CardOk(s, i);
    assert forall job :: job in s.allocations ==> RecordOk(s, job);
  }

  // --- what lies between a release and the next grant ---

  // What makes GPU i fit to be handed on: a clean probe or an operator's clearing, or only a reset.
  predicate Good(e: Event, i: int, verified: bool) {
    if verified then e == Cleared(i) || (e.Probed? && e.i == i && Clean(e.usedMB)) else e == Reset(i)
  }

  // GPU i has been made fit since its latest release, if it was ever released.
  predicate FitSince(log: seq<Event>, i: int, verified: bool) {
    if log == [] then true
    else
      var e := log[|log| - 1];
      if e == Released(i) then false
      else if Good(e, i, verified) then true
      else FitSince(log[..|log| - 1], i, verified)
  }

  // What FitSince says of a log: between a release and its end the GPU has been made fit.
  lemma {:induction false} FitSinceMeans(log: seq<Event>, i: int, verified: bool, r: nat)
    requires r < |log| && log[r] == Released(i) && FitSince(log, i, verified)
    ensures exists k :: r < k < |log| && Good(log[k], i, verified)
  {
    hide Good;
    var last := |log| - 1;
    assert !Good(Released(i), i, verified) by { ReleaseIsNotGood(i, verified); }
    if !Good(log[last], i, verified) {
      var init := log[..last];
      FitSinceMeans(init, i, verified, r);
      var k :| r < k < |init| && Good(init[k], i, verified);
      assert log[k] == init[k];
    }
  }

  lemma ReleaseIsNotGood(i: int, verified: bool)
    ensures !Good(Released(i), i, verified)
  {
  }

  lemma FitThen(log: seq<Event>, e: Event, i: int, verified: bool)
    ensures FitSince(log + [e], i, verified) ==
              if e == Released(i) then false else if Good(e, i, verified) then true else FitSince(log, i, verified)
  {
    assert (log + [e])[..|log|] == log;
  }

  lemma {:induction false} FitThenGrants(log: seq<Event>, chosen: seq<int>, i: int, verified: bool)
    ensures FitSince(log + GrantAll(chosen), i, verified) == FitSince(log, i, verified)
  {
    if chosen == [] {
      assert log + [] == log;
    } else {
      var init := chosen[..|chosen| - 1];
      FitThenGrants(log, init, i, verified);
      FitThen(log + GrantAll(init), Granted(chosen[|chosen| - 1]), i, verified);
      assert log + GrantAll(chosen) == log + GrantAll(init) + [Granted(chosen[|chosen| - 1])];
    }
  }

  lemma {:induction false} FitThenReleases(log: seq<Event>, indices: seq<int>, i: int, verified: bool)
    requires i !in indices
    ensures FitSince(log + ReleaseAll(indices), i, verified) == FitSince(log, i, verified)
  {
    if indices == [] {
      assert log + [] == log;
    } else {
      var init := indices[..|indices| - 1];
      FitThenReleases(log, init, i, verified);
      FitThen(log + ReleaseAll(init), Released(indices[|indices| - 1]), i, verified);
      assert log + ReleaseAll(indices) == log + ReleaseAll(init) + [Released(indices[|indices| - 1])];
    }
  }

  lemma ScrubOneFits(s: State, strict: bool, k: int, reading: Option<int>, i: int, verified: bool)
    ensures FitSince(ScrubOne(s, strict, k, reading).log, i, verified) <==>
              FitSince(s.log, i, verified) || (i == k && if verified then strict && Clean(reading) else true)
  {
    FitThen(s.log, Reset(k), i, verified);
    FitThen(s.log + [Reset(k)], Probed(k, reading), i, verified);
  }

  lemma {:induction false} FitThenScrub(s: State, strict: bool, indices: seq<int>, readings: map<int, Option<int>>, i: int, verified: bool)
    ensures FitSince(ScrubAll(s, strict, indices, readings).log, i, verified) <==>
              FitSince(s.log, i, verified) || (i in indices && if verified then strict && Clean(Reading(readings, i)) else true)
  {
    hide ScrubOne, Clean, Reading, FitSince;
    if indices != [] {
      var init, k := indices[..|indices| - 1], indices[|indices| - 1];
      FitThenScrub(s, strict, init, readings, i, verified);
      ScrubOneFits(ScrubAll(s, strict, init, readings), strict, k, Reading(readings, k), i, verified);
      assert indices == init + [k];
      assert i in indices <==> i in init || i == k;
    }
  }

  // Every GPU that could be granted is fit, and every grant so far was of a fit one.
  predicate FitOk(s: State, verified: bool) {
    && (forall i :: i in s.cards && !s.cards[i].inUse && (verified ==> !s.cards[i].quarantined) ==> FitSince(s.log, i, verified))
    && GrantsFit(s.log, verified)
  }

  predicate GrantsFit(log: seq<Event>, verified: bool) {
    forall g :: 0 <= g < |log| && log[g].Granted? ==> FitSince(log[..g], log[g].i, verified)
  }

  lemma GrantsThen(log: seq<Event>, e: Event, verified: bool)
    requires GrantsFit(log, verified) && (e.Granted? ==> FitSince(log, e.i, verified))
    ensures GrantsFit(log + [e], verified)
  {
    var l := log + [e];
    forall g | 0 <= g < |l| && l[g].Granted? ensures FitSince(l[..g], l[g].i, verified) {
      if g < |log| {
        assert l[..g] == log[..g] && l[g] == log[g];
      } else {
        assert l[..g] == log;
      }
    }
  }

  lemma {:induction false} GrantsAfterGrants(log: seq<Event>, chosen: seq<int>, verified: bool)
    requires GrantsFit(log, verified) && forall i :: i in chosen ==> FitSince(log, i, verified)
    ensures GrantsFit(log + GrantAll(chosen), verified)
  {
    if chosen == [] {
      assert log + [] == log;
    } else {
      var init, last := chosen[..|chosen| - 1], chosen[|chosen| - 1];
      assert forall i :: i in init ==> i in chosen;
      GrantsAfterGrants(log, init, verified);
      FitThenGrants(log, init, last, verified);
      GrantsThen(log + GrantAll(init), Granted(last), verified);
      assert log + GrantAll(chosen) == log + GrantAll(init) + [Granted(last)];
    }
  }

  lemma {:induction false} GrantsAfterReleases(log: seq<Event>, indices: seq<int>, verified: bool)
    requires GrantsFit(log, verified)
    ensures GrantsFit(log + ReleaseAll(indices), verified)
  {
    if indices == [] {
      assert log + [] == log;
    } else {
      var init, last := indices[..|indices| - 1], indices[|indices| - 1];
      GrantsAfterReleases(log, init, verified);
      GrantsThen(log + ReleaseAll(init), Released(last), verified);
      assert log + ReleaseAll(indices) == log + ReleaseAll(init) + [Released(last)];
    }
  }

  lemma {:induction false} GrantsAfterScrub(s: State, strict: bool, indices: seq<int>, readings: map<int, Option<int>>, verified: bool)
    requires GrantsFit(s.log, verified)
    ensures GrantsFit(ScrubAll(s, strict, indices, readings).log, verified)
  {
    hide GrantsFit;
    if indices != [] {
      var init, k := indices[..|indices| - 1], indices[|indices| - 1];
      GrantsAfterScrub(s, strict, init, readings, verified);
      var log := ScrubAll(s, strict, init, readings).log;
      GrantsThen(log, Reset(k), verified);
      GrantsThen(log + [Reset(k)], Probed(k, Reading(readings, k)), verified);
    }
  }

  lemma AllocateFit(s: State, job: string, gpuCount: int, gpuMemoryMB: int, chosen: seq<int>, verified: bool)
    requires FitOk(s, verified) && Legal(s, gpuCount, gpuMemoryMB, chosen)
    ensures FitOk(Allocated(s, job, gpuCount, gpuMemoryMB, chosen), verified)
  {
    hide FitSince;
    var s' := Allocated(s, job, gpuCount, gpuMemoryMB, chosen);
    assert forall i :: i in chosen ==> i in Eligible(s, gpuMemoryMB);
    GrantsAfterGrants(s.log, chosen, verified);
    forall i | i in s'.cards && !s'.cards[i].inUse && (verified ==> !s'.cards[i].quarantined) ensures FitSince(s'.log, i, verified) {
      FitThenGrants(s.log, chosen, i, verified);
    }
  }

  // The policies that make released GPUs fit.
  predicate Makes(policy: string, verified: bool) { if verified then policy == "strict" else policy != "off" }

  lemma ReleaseFit(s: State, policy: string, job: string, readings: map<int, Option<int>>, verified: bool)
    requires FitOk(s, verified) && Makes(policy, verified)
    ensures FitOk(ReleasedState(s, policy, job, readings), verified)
  {
    hide FitSince, GrantsFit;
    if job in s.allocations {
      var indices, strict := s.allocations[job].gpuIndices, policy == "strict";
      var s1 := State(GiveBack(s.cards, indices), s.allocations - {job}, s.log + ReleaseAll(indices));
      var s' := ReleasedState(s, policy, job, readings);
      GrantsAfterReleases(s.log, indices, verified);
      GrantsAfterScrub(s1, strict, indices, readings, verified);
      ScrubEffect(s1, strict, indices, readings);
      forall i | i in s'.cards && !s'.cards[i].inUse && (verified ==> !s'.cards[i].quarantined) ensures FitSince(s'.log, i, verified) {
        FitThenScrub(s1, strict, indices, readings, i, verified);
        if i !in indices {
          FitThenReleases(s.log, indices, i, verified);
        }
      }
    }
  }

  lemma ClearFit(s: State, i: int, verified: bool)
    requires FitOk(s, verified)
    ensures FitOk(ClearedState(s, i), verified)
  {
    hide FitSince, GrantsFit;
    if i in s.cards {
      var s' := ClearedState(s, i);
      GrantsThen(s.log, Cleared(i), verified);
      forall k | k in s'.cards && !s'.cards[k].inUse && (verified ==> !s'.cards[k].quarantined) ensures FitSince(s'.log, k, verified) {
        FitThen(s.log, Cleared(i), k, verified);
      }
    }
  }

  lemma {:induction false} RunFits(s: State, policy: string, acts: seq<Action>, verified: bool)
    requires FitOk(s, verified) && Makes(policy, verified)
    ensures FitOk(Exec(s, policy, acts), verified)
    decreases |acts|
  {
    hide FitOk;
    if acts != [] {
      match acts[0] {
        case Allocate(job, gpuCount, gpuMemoryMB, chosen) =>
          if gpuCount > 0 && job !in s.allocations && Legal(s, gpuCount, gpuMemoryMB, chosen) {
            AllocateFit(s, job, gpuCount, gpuMemoryMB, chosen, verified);
          }
        case Release(job, readings) => ReleaseFit(s, policy, job, readings, verified);
        case ClearQuarantine(i) => ClearFit(s, i, verified);
      }
      RunFits(Do(s, policy, acts[0]), policy, acts[1..], verified);
    }
  }

  // What FitOk says of the log of a state.
  lemma GrantedFit(log: seq<Event>, verified: bool, r: nat, g: nat)
    requires GrantsFit(log, verified) && r < g < |log| && log[g].Granted? && log[r] == Released(log[g].i)
    ensures exists k :: r < k < g && Good(log[k], log[g].i, verified)
  {
    hide FitSince, Good;
    FitSinceMeans(log[..g], log[g].i, verified, r);
    var k :| r < k < g && Good(log[..g][k], log[g].i, verified);
    assert log[k] == log[..g][k];
  }

  lemma InitialOk(s: State)
    requires Initial(s)
    ensures OwnershipOk(s) && FitOk(s, true) && FitOk(s, false)
  {
    assert forall i :: i in s.cards ==> CardOk(s, i);
  }

  /** Under the strict policy, whatever the resets and probes give, a GPU granted after an earlier
      release had in between a probe reading of at most 64 MB, or an operator cleared it. */
  lemma StrictScrubHistory(s0: State, acts: seq<Action>, r: nat, g: nat)
    requires Initial(s0)
    requires r < g < |Exec(s0, "strict", acts).log|
    requires Exec(s0, "strict", acts).log[g].Granted?
    requires Exec(s0, "strict", acts).log[r] == Released(Exec(s0, "strict", acts).log[g].i)
    ensures var log := Exec(s0, "strict", acts).log;
            exists k :: r < k < g &&
              (log[k] == Cleared(log[g].i)
               || (log[k].Probed? && log[k].i == log[g].i && log[k].usedMB.Some? && log[k].usedMB.value <= 64))
  {
    hide Exec;
    var log := Exec(s0, "strict", acts).log;
    RunFits(s0, "strict", acts, true);
    GrantedFit(log, true, r, g);
  }

  // A GPU granted after an earlier release was made fit in between, in every run.
  ghost predicate AllGrantsFit(policy: string, verified: bool) {
    forall s0, acts {:trigger Exec(s0, policy, acts)} :: Initial(s0) ==> GrantsFit(Exec(s0, policy, acts).log, verified)
  }

  // The shortest run that hands a GPU on.
  lemma HandedOn(policy: string, i: int, memoryMB: int)
    requires policy != "strict"
    ensures exists s0, acts :: Initial(s0) &&
              Exec(s0, policy, acts).log == [Granted(i), Released(i)] + (if policy == "off" then [] else [Reset(i)]) + [Granted(i)]
  {
    var s0 := State(map[i := Card(memoryMB, false, "", false)], map[], []);
    var acts := [Allocate("a", 1, 0, [i]), Release("a", map[]), Allocate("b", 1, 0, [i])];
    var s1 := Do(s0, policy, acts[0]);
    var s2 := Do(s1, policy, acts[1]);
    var s3 := Do(s2, policy, acts[2]);
    assert [i][..0] == [];
    assert GrantAll([]) == [] && ReleaseAll([]) == [];
    assert GrantAll([i]) == [Granted(i)] && ReleaseAll([i]) == [Released(i)];
    assert i in Eligible(s0, 0);
    assert s1.log == [Granted(i)];
    var s4 := State(GiveBack(s1.cards, [i]), s1.allocations - {"a"}, s1.log + ReleaseAll([i]));
    assert ScrubAll(s4, false, [i], map[]) == ScrubOne(s4, false, i, Reading(map[], i));
    assert s2.log == [Granted(i), Released(i)] + if policy == "off" then [] else [Reset(i)];
    assert i in Eligible(s2, 0);
    assert s3.log == s2.log + [Granted(i)];
    ThreeSteps(s0, policy, acts);
  }

  lemma ThreeSteps(s: State, policy: string, acts: seq<Action>)
    requires |acts| == 3
    ensures Exec(s, policy, acts) == Do(Do(Do(s, policy, acts[0]), policy, acts[1]), policy, acts[2])
  {
    hide Do;
    var s2 := Do(Do(s, policy, acts[0]), policy, acts[1]);
    assert acts[1..][1..] == acts[2..] && acts[2..][1..] == [];
    assert Exec(s2, policy, acts[2..]) == Do(s2, policy, acts[2]);
  }

  /** What a GPU has been through before it is handed on, in every run: a clean probe or a clearing
      if and only if the policy is the strict one, a reset if and only if it is not "off". */
  lemma FitExactlyWhen(policy: string)
    ensures AllGrantsFit(policy, true) <==> policy == "strict"
    ensures AllGrantsFit(policy, false) <==> policy != "off"
  {
    forall verified: bool | Makes(policy, verified) ensures AllGrantsFit(policy, verified) {
      forall s0, acts | Initial(s0) ensures GrantsFit(Exec(s0, policy, acts).log, verified) {
        RunFits(s0, policy, acts, verified);
      }
    }
    if policy != "strict" {
      HandedOn(policy, 0, 0);
      var s0, acts :| Initial(s0) &&
        Exec(s0, policy, acts).log == [Granted(0), Released(0)] + (if policy == "off" then [] else [Reset(0)]) + [Granted(0)];
      var log := Exec(s0, policy, acts).log;
      hide Exec;
      NotFit(log, policy);
    }
  }

  lemma NotFit(log: seq<Event>, policy: string)
    requires log == [Granted(0), Released(0)] + (if policy == "off" then [] else [Reset(0)]) + [Granted(0)]
    ensures !GrantsFit(log, true) && (policy == "off" ==> !GrantsFit(log, false))
  {
    var g := |log| - 1;
    var l := [Granted(0)] + [Released(0)];
    FitThen([Granted(0)], Released(0), 0, true);
    FitThen([Granted(0)], Released(0), 0, false);
    FitThen(l, Reset(0), 0, true);
    assert log[..g] == if policy == "off" then l else l + [Reset(0)];
    assert log[g].Granted? && log[g].i == 0;
    assert !FitSince(log[..g], log[g].i, true);
    if policy == "off" {
      assert !FitSince(log[..g], log[g].i, false);
    }
  }
}
