/** network/setup.go: creations of bridges that overlap each other, as interleaved commands. Nothing
    orders them: each job that starts calls ensureBridge on its own. One step per command the code
    runs; the listing of the bridges and each insertion are separate commands. */
module BridgeRaces {
  import opened Wrappers
  import opened Firewall
  import opened FirewallProofs

  type Tid = nat

  // Where a caller of ensureBridge is.
  datatype Thread =
    | Idle
    | Absent(b: Iface)                 // "ip link show" found no bridge
    | Linked(b: Iface)                 // link added
    | Ready(b: Iface)                  // address given and brought up
    | InSeen(b: Iface, found: bool)    // -C of the first ACCEPT rule has answered
    | InDone(b: Iface)
    | OutSeen(b: Iface, found: bool)   // -C of the second one has
    | OutDone(b: Iface)                // about to set up isolation
    | Isolating(j: nat)                // in the loop of setupNetworkIsolation: loops[j]

  // The loop for bridge b over the bridges it has listed; half says that the first rule of the
  // pair for bridges[k] is in.
  datatype Loop = Loop(b: Iface, bridges: seq<Iface>, k: nat, half: bool)

  // The chain is what joblet has inserted, newest first, on top of what was there before.
  datatype State = State(
    base: seq<Rule>,
    ours: seq<Rule>,
    links: seq<Iface>,
    threads: map<Tid, Thread>,
    loops: seq<Loop>)                  // in the order in which the bridges were listed

  function Chain(s: State): seq<Rule> { s.ours + s.base }

  datatype Action =
    | Call(t: Tid, networkName: string)
    | AddLink(t: Tid, ok: bool) | Configure(t: Tid, ok: bool)
    | CheckIn(t: Tid) | PutIn(t: Tid) | CheckOut(t: Tid) | PutOut(t: Tid)
    | List(t: Tid) | Put(t: Tid) | Return(t: Tid)

  function At(s: State, t: Tid): Thread { if t in s.threads then s.threads[t] else Idle }

  function Go(s: State, t: Tid, th: Thread): State { s.(threads := s.threads[t := th]) }

  function OnTop(s: State, r: Rule): State { s.(ours := Insert(s.ours, r)) }

  predicate Enabled(s: State, a: Action) {
    match a
    case Call(t, _) => At(s, t).Idle?
    case AddLink(t, _) => At(s, t).Absent?
    case Configure(t, _) => At(s, t).Linked?
    case CheckIn(t) => At(s, t).Ready?
    case PutIn(t) => At(s, t).InSeen?
    case CheckOut(t) => At(s, t).InDone?
    case PutOut(t) => At(s, t).OutSeen?
    case List(t) => At(s, t).OutDone?
    case Put(t) => At(s, t).Isolating? && At(s, t).j < |s.loops| && !Over(s.loops[At(s, t).j])
    case Return(t) => At(s, t).Isolating? && At(s, t).j < |s.loops| && Over(s.loops[At(s, t).j])
  }

  predicate Over(l: Loop) { l.k >= |l.bridges| }

  function Apply(s: State, a: Action): State
    requires Enabled(s, a)
  {
    match a
    case Call(t, name) =>
      var b := BridgeNameForNetwork(name);
      if b in s.links then s else Go(s, t, Absent(b))
    case AddLink(t, ok) =>
      // Adding a link that is there already fails, too.
      var b := At(s, t).b;
      if ok && b !in s.links then Go(s, t, Linked(b)).(links := s.links + [b]) else Go(s, t, Idle)
    case Configure(t, ok) => Go(s, t, if ok then Ready(At(s, t).b) else Idle)
    case CheckIn(t) => Go(s, t, InSeen(At(s, t).b, AcceptIn(At(s, t).b) in Chain(s)))
    case PutIn(t) =>
      var s' := Go(s, t, InDone(At(s, t).b));
      if At(s, t).found then s' else OnTop(s', AcceptIn(At(s, t).b))
    case CheckOut(t) => Go(s, t, OutSeen(At(s, t).b, AcceptOut(At(s, t).b) in Chain(s)))
    case PutOut(t) =>
      var s' := Go(s, t, OutDone(At(s, t).b));
      if At(s, t).found then s' else OnTop(s', AcceptOut(At(s, t).b))
    case List(t) =>
      // Only the default network has the default bridge.
      if At(s, t).b == DEFAULT_BRIDGE then Go(s, t, Idle)
      else Go(s, t, Isolating(|s.loops|)).(loops := s.loops + [Loop(At(s, t).b, ExistingBridges(s.links), 0, false)])
    case Put(t) => PutOne(s, At(s, t).j)
    case Return(t) => Go(s, t, Idle)
  }

  // One command of loop j, or a bridge it skips.
  function PutOne(s: State, j: nat): State
    requires j < |s.loops| && !Over(s.loops[j])
  {
    var l := s.loops[j];
    var o := l.bridges[l.k];
    if o == l.b || !IsJoblet(o) then s.(loops := s.loops[j := l.(k := l.k + 1, half := false)])
    else if !l.half then OnTop(s, Drop(l.b, o)).(loops := s.loops[j := l.(half := true)])
    else OnTop(s, Drop(o, l.b)).(loops := s.loops[j := l.(k := l.k + 1, half := false)])
  }

  predicate Init(s: State) {
    && s.ours == [] && s.threads == map[] && s.loops == []
    && Untouched(Net(s.base, s.links, {}, []))
  }

  function Exec(s: State, acts: seq<Action>): State
    decreases |acts|
  {
    if acts == [] then s
    else Exec(if Enabled(s, acts[0]) then Apply(s, acts[0]) else s, acts[1..])
  }

  ghost predicate Reachable(s: State) {
    exists s0, acts :: Init(s0) && s == Exec(s0, acts)
  }

  // Every creation has returned.
  predicate Quiet(s: State) { forall t :: t in s.threads ==> s.threads[t] == Idle }

  // --- the invariant ---

  // A creation between adding its link and listing the bridges.
  predicate Underway(th: Thread) {
    th.Linked? || th.Ready? || th.InSeen? || th.InDone? || th.OutSeen? || th.OutDone?
  }

  predicate ThreadOk(s: State, th: Thread) {
    && (th.Absent? ==> IsJoblet(th.b))
    && (Underway(th) ==> IsJoblet(th.b) && th.b in s.links && forall l :: l in s.loops ==> l.b != th.b)
    && (th.InSeen? ==> (th.found <==> AcceptIn(th.b) in s.ours))
    && (th.OutSeen? ==> (th.found <==> AcceptOut(th.b) in s.ours))
    && (th.Isolating? ==> th.j < |s.loops|)
  }

  ghost predicate ThreadsOk(s: State) {
    && (forall t :: t in s.threads ==> ThreadOk(s, s.threads[t]))
    && (forall t, u :: t in s.threads && u in s.threads && t != u && Underway(s.threads[t]) && Underway(s.threads[u]) ==>
          s.threads[t].b != s.threads[u].b)
  }

  predicate LoopOk(s: State, l: Loop) {
    && IsJoblet(l.b) && l.b in s.links
    && (forall o :: o in l.bridges ==> IsJoblet(o) && o in s.links)
    && (forall p, q :: 0 <= p < q < |l.bridges| ==> l.bridges[p] != l.bridges[q])
    && l.k <= |l.bridges| && (l.half ==> l.k < |l.bridges| && l.bridges[l.k] != l.b)
  }

  // A loop that lists later finds every bridge that has listed before.
  ghost predicate LoopsOk(s: State) {
    && Distinct(s.links)
    && (forall j :: 0 <= j < |s.loops| ==> LoopOk(s, s.loops[j]))
    && (forall i, j :: 0 <= i < j < |s.loops| ==> s.loops[i].b != s.loops[j].b && s.loops[i].b in s.loops[j].bridges)
  }

  // Who has not returned is in its loop, so a loop nobody is in is over.
  ghost predicate LoopsRun(s: State) {
    forall j :: 0 <= j < |s.loops| && !Over(s.loops[j]) ==> exists t :: t in s.threads && s.threads[t] == Isolating(j)
  }

  // Loop l has inserted r.
  predicate Inserted(l: Loop, r: Rule) {
    exists p :: 0 <= p < |l.bridges| && l.bridges[p] != l.b
      && ((r == Drop(l.b, l.bridges[p]) && (p < l.k || (p == l.k && l.half))) || (r == Drop(l.bridges[p], l.b) && p < l.k))
  }

  // How many of the loops have inserted r.
  function Times(loops: seq<Loop>, r: Rule): nat {
    if loops == [] then 0
    else Times(loops[..|loops| - 1], r) + if Inserted(loops[|loops| - 1], r) then 1 else 0
  }

  predicate IsDrop(r: Rule) { r.Rule? && r.inIf.Some? && r.outIf.Some? && r.target == DROP }

  predicate IsAccept(r: Rule) { r.Rule? && r.target == ACCEPT && (r.inIf.Some? <==> r.outIf.None?) }

  // Each DROP rule is there as often as a loop has inserted it, each ACCEPT rule at most once.
  ghost predicate Counts(s: State) {
    && (forall r :: r in s.ours ==> IsAccept(r) || IsDrop(r))
    && (forall r {:trigger multiset(s.ours)[r]} :: IsAccept(r) ==> multiset(s.ours)[r] <= 1)
    && (forall r {:trigger Times(s.loops, r)} :: IsDrop(r) ==> multiset(s.ours)[r] == Times(s.loops, r))
  }

  // Of two loops the one that lists later puts its rules above the ACCEPT rules of both.
  ghost predicate Covered(s: State, i: nat, j: nat, p: nat)
    requires i < |s.loops| && j < |s.loops| && p < |s.loops[j].bridges|
  {
    var x, y := s.loops[i].b, s.loops[j].b;
    && (s.loops[j].k > p ==> Decider(s.ours, x, y) == Some(Drop(x, y)))
    && (s.loops[j].k > p || (s.loops[j].k == p && s.loops[j].half) ==> Decider(s.ours, y, x) == Some(Drop(y, x)))
  }

  ghost predicate AllCovered(s: State) {
    forall i, j, p :: 0 <= i < j < |s.loops| && 0 <= p < |s.loops[j].bridges| && s.loops[j].bridges[p] == s.loops[i].b ==>
      Covered(s, i, j, p)
  }

  ghost predicate Inv(s: State) {
    Clean(s.base) && ThreadsOk(s) && LoopsOk(s) && LoopsRun(s) && Counts(s) && AllCovered(s)
  }

  // --- every step keeps it ---

  // A rule of joblet's is not among those that were there before.
  lemma NotBefore(s: State, r: Rule)
    requires Clean(s.base) && NamesJoblet(r)
    ensures r in Chain(s) <==> r in s.ours
  {
  }

  lemma SeenKeeps(s: State, a: Action)
    requires Inv(s) && Enabled(s, a) && (a.CheckIn? || a.CheckOut?)
    ensures ThreadsOk(Apply(s, a))
  {
    hide Counts, AllCovered, LoopsRun, LoopsOk;
    var th := s.threads[a.t];
    NotBefore(s, if a.CheckIn? then AcceptIn(th.b) else AcceptOut(th.b));
  }

  lemma ListKeepsThreads(s: State, t: Tid)
    requires Inv(s) && Enabled(s, List(t))
    ensures ThreadsOk(Apply(s, List(t)))
  {
    hide Counts, AllCovered, LoopsRun, LoopsOk;
    var s' := Apply(s, List(t));
    forall u | u in s'.threads ensures ThreadOk(s', s'.threads[u]) {
      assert u != t ==> ThreadOk(s, s.threads[u]);
    }
  }

  lemma AddKeepsThreads(s: State, t: Tid, ok: bool)
    requires Inv(s) && Enabled(s, AddLink(t, ok))
    ensures ThreadsOk(Apply(s, AddLink(t, ok)))
  {
    hide Counts, AllCovered, LoopsRun;
    var s' := Apply(s, AddLink(t, ok));
    forall l | l in s.loops ensures l.b in s.links {
      assert exists j :: 0 <= j < |s.loops| && s.loops[j] == l;
    }
    forall u | u in s'.threads ensures ThreadOk(s', s'.threads[u]) {
      assert u != t ==> ThreadOk(s, s.threads[u]);
    }
  }

  lemma InsertKeepsThreads(s: State, a: Action)
    requires Inv(s) && Enabled(s, a) && (a.PutIn? || a.PutOut?)
    ensures ThreadsOk(Apply(s, a))
  {
    hide Counts, AllCovered, LoopsRun, LoopsOk;
    var s' := Apply(s, a);
    forall u | u in s'.threads ensures ThreadOk(s', s'.threads[u]) {
      assert u != a.t ==> ThreadOk(s, s.threads[u]);
    }
  }

  lemma PutKeepsThreads(s: State, j: nat)
    requires Inv(s) && j < |s.loops| && !Over(s.loops[j])
    ensures ThreadsOk(PutOne(s, j))
  {
    hide Counts, AllCovered, LoopsRun, LoopsOk;
    var s' := PutOne(s, j);
    assert forall l :: l in s'.loops ==> exists l0 :: l0 in s.loops && l0.b == l.b by {
      assert s.loops[j] in s.loops;
      assert forall i :: 0 <= i < |s.loops| ==> s.loops[i] in s.loops && s'.loops[i].b == s.loops[i].b;
    }
    forall u | u in s'.threads ensures ThreadOk(s', s'.threads[u]) {
      assert ThreadOk(s, s.threads[u]);
    }
  }

  lemma StepKeepsThreads(s: State, a: Action)
    requires Inv(s) && Enabled(s, a)
    ensures ThreadsOk(Apply(s, a))
  {
    match a
    case Call(_, name) => CallKeepsThreads(s, a);
    case AddLink(t, ok) => AddKeepsThreads(s, t, ok);
    case CheckIn(_) => SeenKeeps(s, a);
    case CheckOut(_) => SeenKeeps(s, a);
    case PutIn(_) => InsertKeepsThreads(s, a);
    case PutOut(_) => InsertKeepsThreads(s, a);
    case List(t) => ListKeepsThreads(s, t);
    case Put(t) => PutKeepsThreads(s, At(s, t).j);
    case _ => CallKeepsThreads(s, a);
  }

  lemma CallKeepsThreads(s: State, a: Action)
    requires Inv(s) && Enabled(s, a) && (a.Call? || a.Configure? || a.Return?)
    ensures ThreadsOk(Apply(s, a))
  {
    hide Counts, AllCovered, LoopsRun, LoopsOk;
    if a.Call? {
      BridgeNames(a.networkName, a.networkName);
    }
    hide BridgeNameForNetwork;
    var s' := Apply(s, a);
    forall u | u in s'.threads ensures ThreadOk(s', s'.threads[u]) {
      assert u != a.t ==> ThreadOk(s, s.threads[u]);
    }
  }

  lemma StepKeepsLoops(s: State, a: Action)
    requires Inv(s) && Enabled(s, a)
    ensures LoopsOk(Apply(s, a))
  {
    hide Counts, AllCovered, LoopsRun, BridgeNameForNetwork;
    var s' := Apply(s, a);
    if a.AddLink? && s'.links != s.links {
      assert forall j :: 0 <= j < |s.loops| ==> LoopOk(s', s.loops[j]);
    }
    if a.List? && s'.loops != s.loops {
      ExistingMembers(s.links);
      forall i | 0 <= i < |s.loops| ensures s.loops[i].b != s'.loops[|s.loops|].b && s.loops[i].b in s'.loops[|s.loops|].bridges {
        assert LoopOk(s, s.loops[i]) && s.loops[i] in s.loops;
      }
    }
    if a.Put? {
      PutKeepsLoops(s, At(s, a.t).j);
    }
  }

  lemma PutKeepsLoops(s: State, j: nat)
    requires LoopsOk(s) && j < |s.loops| && !Over(s.loops[j])
    ensures LoopsOk(PutOne(s, j))
  {
    var s' := PutOne(s, j);
    assert LoopOk(s, s.loops[j]);
    forall i | 0 <= i < |s'.loops| ensures LoopOk(s', s'.loops[i]) {
      assert LoopOk(s, s.loops[i]);
    }
  }

  lemma StepKeepsRun(s: State, a: Action)
    requires Inv(s) && Enabled(s, a)
    ensures LoopsRun(Apply(s, a))
  {
    hide Counts, AllCovered, LoopsOk, BridgeNameForNetwork, ThreadsOk;
    var s' := Apply(s, a);
    forall j | 0 <= j < |s'.loops| && !Over(s'.loops[j]) ensures exists t :: t in s'.threads && s'.threads[t] == Isolating(j) {
      if j < |s.loops| {
        assert !Over(s.loops[j]);
        var t :| t in s.threads && s.threads[t] == Isolating(j);
        assert t in s'.threads && s'.threads[t] == Isolating(j);
      } else {
        assert s'.threads[a.t] == Isolating(j);
      }
    }
  }

  // --- counting ---

  lemma {:induction false} TimesUpdate(loops: seq<Loop>, j: nat, l: Loop, r: Rule)
    requires j < |loops|
    ensures Times(loops[j := l], r) + (if Inserted(loops[j], r) then 1 else 0) == Times(loops, r) + if Inserted(l, r) then 1 else 0
    decreases |loops|
  {
    hide Inserted;
    var init, last := loops[..|loops| - 1], loops[|loops| - 1];
    if j < |init| {
      TimesUpdate(init, j, l, r);
      assert loops[j := l][..|loops| - 1] == init[j := l];
    } else {
      assert loops[j := l][..|loops| - 1] == init;
    }
  }

  lemma {:induction false} TimesPositive(loops: seq<Loop>, r: Rule)
    ensures Times(loops, r) >= 1 <==> exists j :: 0 <= j < |loops| && Inserted(loops[j], r)
  {
    hide Inserted;
    if loops != [] {
      var init, last := loops[..|loops| - 1], loops[|loops| - 1];
      TimesPositive(init, r);
      assert forall j :: 0 <= j < |init| ==> init[j] == loops[j];
      assert loops[|init|] == last;
    }
  }

  // One of the loops of bridge b has inserted r.
  predicate By(loops: seq<Loop>, b: Iface, r: Rule) {
    exists j :: 0 <= j < |loops| && loops[j].b == b && Inserted(loops[j], r)
  }

  // Only the loops of x and of y insert the rule between them, each once.
  lemma {:induction false} TimesBy(loops: seq<Loop>, x: Iface, y: Iface)
    requires x != y && forall i, j :: 0 <= i < j < |loops| ==> loops[i].b != loops[j].b
    ensures Times(loops, Drop(x, y)) ==
              (if By(loops, x, Drop(x, y)) then 1 else 0) + (if By(loops, y, Drop(x, y)) then 1 else 0)
  {
    var r := Drop(x, y);
    if loops != [] {
      var init, last := loops[..|loops| - 1], loops[|loops| - 1];
      TimesBy(init, x, y);
      InsertsOwn(last, x, y);
      hide Inserted;
      ByLast(loops, x, r);
      ByLast(loops, y, r);
    }
  }

  lemma ByLast(loops: seq<Loop>, b: Iface, r: Rule)
    requires loops != []
    ensures By(loops, b, r) <==>
              By(loops[..|loops| - 1], b, r) || (loops[|loops| - 1].b == b && Inserted(loops[|loops| - 1], r))
    ensures (forall i, j :: 0 <= i < j < |loops| ==> loops[i].b != loops[j].b) && loops[|loops| - 1].b == b ==>
              !By(loops[..|loops| - 1], b, r)
  {
    hide Inserted;
    var init := loops[..|loops| - 1];
    assert forall j :: 0 <= j < |init| ==> init[j] == loops[j];
  }

  lemma InsertsOwn(l: Loop, x: Iface, y: Iface)
    ensures Inserted(l, Drop(x, y)) ==> x != y && (l.b == x || l.b == y)
    ensures Over(l) && l.b == x && x != y ==> (Inserted(l, Drop(x, y)) <==> y in l.bridges)
    ensures Over(l) && l.b == y && x != y ==> (Inserted(l, Drop(x, y)) <==> x in l.bridges)
  {
  }

  // What one command of the loop adds.
  lemma PutInserts(s: State, j: nat, r: Rule)
    requires j < |s.loops| && LoopOk(s, s.loops[j]) && !Over(s.loops[j])
    ensures var l, s' := s.loops[j], PutOne(s, j);
            if s'.ours == s.ours then Inserted(s'.loops[j], r) == Inserted(l, r)
            else IsDrop(s'.ours[0]) && s'.ours == [s'.ours[0]] + s.ours
                 && !Inserted(l, s'.ours[0]) && (Inserted(s'.loops[j], r) <==> Inserted(l, r) || r == s'.ours[0])
  {
    var l, s' := s.loops[j], PutOne(s, j);
    var l' := s'.loops[j];
    if s'.ours != s.ours {
      assert s'.ours[1..] == s.ours;
      assert l.bridges[l.k] == l'.bridges[l.k];
    }
  }

  lemma PutKeepsCounts(s: State, j: nat)
    requires Counts(s) && j < |s.loops| && LoopOk(s, s.loops[j]) && !Over(s.loops[j])
    ensures Counts(PutOne(s, j))
  {
    var s' := PutOne(s, j);
    PutInserts(s, j, Other(0));
    assert s'.ours != s.ours ==> multiset(s'.ours) == multiset{s'.ours[0]} + multiset(s.ours);
    forall r | IsDrop(r) ensures multiset(s'.ours)[r] == Times(s'.loops, r) {
      PutInserts(s, j, r);
      TimesUpdate(s.loops, j, s'.loops[j], r);
    }
  }

  lemma StepKeepsCounts(s: State, a: Action)
    requires Inv(s) && Enabled(s, a)
    ensures Counts(Apply(s, a))
  {
    hide AllCovered, LoopsRun, BridgeNameForNetwork, Inserted;
    var s' := Apply(s, a);
    match a
    case PutIn(t) => AcceptCounts(s, s', AcceptIn(At(s, t).b));
    case PutOut(t) => AcceptCounts(s, s', AcceptOut(At(s, t).b));
    case List(t) => ListKeepsCounts(s, t);
    case Put(t) => PutKeepsCounts(s, At(s, t).j);
    case _ =>
  }

  lemma ListKeepsCounts(s: State, t: Tid)
    requires Counts(s) && Enabled(s, List(t))
    ensures Counts(Apply(s, List(t)))
  {
    hide Inserted;
    var s' := Apply(s, List(t));
    if s'.loops != s.loops {
      var l := s'.loops[|s.loops|];
      assert s'.loops[..|s'.loops| - 1] == s.loops;
      forall r | IsDrop(r) ensures multiset(s'.ours)[r] == Times(s'.loops, r) {
        NoneInserted(l);
        assert multiset(s.ours)[r] == Times(s.loops, r);
      }
    }
  }

  lemma NoneInserted(l: Loop)
    requires l.k == 0 && !l.half
    ensures forall r :: !Inserted(l, r)
  {
  }

  lemma AcceptCounts(s: State, s': State, r: Rule)
    requires Counts(s) && IsAccept(r) && s'.loops == s.loops
    requires s'.ours == s.ours || (r !in s.ours && s'.ours == [r] + s.ours)
    ensures Counts(s')
  {
    assert s'.ours != s.ours ==> multiset(s'.ours) == multiset{r} + multiset(s.ours);
  }

  // --- who is on top ---

  lemma TopDecides(s: State, r: Rule, x: Iface, y: Iface)
    ensures Decider(OnTop(s, r).ours, x, y) == if Hits(r, x, y) then Some(r) else Decider(s.ours, x, y)
  {
  }

  lemma AcceptKeepsCover(s: State, s': State, r: Rule)
    requires AllCovered(s) && s'.loops == s.loops
    requires s'.ours == s.ours || s'.ours == OnTop(s, r).ours
    requires forall x, y :: (exists i, j :: 0 <= i < |s.loops| && 0 <= j < |s.loops| && s.loops[i].b == x && s.loops[j].b == y) ==> !Hits(r, x, y)
    ensures AllCovered(s')
  {
    forall i, j, p | 0 <= i < j < |s.loops| && 0 <= p < |s.loops[j].bridges| && s.loops[j].bridges[p] == s.loops[i].b
      ensures Covered(s', i, j, p)
    {
      assert Covered(s, i, j, p);
      TopDecides(s, r, s.loops[i].b, s.loops[j].b);
      TopDecides(s, r, s.loops[j].b, s.loops[i].b);
    }
  }

  lemma PutKeepsCover(s: State, j0: nat)
    requires AllCovered(s) && LoopsOk(s) && j0 < |s.loops| && !Over(s.loops[j0])
    ensures AllCovered(PutOne(s, j0))
  {
    var s' := PutOne(s, j0);
    var l := s.loops[j0];
    assert LoopOk(s, l);
    var o := l.bridges[l.k];
    forall i, j, p | 0 <= i < j < |s'.loops| && 0 <= p < |s'.loops[j].bridges| && s'.loops[j].bridges[p] == s'.loops[i].b
      ensures Covered(s', i, j, p)
    {
      assert Covered(s, i, j, p) && LoopOk(s, s.loops[j]);
      var x, y := s.loops[i].b, s.loops[j].b;
      var r := if l.half then Drop(o, l.b) else Drop(l.b, o);
      TopDecides(s, r, x, y);
      TopDecides(s, r, y, x);
    }
  }

  lemma StepKeepsCover(s: State, a: Action)
    requires Inv(s) && Enabled(s, a)
    ensures AllCovered(Apply(s, a))
  {
    hide Counts, LoopsRun, BridgeNameForNetwork, Decider, ExistingBridges;
    var s' := Apply(s, a);
    match a
    case PutIn(t) =>
      assert ThreadOk(s, s.threads[t]);
      AcceptKeepsCover(s, s', AcceptIn(At(s, t).b));
    case PutOut(t) =>
      assert ThreadOk(s, s.threads[t]);
      AcceptKeepsCover(s, s', AcceptOut(At(s, t).b));
    case Put(t) => PutKeepsCover(s, At(s, t).j);
    case _ => ListKeepsCover(s, s');
  }

  lemma ListKeepsCover(s: State, s': State)
    requires AllCovered(s) && s'.ours == s.ours
    requires s'.loops == s.loops || (|s'.loops| == |s.loops| + 1 && s'.loops[..|s.loops|] == s.loops)
    requires s'.loops != s.loops ==> s'.loops[|s.loops|].k == 0 && !s'.loops[|s.loops|].half
    ensures AllCovered(s')
  {
    hide Decider;
    forall i, j, p | 0 <= i < j < |s'.loops| && 0 <= p < |s'.loops[j].bridges| && s'.loops[j].bridges[p] == s'.loops[i].b
      ensures Covered(s', i, j, p)
    {
      if j < |s.loops| {
        assert s'.loops[i] == s.loops[i] && s'.loops[j] == s.loops[j];
        assert Covered(s, i, j, p);
      }
    }
  }

  lemma StepKeepsInv(s: State, a: Action)
    requires Inv(s) && Enabled(s, a)
    ensures Inv(Apply(s, a))
  {
    StepKeepsThreads(s, a);
    StepKeepsLoops(s, a);
    StepKeepsRun(s, a);
    StepKeepsCounts(s, a);
    StepKeepsCover(s, a);
    hide ThreadsOk, LoopsOk, LoopsRun, Counts, AllCovered, BridgeNameForNetwork;
  }

  lemma {:induction false} RunKeepsInv(s: State, acts: seq<Action>)
    requires Inv(s)
    ensures Inv(Exec(s, acts))
    decreases |acts|
  {
    hide Inv, Apply, Enabled;
    if acts != [] {
      if Enabled(s, acts[0]) {
        StepKeepsInv(s, acts[0]);
        RunKeepsInv(Apply(s, acts[0]), acts[1..]);
      } else {
        RunKeepsInv(s, acts[1..]);
      }
    }
  }

  lemma ReachableIsInv(s: State)
    requires Reachable(s)
    ensures Inv(s)
  {
    var s0, acts :| Init(s0) && s == Exec(s0, acts);
    assert Counts(s0) && Clean(s0.base) && LoopsOk(s0);
    RunKeepsInv(s0, acts);
  }

  // --- once creations have returned ---

  // The creation of b, of a custom network, has run to its end.
  predicate Finished(s: State, b: Iface) {
    exists j :: 0 <= j < |s.loops| && s.loops[j].b == b && Over(s.loops[j])
  }

  lemma OursDecides(s: State, x: Iface, y: Iface, foreign: nat -> bool)
    requires Inv(s) && Decider(s.ours, x, y).Some?
    ensures FirstMatch(Chain(s), x, y, foreign) == Decider(s.ours, x, y)
  {
    hide ThreadsOk, LoopsOk, LoopsRun, AllCovered;
    DeciderIsFirst(s.ours, x, y, foreign);
    FirstMatchSplit(s.ours, s.base, x, y, foreign);
  }

  // However creations overlap, and whatever others are still running: once the creations of two
  // custom networks have run to their ends, packets between their bridges are dropped both ways.
  lemma ApartOnceReturned(s: State, x: Iface, y: Iface, foreign: nat -> bool)
    requires Reachable(s) && x != y && Finished(s, x) && Finished(s, y)
    ensures FirstMatch(Chain(s), x, y, foreign) == Some(Drop(x, y))
    ensures FirstMatch(Chain(s), y, x, foreign) == Some(Drop(y, x))
  {
    hide Reachable;
    ReachableIsInv(s);
    var i :| 0 <= i < |s.loops| && s.loops[i].b == x && Over(s.loops[i]);
    var j :| 0 <= j < |s.loops| && s.loops[j].b == y && Over(s.loops[j]);
    if i < j {
      LaterCovers(s, i, j);
    } else {
      LaterCovers(s, j, i);
    }
    OursDecides(s, x, y, foreign);
    OursDecides(s, y, x, foreign);
  }

  lemma LaterCovers(s: State, i: nat, j: nat)
    requires Inv(s) && i < j < |s.loops| && Over(s.loops[j])
    ensures Decider(s.ours, s.loops[i].b, s.loops[j].b) == Some(Drop(s.loops[i].b, s.loops[j].b))
    ensures Decider(s.ours, s.loops[j].b, s.loops[i].b) == Some(Drop(s.loops[j].b, s.loops[i].b))
  {
    hide ThreadsOk, LoopsRun, Counts, Decider;
    var p :| 0 <= p < |s.loops[j].bridges| && s.loops[j].bridges[p] == s.loops[i].b;
    assert Covered(s, i, j, p);
  }

  // --- removing a bridge after creations that overlapped ---

  // The creations of b and of o each listed the other's bridge.
  predicate Mutual(s: State, b: Iface, o: Iface) {
    && b != o
    && (exists i, j :: 0 <= i < |s.loops| && 0 <= j < |s.loops|
          && s.loops[i].b == b && s.loops[j].b == o && o in s.loops[i].bridges && b in s.loops[j].bridges)
  }

  function Less(n: nat): nat { if n == 0 then 0 else n - 1 }

  lemma {:induction false} DeleteCount(c: seq<Rule>, d: Rule, r: Rule)
    ensures multiset(DeleteFirst(c, d))[r] == if r == d then Less(multiset(c)[r]) else multiset(c)[r]
  {
    if c != [] {
      assert c == [c[0]] + c[1..];
      if c[0] != d {
        DeleteCount(c[1..], d, r);
      }
    }
  }

  lemma {:induction false} CleanupCount(c: seq<Rule>, b: Iface, bridges: seq<Iface>, k: nat, r: Rule)
    requires k <= |bridges| && forall p, q :: 0 <= p < q < |bridges| ==> bridges[p] != bridges[q]
    ensures multiset(Cleanup(c, b, bridges, k))[r] ==
              if r in DropsWith(b, bridges, k) then Less(multiset(c)[r]) else multiset(c)[r]
  {
    hide DeleteFirst;
    if k > 0 {
      CleanupCount(c, b, bridges, k - 1, r);
      var o := bridges[k - 1];
      if o != b {
        var c' := Cleanup(c, b, bridges, k - 1);
        DeleteCount(c', Drop(b, o), r);
        DeleteCount(DeleteFirst(c', Drop(b, o)), Drop(o, b), r);
        DropsWithMembers(b, bridges, k - 1, r);
      }
    }
  }

  function AfterRemoval(s: State, networkName: string, deleted: bool): seq<Rule> {
    Removed(Net(Chain(s), s.links, {}, []), networkName, deleted).chain
  }

  // Removal deletes one of each rule it asks for.
  lemma RemovalCount(s: State, networkName: string, deleted: bool, r: Rule)
    requires LoopsOk(s)
    ensures var b := BridgeNameForNetwork(networkName);
            multiset(AfterRemoval(s, networkName, deleted))[r] ==
              if r == AcceptIn(b) || r == AcceptOut(b) || r in DropsWith(b, ExistingBridges(s.links), |ExistingBridges(s.links)|)
              then Less(multiset(Chain(s))[r]) else multiset(Chain(s))[r]
  {
    hide BridgeNameForNetwork, DeleteFirst, Cleanup;
    var b, bridges := BridgeNameForNetwork(networkName), ExistingBridges(s.links);
    ExistingMembers(s.links);
    CleanupCount(Chain(s), b, bridges, |bridges|, r);
    var c := Cleanup(Chain(s), b, bridges, |bridges|);
    DeleteCount(c, AcceptIn(b), r);
    DeleteCount(DeleteFirst(c, AcceptIn(b)), AcceptOut(b), r);
    DropsWithMembers(b, bridges, |bridges|, r);
  }

  // How often the rule between b and another bridge is there.
  lemma RuleCount(s: State, x: Iface, y: Iface)
    requires Inv(s) && Quiet(s) && x != y
    ensures multiset(s.ours)[Drop(x, y)] <= 2
    ensures multiset(s.ours)[Drop(x, y)] == 2 <==> Mutual(s, x, y)
    ensures multiset(s.ours)[Drop(x, y)] >= 1 ==> IsJoblet(x) && IsJoblet(y) && x in s.links && y in s.links
  {
    hide ThreadsOk, AllCovered, Inserted;
    var r := Drop(x, y);
    assert multiset(s.ours)[r] == Times(s.loops, r);
    TimesBy(s.loops, x, y);
    forall j | 0 <= j < |s.loops|
      ensures Over(s.loops[j]) && LoopOk(s, s.loops[j])
      ensures s.loops[j].b == x ==> (Inserted(s.loops[j], r) <==> y in s.loops[j].bridges)
      ensures s.loops[j].b == y ==> (Inserted(s.loops[j], r) <==> x in s.loops[j].bridges)
    {
      InsertsOwn(s.loops[j], x, y);
    }
  }

  lemma MutualBothWays(s: State, x: Iface, y: Iface)
    ensures Mutual(s, x, y) <==> Mutual(s, y, x)
    ensures Mutual(s, x, y) ==> x != y
  {
  }

  // After every creation has returned, RemoveBridge leaves of the rules that name its bridge exactly
  // one pair for each bridge such that the two creations listed each other: their pair is in twice.
  lemma RemovalLeavesExactly(s: State, networkName: string, deleted: bool, r: Rule)
    requires Reachable(s) && Quiet(s) && Names(r, BridgeNameForNetwork(networkName))
    ensures multiset(AfterRemoval(s, networkName, deleted))[r] ==
              if exists o :: Mutual(s, BridgeNameForNetwork(networkName), o)
                   && (r == Drop(BridgeNameForNetwork(networkName), o) || r == Drop(o, BridgeNameForNetwork(networkName)))
              then 1 else 0
  {
    var b := BridgeNameForNetwork(networkName);
    BridgeNames(networkName, networkName);
    hide BridgeNameForNetwork, Reachable, AfterRemoval, Mutual;
    ReachableIsInv(s);
    RemovalCount(s, networkName, deleted, r);
    var bridges := ExistingBridges(s.links);
    DropsWithMembers(b, bridges, |bridges|, r);
    ExistingMembers(s.links);
    CountsOf(s, b, r);
    if IsDrop(r) {
      var o := if r.inIf.value == b then r.outIf.value else r.inIf.value;
      assert r == Drop(r.inIf.value, r.outIf.value) && (r == Drop(b, o) || r == Drop(o, b));
      MutualBothWays(s, b, o);
      forall x | Mutual(s, b, x) && (r == Drop(b, x) || r == Drop(x, b)) ensures x == o {
        MutualBothWays(s, b, x);
      }
    }
  }

  // A rule that names a bridge is joblet's own.
  lemma CountsOf(s: State, b: Iface, r: Rule)
    requires Inv(s) && Quiet(s) && IsJoblet(b) && Names(r, b)
    ensures multiset(Chain(s))[r] == multiset(s.ours)[r]
    ensures !IsDrop(r) ==> multiset(s.ours)[r] <= if r == AcceptIn(b) || r == AcceptOut(b) then 1 else 0
    ensures IsDrop(r) ==>
              var o := if r.inIf.value == b then r.outIf.value else r.inIf.value;
              && (o == b ==> multiset(s.ours)[r] == 0)
              && (o != b ==> multiset(s.ours)[r] <= 2 && (multiset(s.ours)[r] == 2 <==> Mutual(s, r.inIf.value, r.outIf.value)))
              && (multiset(s.ours)[r] >= 1 ==> IsJoblet(o) && o in s.links)
  {
    hide ThreadsOk, LoopsRun, AllCovered, LoopsOk, Mutual, Inserted;
    assert NamesJoblet(r) && r !in s.base;
    assert multiset(Chain(s)) == multiset(s.ours) + multiset(s.base);
    if IsDrop(r) {
      var x, y := r.inIf.value, r.outIf.value;
      if x != y {
        RuleCount(s, x, y);
      } else {
        TimesPositive(s.loops, r);
        forall j | 0 <= j < |s.loops| ensures !Inserted(s.loops[j], r) {
          InsertsOwn(s.loops[j], x, y);
        }
        assert multiset(s.ours)[r] == Times(s.loops, r);
      }
    } else if r in s.ours {
      assert IsAccept(r);
    }
  }

  // A creation whose command fails returns and leaves things as they are: without its link, or with it
  // and no rules. One that finds its bridge there returns at once.
  lemma FailuresReturn(s: State, t: Tid, networkName: string)
    ensures At(s, t).Idle? && BridgeNameForNetwork(networkName) in s.links ==> Apply(s, Call(t, networkName)) == s
    ensures At(s, t).Absent? ==> Apply(s, AddLink(t, false)) == s.(threads := s.threads[t := Idle])
    ensures At(s, t).Absent? && At(s, t).b in s.links ==> Apply(s, AddLink(t, true)) == s.(threads := s.threads[t := Idle])
    ensures At(s, t).Linked? ==> Apply(s, Configure(t, false)) == s.(threads := s.threads[t := Idle])
  {
  }

  // --- one creation after the other, and two at once ---

  lemma {:induction false} ExecAppend(s: State, acts: seq<Action>, a: Action)
    ensures Exec(s, acts + [a]) == var s1 := Exec(s, acts); if Enabled(s1, a) then Apply(s1, a) else s1
    decreases |acts|
  {
    hide Enabled, Apply;
    if acts == [] {
      assert (acts + [a])[1..] == [];
    } else {
      assert (acts + [a])[1..] == acts[1..] + [a];
      ExecAppend(if Enabled(s, acts[0]) then Apply(s, acts[0]) else s, acts[1..], a);
    }
  }

  lemma ReachStep(s: State, a: Action) returns (s': State)
    requires Reachable(s) && Enabled(s, a)
    ensures Reachable(s') && s' == Apply(s, a)
  {
    hide Enabled, Apply;
    var s0, acts :| Init(s0) && s == Exec(s0, acts);
    ExecAppend(s0, acts, a);
    s' := Apply(s, a);
  }

  // A creation up to its ACCEPT rules, undisturbed.
  lemma Accepting(s: State, t: Tid, networkName: string) returns (s': State)
    requires Reachable(s) && At(s, t).Idle? && BridgeNameForNetwork(networkName) !in s.links
    ensures Reachable(s') && s'.threads == s.threads[t := OutDone(BridgeNameForNetwork(networkName))]
    ensures s'.base == s.base && s'.loops == s.loops && s'.links == s.links + [BridgeNameForNetwork(networkName)]
    ensures Chain(s') == WithAccepts(Chain(s), BridgeNameForNetwork(networkName))
  {
    hide Reachable, BridgeNameForNetwork;
    var b := BridgeNameForNetwork(networkName);
    s' := ReachStep(s, Call(t, networkName));
    s' := ReachStep(s', AddLink(t, true));
    s' := ReachStep(s', Configure(t, true));
    assert s' == s.(links := s.links + [b], threads := s.threads[t := Ready(b)]);
    s' := InAccepted(s', t, b);
    s' := OutAccepted(s', t, b);
  }

  lemma InAccepted(s: State, t: Tid, b: Iface) returns (s': State)
    requires Reachable(s) && At(s, t) == Ready(b)
    ensures Reachable(s') && s' == s.(threads := s.threads[t := InDone(b)], ours := s'.ours)
    ensures Chain(s') == InsertMissing(Chain(s), AcceptIn(b))
  {
    hide Reachable;
    s' := ReachStep(s, CheckIn(t));
    s' := ReachStep(s', PutIn(t));
    assert ([AcceptIn(b)] + s.ours) + s.base == [AcceptIn(b)] + Chain(s);
  }

  lemma OutAccepted(s: State, t: Tid, b: Iface) returns (s': State)
    requires Reachable(s) && At(s, t) == InDone(b)
    ensures Reachable(s') && s' == s.(threads := s.threads[t := OutDone(b)], ours := s'.ours)
    ensures Chain(s') == InsertMissing(Chain(s), AcceptOut(b))
  {
    hide Reachable;
    s' := ReachStep(s, CheckOut(t));
    s' := ReachStep(s', PutOut(t));
    assert ([AcceptOut(b)] + s.ours) + s.base == [AcceptOut(b)] + Chain(s);
  }

  // The loop of a thread from its present bridge to the end, undisturbed.
  lemma {:induction false} Looping(s: State, t: Tid, chain: seq<Rule>) returns (s': State)
    requires Reachable(s) && At(s, t).Isolating? && At(s, t).j < |s.loops| && LoopOk(s, s.loops[At(s, t).j])
    requires var l := s.loops[At(s, t).j]; !l.half && Chain(s) == Isolate(chain, l.b, l.bridges, l.k)
    ensures Reachable(s') && s'.threads == s.threads[t := Idle] && s'.base == s.base && s'.links == s.links
    ensures var j := At(s, t).j; var l := s.loops[j];
            Chain(s') == Isolate(chain, l.b, l.bridges, |l.bridges|) && s'.loops == s.loops[j := l.(k := |l.bridges|)]
    decreases |s.loops[At(s, t).j].bridges| - s.loops[At(s, t).j].k
  {
    hide Reachable;
    var j := At(s, t).j;
    var l := s.loops[j];
    if Over(l) {
      s' := ReachStep(s, Return(t));
      assert s'.loops == s.loops[j := l];
    } else {
      var o := l.bridges[l.k];
      s' := ReachStep(s, Put(t));
      if o != l.b {
        s' := ReachStep(s', Put(t));
        assert Chain(s') == Insert(Insert(Chain(s), Drop(l.b, o)), Drop(o, l.b));
      }
      assert s'.loops[j] == l.(k := l.k + 1);
      var s1 := s';
      s' := Looping(s1, t, chain);
      assert s'.loops == s.loops[j := l.(k := |l.bridges|)];
    }
  }

  // A creation nothing overlaps does what Firewall.Ensured says.
  lemma CreationAlone(s: State, t: Tid, networkName: string) returns (s': State)
    requires Reachable(s) && At(s, t).Idle? && BridgeNameForNetwork(networkName) !in s.links
    ensures Reachable(s') && s'.threads == s.threads[t := Idle] && s'.base == s.base
    ensures var n' := Ensured(Net(Chain(s), s.links, {}, []), networkName, Complete);
            Chain(s') == n'.chain && s'.links == n'.links
  {
    var b := BridgeNameForNetwork(networkName);
    BridgeNames(networkName, networkName);
    hide Reachable, BridgeNameForNetwork, WithAccepts, ExistingBridges, Isolate;
    s' := Accepting(s, t, networkName);
    var c := Chain(s');
    s' := ReachStep(s', List(t));
    if networkName != "bridge" {
      ListedOk(s', |s.loops|);
      IsolateNone(c, b, s'.loops[|s.loops|].bridges);
      s' := Looping(s', t, c);
    }
  }

  lemma ListedOk(s: State, j: nat)
    requires Reachable(s) && j < |s.loops|
    ensures LoopOk(s, s.loops[j])
  {
    ReachableIsInv(s);
  }

  lemma IsolateNone(chain: seq<Rule>, b: Iface, bridges: seq<Iface>)
    ensures Isolate(chain, b, bridges, 0) == chain
  {
  }

  // A thread that is about to list the bridges does so.
  lemma Listing(s: State, t: Tid, b: Iface) returns (s': State)
    requires Reachable(s) && At(s, t) == OutDone(b) && b != DEFAULT_BRIDGE
    ensures Reachable(s') && s' == s.(threads := s.threads[t := Isolating(|s.loops|)],
                                      loops := s.loops + [Loop(b, ExistingBridges(s.links), 0, false)])
  {
    hide Reachable;
    s' := ReachStep(s, List(t));
  }

  // A thread that has just listed the bridges goes through its loop.
  lemma Returning(s: State, t: Tid, j: nat) returns (s': State)
    requires Reachable(s) && At(s, t) == Isolating(j) && j < |s.loops| && s.loops[j].k == 0 && !s.loops[j].half
    ensures Reachable(s') && s'.threads == s.threads[t := Idle] && s'.links == s.links
    ensures s'.loops == s.loops[j := s.loops[j].(k := |s.loops[j].bridges|)]
  {
    ListedOk(s, j);
    IsolateNone(Chain(s), s.loops[j].b, s.loops[j].bridges);
    hide Reachable, Isolate;
    s' := Looping(s, t, Chain(s));
  }

  lemma BothReturn(s: State, a: Iface, b: Iface) returns (s': State)
    requires Reachable(s) && s.threads == map[0 := OutDone(a), 1 := OutDone(b)] && s.loops == [] && s.links == [a, b]
    requires a != b && a != DEFAULT_BRIDGE && b != DEFAULT_BRIDGE && IsJoblet(a) && IsJoblet(b)
    ensures Reachable(s') && Quiet(s') && Mutual(s', a, b)
  {
    ExistingMembers(s.links);
    hide Reachable, ExistingBridges, IsJoblet;
    s' := Listing(s, 0, a);
    s' := Listing(s', 1, b);
    s' := Returning(s', 0, 0);
    s' := Returning(s', 1, 1);
    assert s'.loops[0].b == a && s'.loops[1].b == b && b in s'.loops[0].bridges && a in s'.loops[1].bridges;
  }

  lemma BothAccept(m: string, n: string) returns (s: State)
    requires BridgeNameForNetwork(m) != BridgeNameForNetwork(n)
    ensures Reachable(s) && s.threads == map[0 := OutDone(BridgeNameForNetwork(m)), 1 := OutDone(BridgeNameForNetwork(n))]
    ensures s.loops == [] && s.links == [BridgeNameForNetwork(m), BridgeNameForNetwork(n)]
  {
    hide BridgeNameForNetwork, WithAccepts;
    s := State([], [], [], map[], []);
    assert Reachable(s) by { assert Init(s) && s == Exec(s, []); }
    hide Reachable;
    s := Accepting(s, 0, m);
    s := Accepting(s, 1, n);
  }

  // Two creations that both add their link before either lists: removing the one bridge leaves a
  // pair of rules behind, for good.
  lemma OverlapLeavesRules(m: string, n: string)
    requires BridgeNameForNetwork(m) != BridgeNameForNetwork(n) && m != "bridge" && n != "bridge"
    ensures exists s :: Reachable(s) && Quiet(s)
              && Drop(BridgeNameForNetwork(m), BridgeNameForNetwork(n)) in AfterRemoval(s, m, true)
  {
    BridgeNames(m, m);
    BridgeNames(n, n);
    hide BridgeNameForNetwork, Reachable, AfterRemoval;
    var a, b := BridgeNameForNetwork(m), BridgeNameForNetwork(n);
    var s := BothAccept(m, n);
    s := BothReturn(s, a, b);
    RemovalLeavesExactly(s, m, true, Drop(a, b));
    assert multiset(AfterRemoval(s, m, true))[Drop(a, b)] == 1;
  }

  // --- the default bridge ---

  ghost predicate KeptApart(s: State, x: Iface, y: Iface) {
    Decider(s.ours, x, y) == Some(Drop(x, y)) && Decider(s.ours, y, x) == Some(Drop(y, x))
  }

  // An ACCEPT rule of x or of y goes in.
  predicate Accepts(s: State, a: Action, x: Iface, y: Iface)
    requires Enabled(s, a)
  {
    (a.PutIn? || a.PutOut?) && !At(s, a.t).found && (At(s, a.t).b == x || At(s, a.t).b == y)
  }

  // Two bridges that are kept apart stay so with every command but one: an ACCEPT rule of either
  // going in late, on top. A bridge that isolates has its ACCEPT rules in before it lists the others,
  // the default one need not.
  lemma ApartUntilAccepted(s: State, a: Action, x: Iface, y: Iface)
    requires Enabled(s, a) && x != y && KeptApart(s, x, y)
    ensures KeptApart(Apply(s, a), x, y) <==> !Accepts(s, a, x, y)
  {
    hide BridgeNameForNetwork, ExistingBridges, Decider;
    match a
    case PutIn(t) =>
      TopDecides(s, AcceptIn(At(s, t).b), x, y);
      TopDecides(s, AcceptIn(At(s, t).b), y, x);
    case PutOut(t) =>
      TopDecides(s, AcceptOut(At(s, t).b), x, y);
      TopDecides(s, AcceptOut(At(s, t).b), y, x);
    case Put(t) =>
      var l := s.loops[At(s, t).j];
      var r := if l.half then Drop(l.bridges[l.k], l.b) else Drop(l.b, l.bridges[l.k]);
      TopDecides(s, r, x, y);
      TopDecides(s, r, y, x);
    case _ =>
  }

  // So overlapping loses what the order of whole operations gives: a network's bridge that listed
  // the default one, and has its DROP rules for it in, ends up taking traffic from it.
  lemma DefaultMayOpen(m: string, foreign: nat -> bool)
    requires m != "bridge"
    ensures exists s :: Reachable(s) && Quiet(s) && Finished(s, BridgeNameForNetwork(m))
              && Drop(DEFAULT_BRIDGE, BridgeNameForNetwork(m)) in Chain(s)
              && FirstMatch(Chain(s), DEFAULT_BRIDGE, BridgeNameForNetwork(m), foreign) == Some(AcceptIn(DEFAULT_BRIDGE))
  {
    BridgeNames(m, m);
    hide BridgeNameForNetwork, Reachable, FirstMatch;
    var s := DefaultSeen();
    s := CustomReturns(s, m);
    s := DefaultReturns(s, BridgeNameForNetwork(m), foreign);
  }

  // A creation runs to its end while the default bridge's stands still.
  lemma CustomReturns(s: State, m: string) returns (s': State)
    requires Reachable(s) && s.threads == map[0 := InSeen(DEFAULT_BRIDGE, false)] && s.links == [DEFAULT_BRIDGE] && s.loops == []
    requires m != "bridge"
    ensures Reachable(s') && s'.threads == map[0 := InSeen(DEFAULT_BRIDGE, false), 1 := Idle]
    ensures Finished(s', BridgeNameForNetwork(m)) && Drop(DEFAULT_BRIDGE, BridgeNameForNetwork(m)) in s'.ours
  {
    BridgeNames(m, m);
    var b := BridgeNameForNetwork(m);
    assert IsJoblet(DEFAULT_BRIDGE);
    hide BridgeNameForNetwork, Reachable, WithAccepts, IsJoblet;
    s' := Accepting(s, 1, m);
    ExistingMembers(s'.links);
    hide ExistingBridges;
    s' := Listing(s', 1, b);
    s' := Returning(s', 1, 0);
    DropIsIn(s', b, DEFAULT_BRIDGE);
  }

  // The default bridge's creation has asked for its first ACCEPT rule and not found it.
  lemma DefaultSeen() returns (s: State)
    ensures Reachable(s) && s.threads == map[0 := InSeen(DEFAULT_BRIDGE, false)] && s.links == [DEFAULT_BRIDGE] && s.loops == []
  {
    hide BridgeNameForNetwork;
    assert BridgeNameForNetwork("bridge") == DEFAULT_BRIDGE by { BridgeNames("bridge", "bridge"); }
    s := State([], [], [], map[], []);
    assert Reachable(s) by { assert Init(s) && s == Exec(s, []); }
    hide Reachable;
    s := ReachStep(s, Call(0, "bridge"));
    s := ReachStep(s, AddLink(0, true));
    s := ReachStep(s, Configure(0, true));
    s := ReachStep(s, CheckIn(0));
  }

  // What a loop that is over has inserted is in the chain.
  lemma DropIsIn(s: State, b: Iface, o: Iface)
    requires Reachable(s) && |s.loops| == 1 && s.loops[0].b == b && Over(s.loops[0]) && o in s.loops[0].bridges && o != b
    ensures Drop(o, b) in s.ours
  {
    ReachableIsInv(s);
    InsertsOwn(s.loops[0], o, b);
    TimesPositive(s.loops, Drop(o, b));
    hide AllCovered, ThreadsOk, LoopsOk, LoopsRun, Inserted;
    assert multiset(s.ours)[Drop(o, b)] == Times(s.loops, Drop(o, b));
  }

  // The rest of the default bridge's creation.
  lemma DefaultReturns(s: State, b: Iface, foreign: nat -> bool) returns (s': State)
    requires Reachable(s) && s.threads == map[0 := InSeen(DEFAULT_BRIDGE, false), 1 := Idle]
    requires b != DEFAULT_BRIDGE && Drop(DEFAULT_BRIDGE, b) in s.ours
    ensures Reachable(s') && Quiet(s') && s'.loops == s.loops && Drop(DEFAULT_BRIDGE, b) in Chain(s')
    ensures FirstMatch(Chain(s'), DEFAULT_BRIDGE, b, foreign) == Some(AcceptIn(DEFAULT_BRIDGE))
  {
    hide Reachable;
    s' := ReachStep(s, PutIn(0));
    var c := Chain(s');
    assert c[0] == AcceptIn(DEFAULT_BRIDGE);
    s' := OutAccepted(s', 0, DEFAULT_BRIDGE);
    assert Chain(s') == c || (Chain(s')[1..] == c && Chain(s')[0] == AcceptOut(DEFAULT_BRIDGE));
    assert Drop(DEFAULT_BRIDGE, b) in c;
    s' := ReachStep(s', List(0));
  }
}
