/** What the FORWARD chain decides between joblet bridges after any run of network operations,
    and what removing a bridge undoes. */
module FirewallProofs {
  import opened Wrappers
  import opened Firewall

  // --- chains ---

  lemma {:induction false} FirstMatchSplit(m: seq<Rule>, base: seq<Rule>, i: Iface, o: Iface, foreign: nat -> bool)
    ensures FirstMatch(m + base, i, o, foreign) ==
              var r := FirstMatch(m, i, o, foreign); if r.Some? then r else FirstMatch(base, i, o, foreign)
  {
    if m == [] {
      assert m + base == base;
    } else {
      assert (m + base)[1..] == m[1..] + base;
      FirstMatchSplit(m[1..], base, i, o, foreign);
    }
  }

  predicate Hits(r: Rule, i: Iface, o: Iface) { r.Rule? && r.inIf in {None, Some(i)} && r.outIf in {None, Some(o)} }

  // The first match among rules that only look at interfaces.
  function Decider(c: seq<Rule>, i: Iface, o: Iface): Option<Rule> {
    if c == [] then None else if Hits(c[0], i, o) then Some(c[0]) else Decider(c[1..], i, o)
  }

  lemma {:induction false} DeciderIsFirst(c: seq<Rule>, i: Iface, o: Iface, foreign: nat -> bool)
    requires forall r :: r in c ==> r.Rule?
    ensures FirstMatch(c, i, o, foreign) == Decider(c, i, o)
  {
    if c != [] {
      DeciderIsFirst(c[1..], i, o, foreign);
    }
  }

  // Rules that name a third interface do not matter.
  lemma {:induction false} DeciderWithout(c: seq<Rule>, b: Iface, i: Iface, o: Iface)
    requires b != i && b != o
    ensures Decider(Without(c, b), i, o) == Decider(c, i, o)
  {
    if c != [] {
      DeciderWithout(c[1..], b, i, o);
    }
  }

  // If only r can match, then r decides exactly when it is there.
  lemma {:induction false} OnlyHit(c: seq<Rule>, r: Rule, i: Iface, o: Iface)
    requires forall x :: x in c && Hits(x, i, o) ==> x == r
    requires Hits(r, i, o)
    ensures Decider(c, i, o) == if r in c then Some(r) else None
  {
    if c != [] && c[0] != r {
      OnlyHit(c[1..], r, i, o);
    }
  }

  lemma {:induction false} NoHit(c: seq<Rule>, i: Iface, o: Iface)
    requires forall x :: x in c ==> !Hits(x, i, o)
    ensures Decider(c, i, o) == None
  {
    if c != [] {
      NoHit(c[1..], i, o);
    }
  }

  lemma {:induction false} WithoutMembers(c: seq<Rule>, b: Iface)
    ensures forall r :: r in Without(c, b) <==> r in c && !Names(r, b)
    ensures forall r :: multiset(Without(c, b))[r] <= multiset(c)[r]
  {
    if c != [] {
      WithoutMembers(c[1..], b);
      assert c == [c[0]] + c[1..];
    }
  }

  lemma {:induction false} WithoutSplit(m: seq<Rule>, base: seq<Rule>, b: Iface)
    ensures Without(m + base, b) == Without(m, b) + Without(base, b)
  {
    if m == [] {
      assert m + base == base;
    } else {
      assert (m + base)[1..] == m[1..] + base;
      WithoutSplit(m[1..], base, b);
    }
  }

  lemma {:induction false} WithoutNothing(c: seq<Rule>, b: Iface)
    requires forall r :: r in c ==> !Names(r, b)
    ensures Without(c, b) == c
  {
    if c != [] {
      WithoutNothing(c[1..], b);
    }
  }

  // The chain filtered of a set of rules.
  ghost function Minus(c: seq<Rule>, s: set<Rule>): seq<Rule> {
    if c == [] then [] else if c[0] in s then Minus(c[1..], s) else [c[0]] + Minus(c[1..], s)
  }

  lemma {:induction false} MinusNone(c: seq<Rule>, s: set<Rule>)
    requires forall r :: r in c ==> r !in s
    ensures Minus(c, s) == c
  {
    if c != [] {
      MinusNone(c[1..], s);
    }
  }

  // Deleting a rule that occurs at most once is filtering it.
  lemma {:induction false} DeleteIsMinus(c: seq<Rule>, s: set<Rule>, r: Rule)
    requires multiset(c)[r] <= 1
    ensures DeleteFirst(Minus(c, s), r) == Minus(c, s + {r})
  {
    if c != [] {
      assert c == [c[0]] + c[1..];
      if c[0] == r && r !in s {
        assert r !in c[1..];
        MinusSame(c[1..], s, r);
      } else {
        DeleteIsMinus(c[1..], s, r);
      }
    }
  }

  lemma {:induction false} MinusSame(c: seq<Rule>, s: set<Rule>, r: Rule)
    requires r !in c
    ensures Minus(c, s) == Minus(c, s + {r})
  {
    if c != [] {
      MinusSame(c[1..], s, r);
    }
  }

  lemma {:induction false} MinusIsWithout(c: seq<Rule>, s: set<Rule>, b: Iface)
    requires forall r :: r in c ==> (r in s <==> Names(r, b))
    ensures Minus(c, s) == Without(c, b)
  {
    if c != [] {
      MinusIsWithout(c[1..], s, b);
    }
  }

  // The rules cleanupNetworkIsolation asks to delete for the first k bridges.
  ghost function DropsWith(b: Iface, bridges: seq<Iface>, k: nat): set<Rule>
    requires k <= |bridges|
  {
    if k == 0 then {}
    else if bridges[k - 1] == b then DropsWith(b, bridges, k - 1)
    else DropsWith(b, bridges, k - 1) + {Drop(b, bridges[k - 1])} + {Drop(bridges[k - 1], b)}
  }

  lemma {:induction false} DropsWithMembers(b: Iface, bridges: seq<Iface>, k: nat, r: Rule)
    requires k <= |bridges|
    ensures r in DropsWith(b, bridges, k) <==>
              exists j :: 0 <= j < k && bridges[j] != b && (r == Drop(b, bridges[j]) || r == Drop(bridges[j], b))
  {
    if k > 0 {
      DropsWithMembers(b, bridges, k - 1, r);
    }
  }

  lemma {:induction false} CleanupIsMinus(c: seq<Rule>, b: Iface, bridges: seq<Iface>, k: nat)
    requires k <= |bridges| && forall r :: Names(r, b) ==> multiset(c)[r] <= 1
    ensures Cleanup(c, b, bridges, k) == Minus(c, DropsWith(b, bridges, k))
  {
    if k == 0 {
      MinusNone(c, {});
    } else {
      CleanupIsMinus(c, b, bridges, k - 1);
      var o := bridges[k - 1];
      if o != b {
        var s := DropsWith(b, bridges, k - 1);
        DeleteIsMinus(c, s, Drop(b, o));
        DeleteIsMinus(c, s + {Drop(b, o)}, Drop(o, b));
      }
    }
  }

  // --- bridges ---

  // Age of a bridge; a name without a bridge counts as younger than all.
  function Pos(links: seq<Iface>, b: Iface): (p: nat)
    ensures p <= |links| && (p < |links| <==> b in links) && (p < |links| ==> links[p] == b)
  {
    if links == [] then 0 else if links[0] == b then 0 else 1 + Pos(links[1..], b)
  }

  lemma {:induction false} PosAppend(links: seq<Iface>, b: Iface, x: Iface)
    requires b !in links
    ensures Pos(links + [b], x) == if x in links then Pos(links, x) else if x == b then |links| else |links| + 1
  {
    if links != [] {
      assert (links + [b])[1..] == links[1..] + [b];
      PosAppend(links[1..], b, x);
    }
  }

  predicate Distinct(links: seq<Iface>) {
    forall i, j :: 0 <= i < j < |links| && IsJoblet(links[i]) ==> links[i] != links[j]
  }

  lemma DistinctFirst(x: Iface, rest: seq<Iface>, u: seq<Iface>)
    requires Distinct([x] + rest) && Distinct(u) && forall i :: 0 <= i < |u| ==> u[i] in rest
    ensures Distinct([x] + u)
  {
    var l, m := [x] + rest, [x] + u;
    forall i, j | 0 <= i < j < |m| && IsJoblet(m[i]) ensures m[i] != m[j] {
      if i == 0 {
        var k :| 0 <= k < |rest| && rest[k] == u[j - 1];
        assert l[0] == x && l[k + 1] == m[j];
      } else {
        assert m[i] == u[i - 1] && m[j] == u[j - 1];
      }
    }
  }

  lemma PosFirst(x: Iface, rest: seq<Iface>, u: seq<Iface>)
    ensures forall y :: Pos([x] + rest, y) == (if y == x then 0 else 1 + Pos(rest, y))
    ensures forall y :: Pos([x] + u, y) == (if y == x then 0 else 1 + Pos(u, y))
  {
    assert ([x] + rest)[1..] == rest && ([x] + u)[1..] == u;
  }

  lemma DistinctRest(links: seq<Iface>)
    requires Distinct(links) && links != []
    ensures Distinct(links[1..]) && (IsJoblet(links[0]) ==> links[0] !in links[1..])
  {
    assert forall i :: 0 <= i < |links| - 1 ==> links[1..][i] == links[i + 1];
  }

  lemma {:induction false} UnlinkMembers(links: seq<Iface>, b: Iface)
    requires Distinct(links) && IsJoblet(b)
    ensures Distinct(Unlink(links, b))
    ensures forall x :: x in Unlink(links, b) <==> x in links && x != b
  {
    hide Distinct;
    if links != [] {
      DistinctRest(links);
      assert links == [links[0]] + links[1..];
      if links[0] != b {
        UnlinkMembers(links[1..], b);
        var u := Unlink(links[1..], b);
        assert forall i :: 0 <= i < |u| ==> u[i] in links[1..];
        DistinctFirst(links[0], links[1..], u);
      }
    }
  }

  lemma {:induction false} UnlinkOrder(links: seq<Iface>, b: Iface, x: Iface, y: Iface)
    requires x in links && y in links && x != b && y != b
    ensures Pos(Unlink(links, b), x) < Pos(Unlink(links, b), y) <==> Pos(links, x) < Pos(links, y)
  {
    var u := Unlink(links[1..], b);
    PosFirst(links[0], links[1..], u);
    assert links == [links[0]] + links[1..];
    hide Pos;
    if links[0] != b && x != links[0] && y != links[0] {
      UnlinkOrder(links[1..], b, x, y);
    } else if links[0] != b {
      UnlinkStays(links[1..], b, x);
      UnlinkStays(links[1..], b, y);
    }
  }

  lemma {:induction false} UnlinkStays(links: seq<Iface>, b: Iface, x: Iface)
    requires x != b
    ensures x in Unlink(links, b) <==> x in links
  {
    if links != [] {
      UnlinkStays(links[1..], b, x);
      assert links == [links[0]] + links[1..];
    }
  }

  lemma UnlinkKeeps(links: seq<Iface>, b: Iface)
    requires Distinct(links) && IsJoblet(b)
    ensures Distinct(Unlink(links, b))
    ensures forall x :: x in Unlink(links, b) <==> x in links && x != b
    ensures forall x, y :: x in links && y in links && x != b && y != b ==>
              (Pos(Unlink(links, b), x) < Pos(Unlink(links, b), y) <==> Pos(links, x) < Pos(links, y))
  {
    UnlinkMembers(links, b);
    forall x, y | x in links && y in links && x != b && y != b
      ensures Pos(Unlink(links, b), x) < Pos(Unlink(links, b), y) <==> Pos(links, x) < Pos(links, y)
    {
      UnlinkOrder(links, b, x, y);
    }
  }

  lemma {:induction false} ExistingMembers(links: seq<Iface>)
    ensures forall b :: b in ExistingBridges(links) <==> b in links && IsJoblet(b)
    ensures Distinct(links) ==> forall i, j :: 0 <= i < j < |ExistingBridges(links)| ==> ExistingBridges(links)[i] != ExistingBridges(links)[j]
  {
    if links != [] {
      var l := links[..|links| - 1];
      ExistingMembers(l);
      assert links == l + [links[|links| - 1]];
    }
  }

  // --- the invariant ---

  // A bridge that outlived its removal counts as made then.
  function Younger(n: Net, x: Iface, y: Iface): Iface {
    if Pos(n.ages, x) < Pos(n.ages, y) then y else x
  }

  predicate Isolates(n: Net, b: Iface) { b in n.configured && b != DEFAULT_BRIDGE }

  // The rule of joblet's own that decides from bridge x to bridge y, if there is one: whichever
  // bridge is younger decides if it was set up to its end, by dropping unless it is the default
  // one; otherwise the older one lets everything through if it was set up to its end.
  function Verdict(n: Net, x: Iface, y: Iface): Option<Rule> {
    if Isolates(n, Younger(n, x, y)) then Some(Drop(x, y))
    else if Younger(n, x, y) == y then
      if y in n.configured then Some(AcceptOut(y)) else if x in n.configured then Some(AcceptIn(x)) else None
    else
      if x in n.configured then Some(AcceptIn(x)) else if y in n.configured then Some(AcceptOut(y)) else None
  }

  predicate Bridges(x: Iface, y: Iface) { IsJoblet(x) && IsJoblet(y) && x != y }

  predicate NamesJoblet(r: Rule) {
    r.Rule? && ((r.inIf.Some? && IsJoblet(r.inIf.value)) || (r.outIf.Some? && IsJoblet(r.outIf.value)))
  }

  // A rule joblet adds: an ACCEPT for one interface, or a DROP between two bridges of which the
  // younger isolates.
  predicate OursOk(n: Net, r: Rule) {
    && r.Rule?
    && (match (r.inIf, r.outIf)
        case (Some(x), None) => r.target == ACCEPT && (IsJoblet(x) ==> x in n.configured)
        case (None, Some(y)) => r.target == ACCEPT && (IsJoblet(y) ==> y in n.configured)
        case (Some(x), Some(y)) =>
          r.target == DROP && Bridges(x, y) && x in n.ages && y in n.ages && Isolates(n, Younger(n, x, y))
        case (None, None) => false)
  }

  ghost predicate Clean(base: seq<Rule>) { forall r :: r in base ==> !NamesJoblet(r) }

  ghost predicate Verdicts(n: Net, m: seq<Rule>) {
    forall x, y :: Bridges(x, y) ==> Decider(m, x, y) == Verdict(n, x, y)
  }

  ghost predicate RulesOk(n: Net, m: seq<Rule>) {
    && (forall r :: r in m ==> OursOk(n, r))
    && (forall r :: NamesJoblet(r) ==> multiset(m)[r] <= 1)
  }

  // The ages are of joblet's bridges among the links.
  ghost predicate Agree(n: Net) { forall b :: b in n.ages <==> b in n.links && IsJoblet(b) }

  ghost predicate BridgesOk(n: Net, m: seq<Rule>) {
    && Distinct(n.links) && Distinct(n.ages) && Agree(n)
    && (forall b :: b in n.configured ==> b in n.ages && AcceptIn(b) in m && AcceptOut(b) in m)
  }

  // The chain is joblet's rules m on top of what was there before.
  ghost predicate Ok(n: Net, m: seq<Rule>, base: seq<Rule>) {
    n.chain == m + base && Clean(base) && BridgesOk(n, m) && RulesOk(n, m) && Verdicts(n, m)
  }

  // --- each operation keeps it ---

  // A rule for an interface that is not a bridge of joblet's decides nothing between bridges.
  lemma StrangerKeeps(n: Net, m: seq<Rule>, base: seq<Rule>, r: Rule)
    requires Ok(n, m, base) && OursOk(n, r) && !NamesJoblet(r)
    ensures Ok(n.(chain := Insert(n.chain, r)), [r] + m, base)
  {
    assert Insert(n.chain, r) == [r] + m + base;
    forall x, y | Bridges(x, y) ensures Decider([r] + m, x, y) == Verdict(n, x, y) {
      assert ([r] + m)[1..] == m;
    }
  }

  lemma AcceptsKeep(n: Net, m: seq<Rule>, base: seq<Rule>, v: Iface) returns (m': seq<Rule>)
    requires Ok(n, m, base) && !IsJoblet(v)
    ensures Ok(n.(chain := WithAccepts(n.chain, v)), m', base)
  {
    hide Ok;
    m' := m;
    var n' := n;
    if AcceptIn(v) !in n.chain {
      StrangerKeeps(n, m, base, AcceptIn(v));
      n', m' := n.(chain := Insert(n.chain, AcceptIn(v))), [AcceptIn(v)] + m;
    }
    if AcceptOut(v) !in n'.chain {
      StrangerKeeps(n', m', base, AcceptOut(v));
      m' := [AcceptOut(v)] + m';
    }
  }

  // A new bridge, youngest and not set up, changes no verdict.
  lemma LinkKeepsVerdicts(n: Net, n': Net, b: Iface, x: Iface, y: Iface)
    requires b !in n.ages && Bridges(x, y) && forall c :: c in n.configured ==> c in n.ages
    requires n'.ages == n.ages + [b] && n'.configured == n.configured
    ensures Verdict(n', x, y) == Verdict(n, x, y)
  {
    PosAppend(n.ages, b, x);
    PosAppend(n.ages, b, y);
  }

  // It may be listed anywhere among the links.
  lemma LinkKeeps(n: Net, m: seq<Rule>, base: seq<Rule>, b: Iface, links: seq<Iface>)
    requires Ok(n, m, base) && b !in n.links && IsJoblet(b)
    requires Distinct(links) && forall c :: c in links <==> c in n.links || c == b
    ensures Ok(n.(links := links, ages := n.ages + [b]), m, base)
  {
    var n' := n.(links := links, ages := n.ages + [b]);
    forall x, y | Bridges(x, y) ensures Decider(m, x, y) == Verdict(n', x, y) {
      LinkKeepsVerdicts(n, n', b, x, y);
    }
    forall r | r in m ensures OursOk(n', r) {
      assert OursOk(n, r);
      if r.inIf.Some? && r.outIf.Some? {
        PosAppend(n.ages, b, r.inIf.value);
        PosAppend(n.ages, b, r.outIf.value);
      }
    }
  }

  // --- setting up a bridge ---

  lemma {:induction false} IsolateSplit(m: seq<Rule>, base: seq<Rule>, b: Iface, bridges: seq<Iface>, k: nat)
    requires k <= |bridges|
    ensures Isolate(m + base, b, bridges, k) == Isolate(m, b, bridges, k) + base
  {
    if k > 0 {
      IsolateSplit(m, base, b, bridges, k - 1);
    }
  }

  // The new DROP rules decide between b and the bridges seen, and about nothing else.
  lemma {:induction false} IsolateDecides(m: seq<Rule>, b: Iface, bridges: seq<Iface>, k: nat, x: Iface, y: Iface)
    requires k <= |bridges| && x != y && forall o :: o in bridges ==> IsJoblet(o)
    ensures Decider(Isolate(m, b, bridges, k), x, y) ==
              if (x == b && y in bridges[..k]) || (y == b && x in bridges[..k]) then Some(Drop(x, y))
              else Decider(m, x, y)
  {
    if k > 0 {
      IsolateDecides(m, b, bridges, k - 1, x, y);
      assert bridges[..k] == bridges[..k - 1] + [bridges[k - 1]];
      var o := bridges[k - 1];
      if o != b {
        var c := Isolate(m, b, bridges, k - 1);
        assert Insert(c, Drop(b, o))[1..] == c;
        assert Insert(Insert(c, Drop(b, o)), Drop(o, b))[1..] == Insert(c, Drop(b, o));
      }
    }
  }

  lemma InsertTwo(c: seq<Rule>, p: Rule, q: Rule, r: Rule)
    requires p != q
    ensures multiset(Insert(Insert(c, p), q))[r] == multiset(c)[r] + if r == p || r == q then 1 else 0
  {
    assert multiset([q] + Insert(c, p)) == multiset([q]) + multiset(Insert(c, p));
    assert multiset([p] + c) == multiset([p]) + multiset(c);
  }

  // Each DROP rule is added once.
  lemma {:induction false} IsolateCounts(m: seq<Rule>, b: Iface, bridges: seq<Iface>, k: nat, r: Rule)
    requires k <= |bridges| && forall o :: o in bridges ==> IsJoblet(o)
    requires forall i, j :: 0 <= i < j < |bridges| ==> bridges[i] != bridges[j]
    ensures multiset(Isolate(m, b, bridges, k))[r] == multiset(m)[r] + if r in DropsWith(b, bridges, k) then 1 else 0
  {
    hide IsJoblet, Insert;
    if k > 0 {
      IsolateCounts(m, b, bridges, k - 1, r);
      var o := bridges[k - 1];
      assert IsJoblet(o);
      if o != b {
        InsertTwo(Isolate(m, b, bridges, k - 1), Drop(b, o), Drop(o, b), r);
        DropsWithMembers(b, bridges, k - 1, r);
        assert r in {Drop(b, o), Drop(o, b)} ==> r !in DropsWith(b, bridges, k - 1);
      }
    }
  }

  lemma {:induction false} IsolateWithout(m: seq<Rule>, b: Iface, bridges: seq<Iface>, k: nat)
    requires k <= |bridges|
    ensures Without(Isolate(m, b, bridges, k), b) == Without(m, b)
  {
    if k > 0 {
      IsolateWithout(m, b, bridges, k - 1);
      var o := bridges[k - 1];
      var c := Isolate(m, b, bridges, k - 1);
      assert Insert(c, Drop(b, o))[1..] == c;
      assert Insert(Insert(c, Drop(b, o)), Drop(o, b))[1..] == Insert(c, Drop(b, o));
    }
  }

  // What a full set-up of bridge b puts on top of joblet's rules m.
  ghost function SetUp(m: seq<Rule>, b: Iface, bridges: seq<Iface>): seq<Rule> {
    var c := [AcceptOut(b)] + ([AcceptIn(b)] + m);
    if b == DEFAULT_BRIDGE then c else Isolate(c, b, bridges, |bridges|)
  }

  lemma SetUpSplit(n: Net, m: seq<Rule>, base: seq<Rule>, networkName: string)
    requires Ok(n, m, base) && BridgeNameForNetwork(networkName) !in n.links
    ensures var b := BridgeNameForNetwork(networkName);
            Ensured(n, networkName, Complete).chain == SetUp(m, b, ExistingBridges(n.links + [b])) + base
  {
    var b := BridgeNameForNetwork(networkName);
    BridgeNames(networkName, networkName);
    var bridges := ExistingBridges(n.links + [b]);
    forall r | r in {AcceptIn(b), AcceptOut(b)} ensures r !in n.chain {
      assert NamesJoblet(r);
      assert r in m ==> OursOk(n, r);
    }
    var c := [AcceptOut(b)] + ([AcceptIn(b)] + m);
    assert WithAccepts(n.chain, b) == c + base;
    IsolateSplit(c, base, b, bridges, |bridges|);
  }

  // Whether the DROP rules put in for b are about packets from x to y.
  predicate Splits(b: Iface, bridges: seq<Iface>, x: Iface, y: Iface) {
    b != DEFAULT_BRIDGE && ((x == b && y in bridges) || (y == b && x in bridges))
  }

  lemma SetUpDecides(m: seq<Rule>, b: Iface, bridges: seq<Iface>, x: Iface, y: Iface)
    requires x != y && forall o :: o in bridges ==> IsJoblet(o)
    ensures Decider(SetUp(m, b, bridges), x, y) ==
              if Splits(b, bridges, x, y) then Some(Drop(x, y))
              else if y == b then Some(AcceptOut(b))
              else if x == b then Some(AcceptIn(b))
              else Decider(m, x, y)
  {
    hide IsJoblet;
    var c1 := [AcceptIn(b)] + m;
    var c := [AcceptOut(b)] + c1;
    assert c1[1..] == m && c[1..] == c1;
    if b != DEFAULT_BRIDGE {
      IsolateDecides(c, b, bridges, |bridges|, x, y);
      assert bridges[..|bridges|] == bridges;
    }
  }

  lemma SetUpVerdict(n: Net, b: Iface, x: Iface, y: Iface)
    requires b in n.ages && x != y && Pos(n.ages, b) == |n.ages| - 1
    requires forall c :: c in n.configured ==> c in n.ages
    ensures Verdict(n.(configured := n.configured + {b}), x, y) ==
              if Splits(b, n.ages, x, y) then Some(Drop(x, y))
              else if y == b then Some(AcceptOut(b))
              else if x == b then Some(AcceptIn(b))
              else Verdict(n, x, y)
  {
  }

  lemma SetUpCounts(m: seq<Rule>, b: Iface, links: seq<Iface>, r: Rule)
    requires Distinct(links) && IsJoblet(b)
    ensures var bridges := ExistingBridges(links);
            multiset(SetUp(m, b, bridges))[r] ==
              multiset(m)[r] + if r == AcceptIn(b) || r == AcceptOut(b) then 1
                               else if b != DEFAULT_BRIDGE && r in DropsWith(b, bridges, |bridges|) then 1 else 0
  {
    var bridges := ExistingBridges(links);
    ExistingMembers(links);
    InsertTwo(m, AcceptIn(b), AcceptOut(b), r);
    var c := [AcceptOut(b)] + ([AcceptIn(b)] + m);
    DropsWithMembers(b, bridges, |bridges|, r);
    if b != DEFAULT_BRIDGE {
      IsolateCounts(c, b, bridges, |bridges|, r);
    }
  }

  lemma SetUpRule(n: Net, n': Net, m: seq<Rule>, b: Iface, r: Rule)
    requires RulesOk(n, m) && Distinct(n.links) && IsJoblet(b) && b in n.ages && Pos(n.ages, b) == |n.ages| - 1 && Agree(n)
    requires n'.links == n.links && n'.ages == n.ages && n'.configured == n.configured + {b}
    requires forall r :: r in m ==> !Names(r, b)
    ensures r in SetUp(m, b, ExistingBridges(n.links)) ==> OursOk(n', r)
    ensures NamesJoblet(r) ==> multiset(SetUp(m, b, ExistingBridges(n.links)))[r] <= 1
  {
    hide SetUp, ExistingBridges, DropsWith, OursOk;
    var bridges := ExistingBridges(n.links);
    ExistingMembers(n.links);
    SetUpCounts(m, b, n.links, r);
    DropsWithMembers(b, bridges, |bridges|, r);
    assert r in DropsWith(b, bridges, |bridges|) || r == AcceptIn(b) || r == AcceptOut(b) ==> Names(r, b);
    SetUpOurs(n, n', m, b, r);
  }

  lemma SetUpOurs(n: Net, n': Net, m: seq<Rule>, b: Iface, r: Rule)
    requires RulesOk(n, m) && IsJoblet(b) && b in n.ages && Pos(n.ages, b) == |n.ages| - 1 && Agree(n)
    requires n'.links == n.links && n'.ages == n.ages && n'.configured == n.configured + {b}
    ensures var bridges := ExistingBridges(n.links);
            r in m || r == AcceptIn(b) || r == AcceptOut(b) || (b != DEFAULT_BRIDGE && r in DropsWith(b, bridges, |bridges|)) ==> OursOk(n', r)
  {
    hide ExistingBridges, DropsWith, Distinct;
    var bridges := ExistingBridges(n.links);
    ExistingMembers(n.links);
    DropsWithMembers(b, bridges, |bridges|, r);
    if r in m {
      assert OursOk(n, r);
    }
  }

  lemma SetUpRules(n: Net, n': Net, m: seq<Rule>, b: Iface)
    requires RulesOk(n, m) && Distinct(n.links) && IsJoblet(b) && b in n.ages && Pos(n.ages, b) == |n.ages| - 1 && Agree(n)
    requires n'.links == n.links && n'.ages == n.ages && n'.configured == n.configured + {b}
    requires forall r :: r in m ==> !Names(r, b)
    ensures RulesOk(n', SetUp(m, b, ExistingBridges(n.links)))
    ensures AcceptIn(b) in SetUp(m, b, ExistingBridges(n.links)) && AcceptOut(b) in SetUp(m, b, ExistingBridges(n.links))
    ensures forall r :: r in m ==> r in SetUp(m, b, ExistingBridges(n.links))
  {
    hide SetUp, Pos, IsJoblet;
    var m' := SetUp(m, b, ExistingBridges(n.links));
    forall r
      ensures r in m' ==> OursOk(n', r)
      ensures NamesJoblet(r) ==> multiset(m')[r] <= 1
      ensures r in m || r == AcceptIn(b) || r == AcceptOut(b) ==> r in m'
    {
      SetUpRule(n, n', m, b, r);
      SetUpCounts(m, b, n.links, r);
      assert r in m ==> multiset(m)[r] > 0;
      assert multiset(m')[r] > 0 ==> r in m';
    }
  }

  lemma SetUpVerdicts(n: Net, m: seq<Rule>, b: Iface, n': Net)
    requires b in n.ages && Pos(n.ages, b) == |n.ages| - 1 && BridgesOk(n, m) && Verdicts(n, m)
    requires n'.links == n.links && n'.ages == n.ages && n'.configured == n.configured + {b}
    ensures Verdicts(n', SetUp(m, b, ExistingBridges(n.links)))
  {
    hide Verdict, SetUp, IsJoblet, Decider;
    var bridges := ExistingBridges(n.links);
    ExistingMembers(n.links);
    forall x, y | Bridges(x, y) ensures Decider(SetUp(m, b, bridges), x, y) == Verdict(n', x, y) {
      SetUpDecides(m, b, bridges, x, y);
      SetUpVerdict(n, b, x, y);
      VerdictOf(n', n.(configured := n.configured + {b}), x, y);
    }
  }

  // A verdict does not look at the chain.
  lemma VerdictOf(n: Net, n': Net, x: Iface, y: Iface)
    requires n.ages == n'.ages && n.configured == n'.configured
    ensures Verdict(n, x, y) == Verdict(n', x, y)
  {
  }

  lemma OursNameLinks(n: Net, m: seq<Rule>, base: seq<Rule>, r: Rule, b: Iface)
    requires Ok(n, m, base) && r in m && IsJoblet(b) && Names(r, b)
    ensures b in n.links
  {
    assert OursOk(n, r);
  }

  lemma EnsureKeeps(n: Net, m: seq<Rule>, base: seq<Rule>, networkName: string) returns (m': seq<Rule>)
    requires Ok(n, m, base) && BridgeNameForNetwork(networkName) !in n.links
    ensures Ok(Ensured(n, networkName, Complete), m', base)
  {
    hide Verdict, Decider, IsJoblet, OursOk, SetUp, BridgeNameForNetwork, Clean, NamesJoblet;
    var b := BridgeNameForNetwork(networkName);
    BridgeNames(networkName, networkName);
    var n1 := n.(links := n.links + [b], ages := n.ages + [b]);
    DistinctThen(n.links, b);
    LinkKeeps(n, m, base, b, n1.links);
    assert b !in n.ages;
    PosAppend(n.ages, b, b);
    m' := SetUp(m, b, ExistingBridges(n1.links));
    SetUpSplit(n, m, base, networkName);
    forall r | r in m ensures !Names(r, b) { if Names(r, b) { OursNameLinks(n, m, base, r, b); } }
    var n' := Ensured(n, networkName, Complete);
    assert n' == Net(m' + base, n1.links, n1.configured + {b}, n1.ages);
    SetUpRules(n1, n', m, b);
    SetUpVerdicts(n1, m, b, n');
    assert BridgesOk(n', m');
  }

  // --- removing a bridge ---

  // The rules RemoveBridge asks to delete.
  ghost function Deletions(b: Iface, bridges: seq<Iface>): set<Rule> {
    DropsWith(b, bridges, |bridges|) + {AcceptIn(b)} + {AcceptOut(b)}
  }

  lemma DeletionsAreNames(n: Net, b: Iface, r: Rule)
    requires IsJoblet(b) && (Names(r, b) ==> OursOk(n, r)) && Agree(n)
    ensures r in Deletions(b, ExistingBridges(n.links)) <==> Names(r, b)
  {
    var bridges := ExistingBridges(n.links);
    ExistingMembers(n.links);
    DropsWithMembers(b, bridges, |bridges|, r);
    if Names(r, b) && r.inIf.Some? && r.outIf.Some? {
      var o := if r.inIf == Some(b) then r.outIf.value else r.inIf.value;
      assert o in bridges && o != b;
    }
  }

  lemma {:induction false} DeletionsApplied(c: seq<Rule>, b: Iface, bridges: seq<Iface>)
    requires forall r :: Names(r, b) ==> multiset(c)[r] <= 1
    ensures DeleteFirst(DeleteFirst(Cleanup(c, b, bridges, |bridges|), AcceptIn(b)), AcceptOut(b)) ==
              Minus(c, Deletions(b, bridges))
  {
    CleanupIsMinus(c, b, bridges, |bridges|);
    var s := DropsWith(b, bridges, |bridges|);
    DeleteIsMinus(c, s, AcceptIn(b));
    DeleteIsMinus(c, s + {AcceptIn(b)}, AcceptOut(b));
  }

  lemma OncePerChain(n: Net, m: seq<Rule>, base: seq<Rule>, r: Rule, b: Iface)
    requires Ok(n, m, base) && IsJoblet(b) && Names(r, b)
    ensures multiset(n.chain)[r] <= 1 && (r in n.chain ==> OursOk(n, r))
  {
    assert NamesJoblet(r);
    assert r !in base;
  }

  // Removing a bridge leaves exactly the chain filtered of the rules naming it.
  lemma RemoveFilters(n: Net, m: seq<Rule>, base: seq<Rule>, networkName: string, deleted: bool)
    requires Ok(n, m, base)
    ensures var b := BridgeNameForNetwork(networkName);
            Removed(n, networkName, deleted).chain == Without(n.chain, b) == Without(m, b) + base
  {
    hide BridgeNameForNetwork, OursOk, IsJoblet, Cleanup, Without, Minus, BridgesOk, RulesOk, Verdicts, Deletions, DropsWith;
    var b := BridgeNameForNetwork(networkName);
    BridgeNames(networkName, networkName);
    var bridges := ExistingBridges(n.links);
    forall r | Names(r, b) ensures multiset(n.chain)[r] <= 1 {
      OncePerChain(n, m, base, r, b);
    }
    LinksOf(n, m, base);
    DeletionsApplied(n.chain, b, bridges);
    forall r | r in n.chain ensures r in Deletions(b, bridges) <==> Names(r, b) {
      if Names(r, b) {
        OncePerChain(n, m, base, r, b);
      }
      DeletionsAreNames(n, b, r);
    }
    MinusIsWithout(n.chain, Deletions(b, bridges), b);
    WithoutSplit(m, base, b);
    CleanNamesNone(base, b);
    WithoutNothing(base, b);
  }

  lemma CleanNamesNone(base: seq<Rule>, b: Iface)
    requires Clean(base) && IsJoblet(b)
    ensures forall r :: r in base ==> !Names(r, b)
  {
    forall r | r in base ensures !Names(r, b) { assert !NamesJoblet(r); }
  }

  lemma RemovedDecides(n: Net, m: seq<Rule>, b: Iface, x: Iface, y: Iface)
    requires RulesOk(n, m) && BridgesOk(n, m) && IsJoblet(b) && Bridges(x, y)
    ensures Decider(Without(m, b), x, y) ==
              if b == x then if y in n.configured then Some(AcceptOut(y)) else None
              else if b == y then if x in n.configured then Some(AcceptIn(x)) else None
              else Decider(m, x, y)
  {
    var m' := Without(m, b);
    WithoutMembers(m, b);
    if b != x && b != y {
      DeciderWithout(m, b, x, y);
    } else {
      var r := if b == x then AcceptOut(y) else AcceptIn(x);
      forall q | q in m' && Hits(q, x, y) ensures q == r {
        assert OursOk(n, q);
      }
      OnlyHit(m', r, x, y);
      assert r in m ==> OursOk(n, r);
    }
  }

  lemma RemovedVerdict(n: Net, n': Net, b: Iface, x: Iface, y: Iface)
    requires Distinct(n.ages) && IsJoblet(b) && x != y && forall c :: c in n.configured ==> c in n.ages
    requires n'.ages == Unlink(n.ages, b) && n'.configured == n.configured - {b}
    ensures Verdict(n', x, y) ==
              if b == x then if y in n.configured then Some(AcceptOut(y)) else None
              else if b == y then if x in n.configured then Some(AcceptIn(x)) else None
              else Verdict(n, x, y)
  {
    hide IsJoblet, Unlink;
    var l, l' := n.ages, n'.ages;
    UnlinkKeeps(l, b);
    assert (x in l' <==> x in l && x != b) && (y in l' <==> y in l && y != b);
    if b != x && b != y {
      assert x in l && y in l ==> (Pos(l', x) < Pos(l', y) <==> Pos(l, x) < Pos(l, y));
      assert Younger(n', x, y) == Younger(n, x, y);
    }
  }

  lemma RemovedVerdicts(n: Net, n': Net, m: seq<Rule>, b: Iface)
    requires RulesOk(n, m) && BridgesOk(n, m) && Verdicts(n, m) && IsJoblet(b)
    requires n'.ages == Unlink(n.ages, b) && n'.configured == n.configured - {b}
    ensures Verdicts(n', Without(m, b))
  {
    hide Verdict, Decider, IsJoblet, RulesOk, Unlink, Without;
    forall x, y | Bridges(x, y) ensures Decider(Without(m, b), x, y) == Verdict(n', x, y) {
      RemovedDecides(n, m, b, x, y);
      RemovedVerdict(n, n', b, x, y);
    }
  }

  lemma RemovedRule(n: Net, n': Net, b: Iface, r: Rule)
    requires OursOk(n, r) && !Names(r, b) && Distinct(n.ages) && IsJoblet(b)
    requires n'.ages == Unlink(n.ages, b) && n'.configured == n.configured - {b}
    ensures OursOk(n', r)
  {
    hide IsJoblet, Unlink;
    UnlinkKeeps(n.ages, b);
  }

  lemma RemoveKeeps(n: Net, m: seq<Rule>, base: seq<Rule>, networkName: string)
    requires Ok(n, m, base)
    ensures Ok(Removed(n, networkName, true), Without(m, BridgeNameForNetwork(networkName)), base)
  {
    hide Verdict, Decider, IsJoblet, OursOk, Unlink, Without, BridgeNameForNetwork, Clean;
    var b := BridgeNameForNetwork(networkName);
    BridgeNames(networkName, networkName);
    RemoveFilters(n, m, base, networkName, true);
    UnlinkKeeps(n.links, b);
    UnlinkKeeps(n.ages, b);
    assert Unlink(n.ages, b) + [] == Unlink(n.ages, b);
    WithoutMembers(m, b);
    var n', m' := Removed(n, networkName, true), Without(m, b);
    assert n' == Net(m' + base, Unlink(n.links, b), n.configured - {b}, Unlink(n.ages, b));
    RemovedVerdicts(n, n', m, b);
    assert RulesOk(n', m') by {
      forall r | r in m' ensures OursOk(n', r) {
        RemovedRule(n, n', b, r);
      }
    }
    assert BridgesOk(n', m') by {
      forall c | c in n'.configured ensures AcceptIn(c) in m' && AcceptOut(c) in m' {
        assert !Names(AcceptIn(c), b) && !Names(AcceptOut(c), b);
      }
    }
  }

  // A bridge that outlives its removal is one that has just been added.
  lemma OutliveKeeps(n: Net, m: seq<Rule>, base: seq<Rule>, networkName: string)
    requires Ok(n, m, base)
    ensures Ok(Removed(n, networkName, false), Without(m, BridgeNameForNetwork(networkName)), base)
  {
    hide Ok, IsJoblet, Unlink, Without, BridgeNameForNetwork;
    var b := BridgeNameForNetwork(networkName);
    BridgeNames(networkName, networkName);
    RemoveKeeps(n, m, base, networkName);
    var n1 := Removed(n, networkName, true);
    assert Distinct(n.links) by { LinksOf(n, m, base); }
    UnlinkKeeps(n.links, b);
    assert Unlink(n.ages, b) + [] == Unlink(n.ages, b);
    if b in n.links {
      LinkKeeps(n1, Without(m, b), base, b, n.links);
    } else {
      UnlinkNothing(n.links, b);
    }
  }

  lemma LinksOf(n: Net, m: seq<Rule>, base: seq<Rule>)
    requires Ok(n, m, base)
    ensures Distinct(n.links) && Distinct(n.ages) && Agree(n)
  {
  }

  lemma {:induction false} UnlinkNothing(links: seq<Iface>, b: Iface)
    requires b !in links
    ensures Unlink(links, b) == links
  {
    if links != [] {
      UnlinkNothing(links[1..], b);
    }
  }

  lemma DistinctThen(links: seq<Iface>, b: Iface)
    requires Distinct(links) && b !in links
    ensures Distinct(links + [b])
  {
  }

  // --- runs ---

  lemma DoKeeps(n: Net, m: seq<Rule>, base: seq<Rule>, op: Op) returns (m': seq<Rule>)
    requires Ok(n, m, base)
    ensures Ok(Do(n, op), m', base)
  {
    hide Ok;
    m' := m;
    match op {
      case Ensure(name, setUp) =>
        BridgeNames(name, name);
        if BridgeNameForNetwork(name) !in n.links {
          if setUp.Complete? {
            m' := EnsureKeeps(n, m, base, name);
          } else if setUp.NoConfig? {
            assert Distinct(n.links) by { LinksOf(n, m, base); }
            DistinctThen(n.links, BridgeNameForNetwork(name));
            LinkKeeps(n, m, base, BridgeNameForNetwork(name), n.links + [BridgeNameForNetwork(name)]);
          }
        }
      case Remove(name, deleted) =>
        if deleted {
          RemoveKeeps(n, m, base, name);
        } else {
          OutliveKeeps(n, m, base, name);
        }
        m' := Without(m, BridgeNameForNetwork(name));
      case Isolated(pid, linked) =>
        if linked {
          assert VethName(pid)[0] == 'v';
          m' := AcceptsKeep(n, m, base, VethName(pid));
        }
    }
  }

  lemma {:induction false} ExecKeeps(n: Net, m: seq<Rule>, base: seq<Rule>, ops: seq<Op>) returns (m': seq<Rule>)
    requires Ok(n, m, base)
    ensures Ok(Exec(n, ops), m', base)
    decreases |ops|
  {
    hide Ok;
    if ops == [] {
      m' := m;
    } else {
      m' := DoKeeps(n, m, base, ops[0]);
      m' := ExecKeeps(Do(n, ops[0]), m', base, ops[1..]);
    }
  }

  /** After any run of network operations the host's chain is joblet's own rules over the chain
      found at the start. */
  lemma RunKeeps(n0: Net, ops: seq<Op>) returns (m: seq<Rule>)
    requires Untouched(n0)
    ensures Ok(Exec(n0, ops), m, n0.chain)
  {
    assert Ok(n0, [], n0.chain) by {
      assert [] + n0.chain == n0.chain;
      forall r | r in n0.chain ensures !NamesJoblet(r) { }
    }
    m := ExecKeeps(n0, [], n0.chain, ops);
  }

  /** What happens to every packet between two joblet bridge names, after any run: Verdict says
      which of joblet's rules it meets first, and when there is none the host's own chain decides. */
  lemma PacketVerdict(n0: Net, ops: seq<Op>, x: Iface, y: Iface, foreign: nat -> bool)
    requires Untouched(n0) && Bridges(x, y)
    ensures var n := Exec(n0, ops);
            FirstMatch(n.chain, x, y, foreign) ==
              if Verdict(n, x, y).Some? then Verdict(n, x, y) else FirstMatch(n0.chain, x, y, foreign)
  {
    var n := Exec(n0, ops);
    var m := RunKeeps(n0, ops);
    FirstMatchSplit(m, n0.chain, x, y, foreign);
    forall r | r in m ensures r.Rule? { assert OursOk(n, r); }
    DeciderIsFirst(m, x, y, foreign);
  }

  lemma {:induction false} FirstMatchIn(c: seq<Rule>, i: Iface, o: Iface, foreign: nat -> bool)
    ensures FirstMatch(c, i, o, foreign).Some? ==> FirstMatch(c, i, o, foreign).value in c
  {
    if c != [] {
      FirstMatchIn(c[1..], i, o, foreign);
    }
  }

  /** Two bridges are kept apart by joblet in both directions if and only if the creation of the
      younger one ran to its end and it is not the default network's. */
  lemma ApartExactlyWhen(n0: Net, ops: seq<Op>, x: Iface, y: Iface, foreign: nat -> bool)
    requires Untouched(n0) && Bridges(x, y)
    ensures var n := Exec(n0, ops);
            (FirstMatch(n.chain, x, y, foreign) == Some(Drop(x, y)) && FirstMatch(n.chain, y, x, foreign) == Some(Drop(y, x)))
            <==> Isolates(n, Younger(n, x, y))
  {
    var n := Exec(n0, ops);
    var m := RunKeeps(n0, ops);
    PacketVerdict(n0, ops, x, y, foreign);
    PacketVerdict(n0, ops, y, x, foreign);
    FirstMatchIn(n0.chain, x, y, foreign);
    assert NamesJoblet(Drop(x, y));
    assert x in n.ages || y in n.ages ==> Younger(n, x, y) == Younger(n, y, x);
  }

  predicate Succeeds(op: Op) { (op.Ensure? ==> op.setUp.Complete?) && (op.Remove? ==> op.deleted) }

  predicate AllSetUp(n: Net) { forall b :: b in n.links && IsJoblet(b) ==> b in n.configured }

  lemma {:induction false} SuccessSetsUp(n: Net, m: seq<Rule>, base: seq<Rule>, ops: seq<Op>)
    requires Ok(n, m, base) && AllSetUp(n) && forall op :: op in ops ==> Succeeds(op)
    ensures AllSetUp(Exec(n, ops))
    decreases |ops|
  {
    if ops != [] {
      var m' := DoKeeps(n, m, base, ops[0]);
      assert Succeeds(ops[0]);
      if ops[0].Remove? {
        BridgeNames(ops[0].networkName, ops[0].networkName);
        UnlinkKeeps(n.links, BridgeNameForNetwork(ops[0].networkName));
      }
      SuccessSetsUp(Do(n, ops[0]), m', base, ops[1..]);
    }
  }

  /** Custom networks stay isolated: after any run whose commands succeed, the first FORWARD rule
      that matches a packet between the live bridges of two custom networks is DROP, in both
      directions, whatever ACCEPT rules were inserted above in the meantime. */
  lemma CustomNetworksStayIsolated(n0: Net, ops: seq<Op>, p: string, q: string, foreign: nat -> bool)
    requires Untouched(n0) && forall op :: op in ops ==> Succeeds(op)
    requires p != "bridge" && q != "bridge"
    requires BridgeNameForNetwork(p) != BridgeNameForNetwork(q)
    requires BridgeNameForNetwork(p) in Exec(n0, ops).links && BridgeNameForNetwork(q) in Exec(n0, ops).links
    ensures var n, x, y := Exec(n0, ops), BridgeNameForNetwork(p), BridgeNameForNetwork(q);
            FirstMatch(n.chain, x, y, foreign) == Some(Drop(x, y)) && FirstMatch(n.chain, y, x, foreign) == Some(Drop(y, x))
  {
    BridgeNames(p, q);
    BridgeNames(q, p);
    var m0 := RunKeeps(n0, []);
    SuccessSetsUp(n0, m0, n0.chain, ops);
    ApartExactlyWhen(n0, ops, BridgeNameForNetwork(p), BridgeNameForNetwork(q), foreign);
  }

  /** No rule names a joblet bridge that is not there. */
  lemma RulesNameLiveBridges(n0: Net, ops: seq<Op>, r: Rule, b: Iface)
    requires Untouched(n0) && r in Exec(n0, ops).chain && IsJoblet(b) && Names(r, b)
    ensures b in Exec(n0, ops).links
  {
    var m := RunKeeps(n0, ops);
    assert NamesJoblet(r);
    assert OursOk(Exec(n0, ops), r);
  }

  /** Removing a bridge, in any reachable state and whether or not its link goes in the end, leaves
      exactly the previous chain filtered of the rules that name it. */
  lemma RemoveUndoes(n0: Net, ops: seq<Op>, networkName: string, deleted: bool)
    requires Untouched(n0)
    ensures var b, n := BridgeNameForNetwork(networkName), Exec(n0, ops);
            && Removed(n, networkName, deleted).chain == Without(n.chain, b)
            && forall r :: r in Removed(n, networkName, deleted).chain <==> r in n.chain && !Names(r, b)
  {
    var m := RunKeeps(n0, ops);
    RemoveFilters(Exec(n0, ops), m, n0.chain, networkName, deleted);
    WithoutMembers(Exec(n0, ops).chain, BridgeNameForNetwork(networkName));
  }

  lemma {:induction false} UnlinkLast(links: seq<Iface>, b: Iface)
    requires b !in links
    ensures Unlink(links + [b], b) == links
  {
    if links != [] {
      assert (links + [b])[1..] == links[1..] + [b];
      UnlinkLast(links[1..], b);
    }
  }

  lemma WithAcceptsWithout(c: seq<Rule>, b: Iface)
    ensures Without(WithAccepts(c, b), b) == Without(c, b)
  {
    var c1 := InsertMissing(c, AcceptIn(b));
    assert AcceptIn(b) !in c ==> c1[1..] == c;
    assert AcceptOut(b) !in c1 ==> WithAccepts(c, b)[1..] == c1;
  }

  // The rules of a set-up, if it got that far, all name the new bridge.
  lemma SetUpWithout(n: Net, networkName: string, setUp: SetUp)
    requires BridgeNameForNetwork(networkName) !in n.links
    requires forall r :: r in n.chain ==> !Names(r, BridgeNameForNetwork(networkName))
    ensures Without(Ensured(n, networkName, setUp).chain, BridgeNameForNetwork(networkName)) == n.chain
  {
    hide BridgeNameForNetwork, WithAccepts, Isolate;
    var b := BridgeNameForNetwork(networkName);
    WithoutNothing(n.chain, b);
    WithAcceptsWithout(n.chain, b);
    var bridges := ExistingBridges(n.links + [b]);
    IsolateWithout(WithAccepts(n.chain, b), b, bridges, |bridges|);
  }

  // The links and ages are back, whether or not the link was ever added.
  lemma LinksBack(n: Net, networkName: string, setUp: SetUp)
    requires BridgeNameForNetwork(networkName) !in n.links && BridgeNameForNetwork(networkName) !in n.ages
    requires forall b :: b in n.configured ==> b in n.ages
    ensures var n' := Removed(Ensured(n, networkName, setUp), networkName, true);
            n'.links == n.links && n'.ages == n.ages && n'.configured == n.configured
  {
    hide BridgeNameForNetwork, WithAccepts, Isolate, Cleanup, Unlink, ExistingBridges, DeleteFirst;
    var b, n1 := BridgeNameForNetwork(networkName), Ensured(n, networkName, setUp);
    assert n1.configured - {b} == n.configured;
    assert Unlink(n1.links, b) == n.links && Unlink(n1.ages, b) == n.ages by {
      UnlinkLast(n.links, b);
      UnlinkLast(n.ages, b);
      UnlinkNothing(n.links, b);
      UnlinkNothing(n.ages, b);
    }
    assert n.ages + [] == n.ages;
  }

  /** Creating a bridge, however far its creation got, and then removing it gives back the same
      chain, rule for rule, and the same bridges. */
  lemma CreateThenRemove(n0: Net, ops: seq<Op>, networkName: string, setUp: SetUp)
    requires Untouched(n0) && BridgeNameForNetwork(networkName) !in Exec(n0, ops).links
    ensures Exec(Exec(n0, ops), [Ensure(networkName, setUp), Remove(networkName, true)]) == Exec(n0, ops)
  {
    hide BridgeNameForNetwork, Ensured, Removed, Untouched, Without, Verdicts, RulesOk;
    var n, b := Exec(n0, ops), BridgeNameForNetwork(networkName);
    BridgeNames(networkName, networkName);
    var m := RunKeeps(n0, ops);
    var m1 := DoKeeps(n, m, n0.chain, Ensure(networkName, setUp));
    var n1 := Ensured(n, networkName, setUp);
    RemoveFilters(n1, m1, n0.chain, networkName, true);
    forall r | r in n.chain ensures !Names(r, b) {
      if Names(r, b) { RulesNameLiveBridges(n0, ops, r, b); }
    }
    SetUpWithout(n, networkName, setUp);
    LinksBack(n, networkName, setUp);
    var acts := [Ensure(networkName, setUp), Remove(networkName, true)];
    assert acts[1..] == [acts[1]] && acts[1..][1..] == [];
    assert Exec(n, acts) == Exec(n1, acts[1..]) == Removed(n1, networkName, true);
  }

  // What isolation does not cover, at an input: the default bridge, made after bridge a, takes
  // traffic from it.
  lemma DefaultBridgeIsNotApart(n0: Net, foreign: nat -> bool)
    requires Untouched(n0)
    ensures var n := Exec(n0, [Ensure("a", Complete), Ensure("bridge", Complete)]);
            && "joblet-a" in n.links && DEFAULT_BRIDGE in n.links
            && FirstMatch(n.chain, "joblet-a", DEFAULT_BRIDGE, foreign) == Some(AcceptOut(DEFAULT_BRIDGE))
            && FirstMatch(n.chain, DEFAULT_BRIDGE, "joblet-a", foreign) == Some(AcceptIn(DEFAULT_BRIDGE))
  {
    hide FirstMatch, Verdict;
    var ops := [Ensure("a", Complete), Ensure("bridge", Complete)];
    TwoMade(n0);
    PacketVerdict(n0, ops, "joblet-a", DEFAULT_BRIDGE, foreign);
    PacketVerdict(n0, ops, DEFAULT_BRIDGE, "joblet-a", foreign);
    YoungerDefault(Exec(n0, ops));
  }

  lemma TwoMade(n0: Net)
    requires Untouched(n0)
    ensures var n := Exec(n0, [Ensure("a", Complete), Ensure("bridge", Complete)]);
            n.ages == ["joblet-a", DEFAULT_BRIDGE] && "joblet-a" in n.configured && DEFAULT_BRIDGE in n.configured
            && "joblet-a" in n.links && DEFAULT_BRIDGE in n.links
  {
    hide WithAccepts, Isolate;
    var ops := [Ensure("a", Complete), Ensure("bridge", Complete)];
    assert BridgeNameForNetwork("a") == "joblet-a" && BridgeNameForNetwork("bridge") == DEFAULT_BRIDGE;
    assert IsJoblet("joblet-a") && IsJoblet(DEFAULT_BRIDGE) && "joblet-a" != DEFAULT_BRIDGE;
    var n1 := Ensured(n0, "a", Complete);
    assert n1.ages == ["joblet-a"];
    assert ops[1..] == [ops[1]] && ops[1..][1..] == [];
    assert Exec(n0, ops) == Exec(n1, ops[1..]) == Ensured(n1, "bridge", Complete);
  }

  lemma YoungerDefault(n: Net)
    requires n.ages == ["joblet-a", DEFAULT_BRIDGE] && "joblet-a" in n.configured && DEFAULT_BRIDGE in n.configured
    ensures Bridges("joblet-a", DEFAULT_BRIDGE)
    ensures Verdict(n, "joblet-a", DEFAULT_BRIDGE) == Some(AcceptOut(DEFAULT_BRIDGE))
    ensures Verdict(n, DEFAULT_BRIDGE, "joblet-a") == Some(AcceptIn(DEFAULT_BRIDGE))
  {
    var a: Iface := "joblet-a";
    assert n.ages[1..] == [DEFAULT_BRIDGE];
    assert Pos(n.ages, a) == 0 && Pos(n.ages, DEFAULT_BRIDGE) == 1;
  }
}
