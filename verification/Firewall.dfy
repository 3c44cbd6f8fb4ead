/** network/setup.go: the bridges of the host and the FORWARD chain of iptables, as the commands
    the code runs change them. Rules match the first that applies, -I FORWARD 1 inserts at the
    top, -D deletes the first exact match, -C asks for an exact match. */
module Firewall {
  import opened Wrappers
  import Decimal

  type Iface = string

  datatype Target = ACCEPT | DROP

  // A rule with optional -i and -o interfaces, or one that is somebody else's and may match
  // on anything at all.
  datatype Rule =
    | Rule(inIf: Option<Iface>, outIf: Option<Iface>, target: Target)
    | Other(id: nat)

  function AcceptIn(b: Iface): Rule { Rule(Some(b), None, ACCEPT) }

  function AcceptOut(b: Iface): Rule { Rule(None, Some(b), ACCEPT) }

  function Drop(i: Iface, o: Iface): Rule { Rule(Some(i), Some(o), DROP) }

  predicate Matches(r: Rule, i: Iface, o: Iface, foreign: nat -> bool) {
    match r
    case Rule(x, y, _) => x in {None, Some(i)} && y in {None, Some(o)}
    case Other(n) => foreign(n)
  }

  // The rule that decides about a packet from interface i to interface o.
  function FirstMatch(chain: seq<Rule>, i: Iface, o: Iface, foreign: nat -> bool): Option<Rule> {
    if chain == [] then None
    else if Matches(chain[0], i, o, foreign) then Some(chain[0])
    else FirstMatch(chain[1..], i, o, foreign)
  }

  function Insert(chain: seq<Rule>, r: Rule): seq<Rule> { [r] + chain }

  function DeleteFirst(chain: seq<Rule>, r: Rule): seq<Rule> {
    if chain == [] then []
    else if chain[0] == r then chain[1..]
    else [chain[0]] + DeleteFirst(chain[1..], r)
  }

  predicate Names(r: Rule, b: Iface) { r.Rule? && (r.inIf == Some(b) || r.outIf == Some(b)) }

  // The chain filtered of the rules that name b.
  function Without(chain: seq<Rule>, b: Iface): seq<Rule> {
    if chain == [] then []
    else if Names(chain[0], b) then Without(chain[1..], b)
    else [chain[0]] + Without(chain[1..], b)
  }

  // --- interface names ---

  const MAX_IFACE_NAME_LEN := 15

  const DEFAULT_BRIDGE: Iface := "joblet0"

  function ByteOf(c: char): bv32 { (c as int % 256) as bv32 }

  // One round of FNV-1a on 32 bits.
  function Fnv1aStep(h: bv32, c: char): bv32 {
    (h ^ ByteOf(c)) * 16777619
  }

  function Fnv1a(s: string): bv32 {
    if s == [] then 2166136261 else Fnv1aStep(Fnv1a(s[..|s| - 1]), s[|s| - 1])
  }

  // %08x: the last n hexadecimal digits.
  function Hex(v: nat, n: nat): (s: string)
    ensures |s| == n
  {
    if n == 0 then "" else Hex(v / 16, n - 1) + ["0123456789abcdef"[v % 16]]
  }

  function BridgeNameForNetwork(networkName: string): Iface {
    if networkName == "bridge" then DEFAULT_BRIDGE
    else if |"joblet-" + networkName| <= MAX_IFACE_NAME_LEN then "joblet-" + networkName
    else "joblet-" + Hex(Fnv1a(networkName) as nat, 8)
  }

  predicate IsJoblet(b: Iface) { "joblet" <= b }

  // Every bridge name is a legal interface name that the code recognises as its own; only the
  // default network has the default bridge; short names never share a bridge.
  lemma BridgeNames(m: string, n: string)
    ensures IsJoblet(BridgeNameForNetwork(n)) && |BridgeNameForNetwork(n)| <= MAX_IFACE_NAME_LEN
    ensures BridgeNameForNetwork(n) == DEFAULT_BRIDGE <==> n == "bridge"
    ensures |m| <= 8 && |n| <= 8 && m != n ==>
              BridgeNameForNetwork(m) != BridgeNameForNetwork(n)
  {
    var bn, bm := BridgeNameForNetwork(n), BridgeNameForNetwork(m);
    assert DEFAULT_BRIDGE[6] == '0';
    assert n != "bridge" ==> bn[6] == '-' && bn[..7] == "joblet-";
    assert m != "bridge" ==> bm[6] == '-' && bm[..7] == "joblet-";
    assert "joblet" == bn[..6];
    if |m| <= 8 && m != "bridge" { assert bm[7..] == m; }
    if |n| <= 8 && n != "bridge" { assert bn[7..] == n; }
  }

  function HexDigit(c: char): nat {
    if '0' <= c <= '9' then c as nat - '0' as nat else if 'a' <= c <= 'f' then 10 + (c as nat - 'a' as nat) else 0
  }

  function HexNumber(s: string): nat {
    if s == [] then 0 else HexNumber(s[..|s| - 1]) * 16 + HexDigit(s[|s| - 1])
  }

  function Pow16(n: nat): nat { if n == 0 then 1 else 16 * Pow16(n - 1) }

  lemma {:induction false} HexReads(v: nat, n: nat)
    requires v < Pow16(n)
    ensures HexNumber(Hex(v, n)) == v
  {
    if n > 0 {
      HexReads(v / 16, n - 1);
      var s := Hex(v, n);
      assert s[..|s| - 1] == Hex(v / 16, n - 1);
      DigitReads(v % 16);
    }
  }

  lemma DigitReads(d: nat)
    requires d < 16
    ensures HexDigit("0123456789abcdef"[d]) == d
  {
  }

  lemma ByteOfA()
    ensures ByteOf('a') == 0x61
  {
  }

  // The hash is the 32-bit FNV-1a of the published parameters.
  lemma FnvVectors()
    ensures Fnv1a("") == 0x811c_9dc5 && Fnv1a("a") == 0xe40c_292c
  {
    ByteOfA();
    hide ByteOf;
    assert "a"[..0] == "";
    assert Fnv1a("a") == Fnv1aStep(0x811c_9dc5, 'a') == ((0x811c_9dc5 as bv32) ^ 0x61) * 0x100_0193;
  }

  // What tells two networks' bridges apart: the name if it is short enough, else its hash.
  function Tag(networkName: string): string {
    if |networkName| <= 8 then networkName else Hex(Fnv1a(networkName) as nat, 8)
  }

  lemma TagIs(networkName: string)
    requires networkName != "bridge"
    ensures BridgeNameForNetwork(networkName) == "joblet-" + Tag(networkName)
  {
    hide Fnv1a, Hex;
  }

  lemma HashTag(networkName: string)
    ensures |networkName| > 8 ==> HexNumber(Tag(networkName)) == Fnv1a(networkName) as nat
  {
    assert Pow16(4) == 0x1_0000 && Pow16(8) == 0x1_0000_0000;
    HexReads(Fnv1a(networkName) as nat, 8);
  }

  // Two networks share a bridge exactly when these are the same; for two long names, when their
  // hashes are.
  lemma SharedExactlyWhen(m: string, n: string)
    requires m != "bridge" && n != "bridge"
    ensures BridgeNameForNetwork(m) == BridgeNameForNetwork(n) <==> Tag(m) == Tag(n)
    ensures |m| > 8 && |n| > 8 ==> (Tag(m) == Tag(n) <==> Fnv1a(m) as nat == Fnv1a(n) as nat)
  {
    hide Fnv1a, Hex, HexNumber;
    TagIs(m);
    TagIs(n);
    HashTag(m);
    HashTag(n);
    assert ("joblet-" + Tag(m))[7..] == Tag(m) && ("joblet-" + Tag(n))[7..] == Tag(n);
  }

  function VethName(pid: nat): Iface { "viso" + Decimal.Itoa(pid % 10000) }

  // Two jobs share a veth name exactly when the last four digits of their process ids agree.
  lemma VethsApart(p: nat, q: nat)
    ensures VethName(p) == VethName(q) <==> p % 10000 == q % 10000
    ensures !IsJoblet(VethName(p))
  {
    assert VethName(p)[4..] == Decimal.Itoa(p % 10000) && VethName(q)[4..] == Decimal.Itoa(q % 10000);
    if VethName(p) == VethName(q) {
      Decimal.ItoaInjective(p % 10000, q % 10000);
    }
    assert VethName(p)[0] == 'v';
  }

  // --- the state and what each operation does to it ---

  datatype Net = Net(
    chain: seq<Rule>,
    links: seq<Iface>,        // bridge interfaces, oldest first
    configured: set<Iface>,   // history: bridges whose creation ran to its end
    ages: seq<Iface>)         // history: joblet's bridges by how long rules about them are kept

  // getExistingBridges: the bridges whose name starts with joblet.
  function ExistingBridges(links: seq<Iface>): seq<Iface> {
    if links == [] then []
    else ExistingBridges(links[..|links| - 1]) + if IsJoblet(links[|links| - 1]) then [links[|links| - 1]] else []
  }

  function InsertMissing(chain: seq<Rule>, r: Rule): seq<Rule> {
    if r in chain then chain else Insert(chain, r)
  }

  // setupNetworkIsolation after k of the other bridges.
  function Isolate(chain: seq<Rule>, b: Iface, bridges: seq<Iface>, k: nat): seq<Rule>
    requires k <= |bridges|
  {
    if k == 0 then chain
    else
      var c := Isolate(chain, b, bridges, k - 1);
      var o := bridges[k - 1];
      if o == b || !IsJoblet(o) then c else Insert(Insert(c, Drop(b, o)), Drop(o, b))
  }

  // cleanupNetworkIsolation after k of the other bridges.
  function Cleanup(chain: seq<Rule>, b: Iface, bridges: seq<Iface>, k: nat): seq<Rule>
    requires k <= |bridges|
  {
    if k == 0 then chain
    else
      var c := Cleanup(chain, b, bridges, k - 1);
      var o := bridges[k - 1];
      if o == b then c else DeleteFirst(DeleteFirst(c, Drop(b, o)), Drop(o, b))
  }

  function WithAccepts(chain: seq<Rule>, i: Iface): seq<Rule> {
    InsertMissing(InsertMissing(chain, AcceptIn(i)), AcceptOut(i))
  }

  // How far creating a bridge gets: adding the link fails, giving it its address or bringing it up
  // fails, which leaves the bridge behind, or neither.
  datatype SetUp = NoLink | NoConfig | Complete

  function Ensured(n: Net, networkName: string, setUp: SetUp): Net {
    var b := BridgeNameForNetwork(networkName);
    if b in n.links then n
    else
      var links, ages := n.links + [b], n.ages + [b];
      match setUp
      case NoLink => n
      case NoConfig => n.(links := links, ages := ages)
      case Complete =>
        var c := WithAccepts(n.chain, b);
        var bridges := ExistingBridges(links);
        Net(if networkName == "bridge" then c else Isolate(c, b, bridges, |bridges|), links, n.configured + {b}, ages)
  }

  // RemoveBridge; deleted is whether deleting the link, after the rules, succeeds. If it does not
  // the bridge is back where one is whose set-up has failed.
  function Removed(n: Net, networkName: string, deleted: bool): Net {
    var b := BridgeNameForNetwork(networkName);
    var bridges := ExistingBridges(n.links);
    var c := Cleanup(n.chain, b, bridges, |bridges|);
    Net(DeleteFirst(DeleteFirst(c, AcceptIn(b)), AcceptOut(b)),
        if deleted then Unlink(n.links, b) else n.links,
        n.configured - {b},
        Unlink(n.ages, b) + if !deleted && b in n.links then [b] else [])
  }

  function Unlink(links: seq<Iface>, b: Iface): seq<Iface> {
    if links == [] then []
    else if links[0] == b then links[1..]
    else [links[0]] + Unlink(links[1..], b)
  }

  // The FORWARD rules of setupIsolatedNetwork; linked is whether the commands before them, which
  // create and configure the veth pair, succeeded.
  function IsolatedJob(n: Net, pid: nat, linked: bool): Net {
    if linked then n.(chain := WithAccepts(n.chain, VethName(pid))) else n
  }

  // Afterwards both rules of the veth are there, each inserted on top only if it was missing, and
  // everything else is as before.
  lemma JobAccepted(n: Net, pid: nat, linked: bool)
    ensures var n', v := IsolatedJob(n, pid, linked), VethName(pid);
            && n' == n.(chain := n'.chain)
            && (linked ==> AcceptIn(v) in n'.chain && AcceptOut(v) in n'.chain)
            && exists added :: n'.chain == added + n.chain && |added| <= 2
                 && forall r :: r in added ==> linked && r !in n.chain && (r == AcceptIn(v) || r == AcceptOut(v))
  {
    hide VethName;
    var c, v := n.chain, VethName(pid);
    var first := if AcceptIn(v) in c then [] else [AcceptIn(v)];
    var second := if AcceptOut(v) in first + c then [] else [AcceptOut(v)];
    assert WithAccepts(c, v) == (second + first) + c;
    assert [] + c == c;
    var added := if linked then second + first else [];
    assert IsolatedJob(n, pid, linked).chain == added + c;
    assert added == [] || |added| <= 2;
  }

  datatype Op =
    | Ensure(networkName: string, setUp: SetUp)
    | Remove(networkName: string, deleted: bool)
    | Isolated(pid: nat, linked: bool)

  function Do(n: Net, op: Op): Net {
    match op
    case Ensure(name, setUp) => Ensured(n, name, setUp)
    case Remove(name, deleted) => Removed(n, name, deleted)
    case Isolated(pid, linked) => IsolatedJob(n, pid, linked)
  }

  function Exec(n: Net, ops: seq<Op>): Net
    decreases |ops|
  {
    if ops == [] then n else Exec(Do(n, ops[0]), ops[1..])
  }

  // A host before joblet touched it: no joblet bridge, and no rule naming a joblet interface.
  predicate Untouched(n: Net) {
    && n.configured == {} && n.ages == []
    && (forall b :: b in n.links ==> !IsJoblet(b))
    && (forall r :: r in n.chain && r.Rule? ==> forall x :: x in {r.inIf, r.outIf} && x.Some? ==> !IsJoblet(x.value))
  }

  /** The code itself, over the host's mutable chain and links. */
  class NetworkSetup {
    var chain: seq<Rule>
    var links: seq<Iface>
    ghost var configured: set<Iface>
    ghost var ages: seq<Iface>

    ghost function State(): Net
      reads this
    {
      Net(chain, links, configured, ages)
    }

    method GetExistingBridges() returns (bridges: seq<Iface>)
      ensures bridges == ExistingBridges(links)
    {
      bridges := [];
      for i := 0 to |links|
        invariant bridges == ExistingBridges(links[..i])
      {
        assert links[..i + 1][..i] == links[..i];
        if IsJoblet(links[i]) {
          bridges := bridges + [links[i]];
        }
      }
      assert links[..|links|] == links;
    }

    method SetupNetworkIsolation(networkName: string, bridgeName: Iface)
      modifies this`chain
      ensures chain == if networkName == "bridge" then old(chain)
                       else Isolate(old(chain), bridgeName, ExistingBridges(links), |ExistingBridges(links)|)
    {
      if networkName == "bridge" {
        return;
      }
      var bridges := GetExistingBridges();
      for k := 0 to |bridges|
        invariant chain == Isolate(old(chain), bridgeName, bridges, k)
      {
        var otherBridge := bridges[k];
        if otherBridge == bridgeName {
          continue;
        }
        if !IsJoblet(otherBridge) {
          continue;
        }
        chain := Insert(chain, Drop(bridgeName, otherBridge));
        chain := Insert(chain, Drop(otherBridge, bridgeName));
      }
    }

    method EnsureBridge(networkName: string, setUp: SetUp) returns (ok: bool)
      modifies this
      ensures State() == Ensured(old(State()), networkName, setUp)
      ensures ok <==> BridgeNameForNetwork(networkName) in old(links) || setUp.Complete?
      ensures var b := BridgeNameForNetwork(networkName);
              links == if b in old(links) || setUp.NoLink? then old(links) else old(links) + [b]
      ensures BridgeNameForNetwork(networkName) in old(links) || !setUp.Complete? ==> chain == old(chain)
    {
      var bridgeName := BridgeNameForNetwork(networkName);
      if bridgeName in links {
        return true;
      }
      if setUp.NoLink? {
        return false;
      }
      links := links + [bridgeName];
      ages := ages + [bridgeName];
      if setUp.NoConfig? {
        return false;
      }
      configured := configured + {bridgeName};
      if AcceptIn(bridgeName) !in chain {
        chain := Insert(chain, AcceptIn(bridgeName));
      }
      if AcceptOut(bridgeName) !in chain {
        chain := Insert(chain, AcceptOut(bridgeName));
      }
      SetupNetworkIsolation(networkName, bridgeName);
      ok := true;
    }

    method CleanupNetworkIsolation(bridgeName: Iface)
      modifies this`chain
      ensures chain == Cleanup(old(chain), bridgeName, ExistingBridges(links), |ExistingBridges(links)|)
    {
      var bridges := GetExistingBridges();
      for k := 0 to |bridges|
        invariant chain == Cleanup(old(chain), bridgeName, bridges, k)
      {
        var otherBridge := bridges[k];
        if otherBridge == bridgeName {
          continue;
        }
        chain := DeleteFirst(chain, Drop(bridgeName, otherBridge));
        chain := DeleteFirst(chain, Drop(otherBridge, bridgeName));
      }
    }

    method RemoveBridge(networkName: string, deleted: bool) returns (ok: bool)
      modifies this
      ensures State() == Removed(old(State()), networkName, deleted)
      ensures ok <==> deleted && BridgeNameForNetwork(networkName) in old(links)
      ensures links == if deleted then Unlink(old(links), BridgeNameForNetwork(networkName)) else old(links)
    {
      var bridgeName := BridgeNameForNetwork(networkName);
      CleanupNetworkIsolation(bridgeName);
      chain := DeleteFirst(chain, AcceptIn(bridgeName));
      chain := DeleteFirst(chain, AcceptOut(bridgeName));
      ok := deleted && bridgeName in links;
      configured := configured - {bridgeName};
      ages := Unlink(ages, bridgeName) + if !deleted && bridgeName in links then [bridgeName] else [];
      if deleted {
        links := Unlink(links, bridgeName);
      }
    }

    // The namespace is configured after the rules; an error there leaves them.
    method SetupIsolatedNetwork(pid: nat, linked: bool, namespaceOk: bool) returns (ok: bool)
      modifies this`chain
      ensures State() == IsolatedJob(old(State()), pid, linked)
      ensures ok <==> linked && namespaceOk
    {
      var vethHost := VethName(pid);
      if !linked {
        return false;
      }
      if AcceptIn(vethHost) !in chain {
        chain := Insert(chain, AcceptIn(vethHost));
      }
      if AcceptOut(vethHost) !in chain {
        chain := Insert(chain, AcceptOut(vethHost));
      }
      ok := namespaceOk;
    }
  }
}
