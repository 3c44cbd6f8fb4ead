/** adapters/network_store_adapter.go: filling an IPv4 address pool from a CIDR block, and
    allocating from and releasing to it. */
module IpPools {
  import opened Wrappers
  import opened Octets
  import opened Cidr
  import opened Decimal

  // net.IP.String of an IPv4 address.
  function Dotted(ip: Address): string
    requires |ip| == 4
  {
    Itoa(ByteNat(ip[0])) + "." + (Itoa(ByteNat(ip[1])) + "." + (Itoa(ByteNat(ip[2])) + "." + Itoa(ByteNat(ip[3]))))
  }

  /** Different addresses are written differently. */
  lemma DottedInjective(a: Address, b: Address)
    requires |a| == |b| == 4 && Dotted(a) == Dotted(b)
    ensures a == b
  {
    hide ByteNat, Itoa;
    var a3, b3 := Itoa(ByteNat(a[3])), Itoa(ByteNat(b[3]));
    var a2, b2 := Itoa(ByteNat(a[2])) + "." + a3, Itoa(ByteNat(b[2])) + "." + b3;
    var a1, b1 := Itoa(ByteNat(a[1])) + "." + a2, Itoa(ByteNat(b[1])) + "." + b2;
    DotSplits(Itoa(ByteNat(a[0])), Itoa(ByteNat(b[0])), a1, b1);
    DotSplits(Itoa(ByteNat(a[1])), Itoa(ByteNat(b[1])), a2, b2);
    DotSplits(Itoa(ByteNat(a[2])), Itoa(ByteNat(b[2])), a3, b3);
    SameByte(a[0], b[0]);
    SameByte(a[1], b[1]);
    SameByte(a[2], b[2]);
    SameByte(a[3], b[3]);
    assert forall i :: 0 <= i < 4 ==> a[i] == b[i];
  }

  lemma SameByte(a: bv8, b: bv8)
    ensures Itoa(ByteNat(a)) == Itoa(ByteNat(b)) ==> a == b
  {
    if Itoa(ByteNat(a)) == Itoa(ByteNat(b)) {
      ItoaInjective(ByteNat(a), ByteNat(b));
      ByteNatInjective(a, b);
    }
  }

  // A text reads as an address: four numerals without leading zeros, joined by dots, the most
  // significant byte first.
  predicate ReadsAs(text: string, ip: Address) {
    var parts := Split(text);
    |ip| == 4 && |parts| == 4 && forall i :: 0 <= i < 4 ==> IsNumeral(parts[i], ByteNat(ip[i]))
  }

  predicate IsNumeral(s: string, n: nat) {
    s != [] && AllDigits(s) && Number(s) == n && (|s| == 1 || s[0] != '0')
  }

  lemma NumeralIs(s: string, n: nat)
    ensures IsNumeral(s, n) <==> s == Itoa(n)
  {
    NumberOfItoa(n);
    ItoaOfNumber(Itoa(n));
    if IsNumeral(s, n) {
      ItoaOfNumber(s);
    }
  }

  lemma SplitFour(a: string, b: string, c: string, d: string)
    requires Dotless(a) && Dotless(b) && Dotless(c) && Dotless(d)
    ensures Split(a + "." + (b + "." + (c + "." + d))) == [a, b, c, d]
  {
    hide Split;
    SplitAtDot(a, b + "." + (c + "." + d));
    SplitAtDot(b, c + "." + d);
    SplitAtDot(c, d);
    SplitDotless(d);
  }

  /** What is written is the one text that reads as the address. */
  lemma DottedReads(ip: Address, text: string)
    requires |ip| == 4
    ensures ReadsAs(text, ip) <==> text == Dotted(ip)
  {
    hide ByteNat, Itoa, Split, IsNumeral;
    var a, b, c, d := Itoa(ByteNat(ip[0])), Itoa(ByteNat(ip[1])), Itoa(ByteNat(ip[2])), Itoa(ByteNat(ip[3]));
    SplitFour(a, b, c, d);
    var parts := Split(text);
    forall i | 0 <= i < 4 && i < |parts| ensures IsNumeral(parts[i], ByteNat(ip[i])) <==> parts[i] == Itoa(ByteNat(ip[i])) {
      NumeralIs(parts[i], ByteNat(ip[i]));
    }
    JoinSplit(text);
    JoinSplit(Dotted(ip));
    if ReadsAs(text, ip) {
      assert parts == [a, b, c, d];
    }
  }

  // --- the addresses of a block, in the order they are visited ---

  function Steps(ip: Address, k: nat): (r: Address)
    ensures |r| == |ip|
  {
    if k == 0 then ip else Next(Steps(ip, k - 1))
  }

  lemma {:induction false} StepsValue(ip: Address, k: nat)
    requires Value(ip) + k < Pow256(|ip|)
    ensures Value(Steps(ip, k)) == Value(ip) + k
  {
    hide Value, Next, Pow256;
    if k > 0 {
      StepsValue(ip, k - 1);
      NextIsPlusOne(Steps(ip, k - 1));
      SmallMod(Value(ip) + k, Pow256(|ip|));
    }
  }

  lemma FourthPower()
    ensures Pow256(4) == 0x1_0000_0000
  {
    assert Pow256(2) == 0x1_0000;
  }

  function HostCount(p: nat): nat
    requires p <= 32
  {
    if Size(p) < 2 then 0 else Size(p) - 2
  }

  // The first k hosts.
  function HostsTo(ip: Address, k: nat): (hosts: seq<string>)
    requires |ip| == 4
    ensures |hosts| == k
  {
    if k == 0 then [] else HostsTo(ip, k - 1) + [Dotted(Steps(ip, k))]
  }

  function Hosts(n: IPNet, p: nat): seq<string>
    requires Parsed(n, p)
  {
    HostsTo(n.ip, HostCount(p))
  }

  lemma {:induction false} HostAt(ip: Address, k: nat, i: nat)
    requires |ip| == 4 && i < k
    ensures HostsTo(ip, k)[i] == Dotted(Steps(ip, i + 1))
  {
    hide Dotted, Steps;
    if i < k - 1 {
      HostAt(ip, k - 1, i);
    }
  }

  // The i-th host is number i + 1 of the block.
  lemma HostValue(n: IPNet, p: nat, i: nat)
    requires Parsed(n, p) && i < HostCount(p)
    ensures Value(Steps(n.ip, i + 1)) == Value(n.ip) + i + 1
    ensures Hosts(n, p)[i] == Dotted(Steps(n.ip, i + 1))
  {
    hide Value, Steps, Dotted, Size;
    FourthPower();
    ContainsIsInterval(n, p, n.ip);
    StepsValue(n.ip, i + 1);
    HostAt(n.ip, HostCount(p), i);
  }

  /** The pool of a block holds exactly the addresses strictly between its own and its broadcast
      address: 2^(32-p) - 2 of them for p up to 30 and none for 31 and 32. */
  lemma HostsExact(n: IPNet, p: nat, ip: Address)
    requires Parsed(n, p) && |ip| == 4
    ensures Dotted(ip) in Hosts(n, p) <==> Value(n.ip) < Value(ip) < Value(Broadcast(n))
    ensures |Hosts(n, p)| == if p <= 30 then Pow2(32 - p) - 2 else 0
  {
    hide Value, Steps, Dotted, Parsed, Broadcast, Pow2;
    BroadcastIsLast(n, p);
    assert p <= 32 && |n.ip| == |n.mask| == 4 by { ParsedLength(n, p); }
    SmallPowers();
    if p <= 30 { SizeAtLeastFour(p); }
    if Dotted(ip) in Hosts(n, p) {
      var i :| 0 <= i < |Hosts(n, p)| && Hosts(n, p)[i] == Dotted(ip);
      HostValue(n, p, i);
      DottedInjective(ip, Steps(n.ip, i + 1));
    }
    if Value(n.ip) < Value(ip) < Value(Broadcast(n)) {
      var i := Value(ip) - Value(n.ip) - 1;
      HostValue(n, p, i);
      ValueInjective(ip, Steps(n.ip, i + 1));
    }
  }

  /** Read back, text number i of a new pool is address number i + 1 of the block, strictly between
      its own and its broadcast address. */
  lemma HostsRead(n: IPNet, p: nat, i: nat)
    requires Parsed(n, p) && i < |Hosts(n, p)|
    ensures exists ip :: ReadsAs(Hosts(n, p)[i], ip) && Value(ip) == Value(n.ip) + i + 1 && Value(ip) < Value(Broadcast(n))
  {
    hide Value, Steps, Dotted, Broadcast, ReadsAs;
    var ip := Steps(n.ip, i + 1);
    HostValue(n, p, i);
    BroadcastIsLast(n, p);
    DottedReads(ip, Hosts(n, p)[i]);
  }

  lemma ParsedLength(n: IPNet, p: nat)
    requires Parsed(n, p)
    ensures p <= 32 && |n.ip| == |n.mask| == 4
  {
  }

  lemma SmallPowers()
    ensures Pow2(0) == 1 && Pow2(1) == 2 && Pow2(2) == 4
  {
  }

  lemma SizeAtLeastFour(p: nat)
    requires p <= 30
    ensures Size(p) >= 4
  {
    assert Pow2(32 - p) == 2 * Pow2(31 - p) && Pow2(31 - p) == 2 * Pow2(30 - p);
  }

  /** They come in strictly ascending order, so without duplicates. */
  lemma HostsAscend(n: IPNet, p: nat, i: nat, j: nat)
    requires Parsed(n, p) && i < j < |Hosts(n, p)|
    ensures Value(n.ip) < Value(Steps(n.ip, i + 1)) < Value(Steps(n.ip, j + 1)) < Value(Broadcast(n))
    ensures Hosts(n, p)[i] == Dotted(Steps(n.ip, i + 1)) && Hosts(n, p)[i] != Hosts(n, p)[j]
  {
    hide Value, Steps, Dotted, Broadcast;
    HostValue(n, p, i);
    HostValue(n, p, j);
    BroadcastIsLast(n, p);
    if Hosts(n, p)[i] == Hosts(n, p)[j] {
      DottedInjective(Steps(n.ip, i + 1), Steps(n.ip, j + 1));
    }
  }

  // Step k of the walk is inside exactly before the block's end, even where adding one wraps.
  lemma WalkInside(n: IPNet, p: nat, k: nat)
    requires Parsed(n, p) && 1 <= p && k <= Size(p)
    ensures Contains(n, Steps(n.ip, k)) <==> k < Size(p)
    ensures k < Size(p) ==> (Steps(n.ip, k) == n.ip <==> k == 0)
    ensures k < Size(p) ==> (Steps(n.ip, k) == Broadcast(n) <==> k == Size(p) - 1)
  {
    hide Value, Contains, Broadcast, Size, Pow256, Parsed;
    assert |n.ip| == |n.mask| == 4 && p <= 32 by { ParsedLength(n, p); }
    FourthPower();
    HalfAtMost(p);
    BroadcastIsLast(n, p);
    ContainsIsInterval(n, p, n.ip);
    ContainsIsInterval(n, p, Steps(n.ip, k));
    if Value(n.ip) + k < 0x1_0000_0000 {
      StepsValue(n.ip, k);
      if k == Size(p) - 1 {
        ValueInjective(Steps(n.ip, k), Broadcast(n));
      }
    } else {
      StepsValue(n.ip, k - 1);
      NextIsPlusOne(Steps(n.ip, k - 1));
      SelfMod(0x1_0000_0000);
    }
  }

  lemma HalfAtMost(p: nat)
    requires 1 <= p <= 32
    ensures 1 <= Size(p) <= 0x8000_0000
  {
    HalfAtMostFrom(p);
  }

  lemma {:induction false} HalfAtMostFrom(p: nat)
    requires 1 <= p <= 32
    ensures Pow2(32 - p) <= 0x8000_0000
    decreases p
  {
    if p > 1 {
      HalfAtMostFrom(p - 1);
      assert Pow2(32 - (p - 1)) == 2 * Pow2(32 - p);
    } else {
      Pow2Plus8(23);
      Pow2Plus8(15);
      Pow2Plus8(7);
      assert Pow2(3) == 8 && Pow2(7) == 16 * Pow2(3);
    }
  }

  // A block of prefix length 0 has no outside, so walking it never ends.
  lemma EverythingInside(n: IPNet, ip: Address)
    requires Parsed(n, 0) && |ip| == 4
    ensures Contains(n, ip)
  {
    hide Value;
    ContainsIsInterval(n, 0, ip);
    ContainsIsInterval(n, 0, n.ip);
    FourthPower();
    Pow2Plus8(24);
    Pow2Plus8(16);
    Pow2Plus8(8);
    Pow2Plus8(0);
    assert Size(0) == 0x1_0000_0000;
  }

  // --- the pool ---

  datatype Pool = Pool(available: seq<string>, allocatedIPs: set<string>)

  datatype Op = Allocate | Release(ip: string)

  function Do(p: Pool, op: Op): Pool {
    match op
    case Allocate =>
      if p.available == [] then p else Pool(p.available[1..], p.allocatedIPs + {p.available[0]})
    case Release(ip) =>
      if ip !in p.allocatedIPs then p else Pool(p.available + [ip], p.allocatedIPs - {ip})
  }

  // The address an operation hands out, if it does.
  function Out(p: Pool, op: Op): seq<string> {
    if op.Allocate? && p.available != [] then [p.available[0]] else []
  }

  // The address an operation takes back, if it does.
  function Back(p: Pool, op: Op): seq<string> {
    if op.Release? && op.ip in p.allocatedIPs then [op.ip] else []
  }

  function Exec(p: Pool, ops: seq<Op>): Pool
    decreases |ops|
  {
    if ops == [] then p else Exec(Do(p, ops[0]), ops[1..])
  }

  // The addresses handed out in a run.
  function HandedOut(p: Pool, ops: seq<Op>): seq<string>
    decreases |ops|
  {
    if ops == [] then [] else Out(p, ops[0]) + HandedOut(Do(p, ops[0]), ops[1..])
  }

  function TakenBack(p: Pool, ops: seq<Op>): seq<string>
    decreases |ops|
  {
    if ops == [] then [] else Back(p, ops[0]) + TakenBack(Do(p, ops[0]), ops[1..])
  }

  predicate NoDuplicates(s: seq<string>) { forall i, j :: 0 <= i < j < |s| ==> s[i] != s[j] }

  // Every host is either available, once, or allocated.
  ghost predicate Partition(p: Pool, hosts: set<string>) {
    && NoDuplicates(p.available)
    && (forall ip :: ip in p.available ==> ip !in p.allocatedIPs)
    && (forall ip :: ip in hosts <==> ip in p.available || ip in p.allocatedIPs)
  }

  lemma DoKeeps(p: Pool, hosts: set<string>, op: Op)
    requires Partition(p, hosts)
    ensures Partition(Do(p, op), hosts)
  {
    if p.available != [] {
      assert p.available == [p.available[0]] + p.available[1..];
    }
  }

  /** Over a pool's whole life its available and allocated addresses are disjoint, without
      duplicates, and together the hosts it was made for; so allocation fails exactly when every
      host is allocated. */
  lemma {:induction false} PoolPartitions(p: Pool, hosts: set<string>, ops: seq<Op>)
    requires Partition(p, hosts)
    ensures Partition(Exec(p, ops), hosts)
    ensures Out(Exec(p, ops), Allocate) == [] <==> Exec(p, ops).allocatedIPs == hosts
    decreases |ops|
  {
    if ops != [] {
      DoKeeps(p, hosts, ops[0]);
      PoolPartitions(Do(p, ops[0]), hosts, ops[1..]);
    } else {
      if p.available != [] {
        assert p.available[0] in hosts;
      } else {
        assert p.allocatedIPs == hosts;
      }
    }
  }

  /** No two holders share an address: one that is allocated is handed out again only after it has
      been released. */
  lemma {:induction false} NotHandedOutTwice(p: Pool, hosts: set<string>, ops: seq<Op>, ip: string)
    requires Partition(p, hosts) && ip in p.allocatedIPs && ip !in TakenBack(p, ops)
    ensures ip !in HandedOut(p, ops) && ip in Exec(p, ops).allocatedIPs
    decreases |ops|
  {
    if ops != [] {
      DoKeeps(p, hosts, ops[0]);
      assert ip !in Back(p, ops[0]);
      assert ip !in Out(p, ops[0]);
      NotHandedOutTwice(Do(p, ops[0]), hosts, ops[1..], ip);
    }
  }

  // The address at place k of the queue moves up by one with each address handed out.
  lemma {:induction false} MovesUp(p: Pool, ops: seq<Op>, k: nat)
    requires k < |p.available|
    ensures |HandedOut(p, ops)| > k ==> HandedOut(p, ops)[k] == p.available[k]
    decreases |ops|
  {
    if ops != [] {
      var p' := Do(p, ops[0]);
      if Out(p, ops[0]) == [] {
        assert p'.available[k] == p.available[k];
        MovesUp(p', ops[1..], k);
      } else if k > 0 {
        assert p'.available[k - 1] == p.available[k];
        MovesUp(p', ops[1..], k - 1);
      }
    }
  }

  // It is not handed out before its turn.
  lemma {:induction false} NotEarlier(p: Pool, hosts: set<string>, ops: seq<Op>, k: nat, i: nat)
    requires Partition(p, hosts) && i < k < |p.available| && i < |HandedOut(p, ops)|
    ensures HandedOut(p, ops)[i] != p.available[k]
    decreases |ops|
  {
    hide Partition;
    var p' := Do(p, ops[0]);
    DoKeeps(p, hosts, ops[0]);
    if Out(p, ops[0]) == [] {
      assert p'.available[k] == p.available[k];
      NotEarlier(p', hosts, ops[1..], k, i);
    } else if i > 0 {
      assert p'.available[k - 1] == p.available[k];
      NotEarlier(p', hosts, ops[1..], k - 1, i - 1);
    } else {
      FirstIsNot(p, hosts, k);
    }
  }

  lemma FirstIsNot(p: Pool, hosts: set<string>, k: nat)
    requires Partition(p, hosts) && 0 < k < |p.available|
    ensures p.available[0] != p.available[k]
  {
  }

  /** First in, first out: an address released while k are available is handed out again by exactly
      the (k+1)-th later allocation that succeeds, whatever else is released in between. */
  lemma ReusedExactlyInTurn(p: Pool, hosts: set<string>, ip: string, ops: seq<Op>)
    requires Partition(p, hosts) && ip in p.allocatedIPs
    ensures var later := HandedOut(Do(p, Release(ip)), ops);
            var k := |p.available|;
            && (|later| > k ==> later[k] == ip)
            && (forall i :: 0 <= i < k && i < |later| ==> later[i] != ip)
  {
    DoKeeps(p, hosts, Release(ip));
    var p', k := Do(p, Release(ip)), |p.available|;
    MovesUp(p', ops, k);
    forall i | 0 <= i < k && i < |HandedOut(p', ops)| ensures HandedOut(p', ops)[i] != ip {
      NotEarlier(p', hosts, ops, k, i);
    }
  }

  // A new pool is partitioned.
  lemma NewPool(n: IPNet, p: nat)
    requires Parsed(n, p)
    ensures Partition(Pool(Hosts(n, p), {}), set ip | ip in Hosts(n, p))
  {
    hide Value, Steps, Dotted, Broadcast, Parsed;
    forall i, j | 0 <= i < j < |Hosts(n, p)| ensures Hosts(n, p)[i] != Hosts(n, p)[j] {
      HostsAscend(n, p, i, j);
    }
  }

  // --- the adapter ---

  datatype Error = AdapterClosed | EmptyNetworkName | EmptyAddress | NoPool | NoAvailableAddress | NotAllocated

  class IpPool {
    var allocatedIPs: set<string>
    var available: seq<string>

    ghost function View(): Pool
      reads this
    {
      Pool(available, allocatedIPs)
    }

    constructor (hosts: seq<string>)
      ensures View() == Pool(hosts, {})
    {
      available, allocatedIPs := hosts, {};
    }
  }

  class NetworkStoreAdapter {
    var closed: bool
    var ipPools: map<string, IpPool>

    ghost predicate Valid()
      reads this
    {
      forall m, n :: m in ipPools && n in ipPools && m != n ==> ipPools[m] != ipPools[n]
    }

    ghost function PoolAt(name: string): Pool
      requires name in ipPools
      reads this, ipPools.Values
    {
      ipPools[name].View()
    }

    method AllocateIP(networkName: string) returns (r: Result<string, Error>)
      requires Valid()
      modifies ipPools.Values
      ensures Valid()
      ensures closed ==> r == Err(AdapterClosed)
      ensures !closed && networkName == "" ==> r == Err(EmptyNetworkName)
      ensures !closed && networkName != "" && networkName !in ipPools ==> r == Err(NoPool)
      ensures !closed && networkName != "" && networkName in ipPools ==>
                r == if old(PoolAt(networkName)).available == [] then Err(NoAvailableAddress) else Ok(old(PoolAt(networkName)).available[0])
      ensures forall n :: n in ipPools ==>
                PoolAt(n) == if n == networkName && !closed && n != "" then Do(old(PoolAt(n)), Allocate) else old(PoolAt(n))
    {
      if closed {
        return Err(AdapterClosed);
      }
      if networkName == "" {
        return Err(EmptyNetworkName);
      }
      if networkName !in ipPools {
        return Err(NoPool);
      }
      var pool := ipPools[networkName];
      if |pool.available| == 0 {
        return Err(NoAvailableAddress);
      }
      var ip := pool.available[0];
      pool.available := pool.available[1..];
      pool.allocatedIPs := pool.allocatedIPs + {ip};
      return Ok(ip);
    }

    method ReleaseIP(networkName: string, ip: string) returns (r: Result<(), Error>)
      requires Valid()
      modifies ipPools.Values
      ensures Valid()
      ensures closed ==> r == Err(AdapterClosed)
      ensures !closed && networkName == "" ==> r == Err(EmptyNetworkName)
      ensures !closed && networkName != "" && ip == "" ==> r == Err(EmptyAddress)
      ensures !closed && networkName != "" && ip != "" && networkName !in ipPools ==> r == Err(NoPool)
      ensures !closed && networkName != "" && ip != "" && networkName in ipPools ==>
                r == if ip !in old(PoolAt(networkName).allocatedIPs) then Err(NotAllocated) else Ok(())
      ensures forall n :: n in ipPools ==>
                PoolAt(n) == if n == networkName && r.Ok? then Do(old(PoolAt(n)), Release(ip)) else old(PoolAt(n))
    {
      if closed {
        return Err(AdapterClosed);
      }
      if networkName == "" {
        return Err(EmptyNetworkName);
      }
      if ip == "" {
        return Err(EmptyAddress);
      }
      if networkName !in ipPools {
        return Err(NoPool);
      }
      var pool := ipPools[networkName];
      if ip !in pool.allocatedIPs {
        return Err(NotAllocated);
      }
      pool.allocatedIPs := pool.allocatedIPs - {ip};
      pool.available := pool.available + [ip];
      return Ok(());
    }

    // For an IPv4 block of prefix length at least 1; the loop does not end for 0.
    method InitializeIPPool(networkName: string, n: IPNet, ghost p: nat)
      requires Valid() && Parsed(n, p) && 1 <= p
      modifies this`ipPools
      ensures Valid()
      ensures ipPools.Keys == old(ipPools.Keys) + {networkName} && fresh(ipPools[networkName])
      ensures PoolAt(networkName) == Pool(Hosts(n, p), {})
      ensures forall m :: m in old(ipPools) && m != networkName ==> ipPools[m] == old(ipPools[m])
    {
      var available := Enumerate(n, p);
      var pool := new IpPool(available);
      ipPools := ipPools[networkName := pool];
    }
  }

  method Enumerate(n: IPNet, ghost p: nat) returns (available: seq<string>)
    requires Parsed(n, p) && 1 <= p
    ensures available == Hosts(n, p)
  {
    hide Value, Dotted, Contains, Broadcast, Next;
    available := [];
    var ip := new bv8[|n.ip|](i requires 0 <= i < |n.ip| => n.ip[i]);
    assert ip[..] == n.ip;
    ghost var k: nat := 0;
    HalfAtMost(p);
    WalkInside(n, p, 0);
    while Contains(n, ip[..])
      invariant k <= Size(p) && ip[..] == Steps(n.ip, k)
      invariant Contains(n, ip[..]) <==> k < Size(p)
      invariant available == HostsTo(n.ip, Seen(p, k))
      decreases Size(p) - k
    {
      WalkInside(n, p, k);
      WalkInside(n, p, k + 1);
      var broadcast := GetBroadcastAddress(n);
      if ip[..] != n.ip && ip[..] != broadcast[..] {
        available := available + [Dotted(ip[..])];
      }
      ip := NextIP(ip);
      k := k + 1;
    }
  }

  // The hosts among the first k addresses of a block.
  ghost function Seen(p: nat, k: nat): nat
    requires p <= 32 && k <= Size(p)
  {
    if k == 0 then 0 else if k == Size(p) then HostCount(p) else k - 1
  }
}
