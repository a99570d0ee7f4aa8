/** The guest address allocator and the tap devices of internal/firecracker/network.go. */
module Network {
  import opened Bytes
  import opened Options

  datatype IPv4 = IPv4(a: Byte, b: Byte, c: Byte, d: Byte)

  /** `ip.Mask(ip.DefaultMask())`: the class of the address decides how much is kept. */
  function BaseOf(ip: IPv4): (base: IPv4)
    ensures base.d == 0
  {
    if ip.a < 0x80 then IPv4(ip.a, 0, 0, 0)
    else if ip.a < 0xC0 then IPv4(ip.a, ip.b, 0, 0)
    else IPv4(ip.a, ip.b, ip.c, 0)
  }

  function OffsetIP(base: IPv4, offset: nat): IPv4
  {
    base.(d := (base.d + offset % 256) % 256)
  }

  function IpOffset(base: IPv4, ip: IPv4): nat
  {
    (ip.d - base.d) % 256
  }

  /** Only the low byte of an offset survives the trip through an address. */
  lemma OffsetRoundTrip(base: IPv4, offset: nat)
    ensures IpOffset(base, OffsetIP(base, offset)) == offset % 256
    ensures IpOffset(base, OffsetIP(base, offset)) == offset <==> offset < 256
  {}

  lemma SameAddress(base: IPv4, x: nat, y: nat)
    ensures OffsetIP(base, x) == OffsetIP(base, y) <==> x % 256 == y % 256
  {
    OffsetRoundTrip(base, x);
    OffsetRoundTrip(base, y);
  }

  // ---- The allocator's own state ----

  datatype Net = Net(base: IPv4, nextIP: nat, released: seq<nat>)
  {
    /** The offset the next allocation uses: the last one released, else a new one. */
    function NextOffset(): nat
    {
      if released != [] then released[|released| - 1] else nextIP
    }

    function Allocated(): Net
    {
      if released != [] then this.(released := released[..|released| - 1])
      else this.(nextIP := (nextIP + 1) % UINT32)
    }

    function Released(ip: IPv4): Net
    {
      this.(released := released + [IpOffset(base, ip)])
    }
  }

  /** Giving back the address just allocated makes it the next one again, so an allocation
      that is rolled back costs nothing but, possibly, one raise of the counter. */
  lemma AllocateThenRelease(n: Net)
    ensures var after := n.Allocated().Released(OffsetIP(n.base, n.NextOffset()));
            && OffsetIP(after.base, after.NextOffset()) == OffsetIP(n.base, n.NextOffset())
            && after.Allocated() == n.Allocated()
            && (n.released != [] && n.NextOffset() < 256 ==> after == n)
  {
    OffsetRoundTrip(n.base, n.NextOffset());
    var after := n.Allocated().Released(OffsetIP(n.base, n.NextOffset()));
    assert after.released[..|after.released| - 1] == n.Allocated().released;
  }

  // ---- The ledger: which allocations are outstanding ----

  /** Allocations are numbered in order: `issued[t]` is the address allocation `t` returned,
      `freed` the ones that were released, `peak` the most that were ever outstanding. */
  datatype Ledger = Ledger(net: Net, issued: seq<IPv4>, freed: set<nat>, peak: nat)
  {
    predicate Outstanding(t: nat) { t < |issued| && t !in freed }

    function Offset(t: nat): nat
      requires t < |issued|
    {
      IpOffset(net.base, issued[t])
    }
  }

  datatype Event = Allocate | Free(tag: nat)

  predicate Legal(l: Ledger, e: Event)
  {
    e.Free? ==> l.Outstanding(e.tag)
  }

  function Issue(l: Ledger): Ledger
  {
    var live := |l.issued| + 1 - |l.freed|;
    Ledger(l.net.Allocated(), l.issued + [OffsetIP(l.net.base, l.net.NextOffset())], l.freed,
           if live > l.peak then live else l.peak)
  }

  function Return(l: Ledger, t: nat): Ledger
    requires l.Outstanding(t)
  {
    l.(net := l.net.Released(l.issued[t]), freed := l.freed + {t})
  }

  function Apply(l: Ledger, e: Event): Ledger
    requires Legal(l, e)
  {
    match e
    case Allocate => Issue(l)
    case Free(t) => Return(l, t)
  }

  function Fresh(base: IPv4): Ledger { Ledger(Net(base, 2, []), [], {}, 0) }

  predicate LegalRun(l: Ledger, es: seq<Event>)
    decreases |es|
  {
    es != [] ==> Legal(l, es[0]) && LegalRun(Apply(l, es[0]), es[1..])
  }

  function Run(l: Ledger, es: seq<Event>): Ledger
    requires LegalRun(l, es)
    decreases |es|
  {
    if es == [] then l else Run(Apply(l, es[0]), es[1..])
  }

  // ---- Bookkeeping ----

  /** Byte offset `b` is the low byte of one of the numbers from 2 to `most` + 1. */
  predicate Covered(most: nat, b: nat) { 2 <= b < most + 2 || b + 256 < most + 2 }

  ghost predicate Counts(l: Ledger)
  {
    && (forall t :: t in l.freed ==> t < |l.issued|)
    && |l.issued| - |l.freed| <= l.peak
    && l.net.nextIP == (l.peak + 2) % UINT32
    && |l.issued| - |l.freed| + |l.net.released| == l.peak
  }

  ghost predicate LowBytes(l: Ledger)
  {
    && (forall t :: 0 <= t < |l.issued| ==> l.issued[t] == OffsetIP(l.net.base, l.Offset(t)))
    && (forall i :: 0 <= i < |l.net.released| ==>
         l.net.released[i] < 256 && Covered(l.peak, l.net.released[i]))
    && (forall t :: 0 <= t < |l.issued| ==> Covered(l.peak, l.Offset(t)))
    && (forall b :: 0 <= b < 256 && Covered(l.peak, b) ==> exists t :: 0 <= t < |l.issued| && l.Offset(t) == b)
  }

  /** No byte offset is in two places among the outstanding allocations and the free list. */
  ghost predicate Disjoint(l: Ledger)
  {
    && (forall i, j :: 0 <= i < j < |l.net.released| ==> l.net.released[i] != l.net.released[j])
    && (forall s, t :: 0 <= s < t < |l.issued| && l.Outstanding(s) && l.Outstanding(t) ==> l.Offset(s) != l.Offset(t))
    && (forall t :: 0 <= t < |l.issued| && l.Outstanding(t) ==> l.Offset(t) !in l.net.released)
  }

  ghost predicate Placed(l: Ledger, b: nat)
  {
    b in l.net.released || exists t :: 0 <= t < |l.issued| && l.Outstanding(t) && l.Offset(t) == b
  }

  /** Every byte offset ever used is outstanding or on the free list. */
  ghost predicate Complete(l: Ledger)
  {
    forall b :: 0 <= b < 256 && Covered(l.peak, b) ==> Placed(l, b)
  }

  ghost predicate Books(l: Ledger)
  {
    && Counts(l)
    && LowBytes(l) && Complete(l)
    && (l.peak <= 256 ==> Disjoint(l))
  }

  lemma CountsKept(l: Ledger, e: Event)
    requires Counts(l) && Legal(l, e)
    ensures Counts(Apply(l, e)) && l.peak <= Apply(l, e).peak
  {}

  lemma OffsetsAfterIssue(l: Ledger)
    ensures var m := Issue(l);
            && |m.issued| == |l.issued| + 1
            && m.Offset(|l.issued|) == l.net.NextOffset() % 256
            && forall t :: 0 <= t < |l.issued| ==> m.Offset(t) == l.Offset(t)
  {
    OffsetRoundTrip(l.net.base, l.net.NextOffset());
  }

  lemma NewOffsetCovered(most: nat)
    ensures Covered(most + 1, (most + 2) % 256)
    ensures most < 256 ==> !Covered(most, (most + 2) % 256)
    ensures forall b :: Covered(most, b) ==> Covered(most + 1, b)
    ensures forall b :: 0 <= b < 256 && Covered(most + 1, b) ==> Covered(most, b) || b == (most + 2) % 256
  {}

  /** The counter wraps around at 32 bits, a multiple of the byte an offset is cut to. */
  lemma CounterLowByte(l: Ledger)
    requires Counts(l)
    ensures l.net.nextIP % 256 == (l.peak + 2) % 256
    ensures l.net.released == [] ==> Issue(l).peak == l.peak + 1
    ensures l.net.released != [] ==> Issue(l).peak == l.peak
  {
    var n := l.peak + 2;
    assert n == 256 * (n / UINT32 * 0x100_0000) + n % UINT32;
    LowByteOfSum(n / UINT32 * 0x100_0000, n % UINT32);
  }

  lemma LowByteOfSum(k: nat, r: nat)
    ensures (256 * k + r) % 256 == r % 256
  {
    assert 256 * k + r == 256 * (k + r / 256) + r % 256;
  }

  lemma BytesKeptByIssue(l: Ledger)
    requires Counts(l) && LowBytes(l)
    ensures LowBytes(Issue(l))
  {
    var m, n := Issue(l), |l.issued|;
    NewLowByte(l);
    hide OffsetIP, IpOffset, Covered, Counts;
    forall b | 0 <= b < 256 && Covered(m.peak, b)
      ensures exists t :: 0 <= t < |m.issued| && m.Offset(t) == b
    {
      if Covered(l.peak, b) {
        var t :| 0 <= t < n && l.Offset(t) == b;
        assert m.Offset(t) == b;
      } else {
        assert m.Offset(n) == b;
      }
    }
    forall i | 0 <= i < |m.net.released|
      ensures m.net.released[i] < 256 && Covered(m.peak, m.net.released[i])
    {
      assert m.net.released[i] == l.net.released[i];
    }
  }

  /** What an allocation does to the low bytes in use. */
  lemma NewLowByte(l: Ledger)
    requires Counts(l) && LowBytes(l)
    ensures var m, n := Issue(l), |l.issued|;
            && |m.issued| == n + 1
            && (forall t :: 0 <= t < n ==> m.Offset(t) == l.Offset(t) && m.issued[t] == l.issued[t])
            && m.issued[n] == OffsetIP(m.net.base, m.Offset(n))
            && Covered(m.peak, m.Offset(n))
            && (forall b :: Covered(l.peak, b) ==> Covered(m.peak, b))
            && (forall b :: 0 <= b < 256 && Covered(m.peak, b) ==> Covered(l.peak, b) || b == m.Offset(n))
            && (forall t :: 0 <= t < n ==> m.issued[t] == OffsetIP(m.net.base, m.Offset(t)))
  {
    OffsetsAfterIssue(l);
    NewOffsetCovered(l.peak);
    CounterLowByte(l);
    SameAddress(l.net.base, l.net.NextOffset(), l.net.NextOffset() % 256);
    hide OffsetIP, IpOffset, Covered;
    if l.net.released != [] {
      assert l.net.NextOffset() == l.net.released[|l.net.released| - 1] < 256;
    }
  }

  lemma BytesKeptByReturn(l: Ledger, t: nat)
    requires LowBytes(l) && l.Outstanding(t)
    ensures LowBytes(Return(l, t))
  {
    var m := Return(l, t);
    forall b | 0 <= b < 256 && Covered(m.peak, b)
      ensures exists t :: 0 <= t < |m.issued| && m.Offset(t) == b
    {
      var u :| 0 <= u < |l.issued| && l.Offset(u) == b;
      assert m.Offset(u) == b;
    }
  }

  lemma DisjointKeptByIssue(l: Ledger)
    requires Counts(l) && LowBytes(l) && Disjoint(l) && Issue(l).peak <= 256
    ensures Disjoint(Issue(l))
  {
    var m := Issue(l);
    OffsetsAfterIssue(l);
    NewOffsetCovered(l.peak);
    CounterLowByte(l);
    hide OffsetIP, IpOffset, Covered;
    var added := m.Offset(|l.issued|);
    forall t | 0 <= t < |l.issued| && l.Outstanding(t) ensures m.Offset(t) != added {
      if l.net.released != [] { assert added in l.net.released; }
    }
  }

  lemma DisjointKeptByReturn(l: Ledger, t: nat)
    requires Disjoint(l) && l.Outstanding(t)
    ensures Disjoint(Return(l, t))
  {
    hide OffsetIP, IpOffset;
    var m := Return(l, t);
    assert m.net.released == l.net.released + [l.Offset(t)];
    assert forall u :: 0 <= u < |l.issued| ==> m.Offset(u) == l.Offset(u) && (m.Outstanding(u) ==> l.Outstanding(u) && u != t);
  }

  lemma PlacedKeptByIssue(l: Ledger, b: nat)
    requires Placed(l, b) && LowBytes(l) && Counts(l)
    ensures Placed(Issue(l), b)
  {
    var m := Issue(l);
    OffsetsAfterIssue(l);
    hide OffsetIP, IpOffset;
    if b in l.net.released {
      var i :| 0 <= i < |l.net.released| && l.net.released[i] == b;
      if i == |l.net.released| - 1 {
        assert m.Outstanding(|l.issued|) && m.Offset(|l.issued|) == b;
      } else {
        assert m.net.released[i] == b;
      }
    } else {
      var t :| 0 <= t < |l.issued| && l.Outstanding(t) && l.Offset(t) == b;
      assert m.Outstanding(t) && m.Offset(t) == b;
    }
  }

  lemma PlacedKeptByReturn(l: Ledger, t: nat, b: nat)
    requires Placed(l, b) && l.Outstanding(t)
    ensures Placed(Return(l, t), b)
  {
    hide OffsetIP, IpOffset;
    var m := Return(l, t);
    if b in l.net.released {
      var i :| 0 <= i < |l.net.released| && l.net.released[i] == b;
      assert m.net.released[i] == b;
    } else {
      var u :| 0 <= u < |l.issued| && l.Outstanding(u) && l.Offset(u) == b;
      if u == t {
        assert m.net.released[|l.net.released|] == b;
      } else {
        assert m.Outstanding(u) && m.Offset(u) == b;
      }
    }
  }

  lemma CompleteKept(l: Ledger, e: Event)
    requires Counts(l) && LowBytes(l) && Complete(l) && Legal(l, e)
    ensures Complete(Apply(l, e))
  {
    var m := Apply(l, e);
    if e.Allocate? {
      OffsetsAfterIssue(l);
      NewOffsetCovered(l.peak);
      CounterLowByte(l);
    }
    hide OffsetIP, IpOffset, Covered;
    forall b | 0 <= b < 256 && Covered(m.peak, b) ensures Placed(m, b) {
      if Covered(l.peak, b) {
        assert Placed(l, b);
        if e.Allocate? { PlacedKeptByIssue(l, b); } else { PlacedKeptByReturn(l, e.tag, b); }
      } else {
        assert m.Outstanding(|l.issued|) && m.Offset(|l.issued|) == b;
      }
    }
  }

  lemma BooksKept(l: Ledger, e: Event)
    requires Books(l) && Legal(l, e)
    ensures Books(Apply(l, e)) && l.peak <= Apply(l, e).peak
  {
    CountsKept(l, e);
    var m := Apply(l, e);
    if e.Allocate? { BytesKeptByIssue(l); } else { BytesKeptByReturn(l, e.tag); }
    CompleteKept(l, e);
    if m.peak <= 256 {
      if e.Allocate? { DisjointKeptByIssue(l); } else { DisjointKeptByReturn(l, e.tag); }
    }
  }

  lemma {:induction false} BooksAlways(l: Ledger, es: seq<Event>)
    requires Books(l) && LegalRun(l, es)
    ensures Books(Run(l, es)) && l.peak <= Run(l, es).peak
    decreases |es|
  {
    if es != [] {
      BooksKept(l, es[0]);
      BooksAlways(Apply(l, es[0]), es[1..]);
    }
  }

  // ---- The laws, over every legal run ----

  function LiveCount(l: Ledger): int { |l.issued| - |l.freed| }

  /** The largest number of allocations outstanding at once in a run. */
  function MostLive(l: Ledger, es: seq<Event>): int
    requires LegalRun(l, es)
    decreases |es|
  {
    if es == [] then LiveCount(l)
    else
      var rest := MostLive(Apply(l, es[0]), es[1..]);
      if LiveCount(l) > rest then LiveCount(l) else rest
  }

  lemma {:induction false} PeakIsMostLive(l: Ledger, es: seq<Event>)
    requires Counts(l) && LegalRun(l, es)
    ensures Run(l, es).peak == if MostLive(l, es) > l.peak then MostLive(l, es) else l.peak
    decreases |es|
  {
    if es != [] {
      CountsKept(l, es[0]);
      PeakIsMostLive(Apply(l, es[0]), es[1..]);
    }
  }

  /** High-water mark: the counter has risen by exactly the largest number of addresses ever
      outstanding at once, and outstanding plus released offsets are all it has handed out. */
  lemma HighWaterMark(base: IPv4, es: seq<Event>)
    requires LegalRun(Fresh(base), es)
    ensures var l, most := Run(Fresh(base), es), MostLive(Fresh(base), es);
            && l.net.nextIP == (most + 2) % UINT32
            && (most < UINT32 - 2 ==> l.net.nextIP - 2 == most)
            && LiveCount(l) + |l.net.released| == most
            && Complete(l)
            && (most <= 256 ==> Disjoint(l))
  {
    BooksAlways(Fresh(base), es);
    PeakIsMostLive(Fresh(base), es);
  }

  /** Which addresses a run ever hands out: exactly those whose distance from the base is
      covered by the high-water mark. */
  lemma AddressesHandedOut(base: IPv4, es: seq<Event>, b: nat)
    requires LegalRun(Fresh(base), es) && b < 256
    ensures OffsetIP(base, b) in Run(Fresh(base), es).issued
            <==> Covered(MostLive(Fresh(base), es), b)
  {
    var l := Run(Fresh(base), es);
    BooksAlways(Fresh(base), es);
    PeakIsMostLive(Fresh(base), es);
    BaseNeverChanges(Fresh(base), es);
    OffsetRoundTrip(base, b);
    if OffsetIP(base, b) in l.issued {
      var t :| 0 <= t < |l.issued| && l.issued[t] == OffsetIP(base, b);
      assert Covered(l.peak, l.Offset(t));
    }
    if Covered(l.peak, b) {
      var t :| 0 <= t < |l.issued| && l.Offset(t) == b;
      assert l.issued[t] == OffsetIP(base, b);
    }
  }

  lemma {:induction false} BaseNeverChanges(l: Ledger, es: seq<Event>)
    requires LegalRun(l, es)
    ensures Run(l, es).net.base == l.net.base
    decreases |es|
  {
    if es != [] { BaseNeverChanges(Apply(l, es[0]), es[1..]); }
  }

  /** The base, the gateway next to it and the broadcast address are handed out exactly when
      255, 256 and 254 addresses have been outstanding at once. */
  lemma ReservedAddresses(base: IPv4, es: seq<Event>)
    requires LegalRun(Fresh(base), es)
    ensures var issued, most := Run(Fresh(base), es).issued, MostLive(Fresh(base), es);
            && (base in issued <==> most >= 255)
            && (OffsetIP(base, 1) in issued <==> most >= 256)
            && (OffsetIP(base, 255) in issued <==> most >= 254)
  {
    AddressesHandedOut(base, es, 0);
    AddressesHandedOut(base, es, 1);
    AddressesHandedOut(base, es, 255);
    assert OffsetIP(base, 0) == base;
  }

  /** In the bridge's network: the octets the class of its address keeps are the same, the others but
      the last are zero. */
  predicate InNetwork(bridge: IPv4, ip: IPv4)
  {
    && ip.a == bridge.a
    && ip.b == (if bridge.a >= 128 then bridge.b else 0)
    && ip.c == (if bridge.a >= 192 then bridge.c else 0)
  }

  /** Every address a run hands out is in the network of the bridge. */
  lemma AddressesInNetwork(bridge: IPv4, es: seq<Event>, t: nat)
    requires LegalRun(Fresh(BaseOf(bridge)), es) && t < |Run(Fresh(BaseOf(bridge)), es).issued|
    ensures InNetwork(bridge, Run(Fresh(BaseOf(bridge)), es).issued[t])
  {
    var l := Run(Fresh(BaseOf(bridge)), es);
    BooksAlways(Fresh(BaseOf(bridge)), es);
    BaseNeverChanges(Fresh(BaseOf(bridge)), es);
    OffsetStaysInNetwork(bridge, l.Offset(t));
    hide OffsetIP, IpOffset, BaseOf, Covered;
  }

  lemma OffsetStaysInNetwork(bridge: IPv4, offset: nat)
    ensures InNetwork(bridge, BaseOf(bridge)) && BaseOf(bridge).d == 0
    ensures InNetwork(bridge, OffsetIP(BaseOf(bridge), offset))
  {}

  ghost predicate DistinctAddresses(l: Ledger)
  {
    forall s, t :: 0 <= s < t < |l.issued| && l.Outstanding(s) && l.Outstanding(t) ==> l.issued[s] != l.issued[t]
  }

  ghost predicate DistinctThroughout(l: Ledger, es: seq<Event>)
    requires LegalRun(l, es)
    decreases |es|
  {
    DistinctAddresses(l) && (es != [] ==> DistinctThroughout(Apply(l, es[0]), es[1..]))
  }

  function LiveTags(l: Ledger): (r: set<nat>)
  {
    set t: nat | t < |l.issued| && t !in l.freed
  }

  function TagsBelow(n: nat): (r: set<nat>)
    ensures |r| == n && forall t: nat :: t in r <==> t < n
  {
    if n == 0 then {} else TagsBelow(n - 1) + {n - 1}
  }

  lemma LiveTagsCount(l: Ledger)
    requires Counts(l)
    ensures |LiveTags(l)| == LiveCount(l)
  {
    assert LiveTags(l) == TagsBelow(|l.issued|) - l.freed;
    assert l.freed <= TagsBelow(|l.issued|);
  }

  lemma {:induction false} Pigeonhole(tags: set<nat>, l: Ledger, n: nat)
    requires forall t :: t in tags ==> t < |l.issued| && l.Offset(t) < n
    requires forall s, t :: s in tags && t in tags && s != t ==> l.Offset(s) != l.Offset(t)
    ensures |tags| <= n
  {
    if n == 0 {
      assert forall t :: t !in tags;
    } else if t :| t in tags && l.Offset(t) == n - 1 {
      Pigeonhole(tags - {t}, l, n - 1);
    } else {
      Pigeonhole(tags, l, n - 1);
    }
  }

  lemma DistinctMeansAtMost256(l: Ledger)
    requires Counts(l) && LowBytes(l) && DistinctAddresses(l)
    ensures LiveCount(l) <= 256
  {
    LiveTagsCount(l);
    forall s, t | s in LiveTags(l) && t in LiveTags(l) && s != t ensures l.Offset(s) != l.Offset(t) {
      assert l.issued[s] != l.issued[t];
    }
    Pigeonhole(LiveTags(l), l, 256);
  }

  lemma {:induction false} DistinctIffFew(l: Ledger, es: seq<Event>)
    requires Books(l) && LegalRun(l, es) && DistinctAddresses(l)
    requires l.peak <= 256
    ensures DistinctThroughout(l, es) <==> MostLive(l, es) <= 256
    decreases |es|
  {
    if es == [] {
      DistinctMeansAtMost256(l);
    } else {
      var m := Apply(l, es[0]);
      BooksKept(l, es[0]);
      if m.peak <= 256 {
        assert DistinctAddresses(m);
        DistinctIffFew(m, es[1..]);
      } else {
        assert LiveCount(m) > 256;
        MostLiveIsLargest(m, es[1..]);
        if DistinctAddresses(m) { DistinctMeansAtMost256(m); }
      }
    }
  }

  lemma {:induction false} MostLiveIsLargest(l: Ledger, es: seq<Event>)
    requires LegalRun(l, es)
    ensures LiveCount(l) <= MostLive(l, es)
  {}

  /** Outstanding addresses stay pairwise distinct throughout a run exactly when no more than
      256 are ever outstanding at once. */
  lemma AddressesDistinctIff(base: IPv4, es: seq<Event>)
    requires LegalRun(Fresh(base), es)
    ensures DistinctThroughout(Fresh(base), es) <==> MostLive(Fresh(base), es) <= 256
  {
    DistinctIffFew(Fresh(base), es);
  }

  // ---- Tap devices ----

  const TAP_PREFIX := "cg-"

  function Short(id: string): string { if |id| > 10 then id[..10] else id }

  function TapDeviceName(id: string): (name: string)
    ensures |name| <= 13
  {
    TAP_PREFIX + Short(id)
  }

  /** Two sandboxes share a tap device name exactly when their IDs, or the first ten characters of
      longer ones, agree. */
  lemma TapNamesCollide(x: string, y: string)
    ensures TapDeviceName(x) == TapDeviceName(y) <==>
            x == y || (|x| >= 10 && |y| >= 10 && x[..10] == y[..10])
    ensures "cg-" <= TapDeviceName(x)
  {
    assert TapDeviceName(x)[3..] == Short(x);
    assert TapDeviceName(y)[3..] == Short(y);
  }

  /** Where the three commands that make a tap device stop. */
  datatype TapOutcome = TapUp | AddFails | AttachFails | UpFails

  class NetworkManager {
    const enabled: bool
    const baseIP: IPv4
    var nextIP: nat
    var released: seq<nat>
    /** The tap devices present on the host. */
    var taps: set<string>

    ghost function View(): Net
      reads this
    {
      Net(baseIP, nextIP, released)
    }

    constructor (enabled: bool, bridgeIP: IPv4)
      ensures this.enabled == enabled && taps == {}
      ensures View() == Fresh(BaseOf(bridgeIP)).net && InNetwork(bridgeIP, baseIP) && nextIP == 2
    {
      this.enabled, this.baseIP := enabled, BaseOf(bridgeIP);
      nextIP, released, taps := 2, [], {};
    }

    method AllocateIP() returns (ip: IPv4)
      modifies this
      ensures View() == old(View()).Allocated() && taps == old(taps)
      ensures ip == OffsetIP(baseIP, old(View()).NextOffset())
    {
      var offset;
      if |released| > 0 {
        offset, released := released[|released| - 1], released[..|released| - 1];
      } else {
        offset := nextIP;
        nextIP := (nextIP + 1) % UINT32;
      }
      ip := OffsetIP(baseIP, offset);
    }

    method ReleaseIP(ip: IPv4)
      modifies this
      ensures View() == old(View()).Released(ip) && taps == old(taps)
    {
      released := released + [IpOffset(baseIP, ip)];
    }

    /** Deleting a device that is not there fails, and the failure is ignored; `deletes` tells
        whether the command works. */
    method ReleaseTapDevice(name: string, deletes: bool)
      modifies this
      ensures View() == old(View()) && taps == if deletes then old(taps) - {name} else old(taps)
    {
      if deletes { taps := taps - {name}; }
    }

    method AllocateTap(sandboxID: string, outcome: TapOutcome, deletes: bool) returns (ip: Option<IPv4>)
      modifies this
      ensures ip.Some? <==> enabled && outcome == TapUp && TapDeviceName(sandboxID) !in old(taps)
      ensures ip.Some? ==>
                && View() == old(View()).Allocated() && ip.value == OffsetIP(baseIP, old(View()).NextOffset())
                && taps == old(taps) + {TapDeviceName(sandboxID)}
      ensures ip.None? ==> View() == old(View())
      ensures ip.None? && (deletes || !enabled || outcome == AddFails) ==> taps == old(taps)
    {
      if !enabled { return None; }
      var name := TapDeviceName(sandboxID);
      if outcome == AddFails || name in taps { return None; }
      taps := taps + {name};
      if outcome == AttachFails || outcome == UpFails {
        ReleaseTapDevice(name, deletes);
        return None;
      }
      var address := AllocateIP();
      ip := Some(address);
    }

    method ReleaseTap(sandboxID: string, ip: IPv4, deletes: bool)
      modifies this
      ensures View() == if enabled then old(View()).Released(ip) else old(View())
      ensures taps == if enabled && deletes then old(taps) - {TapDeviceName(sandboxID)} else old(taps)
    {
      if !enabled { return; }
      ReleaseTapDevice(TapDeviceName(sandboxID), deletes);
      ReleaseIP(ip);
    }
  }
}
