/** Time-synchronization spanning tree priority vectors (IEEE 802.1AS-2020 section 10.3.4).

    The program compares two vectors with `memcmp` over their packed 28-byte memory image.
    `Superior` is the order the other modules reason with; `ComparePriorityVectors` is the
    byte loop, proved to decide that order on either byte order of the host. */
module Priority {
  import opened Words

  /** A clock identity: eight octets, read with the first octet most significant. */
  type ClockIdentity = x: int | 0 <= x < 0x1_0000_0000_0000_0000

  const ALL_ONES: ClockIdentity := 0xFFFF_FFFF_FFFF_FFFF

  /** Byte order of the host; every result below holds for both values. */
  const LITTLE_ENDIAN: bool

  datatype SystemIdentity = SystemIdentity(
    priority1: uint8, clockClass: uint8, clockAccuracy: uint8,
    offsetScaledLogVariance: uint16, priority2: uint8, clockIdentity: ClockIdentity)

  datatype PortIdentity = PortIdentity(clockIdentity: ClockIdentity, portNumber: uint16)

  datatype PriorityVector = PriorityVector(
    root: SystemIdentity, stepsRemoved: uint16, source: PortIdentity, portNumber: uint16)

  /** The vector that is worst in every component (all octets 0xFF). */
  const WORST: PriorityVector :=
    PriorityVector(SystemIdentity(0xFF, 0xFF, 0xFF, 0xFFFF, 0xFF, ALL_ONES),
                   0xFFFF, PortIdentity(ALL_ONES, 0xFFFF), 0xFFFF)

  /** A 16-bit field as `memcmp` sees it: its octets in memory order, first octet most significant. */
  function MemoryOrder(x: uint16): uint16 {
    if LITTLE_ENDIAN then (x % 0x100) * 0x100 + x / 0x100 else x
  }

  predicate BetterIdentity(a: SystemIdentity, b: SystemIdentity) {
    a.priority1 < b.priority1 || (a.priority1 == b.priority1 &&
    (a.clockClass < b.clockClass || (a.clockClass == b.clockClass &&
    (a.clockAccuracy < b.clockAccuracy || (a.clockAccuracy == b.clockAccuracy &&
    (MemoryOrder(a.offsetScaledLogVariance) < MemoryOrder(b.offsetScaledLogVariance) ||
    (a.offsetScaledLogVariance == b.offsetScaledLogVariance &&
    (a.priority2 < b.priority2 || (a.priority2 == b.priority2 &&
    a.clockIdentity < b.clockIdentity)))))))))
  }

  /** Everything after the root identity. */
  predicate BetterTail(a: PriorityVector, b: PriorityVector) {
    MemoryOrder(a.stepsRemoved) < MemoryOrder(b.stepsRemoved) || (a.stepsRemoved == b.stepsRemoved &&
    (a.source.clockIdentity < b.source.clockIdentity || (a.source.clockIdentity == b.source.clockIdentity &&
    (MemoryOrder(a.source.portNumber) < MemoryOrder(b.source.portNumber) ||
    (a.source.portNumber == b.source.portNumber &&
    MemoryOrder(a.portNumber) < MemoryOrder(b.portNumber))))))
  }

  /** `a` is strictly better than `b`. */
  predicate Superior(a: PriorityVector, b: PriorityVector) {
    BetterIdentity(a.root, b.root) || (a.root == b.root && BetterTail(a, b))
  }

  lemma MemoryOrderInjective(x: uint16, y: uint16)
    ensures MemoryOrder(x) == MemoryOrder(y) <==> x == y
  {
    assert x == (x / 0x100) * 0x100 + x % 0x100;
    assert y == (y / 0x100) * 0x100 + y % 0x100;
  }

  lemma IdentityTotal(a: SystemIdentity, b: SystemIdentity)
    ensures a == b || BetterIdentity(a, b) || BetterIdentity(b, a)
    ensures !(BetterIdentity(a, b) && BetterIdentity(b, a))
    ensures BetterIdentity(a, b) ==> a != b
  {
    MemoryOrderInjective(a.offsetScaledLogVariance, b.offsetScaledLogVariance);
  }

  lemma IdentityTransitive(a: SystemIdentity, b: SystemIdentity, c: SystemIdentity)
    requires BetterIdentity(a, b) && BetterIdentity(b, c)
    ensures BetterIdentity(a, c)
  {}

  lemma TailTotal(a: PriorityVector, b: PriorityVector)
    requires a.root == b.root
    ensures a == b || BetterTail(a, b) || BetterTail(b, a)
    ensures !(BetterTail(a, b) && BetterTail(b, a))
    ensures BetterTail(a, b) ==> a != b
  {
    MemoryOrderInjective(a.stepsRemoved, b.stepsRemoved);
    MemoryOrderInjective(a.source.portNumber, b.source.portNumber);
    MemoryOrderInjective(a.portNumber, b.portNumber);
  }

  /** The order is total: exactly one of equal, better, worse. */
  lemma SuperiorTotal(a: PriorityVector, b: PriorityVector)
    ensures a == b || Superior(a, b) || Superior(b, a)
    ensures !(Superior(a, b) && Superior(b, a))
    ensures Superior(a, b) ==> a != b
  {
    IdentityTotal(a.root, b.root);
    if a.root == b.root { TailTotal(a, b); }
  }

  lemma SuperiorTransitive(a: PriorityVector, b: PriorityVector, c: PriorityVector)
    requires Superior(a, b) && Superior(b, c)
    ensures Superior(a, c)
  {
    if BetterIdentity(a.root, b.root) && BetterIdentity(b.root, c.root) {
      IdentityTransitive(a.root, b.root, c.root);
    }
  }

  /** Not being beaten is transitive: the relation "at least as good". */
  lemma NotWorseTransitive(a: PriorityVector, b: PriorityVector, c: PriorityVector)
    requires !Superior(b, a) && !Superior(c, b)
    ensures !Superior(c, a)
  {
    SuperiorTotal(a, b);
    SuperiorTotal(b, c);
    SuperiorTotal(a, c);
    if a != b && b != c { SuperiorTransitive(a, b, c); }
  }

  /** For the hop counts an announce may carry, fewer steps removed is better. */
  lemma FewerStepsBetter(a: PriorityVector, b: PriorityVector)
    requires a.root == b.root && a.stepsRemoved < b.stepsRemoved < 0x100
    ensures Superior(a, b)
  {
    assert a.stepsRemoved / 0x100 == 0 && b.stepsRemoved / 0x100 == 0;
  }

  lemma NothingWorse(a: PriorityVector)
    ensures !Superior(WORST, a)
  {
    MemoryOrderBound(a.root.offsetScaledLogVariance);
    MemoryOrderBound(a.stepsRemoved);
    MemoryOrderBound(a.source.portNumber);
    MemoryOrderBound(a.portNumber);
  }

  lemma MemoryOrderBound(x: uint16)
    ensures MemoryOrder(x) <= MemoryOrder(0xFFFF)
  {}

  // ------------------------------------------------------------------ the memory image

  /** The two octets of a 16-bit field in memory order. */
  function Octets16(x: uint16): (r: seq<uint8>)
    ensures |r| == 2 && (r[0] as int) * 0x100 + r[1] == MemoryOrder(x)
  {
    if LITTLE_ENDIAN then [x % 0x100, x / 0x100] else [x / 0x100, x % 0x100]
  }

  /** The low `n` octets of `x`, most significant first. */
  function OctetsBE(x: int, n: nat): (r: seq<uint8>)
    requires x >= 0
    ensures |r| == n
  {
    if n == 0 then [] else OctetsBE(x / 0x100, n - 1) + [x % 0x100]
  }

  function IdentityImage(r: SystemIdentity): (s: seq<uint8>)
    ensures |s| == 14
  {
    [r.priority1, r.clockClass, r.clockAccuracy] + Octets16(r.offsetScaledLogVariance) +
    [r.priority2] + OctetsBE(r.clockIdentity, 8)
  }

  /** The packed structure: root identity, steps removed, source port identity, port number. */
  function Image(v: PriorityVector): (s: seq<uint8>)
    ensures |s| == 28
  {
    IdentityImage(v.root) + Octets16(v.stepsRemoved) +
    OctetsBE(v.source.clockIdentity, 8) + Octets16(v.source.portNumber) + Octets16(v.portNumber)
  }

  /** Sign of the first difference, as `memcmp` defines it. */
  function Memcmp(s: seq<uint8>, t: seq<uint8>): int
    requires |s| == |t|
  {
    if s == [] then 0
    else if s[0] < t[0] then -1
    else if s[0] > t[0] then 1
    else Memcmp(s[1..], t[1..])
  }

  lemma {:induction false} MemcmpAppend(a: seq<uint8>, b: seq<uint8>, c: seq<uint8>, d: seq<uint8>)
    requires |a| == |b| && |c| == |d|
    ensures Memcmp(a + c, b + d) == if Memcmp(a, b) != 0 then Memcmp(a, b) else Memcmp(c, d)
  {
    if a == [] {
      assert a + c == c && b + d == d;
    } else {
      assert (a + c)[1..] == a[1..] + c && (b + d)[1..] == b[1..] + d;
      MemcmpAppend(a[1..], b[1..], c, d);
    }
  }

  predicate SameSign(m: int, x: int, y: int) {
    (m < 0 <==> x < y) && (m == 0 <==> x == y)
  }

  lemma Memcmp16(x: uint16, y: uint16)
    ensures SameSign(Memcmp(Octets16(x), Octets16(y)), MemoryOrder(x), MemoryOrder(y))
    ensures Memcmp(Octets16(x), Octets16(y)) == 0 <==> x == y
  {
    var s, t := Octets16(x), Octets16(y);
    assert Memcmp(s, t) == if s[0] < t[0] then -1 else if s[0] > t[0] then 1 else Memcmp(s[1..], t[1..]);
    assert s[1..] == [s[1]] && t[1..] == [t[1]];
    MemoryOrderInjective(x, y);
    Memcmp8(s[1], t[1]);
  }

  lemma Memcmp8(x: uint8, y: uint8)
    ensures SameSign(Memcmp([x], [y]), x, y)
  {}

  lemma {:induction false} MemcmpBE(x: int, y: int, n: nat)
    requires 0 <= x < Pow256(n) && 0 <= y < Pow256(n)
    ensures SameSign(Memcmp(OctetsBE(x, n), OctetsBE(y, n)), x, y)
  {
    if n > 0 {
      var hx, hy := x / 0x100, y / 0x100;
      assert x == hx * 0x100 + x % 0x100 && y == hy * 0x100 + y % 0x100;
      MemcmpBE(hx, hy, n - 1);
      MemcmpAppend(OctetsBE(hx, n - 1), OctetsBE(hy, n - 1), [x % 0x100], [y % 0x100]);
      Memcmp8(x % 0x100, y % 0x100);
    }
  }

  function Pow256(n: nat): nat {
    if n == 0 then 1 else 0x100 * Pow256(n - 1)
  }

  lemma ClockIdentityFits(c: ClockIdentity)
    ensures c < Pow256(8)
  {
    assert Pow256(4) == 0x1_0000_0000;
  }

  lemma MemcmpIdentity(a: SystemIdentity, b: SystemIdentity)
    ensures Memcmp(IdentityImage(a), IdentityImage(b)) < 0 <==> BetterIdentity(a, b)
    ensures Memcmp(IdentityImage(a), IdentityImage(b)) == 0 <==> a == b
  {
    hide Memcmp;
    hide OctetsBE;
    hide MemoryOrder;
    var a1, b1 := [a.priority2] + OctetsBE(a.clockIdentity, 8), [b.priority2] + OctetsBE(b.clockIdentity, 8);
    var a2, b2 := Octets16(a.offsetScaledLogVariance) + a1, Octets16(b.offsetScaledLogVariance) + b1;
    var a3, b3 := [a.clockAccuracy] + a2, [b.clockAccuracy] + b2;
    var a4, b4 := [a.clockClass] + a3, [b.clockClass] + b3;
    assert IdentityImage(a) == [a.priority1] + a4;
    assert IdentityImage(b) == [b.priority1] + b4;
    MemcmpAppend([a.priority1], [b.priority1], a4, b4);
    MemcmpAppend([a.clockClass], [b.clockClass], a3, b3);
    MemcmpAppend([a.clockAccuracy], [b.clockAccuracy], a2, b2);
    MemcmpAppend(Octets16(a.offsetScaledLogVariance), Octets16(b.offsetScaledLogVariance), a1, b1);
    MemcmpAppend([a.priority2], [b.priority2], OctetsBE(a.clockIdentity, 8), OctetsBE(b.clockIdentity, 8));
    Memcmp8(a.priority1, b.priority1);
    Memcmp8(a.clockClass, b.clockClass);
    Memcmp8(a.clockAccuracy, b.clockAccuracy);
    Memcmp16(a.offsetScaledLogVariance, b.offsetScaledLogVariance);
    Memcmp8(a.priority2, b.priority2);
    ClockIdentityFits(a.clockIdentity);
    ClockIdentityFits(b.clockIdentity);
    MemcmpBE(a.clockIdentity, b.clockIdentity, 8);
  }

  lemma MemcmpTail(a: PriorityVector, b: PriorityVector)
    ensures |Image(a)[14..]| == |Image(b)[14..]|
    ensures Memcmp(Image(a)[14..], Image(b)[14..]) < 0 <==> BetterTail(a, b)
    ensures Memcmp(Image(a)[14..], Image(b)[14..]) == 0 <==>
            a.stepsRemoved == b.stepsRemoved && a.source == b.source && a.portNumber == b.portNumber
  {
    var a1, b1 := Octets16(a.source.portNumber) + Octets16(a.portNumber),
                  Octets16(b.source.portNumber) + Octets16(b.portNumber);
    var a2, b2 := OctetsBE(a.source.clockIdentity, 8) + a1, OctetsBE(b.source.clockIdentity, 8) + b1;
    assert Image(a)[14..] == Octets16(a.stepsRemoved) + a2;
    assert Image(b)[14..] == Octets16(b.stepsRemoved) + b2;
    MemcmpAppend(Octets16(a.stepsRemoved), Octets16(b.stepsRemoved), a2, b2);
    MemcmpAppend(OctetsBE(a.source.clockIdentity, 8), OctetsBE(b.source.clockIdentity, 8), a1, b1);
    MemcmpAppend(Octets16(a.source.portNumber), Octets16(b.source.portNumber),
                 Octets16(a.portNumber), Octets16(b.portNumber));
    Memcmp16(a.stepsRemoved, b.stepsRemoved);
    Memcmp16(a.source.portNumber, b.source.portNumber);
    Memcmp16(a.portNumber, b.portNumber);
    ClockIdentityFits(a.source.clockIdentity);
    ClockIdentityFits(b.source.clockIdentity);
    MemcmpBE(a.source.clockIdentity, b.source.clockIdentity, 8);
  }

  /** Comparing memory images is comparing vectors: field by field, and nothing is lost. */
  lemma ImageOrder(a: PriorityVector, b: PriorityVector)
    ensures Memcmp(Image(a), Image(b)) < 0 <==> Superior(a, b)
    ensures Memcmp(Image(a), Image(b)) == 0 <==> a == b
  {
    MemcmpIdentity(a.root, b.root);
    MemcmpTail(a, b);
    assert Image(a) == IdentityImage(a.root) + Image(a)[14..];
    assert Image(b) == IdentityImage(b.root) + Image(b)[14..];
    MemcmpAppend(IdentityImage(a.root), IdentityImage(b.root), Image(a)[14..], Image(b)[14..]);
  }

  datatype Comparison = SamePriority | SuperiorPriority | InferiorPriority

  method ComparePriorityVectors(a: PriorityVector, b: PriorityVector) returns (c: Comparison)
    ensures c == SuperiorPriority <==> Superior(a, b)
    ensures c == InferiorPriority <==> Superior(b, a)
    ensures c == SamePriority <==> a == b
  {
    var s, t := Image(a), Image(b);
    ImageOrder(a, b);
    SuperiorTotal(a, b);
    var i := 0;
    while i < 28 && s[i] == t[i]
      invariant 0 <= i <= 28
      invariant Memcmp(s[i..], t[i..]) == Memcmp(s, t)
    {
      assert s[i..][1..] == s[i + 1..] && t[i..][1..] == t[i + 1..];
      i := i + 1;
    }
    if i == 28 {
      c := SamePriority;
    } else if s[i] < t[i] {
      c := SuperiorPriority;
    } else {
      c := InferiorPriority;
    }
  }
}
