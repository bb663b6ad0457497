/** Announce messages on the wire (mdeth.c, md_announce_send_sm.c, md_announce_receive_sm.c;
    sections 10.6.3 and 11.4.2 of IEEE 802.1AS-2020). */
module AnnounceCodec {
  import opened Words
  import opened Priority
  import opened BmcsState

  type Nibble = x: int | 0 <= x < 0x10
  type int8 = x: int | -0x80 <= x < 0x80
  type int16 = x: int | -0x8000 <= x < 0x8000
  type int64 = x: int | -0x8000_0000_0000_0000 <= x < 0x8000_0000_0000_0000

  const HEADER_SIZE := 34
  const BODY_SIZE := 34                     // up to and with the TLV's type and length
  const NO_TLV_SIZE := 64
  const PATH_SIZE := 1432                   // MAX_PATH_TRACE_N identities
  const MESSAGE_SIZE := 1500
  const ANNOUNCE: Nibble := 0xB

  // ------------------------------------------------------------------ numbers

  /** The number that octets stand for, most significant first. */
  function FromBE(s: seq<uint8>): (x: nat)
    ensures x < Pow256(|s|)
  {
    if s == [] then 0 else FromBE(s[..|s| - 1]) * 0x100 + s[|s| - 1]
  }

  lemma {:induction false} FromToBE(x: int, n: nat)
    requires 0 <= x < Pow256(n)
    ensures FromBE(OctetsBE(x, n)) == x
  {
    if n > 0 {
      FromToBE(x / 0x100, n - 1);
      assert OctetsBE(x, n)[..n - 1] == OctetsBE(x / 0x100, n - 1);
    }
  }

  lemma OneOctet(x: nat, y: uint8)
    ensures (x * 0x100 + y) / 0x100 == x && (x * 0x100 + y) % 0x100 == y
  {}

  lemma {:induction false} ToFromBE(s: seq<uint8>)
    ensures OctetsBE(FromBE(s), |s|) == s
  {
    if s != [] {
      ToFromBE(s[..|s| - 1]);
      OneOctet(FromBE(s[..|s| - 1]), s[|s| - 1]);
      assert s == s[..|s| - 1] + [s[|s| - 1]];
    }
  }

  function Wire16(x: uint16): (s: seq<uint8>)
    ensures |s| == 2
  {
    OctetsBE(x, 2)
  }

  function Wire64(x: uint64): (s: seq<uint8>)
    ensures |s| == 8
  {
    OctetsBE(x, 8)
  }

  function Read16(s: seq<uint8>): uint16
    requires |s| == 2
  {
    assert Pow256(2) == 0x1_0000;
    FromBE(s)
  }

  function Read64(s: seq<uint8>): uint64
    requires |s| == 8
  {
    Sizes();
    FromBE(s)
  }

  lemma Sizes()
    ensures Pow256(2) == 0x1_0000 && Pow256(8) == 0x1_0000_0000_0000_0000
  {
    assert Pow256(4) == 0x1_0000_0000;
  }

  lemma Trip16(x: uint16)
    ensures Read16(Wire16(x)) == x
  {
    Sizes();
    FromToBE(x, 2);
  }

  lemma Trip64(x: uint64)
    ensures Read64(Wire64(x)) == x
  {
    Sizes();
    FromToBE(x, 8);
  }

  lemma Back16(s: seq<uint8>)
    requires |s| == 2
    ensures Wire16(Read16(s)) == s
  {
    ToFromBE(s);
  }

  lemma Back64(s: seq<uint8>)
    requires |s| == 8
    ensures Wire64(Read64(s)) == s
  {
    ToFromBE(s);
  }

  function U8(x: int8): uint8 { if x >= 0 then x else x + 0x100 }
  function S8(x: uint8): int8 { if x < 0x80 then x else x - 0x100 }
  function U16(x: int16): uint16 { if x >= 0 then x else x + 0x1_0000 }
  function S16(x: uint16): int16 { if x < 0x8000 then x else x - 0x1_0000 }
  function U64(x: int64): uint64 { if x >= 0 then x else x + 0x1_0000_0000_0000_0000 }
  function S64(x: uint64): int64 { if x < 0x8000_0000_0000_0000 then x else x - 0x1_0000_0000_0000_0000 }

  // ------------------------------------------------------------------ the header

  datatype Header = Header(
    majorSdoId: Nibble, messageType: Nibble, minorVersion: Nibble, version: Nibble, messageLength: uint16,
    domainNumber: uint8, minorSdoId: uint8, flags: (uint8, uint8), correction: int64,
    typeSpecific: (uint8, uint8, uint8, uint8), source: PortIdentity, sequenceId: uint16, control: uint8,
    logMessageInterval: int8)

  /** md_compose_head */
  function ComposeHead(h: Header): (s: seq<uint8>)
    ensures |s| == HEADER_SIZE
  {
    [h.majorSdoId * 0x10 + h.messageType, h.minorVersion * 0x10 + h.version] + Wire16(h.messageLength) +
    [h.domainNumber, h.minorSdoId, h.flags.0, h.flags.1] + Wire64(U64(h.correction)) +
    [h.typeSpecific.0, h.typeSpecific.1, h.typeSpecific.2, h.typeSpecific.3] + Wire64(h.source.clockIdentity) +
    Wire16(h.source.portNumber) + Wire16(h.sequenceId) + [h.control, U8(h.logMessageInterval)]
  }

  /** md_decompose_head */
  function DecomposeHead(s: seq<uint8>): Header
    requires |s| == HEADER_SIZE
  {
    Header(s[0] / 0x10, s[0] % 0x10, s[1] / 0x10, s[1] % 0x10, Read16(s[2..4]), s[4], s[5], (s[6], s[7]),
           S64(Read64(s[8..16])), (s[16], s[17], s[18], s[19]),
           PortIdentity(Read64(s[20..28]), Read16(s[28..30])), Read16(s[30..32]), s[32], S8(s[33]))
  }

  lemma HeadSlices(h: Header)
    ensures var s := ComposeHead(h);
            && s[2..4] == Wire16(h.messageLength) && s[8..16] == Wire64(U64(h.correction))
            && s[20..28] == Wire64(h.source.clockIdentity) && s[28..30] == Wire16(h.source.portNumber)
            && s[30..32] == Wire16(h.sequenceId)
  {}

  /** Every header with fields of their sizes comes back as it was. */
  lemma HeadRoundTrip(h: Header)
    ensures DecomposeHead(ComposeHead(h)) == h
  {
    HeadSlices(h);
    Trip16(h.messageLength);
    Trip64(U64(h.correction));
    Trip64(h.source.clockIdentity);
    Trip16(h.source.portNumber);
    Trip16(h.sequenceId);
  }

  /** And every 34 octets are the header they are read as. */
  lemma HeadRoundTripBack(s: seq<uint8>)
    requires |s| == HEADER_SIZE
    ensures ComposeHead(DecomposeHead(s)) == s
  {
    hide Wire16;
    hide Wire64;
    hide Read16;
    hide Read64;
    Back16(s[2..4]);
    Back64(s[8..16]);
    Back64(s[20..28]);
    Back16(s[28..30]);
    Back16(s[30..32]);
    Nibbles(s[0]);
    Nibbles(s[1]);
    assert s == [s[0], s[1]] + s[2..4] + [s[4], s[5], s[6], s[7]] + s[8..16] + [s[16], s[17], s[18], s[19]] +
                s[20..28] + s[28..30] + s[30..32] + [s[32], s[33]];
  }

  lemma Nibbles(x: uint8)
    ensures x / 0x10 * 0x10 + x % 0x10 == x
  {}

  // ------------------------------------------------------------------ the message

  function TwoTo(n: nat): nat { if n == 0 then 1 else 2 * TwoTo(n - 1) }

  /** Bits as a number, the first one least significant. */
  function Packed(bits: seq<bool>): (x: nat)
    ensures x < TwoTo(|bits|)
  {
    if bits == [] then 0 else (if bits[0] then 1 else 0) + 2 * Packed(bits[1..])
  }

  predicate BitAt(x: nat, i: nat) { if i == 0 then x % 2 == 1 else BitAt(x / 2, i - 1) }

  lemma BitOfDouble(b: nat, y: nat, i: nat)
    requires b <= 1
    ensures BitAt(b + 2 * y, i) == if i == 0 then b == 1 else BitAt(y, i - 1)
  {
    assert (b + 2 * y) / 2 == y && (b + 2 * y) % 2 == b;
  }

  lemma {:induction false} PackedBits(bits: seq<bool>, i: nat)
    requires i < |bits|
    ensures BitAt(Packed(bits), i) == bits[i]
  {
    hide BitAt;
    BitOfDouble(if bits[0] then 1 else 0, Packed(bits[1..]), i);
    if i > 0 { PackedBits(bits[1..], i - 1); }
  }

  function FlagBits(p: TimeProps): (s: seq<bool>)
    ensures |s| == 6
  {
    [p.leap61, p.leap59, p.currentUtcOffsetValid, p.ptpTimescale, p.timeTraceable, p.frequencyTraceable]
  }

  /** flags[1] of an announce (port_announce_transmit_sm.c). */
  function FlagOctet(p: TimeProps): uint8 {
    assert TwoTo(6) == 64;
    Packed(FlagBits(p))
  }

  /** What a receiver records of it (port_announce_information_sm.c). */
  function ReadFlags(f: uint8, utcOffset: int, timeSource: uint8): TimeProps {
    TimeProps(BitAt(f, 0), BitAt(f, 1), BitAt(f, 2), BitAt(f, 3), BitAt(f, 4), BitAt(f, 5), utcOffset, timeSource)
  }

  lemma FlagsRoundTrip(p: TimeProps)
    ensures ReadFlags(FlagOctet(p), p.currentUtcOffset, p.timeSource) == p
  {
    hide Packed;
    forall i | 0 <= i < 6 ensures BitAt(FlagOctet(p), i) == FlagBits(p)[i] { PackedBits(FlagBits(p), i); }
  }

  function BodyFront(utcOffset: int16, root: SystemIdentity): (s: seq<uint8>)
    ensures |s| == 27
  {
    [0, 0, 0, 0, 0, 0, 0, 0, 0, 0] + Wire16(U16(utcOffset)) +
    [0, root.priority1, root.clockClass, root.clockAccuracy] + Wire16(root.offsetScaledLogVariance) +
    [root.priority2] + Wire64(root.clockIdentity)
  }

  /** The octets between the header and the path. */
  function Body(utcOffset: int16, root: SystemIdentity, stepsRemoved: uint16, timeSource: uint8,
                tlvType: uint16, tlvLength: uint16): (s: seq<uint8>)
    ensures |s| == BODY_SIZE
  {
    BodyFront(utcOffset, root) + Wire16(stepsRemoved) + [timeSource] + Wire16(tlvType) + Wire16(tlvLength)
  }

  lemma BodySlices(utcOffset: int16, root: SystemIdentity, stepsRemoved: uint16, timeSource: uint8,
                   tlvType: uint16, tlvLength: uint16)
    ensures var s := Body(utcOffset, root, stepsRemoved, timeSource, tlvType, tlvLength);
            && s[10..12] == Wire16(U16(utcOffset))
            && s[13] == root.priority1 && s[14] == root.clockClass && s[15] == root.clockAccuracy
            && s[16..18] == Wire16(root.offsetScaledLogVariance) && s[18] == root.priority2
            && s[19..27] == Wire64(root.clockIdentity) && s[27..29] == Wire16(stepsRemoved) && s[29] == timeSource
            && s[30..32] == Wire16(tlvType) && s[32..34] == Wire16(tlvLength)
  {}

  function PathOctets(path: seq<ClockIdentity>): (s: seq<uint8>)
    ensures |s| == 8 * |path|
  {
    if path == [] then [] else PathOctets(path[..|path| - 1]) + Wire64(path[|path| - 1])
  }

  lemma {:induction false} PathOctetsAt(path: seq<ClockIdentity>, i: nat)
    requires i < |path|
    ensures PathOctets(path)[8 * i..8 * i + 8] == Wire64(path[i])
  {
    var n := |path| - 1;
    var s := PathOctets(path[..n]);
    if i < n {
      PathOctetsAt(path[..n], i);
      assert PathOctets(path)[8 * i..8 * i + 8] == s[8 * i..8 * i + 8];
    }
  }

  /** An announce whose fields have the sizes of the wire. */
  predicate Fits(a: Announce) {
    && |a.path| <= MAX_PATH_TRACE_N
    && -0x8000 <= a.props.currentUtcOffset < 0x8000
    && -0x80 <= a.logMessageInterval < 0x80
  }

  /** Fields of the header that the state machines do not look at. */
  datatype Extra = Extra(domainNumber: uint8, minorVersion: Nibble, sequenceId: uint16)

  function HeaderOf(a: Announce, x: Extra): Header
    requires Fits(a)
  {
    Header(1, ANNOUNCE, x.minorVersion, 2, HEADER_SIZE + BODY_SIZE + 8 * |a.path|, x.domainNumber, 0,
           (0, FlagOctet(a.props)), 0, (0, 0, 0, 0), a.source, x.sequenceId, 5, a.logMessageInterval)
  }

  function BodyOf(a: Announce): seq<uint8>
    requires Fits(a)
  {
    Body(a.props.currentUtcOffset, a.root, a.stepsRemoved, a.props.timeSource, a.tlvType, 8 * |a.path|)
  }

  /** sendAnnounce: in AVNU mode an announce without a path leaves the TLV out, whatever its
      header says. */
  function Encode(a: Announce, x: Extra, avnu: bool): (s: seq<uint8>)
    requires Fits(a)
    ensures |s| <= MESSAGE_SIZE
  {
    ComposeHead(HeaderOf(a, x)) +
    if a.path == [] && avnu then BodyOf(a)[..BODY_SIZE - 4] else BodyOf(a) + PathOctets(a.path)
  }

  /** The TLV as received: the octets of the path, the missing ones all ones. */
  datatype Tlv = Tlv(tlvType: uint16, tlvLength: uint16, path: seq<uint8>)

  datatype RcvdAnnounce = RcvdAnnounce(
    header: Header, utcOffset: int16, root: SystemIdentity, stepsRemoved: uint16, timeSource: uint8, tlv: Option<Tlv>)

  function Ones(n: nat): (s: seq<uint8>)
    ensures |s| == n
  {
    seq(n, i => 0xFF)
  }

  function ReadTlv(s: seq<uint8>): Tlv
    requires |s| == MESSAGE_SIZE
  {
    var length := Read16(s[66..68]);
    var n := if length <= PATH_SIZE then length else PATH_SIZE;
    Tlv(Read16(s[64..66]), length, s[68..68 + n] + Ones(PATH_SIZE - n))
  }

  function ReadRoot(b: seq<uint8>): SystemIdentity
    requires |b| >= 27
  {
    SystemIdentity(b[13], b[14], b[15], Read16(b[16..18]), b[18], Read64(b[19..27]))
  }

  /** recAnnounce on a reception buffer; nothing is recorded of a message for another sdoId. */
  function Receive(s: seq<uint8>, cmlds: bool): Option<RcvdAnnounce>
    requires |s| == MESSAGE_SIZE
  {
    var h := DecomposeHead(s[..HEADER_SIZE]);
    var b := s[HEADER_SIZE..HEADER_SIZE + BODY_SIZE];
    if !cmlds && h.majorSdoId != 1 then None
    else
      Some(RcvdAnnounce(h, S16(Read16(b[10..12])), ReadRoot(b), Read16(b[27..29]), b[29],
                    if h.messageLength > NO_TLV_SIZE then Some(ReadTlv(s)) else None))
  }

  /** The path that a received TLV holds. */
  function PathOf(t: Tlv): seq<ClockIdentity>
    requires |t.path| == PATH_SIZE
  {
    var n := if t.tlvLength / 8 <= MAX_PATH_TRACE_N then t.tlvLength / 8 else MAX_PATH_TRACE_N;
    seq(n, i requires 0 <= i < n => Read64(t.path[8 * i..8 * i + 8]))
  }

  // ------------------------------------------------------------------ round trip

  lemma BodyRoundTrip(a: Announce)
    requires Fits(a)
    ensures var b := BodyOf(a);
            && S16(Read16(b[10..12])) == a.props.currentUtcOffset && ReadRoot(b) == a.root
            && Read16(b[27..29]) == a.stepsRemoved && b[29] == a.props.timeSource
            && Read16(b[30..32]) == a.tlvType && Read16(b[32..34]) == 8 * |a.path|
  {
    BodySlices(a.props.currentUtcOffset, a.root, a.stepsRemoved, a.props.timeSource, a.tlvType, 8 * |a.path|);
    Trip16(U16(a.props.currentUtcOffset));
    Trip16(a.root.offsetScaledLogVariance);
    Trip64(a.root.clockIdentity);
    Trip16(a.stepsRemoved);
    Trip16(a.tlvType);
    Trip16(8 * |a.path|);
  }

  lemma SubSlice(s: seq<uint8>, prefix: seq<uint8>, lo: nat, hi: nat)
    requires lo <= hi <= |prefix| <= |s| && s[..|prefix|] == prefix
    ensures s[lo..hi] == prefix[lo..hi]
  {
    forall k | lo <= k < hi ensures s[k] == prefix[k] { assert s[k] == s[..|prefix|][k]; }
  }

  lemma PathAt(octets: seq<uint8>, path: seq<ClockIdentity>, i: nat)
    requires |octets| == PATH_SIZE && |path| <= MAX_PATH_TRACE_N && i < |path|
    requires octets[..8 * |path|] == PathOctets(path)
    ensures Read64(octets[8 * i..8 * i + 8]) == path[i]
  {
    hide FromBE;
    PathOctetsAt(path, i);
    SubSlice(octets, PathOctets(path), 8 * i, 8 * i + 8);
    Trip64(path[i]);
  }

  lemma PathRoundTrip(t: Tlv, path: seq<ClockIdentity>)
    requires |path| <= MAX_PATH_TRACE_N && t.tlvLength == 8 * |path|
    requires t.path == PathOctets(path) + Ones(PATH_SIZE - 8 * |path|)
    ensures PathOf(t) == path
  {
    hide FromBE;
    hide PathOctets;
    assert t.path[..8 * |path|] == PathOctets(path);
    forall i | 0 <= i < |path| ensures PathOf(t)[i] == path[i] { PathAt(t.path, path, i); }
  }

  lemma TailSlice(s: seq<uint8>, t: seq<uint8>, lo: nat, hi: nat)
    requires lo <= hi <= |t|
    ensures (s + t)[|s| + lo..|s| + hi] == t[lo..hi]
  {}

  /** Where the parts of a message lie in a reception buffer. */
  lemma MessageSlices(a: Announce, x: Extra, avnu: bool, rest: seq<uint8>)
    requires Fits(a) && |Encode(a, x, avnu)| + |rest| == MESSAGE_SIZE
    ensures var s := Encode(a, x, avnu) + rest;
            && s[..HEADER_SIZE] == ComposeHead(HeaderOf(a, x)) && s[34..64] == BodyOf(a)[..30]
            && if a.path == [] && avnu then s[64..66] == rest[..2] && s[66..68] == rest[2..4]
               else && s[64..66] == BodyOf(a)[30..32] && s[66..68] == BodyOf(a)[32..34]
                    && s[68..68 + 8 * |a.path|] == PathOctets(a.path)
  {
    hide Body;
    hide PathOctets;
    hide ComposeHead;
    var e := Encode(a, x, avnu);
    if a.path == [] && avnu {
      assert |e| == 64;
      TailSlice(e, rest, 0, 2);
      TailSlice(e, rest, 2, 4);
    }
  }

  /** Octets `lo` to `hi` are zero. */
  predicate Zero(s: seq<uint8>, lo: nat, hi: nat)
    requires lo <= hi <= |s|
  {
    forall i :: lo <= i < hi ==> s[i] == 0
  }

  /** The octets of an announce (section 10.6.3 of IEEE 802.1AS-2020), all but its TLV. */
  lemma Layout(a: Announce, x: Extra, avnu: bool)
    requires Fits(a)
    ensures var s := Encode(a, x, avnu);
            && |s| == (if avnu && a.path == [] then 64 else 68 + 8 * |a.path|)
            && s[0] == 0x1B && s[1] == x.minorVersion * 16 + 2 && s[2..4] == Wire16(68 + 8 * |a.path|)
            && s[4] == x.domainNumber && s[5] == 0 && s[6] == 0 && s[7] == FlagOctet(a.props) && Zero(s, 8, 20)
            && s[20..28] == Wire64(a.source.clockIdentity) && s[28..30] == Wire16(a.source.portNumber)
            && s[30..32] == Wire16(x.sequenceId) && s[32] == 5 && s[33] == U8(a.logMessageInterval)
            && Zero(s, 34, 44) && s[44..46] == Wire16(U16(a.props.currentUtcOffset)) && s[46] == 0
            && s[47] == a.root.priority1 && s[48] == a.root.clockClass && s[49] == a.root.clockAccuracy
            && s[50..52] == Wire16(a.root.offsetScaledLogVariance) && s[52] == a.root.priority2
            && s[53..61] == Wire64(a.root.clockIdentity) && s[61..63] == Wire16(a.stepsRemoved) && s[63] == a.props.timeSource
  {
    ZeroWire64();
    hide Wire16;
    hide Wire64;
    hide FlagOctet;
    hide PathOctets;
    hide U16;
    hide U8;
    HeadLayout(a, x);
    FrontLayout(a);
    var s, h, b := Encode(a, x, avnu), ComposeHead(HeaderOf(a, x)), BodyOf(a);
    assert s[..34] == h && s[34..64] == b[..30];
    hide Encode;
    hide ComposeHead;
    hide HeaderOf;
    hide BodyOf;
    assert s[2..4] == s[..34][2..4] && s[20..28] == s[..34][20..28] && s[28..30] == s[..34][28..30];
    assert s[30..32] == s[..34][30..32] && s[44..46] == s[34..64][10..12] && s[50..52] == s[34..64][16..18];
    assert s[53..61] == s[34..64][19..27] && s[61..63] == s[34..64][27..29];
    assert forall i :: 0 <= i < 34 ==> s[i] == h[i];
    assert forall i :: 0 <= i < 30 ==> s[34 + i] == b[i];
  }

  lemma ZeroWire64()
    ensures Zero(Wire64(0), 0, 8)
  {
    ZeroBE(8);
  }

  lemma {:induction false} ZeroBE(n: nat)
    ensures forall i :: 0 <= i < n ==> OctetsBE(0, n)[i] == 0
  {
    if n > 0 { ZeroBE(n - 1); }
  }

  lemma HeadOctets(h: Header)
    ensures var s := ComposeHead(h);
            && s[0] == h.majorSdoId * 0x10 + h.messageType && s[1] == h.minorVersion * 0x10 + h.version
            && s[4] == h.domainNumber && s[5] == h.minorSdoId && s[6] == h.flags.0 && s[7] == h.flags.1
            && s[16] == h.typeSpecific.0 && s[17] == h.typeSpecific.1 && s[18] == h.typeSpecific.2 && s[19] == h.typeSpecific.3
            && s[32] == h.control && s[33] == U8(h.logMessageInterval)
  {
    hide Wire16;
    hide Wire64;
    hide U8;
    hide U64;
  }

  lemma HeadLayout(a: Announce, x: Extra)
    requires Fits(a)
    ensures var s := ComposeHead(HeaderOf(a, x));
            && s[0] == 0x1B && s[1] == x.minorVersion * 16 + 2 && s[2..4] == Wire16(68 + 8 * |a.path|)
            && s[4] == x.domainNumber && s[5] == 0 && s[6] == 0 && s[7] == FlagOctet(a.props) && Zero(s, 8, 20)
            && s[20..28] == Wire64(a.source.clockIdentity) && s[28..30] == Wire16(a.source.portNumber)
            && s[30..32] == Wire16(x.sequenceId) && s[32] == 5 && s[33] == U8(a.logMessageInterval)
  {
    hide Wire16;
    hide Wire64;
    hide FlagOctet;
    hide U8;
    hide ComposeHead;
    HeadSlices(HeaderOf(a, x));
    HeadOctets(HeaderOf(a, x));
    HeadZero(HeaderOf(a, x));
  }

  lemma HeadZero(h: Header)
    requires h.correction == 0 && h.typeSpecific == (0, 0, 0, 0)
    ensures Zero(ComposeHead(h), 8, 20)
  {
    ZeroWire64();
    HeadSlices(h);
    HeadOctets(h);
    hide Wire16;
    hide Wire64;
    hide U8;
    hide ComposeHead;
    var s := ComposeHead(h);
    forall i | 8 <= i < 20 ensures s[i] == 0 {
      if i < 16 { assert s[i] == s[8..16][i - 8]; }
    }
  }

  lemma FrontLayout(a: Announce)
    requires Fits(a)
    ensures var b := BodyOf(a);
            && Zero(b, 0, 10) && b[10..12] == Wire16(U16(a.props.currentUtcOffset)) && b[12] == 0
            && b[13] == a.root.priority1 && b[14] == a.root.clockClass && b[15] == a.root.clockAccuracy
            && b[16..18] == Wire16(a.root.offsetScaledLogVariance) && b[18] == a.root.priority2
            && b[19..27] == Wire64(a.root.clockIdentity) && b[27..29] == Wire16(a.stepsRemoved) && b[29] == a.props.timeSource
  {
    hide Wire16;
    hide Wire64;
    BodySlices(a.props.currentUtcOffset, a.root, a.stepsRemoved, a.props.timeSource, a.tlvType, 8 * |a.path|);
  }

  /** Of every message of the buffer's length something is recorded exactly when it is for this sdoId, or any
      is accepted; and a TLV exactly when it says to be longer than 64 octets, with the octets missing from a
      path all ones. */
  lemma WhatIsReceived(s: seq<uint8>, cmlds: bool)
    requires |s| == MESSAGE_SIZE
    ensures var r := Receive(s, cmlds);
            && (r.Some? <==> cmlds || s[0] / 16 == 1)
            && (r.Some? ==> (r.value.tlv.Some? <==> Read16(s[2..4]) > 64))
            && (r.Some? && r.value.tlv.Some? ==>
                  var t := r.value.tlv.value;
                  && t.tlvType == Read16(s[64..66]) && t.tlvLength == Read16(s[66..68]) && |t.path| == 1432
                  && forall i :: 0 <= i < 1432 ==> t.path[i] == if i < t.tlvLength then s[68 + i] else 0xFF)
  {
    hide FromBE;
    hide Read64;
    assert s[..HEADER_SIZE][2..4] == s[2..4];
  }

  /** What is carried besides the path comes back, whatever the rest of the buffer holds. */
  lemma FieldsRoundTrip(a: Announce, x: Extra, avnu: bool, rest: seq<uint8>)
    requires Fits(a) && |Encode(a, x, avnu)| + |rest| == MESSAGE_SIZE
    ensures var r := Receive(Encode(a, x, avnu) + rest, false);
            && r.Some? && r.value.header == HeaderOf(a, x) && r.value.header.source == a.source
            && r.value.header.logMessageInterval == a.logMessageInterval
            && ReadFlags(r.value.header.flags.1, r.value.utcOffset, r.value.timeSource) == a.props
            && r.value.root == a.root && r.value.stepsRemoved == a.stepsRemoved
            && r.value.tlv == Some(ReadTlv(Encode(a, x, avnu) + rest))
  {
    hide Body;
    hide PathOctets;
    hide ComposeHead;
    hide DecomposeHead;
    hide ReadTlv;
    hide ReadFlags;
    hide FlagOctet;
    hide FromBE;
    MessageSlices(a, x, avnu, rest);
    HeadRoundTrip(HeaderOf(a, x));
    FlagsRoundTrip(a.props);
    BodyRoundTrip(a);
    var s := Encode(a, x, avnu) + rest;
    hide Encode;
    var b, body := s[HEADER_SIZE..HEADER_SIZE + BODY_SIZE], BodyOf(a);
    hide BodyOf;
    assert b[..30] == s[34..64] == body[..30];
    assert b[10..12] == b[..30][10..12] == body[10..12];
    assert b[16..18] == b[..30][16..18] == body[16..18];
    assert b[19..27] == b[..30][19..27] == body[19..27];
    assert b[27..29] == b[..30][27..29] == body[27..29];
  }

  /** Every announce with a path of up to MAX_PATH_TRACE_N identities, and outside AVNU mode every
      announce, is received with the exact TLV and path. */
  lemma AnnounceRoundTrip(a: Announce, x: Extra, avnu: bool, rest: seq<uint8>)
    requires Fits(a) && |Encode(a, x, avnu)| + |rest| == MESSAGE_SIZE && (a.path != [] || !avnu)
    ensures var r := Receive(Encode(a, x, avnu) + rest, false);
            && r.Some? && r.value.tlv.Some? && |r.value.tlv.value.path| == PATH_SIZE
            && r.value.tlv.value.tlvType == a.tlvType && PathOf(r.value.tlv.value) == a.path
  {
    FieldsRoundTrip(a, x, avnu, rest);
    MessageSlices(a, x, avnu, rest);
    BodyRoundTrip(a);
    var s := Encode(a, x, avnu) + rest;
    hide Encode;
    hide Receive;
    hide Body;
    hide BodyOf;
    hide PathOctets;
    hide FromBE;
    PathRoundTrip(ReadTlv(s), a.path);
  }

  lemma FourOctets(r: seq<uint8>, t: uint16)
    requires |r| == 4
    ensures Read16(r[..2]) == t && Read16(r[2..4]) == 0 <==> r == Wire16(t) + Wire16(0)
  {
    ToFromBE(r[..2]);
    ToFromBE(r[2..4]);
    Trip16(t);
    Trip16(0);
    hide FromBE;
    assert r == r[..2] + r[2..4];
    assert (Wire16(t) + Wire16(0))[..2] == Wire16(t) && (Wire16(t) + Wire16(0))[2..4] == Wire16(0);
  }

  /** In AVNU mode an announce without a path still says that it carries the TLV: the receiver takes
      for it the four octets that its buffer happens to hold there. The TLV comes back exactly
      when these are the octets left out. */
  lemma AvnuEmptyPathIff(a: Announce, x: Extra, rest: seq<uint8>)
    requires Fits(a) && a.path == [] && |Encode(a, x, true)| + |rest| == MESSAGE_SIZE
    ensures var r := Receive(Encode(a, x, true) + rest, false);
            && r.Some? && r.value.tlv.Some?
            && (r.value.tlv.value.tlvType == a.tlvType && r.value.tlv.value.tlvLength == 0 <==>
                  rest[..4] == Wire16(a.tlvType) + Wire16(0))
  {
    hide Receive;
    hide Read16;
    hide Wire16;
    hide ComposeHead;
    hide Body;
    hide ReadFlags;
    hide Ones;
    assert |Encode(a, x, true)| == 64;
    hide Encode;
    FieldsRoundTrip(a, x, true, rest);
    MessageSlices(a, x, true, rest);
    FourOctets(rest[..4], a.tlvType);
    assert rest[..4][..2] == rest[..2] && rest[..4][2..4] == rest[2..4];
  }

  /** The announce that the state machines see. */
  function ToAnnounce(r: RcvdAnnounce): Announce
    requires r.tlv.Some? && |r.tlv.value.path| == PATH_SIZE
  {
    Announce(r.header.source, ReadFlags(r.header.flags.1, r.utcOffset, r.timeSource), r.root, r.stepsRemoved,
             r.header.logMessageInterval, r.tlv.value.tlvType, PathOf(r.tlv.value))
  }

  /** What one system's announce machine sends is what another's receives. */
  lemma ArrivesAsSent(a: Announce, x: Extra, avnu: bool, rest: seq<uint8>)
    requires Fits(a) && |Encode(a, x, avnu)| + |rest| == MESSAGE_SIZE && (a.path != [] || !avnu)
    ensures var r := Receive(Encode(a, x, avnu) + rest, false);
            r.Some? && r.value.tlv.Some? && |r.value.tlv.value.path| == PATH_SIZE && ToAnnounce(r.value) == a
  {
    AnnounceRoundTrip(a, x, avnu, rest);
    FieldsRoundTrip(a, x, avnu, rest);
    hide Receive;
    hide Encode;
    hide ReadFlags;
    hide PathOf;
    hide ReadTlv;
  }

  // ------------------------------------------------------------------ the buffers

  /** Octets copied into a buffer. */
  method Put(buf: array<uint8>, at: nat, s: seq<uint8>)
    requires at + |s| <= buf.Length
    modifies buf
    ensures buf[..at + |s|] == old(buf[..at]) + s
  {
    forall i | 0 <= i < |s| { buf[at + i] := s[i]; }
    assert buf[..at] == old(buf[..at]);
  }

  /** md_compose_head */
  method WriteHead(buf: array<uint8>, h: Header)
    requires buf.Length == MESSAGE_SIZE
    modifies buf
    ensures buf[..HEADER_SIZE] == ComposeHead(h)
  {
    Put(buf, 0, [h.majorSdoId * 0x10 + h.messageType, h.minorVersion * 0x10 + h.version]);
    Put(buf, 2, Wire16(h.messageLength));
    Put(buf, 4, [h.domainNumber, h.minorSdoId, h.flags.0, h.flags.1]);
    Put(buf, 8, Wire64(U64(h.correction)));
    Put(buf, 16, [h.typeSpecific.0, h.typeSpecific.1, h.typeSpecific.2, h.typeSpecific.3]);
    Put(buf, 20, Wire64(h.source.clockIdentity));
    Put(buf, 28, Wire16(h.source.portNumber));
    Put(buf, 30, Wire16(h.sequenceId));
    Put(buf, 32, [h.control, U8(h.logMessageInterval)]);
  }

  /** The fields of an announce after the header, up to its root. */
  method WriteFront(buf: array<uint8>, a: Announce)
    requires buf.Length == MESSAGE_SIZE && Fits(a)
    modifies buf
    ensures buf[..61] == old(buf[..HEADER_SIZE]) + BodyFront(a.props.currentUtcOffset, a.root)
  {
    hide Wire16;
    hide Wire64;
    hide U16;
    Put(buf, 34, [0, 0, 0, 0, 0, 0, 0, 0, 0, 0]);
    Put(buf, 44, Wire16(U16(a.props.currentUtcOffset)));
    Put(buf, 46, [0, a.root.priority1, a.root.clockClass, a.root.clockAccuracy]);
    Put(buf, 50, Wire16(a.root.offsetScaledLogVariance));
    Put(buf, 52, [a.root.priority2]);
    Put(buf, 53, Wire64(a.root.clockIdentity));
  }

  /** The fields of an announce after the header. */
  method WriteBody(buf: array<uint8>, a: Announce)
    requires buf.Length == MESSAGE_SIZE && Fits(a)
    modifies buf
    ensures buf[..HEADER_SIZE + BODY_SIZE] == old(buf[..HEADER_SIZE]) + BodyOf(a)
  {
    hide Wire16;
    hide BodyFront;
    WriteFront(buf, a);
    Put(buf, 61, Wire16(a.stepsRemoved));
    Put(buf, 63, [a.props.timeSource]);
    Put(buf, 64, Wire16(a.tlvType));
    Put(buf, 66, Wire16(8 * |a.path|));
  }

  /** The path after the TLV's type and length. */
  method WritePath(buf: array<uint8>, path: seq<ClockIdentity>)
    requires buf.Length == MESSAGE_SIZE && |path| <= MAX_PATH_TRACE_N
    modifies buf
    ensures buf[..68 + 8 * |path|] == old(buf[..68]) + PathOctets(path)
  {
    var i := 0;
    while i < |path|
      invariant 0 <= i <= |path|
      invariant buf[..68 + 8 * i] == old(buf[..68]) + PathOctets(path[..i])
    {
      Put(buf, 68 + 8 * i, Wire64(path[i]));
      assert path[..i + 1][..i] == path[..i];
      i := i + 1;
    }
    assert path[..|path|] == path;
  }

  /** sendAnnounce: the message in the buffer, and how much of it is sent. */
  method SendAnnounce(buf: array<uint8>, a: Announce, x: Extra, avnu: bool) returns (size: nat)
    requires buf.Length == MESSAGE_SIZE && Fits(a)
    modifies buf
    ensures size <= MESSAGE_SIZE && buf[..size] == Encode(a, x, avnu)
  {
    hide Body;
    hide ComposeHead;
    WriteHead(buf, HeaderOf(a, x));
    WriteBody(buf, a);
    size := HEADER_SIZE + BODY_SIZE + 8 * |a.path|;
    if |a.path| > 0 {
      WritePath(buf, a.path);
    } else if avnu {
      size := size - 4;
      assert buf[..64] == buf[..68][..64];
    }
  }

  /** The receiving side keeps the last announce; a message without TLV leaves the last TLV in place. */
  class AnnounceReceiver {
    var rcvdAnnounce: RcvdAnnounce
    var tlv: Tlv

    constructor ()
    {
      var zero := PortIdentity(0, 0);
      rcvdAnnounce := RcvdAnnounce(Header(0, 0, 0, 0, 0, 0, 0, (0, 0), 0, (0, 0, 0, 0), zero, 0, 0, 0), 0,
                                   SystemIdentity(0, 0, 0, 0, 0, 0), 0, 0, None);
      tlv := Tlv(0, 0, []);
    }

    /** recAnnounce */
    method RecAnnounce(s: seq<uint8>, cmlds: bool) returns (accepted: bool)
      requires |s| == MESSAGE_SIZE
      modifies this
      ensures accepted == Receive(s, cmlds).Some?
      ensures accepted ==> rcvdAnnounce == Receive(s, cmlds).value
      ensures tlv == if accepted && Receive(s, cmlds).value.tlv.Some? then Receive(s, cmlds).value.tlv.value else old(tlv)
    {
      var head := DecomposeHead(s[..HEADER_SIZE]);
      rcvdAnnounce := rcvdAnnounce.(header := head, tlv := None);
      if !cmlds && head.majorSdoId != 1 { return false; }
      var b := s[HEADER_SIZE..HEADER_SIZE + BODY_SIZE];
      rcvdAnnounce := rcvdAnnounce.(utcOffset := S16(Read16(b[10..12])), root := ReadRoot(b),
                                    stepsRemoved := Read16(b[27..29]), timeSource := b[29]);
      if head.messageLength > NO_TLV_SIZE {
        tlv := ReadTlv(s);
        rcvdAnnounce := rcvdAnnounce.(tlv := Some(tlv));
      }
      accepted := true;
    }
  }
}
