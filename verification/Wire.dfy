/** TCP segments as bytes: the header-building tail of `uip_process` and the
    tests its input path applies. What the stack sends, the stack accepts and
    reads back unchanged. */
module Wire {
  import opened Words
  import opened Checksum
  import opened Tcp

  const TTL := 64
  const PROTO_TCP := 6

  // --- Fields ----------------------------------------------------------------

  function Be16(x: u16): seq<u8> { [x / 0x100, x % 0x100] }

  function FromBe16(b0: u8, b1: u8): u16 { b0 as int * 0x100 + b1 as int }

  /** Ports are 16-bit words in memory, and this machine is little-endian. */
  function Le16(x: u16): seq<u8> { [x % 0x100, x / 0x100] }

  function Be32(x: u32): seq<u8> {
    [x / 0x100_0000, x / 0x1_0000 % 0x100, x / 0x100 % 0x100, x % 0x100]
  }

  lemma Be32Number(x: u32)
    ensures Number32(Be32(x)) == x
  {
    DivDiv(x);
    var a, b, c := x / 0x100, x / 0x1_0000, x / 0x100_0000;
    assert x == a * 0x100 + x % 0x100;
    assert a == b * 0x100 + a % 0x100;
    assert b == c * 0x100 + b % 0x100;
  }

  lemma DivDiv(x: u32)
    ensures x / 0x100 / 0x100 == x / 0x1_0000 && x / 0x1_0000 / 0x100 == x / 0x100_0000
  {
  }

  function Bit(b: bool): nat { if b then 1 else 0 }

  function CtlByte(c: Ctl): u8 {
    Bit(c.fin) + 2 * Bit(c.syn) + 4 * Bit(c.rst) + 8 * Bit(c.psh) + 16 * Bit(c.ack) + 32 * Bit(c.urg)
  }

  /** The control bits; the two bits above TCP_CTL are ignored. */
  function CtlOf(b: u8): Ctl {
    Ctl(b % 2 == 1, b / 2 % 2 == 1, b / 4 % 2 == 1, b / 8 % 2 == 1, b / 16 % 2 == 1, b / 32 % 2 == 1)
  }

  lemma CtlRoundTrip(c: Ctl)
    ensures CtlOf(CtlByte(c)) == c
  {
    var b := CtlByte(c);
    assert b / 2 == Bit(c.syn) + 2 * Bit(c.rst) + 4 * Bit(c.psh) + 8 * Bit(c.ack) + 16 * Bit(c.urg);
    assert b / 4 == Bit(c.rst) + 2 * Bit(c.psh) + 4 * Bit(c.ack) + 8 * Bit(c.urg);
    assert b / 8 == Bit(c.psh) + 2 * Bit(c.ack) + 4 * Bit(c.urg);
    assert b / 16 == Bit(c.ack) + 2 * Bit(c.urg);
    assert b / 32 == Bit(c.urg);
  }

  // --- Building --------------------------------------------------------------

  /** Segments that can be sent: whole option words and a 16-bit length. */
  predicate Sendable(seg: Segment) {
    |seg.options| % 4 == 0 && |seg.options| <= 40 && 40 + |seg.options| + |seg.data| < 0x1_0000
  }

  function TcpLength(seg: Segment): nat { 20 + |seg.options| + |seg.data| }

  /** The TCP header up to its checksum field. */
  function TcpFront(seg: Segment): (b: seq<u8>)
    requires Sendable(seg)
    ensures |b| == 16
  {
    Le16(seg.srcPort) + Le16(seg.dstPort) + Be32(seg.seqno) + Be32(seg.ackno)
      + [(20 + |seg.options|) / 4 * 16, CtlByte(seg.ctl)] + Be16(seg.wnd)
  }

  function TcpBytes(seg: Segment, chk: u16): (b: seq<u8>)
    requires Sendable(seg)
    ensures |b| == TcpLength(seg)
  {
    TcpFront(seg) + Be16(chk) + ([0, 0] + seg.options + seg.data)
  }

  function Addresses(seg: Segment): (b: seq<u8>)
    ensures |b| == 8
  {
    Be32(seg.srcIp) + Be32(seg.dstIp)
  }

  /** Sum of pseudo-header and TCP part, with checksum field `chk`. */
  function TcpSum(seg: Segment, chk: u16): nat
    requires Sendable(seg)
  {
    TcpLength(seg) + PROTO_TCP + WordSum(Addresses(seg)) + WordSum(TcpBytes(seg, chk))
  }

  function IpFront(seg: Segment, ipid: u16): (b: seq<u8>)
    requires Sendable(seg)
    ensures |b| == 10
  {
    [0x45, 0] + Be16(20 + TcpLength(seg)) + Be16(ipid) + [0, 0, TTL, PROTO_TCP]
  }

  function IpBytes(seg: Segment, ipid: u16, chk: u16): (b: seq<u8>)
    requires Sendable(seg)
    ensures |b| == 20
  {
    IpFront(seg, ipid) + Be16(chk) + Addresses(seg)
  }

  function TcpChecksum(seg: Segment): u16
    requires Sendable(seg)
  {
    Complement(TcpSum(seg, 0))
  }

  function IpChecksum(seg: Segment, ipid: u16): u16
    requires Sendable(seg)
  {
    Complement(WordSum(IpBytes(seg, ipid, 0)))
  }

  /** The packet in uip_buf behind the link-level header. */
  function Packet(seg: Segment, ipid: u16): (b: seq<u8>)
    requires Sendable(seg)
    ensures |b| == 20 + TcpLength(seg)
  {
    IpBytes(seg, ipid, IpChecksum(seg, ipid)) + TcpBytes(seg, TcpChecksum(seg))
  }

  // --- Receiving -------------------------------------------------------------

  function IpLength(b: seq<u8>): u16
    requires |b| >= 40
  {
    FromBe16(b[2], b[3])
  }

  /** The pseudo-header sum over a received packet of IP length `n`. */
  function TcpSumOf(b: seq<u8>, n: nat): nat
    requires 20 <= n <= |b|
  {
    n - 20 + b[9] as int + WordSum(b[12..20]) + WordSum(b[20..n])
  }

  /** The tests between the start of input processing and the demultiplexer. */
  predicate Accepts(b: seq<u8>, uipLen: nat, host: u32)
    requires |b| >= 40
  {
    && b[0] == 0x45
    && IpLength(b) <= uipLen
    && b[6] % 0x40 == 0 && b[7] == 0
    && (host != 0 ==> Number32(b[16..20]) == host)
    && Verifies(WordSum(b[..20]))
    && b[9] == PROTO_TCP
    && 20 <= IpLength(b) <= |b| && Verifies(TcpSumOf(b, IpLength(b)))
  }

  predicate HeaderFits(b: seq<u8>) {
    |b| >= 40 && 20 <= b[32] / 16 * 4 && 20 + b[32] / 16 * 4 <= IpLength(b) <= |b|
  }

  /** The fields the engine reads through BUF. */
  function Parse(b: seq<u8>): Segment
    requires HeaderFits(b)
  {
    var h := 20 + b[32] / 16 * 4;
    Segment(Number32(b[12..16]), Number32(b[16..20]),
            FromBe16(b[21], b[20]), FromBe16(b[23], b[22]),
            Number32(b[24..28]), Number32(b[28..32]), CtlOf(b[33]), FromBe16(b[34], b[35]),
            b[40..h], b[h..IpLength(b)])
  }

  // --- Self-acceptance -------------------------------------------------------

  /** A checksum field adds its value to the sum. */
  lemma FieldAdds(front: seq<u8>, chk: u16, back: seq<u8>)
    requires |front| % 2 == 0
    ensures WordSum(front + Be16(chk) + back) == WordSum(front + Be16(0) + back) + chk
  {
    FieldSum(front, chk, back);
    FieldSum(front, 0, back);
  }

  lemma FieldSum(front: seq<u8>, chk: u16, back: seq<u8>)
    requires |front| % 2 == 0
    ensures WordSum(front + Be16(chk) + back) == WordSum(front) + chk + WordSum(back)
  {
    WordSumAppend(front + Be16(chk), back);
    WordSumAppend(front, Be16(chk));
    assert Be16(chk)[2..] == [];
  }

  lemma TcpVerifies(seg: Segment)
    requires Sendable(seg)
    ensures Verifies(TcpSum(seg, TcpChecksum(seg)))
  {
    FieldAdds(TcpFront(seg), TcpChecksum(seg), [0, 0] + seg.options + seg.data);
    ComplementVerifies(TcpSum(seg, 0));
  }

  lemma IpVerifies(seg: Segment, ipid: u16)
    requires Sendable(seg)
    ensures Verifies(WordSum(IpBytes(seg, ipid, IpChecksum(seg, ipid))))
  {
    FieldAdds(IpFront(seg, ipid), IpChecksum(seg, ipid), Addresses(seg));
    ComplementVerifies(WordSum(IpBytes(seg, ipid, 0)));
  }

  /** A sent packet, as it lies in the receiver's buffer with link padding. */
  lemma PacketParts(seg: Segment, ipid: u16, pad: seq<u8>)
    requires Sendable(seg)
    ensures var b := Packet(seg, ipid) + pad;
            && b[..20] == IpBytes(seg, ipid, IpChecksum(seg, ipid))
            && b[12..20] == Addresses(seg) && b[12..16] == Be32(seg.srcIp) && b[16..20] == Be32(seg.dstIp)
            && b[20..20 + TcpLength(seg)] == TcpBytes(seg, TcpChecksum(seg))
            && IpLength(b) == 20 + TcpLength(seg)
            && b[0] == 0x45 && b[6] == 0 && b[7] == 0 && b[9] == PROTO_TCP
  {
    var b, ip := Packet(seg, ipid) + pad, IpBytes(seg, ipid, IpChecksum(seg, ipid));
    assert b[..20] == ip;
    assert b[12..20] == ip[12..20] == Addresses(seg);
    assert b[12..16] == Addresses(seg)[..4] && b[16..20] == Addresses(seg)[4..];
    assert forall i | 0 <= i < 10 :: b[i] == ip[i] == IpFront(seg, ipid)[i];
  }

  lemma HeaderFields(seg: Segment, chk: u16)
    requires Sendable(seg)
    ensures var t := TcpBytes(seg, chk);
            && t[0] == seg.srcPort % 0x100 && t[1] == seg.srcPort / 0x100
            && t[2] == seg.dstPort % 0x100 && t[3] == seg.dstPort / 0x100
            && t[4..8] == Be32(seg.seqno) && t[8..12] == Be32(seg.ackno)
            && t[12] == (20 + |seg.options|) / 4 * 16 && t[13] == CtlByte(seg.ctl)
            && t[14] == seg.wnd / 0x100 && t[15] == seg.wnd % 0x100
            && t[20..20 + |seg.options|] == seg.options && t[20 + |seg.options|..] == seg.data
  {
    var t := TcpBytes(seg, chk);
    assert t[..16] == TcpFront(seg);
    assert forall i | 0 <= i < 16 :: t[i] == TcpFront(seg)[i];
    assert t[4..8] == TcpFront(seg)[4..8];
    assert t[8..12] == TcpFront(seg)[8..12];
  }

  /** Self-acceptance: every sent packet passes the input tests of the host it
      is addressed to. */
  lemma SelfAcceptance(seg: Segment, ipid: u16, pad: seq<u8>, uipLen: nat, host: u32)
    requires Sendable(seg) && uipLen >= 20 + TcpLength(seg) && (host != 0 ==> host == seg.dstIp)
    ensures Accepts(Packet(seg, ipid) + pad, uipLen, host)
  {
    PacketParts(seg, ipid, pad);
    IpVerifies(seg, ipid);
    TcpVerifies(seg);
    Be32Number(seg.dstIp);
  }

  /** The bytes of the TCP part, seen from the start of the packet. */
  lemma TcpAt20(seg: Segment, ipid: u16, pad: seq<u8>)
    requires Sendable(seg)
    ensures var b, t, o := Packet(seg, ipid) + pad, TcpBytes(seg, TcpChecksum(seg)), |seg.options|;
            && (forall i | 0 <= i < 16 :: b[20 + i] == t[i])
            && b[24..28] == t[4..8] && b[28..32] == t[8..12]
            && b[40..40 + o] == t[20..20 + o] && b[40 + o..20 + TcpLength(seg)] == t[20 + o..]
  {
    var b, t, o := Packet(seg, ipid) + pad, TcpBytes(seg, TcpChecksum(seg)), |seg.options|;
    assert b[20..20 + TcpLength(seg)] == t;
    assert forall i | 0 <= i < TcpLength(seg) :: b[20 + i] == t[i];
  }

  lemma WordRoundTrip(x: u16)
    ensures FromBe16(x / 0x100, x % 0x100) == x
  {
  }

  /** Round trip: the receiver reads back exactly the segment that was sent. */
  lemma RoundTrip(seg: Segment, ipid: u16, pad: seq<u8>)
    requires Sendable(seg)
    ensures HeaderFits(Packet(seg, ipid) + pad) && Parse(Packet(seg, ipid) + pad) == seg
  {
    PacketParts(seg, ipid, pad);
    HeaderFields(seg, TcpChecksum(seg));
    TcpAt20(seg, ipid, pad);
    var b, t := Packet(seg, ipid) + pad, TcpBytes(seg, TcpChecksum(seg));
    assert b[20] == t[0] && b[21] == t[1] && b[22] == t[2] && b[23] == t[3];
    assert b[32] == t[12] && b[33] == t[13] && b[34] == t[14] && b[35] == t[15];
    assert b[32] / 16 * 4 == 20 + |seg.options|;
    assert Parse(b).options == seg.options && Parse(b).data == seg.data;
    Be32Number(seg.srcIp);
    Be32Number(seg.dstIp);
    Be32Number(seg.seqno);
    Be32Number(seg.ackno);
    CtlRoundTrip(seg.ctl);
    WordRoundTrip(seg.srcPort);
    WordRoundTrip(seg.dstPort);
    WordRoundTrip(seg.wnd);
  }

  // --- What the tests keep out -----------------------------------------------

  /** An accepted packet is an unfragmented IPv4 packet with a bare header, carries
      TCP, is no longer than what was received, and is addressed to the host if the
      host has an address. */
  lemma AcceptedIs(b: seq<u8>, uipLen: nat, host: u32)
    requires |b| >= 40 && Accepts(b, uipLen, host)
    ensures b[0] / 16 == 4 && b[0] % 16 * 4 == 20 && b[9] == 6 && IpLength(b) <= uipLen
    ensures b[6] / 0x20 % 2 == 0 && b[6] % 0x20 * 0x100 + b[7] == 0
    ensures host != 0 ==> b[16..20] == Be32(host)
  {
    assert b[6] == b[6] / 0x40 * 0x40 + b[6] % 0x40;
    if host != 0 {
      FourBytes(b[16..20]);
    }
  }

  lemma FourBytes(s: seq<u8>)
    requires |s| == 4
    ensures Be32(Number32(s)) == s
  {
    var x := Number32(s);
    assert x / 0x100 == s[0] as int * 0x1_0000 + s[1] as int * 0x100 + s[2] as int;
    assert x / 0x1_0000 == s[0] as int * 0x100 + s[1] as int;
    assert x / 0x100_0000 == s[0];
  }

  /** A packet of which one header byte was changed on the way is rejected. */
  lemma HeaderErrorRejected(b: seq<u8>, i: nat, x: u8, uipLen: nat, host: u32)
    requires |b| >= 40 && Accepts(b, uipLen, host) && i < 20 && x != b[i]
    ensures !Accepts(b[i := x], uipLen, host)
  {
    assert b[i := x][..20] == b[..20][i := x];
    ByteErrorShows(b[..20], i, x);
    if Accepts(b[i := x], uipLen, host) {
      BothVerify(WordSum(b[..20]), WordSum(b[i := x][..20]));
    }
  }

  /** And so is one of which a byte of the TCP header or the payload was changed. */
  lemma PayloadErrorRejected(b: seq<u8>, i: nat, x: u8, uipLen: nat, host: u32)
    requires |b| >= 40 && Accepts(b, uipLen, host) && 20 <= i < IpLength(b) && x != b[i]
    ensures !Accepts(b[i := x], uipLen, host)
  {
    var c, n := b[i := x], IpLength(b);
    if Accepts(c, uipLen, host) {
      BothVerify(TcpSumOf(b, n), TcpSumOf(c, n));
      SumMoves(b, i, x, n);
    }
  }

  lemma SumMoves(b: seq<u8>, i: nat, x: u8, n: nat)
    requires |b| >= 40 && 20 <= i < n <= |b| && x != b[i]
    ensures TcpSumOf(b[i := x], n) % 0xffff != TcpSumOf(b, n) % 0xffff
  {
    var c := b[i := x];
    assert c[12..20] == b[12..20] && c[9] == b[9];
    assert c[20..n] == b[20..n][i - 20 := x];
    ByteReplaced(b[20..n], i - 20, x);
    if x > b[i] {
      Incongruent(TcpSumOf(c, n), TcpSumOf(b, n));
    } else {
      Incongruent(TcpSumOf(b, n), TcpSumOf(c, n));
    }
  }

  /** The TCP sum is that over the pseudo-header of section 3.1 of RFC 793, the
      header and the text. */
  lemma PseudoHeader(seg: Segment, chk: u16)
    requires Sendable(seg)
    ensures TcpSum(seg, chk) == WordSum(Be32(seg.srcIp) + Be32(seg.dstIp) + [0, 6] + Be16(TcpLength(seg)) + TcpBytes(seg, chk))
  {
    var a := Be32(seg.srcIp) + Be32(seg.dstIp);
    WordSumAppend(a + [0, 6] + Be16(TcpLength(seg)), TcpBytes(seg, chk));
    WordSumAppend(a + [0, 6], Be16(TcpLength(seg)));
    WordSumAppend(a, [0, 6]);
    PairSum(0, 6);
    PairSum(TcpLength(seg) / 0x100, TcpLength(seg) % 0x100);
  }

  lemma PairSum(hi: u8, lo: u8)
    ensures WordSum([hi, lo]) == hi as int * 0x100 + lo as int
  {
    assert [hi, lo][2..] == [];
  }
}
