/** uip_buf: headers are written and checked in place. */
module PacketBuffer {
  import opened Words
  import opened Checksum
  import opened Tcp
  import opened Wire

  /** Copy bytes into the buffer. */
  method Put(buf: array<u8>, off: nat, s: seq<u8>)
    requires off + |s| <= buf.Length
    modifies buf
    ensures buf[off..off + |s|] == s
    ensures forall i | 0 <= i < off || off + |s| <= i < buf.Length :: buf[i] == old(buf[i])
  {
    for k := 0 to |s|
      invariant forall i | 0 <= i < k :: buf[off + i] == s[i]
      invariant forall i | 0 <= i < off || off + k <= i < buf.Length :: buf[i] == old(buf[i])
    {
      buf[off + k] := s[k];
    }
  }

  /** `~uip_ipchksum()`: a zero sum reads 0xffff before it is complemented. */
  function Stored(sum: u16): u16 {
    0xffff - if sum == 0 then 0xffff else sum
  }

  /** Two nested calls of `chksum` fold the sum of both stretches. */
  lemma ChainedFold(a: nat, b: nat, c: nat)
    requires a < 0x1_0000
    ensures Fold(Fold(a + b) as int + c) == Fold(a + b + c)
  {
    FoldFold(a + b, c);
  }

  /** upper_layer_chksum over the packet in the buffer, as a folded sum. */
  method UpperLayerSum(buf: array<u8>, n: u16, proto: u8) returns (sum: u16)
    requires 20 <= n && 34 <= buf.Length && 14 + n <= buf.Length && n - 20 + proto < 0x1_0000
    ensures sum == Fold(n - 20 + proto + WordSum(buf[26..34]) + WordSum(buf[34..14 + n]))
  {
    sum := n - 20 + proto;
    sum := Chksum(sum, buf, 26, 8);
    ChainedFold(n - 20 + proto, WordSum(buf[26..34]), WordSum(buf[34..14 + n]));
    sum := Chksum(sum, buf, 34, n - 20);
  }

  /** From `tcp_send` to the end: the TCP header, its checksum, the IP header and
      its checksum, written around the payload already in place. */
  method SendTail(buf: array<u8>, seg: Segment, ipid: u16)
    requires Sendable(seg) && 54 + |seg.options| + |seg.data| <= buf.Length
    requires buf[54..54 + |seg.options| + |seg.data|] == seg.options + seg.data
    modifies buf
    ensures buf[14..34 + TcpLength(seg)] == Packet(seg, ipid)
    ensures forall i | 0 <= i < 14 || 34 + TcpLength(seg) <= i < buf.Length :: buf[i] == old(buf[i])
  {
    var n := 20 + TcpLength(seg);
    TcpPart(buf, seg, n);
    IpPart(buf, seg, ipid);
    assert buf[14..14 + n] == buf[14..34] + buf[34..14 + n];
  }

  lemma Regroup(seg: Segment, chk: u16)
    requires Sendable(seg)
    ensures TcpBytes(seg, chk) == (TcpFront(seg) + Be16(chk) + [0, 0]) + (seg.options + seg.data)
  {
  }

  /** The TCP header with a zero checksum, and the addresses. */
  method TcpFields(buf: array<u8>, seg: Segment, n: u16)
    requires Sendable(seg) && n == 20 + TcpLength(seg) && 14 + n <= buf.Length
    requires buf[54..14 + n] == seg.options + seg.data
    modifies buf
    ensures buf[34..14 + n] == TcpBytes(seg, 0) && buf[26..34] == Addresses(seg)
    ensures forall i | 0 <= i < 26 || 14 + n <= i < buf.Length :: buf[i] == old(buf[i])
  {
    Put(buf, 34, TcpFront(seg) + Be16(0) + [0, 0]);
    Put(buf, 26, Addresses(seg));
    Regroup(seg, 0);
    assert buf[54..14 + n] == old(buf[54..14 + n]);
    assert buf[34..54] == TcpFront(seg) + Be16(0) + [0, 0];
    assert buf[34..14 + n] == buf[34..54] + buf[54..14 + n];
  }

  /** The sum over addresses and TCP part is the one that is complemented. */
  lemma SumOfParts(seg: Segment, sum: u16)
    requires Sendable(seg)
    requires sum == Fold(TcpLength(seg) + PROTO_TCP + WordSum(Addresses(seg)) + WordSum(TcpBytes(seg, 0)))
    ensures Stored(sum) == TcpChecksum(seg)
  {
  }

  method TcpPart(buf: array<u8>, seg: Segment, n: u16)
    requires Sendable(seg) && n == 20 + TcpLength(seg) && 14 + n <= buf.Length
    requires buf[54..14 + n] == seg.options + seg.data
    modifies buf
    ensures buf[34..14 + n] == TcpBytes(seg, TcpChecksum(seg)) && buf[26..34] == Addresses(seg)
    ensures forall i | 0 <= i < 26 || 14 + n <= i < buf.Length :: buf[i] == old(buf[i])
  {
    TcpFields(buf, seg, n);
    var sum := UpperLayerSum(buf, n, PROTO_TCP);
    SumOfParts(seg, sum);
    PatchChecksum(buf, seg, n, Stored(sum));
  }

  /** The checksum goes into its field. */
  method PatchChecksum(buf: array<u8>, seg: Segment, n: u16, chk: u16)
    requires Sendable(seg) && n == 20 + TcpLength(seg) && 14 + n <= buf.Length
    requires buf[34..14 + n] == TcpBytes(seg, 0)
    modifies buf
    ensures buf[34..14 + n] == TcpBytes(seg, chk)
    ensures forall i | 0 <= i < 34 || 14 + n <= i < buf.Length :: buf[i] == old(buf[i])
  {
    ghost var front, back := TcpFront(seg), [0, 0] + seg.options + seg.data;
    assert buf[34..50] == buf[34..14 + n][..16] == front;
    assert buf[52..14 + n] == buf[34..14 + n][18..] == back;
    Put(buf, 50, Be16(chk));
    assert buf[34..50] == front && buf[52..14 + n] == back;
    assert buf[34..14 + n] == buf[34..50] + buf[50..52] + buf[52..14 + n];
  }

  /** The IP header with a zero checksum. */
  method IpFields(buf: array<u8>, seg: Segment, ipid: u16)
    requires Sendable(seg) && buf.Length >= 34 && buf[26..34] == Addresses(seg)
    modifies buf
    ensures buf[14..34] == IpBytes(seg, ipid, 0) && buf[26..34] == Addresses(seg)
    ensures forall i | 0 <= i < 14 || 26 <= i < buf.Length :: buf[i] == old(buf[i])
  {
    Put(buf, 14, IpFront(seg, ipid) + Be16(0));
    assert buf[26..34] == Addresses(seg);
    assert buf[14..34] == buf[14..26] + buf[26..34];
  }

  method IpPart(buf: array<u8>, seg: Segment, ipid: u16)
    requires Sendable(seg) && buf.Length >= 34 && buf[26..34] == Addresses(seg)
    modifies buf
    ensures buf[14..34] == IpBytes(seg, ipid, IpChecksum(seg, ipid))
    ensures forall i | 0 <= i < 14 || 26 <= i < buf.Length :: buf[i] == old(buf[i])
  {
    IpFields(buf, seg, ipid);
    var sum := Chksum(0, buf, 14, 20);
    ghost var front := IpFront(seg, ipid);
    assert buf[14..24] == buf[14..34][..10] == front;
    assert Stored(sum) == IpChecksum(seg, ipid);
    Put(buf, 24, Be16(Stored(sum)));
    assert buf[14..24] == front && buf[26..34] == Addresses(seg);
    assert buf[14..34] == buf[14..24] + buf[24..26] + buf[26..34];
  }

  lemma BehindLink(buf: array<u8>, i: nat, j: nat)
    requires i <= j && 14 + j <= buf.Length
    ensures buf[14..][i..j] == buf[14 + i..14 + j]
  {
  }

  /** The input tests on the buffer, in the order of the source. */
  method InputTests(buf: array<u8>, uipLen: u16, host: u32) returns (ok: bool)
    requires buf.Length >= 54
    requires var n := IpLength(buf[14..]); n <= uipLen ==> 20 <= n && 14 + n <= buf.Length
    ensures ok == Accepts(buf[14..], uipLen, host)
  {
    ghost var b := buf[14..];
    var n := FromBe16(buf[16], buf[17]);
    if buf[14] != 0x45 || n > uipLen { return false; }
    if buf[20] % 0x40 != 0 || buf[21] != 0 { return false; }
    BehindLink(buf, 16, 20);
    if host != 0 && Number32(buf[30..34]) != host { return false; }
    var sum := Chksum(0, buf, 14, 20);
    BehindLink(buf, 0, 20);
    if sum != 0 && sum != 0xffff { return false; }
    if buf[23] != PROTO_TCP { return false; }
    sum := UpperLayerSum(buf, n, PROTO_TCP);
    BehindLink(buf, 12, 20);
    BehindLink(buf, 20, n);
    return sum == 0 || sum == 0xffff;
  }
}
