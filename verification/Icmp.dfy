/** ICMP echo: the reply is the request with its type changed, its checksum
    patched by addition with carry, and the IP addresses exchanged. */
module Icmp {
  import opened Words
  import opened Checksum

  const ECHO := 8
  const ECHO_REPLY := 0

  /** The checksum field as the CPU loads it. */
  function Field(m: seq<u8>): u16
    requires |m| >= 4
  {
    m[2] as int + m[3] as int * 0x100
  }

  /** Lines 999-1003: add ECHO << 8 in network order, end-around. */
  function Patch(c: u16): u16 {
    if c >= Htons(0xffff - ECHO * 0x100) then (c + Htons(ECHO * 0x100) + 1) % 0x1_0000
    else (c + Htons(ECHO * 0x100)) % 0x1_0000
  }

  function EchoReply(m: seq<u8>): seq<u8>
    requires |m| >= 4
  {
    var c := Patch(Field(m));
    [ECHO_REPLY, m[1], c % 0x100, c / 0x100] + m[4..]
  }

  /** The strict test of a receiver: the one's-complement sum is all ones. */
  predicate SumOk(m: seq<u8>) {
    Fold(WordSum(m)) == 0xffff
  }

  /** The patch adds 8 modulo 65535 and never yields 0xffff. */
  lemma PatchAdds(c: u16)
    ensures Patch(c) % 0xffff == (c + 8) % 0xffff && Patch(c) < 0xffff
  {
    assert Htons(0xffff - ECHO * 0x100) == 0xfff7 && Htons(ECHO * 0x100) == 8;
  }

  lemma HeadSum(m: seq<u8>)
    requires |m| >= 4
    ensures WordSum(m) == m[0] as int * 0x100 + m[1] as int + m[2] as int * 0x100 + m[3] as int + WordSum(m[4..])
  {
    assert m[2..][2..] == m[4..];
  }

  /** Swapping the bytes of a word multiplies it by 256 modulo 65535. */
  lemma SwapIsScale(lo: u8, hi: u8)
    ensures (lo as int * 0x100 + hi as int) % 0xffff == ((lo as int + hi as int * 0x100) * 0x100) % 0xffff
  {
    assert (lo as int + hi as int * 0x100) * 0x100 == lo as int * 0x100 + hi as int + hi as int * 0xffff;
    ModMultiple(lo as int * 0x100 + hi as int, hi);
  }

  lemma {:induction false} ScaleCongruence(x: nat, y: nat, k: nat)
    requires x % 0xffff == y % 0xffff
    ensures (x * k) % 0xffff == (y * k) % 0xffff
  {
    if k > 0 {
      ScaleCongruence(x, y, k - 1);
      ModShift(x * (k - 1), x);
      ModShift(y * (k - 1), x);
      ModShift(x, y * (k - 1));
      ModShift(y, y * (k - 1));
      assert x * k == x * (k - 1) + x && y * k == y * (k - 1) + y;
    }
  }

  /** In network order the patch adds 0x800. */
  lemma PatchInNetworkOrder(m2: u8, m3: u8)
    ensures var c := Patch(m2 as int + m3 as int * 0x100);
            (c % 0x100 * 0x100 + c / 0x100) % 0xffff == (m2 as int * 0x100 + m3 as int + 0x800) % 0xffff
  {
    var c0 := m2 as int + m3 as int * 0x100;
    var c := Patch(c0);
    PatchAdds(c0);
    SwapIsScale(c % 0x100, c / 0x100);
    SwapIsScale(m2, m3);
    ScaleCongruence(c, c0 + 8, 0x100);
    ModShift(c0 * 0x100, 0x800);
    ModShift(m2 as int * 0x100 + m3 as int, 0x800);
  }

  /** The reply's sum is congruent to the request's. */
  lemma ReplyCongruent(m: seq<u8>)
    requires |m| >= 4 && m[0] == ECHO
    ensures WordSum(EchoReply(m)) % 0xffff == WordSum(m) % 0xffff
  {
    var r, c := EchoReply(m), Patch(Field(m));
    HeadSum(m);
    HeadSum(r);
    assert r[4..] == m[4..];
    PatchInNetworkOrder(m[2], m[3]);
    var x, y, rest := c % 0x100 * 0x100 + c / 0x100, m[2] as int * 0x100 + m[3] as int + 0x800, m[1] as int + WordSum(m[4..]);
    ModShift(x, rest);
    ModShift(y, rest);
  }

  /** All bytes besides type and checksum. */
  predicate RestZero(m: seq<u8>)
    requires |m| >= 4
  {
    m[1] == 0 && forall i | 4 <= i < |m| :: m[i] == 0
  }

  lemma ReplyZero(m: seq<u8>)
    requires |m| >= 4 && WordSum(EchoReply(m)) % 0xffff == 0
    ensures WordSum(EchoReply(m)) == 0 <==> RestZero(m)
  {
    var r, c := EchoReply(m), Patch(Field(m));
    PatchAdds(Field(m));
    HeadSum(r);
    WordSumZero(m[4..]);
    assert r[4..] == m[4..];
    assert forall i | 4 <= i < |m| :: m[i] == m[4..][i - 4];
    if RestZero(m) {
      assert WordSum(r) == c % 0x100 * 0x100 + c / 0x100;
      SwapBelow(c);
    }
  }

  /** Swapping the bytes keeps 0xffff apart from the other multiples of 65535. */
  lemma SwapBelow(c: u16)
    requires c < 0xffff && (c % 0x100 * 0x100 + c / 0x100) % 0xffff == 0
    ensures c == 0
  {
    var x := c % 0x100 * 0x100 + c / 0x100;
    assert x == 0 || x == 0xffff;
  }

  /** For every echo request whose sum verifies, the reply verifies unless all
      its bytes besides type and checksum are zero: the case in section 3 of
      RFC 1624 where the patched field should read 0xffff and reads 0. */
  lemma ReplyVerifies(m: seq<u8>)
    requires |m| >= 4 && m[0] == ECHO && SumOk(m)
    ensures SumOk(EchoReply(m)) <==> !RestZero(m)
  {
    FoldFacts(WordSum(m));
    FoldFacts(WordSum(EchoReply(m)));
    ReplyCongruent(m);
    ReplyZero(m);
  }

  /** The failing request: an empty echo with zero code. */
  lemma SmallestFailure()
    ensures var m := [8, 0, 0xf7, 0xff]; SumOk(m) && EchoReply(m) == [0, 0, 0, 0] && !SumOk(EchoReply(m))
  {
    var m: seq<u8> := [8, 0, 0xf7, 0xff];
    HeadSum(m);
    HeadSum(EchoReply(m));
  }

  // --- The IP header of the reply --------------------------------------------

  /** Lines 1006-1007: the sender becomes the destination, the host the source. */
  function ExchangeAddresses(h: seq<u8>, host: seq<u8>): seq<u8>
    requires |h| == 20 && |host| == 4
  {
    h[..12] + host + h[12..16]
  }

  lemma HeaderSum(front: seq<u8>, a: seq<u8>, b: seq<u8>)
    requires |front| == 12 && |a| == 4 && |b| == 4
    ensures WordSum(front + a + b) == WordSum(front) + WordSum(a) + WordSum(b)
  {
    WordSumAppend(front + a, b);
    WordSumAppend(front, a);
  }

  /** The header checksum is not recomputed and need not be: the request was
      addressed to this host, so the words are only permuted. */
  lemma HeaderStaysValid(h: seq<u8>, host: seq<u8>)
    requires |h| == 20 && |host| == 4 && h[16..20] == host
    ensures WordSum(ExchangeAddresses(h, host)) == WordSum(h)
    ensures Verifies(WordSum(h)) <==> Verifies(WordSum(ExchangeAddresses(h, host)))
  {
    SumKept(h, host);
  }

  lemma SumKept(h: seq<u8>, host: seq<u8>)
    requires |h| == 20 && |host| == 4 && h[16..20] == host
    ensures WordSum(ExchangeAddresses(h, host)) == WordSum(h)
  {
    var front, src := h[..12], h[12..16];
    InThree(h);
    Permuted(front, src, host);
  }

  lemma InThree(h: seq<u8>)
    requires |h| == 20
    ensures h == h[..12] + h[12..16] + h[16..20]
  {
  }

  lemma Permuted(front: seq<u8>, a: seq<u8>, b: seq<u8>)
    requires |front| == 12 && |a| == 4 && |b| == 4
    ensures WordSum(front + a + b) == WordSum(front + b + a)
  {
    HeaderSum(front, a, b);
    HeaderSum(front, b, a);
  }

  /** Where the reply goes: to the sender of the request, from this host, with the
      rest of the header as it was. */
  lemma ReplyAddressed(h: seq<u8>, host: seq<u8>)
    requires |h| == 20 && |host| == 4
    ensures var r := ExchangeAddresses(h, host);
            |r| == 20 && r[16..20] == h[12..16] && r[12..16] == host && r[..12] == h[..12]
  {
  }

  /** What the reply carries: type 0, and the code, identifier, sequence number and
      data of the request, as RFC 792 asks. */
  lemma ReplyEchoes(m: seq<u8>)
    requires |m| >= 4
    ensures var r := EchoReply(m); |r| == |m| && r[0] == 0 && r[1] == m[1] && r[4..] == m[4..]
  {
  }
}
