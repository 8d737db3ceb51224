/** The Internet checksum (section 2 of RFC 1071): the carry loop of `chksum`
    computes one's-complement summation. */
module Checksum {
  import opened Words

  /** The plain sum of the big-endian 16-bit words, an odd last byte padded. */
  function WordSum(d: seq<u8>): nat {
    if |d| == 0 then 0
    else if |d| == 1 then d[0] as int * 0x100
    else d[0] as int * 0x100 + d[1] as int + WordSum(d[2..])
  }

  /** The 16-bit one's-complement value of a sum: its residue modulo 65535,
      where only an all-zero sum is written 0. */
  function Fold(n: nat): u16 {
    if n == 0 then 0 else (n - 1) % 0xffff + 1
  }

  lemma FoldFacts(n: nat)
    ensures Fold(n) % 0xffff == n % 0xffff
    ensures Fold(n) == 0 <==> n == 0
    ensures n < 0x1_0000 ==> Fold(n) == n
    ensures (Fold(n) == 0 || Fold(n) == 0xffff) <==> n % 0xffff == 0
  {
  }

  /** `sum += t; if (sum < t) sum++` in 16 bits. */
  function AddCarry(sum: u16, t: u16): u16 {
    var s := (sum as int + t) % 0x1_0000;
    if s < t then s + 1 else s
  }

  lemma AddCarryIs(sum: u16, t: u16)
    ensures AddCarry(sum, t) == Fold(sum as int + t)
  {
  }

  /** Folding early does not change the result. */
  lemma FoldFold(m: nat, n: nat)
    ensures Fold(Fold(m) as int + n) == Fold(m + n)
  {
    if m != 0 {
      ModShift(m - 1, n);
    }
  }

  lemma ModShift(m: nat, n: nat)
    ensures (m % 0xffff + n) % 0xffff == (m + n) % 0xffff
  {
    var q := m / 0xffff;
    assert m == q * 0xffff + m % 0xffff;
    ModMultiple(m % 0xffff + n, q);
  }

  lemma {:induction false} ModMultiple(x: nat, q: nat)
    ensures (x + q * 0xffff) % 0xffff == x % 0xffff
  {
    if q > 0 {
      ModMultiple(x, q - 1);
      assert x + q * 0xffff == (x + (q - 1) * 0xffff) + 0xffff;
    }
  }

  lemma {:induction false} WordSumAppend(a: seq<u8>, b: seq<u8>)
    requires |a| % 2 == 0
    ensures WordSum(a + b) == WordSum(a) + WordSum(b)
  {
    if |a| == 0 {
      assert a + b == b;
    } else {
      assert (a + b)[2..] == a[2..] + b;
      WordSumAppend(a[2..], b);
    }
  }

  /** Only the all-zero message sums to zero. */
  lemma {:induction false} WordSumZero(d: seq<u8>)
    ensures WordSum(d) == 0 <==> forall i | 0 <= i < |d| :: d[i] == 0
  {
    if |d| >= 2 {
      WordSumZero(d[2..]);
      assert forall i | 2 <= i < |d| :: d[i] == d[2..][i - 2];
    }
  }

  lemma WordSumPair(d: seq<u8>, i: nat)
    requires i % 2 == 0 && i + 2 <= |d|
    ensures WordSum(d[..i + 2]) == WordSum(d[..i]) + (d[i] as int * 0x100 + d[i + 1] as int)
  {
    assert d[..i + 2] == d[..i] + [d[i], d[i + 1]];
    WordSumAppend(d[..i], [d[i], d[i + 1]]);
    assert [d[i], d[i + 1]][2..] == [];
  }

  /** One turn of the loop. */
  lemma PairStep(sum: u16, d: seq<u8>, i: nat, r: u16)
    requires i % 2 == 0 && i + 2 <= |d| && r == Fold(sum as int + WordSum(d[..i]))
    ensures AddCarry(r, d[i] as int * 0x100 + d[i + 1] as int) == Fold(sum as int + WordSum(d[..i + 2]))
  {
    var t := d[i] as int * 0x100 + d[i + 1] as int;
    WordSumPair(d, i);
    AddCarryIs(r, t);
    FoldFold(sum as int + WordSum(d[..i]), t);
  }

  /** The odd last byte. */
  lemma LastStep(sum: u16, d: seq<u8>, i: nat, r: u16)
    requires i % 2 == 0 && i + 1 == |d| && r == Fold(sum as int + WordSum(d[..i]))
    ensures AddCarry(r, d[i] as int * 0x100) == Fold(sum as int + WordSum(d))
  {
    var t := d[i] as int * 0x100;
    assert d == d[..i] + [d[i]];
    WordSumAppend(d[..i], [d[i]]);
    AddCarryIs(r, t);
    FoldFold(sum as int + WordSum(d[..i]), t);
  }

  /** `chksum`: the loop over pairs and the odd byte, on a stretch of the packet
      buffer, is one's-complement summation. */
  method Chksum(sum: u16, data: array<u8>, start: nat, len: nat) returns (r: u16)
    requires start + len <= data.Length
    ensures r == Fold(sum as int + WordSum(data[start..start + len]))
  {
    var p, last := start, start + len - 1;
    r := sum;
    ghost var d := data[start..start + len];
    FoldFacts(sum);
    while p < last
      invariant start <= p <= start + len && (p - start) % 2 == 0
      invariant r == Fold(sum as int + WordSum(d[..p - start]))
    {
      PairStep(sum, d, p - start, r);
      r := AddCarry(r, data[p] as int * 0x100 + data[p + 1] as int);
      p := p + 2;
    }
    if p == last {
      LastStep(sum, d, p - start, r);
      r := AddCarry(r, data[p] as int * 0x100);
    } else {
      assert d == d[..p - start];
    }
  }

  /** The field that completes a message: the complement of its sum, as
      `~uip_ipchksum()` and `~uip_tcpchksum()` store it. */
  function Complement(n: nat): u16 {
    if Fold(n) == 0 then 0 else 0xffff - Fold(n)
  }

  /** The receiver's test: uip_ipchksum() == 0xffff, where a zero sum reads 0xffff. */
  predicate Verifies(n: nat) {
    Fold(n) == 0 || Fold(n) == 0xffff
  }

  /** A message completed with its complement verifies. */
  lemma ComplementVerifies(n: nat)
    ensures Verifies(n + Complement(n))
  {
    FoldFacts(n);
    FoldFacts(n + Complement(n));
    if Fold(n) != 0 {
      ModShift(Fold(n), Complement(n));
      assert (n % 0xffff + Complement(n)) % 0xffff == 0 by {
        ModShift(Fold(n), Complement(n));
      }
      ModShift(n, Complement(n));
    }
  }

  // --- Error detection -------------------------------------------------------

  /** The weight of byte `i` in the sum. */
  function ByteWeight(i: nat): nat { if i % 2 == 0 then 0x100 else 1 }

  lemma {:induction false} ByteReplaced(d: seq<u8>, i: nat, x: u8)
    requires i < |d|
    ensures WordSum(d[i := x]) == WordSum(d) + (x - d[i]) * ByteWeight(i)
  {
    if i >= 2 {
      assert d[i := x][2..] == d[2..][i - 2 := x];
      ByteReplaced(d[2..], i - 2, x);
    } else if |d| >= 2 {
      assert d[i := x][2..] == d[2..];
    }
  }

  lemma Incongruent(n: nat, m: nat)
    requires 0 < n - m < 0xffff
    ensures n % 0xffff != m % 0xffff
  {
  }

  /** Any change of one byte changes the sum modulo 65535. */
  lemma ByteErrorShows(d: seq<u8>, i: nat, x: u8)
    requires i < |d| && x != d[i]
    ensures WordSum(d[i := x]) % 0xffff != WordSum(d) % 0xffff
  {
    ByteReplaced(d, i, x);
    if x > d[i] {
      Incongruent(WordSum(d[i := x]), WordSum(d));
    } else {
      Incongruent(WordSum(d), WordSum(d[i := x]));
    }
  }

  /** Two sums that both verify are congruent. */
  lemma BothVerify(n: nat, m: nat)
    requires Verifies(n) && Verifies(m)
    ensures n % 0xffff == m % 0xffff
  {
    FoldFacts(n);
    FoldFacts(m);
  }
}
