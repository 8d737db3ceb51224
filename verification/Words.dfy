/** Machine words of the C program: the unsigned widths, 32-bit sequence
    arithmetic and the byte-wise addition that implements it. */
module Words {
  type u8 = x: int | 0 <= x < 0x100
  type u16 = x: int | 0 <= x < 0x1_0000
  type u32 = x: int | 0 <= x < 0x1_0000_0000

  datatype Option<+T> = None | Some(value: T)

  /** Truncation to eight bits. */
  function Byte(x: int): u8 {
    x % 0x100
  }

  /** 32-bit addition with wrap-around. */
  function Add32(x: u32, n: nat): u32 {
    (x + n) % 0x1_0000_0000
  }

  /** How far `x` is ahead of `base` on the 32-bit circle. */
  function Ahead32(x: u32, base: u32): u32 {
    (x - base) % 0x1_0000_0000
  }

  lemma AheadOfAdd(base: u32, n: nat)
    requires n < 0x1_0000_0000
    ensures Ahead32(Add32(base, n), base) == n
  {
  }

  lemma AddAdd(x: u32, m: nat, n: nat)
    ensures Add32(Add32(x, m), n) == Add32(x, m + n)
  {
  }

  lemma AheadOfNext(isn: u32, n: nat)
    requires n < 0x1_0000_0000
    ensures Ahead32(Add32(isn, 1 + n), Add32(isn, 1)) == n
  {
    AddAdd(isn, 1, n);
    AheadOfAdd(Add32(isn, 1), n);
  }

  /** The number a big-endian four-byte field stands for. */
  function Number32(b: seq<u8>): u32
    requires |b| == 4
  {
    b[0] as int * 0x100_0000 + b[1] as int * 0x1_0000 + b[2] as int * 0x100 + b[3] as int
  }

  /** The byte swap HTONS performs on this little-endian machine. */
  function Htons(x: u16): (y: u16)
  {
    (x % 0x100) * 0x100 + x / 0x100
  }

  /** The cast to u16_t of an `int`, by steps of 2^16. */
  function Low16(x: int): u16
    decreases if x < 0 then 0x1_0000 - x else x
  {
    if x < 0 then Low16(x + 0x1_0000) else if x < 0x1_0000 then x else Low16(x - 0x1_0000)
  }

  lemma {:induction false} Low16Is(x: int)
    ensures Low16(x) == x % 0x1_0000
    decreases if x < 0 then 0x1_0000 - x else x
  {
    if x < 0 {
      Low16Is(x + 0x1_0000);
    } else if x >= 0x1_0000 {
      Low16Is(x - 0x1_0000);
    }
  }

  lemma HtonsInvolution(x: u16)
    ensures Htons(Htons(x)) == x
  {
    SwapParts(x % 0x100, x / 0x100);
  }

  lemma SwapParts(lo: u8, hi: u8)
    ensures (lo as int * 0x100 + hi) % 0x100 == hi && (lo as int * 0x100 + hi) / 0x100 == lo
  {
  }

  /** A 32-bit result is the wrapped sum once the lost carry is accounted for. */
  lemma WrapIs(x: u32, y: u32, n: nat, carry: nat)
    requires x + carry * 0x1_0000_0000 == y + n
    ensures x == Add32(y, n)
  {
  }

  /** A byte sum wraps exactly when the result is below the addend: the carry
      test of the source. */
  lemma ByteSum(x: u8, y: u8)
    ensures Byte(x as int + y) == if Byte(x as int + y) < y then x + y - 0x100 else x as int + y
  {
  }

  /** The weight of byte `k` of a big-endian word. */
  function Weight(k: nat): nat
    requires k < 4
  {
    if k == 0 then 0x100_0000 else if k == 1 then 0x1_0000 else if k == 2 then 0x100 else 1
  }

  /** The nested `++` chains of the source: add one to byte `k` and carry left. */
  method Carry(b: array<u8>, k: nat)
    requires b.Length == 4 && k < 4
    modifies b
    ensures Number32(b[..]) == Add32(old(Number32(b[..])), Weight(k))
    ensures b[k + 1..] == old(b[k + 1..])
    decreases k
  {
    ghost var before := Number32(b[..]);
    ghost var wraps := b[k] == 0xff;
    b[k] := Byte(b[k] as int + 1);
    if b[k] == 0 && k > 0 {
      ghost var middle := Number32(b[..]);
      assert middle + Weight(k - 1) == before + Weight(k);
      Carry(b, k - 1);
    } else {
      WrapIs(Number32(b[..]), before, Weight(k), if wraps then 1 else 0);
    }
  }

  /** The four bytes before any carry is propagated. */
  function ByteSums(b: seq<u8>, lo: u8, hi: u8): (r: seq<u8>)
    requires |b| == 4
    ensures |r| == 4
  {
    [b[0], b[1], Byte(b[2] as int + hi), Byte(b[3] as int + lo)]
  }

  /** The sums before the carries, and where the two carry chains land. */
  lemma TwoCarries(b: seq<u8>, lo: u8, hi: u8)
    requires |b| == 4
    ensures var s := ByteSums(b, lo, hi);
            Add32(Add32(Number32(s), if s[2] < hi then 0x1_0000 else 0), if s[3] < lo then 0x100 else 0)
              == Add32(Number32(b), hi as int * 0x100 + lo)
  {
    var s := ByteSums(b, lo, hi);
    var c2, c3 := if s[2] < hi then 0x1_0000 else 0, if s[3] < lo then 0x100 else 0;
    ByteSum(b[3], lo);
    ByteSum(b[2], hi);
    AddAdd(Number32(s), c2, c3);
    assert Number32(s) + c2 + c3 == Number32(b) + hi as int * 0x100 + lo;
  }

  /** The byte sums of `uip_add32`. */
  method StoreSums(op32: array<u8>, lo: u8, hi: u8, acc: array<u8>)
    requires op32.Length == 4 && acc.Length == 4 && acc != op32
    modifies acc
    ensures acc[..] == ByteSums(op32[..], lo, hi)
  {
    acc[3] := Byte(op32[3] as int + lo);
    acc[2] := Byte(op32[2] as int + hi);
    acc[1] := op32[1];
    acc[0] := op32[0];
  }

  /** `uip_add32`: byte sums on the two low bytes, then the two carry chains. */
  method AddBytes(op32: array<u8>, op16: u16, acc: array<u8>)
    requires op32.Length == 4 && acc.Length == 4 && acc != op32
    modifies acc
    ensures op32[..] == old(op32[..])
    ensures Number32(acc[..]) == Add32(Number32(op32[..]), op16)
  {
    var lo, hi := op16 % 0x100, op16 / 0x100;
    StoreSums(op32, lo, hi, acc);
    ghost var b := op32[..];
    TwoCarries(b, lo, hi);
    CarryIf(acc, 1, acc[2] < hi);
    CarryIf(acc, 2, acc[3] < lo);
    assert op16 == hi as int * 0x100 + lo;
  }

  method CarryIf(b: array<u8>, k: nat, carry: bool)
    requires b.Length == 4 && 0 < k < 3
    modifies b
    ensures Number32(b[..]) == Add32(old(Number32(b[..])), if carry then Weight(k) else 0)
    ensures b[3] == old(b[3])
  {
    if carry {
      ghost var tail := b[k + 1..];
      Carry(b, k);
      assert b[3] == b[k + 1..][2 - k] == tail[2 - k];
    }
  }

  /** `++iss`, and the ackno of a RST: increment with carry through all bytes. */
  method IncrementBytes(b: array<u8>)
    requires b.Length == 4
    modifies b
    ensures Number32(b[..]) == Add32(old(Number32(b[..])), 1)
  {
    Carry(b, 3);
  }
}
