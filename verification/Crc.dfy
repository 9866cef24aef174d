/** Left folds: the state a loop over a buffer ends in. */
module Folding {

  function Fold<S, B>(f: (S, B) -> S, s: S, data: seq<B>): S {
    if data == [] then s else f(Fold(f, s, data[..|data| - 1]), data[|data| - 1])
  }

  lemma FoldStep<S, B>(f: (S, B) -> S, s: S, data: seq<B>, i: nat)
    requires i < |data|
    ensures Fold(f, s, data[..i + 1]) == f(Fold(f, s, data[..i]), data[i])
  {
    assert data[..i + 1][..i] == data[..i];
  }

  lemma {:induction false} FoldComposes<S, B>(f: (S, B) -> S, s: S, a: seq<B>, b: seq<B>)
    ensures Fold(f, s, a + b) == Fold(f, Fold(f, s, a), b)
  {
    if b == [] {
      assert a + b == a;
    } else {
      var front := b[..|b| - 1];
      assert (a + b)[..|a + b| - 1] == a + front;
      FoldComposes(f, s, a, front);
    }
  }

  lemma {:induction false} FoldInjective<S(!new), B(!new)>(f: (S, B) -> S, s1: S, s2: S, data: seq<B>)
    requires forall x, y, b :: f(x, b) == f(y, b) ==> x == y
    requires Fold(f, s1, data) == Fold(f, s2, data)
    ensures s1 == s2
  {
    if data != [] {
      FoldInjective(f, s1, s2, data[..|data| - 1]);
    }
  }

  lemma {:induction false} FoldSame<S(!new), B(!new)>(f: (S, B) -> S, g: (S, B) -> S, s: S, data: seq<B>)
    requires forall x, b :: f(x, b) == g(x, b)
    ensures Fold(f, s, data) == Fold(g, s, data)
  {
    if data != [] {
      FoldSame(f, g, s, data[..|data| - 1]);
    }
  }

  /** If running a step backwards lets a difference grow by one only, then `width` steps from one state
      tell all inputs apart. */
  lemma {:induction false} FoldBurst<S(!new), B(!new)>(
      f: (S, B) -> S, differ: (S, S, nat) -> bool, width: nat, s: S, u: seq<B>, v: seq<B>)
    requires forall x, a, y, b, n: nat :: n < width && differ(f(x, a), f(y, b), n) ==> differ(x, y, n + 1)
    requires forall x, a, b, n: nat :: n < width && differ(f(x, a), f(x, b), n) ==> a == b
    requires |u| == |v| <= width && differ(Fold(f, s, u), Fold(f, s, v), width - |u|)
    ensures u == v
  {
    if |u| > 0 {
      var k := |u| - 1;
      FoldBurst(f, differ, width, s, u[..k], v[..k]);
      assert u == u[..k] + [u[k]] && v == v[..k] + [v[k]];
    }
  }
}

/** The nibble-table CRC-32 of main/littlefs/lfs_util.c against the bit-serial reflected shift register
    of its polynomial (section 8 of RFC 1952, without that section's complement before and after). */
module Crc {
  import opened Folding

  type Byte = bv8

  const RTABLE: seq<bv32> := [
    0x00000000, 0x1db71064, 0x3b6e20c8, 0x26d930ac,
    0x76dc4190, 0x6b6b51f4, 0x4db26158, 0x5005713c,
    0xedb88320, 0xf00f9344, 0xd6d6a3e8, 0xcb61b38c,
    0x9b64c2b0, 0x86d3d2d4, 0xa00ae278, 0xbdbdf21c]

  // Names for the operators, so that equal arguments are recognised without looking at bits.
  function Xor(a: bv32, b: bv32): bv32 { a ^ b }

  function Low(d: bv32): bv32 { d & 0xf }

  function High(d: bv32): bv32 { d & 0xfffffff0 }

  function Shr4(d: bv32): bv32 { d >> 4 }

  function Word(b: Byte): bv32 { b as bv32 }

  /** The feedback of the polynomial if a one falls out (the mask `0 - (c & 1)` is all ones exactly then). */
  function Feedback(c: bv32): bv32 { 0xedb88320 & (0 - (c & 1)) }

  /** The coefficient of `x^k` in the reflected register, whose lowest bit is the highest power. */
  function Term(k: nat): bv32
    requires k < 32
  {
    1 << (31 - k)
  }

  lemma FeedbackOfOne(c: bv32)
    ensures Feedback(c) == if c & 1 == 1 then 0xedb88320 else 0
  {
  }

  /** The polynomial is x^32 + x^26 + x^23 + x^22 + x^16 + x^12 + x^11 + x^10 + x^8 + x^7 + x^5 + x^4 + x^2 + x + 1. */
  function Polynomial(): bv32 {
    Term(26) | Term(23) | Term(22) | Term(16) | Term(12) | Term(11) | Term(10)
    | Term(8) | Term(7) | Term(5) | Term(4) | Term(2) | Term(1) | Term(0)
  }

  lemma PolynomialIs()
    ensures Polynomial() == 0xedb88320
  {
    assert Term(26) == 0x20 && Term(23) == 0x100 && Term(22) == 0x200 && Term(16) == 0x8000;
    assert Term(12) == 0x80000 && Term(11) == 0x100000 && Term(10) == 0x200000;
    assert Term(8) == 0x800000 && Term(7) == 0x1000000 && Term(5) == 0x4000000 && Term(4) == 0x8000000;
    assert Term(2) == 0x20000000 && Term(1) == 0x40000000 && Term(0) == 0x80000000;
  }

  /** When x^32 falls out, its other terms, and no more, are fed back. */
  lemma FeedbackIsThePolynomial(c: bv32)
    ensures Feedback(c) == if c & 1 == 1 then Polynomial() else 0
  {
    FeedbackOfOne(c);
    PolynomialIs();
  }

  function Half(c: bv32): bv32 { c >> 1 }

  /** One clock of the shift register. */
  function Clock(c: bv32): bv32 { Xor(Half(c), Feedback(c)) }

  function Clock2(c: bv32): bv32 { Clock(Clock(c)) }

  function Clock4(c: bv32): bv32 { Clock2(Clock2(c)) }

  function Clock8(c: bv32): bv32 { Clock4(Clock4(c)) }

  /** A byte enters at the low end and is clocked through bit by bit. */
  function SerialByte(c: bv32, b: Byte): bv32 {
    Clock8(Xor(c, Word(b)))
  }

  function BitSerial(c: bv32, data: seq<Byte>): bv32 {
    Fold(SerialByte, c, data)
  }

  // ---------------------------------------------------------------- the register is linear

  lemma HalfLinear(a: bv32, b: bv32)
    ensures Half(Xor(a, b)) == Xor(Half(a), Half(b))
  {
  }

  lemma FeedbackLinear(a: bv32, b: bv32)
    ensures Feedback(Xor(a, b)) == Xor(Feedback(a), Feedback(b))
  {
  }

  lemma XorAssociates(a: bv32, b: bv32, c: bv32)
    ensures Xor(Xor(a, b), c) == Xor(a, Xor(b, c))
  {
  }

  lemma XorCommutes(a: bv32, b: bv32)
    ensures Xor(a, b) == Xor(b, a)
  {
  }

  lemma Exchange(p: bv32, q: bv32, r: bv32, s: bv32)
    ensures Xor(Xor(p, q), Xor(r, s)) == Xor(Xor(p, r), Xor(q, s))
  {
    XorAssociates(p, q, Xor(r, s));
    XorAssociates(q, r, s);
    XorCommutes(q, r);
    XorAssociates(r, q, s);
    XorAssociates(p, r, Xor(q, s));
  }

  lemma ClockLinear(a: bv32, b: bv32)
    ensures Clock(Xor(a, b)) == Xor(Clock(a), Clock(b))
  {
    HalfLinear(a, b);
    FeedbackLinear(a, b);
    Exchange(Half(a), Half(b), Feedback(a), Feedback(b));
  }

  lemma Clock2Linear(a: bv32, b: bv32)
    ensures Clock2(Xor(a, b)) == Xor(Clock2(a), Clock2(b))
  {
    ClockLinear(a, b);
    ClockLinear(Clock(a), Clock(b));
  }

  lemma Clock4Linear(a: bv32, b: bv32)
    ensures Clock4(Xor(a, b)) == Xor(Clock4(a), Clock4(b))
  {
    Clock2Linear(a, b);
    Clock2Linear(Clock2(a), Clock2(b));
  }

  lemma Clock8Linear(a: bv32, b: bv32)
    ensures Clock8(Xor(a, b)) == Xor(Clock8(a), Clock8(b))
  {
    Clock4Linear(a, b);
    Clock4Linear(Clock4(a), Clock4(b));
  }

  lemma Clock4Injective(a: bv32, b: bv32)
    requires Clock4(a) == Clock4(b)
    ensures a == b
  {
  }

  lemma Clock8Injective(a: bv32, b: bv32)
    requires Clock8(a) == Clock8(b)
    ensures a == b
  {
    Clock4Injective(Clock4(a), Clock4(b));
    Clock4Injective(a, b);
  }

  // ---------------------------------------------------------------- the table

  /** The table holds what four clocks make of a nibble. */
  lemma TableIsFourClocks(n: bv32)
    requires n <= 15
    ensures RTABLE[n as nat] == Clock4(n)
  {
    assert n == 0 || n == 1 || n == 2 || n == 3 || n == 4 || n == 5 || n == 6 || n == 7
        || n == 8 || n == 9 || n == 10 || n == 11 || n == 12 || n == 13 || n == 14 || n == 15;
  }

  lemma Nibble(c: bv32)
    ensures Low(c) <= 15
  {
  }

  /** One of the two statements of the loop body; `d` is the byte, or the byte shifted down by four. */
  function Lookup(c: bv32, d: bv32): bv32 {
    Nibble(Xor(c, d));
    Xor(Shr4(c), RTABLE[Low(Xor(c, d)) as nat])
  }

  lemma HighClocksShift(c: bv32)
    ensures Clock4(High(c)) == Shr4(c)
  {
  }

  lemma Halves(c: bv32)
    ensures Xor(High(c), Low(c)) == c == Xor(Low(c), High(c))
  {
  }

  lemma Clock4Splits(c: bv32)
    ensures Clock4(c) == Xor(Shr4(c), Clock4(Low(c)))
  {
    Halves(c);
    Clock4Linear(High(c), Low(c));
    HighClocksShift(c);
  }

  lemma LowNibbleOnly(c: bv32, d: bv32)
    ensures Low(Xor(c, Low(d))) == Low(Xor(c, d))
    ensures Shr4(Xor(c, Low(d))) == Shr4(c)
  {
  }

  /** One table step clocks the low nibble of `d` through. */
  lemma LookupIsFourClocks(c: bv32, d: bv32)
    ensures Lookup(c, d) == Clock4(Xor(c, Low(d)))
  {
    Nibble(Xor(c, d));
    TableIsFourClocks(Low(Xor(c, d)));
    Clock4Splits(Xor(c, Low(d)));
    LowNibbleOnly(c, d);
  }

  lemma SplitByte(c: bv32, d: bv32)
    ensures Xor(Xor(c, Low(d)), High(d)) == Xor(c, d)
  {
    XorAssociates(c, Low(d), High(d));
    Halves(d);
  }

  lemma ByteNibbles(b: Byte)
    ensures Low(Shr4(Word(b))) == Shr4(Word(b))
  {
  }

  /** The two statements of the loop body. */
  function TableByte(c: bv32, b: Byte): bv32 {
    Lookup(Lookup(c, Word(b)), Shr4(Word(b)))
  }

  lemma TableByteIsSerial(c: bv32, b: Byte)
    ensures TableByte(c, b) == SerialByte(c, b)
  {
    var d := Word(b);
    LookupIsFourClocks(c, d);
    LookupIsFourClocks(Lookup(c, d), Shr4(d));
    ByteNibbles(b);
    SplitByte(c, d);
    Clock4Linear(Xor(c, Low(d)), High(d));
    HighClocksShift(d);
  }

  method TableLoop(start: bv32, buffer: seq<Byte>) returns (crc: bv32)
    ensures crc == Fold(TableByte, start, buffer)
  {
    crc := start;
    for i := 0 to |buffer|
      invariant crc == Fold(TableByte, start, buffer[..i])
    {
      FoldStep(TableByte, start, buffer, i);
      crc := Lookup(crc, Word(buffer[i]));
      crc := Lookup(crc, Shr4(Word(buffer[i])));
    }
    assert buffer[..|buffer|] == buffer;
  }

  lemma TableIsBitSerial(start: bv32, buffer: seq<Byte>)
    ensures Fold(TableByte, start, buffer) == BitSerial(start, buffer)
  {
    forall c, b
      ensures TableByte(c, b) == SerialByte(c, b)
    {
      TableByteIsSerial(c, b);
    }
    FoldSame(TableByte, SerialByte, start, buffer);
  }

  /** `lfs_crc` */
  method LfsCrc(start: bv32, buffer: seq<Byte>) returns (crc: bv32)
    ensures crc == BitSerial(start, buffer)
  {
    crc := TableLoop(start, buffer);
    TableIsBitSerial(start, buffer);
  }

  // ---------------------------------------------------------------- what it is for

  /** A checksum can be continued: feeding two pieces one after the other is feeding their concatenation. */
  lemma Composes(c: bv32, a: seq<Byte>, b: seq<Byte>)
    ensures BitSerial(c, a + b) == BitSerial(BitSerial(c, a), b)
  {
    FoldComposes(SerialByte, c, a, b);
  }

  lemma CancelXor(a: bv32, b: bv32, d: bv32)
    requires Xor(a, d) == Xor(b, d)
    ensures a == b
  {
  }

  lemma SerialByteInjective(x: bv32, y: bv32, b: Byte)
    requires SerialByte(x, b) == SerialByte(y, b)
    ensures x == y
  {
    Clock8Injective(Xor(x, Word(b)), Xor(y, Word(b)));
    CancelXor(x, y, Word(b));
  }

  /** Two starting values never fall together, whatever is fed. */
  lemma InjectiveInStart(c1: bv32, c2: bv32, data: seq<Byte>)
    requires BitSerial(c1, data) == BitSerial(c2, data)
    ensures c1 == c2
  {
    forall x, y, b | SerialByte(x, b) == SerialByte(y, b)
      ensures x == y
    {
      SerialByteInjective(x, y, b);
    }
    FoldInjective(SerialByte, c1, c2, data);
  }

  /** `d` needs at most `n` bytes. */
  predicate Fits(d: bv32, n: nat) {
    if n == 0 then d < 1 else if n == 1 then d < 0x100 else if n == 2 then d < 0x10000
    else if n == 3 then d < 0x1000000 else true
  }

  predicate DifferIn(x: bv32, y: bv32, n: nat) {
    Fits(Xor(x, y), n)
  }

  lemma SmallIsShifted(y: bv32)
    requires Fits(Clock8(y), 3)
    ensures y == Shl8(Clock8(y))
  {
  }

  function Shl8(d: bv32): bv32 { d << 8 }

  lemma DifferenceOf(p: bv32, q: bv32)
    requires Fits(Xor(Clock8(p), Clock8(q)), 3)
    ensures Xor(p, q) == Shl8(Xor(Clock8(p), Clock8(q)))
  {
    Clock8Linear(p, q);
    SmallIsShifted(Xor(p, q));
  }

  lemma FitsBelow(d: bv32, n: nat)
    requires n < 4 && Fits(d, n)
    ensures Fits(d, 3)
  {
  }

  lemma FitsOneMore(x: bv32, y: bv32, a: Byte, b: Byte, d: bv32, n: nat)
    requires n < 4 && Fits(d, n) && Xor(Xor(x, Word(a)), Xor(y, Word(b))) == Shl8(d)
    ensures Fits(Xor(x, y), n + 1)
  {
  }

  /** Looking backwards over one byte, a difference grows by at most one byte. */
  lemma DifferenceBefore(x: bv32, a: Byte, y: bv32, b: Byte, n: nat)
    requires n < 4 && DifferIn(SerialByte(x, a), SerialByte(y, b), n)
    ensures DifferIn(x, y, n + 1)
  {
    var p, q := Xor(x, Word(a)), Xor(y, Word(b));
    FitsBelow(Xor(Clock8(p), Clock8(q)), n);
    DifferenceOf(p, q);
    FitsOneMore(x, y, a, b, Xor(Clock8(p), Clock8(q)), n);
  }

  lemma SameByte(x: bv32, a: Byte, b: Byte, d: bv32)
    requires Fits(d, 3) && Xor(Xor(x, Word(a)), Xor(x, Word(b))) == Shl8(d)
    ensures a == b
  {
  }

  lemma SameStateSameByte(x: bv32, a: Byte, b: Byte, n: nat)
    requires n < 4 && DifferIn(SerialByte(x, a), SerialByte(x, b), n)
    ensures a == b
  {
    var p, q := Xor(x, Word(a)), Xor(x, Word(b));
    FitsBelow(Xor(Clock8(p), Clock8(q)), n);
    DifferenceOf(p, q);
    SameByte(x, a, b, Xor(Clock8(p), Clock8(q)));
  }

  lemma NoDifference(x: bv32, n: nat)
    ensures DifferIn(x, x, n)
  {
  }

  /** Within four bytes the checksum tells all contents apart. */
  lemma ShortBurst(c: bv32, u: seq<Byte>, v: seq<Byte>)
    requires |u| == |v| <= 4 && BitSerial(c, u) == BitSerial(c, v)
    ensures u == v
  {
    forall x, a, y, b, n: nat | n < 4 && DifferIn(SerialByte(x, a), SerialByte(y, b), n)
      ensures DifferIn(x, y, n + 1)
    {
      DifferenceBefore(x, a, y, b, n);
    }
    forall x, a, b, n: nat | n < 4 && DifferIn(SerialByte(x, a), SerialByte(x, b), n)
      ensures a == b
    {
      SameStateSameByte(x, a, b, n);
    }
    NoDifference(BitSerial(c, u), 4 - |u|);
    FoldBurst(SerialByte, DifferIn, 4, c, u, v);
  }

  /** Any damage confined to four consecutive bytes changes the checksum. */
  lemma BurstDetected(c: bv32, before: seq<Byte>, u: seq<Byte>, v: seq<Byte>, after: seq<Byte>)
    requires |u| == |v| <= 4 && u != v
    ensures BitSerial(c, before + u + after) != BitSerial(c, before + v + after)
  {
    var s := BitSerial(c, before);
    Composes(c, before + u, after);
    Composes(c, before, u);
    Composes(c, before + v, after);
    Composes(c, before, v);
    if BitSerial(c, before + u + after) == BitSerial(c, before + v + after) {
      InjectiveInStart(BitSerial(s, u), BitSerial(s, v), after);
      ShortBurst(s, u, v);
    }
  }
}
