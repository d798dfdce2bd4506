// What the integer codes of RTL mean on the values of their operands, in QImode,
// HImode and SImode.  A value in a mode is a number below 2 to the bits of the mode.

module Arithmetic {
  import opened Common
  import opened Rtl

  // The number of values of an integer mode, and of its bits.
  function Range(m: Mode): int { if m == QI then 0x100 else if m == HI then 0x1_0000 else 0x1_0000_0000 }

  function Bits(m: Mode): nat { if m == QI then 8 else if m == HI then 16 else 32 }

  function Signed(m: Mode, a: int): int { if a < Range(m) / 2 then a else a - Range(m) }

  // One bit of AND, IOR and XOR, and all of them.
  function Bit(op: Code2, a: int, b: int): int {
    if op == AND then a * b
    else if op == IOR then a + b - a * b
    else (a + b) % 2
  }

  function BitByBit(op: Code2, n: nat, a: int, b: int): int {
    if n == 0 then 0 else 2 * BitByBit(op, n - 1, a / 2, b / 2) + Bit(op, a % 2, b % 2)
  }

  // Division that truncates towards zero.
  function Quotient(a: int, b: int): int
    requires b != 0
  {
    if a >= 0 then a / b else -(-a / b)
  }

  function Remainder(a: int, b: int): int
    requires b != 0
  {
    a - Quotient(a, b) * b
  }

  function Combine(op: Code2, m: Mode, a: int, b: int): int {
    if op == PLUS then (a + b) % Range(m)
    else if op == MINUS then (a - b) % Range(m)
    else BitByBit(op, Bits(m), a, b)
  }

  function RotateLeft(m: Mode, a: int, n: nat): int
    requires n <= Bits(m)
  {
    a % Pow2(Bits(m) - n) * Pow2(n) + a / Pow2(Bits(m) - n)
  }

  // Shift counts are taken modulo 32 (SHIFT_COUNT_TRUNCATED).
  function ShiftMeaning(op: Code2, m: Mode, a: int, b: int): int {
    var n := b % 32;
    match op
    case ASHIFTRT => Signed(m, a) / Pow2(n) % Range(m)
    case LSHIFTRT => a / Pow2(n)
    case ROTATE => RotateLeft(m, a, n % Bits(m))
    case ROTATERT => RotateLeft(m, a, Bits(m) - n % Bits(m))
    case _ => a * Pow2(n) % Range(m)
  }

  function DivisionMeaning(op: Code2, m: Mode, a: int, b: int): int
    requires 0 < b < Range(m)
  {
    match op
    case DIV => Quotient(Signed(m, a), Signed(m, b))
    case MOD => Remainder(Signed(m, a), Signed(m, b))
    case UDIV => a / b
    case _ => a % b
  }

  // What op makes of two values in mode m; a division by zero, which traps, is given 0.
  function BinaryMeaning(op: Code2, m: Mode, a: int, b: int): int {
    if op in {PLUS, MINUS, AND, IOR, XOR} then Combine(op, m, a, b)
    else if op in {MULT, UMULT} then a * b % Range(m)
    else if op in {DIV, MOD, UDIV, UMOD} then if !(0 < b < Range(m)) then 0 else DivisionMeaning(op, m, a, b) % Range(m)
    else ShiftMeaning(op, m, a, b)
  }

  function UnaryMeaning(op: Code1, m: Mode, a: int): int {
    if op == NEG then -a % Range(m) else (-1 - a) % Range(m)
  }

  // --------------------------------------------------------------------------
  // Ranges

  lemma RangeIsPower(m: Mode)
    ensures Range(m) == Pow2(Bits(m))
  {
    assert Pow2(8) == 0x100;
    Pow2Splits(8, 8);
    Pow2Splits(16, 16);
  }

  lemma RangeEven(m: Mode)
    ensures Range(m) % 2 == 0 && Range(m) > 0
  {}

  // --------------------------------------------------------------------------
  // The result is a value in the mode

  // Codes that BinaryMeaning gives a meaning.
  predicate Integer(op: Code2) {
    op in {PLUS, MINUS, MULT, UMULT, DIV, UDIV, MOD, UMOD, AND, IOR, XOR,
           ASHIFT, LSHIFT, ASHIFTRT, LSHIFTRT, ROTATE, ROTATERT}
  }

  lemma {:induction false} BitsInRange(op: Code2, n: nat, a: int, b: int)
    ensures 0 <= BitByBit(op, n, a, b) < Pow2(n)
  {
    if n > 0 { BitsInRange(op, n - 1, a / 2, b / 2); }
  }

  lemma RotatedInRange(m: Mode, a: int, n: nat)
    requires 0 <= a < Range(m) && n <= Bits(m)
    ensures 0 <= RotateLeft(m, a, n) < Range(m)
  {
    hide Range;
    hide Bits;
    hide Pow2;
    RangeIsPower(m);
    Pow2Splits(n, Bits(m) - n);
    var p, q := Pow2(n), Pow2(Bits(m) - n);
    assert Range(m) == p * q;
    QuotientBelow(a, q, p);
    Joined(a % q, a / q, p, q);
  }

  lemma Joined(high: int, low: int, p: int, q: int)
    requires 0 <= high < q && 0 <= low < p
    ensures 0 <= high * p + low < p * q
  {
    assert (q - 1 - high) * p == p * q - p - high * p;
    assert (q - 1 - high) * p >= 0 && high * p >= 0;
  }

  lemma ShiftInRange(op: Code2, m: Mode, a: int, b: int)
    requires 0 <= a < Range(m)
    ensures 0 <= ShiftMeaning(op, m, a, b) < Range(m)
  {
    hide Range;
    hide RotateLeft;
    hide Signed;
    RangeEven(m);
    var n := b % 32;
    var k := n % Bits(m);
    RotatedInRange(m, a, k);
    RotatedInRange(m, a, Bits(m) - k);
    Widened(a, n);
    Widened(Range(m), n);
    QuotientBelow(a, Pow2(n), Range(m));
  }

  lemma Widened(a: int, n: nat)
    requires a >= 0
    ensures a * Pow2(n) >= a
  {
    assert a * (Pow2(n) - 1) == a * Pow2(n) - a && a * (Pow2(n) - 1) >= 0;
  }

  lemma BinaryInRange(op: Code2, m: Mode, a: int, b: int)
    requires 0 <= a < Range(m)
    ensures 0 <= BinaryMeaning(op, m, a, b) < Range(m)
  {
    hide Range;
    hide BitByBit;
    hide ShiftMeaning;
    hide DivisionMeaning;
    RangeEven(m);
    RangeIsPower(m);
    BitsInRange(op, Bits(m), a, b);
    ShiftInRange(op, m, a, b);
  }

  // --------------------------------------------------------------------------
  // The logical operations act on each bit alone.

  predicate BitAt(v: int, i: nat) { v / Pow2(i) % 2 == 1 }

  // What AND, IOR and XOR make of two bits.
  predicate OnBits(op: Code2, a: bool, b: bool) {
    match op
    case AND => a && b
    case IOR => a || b
    case _ => a != b
  }

  lemma BitAbove(v: int, i: nat)
    requires i > 0
    ensures BitAt(v, i) <==> BitAt(v / 2, i - 1)
  {
    HalvedQuotient(v, Pow2(i - 1));
  }

  lemma HalvedQuotient(v: int, p: int)
    requires p > 0
    ensures v / (2 * p) == v / 2 / p
  {
    var q, r := v / 2 / p, v / 2 % p;
    assert v / 2 == q * p + r;
    assert v == q * (2 * p) + (2 * r + v % 2) by { assert v == 2 * (v / 2) + v % 2; }
    DivUnique(v, 2 * p, q, 2 * r + v % 2);
  }

  lemma {:induction false} LogicBits(op: Code2, n: nat, a: int, b: int, i: nat)
    requires op in {AND, IOR, XOR} && i < n
    ensures BitAt(BitByBit(op, n, a, b), i) <==> OnBits(op, BitAt(a, i), BitAt(b, i))
  {
    var v := BitByBit(op, n, a, b);
    if i == 0 {
      assert v % 2 == Bit(op, a % 2, b % 2);
    } else {
      assert v / 2 == BitByBit(op, n - 1, a / 2, b / 2);
      LogicBits(op, n - 1, a / 2, b / 2, i - 1);
      BitAbove(v, i);
      BitAbove(a, i);
      BitAbove(b, i);
    }
  }

  // The bits of a value make it.
  lemma {:induction false} BitsDetermine(n: nat, v: int, w: int)
    requires 0 <= v < Pow2(n) && 0 <= w < Pow2(n)
    requires forall i: nat | i < n :: BitAt(v, i) == BitAt(w, i)
    ensures v == w
  {
    if n > 0 {
      forall i: nat | i < n - 1 ensures BitAt(v / 2, i) == BitAt(w / 2, i) {
        BitAbove(v, i + 1);
        BitAbove(w, i + 1);
      }
      BitsDetermine(n - 1, v / 2, w / 2);
      assert BitAt(v, 0) == BitAt(w, 0);
    }
  }
}
