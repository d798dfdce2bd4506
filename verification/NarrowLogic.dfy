// Logical operations with a constant, narrowed to a halfword or to one bit
// (output_132, output_137 and output_140 in cmd/gcc/m68k.gen/insn-output.c).

module NarrowLogic {

  datatype Op = And | Or | Xor

  // A data register, or memory at an address that does or does not admit an offset.
  datatype Place = DataReg | Memory(offsettable: bool)

  // Full is andl, orl or eorl; Half acts on the halfword at byte offset 2, with clrw
  // for a mask of zero; Bset sets one bit, of the register or of the byte at an offset.
  datatype Instr =
    | Full(op: Op, long: bv32)
    | Half(op: Op, half: bv16)
    | Clrw
    | Bset(byte: int, bit: int)

  // --------------------------------------------------------------------------
  // Powers of two, a byte at a time

  function BytePower(j: int): bv8 {
    match j
    case 0 => 0x01
    case 1 => 0x02
    case 2 => 0x04
    case 3 => 0x08
    case 4 => 0x10
    case 5 => 0x20
    case 6 => 0x40
    case _ => 0x80
  }

  function AtByte(b: bv8, q: int): bv32 {
    var w := b as bv32;
    match q
    case 0 => w
    case 1 => w << 8
    case 2 => w << 16
    case _ => w << 24
  }

  function Octet(k: int): int { k / 8 }

  function BitOf(k: int): int { k % 8 }

  // 1 << k
  function Power(k: int): bv32 { AtByte(BytePower(BitOf(k)), Octet(k)) }

  lemma PowersDouble(k: int)
    requires 0 <= k < 31
    ensures Power(0) == 1 && Power(k + 1) == Power(k) << 1
  {
    var j, q := k % 8, k / 8;
    if j == 7 {
      assert (k + 1) % 8 == 0 && (k + 1) / 8 == q + 1;
    } else {
      assert (k + 1) % 8 == j + 1 && (k + 1) / 8 == q;
    }
  }

  // exact_log2: the power of two v is, or -1.
  method ExactLog2(v: bv32) returns (log: int)
    ensures -1 <= log < 32
    ensures log >= 0 ==> v == Power(log)
    ensures log < 0 ==> forall k | 0 <= k < 32 :: v != Power(k)
  {
    for k := 0 to 32
      invariant forall j | 0 <= j < k :: v != Power(j)
    {
      if v == Power(k) { return k; }
    }
    return -1;
  }

  // --------------------------------------------------------------------------
  // Halves and bytes of a long

  function LowHalf(w: bv32): bv16 { (w & 0xffff) as bv16 }

  function WithLowHalf(w: bv32, h: bv16): bv32 { (w & 0xffff_0000) | (h as bv32) }

  function Join(b: bv8, c: bv8, d: bv8, e: bv8): bv32 {
    ((b as bv32) << 24) | ((c as bv32) << 16) | ((d as bv32) << 8) | (e as bv32)
  }

  function JoinHalf(d: bv8, e: bv8): bv16 { ((d as bv16) << 8) | (e as bv16) }

  function ByteOf(w: bv32, q: int): bv8 {
    match q
    case 0 => (w & 0xff) as bv8
    case 1 => ((w >> 8) & 0xff) as bv8
    case 2 => ((w >> 16) & 0xff) as bv8
    case _ => (w >> 24) as bv8
  }

  function HighByte(h: bv16): bv8 { (h >> 8) as bv8 }

  function LowByte(h: bv16): bv8 { (h & 0xff) as bv8 }

  lemma JoinLowHalf(b: bv8, c: bv8, d: bv8, e: bv8, h: bv16)
    ensures LowHalf(Join(b, c, d, e)) == JoinHalf(d, e)
    ensures Join(b, c, HighByte(h), LowByte(h)) == WithLowHalf(Join(b, c, d, e), h)
  {}

  function Apply(op: Op, a: bv32, b: bv32): bv32 {
    match op
    case And => a & b
    case Or => a | b
    case Xor => a ^ b
  }

  function Apply16(op: Op, a: bv16, b: bv16): bv16 {
    match op
    case And => a & b
    case Or => a | b
    case Xor => a ^ b
  }

  function SetBits(b: bv8, p: bv8): bv8 { b | p }

  lemma AtByteIs(p: bv8)
    ensures AtByte(p, 0) == p as bv32 && AtByte(p, 1) == (p as bv32) << 8
    ensures AtByte(p, 2) == (p as bv32) << 16 && AtByte(p, 3) == (p as bv32) << 24
  {}

  // Bits set in byte q of a long, the least significant numbered 0.
  lemma OrByte0(b: bv8, c: bv8, d: bv8, e: bv8, p: bv8)
    ensures Join(b, c, d, SetBits(e, p)) == Apply(Or, Join(b, c, d, e), AtByte(p, 0))
  {
    hide AtByte;
    AtByteIs(p);
  }

  lemma OrByte1(b: bv8, c: bv8, d: bv8, e: bv8, p: bv8)
    ensures Join(b, c, SetBits(d, p), e) == Apply(Or, Join(b, c, d, e), AtByte(p, 1))
  {
    hide AtByte;
    AtByteIs(p);
  }

  lemma OrByte2(b: bv8, c: bv8, d: bv8, e: bv8, p: bv8)
    ensures Join(b, SetBits(c, p), d, e) == Apply(Or, Join(b, c, d, e), AtByte(p, 2))
  {
    hide AtByte;
    AtByteIs(p);
  }

  lemma OrByte3(b: bv8, c: bv8, d: bv8, e: bv8, p: bv8)
    ensures Join(SetBits(b, p), c, d, e) == Apply(Or, Join(b, c, d, e), AtByte(p, 3))
  {
    hide AtByte;
    AtByteIs(p);
  }

  // A mask whose upper half is all ones, and constants whose upper half is zero.
  lemma NarrowAnd(w: bv32, v: bv32)
    requires UpperOnes(v)
    ensures Apply(And, w, v) == WithLowHalf(w, Apply16(And, LowHalf(w), LowHalf(v)))
    ensures LowerZero(v) ==> Apply(And, w, v) == WithLowHalf(w, 0)
  {}

  lemma NarrowOr(w: bv32, v: bv32)
    requires UpperZero(v)
    ensures Apply(Or, w, v) == WithLowHalf(w, Apply16(Or, LowHalf(w), LowHalf(v)))
  {}

  lemma NarrowXor(w: bv32, v: bv32)
    requires UpperZero(v)
    ensures Apply(Xor, w, v) == WithLowHalf(w, Apply16(Xor, LowHalf(w), LowHalf(v)))
  {}

  // --------------------------------------------------------------------------
  // The outputs

  predicate Narrowable(p: Place) { p.DataReg? || p.offsettable }

  predicate UpperOnes(v: bv32) { v | 0xffff == 0xffff_ffff }

  predicate UpperZero(v: bv32) { v >> 16 == 0 }

  predicate LowerZero(v: bv32) { v & 0xffff == 0 }

  // output_132
  function AndOutput(p: Place, v: bv32): Instr {
    if UpperOnes(v) && Narrowable(p) then if LowerZero(v) then Clrw else Half(And, LowHalf(v))
    else Full(And, v)
  }

  // output_137.  log is exact_log2 of v.
  function OrOutput(p: Place, v: bv32, log: int): Instr {
    if UpperZero(v) && Narrowable(p) then Half(Or, LowHalf(v))
    else if log >= 0 && Narrowable(p) then
      if p.DataReg? then Bset(0, log) else Bset(3 - Octet(log), BitOf(log))
    else Full(Or, v)
  }

  // output_140
  function XorOutput(p: Place, v: bv32): Instr {
    if UpperZero(v) && Narrowable(p) then Half(Xor, LowHalf(v)) else Full(Xor, v)
  }

  // --------------------------------------------------------------------------
  // What the instructions do to a register and to big-endian memory

  function InRegister(i: Instr, r: bv32): bv32 {
    match i
    case Full(op, v) => Apply(op, r, v)
    case Half(op, v) => WithLowHalf(r, Apply16(op, LowHalf(r), v))
    case Clrw => WithLowHalf(r, 0)
    case Bset(_, bit) => Apply(Or, r, Power(bit))
  }

  function Long(m: int -> bv8, a: int): bv32 { Join(m(a), m(a + 1), m(a + 2), m(a + 3)) }

  function Store(m: int -> bv8, a: int, b: bv8): int -> bv8 { (x: int) => if x == a then b else m(x) }

  function StoreLong(m: int -> bv8, a: int, v: bv32): int -> bv8 {
    Store(Store(Store(Store(m, a, ByteOf(v, 3)), a + 1, ByteOf(v, 2)), a + 2, ByteOf(v, 1)), a + 3, ByteOf(v, 0))
  }

  function StoreHalf(m: int -> bv8, a: int, v: bv16): int -> bv8 {
    Store(Store(m, a, HighByte(v)), a + 1, LowByte(v))
  }

  // The operand is the long at a.
  function InMemory(i: Instr, m: int -> bv8, a: int): int -> bv8 {
    match i
    case Full(op, v) => StoreLong(m, a, Apply(op, Long(m, a), v))
    case Half(op, v) => StoreHalf(m, a + 2, Apply16(op, JoinHalf(m(a + 2), m(a + 3)), v))
    case Clrw => StoreHalf(m, a + 2, 0)
    case Bset(byte, bit) => Store(m, a + byte, SetBits(m(a + byte), BytePower(bit)))
  }

  // --------------------------------------------------------------------------
  // A narrow form computes what the full operation would, for every constant.

  lemma AndInRegister(v: bv32, r: bv32)
    ensures InRegister(AndOutput(DataReg, v), r) == Apply(And, r, v)
  {
    hide Apply;
    hide Apply16;
    hide WithLowHalf;
    hide LowHalf;
    if UpperOnes(v) { NarrowAnd(r, v); }
  }

  lemma OrInRegister(v: bv32, log: int, r: bv32)
    requires log >= 0 ==> v == Power(log)
    ensures InRegister(OrOutput(DataReg, v, log), r) == Apply(Or, r, v)
  {
    hide Apply;
    hide Apply16;
    hide WithLowHalf;
    hide LowHalf;
    hide Power;
    if UpperZero(v) { NarrowOr(r, v); }
  }

  lemma XorInRegister(v: bv32, r: bv32)
    ensures InRegister(XorOutput(DataReg, v), r) == Apply(Xor, r, v)
  {
    hide Apply;
    hide Apply16;
    hide WithLowHalf;
    hide LowHalf;
    if UpperZero(v) { NarrowXor(r, v); }
  }

  // The long at a becomes w, and no other byte changes.
  ghost predicate Becomes(after: int -> bv8, m: int -> bv8, a: int, w: bv32) {
    Long(after, a) == w && forall x: int | !(a <= x < a + 4) :: after(x) == m(x)
  }

  lemma StoredLong(m: int -> bv8, a: int, w: bv32)
    ensures Becomes(StoreLong(m, a, w), m, a, w)
  {}

  lemma StoredHalf(m: int -> bv8, a: int, h: bv16)
    ensures Becomes(StoreHalf(m, a + 2, h), m, a, WithLowHalf(Long(m, a), h))
    ensures LowHalf(Long(m, a)) == JoinHalf(m(a + 2), m(a + 3))
  {
    hide Join;
    hide HighByte;
    hide LowByte;
    hide LowHalf;
    hide WithLowHalf;
    hide JoinHalf;
    JoinLowHalf(m(a), m(a + 1), m(a + 2), m(a + 3), h);
  }

  // One bit set in one byte of a long.
  lemma StoredBit(m: int -> bv8, a: int, log: int)
    requires 0 <= log < 32
    ensures Becomes(InMemory(Bset(3 - Octet(log), BitOf(log)), m, a), m, a, Apply(Or, Long(m, a), Power(log)))
  {
    hide BytePower;
    hide AtByte;
    hide Join;
    hide SetBits;
    hide Apply;
    hide Becomes;
    hide Store;
    hide BitOf;
    var p := BytePower(BitOf(log));
    var b, c, d, e := m(a), m(a + 1), m(a + 2), m(a + 3);
    OrByte0(b, c, d, e, p);
    OrByte1(b, c, d, e, p);
    OrByte2(b, c, d, e, p);
    OrByte3(b, c, d, e, p);
    SetAt(m, a, 3 - Octet(log), SetBits(m(a + 3 - Octet(log)), p));
  }

  // Replacing one byte of a long.
  lemma SetAt(m: int -> bv8, a: int, k: int, p: bv8)
    requires 0 <= k < 4
    ensures var after := Store(m, a + k, p); var b, c, d, e := m(a), m(a + 1), m(a + 2), m(a + 3);
      Becomes(after, m, a, if k == 0 then Join(p, c, d, e) else if k == 1 then Join(b, p, d, e)
        else if k == 2 then Join(b, c, p, e) else Join(b, c, d, p))
  {}

  lemma AndInMemory(p: Place, v: bv32, m: int -> bv8, a: int)
    requires p.Memory?
    ensures Becomes(InMemory(AndOutput(p, v), m, a), m, a, Apply(And, Long(m, a), v))
  {
    hide Apply;
    hide Apply16;
    hide SetBits;
    hide Octet;
    hide BitOf;
    hide Long;
    hide LowHalf;
    hide WithLowHalf;
    hide JoinHalf;
    hide StoreHalf;
    hide StoreLong;
    hide Becomes;
    hide BytePower;
    hide UpperOnes;
    hide LowerZero;
    var w := Long(m, a);
    StoredLong(m, a, Apply(And, w, v));
    if UpperOnes(v) { NarrowAnd(w, v); }
    StoredHalf(m, a, Apply16(And, LowHalf(w), LowHalf(v)));
    StoredHalf(m, a, 0);
  }

  lemma OrInMemory(p: Place, v: bv32, log: int, m: int -> bv8, a: int)
    requires p.Memory? && -1 <= log < 32 && (log >= 0 ==> v == Power(log))
    ensures Becomes(InMemory(OrOutput(p, v, log), m, a), m, a, Apply(Or, Long(m, a), v))
  {
    hide Apply;
    hide Apply16;
    hide SetBits;
    hide Octet;
    hide BitOf;
    hide Long;
    hide LowHalf;
    hide WithLowHalf;
    hide JoinHalf;
    hide StoreHalf;
    hide StoreLong;
    hide Becomes;
    hide BytePower;
    hide Power;
    hide UpperZero;
    var w := Long(m, a);
    StoredLong(m, a, Apply(Or, w, v));
    if UpperZero(v) { NarrowOr(w, v); }
    StoredHalf(m, a, Apply16(Or, LowHalf(w), LowHalf(v)));
    if log >= 0 { StoredBit(m, a, log); }
  }

  lemma XorInMemory(p: Place, v: bv32, m: int -> bv8, a: int)
    requires p.Memory?
    ensures Becomes(InMemory(XorOutput(p, v), m, a), m, a, Apply(Xor, Long(m, a), v))
  {
    hide Apply;
    hide Apply16;
    hide SetBits;
    hide Octet;
    hide BitOf;
    hide Long;
    hide LowHalf;
    hide WithLowHalf;
    hide JoinHalf;
    hide StoreHalf;
    hide StoreLong;
    hide Becomes;
    hide BytePower;
    var w := Long(m, a);
    StoredLong(m, a, Apply(Xor, w, v));
    if UpperZero(v) { NarrowXor(w, v); }
    StoredHalf(m, a, Apply16(Xor, LowHalf(w), LowHalf(v)));
  }
}
