// Byte and halfword bit fields on the 68020 (output_185, output_186 and output_187 in
// cmd/gcc/m68k.gen/insn-output.c).

module BitField {
  import opened Common
  import opened M68kMachine

  // --------------------------------------------------------------------------
  // Bits, the least significant numbered 0

  function Shift(v: int, k: nat): int
    decreases k
  {
    if k == 0 then v else Shift(v / 2, k - 1)
  }

  function Bit(v: int, k: nat): int { Shift(v, k) % 2 }

  lemma {:induction false} ShiftOnce(v: int, k: nat)
    ensures Shift(v, k + 1) == Shift(v, k) / 2
    decreases k
  {
    if k > 0 { ShiftOnce(v / 2, k - 1); }
  }

  lemma Halve(q: int, n: nat, v: int)
    requires n > 0
    ensures (q * Pow2(n) + v) / 2 == q * Pow2(n - 1) + v / 2
  {
    var t := q * Pow2(n - 1);
    assert q * Pow2(n) == 2 * t;
  }

  // The low n bits of q * 2^n + v are those of v, and the rest are those of q.
  lemma {:induction false} LowBits(q: int, n: nat, v: int, k: nat)
    requires k < n
    ensures Bit(q * Pow2(n) + v, k) == Bit(v, k)
    decreases n
  {
    if k == 0 {
      var t := q * Pow2(n - 1);
      assert q * Pow2(n) == 2 * t;
    } else {
      Halve(q, n, v);
      LowBits(q, n - 1, v / 2, k - 1);
    }
  }

  lemma {:induction false} HighBits(q: int, n: nat, v: int, k: nat)
    requires 0 <= v < Pow2(n)
    ensures Shift(q * Pow2(n) + v, n + k) == Shift(q, k)
    decreases n
  {
    if n > 0 {
      Halve(q, n, v);
      HighBits(q, n - 1, v / 2, k);
    }
  }

  // --------------------------------------------------------------------------
  // Fields: bits numbered from the most significant end, as the instructions do

  // The unsigned value of the width bits at pos.
  function Field(bits: int -> int, pos: int, width: nat): int {
    if width == 0 then 0 else 2 * Field(bits, pos, width - 1) + bits(pos + width - 1)
  }

  function RegisterBits(w: Word): int -> int { (p: int) => if p <= 31 then Bit(w, 31 - p) else 0 }

  // Bit p of memory from address a on; a negative p stands below a.
  function MemoryBits(m: Word -> Byte, a: int): int -> int { (p: int) => Bit(m(Wrap(a + p / 8)), 7 - p % 8) }

  // The field's bits are those of v.
  predicate Spells(bits: int -> int, pos: int, width: nat, v: int) {
    forall p | pos <= p < pos + width :: bits(p) == Bit(v, pos + width - 1 - p)
  }

  lemma {:induction false} FieldIs(bits: int -> int, pos: int, width: nat, i: nat, v: int)
    requires i <= width && 0 <= v < Pow2(width) && Spells(bits, pos, width, v)
    ensures Field(bits, pos, i) == Shift(v, width - i)
    decreases i
  {
    hide Pow2;
    if i == 0 {
      HighBits(0, width, v, 0);
    } else {
      FieldIs(bits, pos, width, i - 1, v);
      ShiftOnce(v, width - i);
      assert bits(pos + i - 1) == Bit(v, width - i);
    }
  }

  // The field that ends a register is the register's low part.
  lemma RegisterField(w: Word, n: Size)
    requires n < 4
    ensures Field(RegisterBits(w), 32 - 8 * n, 8 * n) == w % Range(n)
  {
    var width, v := 8 * n, w % Range(n);
    Powers();
    var q := w / Range(n);
    assert w == q * Pow2(width) + v;
    forall p | 32 - width <= p < 32 ensures RegisterBits(w)(p) == Bit(v, 31 - p) {
      LowBits(q, width, v, 31 - p);
    }
    FieldIs(RegisterBits(w), 32 - width, width, width, v);
  }

  lemma Powers()
    ensures Pow2(8) == 0x100 && Pow2(16) == 0x1_0000
  {
    assert Pow2(4) == 16;
    assert Pow2(8) == 16 * Pow2(4);
    assert Pow2(12) == 16 * Pow2(8);
  }

  // A field at a multiple of its width is a byte or a halfword of memory.
  lemma MemoryField(m: Word -> Byte, a: int, pos: int, n: Size)
    requires n < 4 && pos % (8 * n) == 0
    ensures Field(MemoryBits(m, a), pos, 8 * n) == Load(m, a + pos / 8, n)
  {
    hide Load;
    hide MemoryBits;
    hide Pow2;
    var width, v := 8 * n, Load(m, a + pos / 8, n);
    Powers();
    LoadRange(m, a + pos / 8, n);
    forall p | pos <= p < pos + width ensures MemoryBits(m, a)(p) == Bit(v, pos + width - 1 - p) {
      MemoryBit(m, a, pos, n, p - pos);
    }
    FieldIs(MemoryBits(m, a), pos, width, width, v);
  }

  lemma LoadRange(m: Word -> Byte, a: int, n: Size)
    ensures 0 <= Load(m, a, n) < Range(n)
  {}

  lemma MemoryBit(m: Word -> Byte, a: int, pos: int, n: Size, j: int)
    requires n < 4 && pos % (8 * n) == 0 && 0 <= j < 8 * n
    ensures MemoryBits(m, a)(pos + j) == Bit(Load(m, a + pos / 8, n), 8 * n - 1 - j)
  {
    hide Wrap;
    hide Bit;
    var x := a + pos / 8;
    Position(pos, j, n);
    if n == 2 { HalfwordBit(m(Wrap(x)), m(Wrap(x + 1)), j); }
  }

  lemma Position(pos: int, j: int, n: Size)
    requires n < 4 && pos % (8 * n) == 0 && 0 <= j < 8 * n
    ensures pos % 8 == 0 && (pos + j) % 8 == j % 8 && (pos + j) / 8 == if j < 8 then pos / 8 else pos / 8 + 1
  {
    var q := if n == 1 then pos / 8 else 2 * (pos / 16);
    assert pos == 8 * q;
    BytePosition(q, j);
  }

  lemma BytePosition(q: int, j: int)
    requires 0 <= j < 16
    ensures 8 * q % 8 == 0 && 8 * q / 8 == q
    ensures (8 * q + j) % 8 == j % 8 && (8 * q + j) / 8 == if j < 8 then q else q + 1
  {}

  // Bit j from the top of the halfword b, c.
  lemma HalfwordBit(b: Byte, c: Byte, j: int)
    requires 0 <= j < 16
    ensures Bit(0x100 * b + c, 15 - j) == if j < 8 then Bit(b, 7 - j) else Bit(c, 15 - j)
  {
    hide Pow2;
    Powers();
    if j < 8 { HighBits(b, 8, c, 7 - j); } else { LowBits(b, 8, c, 15 - j); }
  }

  // --------------------------------------------------------------------------
  // The outputs.  A register field that does not end the register is left to the
  // machine's own bit-field instruction.

  predicate Place(x: Operand) { (x.R? && x.n < 8) || x.M? }

  // The positions recog admits for a field of n bytes, and the fast path of the outputs.
  predicate Unit(x: Operand, pos: int, n: Size) {
    Place(x) && n < 4 && pos % (8 * n) == 0 && (x.R? ==> pos + 8 * n == 32)
  }

  function At(x: Operand, pos: int): Operand { Offset(x, pos / 8) }

  // output_185
  function InsertOutput(place: Operand, pos: int, n: Size, src: Operand): seq<Instr> { [Move(n, src, At(place, pos))] }

  // output_186
  function ExtractOutput(place: Operand, pos: int, n: Size, dst: Operand): seq<Instr> {
    [Clr(4, dst), Move(n, At(place, pos), dst)]
  }

  // output_187
  function ExtractSignedOutput(place: Operand, pos: int, n: Size, dst: Operand): seq<Instr> {
    [Move(n, At(place, pos), dst), Ext(n, dst)]
  }

  // The bits a place holds.
  function BitsOf(x: Operand, s: State): int -> int {
    if x.R? then RegisterBits(s.reg[x.n]) else MemoryBits(s.mem, Locate(x, s, 1).1)
  }

  function FieldOf(x: Operand, pos: int, n: Size, s: State): int { Field(BitsOf(x, s), pos, 8 * n) }

  lemma LoadWrapped(m: Word -> Byte, a: int, k: int, n: Size)
    ensures Load(m, Wrap(a + k), n) == Load(m, Wrap(a) + k, n)
  {
    hide Wrap;
    WrapAdd(a, k);
    WrapAdd(a + k, 0);
    WrapAdd(a + k, 1);
    WrapAdd(a + k, 2);
    WrapAdd(a + k, 3);
    WrapAdd(a, k + 1);
    WrapAdd(a, k + 2);
    WrapAdd(a, k + 3);
  }

  // Reading the unit is reading the field.
  lemma UnitIsField(x: Operand, pos: int, n: Size, s: State)
    requires Unit(x, pos, n)
    ensures Get(At(x, pos), s, n) == FieldOf(x, pos, n, s)
    ensures 0 <= FieldOf(x, pos, n, s) < Range(n)
  {
    hide Field;
    hide Wrap;
    if x.R? {
      RegisterField(s.reg[x.n], n);
    } else {
      var a := RegOr0(s, x.base) + RegOr0(s, x.index) + x.disp;
      MemoryField(s.mem, Wrap(a), pos, n);
      LoadWrapped(s.mem, a, pos / 8, n);
      LoadRange(s.mem, Wrap(a) + pos / 8, n);
      hide Load;
    }
  }

  lemma LoadStored(m: Word -> Byte, a: int, n: Size, v: int)
    requires n < 4 && 0 <= v < Range(n)
    ensures Load(Store(m, a, n, v), a, n) == v
  {
    hide Store;
    StoreAt(m, a, n, v, Wrap(a));
    StoreAt(m, a, n, v, Wrap(a + 1));
  }

  // Inserting: the field reads back as the low part of the source, and nothing else
  // changes: no other register, no other byte, and no bit of the register above the field.
  lemma InsertCorrect(place: Operand, pos: int, n: Size, src: Operand, s: State)
    requires Unit(place, pos, n) && src.R? && src.n < 8
    ensures var t := Run(InsertOutput(place, pos, n, src), s);
      && FieldOf(place, pos, n, t) == s.reg[src.n] % Range(n)
      && (forall q: Register | place != R(q) :: t.reg[q] == s.reg[q])
      && (place.R? ==> t.mem == s.mem && forall p | 0 <= p < pos :: BitsOf(place, t)(p) == BitsOf(place, s)(p))
      && (place.M? ==> forall x: Word | Wrap(x - Locate(At(place, pos), s, n).1) >= n :: t.mem(x) == s.mem(x))
  {
    hide Run;
    hide Field;
    hide Execute;
    hide BitsOf;
    RunTwo(Move(n, src, At(place, pos)), Move(n, src, At(place, pos)), s);
    if place.R? { InsertInRegister(place, pos, n, src, s); } else { InsertInMemory(place, pos, n, src, s); }
  }

  lemma InsertInRegister(place: Operand, pos: int, n: Size, src: Operand, s: State)
    requires Unit(place, pos, n) && place.R? && src.R? && src.n < 8
    ensures var t := Execute(Move(n, src, At(place, pos)), s);
      && FieldOf(place, pos, n, t) == s.reg[src.n] % Range(n) && t.mem == s.mem
      && (forall q: Register | place != R(q) :: t.reg[q] == s.reg[q])
      && (forall p | 0 <= p < pos :: BitsOf(place, t)(p) == BitsOf(place, s)(p))
  {
    hide Field;
    hide RegisterBits;
    hide RegisterValue;
    var t, v := Execute(Move(n, src, At(place, pos)), s), s.reg[src.n] % Range(n);
    PartPut(s.reg[place.n], place.n, n, v);
    InsertBits(s.reg[place.n], n, v, t.reg[place.n]);
    RegisterField(t.reg[place.n], n);
  }

  lemma PartPut(prior: Word, r: Register, n: Size, v: int)
    requires n < 4 && r < 8 && 0 <= v < Range(n)
    ensures RegisterValue(prior, r, n, v) == prior - prior % Range(n) + v
  {}

  lemma InsertBits(w: Word, n: Size, v: int, u: Word)
    requires n < 4 && 0 <= v < Range(n) && u == w - w % Range(n) + v
    ensures u % Range(n) == v
    ensures forall p | 0 <= p < 32 - 8 * n :: RegisterBits(u)(p) == RegisterBits(w)(p)
  {
    Powers();
    var q, low := w / Range(n), w % Range(n);
    var high := q * Range(n);
    assert w == high + low && u == high + v;
    LowPart(q, n, v);
    forall p | 0 <= p < 32 - 8 * n ensures RegisterBits(u)(p) == RegisterBits(w)(p) {
      HighBits(q, 8 * n, v, 31 - p - 8 * n);
      HighBits(q, 8 * n, low, 31 - p - 8 * n);
      hide Shift;
      hide Pow2;
    }
  }

  lemma LowPart(q: int, n: Size, v: int)
    requires n < 4 && 0 <= v < Range(n)
    ensures (q * Range(n) + v) % Range(n) == v
  {}

  lemma InsertInMemory(place: Operand, pos: int, n: Size, src: Operand, s: State)
    requires Unit(place, pos, n) && place.M? && src.R? && src.n < 8
    ensures var t := Execute(Move(n, src, At(place, pos)), s);
      && FieldOf(place, pos, n, t) == s.reg[src.n] % Range(n) && t.reg == s.reg
      && (forall x: Word | Wrap(x - Locate(At(place, pos), s, n).1) >= n :: t.mem(x) == s.mem(x))
  {
    hide Load;
    hide Store;
    hide Wrap;
    hide Field;
    var t, v, a := Execute(Move(n, src, At(place, pos)), s), s.reg[src.n] % Range(n), Locate(At(place, pos), s, n).1;
    UnitIsField(place, pos, n, t);
    assert t == State(s.reg, Store(s.mem, a, n, v));
    LoadStored(s.mem, a, n, v);
    forall x: Word | Wrap(x - a) >= n ensures t.mem(x) == s.mem(x) { StoreAt(s.mem, a, n, v, x); }
  }

  // Unsigned extraction: the destination, which the place may not name, holds the field.
  lemma ExtractCorrect(place: Operand, pos: int, n: Size, dst: Operand, s: State)
    requires Unit(place, pos, n) && dst.R? && dst.n < 8 && !Mentions(dst.n, place)
    ensures Run(ExtractOutput(place, pos, n, dst), s) == Put(dst, s, 4, FieldOf(place, pos, n, s))
  {
    hide Field;
    hide Load;
    hide Run;
    var d, v := dst.n, FieldOf(place, pos, n, s);
    RunTwo(Clr(4, dst), Move(n, At(place, pos), dst), s);
    UnitIsField(place, pos, n, s);
    var t := State(s.reg[d := 0], s.mem);
    assert Execute(Clr(4, dst), s) == t;
    assert Get(At(place, pos), t, n) == v;
    hide Get;
    FieldAlone(s, d, n, v);
  }

  // A cleared data register and a low part stored over it.
  lemma FieldAlone(s: State, d: Register, n: Size, v: int)
    requires n < 4 && d < 8 && 0 <= v < Range(n)
    ensures Put(R(d), State(s.reg[d := 0], s.mem), n, v) == Put(R(d), s, 4, v)
  {
    PartPut(0, d, n, v);
    assert s.reg[d := 0][d := v] == s.reg[d := v];
  }

  // Signed extraction: the destination, which may be the place, holds the field
  // sign-extended.
  lemma ExtractSignedCorrect(place: Operand, pos: int, n: Size, dst: Operand, s: State)
    requires Unit(place, pos, n) && dst.R? && dst.n < 8
    ensures var v := FieldOf(place, pos, n, s);
      Run(ExtractSignedOutput(place, pos, n, dst), s) == Put(dst, s, 4, if n == 1 then Signed8(v) else Signed16(v))
  {
    hide Field;
    hide Load;
    hide Run;
    hide Signed8;
    hide Signed16;
    hide Wrap;
    var d, v := dst.n, FieldOf(place, pos, n, s);
    RunTwo(Move(n, At(place, pos), dst), Ext(n, dst), s);
    UnitIsField(place, pos, n, s);
    PartPut(s.reg[d], d, n, v);
    var u := s.reg[d] - s.reg[d] % Range(n) + v;
    var q := s.reg[d] / Range(n);
    assert u == q * Range(n) + v;
    LowPart(q, n, v);
    assert s.reg[d := u][d := Wrap(if n == 1 then Signed8(v) else Signed16(v))]
        == s.reg[d := Wrap(if n == 1 then Signed8(v) else Signed16(v))];
  }
}
