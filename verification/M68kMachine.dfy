// A 68000 as far as the output functions of cmd/gcc/m68k.gen/insn-output.c need one:
// sixteen registers, byte memory, and the instructions those functions choose from.

module M68kMachine {
  import opened Common

  const WORD := 0x1_0000_0000
  const SP := 15

  type Word = x: int | 0 <= x < 0x1_0000_0000

  type Byte = x: int | 0 <= x < 0x100

  // Registers 0 to 7 hold data, 8 to 15 addresses.
  type Registers = r: seq<Word> | |r| == 16 witness seq(16, _ => 0)

  type Register = n: int | 0 <= n < 16

  datatype State = State(reg: Registers, mem: Word -> Byte)

  // Effective addresses.  M is base + index + displacement.
  datatype Operand =
    | R(n: Register)
    | Imm(v: int)
    | M(base: Option<Register>, index: Option<Register>, disp: int)
    | Dec(n: Register)
    | Inc(n: Register)

  function Wrap(v: int): Word { v % WORD }

  function Signed16(v: int): int { if v % 0x1_0000 < 0x8000 then v % 0x1_0000 else v % 0x1_0000 - 0x1_0000 }

  function Signed8(v: int): int { if v % 0x100 < 0x80 then v % 0x100 else v % 0x100 - 0x100 }

  // The size of an access in bytes.
  type Size = n: int | n == 1 || n == 2 || n == 4 witness 1

  function Range(n: Size): int { if n == 1 then 0x100 else if n == 2 then 0x1_0000 else WORD }

  // Byte o of the n-byte big-endian value v.
  function ByteOf(v: int, n: Size, o: int): Byte {
    var shift := n - 1 - o;
    if shift == 0 then v % 0x100
    else if shift == 1 then v / 0x100 % 0x100
    else if shift == 2 then v / 0x1_0000 % 0x100
    else v / 0x100_0000 % 0x100
  }

  function Load(m: Word -> Byte, a: int, n: Size): int {
    if n == 1 then m(Wrap(a))
    else if n == 2 then 0x100 * m(Wrap(a)) + m(Wrap(a + 1))
    else 0x100_0000 * m(Wrap(a)) + 0x1_0000 * m(Wrap(a + 1)) + 0x100 * m(Wrap(a + 2)) + m(Wrap(a + 3))
  }

  function Store(m: Word -> Byte, a: int, n: Size, v: int): Word -> Byte {
    (x: Word) => var o := Wrap(x - a); if o < n then ByteOf(v, n, o) else m(x)
  }

  function RegOr0(s: State, r: Option<Register>): int { if r.Some? then s.reg[r.value] else 0 }

  // A byte pushed on or popped from the stack moves it by two.
  function Step(n: Size, r: Register): int { if n == 1 && r == SP then 2 else n }

  // The registers after an operand's address has been formed, and that address.
  function Locate(x: Operand, s: State, n: Size): (State, Word) {
    match x
    case M(base, index, disp) => (s, Wrap(RegOr0(s, base) + RegOr0(s, index) + disp))
    case Dec(r) => var a := Wrap(s.reg[r] - Step(n, r)); (State(s.reg[r := a], s.mem), a)
    case Inc(r) => (State(s.reg[r := Wrap(s.reg[r] + Step(n, r))], s.mem), s.reg[r])
    case _ => (s, 0)
  }

  function Get(x: Operand, s: State, n: Size): int {
    match x
    case R(r) => s.reg[r] % Range(n)
    case Imm(v) => v % Range(n)
    case _ => Load(s.mem, Locate(x, s, n).1, n)
  }

  // An address register takes a halfword sign-extended; a data register keeps its upper part.
  function RegisterValue(prior: Word, r: Register, n: Size, v: int): Word {
    if n == 4 then Wrap(v)
    else if r >= 8 then Wrap(Signed16(v))
    else prior - prior % Range(n) + v % Range(n)
  }

  // The halfword written to an address register is there as a signed word.
  lemma AddressRegisterValue(prior: Word, r: Register, v: int)
    requires r >= 8 && -0x8000 <= v < 0x8000
    ensures RegisterValue(prior, r, 2, v) == RegisterValue(prior, r, 2, v + 0x1_0000) == Wrap(v)
  {}

  function Put(x: Operand, s: State, n: Size, v: int): State {
    match x
    case R(r) => State(s.reg[r := RegisterValue(s.reg[r], r, n, v)], s.mem)
    case Imm(_) => s
    case _ => var (t, a) := Locate(x, s, n); State(t.reg, Store(t.mem, a, n, v))
  }

  datatype Instr =
    | Move(n: Size, src: Operand, dst: Operand)
    | Clr(n: Size, dst: Operand)
    | And(n: Size, mask: int, dst: Operand)
    | Add(n: Size, src: Operand, dst: Operand)
    | Sub(n: Size, src: Operand, dst: Operand)
    | AddQuick(n: Size, v: int, dst: Operand)
    | SubQuick(n: Size, v: int, dst: Operand)
    | Neg(dst: Operand)
    | Lea(address: Operand, dst: Operand)
    | Ext(n: Size, dst: Operand)   // ext.l of a halfword, extb.l of a byte

  // The value of an operand of an addition: a halfword source of an address register
  // is sign-extended.
  function Addend(src: Operand, dst: Operand, s: State, n: Size): int {
    if dst.R? && dst.n >= 8 && n == 2 then Signed16(Get(src, s, n)) else Get(src, s, n)
  }

  // The whole of an address register, or n bytes of anything else.
  function Full(dst: Operand, n: Size): Size { if dst.R? && dst.n >= 8 then 4 else n }

  function Execute(i: Instr, s: State): State {
    match i
    case Move(n, src, dst) => Put(dst, Locate(src, s, n).0, n, Get(src, s, n))
    case Clr(n, dst) => Put(dst, s, n, 0)
    case And(n, mask, dst) => Put(dst, s, n, if mask == 0xFF then Get(dst, s, n) % 0x100 else Get(dst, s, n) % 0x1_0000)
    case Add(n, src, dst) =>
      var k, t := Full(dst, n), Locate(src, s, n).0;
      Put(dst, t, k, (Get(dst, t, k) + Addend(src, dst, s, n)) % Range(k))
    case Sub(n, src, dst) =>
      var k, t := Full(dst, n), Locate(src, s, n).0;
      Put(dst, t, k, (Get(dst, t, k) - Addend(src, dst, s, n)) % Range(k))
    case AddQuick(n, v, dst) => var k := Full(dst, n); Put(dst, s, k, (Get(dst, s, k) + v) % Range(k))
    case SubQuick(n, v, dst) => var k := Full(dst, n); Put(dst, s, k, (Get(dst, s, k) - v) % Range(k))
    case Neg(dst) => Put(dst, s, 4, Wrap(-Get(dst, s, 4)))
    case Lea(address, dst) => Put(dst, s, 4, Locate(address, s, 4).1)
    case Ext(n, dst) => Put(dst, s, 4, if n == 1 then Signed8(Get(dst, s, 1)) else Signed16(Get(dst, s, 2)))
  }

  function Run(code: seq<Instr>, s: State): State {
    if code == [] then s else Run(code[1..], Execute(code[0], s))
  }

  lemma RunTwo(i: Instr, j: Instr, s: State)
    ensures Run([i], s) == Execute(i, s)
    ensures Run([i, j], s) == Execute(j, Execute(i, s))
  {
    assert [i, j][1..] == [j] && [j][1..] == [] && [i][1..] == [];
    assert Run([j], Execute(i, s)) == Execute(j, Execute(i, s));
  }

  // The same registers, and memory equal byte for byte.
  ghost predicate Same(s: State, t: State) {
    s.reg == t.reg && forall x: Word :: s.mem(x) == t.mem(x)
  }

  // adj_offsettable_operand
  function Offset(x: Operand, k: int): Operand {
    match x
    case M(base, index, disp) => M(base, index, disp + k)
    case _ => x
  }

  // reg_mentioned_p
  predicate Mentions(r: Register, x: Operand) {
    match x
    case R(n) => n == r
    case Imm(_) => false
    case M(base, index, _) => base == Some(r) || index == Some(r)
    case Dec(n) => n == r
    case Inc(n) => n == r
  }

  // The n bytes at a and the k bytes at b have none in common.
  predicate Apart(a: int, n: Size, b: int, k: Size) { Wrap(a - b) >= k && Wrap(b - a) >= n }

  // --------------------------------------------------------------------------
  // Memory, one byte at a time

  lemma StoreAt(m: Word -> Byte, a: int, n: Size, v: int, x: Word)
    ensures var o := Wrap(x - a); Store(m, a, n, v)(x) == if o < n then ByteOf(v, n, o) else m(x)
  {}

  lemma ApartAt(a: int, n: Size, b: int, k: Size, i: int)
    requires Apart(a, n, b, k) && 0 <= i < n
    ensures Wrap(Wrap(a + i) - b) >= k
  {}

  lemma ByteKept(m: Word -> Byte, b: int, k: Size, v: int, a: int, n: Size, i: int)
    requires Apart(a, n, b, k) && 0 <= i < n
    ensures Store(m, b, k, v)(Wrap(a + i)) == m(Wrap(a + i))
  {
    ApartAt(a, n, b, k, i);
    StoreAt(m, b, k, v, Wrap(a + i));
  }

  lemma LoadKept(m: Word -> Byte, b: int, k: Size, v: int, a: int, n: Size)
    requires Apart(a, n, b, k)
    ensures Load(Store(m, b, k, v), a, n) == Load(m, a, n)
  {
    hide Store;
    hide Wrap;
    hide Apart;
    ByteKept(m, b, k, v, a, n, 0);
    if n > 1 { ByteKept(m, b, k, v, a, n, 1); }
    if n > 2 { ByteKept(m, b, k, v, a, n, 2); ByteKept(m, b, k, v, a, n, 3); }
  }

  lemma WrapAdd(x: int, k: int)
    ensures Wrap(Wrap(x) + k) == Wrap(x + k)
  {}

  lemma WrapSub(x: int, k: int)
    ensures Wrap(Wrap(x) - k) == Wrap(x - k)
  {}

  // Seen from a + k, an offset is k less.
  lemma Offsets(x: Word, a: int, k: int)
    requires 0 <= k < 4
    ensures var o := Wrap(x - a); Wrap(x - Wrap(a + k)) == if o >= k then o - k else o - k + WORD
  {}

  // A zero of size n at a and then the low bytes after it, or the other way round,
  // make one store; so does a zero of the whole size and then its low bytes.
  lemma StoreParts(m: Word -> Byte, a: int, lo: int, x: Word)
    ensures 0 <= lo < 0x1_0000 ==> Store(Store(m, a, 2, 0), Wrap(a + 2), 2, lo)(x) == Store(m, a, 4, lo)(x)
    ensures 0 <= lo < 0x1_0000 ==> Store(Store(m, Wrap(a + 2), 2, lo), a, 2, 0)(x) == Store(m, a, 4, lo)(x)
    ensures 0 <= lo < 0x100 ==> Store(Store(m, a, 1, 0), Wrap(a + 1), 1, lo)(x) == Store(m, a, 2, lo)(x)
    ensures 0 <= lo < 0x100 ==> Store(Store(m, Wrap(a + 1), 1, lo), a, 1, 0)(x) == Store(m, a, 2, lo)(x)
  {
    hide Store;
    hide Wrap;
    Offsets(x, a, 1);
    Offsets(x, a, 2);
    StoreAt(m, a, 4, lo, x);
    StoreAt(m, a, 2, lo, x);
    StoreAt(m, a, 2, 0, x);
    StoreAt(m, a, 1, 0, x);
    StoreAt(Store(m, a, 2, 0), Wrap(a + 2), 2, lo, x);
    StoreAt(Store(m, a, 1, 0), Wrap(a + 1), 1, lo, x);
    StoreAt(m, Wrap(a + 2), 2, lo, x);
    StoreAt(m, Wrap(a + 1), 1, lo, x);
    StoreAt(Store(m, Wrap(a + 2), 2, lo), a, 2, 0, x);
    StoreAt(Store(m, Wrap(a + 1), 1, lo), a, 1, 0, x);
  }

  lemma StoreLast(m: Word -> Byte, a: int, n: Size, lo: int, x: Word)
    requires 0 <= lo < 0x100 && n > 1
    ensures Store(Store(m, a, n, 0), Wrap(a + n - 1), 1, lo)(x) == Store(m, a, n, lo)(x)
  {
    hide Store;
    hide Wrap;
    Offsets(x, a, n - 1);
    StoreAt(m, a, n, lo, x);
    StoreAt(m, a, n, 0, x);
    StoreAt(Store(m, a, n, 0), Wrap(a + n - 1), 1, lo, x);
  }
}
