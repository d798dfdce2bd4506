// The m68k peephole optimisation of pattern 247 (cmd/gcc/m68k.gen/insn-peep.c): a
// stack adjustment followed by a move of a register pair to the 68881.

module Peephole {
  import opened Common
  import opened Rtl
  import opened M68kMachine
  import RtlValue

  datatype Kind = INSN | JUMP_INSN | CALL_INSN | NOTE | CODE_LABEL | BARRIER

  datatype Insn = Insn(kind: Kind, pattern: Rtx, code: int)

  // (set (reg:SI 15) (plus:SI (reg:SI 15) (const_int 4)))
  predicate PopsFour(x: Rtx) {
    && Is2(x, SET)
    && Is0(x.left, REG) && x.left.mode == Mode.SI && x.left.val == SP
    && Is2(x.right, PLUS) && x.right.mode == Mode.SI
    && Is0(x.right.left, REG) && x.right.left.mode == Mode.SI && x.right.left.val == SP
    && IsInt(x.right.right, 4)
  }

  // FP_REG_P
  predicate FpReg(x: Rtx) { Is0(x, REG) && 16 <= x.val < 24 }

  // The index of the first insn from j on that is no note, or the end of the chain.
  function PastNotes(insns: seq<Insn>, j: nat): (r: nat)
    requires j <= |insns|
    ensures j <= r <= |insns| && (r < |insns| ==> insns[r].kind != NOTE)
    ensures forall k | j <= k < r :: insns[k].kind == NOTE
    decreases |insns| - j
  {
    if j < |insns| && insns[j].kind == NOTE then PastNotes(insns, j + 1) else j
  }

  // What the second insn of the pair must be.
  predicate MovesToFp(x: Rtx, registerOperand: (Rtx, Mode) -> bool) {
    && Is2(x, SET) && registerOperand(x.left, DF) && registerOperand(x.right, DF)
    && FpReg(x.left) && !FpReg(x.right)
  }

  // There is an insn to combine with insn i.
  predicate Fires(insns: seq<Insn>, i: nat, registerOperand: (Rtx, Mode) -> bool)
    requires i < |insns|
  {
    var j := PastNotes(insns, i + 1);
    && !(i + 1 < |insns| && insns[i + 1].kind == BARRIER)
    && PopsFour(insns[i].pattern)
    && j < |insns| && !insns[j].kind.CODE_LABEL? && insns[j].kind != BARRIER
    && MovesToFp(insns[j].pattern, registerOperand)
  }

  class Chain {
    var insns: seq<Insn>
    const registerOperand: (Rtx, Mode) -> bool

    constructor (insns: seq<Insn>, registerOperand: (Rtx, Mode) -> bool)
      ensures this.insns == insns && this.registerOperand == registerOperand
    {
      this.insns := insns;
      this.registerOperand := registerOperand;
    }

    // peephole; -1 says that nothing was done, otherwise the result is the position of
    // the insn after the combined one and its notes, null in the original at the end.
    method Combine(i: nat) returns (next: int)
      requires i < |insns| && insns[i].kind in {INSN, JUMP_INSN, CALL_INSN}
      modifies this
      ensures Fires(old(insns), i, registerOperand) ==> (
        && var j := PastNotes(old(insns), i + 1);
        && next == j
        && insns == old(insns)[..i] + [Combined(old(insns)[i], old(insns)[j])]
          + old(insns)[i + 1..j] + old(insns)[j + 1..])
      ensures !Fires(old(insns), i, registerOperand) ==> next == -1 && insns == old(insns)
      ensures Fires(old(insns), i, registerOperand) && Pair(old(insns)[next].pattern.right) ==>
          forall m: Machine, world: World :: RunChain(insns, m, world) == RunChain(old(insns), m, world)
    {
      if i + 1 < |insns| && insns[i + 1].kind == BARRIER { return -1; }
      var pat := insns[i].pattern;
      if !PopsFour(pat) { return -1; }
      var j := i + 1;
      while j < |insns| && insns[j].kind == NOTE
        invariant i < j <= |insns| && insns == old(insns)
        invariant PastNotes(insns, i + 1) == PastNotes(insns, j)
      {
        j := j + 1;
      }
      if j == |insns| { return -1; }
      if insns[j].kind.CODE_LABEL? || insns[j].kind == BARRIER { return -1; }
      pat := insns[j].pattern;
      if !Is2(pat, SET) { return -1; }
      var operand0 := pat.left;
      if !registerOperand(operand0, DF) { return -1; }
      var operand1 := pat.right;
      if !registerOperand(operand1, DF) { return -1; }
      if !(FpReg(operand0) && !FpReg(operand1)) { return -1; }
      var first := Insn(insns[i].kind, Parallel(VOID, [operand0, operand1]), 247);
      insns := insns[..i] + [first] + insns[i + 1..j] + insns[j + 1..];
      if Pair(operand1) {
        forall m: Machine, world: World ensures RunChain(insns, m, world) == RunChain(old(insns), m, world) {
          ChainKept(old(insns), i, j, m, world);
        }
      }
      return j;
    }
  }

  function Combined(first: Insn, second: Insn): Insn {
    Insn(first.kind, Parallel(VOID, [Xexp(second.pattern, 0), Xexp(second.pattern, 1)]), 247)
  }

  // extract_247 copies the elements of the pattern into recog_operand.
  function Extract247(x: Rtx): seq<Rtx> { if x.Parallel? then x.elems else [] }

  lemma OperandsRoundTrip(first: Insn, second: Insn)
    requires Is2(second.pattern, SET)
    ensures Extract247(Combined(first, second).pattern) == [second.pattern.left, second.pattern.right]
  {}

  // --------------------------------------------------------------------------
  // What the insns do

  // The machine with the eight registers of the 68881, each holding the two halves of
  // a double.
  type FpFile = f: seq<(int, int)> | |f| == 8 witness seq(8, _ => (0, 0))

  type FpNumber = n: int | 0 <= n < 8

  datatype Machine = Machine(s: State, fp: FpFile)

  // fmoved (sp)+,fp
  function PopFp(n: FpNumber, m: Machine): Machine {
    var sp: int := m.s.reg[SP];
    Machine(State(m.s.reg[SP := Wrap(sp + 8)], m.s.mem),
            m.fp[n := (Load(m.s.mem, sp, 4), Load(m.s.mem, sp + 4, 4))])
  }

  // output_37 and output_38 on a general register pair: push the second register, push
  // the first, pop both into the 68881.
  function MovePair(pair: Register, n: FpNumber, m: Machine): Machine
    requires pair < 15
  {
    PopFp(n, Machine(Run([M68kMachine.Move(4, R(pair + 1), Dec(SP)), M68kMachine.Move(4, R(pair), Dec(SP))], m.s),
      m.fp))
  }

  // output_247: the second register goes where the dropped word was.
  function CombinedMove(pair: Register, n: FpNumber, m: Machine): Machine
    requires pair < 15
  {
    PopFp(n, Machine(Run([M68kMachine.Move(4, R(pair + 1), M(Some(SP), None, 0)),
                          M68kMachine.Move(4, R(pair), Dec(SP))], m.s), m.fp))
  }

  function PopFour(m: Machine): Machine {
    Machine(Execute(Add(4, Imm(4), R(SP)), m.s), m.fp)
  }

  ghost predicate SameMachine(m: Machine, k: Machine) { Same(m.s, k.s) && m.fp == k.fp }

  // The stack pointer, the 68881 register and every byte of memory come out the same.
  lemma CombinedMoveSame(pair: Register, n: FpNumber, m: Machine)
    requires pair < 14
    ensures MovePair(pair, n, PopFour(m)) == CombinedMove(pair, n, m)
  {
    hide Store;
    hide Run;
    hide PopFour;
    hide PopFp;
    PopFourState(m);
    PushPair(pair, PopFour(m).s, m.s.reg[SP]);
    StorePair(pair, m.s);
    var sp: int := m.s.reg[SP];
    assert m.s.reg[SP := Wrap(sp + 4)][SP := Wrap(sp - 4)] == m.s.reg[SP := Wrap(sp - 4)];
  }

  lemma PopFourState(m: Machine)
    ensures var sp: int := m.s.reg[SP]; PopFour(m) == Machine(State(m.s.reg[SP := Wrap(sp + 4)], m.s.mem), m.fp)
  {}

  lemma StorePair(pair: Register, s: State)
    requires pair < 15
    ensures var a: int := s.reg[SP];
      var t := Run([M68kMachine.Move(4, R(pair + 1), M(Some(SP), None, 0)), M68kMachine.Move(4, R(pair), Dec(SP))], s);
      && t.reg == s.reg[SP := Wrap(a - 4)]
      && t.mem == Store(Store(s.mem, a, 4, s.reg[pair + 1]), Wrap(a - 4), 4, s.reg[pair])
  {
    hide Store;
    hide Run;
    RunTwo(M68kMachine.Move(4, R(pair + 1), M(Some(SP), None, 0)), M68kMachine.Move(4, R(pair), Dec(SP)), s);
    var a: int := s.reg[SP];
    assert Wrap(a) == a;
  }

  lemma WordWraps(a: int)
    requires 0 <= a < WORD
    ensures Wrap(a) == a
  {}

  lemma PushPair(pair: Register, s: State, a: int)
    requires pair < 15 && 0 <= a < WORD && s.reg[SP] == Wrap(a + 4)
    ensures var t := Run([M68kMachine.Move(4, R(pair + 1), Dec(SP)), M68kMachine.Move(4, R(pair), Dec(SP))], s);
      && t.reg == s.reg[SP := Wrap(a - 4)]
      && t.mem == Store(Store(s.mem, a, 4, s.reg[pair + 1]), Wrap(a - 4), 4, s.reg[pair])
  {
    hide Store;
    hide Run;
    hide Wrap;
    RunTwo(M68kMachine.Move(4, R(pair + 1), Dec(SP)), M68kMachine.Move(4, R(pair), Dec(SP)), s);
    WrapSub(a + 4, 4);
    WrapSub(a, 4);
    assert Wrap(a) == a by { WordWraps(a); }
    assert s.reg[SP := a][SP := Wrap(a - 4)] == s.reg[SP := Wrap(a - 4)];
  }

  // With the stack pointer in the pair the two leave different words on the stack.
  lemma StackPairDiffers(n: FpNumber, m: Machine)
    ensures !SameMachine(MovePair(14, n, PopFour(m)), CombinedMove(14, n, m))
  {
    hide Store;
    hide Run;
    hide PopFour;
    hide Wrap;
    var a: int := m.s.reg[SP];
    var w: int, v: int := Wrap(a + 4), m.s.reg[14];
    PopFourState(m);
    PushPair(14, PopFour(m).s, a);
    StorePair(14, m.s);
    LastByte(m.s.mem, a, w, v);
    LastByte(m.s.mem, a, a, v);
    LastByteDiffers(a);
  }

  lemma LastByteDiffers(a: int)
    requires 0 <= a < WORD
    ensures Wrap(a + 4) % 0x100 != a % 0x100
  {}

  lemma LastByte(mem: Word -> Byte, a: int, w: int, v: int)
    ensures Store(Store(mem, a, 4, w), Wrap(a - 4), 4, v)(Wrap(a + 3)) == w % 0x100
  {
    StoreAt(mem, a, 4, w, Wrap(a + 3));
    StoreAt(Store(mem, a, 4, w), Wrap(a - 4), 4, v, Wrap(a + 3));
    assert Wrap(Wrap(a + 3) - Wrap(a - 4)) == 7 && Wrap(Wrap(a + 3) - a) == 3;
    hide Store;
    hide Wrap;
  }

  // --------------------------------------------------------------------------
  // Whole chains

  // What other insns do, and the values of symbols.
  datatype World = World(other: (Insn, Machine) -> Machine, symbol: (Rtx, seq<int>) -> int)

  // Registers and memory as RTL sees them.
  function AsRtl(s: State, symbol: (Rtx, seq<int>) -> int): RtlValue.Machine {
    RtlValue.Machine(n => if 0 <= n < 16 then s.reg[n] else 0,
      (mode, a) => Load(s.mem, a, if mode == Mode.QI then 1 else if mode == Mode.HI then 2 else 4), symbol)
  }

  // (set (reg:SI n) source), of a general register.
  predicate SetsWord(x: Rtx) { Is2(x, SET) && Is0(x.left, REG) && x.left.mode == Mode.SI && 0 <= x.left.val < 16 }

  function SetWord(x: Rtx, m: Machine, symbol: (Rtx, seq<int>) -> int): Machine
    requires SetsWord(x)
  {
    Machine(State(m.s.reg[x.left.val := Wrap(RtlValue.Value(x.right, AsRtl(m.s, symbol)))], m.s.mem), m.fp)
  }

  // What an insn does: a note nothing, a set of a general register what RTL says, a move
  // of a register pair to the 68881 and the combined insn what their outputs do.
  function Meaning(x: Insn, m: Machine, world: World): Machine {
    if x.kind == NOTE then m
    else if SetsWord(x.pattern) then SetWord(x.pattern, m, world.symbol)
    else if PairMove(x.pattern) then MovePair(x.pattern.right.val, x.pattern.left.val - 16, m)
    else if x.code == 247 && x.pattern.Parallel? && |x.pattern.elems| == 2 && Pair(x.pattern.elems[1])
      && FpReg(x.pattern.elems[0])
    then CombinedMove(x.pattern.elems[1].val, x.pattern.elems[0].val - 16, m)
    else world.other(x, m)
  }

  // The adjustment adds four to the stack pointer.
  lemma AdjustmentPops(x: Rtx, m: Machine, symbol: (Rtx, seq<int>) -> int)
    requires PopsFour(x)
    ensures SetsWord(x) && SetWord(x, m, symbol) == PopFour(m)
  {
    PopFourState(m);
    hide PopFour;
    var r := AsRtl(m.s, symbol);
    assert RtlValue.Value(x.right.left, r) == m.s.reg[SP] && RtlValue.Value(x.right.right, r) == 4;
  }

  // The pair fires: an adjustment by four and a move of a pair to any of the eight
  // registers, notes between them.
  lemma UsualPairFires(n: FpNumber, pair: Register, kind: Kind, notes: seq<Insn>, rest: seq<Insn>,
                       registerOperand: (Rtx, Mode) -> bool)
    requires kind in {INSN, JUMP_INSN, CALL_INSN} && forall k | 0 <= k < |notes| :: notes[k].kind == NOTE
    requires registerOperand(Reg(DF, 16 + n), DF) && registerOperand(Reg(DF, pair), DF)
    ensures var sp := Reg(Mode.SI, SP);
      var first := Insn(kind, X2(SET, VOID, sp, X2(PLUS, Mode.SI, sp, ConstInt(4))), -1);
      var second := Insn(INSN, X2(SET, VOID, Reg(DF, 16 + n), Reg(DF, pair)), -1);
      Fires([first] + notes + [second] + rest, 0, registerOperand)
    ensures Pair(Reg(DF, pair)) <==> pair != 15 && pair + 1 != 15
  {
    var sp := Reg(Mode.SI, SP);
    var first := Insn(kind, X2(SET, VOID, sp, X2(PLUS, Mode.SI, sp, ConstInt(4))), -1);
    var second := Insn(INSN, X2(SET, VOID, Reg(DF, 16 + n), Reg(DF, pair)), -1);
    var c := [first] + notes + [second] + rest;
    var j := PastNotes(c, 1);
    assert forall k | 1 <= k < 1 + |notes| :: c[k] == notes[k - 1];
    assert c[1 + |notes|] == second;
    assert j == 1 + |notes|;
  }

  // A pair of general registers without the stack pointer.
  predicate Pair(x: Rtx) { Is0(x, REG) && 0 <= x.val < 14 }

  predicate PairMove(x: Rtx) { Is2(x, SET) && FpReg(x.left) && Pair(x.right) }

  function RunChain(c: seq<Insn>, m: Machine, world: World): Machine {
    if c == [] then m else RunChain(c[1..], Meaning(c[0], m, world), world)
  }

  lemma {:induction false} NotesDoNothing(c: seq<Insn>, rest: seq<Insn>, m: Machine, world: World)
    requires forall k | 0 <= k < |c| :: c[k].kind == NOTE
    ensures RunChain(c + rest, m, world) == RunChain(rest, m, world)
  {
    if c == [] {
      assert c + rest == rest;
    } else {
      assert (c + rest)[1..] == c[1..] + rest;
      NotesDoNothing(c[1..], rest, m, world);
    }
  }

  lemma {:induction false} RunAppend(a: seq<Insn>, b: seq<Insn>, m: Machine, world: World)
    ensures RunChain(a + b, m, world) == RunChain(b, RunChain(a, m, world), world)
  {
    if a == [] {
      assert a + b == b;
    } else {
      assert (a + b)[1..] == a[1..] + b;
      RunAppend(a[1..], b, Meaning(a[0], m, world), world);
    }
  }

  // The insns the peephole replaces and the insns it leaves do the same.
  lemma CombinationKeepsMeaning(first: Insn, notes: seq<Insn>, second: Insn, m: Machine, world: World)
    requires PopsFour(first.pattern) && first.kind != NOTE && second.kind != NOTE && PairMove(second.pattern)
    requires forall k | 0 <= k < |notes| :: notes[k].kind == NOTE
    ensures RunChain([first] + notes + [second], m, world) == RunChain([Combined(first, second)] + notes, m, world)
  {
    hide MovePair;
    hide CombinedMove;
    hide PopFour;
    hide SetWord;
    var pair, n := second.pattern.right.val, second.pattern.left.val - 16;
    AdjustmentPops(first.pattern, m, world.symbol);
    CombinedMoveSame(pair, n, m);
    assert ([first] + notes + [second])[1..] == notes + [second];
    NotesDoNothing(notes, [second], PopFour(m), world);
    assert [second][1..] == [];
    assert ([Combined(first, second)] + notes)[1..] == notes + [];
    NotesDoNothing(notes, [], CombinedMove(pair, n, m), world);
  }

  // So does the whole chain around them.
  lemma ChainKept(c: seq<Insn>, i: nat, j: nat, m: Machine, world: World)
    requires i < j < |c| && PopsFour(c[i].pattern) && c[i].kind != NOTE && c[j].kind != NOTE && PairMove(c[j].pattern)
    requires forall k | i < k < j :: c[k].kind == NOTE
    ensures RunChain(c[..i] + [Combined(c[i], c[j])] + c[i + 1..j] + c[j + 1..], m, world) == RunChain(c, m, world)
  {
    hide Meaning;
    hide Combined;
    var before, notes, rest := c[..i], c[i + 1..j], c[j + 1..];
    var old_, new_ := [c[i]] + notes + [c[j]], [Combined(c[i], c[j])] + notes;
    assert c == before + (old_ + rest);
    assert before + [Combined(c[i], c[j])] + notes + rest == before + (new_ + rest);
    RunAppend(before, old_ + rest, m, world);
    RunAppend(before, new_ + rest, m, world);
    var k := RunChain(before, m, world);
    RunAppend(old_, rest, k, world);
    RunAppend(new_, rest, k, world);
    CombinationKeepsMeaning(c[i], notes, c[j], k, world);
  }
}
