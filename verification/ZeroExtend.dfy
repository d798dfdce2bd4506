// Zero extension on the 68000 (output_46, output_47 and output_48 in
// cmd/gcc/m68k.gen/insn-output.c).

module ZeroExtend {
  import opened Common
  import opened M68kMachine

  // The sizes of the source and of the destination of codes 46, 47 and 48.
  function From(k: int): Size { if k == 46 then 2 else 1 }

  function To(k: int): Size { if k == 47 then 2 else 4 }

  predicate Code(k: int) { 46 <= k <= 48 }

  // A data register: masked if it is the source, loaded and masked if the source's
  // address names it, cleared and loaded otherwise.
  function RegisterCode(k: int, dst: Operand, src: Operand): seq<Instr>
    requires dst.R?
  {
    var mask := if From(k) == 2 then 0xFFFF else 0xFF;
    if src == dst then [And(To(k), mask, dst)]
    else if Mentions(dst.n, src) then [Move(From(k), src, dst), And(To(k), mask, dst)]
    else [Clr(To(k), dst), Move(From(k), src, dst)]
  }

  function Output(k: int, dst: Operand, src: Operand): seq<Instr> {
    match dst
    case R(_) => RegisterCode(k, dst, src)
    case Dec(r) =>
      if k == 46 then [Move(2, src, dst), Clr(2, dst)]
      else if k == 48 then [Clr(4, dst), Move(1, src, M(Some(r), None, 3))]
      else if r == SP then [Clr(2, dst), Move(1, src, M(Some(SP), None, 1))]
      else [Move(1, src, dst), Clr(1, dst)]
    case Inc(r) =>
      if k == 46 then [Clr(2, dst), Move(2, src, dst)]
      else if k == 48 then [Clr(4, dst), Move(1, src, M(Some(r), None, -1))]
      else [Clr(1, dst), Move(1, src, dst)]
    case _ =>
      if k == 46 then [Clr(2, dst), Move(2, src, Offset(dst, 2))]
      else if k == 48 then [Clr(4, dst), Move(1, src, Offset(dst, 3))]
      else [Clr(1, dst), Move(1, src, Offset(dst, 1))]
  }

  predicate Stepping(x: Operand) { x.Dec? || x.Inc? }

  // What the constraints and the rules on side effects leave: data registers and
  // memory, sources that do not overlap a memory destination, and no register that
  // changes while the other operand names it.
  predicate Admitted(k: int, dst: Operand, src: Operand, s: State)
    requires Code(k)
  {
    match dst
    case R(d) => d < 8 && (Stepping(src) ==> src.n >= 8)
    case Imm(_) => false
    case _ =>
      && (Stepping(src) ==> src.n >= 8 && !Mentions(src.n, dst))
      && (Stepping(dst) ==> dst.n >= 8 && !Mentions(dst.n, src))
      && (!src.R? && !src.Imm? ==> Apart(Locate(src, s, From(k)).1, From(k), Locate(dst, s, To(k)).1, To(k)))
  }

  // The unsigned value of the source in the whole of the destination.
  function Wanted(k: int, dst: Operand, src: Operand, s: State): State {
    Put(dst, Locate(src, s, From(k)).0, To(k), Get(src, s, From(k)))
  }

  // Bytes are stored through a postincremented stack pointer two bytes apart, so the
  // two halves of code 47 do not meet there.
  predicate StackPopped(k: int, dst: Operand) { k == 47 && dst == Inc(SP) }

  lemma GetRange(x: Operand, s: State, n: Size)
    ensures 0 <= Get(x, s, n) < Range(n)
  {}

  // A source that names no register the states differ in and no byte stored between
  // them keeps its value.
  lemma GetKept(src: Operand, s: State, t: State, n: Size, b: Word, k: Size, v: int)
    requires !src.Dec? && !src.Inc? && t.mem == Store(s.mem, b, k, v)
    requires forall q: Register :: Mentions(q, src) ==> t.reg[q] == s.reg[q]
    requires src.M? ==> Apart(Locate(src, s, n).1, n, b, k)
    ensures Get(src, t, n) == Get(src, s, n) && Locate(src, t, n).0 == t
  {
    if src.M? {
      LoadKept(s.mem, b, k, v, Locate(src, s, n).1, n);
      if src.base.Some? { assert Mentions(src.base.value, src); }
      if src.index.Some? { assert Mentions(src.index.value, src); }
    } else if src.R? {
      assert Mentions(src.n, src);
    }
  }

  // --------------------------------------------------------------------------
  // A data register

  // What a register no operand names holds does not matter to the operand.
  lemma GetApart(src: Operand, s: State, d: Register, x: Word, n: Size)
    requires !Mentions(d, src)
    ensures var t := State(s.reg[d := x], s.mem); var (u, a) := Locate(src, s, n);
      Get(src, t, n) == Get(src, s, n) && Locate(src, t, n) == (State(u.reg[d := x], s.mem), a)
  {
    var t := State(s.reg[d := x], s.mem);
    match src {
      case Dec(r) => assert t.reg[r := Wrap(s.reg[r] - Step(n, r))] == s.reg[r := Wrap(s.reg[r] - Step(n, r))][d := x];
      case Inc(r) => assert t.reg[r := Wrap(s.reg[r] + Step(n, r))] == s.reg[r := Wrap(s.reg[r] + Step(n, r))][d := x];
      case _ =>
    }
  }

  lemma LastByte(q: int, l: int)
    requires 0 <= l < 0x100
    ensures (0x100 * q + l) % 0x100 == l
  {}

  lemma LastHalf(h: int, v: int)
    requires 0 <= v < 0x1_0000
    ensures (0x1_0000 * h + v) % 0x1_0000 == v
  {}

  // h, m and l are the upper half and the two low bytes of a word.
  lemma Parts(h: int, m: int, l: int)
    requires 0 <= m < 0x100 && 0 <= l < 0x100
    ensures var w := 0x1_0000 * h + 0x100 * m + l;
      w % 0x100 == l && w % 0x1_0000 == 0x100 * m + l && w % 0x1_0000 % 0x100 == l
  {
    LastByte(0x100 * h + m, l);
    LastHalf(h, 0x100 * m + l);
    LastByte(m, l);
    assert 0x100 * (0x100 * h + m) + l == 0x1_0000 * h + 0x100 * m + l;
  }

  lemma Split(w: Word) returns (h: int, m: int, l: int)
    ensures 0 <= m < 0x100 && 0 <= l < 0x100 && w == 0x1_0000 * h + 0x100 * m + l
  {
    h, m, l := w / 0x1_0000, w % 0x1_0000 / 0x100, w % 0x100;
  }

  lemma LowByte(prior: Word, v: int)
    requires 0 <= v < 0x100
    ensures var w := prior - prior % 0x100 + v;
      w % 0x100 == v && w % 0x1_0000 % 0x100 == v && w - w % 0x1_0000 == prior - prior % 0x1_0000
    ensures (prior - prior % 0x1_0000) % 0x100 == 0
  {
    var h, m, l := Split(prior);
    Parts(h, m, l);
    Parts(h, m, v);
    Parts(h, 0, 0);
  }

  lemma LowHalf(prior: Word, v: int)
    requires 0 <= v < 0x1_0000
    ensures (prior - prior % 0x1_0000 + v) % 0x1_0000 == v
  {
    var h, m, l := Split(prior);
    Parts(h, m, l);
  }

  // Low bytes stored over a cleared part.
  lemma OverCleared(prior: Word, r: Register, k: int, v: int)
    requires Code(k) && r < 8 && 0 <= v < Range(From(k))
    ensures RegisterValue(RegisterValue(prior, r, To(k), 0), r, From(k), v) == RegisterValue(prior, r, To(k), v)
  {
    hide RegisterValue;
    var w := RegisterValue(prior, r, To(k), 0);
    PartValue(w, r, From(k), v);
    if To(k) == 4 {
      FullValue(prior, r, 0);
      FullValue(prior, r, v);
    } else {
      PartValue(prior, r, 2, 0);
      PartValue(prior, r, 2, v);
      LowByte(prior, v);
    }
  }

  lemma FullValue(prior: Word, r: Register, v: int)
    requires 0 <= v < WORD
    ensures RegisterValue(prior, r, 4, v) == v
  {}

  lemma PartValue(prior: Word, r: Register, n: Size, v: int)
    requires n < 4 && r < 8 && 0 <= v < Range(n)
    ensures RegisterValue(prior, r, n, v) == prior - prior % Range(n) + v
  {}

  // Low bytes masked after being stored.
  lemma ThenMasked(prior: Word, r: Register, k: int, v: int)
    requires Code(k) && r < 8 && 0 <= v < Range(From(k))
    ensures var w := RegisterValue(prior, r, From(k), v); var m := if From(k) == 2 then 0x1_0000 else 0x100;
      RegisterValue(w, r, To(k), w % Range(To(k)) % m) == RegisterValue(prior, r, To(k), v)
  {
    hide RegisterValue;
    var w := RegisterValue(prior, r, From(k), v);
    PartValue(prior, r, From(k), v);
    if k == 46 { LowHalf(prior, v); } else { LowByte(prior, v); }
    if To(k) == 4 {
      assert w % WORD == w;
      FullValue(w, r, v);
      FullValue(prior, r, v);
    } else {
      PartValue(w, r, 2, v);
      PartValue(prior, r, 2, v);
    }
  }

  lemma RegisterExtends(k: int, dst: Operand, src: Operand, s: State)
    requires Code(k) && Admitted(k, dst, src, s) && dst.R?
    ensures Same(Run(Output(k, dst, src), s), Wanted(k, dst, src, s))
  {
    hide RegisterValue;
    hide Load;
    hide Run;
    var d, n, v := dst.n, From(k), Get(src, s, From(k));
    GetRange(src, s, n);
    var prior := Locate(src, s, n).0.reg[d];
    var code := Output(k, dst, src);
    if src == dst {
      RunTwo(code[0], code[0], s);
      MaskInPlace(k, s.reg[d]);
    } else {
      RunTwo(code[0], code[1], s);
      assert code == [code[0], code[1]];
      if Mentions(d, src) {
        ThenMasked(prior, d, k, v);
      } else {
        OverCleared(prior, d, k, v);
        GetApart(src, s, d, RegisterValue(s.reg[d], d, To(k), 0), n);
      }
    }
  }

  lemma MaskInPlace(k: int, w: Word)
    requires Code(k)
    ensures w % Range(From(k)) == w % Range(To(k)) % (if From(k) == 2 then 0x1_0000 else 0x100)
  {}

  // --------------------------------------------------------------------------
  // Memory

  lemma MemoryExtends(k: int, dst: Operand, src: Operand, s: State)
    requires Code(k) && Admitted(k, dst, src, s) && dst.M? && !Stepping(src)
    ensures Same(Run(Output(k, dst, src), s), Wanted(k, dst, src, s))
  {
    hide Store;
    hide Load;
    hide Wrap;
    hide Run;
    var n, v, a := From(k), Get(src, s, From(k)), Locate(dst, s, To(k)).1;
    var code := Output(k, dst, src);
    RunTwo(code[0], code[1], s);
    GetRange(src, s, n);
    var size, offset := if k == 48 then 4 else n, To(k) - n;
    ApartLess(k, dst, src, s, size);
    GetKept(src, s, Execute(code[0], s), n, a, size, 0);
    WrapAdd(RegOr0(s, dst.base) + RegOr0(s, dst.index) + dst.disp, offset);
    forall x: Word
      ensures Store(Store(s.mem, a, size, 0), Wrap(a + offset), n, v)(x) == Store(s.mem, a, To(k), v)(x)
    {
      if k == 48 { StoreLast(s.mem, a, 4, v, x); } else { StoreParts(s.mem, a, v, x); }
    }
  }

  lemma ApartLess(k: int, dst: Operand, src: Operand, s: State, size: Size)
    requires Code(k) && Admitted(k, dst, src, s) && !dst.R? && size <= To(k) && !Stepping(src)
    ensures src.M? ==> Apart(Locate(src, s, From(k)).1, From(k), Locate(dst, s, To(k)).1, size)
  {
    hide Locate;
    hide Wrap;
  }

  // output_48, and output_47 on the stack: the whole is cleared by the push, and the
  // byte stored at an offset from the new address.
  lemma PushClearedExtends(k: int, dst: Operand, src: Operand, s: State)
    requires Code(k) && Admitted(k, dst, src, s) && dst.Dec? && (k == 48 || (k == 47 && dst.n == SP)) && !Stepping(src)
    ensures Same(Run(Output(k, dst, src), s), Wanted(k, dst, src, s))
  {
    hide Store;
    hide Load;
    hide Wrap;
    hide Run;
    var v, a := Get(src, s, 1), Locate(dst, s, To(k)).1;
    var code := Output(k, dst, src);
    RunTwo(code[0], code[1], s);
    GetRange(src, s, 1);
    GetKept(src, s, Execute(code[0], s), 1, a, To(k), 0);
    forall x: Word
      ensures Store(Store(s.mem, a, To(k), 0), Wrap(a + To(k) - 1), 1, v)(x) == Store(s.mem, a, To(k), v)(x)
    {
      StoreLast(s.mem, a, To(k), v, x);
    }
  }

  // output_46, and output_47 elsewhere: the low half is pushed, then a zero.
  lemma PushHalvesExtends(k: int, dst: Operand, src: Operand, s: State)
    requires Code(k) && Admitted(k, dst, src, s) && dst.Dec? && !(k == 48 || (k == 47 && dst.n == SP)) && !Stepping(src)
    ensures Same(Run(Output(k, dst, src), s), Wanted(k, dst, src, s))
  {
    hide Store;
    hide Load;
    hide Wrap;
    hide Run;
    var r, n, v, a := dst.n, From(k), Get(src, s, From(k)), Locate(dst, s, To(k)).1;
    var code := Output(k, dst, src);
    RunTwo(code[0], code[1], s);
    GetRange(src, s, n);
    WrapSub(s.reg[r] - n, n);
    WrapAdd(s.reg[r] - To(k), n);
    forall x: Word ensures Store(Store(s.mem, Wrap(a + n), n, v), a, n, 0)(x) == Store(s.mem, a, To(k), v)(x)
    {
      StoreParts(s.mem, a, v, x);
    }
  }

  lemma PlainPushExtends(k: int, dst: Operand, src: Operand, s: State)
    requires Code(k) && Admitted(k, dst, src, s) && dst.Dec? && !Stepping(src)
    ensures Same(Run(Output(k, dst, src), s), Wanted(k, dst, src, s))
  {
    if k == 48 || (k == 47 && dst.n == SP) { PushClearedExtends(k, dst, src, s); }
    else { PushHalvesExtends(k, dst, src, s); }
  }

  lemma PopExtends(k: int, dst: Operand, src: Operand, s: State)
    requires Code(k) && Admitted(k, dst, src, s) && dst.Inc? && !StackPopped(k, dst) && !Stepping(src)
    ensures Same(Run(Output(k, dst, src), s), Wanted(k, dst, src, s))
  {
    hide Store;
    hide Load;
    hide Wrap;
    hide Run;
    var r, n, v, a := dst.n, From(k), Get(src, s, From(k)), s.reg[dst.n];
    var code := Output(k, dst, src);
    RunTwo(code[0], code[1], s);
    GetRange(src, s, n);
    var size := if k == 48 then 4 else n;
    ApartLess(k, dst, src, s, size);
    GetKept(src, s, Execute(code[0], s), n, a, size, 0);
    WrapAdd(a + size, if k == 48 then -1 else n);
    forall x: Word
      ensures Store(Store(s.mem, a, size, 0), Wrap(a + To(k) - n), n, v)(x) == Store(s.mem, a, To(k), v)(x)
    {
      if k == 48 { StoreLast(s.mem, a, 4, v, x); } else { StoreParts(s.mem, a, v, x); }
    }
  }

  // --------------------------------------------------------------------------
  // An automatic-increment source of a memory destination: the same bytes as through
  // the address it has before, and its register stepped as well.

  function Plain(src: Operand, n: Size): Operand {
    match src
    case Dec(r) => M(Some(r), None, -Step(n, r))
    case Inc(r) => M(Some(r), None, 0)
    case _ => src
  }

  function Stepped(src: Operand, n: Size, w: Word): Word
    requires Stepping(src)
  {
    if src.Dec? then Wrap(w - Step(n, src.n)) else Wrap(w + Step(n, src.n))
  }

  function With(s: State, d: Register, x: Word): State { State(s.reg[d := x], s.mem) }

  lemma PutApart(dst: Operand, s: State, d: Register, x: Word, n: Size, v: int)
    requires !Mentions(d, dst)
    ensures Put(dst, With(s, d, x), n, v) == With(Put(dst, s, n, v), d, x)
    ensures Put(dst, s, n, v).reg[d] == s.reg[d]
  {
    hide Store;
    if dst.R? {
      var w := RegisterValue(s.reg[dst.n], dst.n, n, v);
      assert s.reg[d := x][dst.n := w] == s.reg[dst.n := w][d := x];
    } else if !dst.Imm? {
      GetApart(dst, s, d, x, n);
    }
  }

  lemma MoveStepped(src: Operand, dst: Operand, s: State, n: Size)
    requires Stepping(src) && !Mentions(src.n, dst)
    ensures Execute(Move(n, src, dst), s)
      == With(Execute(Move(n, Plain(src, n), dst), s), src.n, Stepped(src, n, s.reg[src.n]))
    ensures Execute(Move(n, Plain(src, n), dst), s).reg[src.n] == s.reg[src.n]
  {
    hide Store;
    hide Load;
    PutApart(dst, s, src.n, Stepped(src, n, s.reg[src.n]), n, Get(src, s, n));
  }

  lemma ClearApart(dst: Operand, s: State, d: Register, x: Word, n: Size)
    requires !Mentions(d, dst)
    ensures Execute(Clr(n, dst), With(s, d, x)) == With(Execute(Clr(n, dst), s), d, x)
    ensures Execute(Clr(n, dst), s).reg[d] == s.reg[d]
  {
    PutApart(dst, s, d, x, n, 0);
  }

  // The two instructions, the clearing first or last.
  lemma PairStepped(src: Operand, a: Operand, b: Operand, n: Size, k: Size, s: State)
    requires Stepping(src) && !Mentions(src.n, a) && !Mentions(src.n, b)
    ensures var x := Stepped(src, n, s.reg[src.n]);
      && Run([Clr(k, a), Move(n, src, b)], s) == With(Run([Clr(k, a), Move(n, Plain(src, n), b)], s), src.n, x)
      && Run([Move(n, src, b), Clr(k, a)], s) == With(Run([Move(n, Plain(src, n), b), Clr(k, a)], s), src.n, x)
  {
    hide Execute;
    hide Run;
    var x := Stepped(src, n, s.reg[src.n]);
    RunTwo(Clr(k, a), Move(n, src, b), s);
    RunTwo(Clr(k, a), Move(n, Plain(src, n), b), s);
    RunTwo(Move(n, src, b), Clr(k, a), s);
    RunTwo(Move(n, Plain(src, n), b), Clr(k, a), s);
    ClearApart(a, s, src.n, x, k);
    MoveStepped(src, b, Execute(Clr(k, a), s), n);
    MoveStepped(src, b, s, n);
    ClearApart(a, Execute(Move(n, Plain(src, n), b), s), src.n, x, k);
  }

  lemma PlainAdmitted(k: int, dst: Operand, src: Operand, s: State)
    requires Code(k) && Admitted(k, dst, src, s) && Stepping(src) && !dst.R?
    ensures Admitted(k, dst, Plain(src, From(k)), s) && !Stepping(Plain(src, From(k)))
  {
    hide Apart;
  }

  lemma WantedStepped(k: int, dst: Operand, src: Operand, s: State)
    requires Code(k) && Stepping(src) && !Mentions(src.n, dst)
    ensures Wanted(k, dst, src, s)
      == With(Wanted(k, dst, Plain(src, From(k)), s), src.n, Stepped(src, From(k), s.reg[src.n]))
  {
    hide Put;
    hide Load;
    PutApart(dst, s, src.n, Stepped(src, From(k), s.reg[src.n]), To(k), Get(src, s, From(k)));
  }

  lemma OutputStepped(k: int, dst: Operand, src: Operand, s: State)
    requires Code(k) && Stepping(src) && !dst.R? && !dst.Imm? && !Mentions(src.n, dst)
    ensures Run(Output(k, dst, src), s)
      == With(Run(Output(k, dst, Plain(src, From(k))), s), src.n, Stepped(src, From(k), s.reg[src.n]))
  {
    hide Run;
    hide Plain;
    hide Stepped;
    hide With;
    var code := Output(k, dst, src);
    if code[0].Clr? {
      PairStepped(src, code[0].dst, code[1].dst, From(k), code[0].n, s);
    } else {
      PairStepped(src, code[1].dst, code[0].dst, From(k), code[1].n, s);
    }
  }

  lemma SteppedSame(s: State, t: State, d: Register, x: Word)
    requires Same(s, t)
    ensures Same(With(s, d, x), With(t, d, x))
  {}

  // Memory destinations, the stack included, pushed to, popped from or plain.
  lemma StoreExtends(k: int, dst: Operand, src: Operand, s: State)
    requires Code(k) && Admitted(k, dst, src, s) && !dst.R? && !StackPopped(k, dst)
    ensures Same(Run(Output(k, dst, src), s), Wanted(k, dst, src, s))
  {
    hide Run;
    hide Wanted;
    hide Output;
    hide Same;
    var p := src;
    if Stepping(src) {
      PlainAdmitted(k, dst, src, s);
      WantedStepped(k, dst, src, s);
      OutputStepped(k, dst, src, s);
      p := Plain(src, From(k));
    }
    match dst {
      case Dec(_) => PlainPushExtends(k, dst, p, s);
      case Inc(_) => PopExtends(k, dst, p, s);
      case M(_, _, _) => MemoryExtends(k, dst, p, s);
    }
    if Stepping(src) {
      SteppedSame(Run(Output(k, dst, p), s), Wanted(k, dst, p, s), src.n, Stepped(src, From(k), s.reg[src.n]));
    }
  }

  lemma PushExtends(k: int, dst: Operand, src: Operand, s: State)
    requires Code(k) && Admitted(k, dst, src, s) && dst.Dec?
    ensures Same(Run(Output(k, dst, src), s), Wanted(k, dst, src, s))
  {
    StoreExtends(k, dst, src, s);
  }

  // The stack pointer ends up four bytes further instead of two.
  lemma StackPopFails(src: Operand, s: State)
    requires Admitted(47, Inc(SP), src, s)
    ensures !Same(Run(Output(47, Inc(SP), src), s), Wanted(47, Inc(SP), src, s))
  {
    hide Store;
    hide Load;
    hide Run;
    RunTwo(Clr(1, Inc(SP)), Move(1, src, Inc(SP)), s);
    var t := Execute(Clr(1, Inc(SP)), s);
    var sp: int := s.reg[SP];
    var next: int := t.reg[SP];
    assert next == Wrap(sp + 2) && Execute(Move(1, src, Inc(SP)), t).reg[SP] == Wrap(next + 2);
  }

  lemma ZeroExtends(k: int, dst: Operand, src: Operand, s: State)
    requires Code(k) && Admitted(k, dst, src, s)
    ensures Same(Run(Output(k, dst, src), s), Wanted(k, dst, src, s)) <==> !StackPopped(k, dst)
  {
    match dst {
      case R(_) => RegisterExtends(k, dst, src, s);
      case _ => if StackPopped(k, dst) { StackPopFails(src, s); } else { StoreExtends(k, dst, src, s); }
    }
  }
}
