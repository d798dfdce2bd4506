// Switch dispatch on the 68000 (gen_casesi and its two parts in
// cmd/gcc/m68k.gen/insn-emit.c).

module SwitchDispatch {
  import Arithmetic
  import opened Rtl
  import opened RtlValue
  import Patterns
  import M68kDescription

  // --------------------------------------------------------------------------
  // The insns

  function Label(l: Rtx): Rtx { X1(LABEL_REF, VOID, l) }

  // gen_casesi_1: the difference, its comparison with the range, and the jump to the default.
  function Casesi1(selector: Rtx, minusLow: Rtx, range: Rtx, diff: Rtx, default_: Rtx): seq<Rtx> {
    [X2(SET, VOID, diff, X2(PLUS, SI, selector, minusLow)),
     X2(SET, VOID, CC0_RTX, X2(COMPARE, VOID, range, diff)),
     X2(SET, VOID, PC_RTX, X3(IF_THEN_ELSE, VOID, X2(LTU, VOID, CC0_RTX, ConstInt(0)), Label(default_), PC_RTX))]
  }

  // gen_casesi_2: the table entry and the jump through it.
  function Casesi2(entry: Rtx, address: Rtx, table: Rtx): seq<Rtx> {
    [X2(SET, VOID, entry, Mem(HI, address, false)),
     Parallel(VOID, [X2(SET, VOID, PC_RTX, X2(PLUS, SI, PC_RTX, entry)), X1(USE, VOID, Label(table))])]
  }

  class Sequence {
    var next: int         // the next pseudo register
    var insns: seq<Rtx>   // the insns emitted so far

    method NewReg(m: Mode) returns (r: Rtx)
      modifies this
      ensures next == old(next) + 1 && insns == old(insns) && r == Reg(m, old(next))
    {
      r := Reg(m, next);
      next := next + 1;
    }

    // negate_rtx: a constant is negated at once, anything else by an insn.
    method Negate(x: Rtx) returns (r: Rtx)
      modifies this
      ensures Is0(x, CONST_INT) ==> r == ConstInt(-x.val) && next == old(next) && insns == old(insns)
      ensures !Is0(x, CONST_INT) ==> (
        && r == Reg(SI, old(next)) && next == old(next) + 1
        && insns == old(insns) + [X2(SET, VOID, r, X1(NEG, SI, x))])
    {
      if Is0(x, CONST_INT) { return ConstInt(-x.val); }
      r := NewReg(SI);
      insns := insns + [X2(SET, VOID, r, X1(NEG, SI, x))];
    }

    // gen_casesi.  The table address is used as it stands; memory_address_noforce may
    // load parts of it into registers first, which keeps its value.
    method GenCasesi(selector: Rtx, low: Rtx, range: Rtx, table: Rtx, default_: Rtx)
      requires Below(selector, next) && Below(low, next) && Below(range, next)
      modifies this
      ensures old(insns) <= insns
      ensures forall s: State :: Dispatches(insns[|old(insns)|..], s, selector, low, range, table, default_)
      ensures forall env | Suitable(env, selector, low, range, table) ::
          AreInsns(CasesiCodes(low), insns[|old(insns)|..], env)
    {
      hide Casesi1;
      hide Casesi2;
      ghost var before, first := insns, next;
      var minusLow := Negate(low);
      ghost var negated := insns[|before|..];
      var diff := NewReg(SI);
      insns := insns + Casesi1(selector, minusLow, range, diff, default_);
      var address := X2(PLUS, SI, X2(MULT, SI, diff, ConstInt(2)), Label(table));
      var entry := NewReg(HI);
      assert address == EntryAddress(diff.val, table);
      insns := insns + Casesi2(entry, address, table);
      ghost var tail := Casesi1(selector, minusLow, range, diff, default_) + Casesi2(entry, address, table);
      Appended(before, negated, Casesi1(selector, minusLow, range, diff, default_), Casesi2(entry, address, table));
      assert insns[|before|..] == negated + tail;
      forall s: State ensures Dispatches(negated + tail, s, selector, low, range, table, default_) {
        AllDispatches(s, selector, low, minusLow, range, first, diff.val, entry.val, negated, table, default_);
      }
      forall env | Suitable(env, selector, low, range, table)
        ensures AreInsns(CasesiCodes(low), negated + tail, env)
      {
        CasesiInsns(selector, low, minusLow, range, first, diff.val, entry.val, negated, table, default_, env);
      }
    }
  }

  lemma Appended(before: seq<Rtx>, a: seq<Rtx>, b: seq<Rtx>, c: seq<Rtx>)
    ensures before + a + b + c == before + (a + (b + c))
    ensures (before + a + b + c)[|before|..] == a + (b + c)
  {}

  // --------------------------------------------------------------------------
  // The insns emitted are insns of the m68k: a negation, an addition, a comparison, a
  // jump if lower, a halfword move and a table jump.

  function CasesiCodes(low: Rtx): seq<int> { (if Is0(low, CONST_INT) then [] else [143]) + [78, 11, 220, 32, 238] }

  // The operands, registers, integers and the table entry are general operands.
  ghost predicate Suitable(env: Patterns.Env, selector: Rtx, low: Rtx, range: Rtx, table: Rtx) {
    && Patterns.Sane(env)
    && (forall x | x in {selector, low, range} :: env.accepts(Patterns.General, x, SI))
    && (forall m, n :: env.accepts(Patterns.General, Reg(m, n), m))
    && (forall i :: env.accepts(Patterns.General, ConstInt(i), SI))
    && (forall n :: env.accepts(Patterns.General, Mem(HI, EntryAddress(n, table), false), HI))
  }

  ghost predicate AreInsns(codes: seq<int>, insns: seq<Rtx>, env: Patterns.Env) {
    |codes| == |insns| && forall i | 0 <= i < |codes| :: M68kDescription.Matches(codes[i], insns[i], env)
  }

  lemma SumInsn(d: Rtx, a: Rtx, b: Rtx, env: Patterns.Env)
    requires forall x | x in {d, a, b} :: env.accepts(Patterns.General, x, SI)
    ensures M68kDescription.Matches(78, X2(SET, VOID, d, X2(PLUS, SI, a, b)), env)
  {
    Patterns.BinaryShape(SI, PLUS, SI, SI, SI, X2(SET, VOID, d, X2(PLUS, SI, a, b)), env);
  }

  lemma NegationInsn(d: Rtx, a: Rtx, env: Patterns.Env)
    requires env.accepts(Patterns.General, d, SI) && env.accepts(Patterns.General, a, SI)
    ensures M68kDescription.Matches(143, X2(SET, VOID, d, X1(NEG, SI, a)), env)
  {
    Patterns.UnaryShape(SI, NEG, SI, SI, X2(SET, VOID, d, X1(NEG, SI, a)), env);
  }

  lemma ComparisonInsn(a: Rtx, b: Rtx, env: Patterns.Env)
    requires env.accepts(Patterns.General, a, SI) && env.accepts(Patterns.General, b, SI)
    ensures M68kDescription.Matches(11, X2(SET, VOID, CC0_RTX, X2(COMPARE, VOID, a, b)), env)
  {
    Patterns.TestBinaryShape(COMPARE, VOID, SI, X2(SET, VOID, CC0_RTX, X2(COMPARE, VOID, a, b)), env);
  }

  lemma JumpInsn(l: Rtx, env: Patterns.Env)
    requires Patterns.Sane(env)
    ensures M68kDescription.Matches(220, X2(SET, VOID, PC_RTX,
        X3(IF_THEN_ELSE, VOID, X2(LTU, VOID, CC0_RTX, ConstInt(0)), Label(l), PC_RTX)), env)
  {
    Patterns.BranchShape(LTU, X2(SET, VOID, PC_RTX,
      X3(IF_THEN_ELSE, VOID, X2(LTU, VOID, CC0_RTX, ConstInt(0)), Label(l), PC_RTX)), env);
  }

  lemma MoveInsn(d: Rtx, a: Rtx, env: Patterns.Env)
    requires env.accepts(Patterns.General, d, HI) && env.accepts(Patterns.General, a, HI)
    ensures M68kDescription.Matches(32, X2(SET, VOID, d, a), env)
  {
    Patterns.MoveShape(Patterns.General, HI, X2(SET, VOID, d, a), env);
  }

  lemma TableJumpText(x: Rtx, env: Patterns.Env)
    ensures M68kDescription.Pattern(238) == Patterns.PPar(
        Patterns.P2(SET, VOID, Patterns.Lit(PC_RTX),
          Patterns.P2(PLUS, SI, Patterns.Lit(PC_RTX), Patterns.Op(0, Patterns.General, HI))),
        Patterns.P1(USE, VOID, Patterns.Label(1)))
    ensures M68kDescription.DupsAgree(238, x) && M68kDescription.Condition(238, x, env)
  {}

  lemma TableJumpInsn(e: Rtx, l: Rtx, env: Patterns.Env)
    requires Patterns.Sane(env) && env.accepts(Patterns.General, e, HI)
    ensures M68kDescription.Matches(238,
        Parallel(VOID, [X2(SET, VOID, PC_RTX, X2(PLUS, SI, PC_RTX, e)), X1(USE, VOID, Label(l))]), env)
  {
    hide M68kDescription.Pattern;
    hide M68kDescription.DupsAgree;
    hide M68kDescription.Condition;
    var x := Parallel(VOID, [X2(SET, VOID, PC_RTX, X2(PLUS, SI, PC_RTX, e)), X1(USE, VOID, Label(l))]);
    TableJumpText(x, env);
    var p := M68kDescription.Pattern(238);
    Patterns.ShapeStep(p, x, env);
    Patterns.ShapeStep(p.a, x.elems[0], env);
    Patterns.ShapeStep(p.a.b, x.elems[0].right, env);
    Patterns.ShapeStep(p.b, x.elems[1], env);
    Patterns.ShapeStep(p.b.a, x.elems[1].arg, env);
  }

  lemma InsnsAppend(a: seq<int>, x: seq<Rtx>, b: seq<int>, y: seq<Rtx>, env: Patterns.Env)
    requires AreInsns(a, x, env) && AreInsns(b, y, env)
    ensures AreInsns(a + b, x + y, env)
  {
    hide M68kDescription.Matches;
  }

  lemma CasesiInsns(selector: Rtx, low: Rtx, minusLow: Rtx, range: Rtx, first: int, n: int, e: int,
                    negated: seq<Rtx>, table: Rtx, default_: Rtx, env: Patterns.Env)
    requires Suitable(env, selector, low, range, table)
    requires if Is0(low, CONST_INT) then negated == [] && minusLow == ConstInt(-low.val)
      else minusLow == Reg(SI, first) && negated == [X2(SET, VOID, minusLow, X1(NEG, SI, low))]
    ensures AreInsns(CasesiCodes(low), negated + (Casesi1(selector, minusLow, range, Reg(SI, n), default_)
      + Casesi2(Reg(HI, e), EntryAddress(n, table), table)), env)
  {
    hide M68kDescription.Matches;
    hide EntryAddress;
    hide Casesi1;
    hide Casesi2;
    if !Is0(low, CONST_INT) { NegationInsn(minusLow, low, env); }
    Casesi1Insns(selector, minusLow, range, Reg(SI, n), default_, env);
    Casesi2Insns(Reg(HI, e), EntryAddress(n, table), table, env);
    var one := Casesi1(selector, minusLow, range, Reg(SI, n), default_);
    var two := Casesi2(Reg(HI, e), EntryAddress(n, table), table);
    InsnsAppend([78, 11, 220], one, [32, 238], two, env);
    InsnsAppend(if Is0(low, CONST_INT) then [] else [143], negated, [78, 11, 220] + [32, 238], one + two, env);
    assert [78, 11, 220] + [32, 238] == [78, 11, 220, 32, 238];
  }

  lemma Casesi1Insns(selector: Rtx, minusLow: Rtx, range: Rtx, diff: Rtx, default_: Rtx, env: Patterns.Env)
    requires Patterns.Sane(env)
    requires forall x | x in {selector, minusLow, range, diff} :: env.accepts(Patterns.General, x, SI)
    ensures AreInsns([78, 11, 220], Casesi1(selector, minusLow, range, diff, default_), env)
  {
    hide M68kDescription.Matches;
    SumInsn(diff, selector, minusLow, env);
    ComparisonInsn(range, diff, env);
    JumpInsn(default_, env);
  }

  lemma Casesi2Insns(entry: Rtx, address: Rtx, table: Rtx, env: Patterns.Env)
    requires Patterns.Sane(env) && env.accepts(Patterns.General, entry, HI)
    requires env.accepts(Patterns.General, Mem(HI, address, false), HI)
    ensures AreInsns([32, 238], Casesi2(entry, address, table), env)
  {
    hide M68kDescription.Matches;
    MoveInsn(entry, Mem(HI, address, false), env);
    TableJumpInsn(entry, table, env);
  }

  // --------------------------------------------------------------------------
  // Running insns

  // Registers, memory and constants, and the operands of the last comparison.
  datatype State = State(m: Machine, cc: (int, int))

  datatype Outcome =
    | Goto(l: Rtx)             // control went to a label
    | Through(address: int)    // control went to an address taken from a table
    | Next(s: State)
    | Stuck

  function Assign(s: State, n: int, v: int): State {
    State(Machine((k: int) => if k == n then v else s.m.reg(k), s.m.mem, s.m.other), s.cc)
  }

  // A table jump adds the sign-extended entry to the address of its table.
  function Execute(x: Rtx, s: State): Outcome {
    match x
    case X2(SET, _, d, src) =>
      if Is0(d, REG) then Next(Assign(s, d.val, Value(src, s.m)))
      else if d == CC0_RTX && Is2(src, COMPARE) then Next(State(s.m, (Value(src.left, s.m), Value(src.right, s.m))))
      else if d == PC_RTX && Is3(src, IF_THEN_ELSE) && Is2(src.fst, LTU) && Is1(src.snd, LABEL_REF) then
        if s.cc.0 < s.cc.1 then Goto(src.snd.arg) else Next(s)
      else Stuck
    case Parallel(_, v) =>
      if |v| == 2 && Is2(v[0], SET) && Is2(v[0].right, PLUS) && Is1(v[1], USE) then
        Through(Wrap(Value(v[1].arg, s.m) + SignExtend16(Value(v[0].right.right, s.m))))
      else Stuck
    case _ => Stuck
  }

  function Run(code: seq<Rtx>, s: State): Outcome {
    if code == [] then Next(s)
    else match Execute(code[0], s)
      case Next(t) => Run(code[1..], t)
      case o => o
  }

  // The default label outside [low, low + range]; otherwise the address the table
  // gives for selector - low, in halfwords relative to the table.
  ghost predicate Dispatches(code: seq<Rtx>, s: State, selector: Rtx, low: Rtx, range: Rtx, table: Rtx, default_: Rtx) {
    var v, lo := Arithmetic.Signed(SI, Value(selector, s.m)), Arithmetic.Signed(SI, Value(low, s.m));
    var n := Value(range, s.m);
    lo + n < 0x8000_0000 ==>
      Run(code, s) ==
        if lo <= v <= lo + n then Through(TableTarget(table, v - lo, s.m)) else Goto(default_)
  }

  function TableTarget(table: Rtx, i: int, m: Machine): int {
    var t := Value(Label(table), m);
    Wrap(t + SignExtend16(Wrap(m.mem(HI, Wrap(t + 2 * i)))))
  }

  lemma RunFirst(code: seq<Rtx>, s: State)
    requires code != []
    ensures Run(code, s) == match Execute(code[0], s)
      case Next(t) => Run(code[1..], t)
      case o => o
  {}

  lemma NegatedValue(x: Rtx, m: Machine)
    ensures Value(X1(NEG, SI, x), m) == Wrap(-Value(x, m))
  {}

  lemma NegatedStep(s: State, low: Rtx, first: int)
    ensures Execute(X2(SET, VOID, Reg(SI, first), X1(NEG, SI, low)), s)
      == Next(Assign(s, first, Wrap(-Value(low, s.m))))
    ensures Value(Reg(SI, first), Assign(s, first, Wrap(-Value(low, s.m))).m) == Wrap(-Value(low, s.m))
  {
    hide Value;
    hide Wrap;
    hide Assign;
    NegatedValue(low, s.m);
    WrapSum(-Value(low, s.m), 0);
    RegisterValue(SI, first, s, Wrap(-Value(low, s.m)));
  }

  // After the insns of Negate, registers below first are as before and minusLow holds
  // the negated low bound.
  lemma Negated(s: State, low: Rtx, minusLow: Rtx, first: int, negated: seq<Rtx>, tail: seq<Rtx>) returns (t: State)
    requires Below(low, first)
    requires if Is0(low, CONST_INT) then negated == [] && minusLow == ConstInt(-low.val)
      else minusLow == Reg(SI, first) && negated == [X2(SET, VOID, minusLow, X1(NEG, SI, low))]
    ensures Run(negated + tail, s) == Run(tail, t)
    ensures t.m.mem == s.m.mem && t.m.other == s.m.other && forall k | k < first :: t.m.reg(k) == s.m.reg(k)
    ensures Value(minusLow, t.m) == Wrap(-Value(low, s.m))
  {
    hide Execute;
    if Is0(low, CONST_INT) {
      t := s;
      assert negated + tail == tail;
    } else {
      t := Assign(s, first, Wrap(-Value(low, s.m)));
      NegatedStep(s, low, first);
      RunFirst(negated + tail, s);
      assert (negated + tail)[1..] == tail;
    }
  }

  lemma RegisterValue(m: Mode, n: int, s: State, v: int)
    requires Wrap(v) == v
    ensures Value(Reg(m, n), Assign(s, n, v).m) == v
  {}

  lemma LabelValue(table: Rtx, s: State, t: State)
    requires s.m.other == t.m.other
    ensures Value(Label(table), s.m) == Value(Label(table), t.m)
  {}

  function EntryAddress(n: int, table: Rtx): Rtx {
    X2(PLUS, SI, X2(MULT, SI, Reg(SI, n), ConstInt(2)), Label(table))
  }

  lemma AddressValue(n: int, table: Rtx, m: Machine)
    requires 0 <= m.reg(n) < WORD
    ensures Value(EntryAddress(n, table), m) == Wrap(Value(Label(table), m) + 2 * m.reg(n))
  {
    var x := X2(MULT, SI, Reg(SI, n), ConstInt(2));
    assert Value(Reg(SI, n), m) == m.reg(n) && Value(ConstInt(2), m) == 2;
    assert Value(x, m) == Wrap(2 * m.reg(n));
    WrapSum(2 * m.reg(n), Value(Label(table), m));
    hide Wrap;
  }

  // The insns after the low bound has been negated: d is the wrapped difference.
  lemma TailDispatches(s: State, selector: Rtx, minusLow: Rtx, range: Rtx, n: int, e: int, table: Rtx, default_: Rtx)
    requires n < e && Below(selector, n) && Below(range, n)
    ensures var d := Wrap(Value(selector, s.m) + Value(minusLow, s.m));
      Run(Casesi1(selector, minusLow, range, Reg(SI, n), default_)
          + Casesi2(Reg(HI, e), EntryAddress(n, table), table), s) ==
        if Value(range, s.m) < d then Goto(default_) else Through(TableTarget(table, d, s.m))
  {
    hide Value;
    hide Wrap;
    hide TableTarget;
    hide Casesi2;
    hide EntryAddress;
    hide SignExtend16;
    hide Below;
    var diff, d := Reg(SI, n), Wrap(Value(selector, s.m) + Value(minusLow, s.m));
    var jump := Casesi2(Reg(HI, e), EntryAddress(n, table), table);
    var code := Casesi1(selector, minusLow, range, diff, default_) + jump;
    SumValue(selector, minusLow, s.m);
    var s1 := Assign(s, n, d);
    ValueKept(range, n, s.m, s1.m);
    RegisterValue(SI, n, s, d);
    var s2 := State(s1.m, (Value(range, s.m), d));
    assert Execute(code[0], s) == Next(s1);
    assert Execute(code[1], s1) == Next(s2);
    RunThree(code, s, s1, s2);
    if Value(range, s.m) >= d {
      JumpsThrough(s2, n, e, d, table);
      SameTarget(table, d, s.m, s2.m);
      assert code[3..] == jump;
    }
  }

  lemma SumValue(a: Rtx, b: Rtx, m: Machine)
    ensures var d := Wrap(Value(a, m) + Value(b, m));
      Value(X2(PLUS, SI, a, b), m) == d && 0 <= d < WORD && Wrap(d) == d
  {}

  // Two insns that go on, then one that may jump.
  lemma RunThree(code: seq<Rtx>, s: State, s1: State, s2: State)
    requires |code| >= 3 && Execute(code[0], s) == Next(s1) && Execute(code[1], s1) == Next(s2)
    ensures Run(code, s) == match Execute(code[2], s2)
      case Next(t) => Run(code[3..], t)
      case o => o
  {
    hide Execute;
    RunFirst(code, s);
    RunFirst(code[1..], s1);
    RunFirst(code[2..], s2);
    assert code[1..][1..] == code[2..] && code[2..][1..] == code[3..];
  }

  lemma SameTarget(table: Rtx, d: int, m: Machine, after: Machine)
    requires m.mem == after.mem && m.other == after.other
    ensures TableTarget(table, d, m) == TableTarget(table, d, after)
  {}

  lemma MemoryValue(mode: Mode, a: Rtx, m: Machine)
    ensures var v := Wrap(m.mem(mode, Value(a, m))); Value(Mem(mode, a, false), m) == v && Wrap(v) == v
  {}

  lemma JumpsThrough(s: State, n: int, e: int, d: int, table: Rtx)
    requires s.m.reg(n) == d && 0 <= d < WORD
    ensures Run(Casesi2(Reg(HI, e), EntryAddress(n, table), table), s) == Through(TableTarget(table, d, s.m))
  {
    hide Value;
    hide Wrap;
    hide EntryAddress;
    var address := EntryAddress(n, table);
    var code := Casesi2(Reg(HI, e), address, table);
    var v := Wrap(s.m.mem(HI, Value(address, s.m)));
    AddressValue(n, table, s.m);
    MemoryValue(HI, address, s.m);
    var s1 := Assign(s, e, v);
    RegisterValue(HI, e, s, v);
    LabelValue(table, s, s1);
    RunFirst(code, s);
    RunFirst(code[1..], s1);
  }

  // One unsigned comparison of the wrapped difference tells whether v lies between lo
  // and lo + n.
  lemma Distance(v: int, lo: int, n: int)
    requires 0 <= v < WORD && 0 <= lo < WORD && 0 <= n < WORD && Arithmetic.Signed(SI, lo) + n < 0x8000_0000
    ensures var d := Wrap(v + Wrap(-lo));
      && (n < d <==> !(Arithmetic.Signed(SI, lo) <= Arithmetic.Signed(SI, v) <= Arithmetic.Signed(SI, lo) + n))
      && (n >= d ==> d == Arithmetic.Signed(SI, v) - Arithmetic.Signed(SI, lo))
  {
    WrapSum(-lo, v);
  }

  lemma ComparisonDispatches(code: seq<Rtx>, s: State, selector: Rtx, low: Rtx, range: Rtx, table: Rtx, default_: Rtx)
    requires var d := Wrap(Value(selector, s.m) + Wrap(-Value(low, s.m)));
      Run(code, s) == if Value(range, s.m) < d then Goto(default_) else Through(TableTarget(table, d, s.m))
    ensures Dispatches(code, s, selector, low, range, table, default_)
  {
    hide Value;
    hide Wrap;
    hide Run;
    hide TableTarget;
    ValueInRange(selector, s.m);
    ValueInRange(low, s.m);
    ValueInRange(range, s.m);
    var v, lo, n := Value(selector, s.m), Value(low, s.m), Value(range, s.m);
    if Arithmetic.Signed(SI, lo) + n < 0x8000_0000 { Distance(v, lo, n); }
  }

  lemma AllDispatches(s: State, selector: Rtx, low: Rtx, minusLow: Rtx, range: Rtx, first: int, n: int, e: int,
                      negated: seq<Rtx>, table: Rtx, default_: Rtx)
    requires first <= n < e && Below(selector, first) && Below(low, first) && Below(range, first)
    requires if Is0(low, CONST_INT) then negated == [] && minusLow == ConstInt(-low.val)
      else minusLow == Reg(SI, first) && negated == [X2(SET, VOID, minusLow, X1(NEG, SI, low))]
    ensures Dispatches(
        negated + (Casesi1(selector, minusLow, range, Reg(SI, n), default_)
          + Casesi2(Reg(HI, e), EntryAddress(n, table), table)),
        s, selector, low, range, table, default_)
  {
    hide Value;
    hide Wrap;
    hide Run;
    hide TableTarget;
    hide Casesi1;
    hide Casesi2;
    hide Below;
    hide EntryAddress;
    var tail := Casesi1(selector, minusLow, range, Reg(SI, n), default_)
      + Casesi2(Reg(HI, e), EntryAddress(n, table), table);
    BelowMore(selector, first, n);
    BelowMore(range, first, n);
    var t := Negated(s, low, minusLow, first, negated, tail);
    ValueKept(selector, first, s.m, t.m);
    ValueKept(range, first, s.m, t.m);
    TailDispatches(t, selector, minusLow, range, n, e, table, default_);
    SameTarget(table, Wrap(Value(selector, s.m) + Wrap(-Value(low, s.m))), s.m, t.m);
    ComparisonDispatches(negated + tail, s, selector, low, range, table, default_);
  }
}
