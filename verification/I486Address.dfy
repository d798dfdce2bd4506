// Addresses on the i486 (cmd/gcc/i486.gen/tm-i486.h): which are legitimate, what
// they add up to, and how an illegitimate one is rewritten.

module I486Address {
  import opened Common
  import opened Rtl
  import opened RtlValue

  const STACK_POINTER_REGNUM := 7
  const FIRST_PSEUDO_REGISTER := 10

  // --------------------------------------------------------------------------
  // Legitimacy

  // REG_OK_STRICT and reg_renumber.
  datatype Registers = Registers(strict: bool, renumber: int -> int)

  predicate IndexReg(n: int, r: Registers) {
    n < STACK_POINTER_REGNUM
    || if r.strict then 0 <= r.renumber(n) < STACK_POINTER_REGNUM else n >= FIRST_PSEUDO_REGISTER
  }

  predicate BaseReg(n: int, r: Registers) {
    n <= STACK_POINTER_REGNUM
    || if r.strict then 0 <= r.renumber(n) <= STACK_POINTER_REGNUM else n >= FIRST_PSEUDO_REGISTER
  }

  predicate LegitimateIndexReg(x: Rtx, r: Registers) { Is0(x, REG) && IndexReg(x.val, r) }

  predicate LegitimateIndex(x: Rtx, r: Registers) {
    || LegitimateIndexReg(x, r)
    || (Is2(x, MULT) && LegitimateIndexReg(x.left, r) && Is0(x.right, CONST_INT) && x.right.val in {2, 4, 8})
  }

  predicate IndexableBase(x: Rtx, r: Registers) { Is0(x, REG) && BaseReg(x.val, r) }

  // GO_IF_INDEXING
  predicate Indexing(x: Rtx, r: Registers) {
    || LegitimateIndex(x, r)
    || IndexableBase(x, r)
    || (Is2(x, PLUS) && LegitimateIndex(x.left, r) && IndexableBase(x.right, r))
    || (Is2(x, PLUS) && LegitimateIndex(x.right, r) && IndexableBase(x.left, r))
  }

  // GO_IF_LEGITIMATE_ADDRESS
  predicate Legitimate(x: Rtx, r: Registers) {
    || ConstantP(x)
    || Indexing(x, r)
    || (Is2(x, PLUS) && ConstantP(x.right) && Indexing(x.left, r))
    || (Is2(x, PLUS) && ConstantP(x.left) && Indexing(x.right, r))
  }

  // The addressing mode of the machine: base + index * scale + displacement, each optional.
  datatype Parts = Parts(base: Option<int>, index: Option<int>, scale: int, disp: Option<Rtx>)

  predicate Encodable(p: Parts, r: Registers) {
    && (p.base.Some? ==> BaseReg(p.base.value, r))
    && (p.index.Some? ==> IndexReg(p.index.value, r))
    && p.scale in {1, 2, 4, 8}
    && (p.disp.Some? ==> ConstantP(p.disp.value))
  }

  function BaseValue(p: Parts, m: Machine): int { if p.base.Some? then m.reg(p.base.value) % WORD else 0 }

  function IndexValue(p: Parts, m: Machine): int {
    if p.index.Some? then Wrap(m.reg(p.index.value) % WORD * p.scale) else 0
  }

  function DispValue(p: Parts, m: Machine): int { if p.disp.Some? then Value(p.disp.value, m) else 0 }

  function PartsValue(p: Parts, m: Machine): int { Wrap(BaseValue(p, m) + IndexValue(p, m) + DispValue(p, m)) }

  // XINT (x, 0) of a REG or a CONST_INT.
  function Number(x: Rtx): int { if x.X0? then x.val else 0 }

  function IndexParts(x: Rtx): Parts {
    if Is2(x, MULT) then Parts(None, Some(Number(x.left)), Number(x.right), None)
    else Parts(None, Some(Number(x)), 1, None)
  }

  function WithBase(p: Parts, b: int): Parts { Parts(Some(b), p.index, p.scale, p.disp) }

  function WithDisp(p: Parts, d: Rtx): Parts { Parts(p.base, p.index, p.scale, Some(d)) }

  function IndexingParts(x: Rtx, r: Registers): Parts {
    if LegitimateIndex(x, r) then IndexParts(x)
    else if !Is2(x, PLUS) then Parts(Some(Number(x)), None, 1, None)
    else if LegitimateIndex(x.left, r) && IndexableBase(x.right, r) then WithBase(IndexParts(x.left), Number(x.right))
    else WithBase(IndexParts(x.right), Number(x.left))
  }

  function AddressParts(x: Rtx, r: Registers): Parts {
    if ConstantP(x) then Parts(None, None, 1, Some(x))
    else if Indexing(x, r) || !Is2(x, PLUS) then IndexingParts(x, r)
    else if ConstantP(x.right) && Indexing(x.left, r) then WithDisp(IndexingParts(x.left, r), x.right)
    else WithDisp(IndexingParts(x.right, r), x.left)
  }

  lemma IndexDecomposes(x: Rtx, r: Registers, m: Machine)
    requires LegitimateIndex(x, r)
    ensures var p := IndexParts(x);
      Encodable(p, r) && p.base == None && p.disp == None && IndexValue(p, m) == Value(x, m)
  {
    hide Wrap;
    if Is2(x, MULT) {
      ScaledValue(x, m);
    } else {
      assert Value(x, m) == Wrap(m.reg(x.val));
      WordWraps(m.reg(x.val));
    }
  }

  lemma ScaledValue(x: Rtx, m: Machine)
    requires Is2(x, MULT) && Is0(x.left, REG) && Is0(x.right, CONST_INT) && x.right.val in {2, 4, 8}
    ensures Value(x, m) == Wrap(m.reg(x.left.val) % WORD * x.right.val)
  {
    hide Wrap;
    assert Value(x.left, m) == Wrap(m.reg(x.left.val)) && Value(x.right, m) == Wrap(x.right.val);
    WordWraps(m.reg(x.left.val));
    SmallWraps(x.right.val);
  }

  lemma WordWraps(v: int)
    ensures Wrap(v) == v % WORD && Wrap(v % WORD * 1) == v % WORD
  {}

  lemma SmallWraps(v: int)
    requires 0 <= v < 16
    ensures Wrap(v) == v
  {}

  lemma IndexingDecomposes(x: Rtx, r: Registers, m: Machine)
    requires Indexing(x, r)
    ensures var p := IndexingParts(x, r);
      Encodable(p, r) && p.disp == None && Wrap(BaseValue(p, m) + IndexValue(p, m)) == Value(x, m)
  {
    hide IndexParts;
    hide LegitimateIndex;
    ValueInRange(x, m);
    if LegitimateIndex(x, r) {
      IndexDecomposes(x, r, m);
    } else if Is2(x, PLUS) {
      if LegitimateIndex(x.left, r) && IndexableBase(x.right, r) { IndexDecomposes(x.left, r, m); }
      else { IndexDecomposes(x.right, r, m); }
    }
  }

  lemma WithDispMeans(y: Rtx, d: Rtx, r: Registers, m: Machine)
    requires Indexing(y, r) && ConstantP(d)
    ensures var p := WithDisp(IndexingParts(y, r), d);
      Encodable(p, r) && PartsValue(p, m) == Wrap(Value(y, m) + Value(d, m))
  {
    hide IndexingParts;
    hide Indexing;
    hide Wrap;
    IndexingDecomposes(y, r, m);
    var p := IndexingParts(y, r);
    WrapSum(BaseValue(p, m) + IndexValue(p, m), Value(d, m));
  }

  // A legitimate address is an addressing mode: at most a base and an index, no
  // stack pointer as index, a scale of 1, 2, 4 or 8, and the same sum.
  lemma LegitimateDecomposes(x: Rtx, r: Registers, m: Machine)
    requires Legitimate(x, r)
    ensures var p := AddressParts(x, r); Encodable(p, r) && PartsValue(p, m) == Value(x, m)
  {
    hide IndexingParts;
    hide Indexing;
    ValueInRange(x, m);
    if ConstantP(x) {
    } else if Indexing(x, r) {
      IndexingDecomposes(x, r, m);
    } else if ConstantP(x.right) && Indexing(x.left, r) {
      WithDispMeans(x.left, x.right, r, m);
    } else {
      WithDispMeans(x.right, x.left, r, m);
    }
  }

  // The usual rtx of an addressing mode with a base or an index.
  function IndexRtx(p: Parts): Rtx
    requires p.index.Some?
  {
    if p.scale == 1 then Reg(SI, p.index.value) else X2(MULT, SI, Reg(SI, p.index.value), ConstInt(p.scale))
  }

  function RegistersRtx(p: Parts): Rtx
    requires p.base.Some? || p.index.Some?
  {
    if p.base.None? then IndexRtx(p)
    else if p.index.None? then Reg(SI, p.base.value)
    else X2(PLUS, SI, IndexRtx(p), Reg(SI, p.base.value))
  }

  function AddressRtx(p: Parts): Rtx {
    if p.base.None? && p.index.None? then if p.disp.Some? then p.disp.value else ConstInt(0)
    else if p.disp.None? then RegistersRtx(p)
    else X2(PLUS, SI, RegistersRtx(p), p.disp.value)
  }

  lemma RegistersRtxMeans(p: Parts, r: Registers, m: Machine)
    requires Encodable(p, r) && (p.base.Some? || p.index.Some?)
    ensures var y := RegistersRtx(p);
      Indexing(y, r) && Value(y, m) == Wrap(BaseValue(p, m) + IndexValue(p, m))
  {
    if p.index.Some? { assert Value(IndexRtx(p), m) == IndexValue(p, m); }
    hide IndexRtx;
  }

  // Every addressing mode of the machine is a legitimate address.
  lemma ModesAreLegitimate(p: Parts, r: Registers, m: Machine)
    requires Encodable(p, r)
    ensures Legitimate(AddressRtx(p), r) && Value(AddressRtx(p), m) == PartsValue(p, m)
  {
    hide RegistersRtx;
    hide Indexing;
    if p.disp.Some? { ValueInRange(p.disp.value, m); }
    if p.base.Some? || p.index.Some? {
      RegistersRtxMeans(p, r, m);
      WrapSum(BaseValue(p, m) + IndexValue(p, m), DispValue(p, m));
    }
  }

  // The hard registers that can be a base are the eight general ones, and an index all
  // but the stack pointer; before reload every pseudo register can be either, and with
  // strict checking it is what its hard register is.
  lemma HardRegisterRoles(n: int, r: Registers)
    requires 0 <= n < FIRST_PSEUDO_REGISTER && (r.strict ==> r.renumber(n) < 0)
    ensures BaseReg(n, r) <==> n in {0, 1, 2, 3, 4, 5, 6, 7}
    ensures IndexReg(n, r) <==> n in {0, 1, 2, 3, 4, 5, 6}
  {}

  lemma PseudoRegisters(n: int, r: Registers)
    requires n >= FIRST_PSEUDO_REGISTER
    ensures !r.strict ==> BaseReg(n, r) && IndexReg(n, r)
    ensures r.strict && 0 <= r.renumber(n) < 8 ==> BaseReg(n, r) && (IndexReg(n, r) <==> r.renumber(n) != 7)
    ensures r.strict && r.renumber(n) < 0 ==> !BaseReg(n, r) && !IndexReg(n, r)
  {}

  // --------------------------------------------------------------------------
  // Rewriting

  // The insns an address rewrite emits: each sets a fresh pseudo register.
  datatype Move = Move(target: int, source: Rtx)

  function Run(moves: seq<Move>, m: Machine): Machine {
    if moves == [] then m
    else
      var before := Run(moves[..|moves| - 1], m);
      var move := moves[|moves| - 1];
      var v := Value(move.source, before);
      Machine((n: int) => if n == move.target then v else before.reg(n), before.mem, before.other)
  }

  // Moves that set only registers from lo up to hi, from registers below hi.
  predicate Fresh(moves: seq<Move>, lo: int, hi: int) {
    forall i | 0 <= i < |moves| :: lo <= moves[i].target < hi && Below(moves[i].source, hi)
  }

  lemma {:induction false} OldRegisters(moves: seq<Move>, lo: int, hi: int, m: Machine)
    requires Fresh(moves, lo, hi)
    ensures forall n | n < lo :: Run(moves, m).reg(n) == m.reg(n)
    ensures Run(moves, m).mem == m.mem && Run(moves, m).other == m.other
  {
    if moves != [] { OldRegisters(moves[..|moves| - 1], lo, hi, m); }
  }

  lemma {:induction false} RunAppend(a: seq<Move>, b: seq<Move>, m: Machine)
    ensures Run(a + b, m) == Run(b, Run(a, m))
    decreases |b|
  {
    if b == [] {
      assert a + b == a;
    } else {
      var i := |b| - 1;
      assert (a + b)[..|a + b| - 1] == a + b[..i];
      RunAppend(a, b[..i], m);
    }
  }

  // After the moves, x has the value y had before them.
  ghost predicate SameValue(x: Rtx, y: Rtx, moves: seq<Move>) {
    forall m: Machine :: Value(x, Run(moves, m)) == Value(y, m)
  }

  lemma SameTwice(x: Rtx, y: Rtx, z: Rtx, a: seq<Move>, b: seq<Move>)
    requires SameValue(y, x, a) && SameValue(z, y, b)
    ensures SameValue(z, x, a + b)
  {
    forall m: Machine ensures Value(z, Run(a + b, m)) == Value(x, m) {
      RunAppend(a, b, m);
      assert Value(z, Run(b, Run(a, m))) == Value(y, Run(a, m));
    }
  }

  // Replacing one operand of a sum by an equal one, when the other names old registers only.
  lemma SumKept(x: Rtx, a: Rtx, b: Rtx, moves: seq<Move>, lo: int, hi: int)
    requires Is2(x, PLUS) && Below(x, lo) && Fresh(moves, lo, hi)
    requires (SameValue(a, x.left, moves) && b == x.right) || (SameValue(b, x.right, moves) && a == x.left)
    ensures SameValue(X2(PLUS, x.mode, a, b), x, moves)
  {
    hide Value;
    hide Wrap;
    hide Run;
    hide Fresh;
    forall m: Machine ensures Value(X2(PLUS, x.mode, a, b), Run(moves, m)) == Value(x, m) {
      var after := Run(moves, m);
      OldRegisters(moves, lo, hi, m);
      ValueKept(x.left, lo, m, after);
      ValueKept(x.right, lo, m, after);
      SumValue(x, m);
      SumValue(X2(PLUS, x.mode, a, b), after);
    }
  }

  lemma SumValue(x: Rtx, m: Machine)
    requires Is2(x, PLUS)
    ensures Value(x, m) == Wrap(Value(x.left, m) + Value(x.right, m))
  {}

  class Emitter {
    var next: int         // the next pseudo register
    var moves: seq<Move>  // the insns emitted so far

    // Since next was lo and moves was before, only fresh registers have been set.
    ghost predicate Grown(lo: int, before: seq<Move>)
      reads this
    {
      FIRST_PSEUDO_REGISTER <= lo <= next && before <= moves && Fresh(moves[|before|..], lo, next)
    }

    // x is what has become of y since then.
    ghost predicate Rewritten(x: Rtx, y: Rtx, lo: int, before: seq<Move>)
      reads this
    {
      Grown(lo, before) && Below(x, next) && SameValue(x, y, moves[|before|..])
    }

    // gen_reg_rtx (Pmode)
    method NewReg() returns (r: Rtx)
      modifies this
      ensures next == old(next) + 1 && moves == old(moves) && r == Reg(SI, old(next))
    {
      r := Reg(SI, next);
      next := next + 1;
    }

    // emit_move_insn
    method EmitMove(target: int, source: Rtx)
      modifies this
      ensures next == old(next) && moves == old(moves) + [Move(target, source)]
    {
      moves := moves + [Move(target, source)];
    }

    // Set the register target, which is the newest, to value.
    method Load(target: Rtx, value: Rtx)
      requires next > FIRST_PSEUDO_REGISTER && target == Reg(SI, next - 1) && Below(value, next - 1)
      modifies this
      ensures next == old(next) && Rewritten(target, value, old(next) - 1, old(moves))
    {
      BelowMore(value, next - 1, next);
      EmitMove(target.val, value);
      ghost var load := [Move(target.val, value)];
      assert moves[|old(moves)|..] == load;
      forall m: Machine ensures Value(target, Run(load, m)) == Value(value, m) {
        assert load[..0] == [];
        ValueInRange(value, m);
      }
    }

    // force_operand (value, 0): sums, differences and products go to a register; the
    // register and its insns are all a caller may rely on.
    method ForceOperand(value: Rtx) returns (r: Rtx)
      requires next >= FIRST_PSEUDO_REGISTER && Below(value, next)
      modifies this
      ensures Rewritten(r, value, old(next), old(moves))
      ensures Is2(value, MULT) ==> NewRegister(r)
    {
      if Is2(value, PLUS) || Is2(value, MINUS) || Is2(value, MULT) {
        r := NewReg();
        Load(r, value);
      } else {
        r := value;
        assert moves[|old(moves)|..] == [];
      }
    }

    // The left operand of a sum is computed into a register if need be.
    method ForceLeft(x: Rtx) returns (y: Rtx)
      requires next >= FIRST_PSEUDO_REGISTER && Is2(x, PLUS) && Below(x, next)
      modifies this
      ensures Rewritten(y, x, old(next), old(moves)) && Is2(y, PLUS) && y.right == x.right
      ensures Is2(x.left, MULT) ==> NewRegister(y.left)
    {
      var a := ForceOperand(x.left);
      y := X2(PLUS, x.mode, a, x.right);
      SumKept(x, a, x.right, moves[|old(moves)|..], old(next), next);
      BelowMore(x.right, old(next), next);
    }

    method ForceRight(x: Rtx) returns (y: Rtx)
      requires next >= FIRST_PSEUDO_REGISTER && Is2(x, PLUS) && Below(x, next)
      modifies this
      ensures Rewritten(y, x, old(next), old(moves)) && Is2(y, PLUS) && y.left == x.left
      ensures Is2(x.right, MULT) ==> NewRegister(y.right)
    {
      var b := ForceOperand(x.right);
      y := X2(PLUS, x.mode, x.left, b);
      SumKept(x, x.left, b, moves[|old(moves)|..], old(next), next);
      BelowMore(x.left, old(next), next);
    }

    // The right operand of a sum is computed into a new register, which takes its place.
    method LoadRight(x: Rtx) returns (y: Rtx)
      requires next >= FIRST_PSEUDO_REGISTER && Is2(x, PLUS) && Below(x, next)
      modifies this
      ensures Rewritten(y, x, old(next), old(moves))
      ensures Is2(y, PLUS) && y.left == x.left && NewRegister(y.right)
    {
      var temp := NewReg();
      Load(temp, x.right);
      y := X2(PLUS, x.mode, x.left, temp);
      SumKept(x, x.left, temp, moves[|old(moves)|..], old(next), next);
      BelowMore(x.left, old(next), next);
    }

    method LoadLeft(x: Rtx) returns (y: Rtx)
      requires next >= FIRST_PSEUDO_REGISTER && Is2(x, PLUS) && Below(x, next)
      modifies this
      ensures Rewritten(y, x, old(next), old(moves))
      ensures Is2(y, PLUS) && y.right == x.right && NewRegister(y.left)
    {
      var temp := NewReg();
      Load(temp, x.left);
      y := X2(PLUS, x.mode, temp, x.right);
      SumKept(x, temp, x.right, moves[|old(moves)|..], old(next), next);
      BelowMore(x.right, old(next), next);
    }

    // With no insns everything keeps its value.
    lemma SameAsBefore(x: Rtx, n: int)
      ensures SameValue(x, x, []) && Fresh([], n, n)
    {}

    lemma Compose(x: Rtx, y: Rtx, z: Rtx, lo: int, mid: int, before: seq<Move>, middle: seq<Move>)
      requires FIRST_PSEUDO_REGISTER <= lo <= mid && before <= middle
      requires Fresh(middle[|before|..], lo, mid) && SameValue(y, x, middle[|before|..])
      requires Rewritten(z, y, mid, middle)
      ensures Rewritten(z, x, lo, before)
    {
      var a, b := middle[|before|..], moves[|middle|..];
      assert moves[|before|..] == a + b;
      SameTwice(x, y, z, a, b);
      forall i | 0 <= i < |a| ensures lo <= a[i].target < next && Below(a[i].source, next) {
        BelowMore(a[i].source, mid, next);
      }
    }

    // The last step: beside a register operand, the other operand is loaded.
    method LoadOther(x: Rtx) returns (y: Rtx, done: bool)
      requires next >= FIRST_PSEUDO_REGISTER && Is2(x, PLUS) && Below(x, next)
      modifies this
      ensures done <==> KeptOperand(x.left) || KeptOperand(x.right)
      ensures if done then Rewritten(y, x, old(next), old(moves))
        else y == x && moves == old(moves) && next == old(next)
      ensures Is2(y, PLUS)
      ensures KeptOperand(x.left) ==> y.left == x.left && NewRegister(y.right)
      ensures !KeptOperand(x.left) && KeptOperand(x.right) ==> y.right == x.right && NewRegister(y.left)
    {
      if Is0(x.left, REG) || HalfwordReg(x.left) {
        y := LoadRight(x);
        done := true;
      } else if Is0(x.right, REG) || HalfwordReg(x.right) {
        y := LoadLeft(x);
        done := true;
      } else {
        y, done := x, false;
      }
    }

    // The first step: products in a sum are computed into registers.
    method ForceProducts(x0: Rtx) returns (x: Rtx, product: bool)
      requires next >= FIRST_PSEUDO_REGISTER && Is2(x0, PLUS) && Below(x0, next)
      modifies this
      ensures Rewritten(x, x0, old(next), old(moves)) && Is2(x, PLUS)
      ensures Forced(x.left, x0.left) && Forced(x.right, x0.right)
      ensures product == HasProduct(x0)
      ensures !product ==> x == x0 && moves == old(moves) && next == old(next)
    {
      hide SameValue;
      hide Fresh;
      hide Below;
      SameAsBefore(x0, next);
      assert moves[|old(moves)|..] == [];
      x, product := x0, false;
      if Is2(x.left, MULT) {
        x := ForceLeft(x);
        product := true;
      }
      if Is2(x.right, MULT) {
        ghost var mid, middle, y := next, moves, x;
        x := ForceRight(x);
        Compose(x0, y, x, old(next), mid, old(moves), middle);
        product := true;
      }
    }

    // LEGITIMIZE_ADDRESS.  changed says that X is not OLDX; done that the macro
    // returned X or found it legitimate.
    method Legitimize(x0: Rtx, changed: bool, r: Registers) returns (x: Rtx, done: bool)
      requires next >= FIRST_PSEUDO_REGISTER && Below(x0, next)
      modifies this
      ensures Rewritten(x, x0, old(next), old(moves))
      ensures !r.strict ==> done == Rewritable(x0, changed, r)
      ensures !r.strict && done ==> (Legitimate(x, r) <==> BecomesLegitimate(x0, changed, r))
      ensures !Is2(x0, PLUS) ==> x == x0 && !done
      ensures !done ==> x == x0 && moves == old(moves) && next == old(next)
    {
      hide Legitimate;
      hide SameValue;
      hide Fresh;
      hide Below;
      hide BecomesLegitimate;
      x, done := x0, false;
      SameAsBefore(x0, next);
      assert moves[|old(moves)|..] == [];
      if !Is2(x, PLUS) { return; }
      var product;
      x, product := ForceProducts(x);
      ghost var mid, middle, y := next, moves, x;
      Stands(x0, y, changed, r);
      var ch := changed || product;
      if ch && Is0(x.right, REG) && Is0(x.left, REG) { return x, true; }
      if ch && Legitimate(x, r) { return x, true; }
      x, done := LoadOther(x);
      if done {
        Loaded(x0, y, x, changed, r);
        Compose(x0, y, x, old(next), mid, old(moves), middle);
      }
    }
  }

  predicate HasProduct(x: Rtx)
    requires Is2(x, PLUS)
  {
    Is2(x.left, MULT) || Is2(x.right, MULT)
  }

  // What becomes of a sum that is returned with its products computed.
  lemma Stands(x0: Rtx, y: Rtx, changed: bool, r: Registers)
    requires Is2(x0, PLUS) && Is2(y, PLUS) && Forced(y.left, x0.left) && Forced(y.right, x0.right)
    requires !HasProduct(x0) ==> y == x0
    ensures !r.strict && (changed || HasProduct(x0)) ==>
        (Is0(y.left, REG) && Is0(y.right, REG)) || Legitimate(y, r) ==>
        Rewritable(x0, changed, r) && (Legitimate(y, r) <==> BecomesLegitimate(x0, changed, r))
  {
    hide Legitimate;
    hide IndexReg;
    hide BaseReg;
    FormsLegitimate(y.mode, y.left, y.right, r);
  }

  // What becomes of a sum one of whose operands is loaded.
  lemma Loaded(x0: Rtx, y: Rtx, z: Rtx, changed: bool, r: Registers)
    requires Is2(x0, PLUS) && Is2(y, PLUS) && Forced(y.left, x0.left) && Forced(y.right, x0.right)
    requires !HasProduct(x0) ==> y == x0
    requires changed || HasProduct(x0) ==> !(Is0(y.left, REG) && Is0(y.right, REG)) && !Legitimate(y, r)
    requires Is2(z, PLUS) && (KeptOperand(y.left) || KeptOperand(y.right))
    requires if KeptOperand(y.left) then z.left == y.left && NewRegister(z.right)
      else z.right == y.right && NewRegister(z.left)
    ensures !r.strict ==> (Legitimate(z, r) <==> BecomesLegitimate(x0, changed, r))
  {
    hide Legitimate;
    hide IndexReg;
    hide BaseReg;
    FormsLegitimate(y.mode, y.left, y.right, r);
    FormsLegitimate(z.mode, z.left, z.right, r);
  }

  // A register operand of a sum that is kept while the other one is loaded.
  predicate KeptOperand(x: Rtx) { Is0(x, REG) || HalfwordReg(x) }

  predicate HalfwordReg(x: Rtx) { Is1(x, SIGN_EXTEND) && Is0(x.arg, REG) && x.arg.mode == HI }

  predicate NewRegister(x: Rtx) { Is0(x, REG) && x.val >= FIRST_PSEUDO_REGISTER }

  // x stands for the operand y of a sum once products have been computed.
  predicate Forced(x: Rtx, y: Rtx) { if Is2(y, MULT) then NewRegister(x) else x == y }

  // An operand that is, or is computed into, a register; one that may then be the
  // base; one that may be the index.
  predicate InRegister(x: Rtx) { Is0(x, REG) || Is2(x, MULT) }

  predicate AsBase(x: Rtx, r: Registers) { Is2(x, MULT) || (Is0(x, REG) && BaseReg(x.val, r)) }

  predicate AsIndex(x: Rtx, r: Registers) { Is2(x, MULT) || (Is0(x, REG) && IndexReg(x.val, r)) }

  // The sums the macro rewrites or finds legitimate.
  predicate Rewritable(x: Rtx, changed: bool, r: Registers) {
    && Is2(x, PLUS)
    && (InRegister(x.left) || HalfwordReg(x.left) || InRegister(x.right) || HalfwordReg(x.right)
        || (changed && Legitimate(x, r)))
  }

  // A sum with a product in it, or one the caller has changed, stands as it is when
  // both operands are registers or when it is legitimate.  Otherwise the first
  // register operand is kept and has to be a possible base; a sign-extended halfword
  // is none.
  predicate BecomesLegitimate(x: Rtx, changed: bool, r: Registers)
    requires Is2(x, PLUS)
  {
    var a, b := x.left, x.right;
    var product := HasProduct(x);
    if (changed || product) && InRegister(a) && InRegister(b) then
      (AsIndex(a, r) && AsBase(b, r)) || (AsIndex(b, r) && AsBase(a, r))
    else if product && (ConstantP(a) || ConstantP(b)) then true
    else if changed && !product && Legitimate(x, r) then true
    else if InRegister(a) || HalfwordReg(a) then AsBase(a, r)
    else AsBase(b, r)
  }

  // Which sums of the forms the macro leaves are legitimate.
  lemma FormsLegitimate(m: Mode, a: Rtx, b: Rtx, r: Registers)
    ensures Is0(a, REG) && Is0(b, REG) ==> (Legitimate(X2(PLUS, m, a, b), r) <==>
        (IndexReg(a.val, r) && BaseReg(b.val, r)) || (IndexReg(b.val, r) && BaseReg(a.val, r)))
    ensures !r.strict && NewRegister(a) ==> IndexReg(a.val, r) && BaseReg(a.val, r)
    ensures !r.strict && NewRegister(b) ==> IndexReg(b.val, r) && BaseReg(b.val, r)
    ensures Is0(a, REG) && IndexReg(a.val, r) ==> !r.strict ==> BaseReg(a.val, r)
    ensures Is0(b, REG) && IndexReg(b.val, r) ==> !r.strict ==> BaseReg(b.val, r)
    ensures HalfwordReg(a) && Is0(b, REG) ==> !Legitimate(X2(PLUS, m, a, b), r)
    ensures HalfwordReg(b) && Is0(a, REG) ==> !Legitimate(X2(PLUS, m, a, b), r)
    ensures !r.strict && NewRegister(a) && !Is0(b, REG) && !Is2(b, MULT) ==>
        (Legitimate(X2(PLUS, m, a, b), r) <==> ConstantP(b))
    ensures !r.strict && NewRegister(b) && !Is0(a, REG) && !Is2(a, MULT) ==>
        (Legitimate(X2(PLUS, m, a, b), r) <==> ConstantP(a))
  {}

  // Two sums that are rewritten and stay illegitimate: a sign-extended halfword and
  // a further sum, and the stack pointer twice.
  lemma HalfwordStaysIllegitimate(changed: bool, r: Registers)
    requires !r.strict
    ensures var x := X2(PLUS, SI, X1(SIGN_EXTEND, SI, Reg(HI, 10)), X2(PLUS, SI, Reg(SI, 11), Reg(SI, 12)));
      Rewritable(x, changed, r) && !BecomesLegitimate(x, changed, r)
  {}

  lemma StackPointerTwiceStaysIllegitimate(r: Registers)
    requires !r.strict
    ensures var sp := Reg(SI, STACK_POINTER_REGNUM); var x := X2(PLUS, SI, sp, sp);
      Rewritable(x, true, r) && !BecomesLegitimate(x, true, r)
  {}
}
