// Frame-pointer elimination on the i486 (FIX_FRAME_POINTER_ADDRESS in
// cmd/gcc/i486.gen/tm-i486.h) and plus_constant (cmd/gcc/src/explow.c).

module I486Frame {
  import opened Rtl
  import opened RtlValue
  import opened I486Address

  const FRAME_POINTER_REGNUM := 6
  const FIRST_FLOAT_REG := 8
  const FRAME_POINTER_RTX := Reg(SI, FRAME_POINTER_REGNUM)
  const STACK_POINTER_RTX := Reg(SI, STACK_POINTER_REGNUM)

  // --------------------------------------------------------------------------
  // plus_constant, built without OLD_INDEXING

  function PlusConstant(x: Rtx, c: int): Rtx {
    if c == 0 then x
    else if Is0(x, CONST_INT) then ConstInt(x.val + c)
    else
      var constant := Is1(x, CONST) || Is0(x, SYMBOL_REF) || Is1(x, LABEL_REF);
      var y := if Is1(x, CONST) then x.arg else x;
      if !Is2(y, PLUS) then Finish(y, c, x.mode, constant)
      else if Is0(y.left, CONST_INT) then Finish(y.right, c + y.left.val, x.mode, constant)
      else if Is0(y.right, CONST_INT) then Finish(y.left, c + y.right.val, x.mode, constant)
      else if ConstantP(y.left) then X2(PLUS, x.mode, PlusConstant(y.left, c), y.right)
      else if ConstantP(y.right) then X2(PLUS, x.mode, y.left, PlusConstant(y.right, c))
      else Finish(y, c, x.mode, constant)
  }

  function Finish(x: Rtx, c: int, mode: Mode, constant: bool): Rtx {
    var z := if c != 0 then X2(PLUS, mode, x, ConstInt(c)) else x;
    if Is0(z, SYMBOL_REF) || Is1(z, LABEL_REF) || !constant then z else X1(CONST, mode, z)
  }

  lemma ConstantValue(x: Rtx, m: Machine)
    ensures Is0(x, CONST_INT) ==> Value(x, m) == Wrap(x.val)
    ensures Is1(x, CONST) ==> Value(x, m) == Value(x.arg, m)
    ensures Wrap(Value(x, m)) == Value(x, m)
  {}

  lemma SumValue(y: Rtx, m: Machine)
    requires Is2(y, PLUS)
    ensures Value(y, m) == Wrap(Value(y.left, m) + Value(y.right, m))
  {}

  lemma FinishValue(x: Rtx, c: int, mode: Mode, constant: bool, m: Machine)
    ensures Value(Finish(x, c, mode, constant), m) == Wrap(Value(x, m) + c)
  {
    hide Value;
    hide Wrap;
    ConstantValue(x, m);
    ConstantValue(ConstInt(c), m);
    SumValue(X2(PLUS, mode, x, ConstInt(c)), m);
    WrapSum(c, Value(x, m));
    ConstantValue(X1(CONST, mode, X2(PLUS, mode, x, ConstInt(c))), m);
    ConstantValue(X1(CONST, mode, x), m);
  }

  lemma {:induction false} PlusConstantValue(x: Rtx, c: int, m: Machine)
    ensures Value(PlusConstant(x, c), m) == Wrap(Value(x, m) + c)
    decreases x, 1
  {
    hide Value;
    hide Wrap;
    hide Finish;
    ConstantValue(x, m);
    if c == 0 {
    } else if Is0(x, CONST_INT) {
      ConstantValue(ConstInt(x.val + c), m);
      WrapSum(x.val, c);
    } else {
      var constant := Is1(x, CONST) || Is0(x, SYMBOL_REF) || Is1(x, LABEL_REF);
      var y := if Is1(x, CONST) then x.arg else x;
      FinishValue(y, c, x.mode, constant, m);
      if Is2(y, PLUS) { PlusConstantSum(x, y, c, constant, m); }
    }
  }

  // The argument is the sum y, or y inside a CONST.
  lemma {:induction false} PlusConstantSum(x: Rtx, y: Rtx, c: int, constant: bool, m: Machine)
    requires c != 0 && Is2(y, PLUS) && y == (if Is1(x, CONST) then x.arg else x) && !Is0(x, CONST_INT)
    requires constant == (Is1(x, CONST) || Is0(x, SYMBOL_REF) || Is1(x, LABEL_REF))
    requires Value(x, m) == Value(y, m)
    requires Value(Finish(y, c, x.mode, constant), m) == Wrap(Value(y, m) + c)
    ensures Value(PlusConstant(x, c), m) == Wrap(Value(x, m) + c)
    decreases x, 0
  {
    hide Value;
    hide Wrap;
    hide Finish;
    SumValue(y, m);
    var a, b := Value(y.left, m), Value(y.right, m);
    WrapSum(a + b, c);
    if Is0(y.left, CONST_INT) {
      FinishValue(y.right, c + y.left.val, x.mode, constant, m);
      ConstantValue(y.left, m);
      WrapSum(y.left.val, b);
      WrapSum(y.left.val + b, c);
    } else if Is0(y.right, CONST_INT) {
      FinishValue(y.left, c + y.right.val, x.mode, constant, m);
      ConstantValue(y.right, m);
      WrapSum(y.right.val, a);
      WrapSum(y.right.val + a, c);
    } else if ConstantP(y.left) {
      PlusConstantValue(y.left, c, m);
      SumValue(X2(PLUS, x.mode, PlusConstant(y.left, c), y.right), m);
      WrapSum(a + c, b);
    } else if ConstantP(y.right) {
      PlusConstantValue(y.right, c, m);
      SumValue(X2(PLUS, x.mode, y.left, PlusConstant(y.right, c)), m);
      WrapSum(b + c, a);
    }
  }

  // --------------------------------------------------------------------------
  // Which registers an expression names

  predicate Names(x: Rtx, n: int) {
    match x
    case X0(c, _, v) => c == REG && v == n
    case X1(c, _, a) => c != LABEL_REF && Names(a, n)
    case X2(_, _, a, b) => Names(a, n) || Names(b, n)
    case X3(_, _, a, b, c) => Names(a, n) || Names(b, n) || Names(c, n)
    case Mem(_, a, _) => Names(a, n)
    case Subreg(_, a, _) => Names(a, n)
    case Parallel(_, v) => exists i | 0 <= i < |v| :: Names(v[i], n)
  }

  lemma FinishNames(x: Rtx, c: int, mode: Mode, constant: bool, n: int)
    ensures Names(Finish(x, c, mode, constant), n) <==> Names(x, n)
  {
    assert Names(X2(PLUS, mode, x, ConstInt(c)), n) <==> Names(x, n);
  }

  // Adding a constant leaves the registers as they are.
  lemma {:induction false} PlusConstantNames(x: Rtx, c: int, n: int)
    ensures Names(PlusConstant(x, c), n) <==> Names(x, n)
  {
    hide Finish;
    if c != 0 && !Is0(x, CONST_INT) {
      var constant := Is1(x, CONST) || Is0(x, SYMBOL_REF) || Is1(x, LABEL_REF);
      var y := if Is1(x, CONST) then x.arg else x;
      FinishNames(y, c, x.mode, constant, n);
      if Is2(y, PLUS) {
        if Is0(y.left, CONST_INT) { FinishNames(y.right, c + y.left.val, x.mode, constant, n); }
        else if Is0(y.right, CONST_INT) { FinishNames(y.left, c + y.right.val, x.mode, constant, n); }
        else if ConstantP(y.left) { PlusConstantNames(y.left, c, n); }
        else if ConstantP(y.right) { PlusConstantNames(y.right, c, n); }
      }
    }
  }

  // A constant stays one, but for a CONST that loses its code: the constant is then
  // added to a term of the sum inside it.
  predicate LosesConst(x: Rtx) {
    && Is1(x, CONST) && Is2(x.arg, PLUS)
    && !Is0(x.arg.left, CONST_INT) && !Is0(x.arg.right, CONST_INT)
    && (ConstantP(x.arg.left) || ConstantP(x.arg.right))
  }

  lemma PlusConstantConstant(x: Rtx, c: int)
    requires ConstantP(x)
    ensures ConstantP(PlusConstant(x, c)) <==> c == 0 || !LosesConst(x)
  {}

  // --------------------------------------------------------------------------
  // FIX_FRAME_POINTER_ADDRESS

  // regs_ever_live and call_used_regs.
  datatype Usage = Usage(live: seq<bool>, callUsed: seq<bool>)

  predicate Complete(u: Usage) { |u.live| == |u.callUsed| == FIRST_PSEUDO_REGISTER }

  // The bytes the prologue saves for registers lo up to hi, size bytes each.
  function SavedBytes(u: Usage, lo: int, hi: int, size: int): int
    requires Complete(u) && 0 <= lo <= FIRST_PSEUDO_REGISTER && hi <= FIRST_PSEUDO_REGISTER
    decreases hi - lo
  {
    if hi <= lo then 0
    else SavedBytes(u, lo, hi - 1, size) + if u.live[hi - 1] && !u.callUsed[hi - 1] then size else 0
  }

  // Float registers take 8 bytes, the others 4.
  function Saved(u: Usage): int
    requires Complete(u)
  {
    SavedBytes(u, FIRST_FLOAT_REG, FIRST_PSEUDO_REGISTER, 8) + SavedBytes(u, 0, FIRST_FLOAT_REG, 4)
  }

  // What the count means: four bytes for each live general register that calls keep
  // and eight for each such float register.
  ghost function Kept(u: Usage, lo: int, hi: int): set<int>
    requires Complete(u) && 0 <= lo && hi <= FIRST_PSEUDO_REGISTER
  {
    set r | lo <= r < hi && u.live[r] && !u.callUsed[r]
  }

  lemma {:induction false} SavedBytesCount(u: Usage, lo: int, hi: int, size: int)
    requires Complete(u) && 0 <= lo <= hi <= FIRST_PSEUDO_REGISTER
    ensures SavedBytes(u, lo, hi, size) == size * |Kept(u, lo, hi)|
    decreases hi - lo
  {
    if lo == hi {
      assert Kept(u, lo, hi) == {};
    } else {
      SavedBytesCount(u, lo, hi - 1, size);
      var before := Kept(u, lo, hi - 1);
      if u.live[hi - 1] && !u.callUsed[hi - 1] {
        assert Kept(u, lo, hi) == before + {hi - 1};
        assert size * (|before| + 1) == size * |before| + size;
      } else {
        assert Kept(u, lo, hi) == before;
      }
    }
  }

  lemma SavedCount(u: Usage)
    requires Complete(u)
    ensures Saved(u) == 4 * |Kept(u, 0, 8)| + 8 * |Kept(u, 8, 10)|
  {
    SavedBytesCount(u, FIRST_FLOAT_REG, FIRST_PSEUDO_REGISTER, 8);
    SavedBytesCount(u, 0, FIRST_FLOAT_REG, 4);
  }

  // The six shapes: an offset (negative when the address is not one of them) and the
  // registers that take the place of the frame pointer.
  function Shape(x: Rtx): (int, Rtx) {
    if x == FRAME_POINTER_RTX then (0, STACK_POINTER_RTX)
    else if !Is2(x, PLUS) then (-1, STACK_POINTER_RTX)
    else if x.left == FRAME_POINTER_RTX && Is0(x.right, CONST_INT) then (x.right.val, STACK_POINTER_RTX)
    else if x.left == FRAME_POINTER_RTX then (0, WithStackPointer(x.right))
    else if x.right == FRAME_POINTER_RTX then (0, WithStackPointer(x.left))
    else if Is2(x.left, PLUS) && x.left.left == FRAME_POINTER_RTX && Is0(x.right, CONST_INT) then
      (x.right.val, WithStackPointer(x.left.right))
    else if Is2(x.left, PLUS) && x.left.right == FRAME_POINTER_RTX && Is0(x.right, CONST_INT) then
      (x.right.val, WithStackPointer(x.left.left))
    else (-1, STACK_POINTER_RTX)
  }

  function WithStackPointer(other: Rtx): Rtx { X2(PLUS, SI, STACK_POINTER_RTX, other) }

  // The address still names the frame pointer: it is not one of the shapes, or its
  // other register is the frame pointer too or is addressed through it.
  predicate FramePointerStays(x: Rtx) {
    Names(if Shape(x).0 < 0 then x else Shape(x).1, FRAME_POINTER_REGNUM)
  }

  // Where the frame pointer would be: above the depth pushed so far and the saved
  // registers, less the word the frame pointer itself would take.
  predicate FrameAt(m: Machine, u: Usage, depth: int)
    requires Complete(u)
  {
    m.reg(FRAME_POINTER_REGNUM) % WORD == Wrap(m.reg(STACK_POINTER_REGNUM) + depth + Saved(u) - 4)
  }

  method FixFramePointerAddress(addr: Rtx, depth: int, u: Usage) returns (x: Rtx)
    requires Complete(u)
    ensures Shape(addr).0 < 0 ==> x == addr
    ensures Shape(addr).0 >= 0 ==> x == PlusConstant(Shape(addr).1, Shape(addr).0 + Saved(u) - 4 + depth)
    ensures forall m: Machine :: FrameAt(m, u, depth) ==> Value(x, m) == Value(addr, m)
    ensures Shape(addr).0 >= 0 ==> forall m: Machine :: Value(x, m) == Value(addr, m) ==> FrameAt(m, u, depth)
    ensures Names(x, FRAME_POINTER_REGNUM) <==> FramePointerStays(addr)
  {
    hide Value;
    hide Wrap;
    hide PlusConstant;
    hide Names;
    hide FrameAt;
    var offset, regs := Shape(addr).0, Shape(addr).1;
    if offset < 0 { return addr; }
    ghost var start := offset;
    for regno := FIRST_FLOAT_REG to FIRST_PSEUDO_REGISTER
      invariant offset == start + SavedBytes(u, FIRST_FLOAT_REG, regno, 8)
    {
      if u.live[regno] && !u.callUsed[regno] { offset := offset + 8; }
    }
    for regno := 0 to FIRST_FLOAT_REG
      invariant offset == start + SavedBytes(u, FIRST_FLOAT_REG, FIRST_PSEUDO_REGISTER, 8) + SavedBytes(u, 0, regno, 4)
    {
      if u.live[regno] && !u.callUsed[regno] { offset := offset + 4; }
    }
    offset := offset - 4;
    x := PlusConstant(regs, offset + depth);
    PlusConstantNames(regs, offset + depth, FRAME_POINTER_REGNUM);
    forall m: Machine ensures FrameAt(m, u, depth) <==> Value(x, m) == Value(addr, m) {
      ShapeKept(addr, depth, u, m);
    }
  }

  lemma RegisterValue(n: int, m: Machine)
    ensures Value(Reg(SI, n), m) == Wrap(m.reg(n))
  {}

  // Adding one term to two sums keeps apart what is apart.
  lemma Cancel(a: int, b: int, c: int)
    ensures Wrap(a + c) == Wrap(b + c) <==> Wrap(a) == Wrap(b)
  {}

  // sp and fp are apart by d exactly when the sums with another register o and an
  // offset c agree.
  lemma SumsAgree(sp: int, fp: int, o: int, c: int, d: int)
    ensures Wrap(Wrap(sp) + c + d) == Wrap(Wrap(fp) + c) <==> Wrap(fp) == Wrap(sp + d)
    ensures Wrap(Wrap(Wrap(sp) + o) + c + d) == Wrap(Wrap(Wrap(fp) + o) + c) <==> Wrap(fp) == Wrap(sp + d)
  {
    hide Wrap;
    WrapSum(sp, c + d);
    WrapSum(fp, c);
    Cancel(sp + d, fp, c);
    WrapSum(sp, o);
    WrapSum(fp, o);
    WrapSum(sp + o, c + d);
    WrapSum(fp + o, c);
    Cancel(sp + d, fp, o + c);
  }

  // A shape is the frame pointer, perhaps another register, and an offset.
  lemma ShapeValue(x: Rtx, m: Machine)
    requires Shape(x).0 >= 0
    ensures var c, r := Shape(x).0, Shape(x).1; var fp := Wrap(m.reg(FRAME_POINTER_REGNUM));
      if r == STACK_POINTER_RTX then Value(x, m) == Wrap(fp + c)
      else Is2(r, PLUS) && r.left == STACK_POINTER_RTX && Value(x, m) == Wrap(Wrap(fp + Value(r.right, m)) + c)
  {
    hide Value;
    hide Wrap;
    RegisterValue(FRAME_POINTER_REGNUM, m);
    ConstantValue(x, m);
    if Is2(x, PLUS) {
      SumValue(x, m);
      ConstantValue(x.right, m);
      if Is2(x.left, PLUS) { SumValue(x.left, m); }
      if Is0(x.right, CONST_INT) { WrapSum(x.right.val, Value(x.left, m)); }
    }
  }

  lemma FrameMeans(m: Machine, u: Usage, depth: int)
    requires Complete(u)
    ensures FrameAt(m, u, depth) <==>
        Wrap(m.reg(FRAME_POINTER_REGNUM)) == Wrap(m.reg(STACK_POINTER_REGNUM) + (depth + Saved(u) - 4))
  {}

  lemma ShapeKept(x: Rtx, depth: int, u: Usage, m: Machine)
    requires Complete(u) && Shape(x).0 >= 0
    ensures Value(PlusConstant(Shape(x).1, Shape(x).0 + Saved(u) - 4 + depth), m) == Value(x, m)
        <==> FrameAt(m, u, depth)
  {
    hide Value;
    hide Wrap;
    hide PlusConstant;
    hide Shape;
    hide FrameAt;
    hide Saved;
    var sp, fp := m.reg(STACK_POINTER_REGNUM), m.reg(FRAME_POINTER_REGNUM);
    var c, r, d := Shape(x).0, Shape(x).1, depth + Saved(u) - 4;
    FrameMeans(m, u, depth);
    PlusConstantValue(r, c + d, m);
    RegisterValue(STACK_POINTER_REGNUM, m);
    ShapeValue(x, m);
    if r == STACK_POINTER_RTX {
      SumsAgree(sp, fp, 0, c, d);
    } else {
      SumValue(r, m);
      SumsAgree(sp, fp, Value(r.right, m), c, d);
    }
  }

  // An offset from the frame pointer is replaced exactly when it is not negative.
  lemma NegativeOffsetStays(c: int)
    ensures FramePointerStays(X2(PLUS, SI, FRAME_POINTER_RTX, ConstInt(c))) <==> c < 0
  {
    assert Names(FRAME_POINTER_RTX, FRAME_POINTER_REGNUM);
  }

  // --------------------------------------------------------------------------
  // The prologue of a function without a frame pointer (function_prologue): it pushes
  // the live registers below the stack pointer that calls keep.  With a frame pointer
  // link would have pushed the old one at entry and pointed the register at it.

  method Prologue(u: Usage, entry: int) returns (sp: int)
    requires Complete(u)
    ensures sp == entry - 4 * |Kept(u, 0, STACK_POINTER_REGNUM)|
  {
    sp := entry;
    ghost var pushed := {};
    var regno := STACK_POINTER_REGNUM - 1;
    while regno >= 0
      invariant -1 <= regno < STACK_POINTER_REGNUM
      invariant pushed == Kept(u, regno + 1, STACK_POINTER_REGNUM) && sp == entry - 4 * |pushed|
    {
      if u.live[regno] && !u.callUsed[regno] {
        sp := sp - 4;
        pushed := pushed + {regno};
      }
      regno := regno - 1;
    }
  }

  // After the prologue, and depth bytes pushed since, the frame is laid out as the
  // macro takes it to be, exactly when no register from the stack pointer on is live
  // and kept by calls: those the prologue does not save.
  lemma PrologueFrame(m: Machine, u: Usage, depth: int, entry: int)
    requires Complete(u)
    requires m.reg(6) % WORD == Wrap(entry - 4) && m.reg(7) == entry - 4 * |Kept(u, 0, 7)| - depth
    ensures FrameAt(m, u, depth) <==> Kept(u, STACK_POINTER_REGNUM, FIRST_PSEUDO_REGISTER) == {}
  {
    SavedCount(u);
    assert Kept(u, 0, 8) == Kept(u, 0, 7) + Kept(u, 7, 8);
    assert Kept(u, 7, 10) == Kept(u, 7, 8) + Kept(u, 8, 10);
    assert Kept(u, 7, 8) <= {7} && Kept(u, 8, 10) <= {8, 9};
    SmallSet(Kept(u, 7, 8), {7});
    SmallSet(Kept(u, 8, 10), {8, 9});
    SameWord(entry - 4, 4 * |Kept(u, 7, 8)| + 8 * |Kept(u, 8, 10)|);
  }

  // CALL_USED_REGISTERS: calls keep none of those.
  const CALL_USED := [true, true, true, false, false, false, false, true, true, true]

  lemma UsualFrame(m: Machine, u: Usage, depth: int, entry: int)
    requires Complete(u) && u.callUsed == CALL_USED
    requires m.reg(6) % WORD == Wrap(entry - 4) && m.reg(7) == entry - 4 * |Kept(u, 0, 7)| - depth
    ensures FrameAt(m, u, depth)
  {
    assert Kept(u, STACK_POINTER_REGNUM, FIRST_PSEUDO_REGISTER) == {};
    PrologueFrame(m, u, depth, entry);
  }

  lemma SmallSet(a: set<int>, b: set<int>)
    requires a <= b
    ensures |a| <= |b| && (|a| == 0 <==> a == {})
  {
    assert b == a + (b - a);
  }

  lemma SameWord(a: int, d: int)
    requires 0 <= d < WORD
    ensures Wrap(a) == Wrap(a + d) <==> d == 0
  {}
}
