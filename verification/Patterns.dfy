// Machine-description patterns: what a define_insn accepts, what it emits and
// where its operands sit.

module Patterns {
  import opened Rtl

  // The operand predicates of the two machine descriptions (cmd/gcc/src/recog.c).
  datatype Predicate =
    General | Register | Push | Memory | Indirect | Address | Nonimmediate | Immediate | AnyRtx

  // One define_insn template.  Op is match_operand, Dup is match_dup, Lit is a
  // shared rtx compared by identity, Int a const_int; a VOID mode in a template is not tested.
  // Never stands for a number taken by a define_expand.
  datatype Pat =
    | Op(n: nat, pred: Predicate, m: Mode)
    | Dup(n: nat)
    | Lit(x: Rtx)
    | Int(i: int)
    | P1(c1: Code1, m: Mode, a: Pat)
    | P2(c2: Code2, m: Mode, a: Pat, b: Pat)
    | P3(c3: Code3, m: Mode, a: Pat, b: Pat, c: Pat)
    | PSub(m: Mode, a: Pat, word: int)
    | PPar(a: Pat, b: Pat)
    | Never

  // What recognition depends on besides the rtx: the operand predicates, the
  // target switches, the REG_NONNEG note of the insn, and what the compiling host
  // makes of a shift count outside 0..31.
  datatype Env = Env(
    accepts: (Predicate, Rtx, Mode) -> bool,
    modeDependent: Rtx -> bool,
    t80387: bool,
    t68020: bool,
    t68881: bool,
    tFpa: bool,
    tBitfield: bool,
    nonneg: bool,
    wideShift: (int, int) -> bool)

  predicate OperandForm(x: Rtx) {
    ConstantP(x) || Is0(x, REG) || Is0(x, CONST_DOUBLE) || x.Mem? || x.Subreg?
  }

  // A constant integer or address, which carries no mode of its own.
  predicate VoidConstant(x: Rtx) { x.mode == VOID && ConstantP(x) }

  // Addresses are operands, sums, products and automatic increments.
  predicate AddressForm(x: Rtx) {
    match x
    case X1(c, _, _) => c in {CONST, LABEL_REF, PRE_DEC, PRE_INC, POST_DEC, POST_INC}
    case X2(c, _, _, _) => c == PLUS || c == MULT
    case X3(_, _, _, _, _) => false
    case _ => true
  }

  // What the proofs use of the operand predicates.
  predicate Fact(p: Predicate, x: Rtx, m: Mode) {
    match p
    case General => OperandForm(x) && (x.mode == m || VoidConstant(x))
    case Register => x.mode == m && (Is0(x, REG) || x.Subreg?)
    case Push => x.mode == m && x.Mem?
    case Memory => x.mode == m && (x.Mem? || x.Subreg?)
    case Indirect => x.mode == m && (x.Mem? || x.Subreg?)
    case Nonimmediate => x.mode == m && (Is0(x, REG) || x.Mem? || x.Subreg?)
    case Immediate => ConstantP(x) || Is0(x, CONST_DOUBLE)
    case Address => AddressForm(x)
    case AnyRtx => true
  }

  // A VOID mode asks for none; the templates use it with two predicates only.
  ghost predicate Sane(env: Env) {
    && (forall p, x, m :: env.accepts(p, x, m) && (m != VOID || p == Immediate) ==> Fact(p, x, m))
    && (forall x, m :: env.accepts(AnyRtx, x, m))
  }

  predicate ModeOk(m: Mode, y: Mode) { m == VOID || m == y }

  // The codes, modes, shared rtx's and operand predicates of p fit x.
  predicate Shape(p: Pat, x: Rtx, env: Env)
    decreases p
  {
    match p
    case Op(_, pred, m) => env.accepts(pred, x, m)
    case Dup(_) => true
    case Lit(y) => x == y
    case Int(i) => IsInt(x, i)
    case P1(c, m, a) => Is1(x, c) && ModeOk(m, x.mode) && Shape(a, x.arg, env)
    case P2(c, m, a, b) =>
      Is2(x, c) && ModeOk(m, x.mode) && Shape(a, x.left, env) && Shape(b, x.right, env)
    case P3(c, m, a, b, d) =>
      Is3(x, c) && ModeOk(m, x.mode) && Shape(a, x.fst, env) && Shape(b, x.snd, env) && Shape(d, x.thd, env)
    case PSub(m, a, w) => x.Subreg? && ModeOk(m, x.mode) && x.word == w && Shape(a, x.reg, env)
    case PPar(a, b) =>
      x.Parallel? && |x.elems| == 2 && Shape(a, x.elems[0], env) && Shape(b, x.elems[1], env)
    case Never => false
  }

  // Template shapes that occur many times.
  function Test(m: Mode): Pat { P2(SET, VOID, Lit(CC0_RTX), Op(0, General, m)) }

  function TestBinary(c: Code2, m: Mode, o: Mode): Pat {
    P2(SET, VOID, Lit(CC0_RTX), P2(c, m, Op(0, General, o), Op(1, General, o)))
  }

  function Move(p: Predicate, m: Mode): Pat { P2(SET, VOID, Op(0, p, m), Op(1, General, m)) }

  function Unary(d: Mode, c: Code1, m: Mode, a: Mode): Pat {
    P2(SET, VOID, Op(0, General, d), P1(c, m, Op(1, General, a)))
  }

  function Binary(d: Mode, c: Code2, m: Mode, a: Mode, b: Mode): Pat {
    P2(SET, VOID, Op(0, General, d), P2(c, m, Op(1, General, a), Op(2, General, b)))
  }

  function BinaryConst(m: Mode, c: Code2, i: int): Pat {
    P2(SET, VOID, Op(0, General, m), P2(c, m, Op(1, General, m), Int(i)))
  }

  function Flag(c: Code2): Pat { P2(c, VOID, Lit(CC0_RTX), Int(0)) }

  function StoreFlag(c: Code2): Pat { P2(SET, VOID, Op(0, General, QI), Flag(c)) }

  function Label(n: nat): Pat { P1(LABEL_REF, VOID, Op(n, AnyRtx, VOID)) }

  function Branch(c: Code2): Pat {
    P2(SET, VOID, Lit(PC_RTX), P3(IF_THEN_ELSE, VOID, Flag(c), Label(0), Lit(PC_RTX)))
  }

  function BranchInverted(c: Code2): Pat {
    P2(SET, VOID, Lit(PC_RTX), P3(IF_THEN_ELSE, VOID, Flag(c), Lit(PC_RTX), Label(0)))
  }

  function WithClobber(p: Pat, r: Pat): Pat { PPar(p, P1(CLOBBER, VOID, r)) }

  function DivMod(d: Code2, r: Code2): Pat {
    PPar(Binary(SI, d, SI, SI, SI), P2(SET, VOID, Op(3, General, SI), P2(r, SI, Dup(1), Dup(2))))
  }

  // Shape, one level at a time, and written out for the frequent templates.
  lemma ShapeStep(p: Pat, x: Rtx, env: Env)
    ensures p.P1? ==>
        (Shape(p, x, env) <==> Is1(x, p.c1) && ModeOk(p.m, x.mode) && Shape(p.a, x.arg, env))
    ensures p.P2? ==> (Shape(p, x, env) <==>
        Is2(x, p.c2) && ModeOk(p.m, x.mode) && Shape(p.a, x.left, env) && Shape(p.b, x.right, env))
    ensures p.P3? ==> (Shape(p, x, env) <==> (
        && Is3(x, p.c3) && ModeOk(p.m, x.mode)
        && Shape(p.a, x.fst, env) && Shape(p.b, x.snd, env) && Shape(p.c, x.thd, env)))
    ensures p.PSub? ==> (Shape(p, x, env) <==>
        x.Subreg? && ModeOk(p.m, x.mode) && x.word == p.word && Shape(p.a, x.reg, env))
    ensures p.PPar? ==> (Shape(p, x, env) <==>
        x.Parallel? && |x.elems| == 2 && Shape(p.a, x.elems[0], env) && Shape(p.b, x.elems[1], env))
  {}

  lemma ShapeLeaf(p: Pat, x: Rtx, env: Env)
    ensures p.Op? ==> (Shape(p, x, env) <==> env.accepts(p.pred, x, p.m))
    ensures p.Lit? ==> (Shape(p, x, env) <==> x == p.x)
    ensures p.Int? ==> (Shape(p, x, env) <==> IsInt(x, p.i))
  {}

  lemma Shape1(c: Code1, m: Mode, a: Pat, x: Rtx, env: Env)
    ensures Shape(P1(c, m, a), x, env) <==> Is1(x, c) && ModeOk(m, x.mode) && Shape(a, x.arg, env)
  {}

  lemma Shape2(c: Code2, m: Mode, a: Pat, b: Pat, x: Rtx, env: Env)
    ensures Shape(P2(c, m, a, b), x, env) <==>
        Is2(x, c) && ModeOk(m, x.mode) && Shape(a, x.left, env) && Shape(b, x.right, env)
  {}

  lemma Shape3(c: Code3, m: Mode, a: Pat, b: Pat, d: Pat, x: Rtx, env: Env)
    ensures Shape(P3(c, m, a, b, d), x, env) <==> (
        && Is3(x, c) && ModeOk(m, x.mode)
        && Shape(a, x.fst, env) && Shape(b, x.snd, env) && Shape(d, x.thd, env))
  {}

  lemma FlagShape(c: Code2, x: Rtx, env: Env)
    ensures Shape(Flag(c), x, env) <==> IsFlag(c, x)
  {}

  lemma LabelShape(n: nat, x: Rtx, env: Env)
    requires Sane(env)
    ensures Shape(Label(n), x, env) <==> Is1(x, LABEL_REF)
  {}

  lemma TestShape(m: Mode, x: Rtx, env: Env)
    ensures Shape(Test(m), x, env) <==> Is2(x, SET) && x.left == CC0_RTX && env.accepts(General, x.right, m)
  {}

  lemma TestBinaryShape(c: Code2, m: Mode, o: Mode, x: Rtx, env: Env)
    ensures Shape(TestBinary(c, m, o), x, env) <==> (
        && Is2(x, SET) && x.left == CC0_RTX && Is2(x.right, c) && ModeOk(m, x.right.mode)
        && env.accepts(General, x.right.left, o) && env.accepts(General, x.right.right, o))
  {
    if Is2(x, SET) { Shape2(c, m, Op(0, General, o), Op(1, General, o), x.right, env); }
  }

  lemma MoveShape(p: Predicate, m: Mode, x: Rtx, env: Env)
    ensures Shape(Move(p, m), x, env) <==>
        Is2(x, SET) && env.accepts(p, x.left, m) && env.accepts(General, x.right, m)
  {}

  lemma UnaryShape(d: Mode, c: Code1, m: Mode, a: Mode, x: Rtx, env: Env)
    ensures Shape(Unary(d, c, m, a), x, env) <==> (
        && Is2(x, SET) && env.accepts(General, x.left, d) && Is1(x.right, c) && ModeOk(m, x.right.mode)
        && env.accepts(General, x.right.arg, a))
  {
    if Is2(x, SET) { Shape1(c, m, Op(1, General, a), x.right, env); }
  }

  lemma BinaryShape(d: Mode, c: Code2, m: Mode, a: Mode, b: Mode, x: Rtx, env: Env)
    ensures Shape(Binary(d, c, m, a, b), x, env) <==> (
        && Is2(x, SET) && env.accepts(General, x.left, d) && Is2(x.right, c) && ModeOk(m, x.right.mode)
        && env.accepts(General, x.right.left, a) && env.accepts(General, x.right.right, b))
  {
    if Is2(x, SET) { Shape2(c, m, Op(1, General, a), Op(2, General, b), x.right, env); }
  }

  lemma BinaryConstShape(m: Mode, c: Code2, i: int, x: Rtx, env: Env)
    ensures Shape(BinaryConst(m, c, i), x, env) <==> (
        && Is2(x, SET) && env.accepts(General, x.left, m) && Is2(x.right, c) && ModeOk(m, x.right.mode)
        && env.accepts(General, x.right.left, m) && IsInt(x.right.right, i))
  {
    if Is2(x, SET) { Shape2(c, m, Op(1, General, m), Int(i), x.right, env); }
  }

  predicate IsFlag(c: Code2, x: Rtx) { Is2(x, c) && x.left == CC0_RTX && IsInt(x.right, 0) }

  lemma StoreFlagShape(c: Code2, x: Rtx, env: Env)
    ensures Shape(StoreFlag(c), x, env) <==> Is2(x, SET) && env.accepts(General, x.left, QI) && IsFlag(c, x.right)
  {
    if Is2(x, SET) { FlagShape(c, x.right, env); }
  }

  // The condition and the two arms of a conditional jump.
  lemma JumpShape(c: Code2, a: Pat, b: Pat, x: Rtx, env: Env)
    ensures Shape(P2(SET, VOID, Lit(PC_RTX), P3(IF_THEN_ELSE, VOID, Flag(c), a, b)), x, env) <==> (
        && Is2(x, SET) && x.left == PC_RTX && Is3(x.right, IF_THEN_ELSE) && IsFlag(c, x.right.fst)
        && Shape(a, x.right.snd, env) && Shape(b, x.right.thd, env))
  {
    hide Flag;
    Shape2(SET, VOID, Lit(PC_RTX), P3(IF_THEN_ELSE, VOID, Flag(c), a, b), x, env);
    if Is2(x, SET) {
      Shape3(IF_THEN_ELSE, VOID, Flag(c), a, b, x.right, env);
      if Is3(x.right, IF_THEN_ELSE) { FlagShape(c, x.right.fst, env); }
    }
  }

  lemma BranchShape(c: Code2, x: Rtx, env: Env)
    requires Sane(env)
    ensures Shape(Branch(c), x, env) <==> (
        && Is2(x, SET) && x.left == PC_RTX && Is3(x.right, IF_THEN_ELSE) && IsFlag(c, x.right.fst)
        && Is1(x.right.snd, LABEL_REF) && x.right.thd == PC_RTX)
    ensures Shape(BranchInverted(c), x, env) <==> (
        && Is2(x, SET) && x.left == PC_RTX && Is3(x.right, IF_THEN_ELSE) && IsFlag(c, x.right.fst)
        && x.right.snd == PC_RTX && Is1(x.right.thd, LABEL_REF))
  {
    hide Label;
    hide Flag;
    JumpShape(c, Label(0), Lit(PC_RTX), x, env);
    JumpShape(c, Lit(PC_RTX), Label(0), x, env);
    if Is2(x, SET) && Is3(x.right, IF_THEN_ELSE) {
      LabelShape(0, x.right.snd, env);
      LabelShape(0, x.right.thd, env);
    }
  }

  lemma ShapePar(a: Pat, b: Pat, x: Rtx, env: Env)
    ensures Shape(PPar(a, b), x, env) <==>
        x.Parallel? && |x.elems| == 2 && Shape(a, x.elems[0], env) && Shape(b, x.elems[1], env)
  {}

  lemma WithClobberShape(p: Pat, r: Pat, x: Rtx, env: Env)
    ensures Shape(WithClobber(p, r), x, env) <==> (
        && x.Parallel? && |x.elems| == 2 && Shape(p, x.elems[0], env)
        && Is1(x.elems[1], CLOBBER) && Shape(r, x.elems[1].arg, env))
  {}

  lemma DivModShape(d: Code2, r: Code2, x: Rtx, env: Env)
    ensures Shape(DivMod(d, r), x, env) <==> (
        && x.Parallel? && |x.elems| == 2 && Shape(Binary(SI, d, SI, SI, SI), x.elems[0], env)
        && Is2(x.elems[1], SET) && env.accepts(General, x.elems[1].left, SI)
        && Is2(x.elems[1].right, r) && x.elems[1].right.mode == SI)
  {
    hide Binary;
    var q := P2(r, SI, Dup(1), Dup(2));
    ShapePar(Binary(SI, d, SI, SI, SI), P2(SET, VOID, Op(3, General, SI), q), x, env);
    if x.Parallel? && |x.elems| == 2 {
      Shape2(SET, VOID, Op(3, General, SI), q, x.elems[1], env);
      if Is2(x.elems[1], SET) {
        Shape2(r, SI, Dup(1), Dup(2), x.elems[1].right, env);
      }
    }
  }

  // --------------------------------------------------------------------------
  // The first level of Shape(p, (set d s)): codes, modes and shared rtx's, and what
  // the predicates say of a destination.
  predicate Head(p: Pat, d: Rtx, s: Rtx) {
    match p
    case P2(c, _, a, b) => c == SET && DestinationHead(a, d) && SourceHead(b, s)
    case Op(_, _, _) => true
    case Dup(_) => true
    case Lit(y) => y.X2?
    case _ => false
  }

  predicate DestinationHead(p: Pat, d: Rtx) {
    match p
    case Lit(y) => d == y
    case Op(_, pred, m) => m == VOID || pred in {AnyRtx, Address, Immediate} || (d.mode == m && OperandForm(d))
    case P1(c, _, _) => Is1(d, c)
    case P3(c, _, _, _, _) => Is3(d, c)
    case _ => true
  }

  predicate SourceHead(p: Pat, s: Rtx) {
    match p
    case P1(c, m, _) => Is1(s, c) && ModeOk(m, s.mode)
    case P2(c, m, _, _) => Is2(s, c) && ModeOk(m, s.mode)
    case P3(c, m, _, _, _) => Is3(s, c) && ModeOk(m, s.mode)
    case PSub(m, _, w) => s.Subreg? && ModeOk(m, s.mode) && s.word == w
    case _ => true
  }

  lemma ShapeHead(p: Pat, m: Mode, d: Rtx, s: Rtx, env: Env)
    requires Sane(env) && Shape(p, X2(SET, m, d, s), env)
    requires !VoidConstant(d)
    ensures Head(p, d, s)
  {}

  // --------------------------------------------------------------------------
  // Emission: the rtx a template builds from its operands (genemit).

  function Build(p: Pat, ops: seq<Rtx>): Rtx {
    match p
    case Op(n, _, _) => if n < |ops| then ops[n] else PC_RTX
    case Dup(n) => if n < |ops| then ops[n] else PC_RTX
    case Lit(y) => y
    case Int(i) => ConstInt(i)
    case P1(c, m, a) => X1(c, m, Build(a, ops))
    case P2(c, m, a, b) => X2(c, m, Build(a, ops), Build(b, ops))
    case P3(c, m, a, b, d) => X3(c, m, Build(a, ops), Build(b, ops), Build(d, ops))
    case PSub(m, a, w) => Subreg(m, Build(a, ops), w)
    case PPar(a, b) => Parallel(VOID, [Build(a, ops), Build(b, ops)])
    case Never => PC_RTX
  }

  // The operands satisfy the predicates p states for them.
  predicate Accepted(p: Pat, ops: seq<Rtx>, env: Env) {
    match p
    case Op(n, pred, m) => n < |ops| && env.accepts(pred, ops[n], m)
    case P1(_, _, a) => Accepted(a, ops, env)
    case P2(_, _, a, b) => Accepted(a, ops, env) && Accepted(b, ops, env)
    case P3(_, _, a, b, d) => Accepted(a, ops, env) && Accepted(b, ops, env) && Accepted(d, ops, env)
    case PSub(_, a, _) => Accepted(a, ops, env)
    case PPar(a, b) => Accepted(a, ops, env) && Accepted(b, ops, env)
    case Never => false
    case _ => true
  }

  // What a template builds from acceptable operands has the template's shape.
  lemma {:induction false} BuildShape(p: Pat, ops: seq<Rtx>, env: Env)
    requires Accepted(p, ops, env)
    ensures Shape(p, Build(p, ops), env)
  {
    match p
    case P1(_, _, a) => BuildShape(a, ops, env);
    case P2(_, _, a, b) => BuildShape(a, ops, env); BuildShape(b, ops, env);
    case P3(_, _, a, b, d) => BuildShape(a, ops, env); BuildShape(b, ops, env); BuildShape(d, ops, env);
    case PSub(_, a, _) => BuildShape(a, ops, env);
    case PPar(a, b) => BuildShape(a, ops, env); BuildShape(b, ops, env);
    case _ =>
  }

  // Build, one level at a time.
  lemma BuildStep(p: Pat, ops: seq<Rtx>)
    ensures p.Op? && p.n < |ops| ==> Build(p, ops) == ops[p.n]
    ensures p.Lit? ==> Build(p, ops) == p.x
    ensures p.Int? ==> Build(p, ops) == ConstInt(p.i)
    ensures p.P1? ==> Build(p, ops) == X1(p.c1, p.m, Build(p.a, ops))
    ensures p.P2? ==> Build(p, ops) == X2(p.c2, p.m, Build(p.a, ops), Build(p.b, ops))
    ensures p.P3? ==> Build(p, ops) == X3(p.c3, p.m, Build(p.a, ops), Build(p.b, ops), Build(p.c, ops))
    ensures p.PPar? ==> Build(p, ops) == Parallel(VOID, [Build(p.a, ops), Build(p.b, ops)])
  {}

  // Build on the two upper levels of a SET.
  lemma BuildSet(p: Pat, ops: seq<Rtx>)
    requires p.P2? && p.c2 == SET
    ensures var x := Build(p, ops);
      && Is2(x, SET) && x.mode == p.m && x.left == Build(p.a, ops) && x.right == Build(p.b, ops)
      && (p.b.P1? ==> x.right == X1(p.b.c1, p.b.m, Build(p.b.a, ops)))
      && (p.b.P2? ==> x.right == X2(p.b.c2, p.b.m, Build(p.b.a, ops), Build(p.b.b, ops)))
      && (p.b.P3? ==> x.right == X3(p.b.c3, p.b.m, Build(p.b.a, ops), Build(p.b.b, ops), Build(p.b.c, ops)))
  {}
}
