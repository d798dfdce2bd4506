// Register transfer language: the expression trees the GCC back end works on
// (cmd/gcc/h/rtl.h, cmd/gcc/h/rtl.def.v, cmd/gcc/h/machmode.def.v).
//
// Codes are grouped by the number of sub-expressions their format allows, so
// every value of Rtx is well formed.  Names follow the C source.

module Rtl {

  datatype Mode = VOID | QI | HI | SI | DI | SF | DF | OtherMode(id: nat)

  datatype Code0 = REG | CONST_INT | CONST_DOUBLE | SYMBOL_REF | CODE_LABEL | CC0 | PC

  datatype Code1 =
    | NEG | NOT | ABS | TRUNCATE | ZERO_EXTEND | SIGN_EXTEND
    | FLOAT | FIX | FLOAT_EXTEND | FLOAT_TRUNCATE
    | CONST | LABEL_REF | USE | CLOBBER | STRICT_LOW_PART
    | PRE_DEC | PRE_INC | POST_DEC | POST_INC

  datatype Code2 =
    | SET | CALL | COMPARE
    | PLUS | MINUS | MULT | UMULT | DIV | UDIV | MOD | UMOD
    | AND | IOR | XOR
    | ASHIFT | ASHIFTRT | LSHIFT | LSHIFTRT | ROTATE | ROTATERT
    | EQ | NE | GT | GTU | LT | LTU | GE | GEU | LE | LEU

  datatype Code3 = IF_THEN_ELSE | ZERO_EXTRACT | SIGN_EXTRACT

  datatype Rtx =
    | X0(code0: Code0, mode: Mode, val: int)
    | X1(code1: Code1, mode: Mode, arg: Rtx)
    | X2(code2: Code2, mode: Mode, left: Rtx, right: Rtx)
    | X3(code3: Code3, mode: Mode, fst: Rtx, snd: Rtx, thd: Rtx)
    | Mem(mode: Mode, addr: Rtx, volatil: bool)
    | Subreg(mode: Mode, reg: Rtx, word: int)
    | Parallel(mode: Mode, elems: seq<Rtx>)

  const CC0_RTX := X0(CC0, VOID, 0)
  const PC_RTX := X0(PC, VOID, 0)

  function ConstInt(i: int): Rtx { X0(CONST_INT, VOID, i) }

  function Reg(m: Mode, n: int): Rtx { X0(REG, m, n) }

  predicate Is0(x: Rtx, c: Code0) { x.X0? && x.code0 == c }

  predicate Is1(x: Rtx, c: Code1) { x.X1? && x.code1 == c }

  predicate Is2(x: Rtx, c: Code2) { x.X2? && x.code2 == c }

  predicate Is3(x: Rtx, c: Code3) { x.X3? && x.code3 == c }

  // (const_int i).  const0_rtx and const1_rtx are the only CONST_INTs of their
  // value, so comparing with them is comparing the value.
  predicate IsInt(x: Rtx, i: int) { Is0(x, CONST_INT) && x.val == i }

  // CONSTANT_P
  predicate ConstantP(x: Rtx) {
    Is1(x, LABEL_REF) || Is0(x, SYMBOL_REF) || Is0(x, CONST_INT) || Is1(x, CONST)
  }

  // XEXP (x, i).  On an index the code does not have, x itself stands for the
  // unspecified field; no use of it below depends on that case.
  function Xexp(x: Rtx, i: nat): Rtx {
    match x
    case X1(_, _, a) => a
    case X2(_, _, a, b) => if i == 0 then a else b
    case X3(_, _, a, b, c) => if i == 0 then a else if i == 1 then b else c
    case Mem(_, a, _) => a
    case Subreg(_, a, _) => a
    case _ => x
  }

  // XVECEXP (x, 0, i)
  function Xvecexp(x: Rtx, i: nat): Rtx {
    if x.Parallel? && i < |x.elems| then x.elems[i] else x
  }

  // rtx_equal_p: structural equality that ignores the volatile flag; a
  // LABEL_REF is equal only to a reference to the same label.
  predicate RtxEqual(x: Rtx, y: Rtx) {
    match (x, y)
    case (X0(c, m, v), X0(c', m', v')) => c == c' && m == m' && v == v'
    case (X1(c, m, a), X1(c', m', a')) =>
      c == c' && m == m' && (if c == LABEL_REF then a == a' else RtxEqual(a, a'))
    case (X2(c, m, a, b), X2(c', m', a', b')) =>
      c == c' && m == m' && RtxEqual(a, a') && RtxEqual(b, b')
    case (X3(c, m, a, b, d), X3(c', m', a', b', d')) =>
      c == c' && m == m' && RtxEqual(a, a') && RtxEqual(b, b') && RtxEqual(d, d')
    case (Mem(m, a, _), Mem(m', a', _)) => m == m' && RtxEqual(a, a')
    case (Subreg(m, a, w), Subreg(m', a', w')) => m == m' && w == w' && RtxEqual(a, a')
    case (Parallel(m, v), Parallel(m', v')) =>
      m == m' && |v| == |v'| && forall i | 0 <= i < |v| :: RtxEqual(v[i], v'[i])
    case _ => false
  }

  lemma {:induction false} RtxEqualReflexive(x: Rtx)
    ensures RtxEqual(x, x)
  {
    match x
    case X0(_, _, _) =>
    case X1(_, _, a) => RtxEqualReflexive(a);
    case X2(_, _, a, b) => RtxEqualReflexive(a); RtxEqualReflexive(b);
    case X3(_, _, a, b, c) => RtxEqualReflexive(a); RtxEqualReflexive(b); RtxEqualReflexive(c);
    case Mem(_, a, _) => RtxEqualReflexive(a);
    case Subreg(_, a, _) => RtxEqualReflexive(a);
    case Parallel(_, v) => forall i | 0 <= i < |v| ensures RtxEqual(v[i], v[i]) { RtxEqualReflexive(v[i]); }
  }

  // --------------------------------------------------------------------------
  // What rtx_equal_p means: the two are the same but for volatile flags outside labels.

  function Cleared(x: Rtx): Rtx {
    match x
    case X0(_, _, _) => x
    case X1(c, m, a) => if c == LABEL_REF then x else X1(c, m, Cleared(a))
    case X2(c, m, a, b) => X2(c, m, Cleared(a), Cleared(b))
    case X3(c, m, a, b, d) => X3(c, m, Cleared(a), Cleared(b), Cleared(d))
    case Mem(m, a, _) => Mem(m, Cleared(a), false)
    case Subreg(m, a, w) => Subreg(m, Cleared(a), w)
    case Parallel(m, v) => Parallel(m, seq(|v|, i requires 0 <= i < |v| => Cleared(v[i])))
  }

  // No volatile memory outside labels.
  predicate Quiet(x: Rtx) {
    match x
    case X0(_, _, _) => true
    case X1(c, _, a) => c == LABEL_REF || Quiet(a)
    case X2(_, _, a, b) => Quiet(a) && Quiet(b)
    case X3(_, _, a, b, d) => Quiet(a) && Quiet(b) && Quiet(d)
    case Mem(_, a, v) => !v && Quiet(a)
    case Subreg(_, a, _) => Quiet(a)
    case Parallel(_, v) => forall i | 0 <= i < |v| :: Quiet(v[i])
  }

  lemma {:induction false} RtxEqualMeans(x: Rtx, y: Rtx)
    ensures RtxEqual(x, y) <==> Cleared(x) == Cleared(y)
    decreases x, y, 1
  {
    match (x, y)
    case (X1(_, _, a), X1(_, _, b)) => RtxEqualMeans(a, b);
    case (X2(_, _, a, b), X2(_, _, c, d)) => RtxEqualMeans(a, c); RtxEqualMeans(b, d);
    case (X3(_, _, a, b, c), X3(_, _, d, e, f)) => RtxEqualMeans(a, d); RtxEqualMeans(b, e); RtxEqualMeans(c, f);
    case (Mem(_, a, _), Mem(_, b, _)) => RtxEqualMeans(a, b);
    case (Subreg(_, a, _), Subreg(_, b, _)) => RtxEqualMeans(a, b);
    case (Parallel(_, v), Parallel(_, w)) => VectorsEqual(v, w, x, y);
    case _ =>
  }

  lemma {:induction false} VectorsEqual(v: seq<Rtx>, w: seq<Rtx>, x: Rtx, y: Rtx)
    requires x.Parallel? && y.Parallel? && v == x.elems && w == y.elems
    ensures RtxEqual(x, y) <==> Cleared(x) == Cleared(y)
    decreases x, y, 0
  {
    if |v| == |w| {
      forall i | 0 <= i < |v| ensures RtxEqual(v[i], w[i]) <==> Cleared(x).elems[i] == Cleared(y).elems[i] {
        RtxEqualMeans(v[i], w[i]);
      }
      if Cleared(x) == Cleared(y) { assert forall i | 0 <= i < |v| :: RtxEqual(v[i], w[i]); }
    } else {
      assert |Cleared(x).elems| == |v| && |Cleared(y).elems| == |w|;
    }
  }

  // Clearing takes away the volatile flags and nothing else.
  lemma {:induction false} ClearedMeans(x: Rtx)
    ensures Quiet(Cleared(x)) && (Quiet(x) ==> Cleared(x) == x)
  {
    match x
    case X0(_, _, _) =>
    case X1(_, _, a) => ClearedMeans(a);
    case X2(_, _, a, b) => ClearedMeans(a); ClearedMeans(b);
    case X3(_, _, a, b, c) => ClearedMeans(a); ClearedMeans(b); ClearedMeans(c);
    case Mem(_, a, _) => ClearedMeans(a);
    case Subreg(_, a, _) => ClearedMeans(a);
    case Parallel(_, v) => forall i | 0 <= i < |v| { ClearedMeans(v[i]); }
  }

  // Without volatile memory only an rtx itself is equal to it.
  lemma QuietEqual(x: Rtx, y: Rtx)
    requires Quiet(x) && Quiet(y)
    ensures RtxEqual(x, y) <==> x == y
  {
    RtxEqualMeans(x, y);
    ClearedMeans(x);
    ClearedMeans(y);
  }

  lemma RtxEqualEquivalence(x: Rtx, y: Rtx, z: Rtx)
    ensures RtxEqual(x, y) ==> RtxEqual(y, x)
    ensures RtxEqual(x, y) && RtxEqual(y, z) ==> RtxEqual(x, z)
  {
    RtxEqualMeans(x, y);
    RtxEqualMeans(y, x);
    RtxEqualMeans(y, z);
    RtxEqualMeans(x, z);
  }
}
