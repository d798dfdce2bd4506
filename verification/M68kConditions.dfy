// The operand conditions of the m68k insns (cmd/gcc/m68k.gen/insn-recog.c): what they
// ask of the constants and the places an insn is emitted with.

module M68kConditions {
  import opened Arithmetic
  import opened Common
  import opened Rtl
  import opened Patterns
  import opened M68kDescription
  import opened M68kEmit

  // The insn emitted with code k meets the condition of the code.
  predicate Meets(k: int, ops: seq<Rtx>, env: Env) { OperandCondition(k, Emit(k, ops), env) }

  // The codes whose conditions look at constants, and how many operands they have.
  lemma Operands(k: int)
    requires k in {24, 28, 29, 135, 136, 163, 164, 165, 166, 185, 186, 187, 190}
    ensures Pattern(k) != Never
    ensures |Extract(k, PC_RTX)| == if k >= 185 then 4 else if k in {135, 136} then 3 else 2
  {}

  lemma Emitted(k: int, ops: seq<Rtx>, i: nat)
    requires k in {24, 28, 29, 135, 136, 163, 164, 165, 166, 185, 186, 187, 190} && i < |ops|
    requires |ops| == if k >= 185 then 4 else if k in {135, 136} then 3 else 2
    ensures Operand(k, Emit(k, ops), i) == ops[i]
  {
    hide Extract;
    hide Emit;
    hide Pattern;
    Operands(k);
    ExtractEmit(k, ops);
  }

  // A bit of a byte, a halfword and a byte that a mask stays within.
  lemma NumberAsked(a: Rtx, b: Rtx, v: int, env: Env)
    requires -0x8000_0000 <= v < 0x8000_0000
    ensures Meets(24, [a, ConstInt(v)], env) <==> 0 <= v < 8
    ensures Meets(135, [a, b, ConstInt(v)], env) <==> v == v % Range(HI)
    ensures Meets(136, [a, b, ConstInt(v)], env) <==> v == v % Range(QI)
  {
    hide Emit;
    hide Operand;
    Emitted(24, [a, ConstInt(v)], 1);
    Emitted(135, [a, b, ConstInt(v)], 2);
    Emitted(136, [a, b, ConstInt(v)], 2);
  }

  lemma PowersOfByte(v: int)
    ensures (exists j: nat | j < 8 :: v == Pow2(j)) <==> v in {1, 2, 4, 8, 16, 32, 64, 128}
  {
    assert Pow2(0) == 1 && Pow2(1) == 2 && Pow2(2) == 4 && Pow2(3) == 8;
    assert Pow2(4) == 16 && Pow2(5) == 32 && Pow2(6) == 64 && Pow2(7) == 128;
    forall j: nat | j < 8 ensures Pow2(j) in {1, 2, 4, 8, 16, 32, 64, 128} {
      assert j in {0, 1, 2, 3, 4, 5, 6, 7};
    }
  }

  // A mask of one bit, and a word that is pushed sign-extended.
  lemma ConstantAsked(a: Rtx, v: int, env: Env)
    ensures Meets(28, [a, ConstInt(v)], env) <==> exists j: nat | j < 8 :: v == Pow2(j)
    ensures Meets(29, [a, ConstInt(v)], env) <==> v == Signed(HI, v % Range(HI))
  {
    hide Pow2;
    hide Emit;
    hide Operand;
    PowersOfByte(v);
    Emitted(28, [a, ConstInt(v)], 1);
    Emitted(29, [a, ConstInt(v)], 1);
  }

  // The constant compared with a top byte is that byte's unsigned value after a logical
  // shift and its signed value after an arithmetic one; reading it steps no register.
  lemma TopByteAsked(m: Mode, a: Rtx, volatil: bool, v: int, env: Env)
    ensures var place, steps := Mem(m, a, volatil), Is1(a, POST_INC) || Is1(a, PRE_DEC);
      && (Meets(163, [ConstInt(v), place], env) <==> v == v % Range(QI) && !steps)
      && (Meets(164, [place, ConstInt(v)], env) <==> v == v % Range(QI) && !steps)
      && (Meets(165, [ConstInt(v), place], env) <==> v == Signed(QI, v % Range(QI)) && !steps)
      && (Meets(166, [place, ConstInt(v)], env) <==> v == Signed(QI, v % Range(QI)) && !steps)
  {
    hide Emit;
    hide Operand;
    var c, place := ConstInt(v), Mem(m, a, volatil);
    Emitted(163, [c, place], 0);
    Emitted(163, [c, place], 1);
    Emitted(165, [c, place], 0);
    Emitted(165, [c, place], 1);
    Emitted(164, [place, c], 0);
    Emitted(164, [place, c], 1);
    Emitted(166, [place, c], 0);
    Emitted(166, [place, c], 1);
  }

  // The fields codes 185 to 187 admit: a byte at a multiple of 8 or a halfword at a
  // multiple of 16, in a register or at an address that can be offset.
  lemma FieldAsked(k: int, place: Rtx, w: int, p: int, other: Rtx, env: Env)
    requires 185 <= k < 188 && (place.Mem? || Is0(place, REG))
    ensures var field := [place, ConstInt(w), ConstInt(p)];
      Meets(k, if k == 185 then field + [other] else [other] + field, env) <==>
        && ((w == 8 && p % 8 == 0) || (w == 16 && p % 16 == 0))
        && (place.Mem? ==> !env.modeDependent(place.addr))
  {
    hide Emit;
    hide Operand;
    var field := [place, ConstInt(w), ConstInt(p)];
    var ops, first := if k == 185 then field + [other] else [other] + field, if k == 185 then 0 else 1;
    Emitted(k, ops, first);
    Emitted(k, ops, first + 1);
    Emitted(k, ops, first + 2);
  }

  // The exclusive or of a field with a constant complements the field exactly when the
  // constant has all the bits of the field.
  lemma {:induction false} ComplementMeans(w: nat, f: int, v: int)
    requires 0 <= f < Pow2(w)
    ensures BitByBit(XOR, w, f, v) == Pow2(w) - 1 - f <==> (v + 1) % Pow2(w) == 0
  {
    if w > 0 {
      var p := Pow2(w - 1);
      ComplementMeans(w - 1, f / 2, v / 2);
      BitsInRange(XOR, w - 1, f / 2, v / 2);
      LastBit(v, p);
    }
  }

  lemma LastBit(v: int, p: int)
    requires p > 0
    ensures (v + 1) % (2 * p) == 0 <==> v % 2 == 1 && (v / 2 + 1) % p == 0
  {
    var q, r := (v / 2 + 1) / p, (v / 2 + 1) % p;
    assert v / 2 + 1 == q * p + r;
    if v % 2 == 1 {
      assert v + 1 == 2 * (v / 2 + 1);
      DivUnique(v + 1, 2 * p, q, 2 * r) by { assert q * (2 * p) == 2 * (q * p); }
    } else {
      var k := (v + 1) / (2 * p);
      assert v + 1 == k * (2 * p) + (v + 1) % (2 * p);
      assert k * (2 * p) == 2 * (k * p);
    }
  }

  // Code 190 complements its field: that is what its condition asks of the mask.
  lemma ComplementAsked(place: Rtx, w: int, position: Rtx, v: int, f: int, env: Env)
    requires 0 <= w < 32 && 0 <= f < Pow2(w)
    ensures Meets(190, [place, ConstInt(w), position, ConstInt(v)], env)
      <==> BitByBit(XOR, w, f, v) == Pow2(w) - 1 - f
  {
    hide Pow2;
    hide BitByBit;
    hide Emit;
    hide Operand;
    var ops := [place, ConstInt(w), position, ConstInt(v)];
    Emitted(190, ops, 1);
    Emitted(190, ops, 3);
    ComplementMeans(w, f, v);
  }

  // A field of unknown width is complemented by all ones only.
  lemma AllOnesAsked(place: Rtx, width: Rtx, position: Rtx, v: int, env: Env)
    requires !Is0(width, CONST_INT)
    ensures Meets(190, [place, width, position, ConstInt(v)], env) <==> v == -1
  {
    hide Emit;
    hide Operand;
    var ops := [place, width, position, ConstInt(v)];
    Emitted(190, ops, 1);
    Emitted(190, ops, 3);
  }
}
