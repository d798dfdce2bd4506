// Addressing modes of the m68k: the addresses GO_IF_LEGITIMATE_ADDRESS of
// cmd/gcc/m68k.gen/tm-m68k.h accepts are those the processor has.

module M68kAddress {
  import opened Common
  import opened Rtl
  import opened RtlValue
  import opened OperandPredicates

  // --------------------------------------------------------------------------
  // The processor's modes: (base)+, -(base) and base + index * scale + displacement.

  // A base register, or the program counter at a label.
  datatype Base = Register(n: int) | AtLabel(mode: Mode, l: Rtx)

  // The whole of a register, or its sign-extended low half.
  datatype Index = Index(n: int, halfword: bool, scale: int)

  datatype Parts = Parts(base: Option<Base>, index: Option<Index>, disp: Option<Rtx>)

  // INTVAL as the signed int it is kept in.
  function SignedWord(v: int): int { (v + 0x8000_0000) % WORD - 0x8000_0000 }

  predicate Fits(d: Rtx, half: int) { Is0(d, CONST_INT) && -half <= SignedWord(d.val) < half }

  // With an index the displacement has eight bits and the base may be a label; with a
  // base register alone it has sixteen; alone it is any constant.
  predicate Encodable(p: Parts, c: M68k) {
    match p.index
    case Some(Index(n, _, scale)) =>
      && c.index(n) && (scale == 1 || (c.t68020 && scale in {2, 4, 8}))
      && p.base.Some? && (p.base.value.Register? ==> c.base(p.base.value.n))
      && (p.disp.Some? ==> Fits(p.disp.value, 0x80))
    case None =>
      match p.base
      case Some(Register(n)) => c.base(n) && (p.disp.Some? ==> Fits(p.disp.value, 0x8000))
      case Some(AtLabel(_, _)) => false
      case None => p.disp.Some? && ConstantP(p.disp.value)
  }

  function BaseValue(b: Option<Base>, m: Machine): int {
    match b
    case None => 0
    case Some(Register(n)) => Wrap(m.reg(n))
    case Some(AtLabel(mode, l)) => Value(X1(LABEL_REF, mode, l), m)
  }

  function IndexValue(i: Option<Index>, m: Machine): int {
    match i
    case None => 0
    case Some(Index(n, halfword, scale)) =>
      Wrap((if halfword then SignExtend16(m.reg(n) % WORD) else Wrap(m.reg(n))) * scale)
  }

  function PartsValue(p: Parts, m: Machine): int {
    Wrap(BaseValue(p.base, m) + IndexValue(p.index, m) + if p.disp.Some? then Value(p.disp.value, m) else 0)
  }

  // --------------------------------------------------------------------------
  // The usual rtx of a mode

  function BaseRtx(b: Base): Rtx {
    match b
    case Register(n) => Reg(SI, n)
    case AtLabel(mode, l) => X1(LABEL_REF, mode, l)
  }

  function IndexRtx(i: Index): Rtx {
    var x := if i.halfword then X1(SIGN_EXTEND, SI, Reg(HI, i.n)) else Reg(SI, i.n);
    if i.scale == 1 then x else X2(MULT, SI, x, ConstInt(i.scale))
  }

  function AddressRtx(p: Parts): Rtx {
    if p.index.Some? && p.base.Some? then
      var x := X2(PLUS, SI, IndexRtx(p.index.value), BaseRtx(p.base.value));
      if p.disp.Some? then X2(PLUS, SI, x, p.disp.value) else x
    else if p.base.Some? then
      if p.disp.Some? then X2(PLUS, SI, BaseRtx(p.base.value), p.disp.value) else BaseRtx(p.base.value)
    else if p.disp.Some? then p.disp.value else ConstInt(0)
  }

  // --------------------------------------------------------------------------
  // From an address to its mode

  function BaseOf(x: Rtx): Base {
    match x
    case X1(LABEL_REF, mode, l) => AtLabel(mode, l)
    case X0(_, _, n) => Register(n)
    case _ => Register(0)
  }

  function RegisterOf(x: Rtx): Index {
    match x
    case X0(_, _, n) => Index(n, false, 1)
    case X1(_, _, X0(_, _, n)) => Index(n, true, 1)
    case _ => Index(0, false, 1)
  }

  function IndexOf(x: Rtx): Index {
    match x
    case X2(MULT, _, a, X0(_, _, scale)) => RegisterOf(a).(scale := scale)
    case _ => RegisterOf(x)
  }

  function IndexedOf(x: Rtx, c: M68k): Parts {
    if !x.X2? then Parts(None, None, None)
    else if OperandPredicates.Index(x.left, c) && IndexableBase(x.right, c) then
      Parts(Some(BaseOf(x.right)), Some(IndexOf(x.left)), None)
    else Parts(Some(BaseOf(x.left)), Some(IndexOf(x.right)), None)
  }

  function WithDisp(p: Parts, d: Rtx): Parts { Parts(p.base, p.index, Some(d)) }

  function PartsOf(x: Rtx, c: M68k): Parts {
    if ConstantP(x) then Parts(None, None, Some(x))
    else if BaseRegister(x, c) then Parts(Some(BaseOf(x)), None, None)
    else if !x.X2? then Parts(None, None, None)
    else if BaseRegister(x.left, c) && Displacement(x.right, 0x8000) then
      Parts(Some(BaseOf(x.left)), None, Some(x.right))
    else if Indexing(x, c) then IndexedOf(x, c)
    else if Displacement(x.right, 0x80) && Indexing(x.left, c) then WithDisp(IndexedOf(x.left, c), x.right)
    else WithDisp(IndexedOf(x.right, c), x.left)
  }

  predicate Stepping(x: Rtx, c: M68k) { (Is1(x, PRE_DEC) || Is1(x, POST_INC)) && BaseRegister(x.arg, c) }

  // --------------------------------------------------------------------------
  // The two agree.

  lemma DisplacementFits(x: Rtx, half: int)
    requires 0 < half <= 0x8000
    ensures Displacement(x, half) <==> Fits(x, half)
  {}

  lemma BaseMeans(x: Rtx, c: M68k, m: Machine)
    requires IndexableBase(x, c)
    ensures BaseValue(Some(BaseOf(x)), m) == Value(x, m)
    ensures BaseOf(x).Register? ==> c.base(BaseOf(x).n)
  {}

  lemma RegisterMeans(x: Rtx, c: M68k, m: Machine)
    requires IndexRegister(x, c)
    ensures var i := RegisterOf(x);
      && i.scale == 1 && c.index(i.n)
      && Value(x, m) == if i.halfword then SignExtend16(m.reg(i.n) % WORD) else Wrap(m.reg(i.n))
  {
    hide SignExtend16;
    if x.X1? { assert Value(x.arg, m) == m.reg(x.arg.val) % WORD; }
  }

  lemma IndexMeans(x: Rtx, c: M68k, m: Machine)
    requires OperandPredicates.Index(x, c)
    ensures var i := IndexOf(x);
      && c.index(i.n) && (i.scale == 1 || (c.t68020 && i.scale in {2, 4, 8}))
      && IndexValue(Some(i), m) == Value(x, m)
  {
    hide SignExtend16;
    ValueInRange(x, m);
    if IndexRegister(x, c) {
      RegisterMeans(x, c, m);
    } else {
      RegisterMeans(x.left, c, m);
      assert Value(x.right, m) == x.right.val;
    }
  }

  lemma IndexedMeans(x: Rtx, c: M68k, m: Machine)
    requires Indexing(x, c)
    ensures var p := IndexedOf(x, c);
      && Encodable(p, c) && p.index.Some? && p.disp == None
      && Wrap(BaseValue(p.base, m) + IndexValue(p.index, m)) == Value(x, m)
  {
    hide OperandPredicates.Index;
    hide IndexableBase;
    hide IndexOf;
    hide BaseOf;
    if OperandPredicates.Index(x.left, c) && IndexableBase(x.right, c) {
      IndexMeans(x.left, c, m);
      BaseMeans(x.right, c, m);
    } else {
      IndexMeans(x.right, c, m);
      BaseMeans(x.left, c, m);
    }
  }

  lemma DisplacedMeans(x: Rtx, d: Rtx, c: M68k, m: Machine)
    requires Indexing(x, c) && Displacement(d, 0x80)
    ensures var p := WithDisp(IndexedOf(x, c), d);
      Encodable(p, c) && PartsValue(p, m) == Wrap(Value(x, m) + Value(d, m))
  {
    hide Indexing;
    hide IndexedOf;
    hide Wrap;
    hide Value;
    hide Displacement;
    hide Fits;
    IndexedMeans(x, c, m);
    DisplacementFits(d, 0x80);
    var p := IndexedOf(x, c);
    WrapSum(BaseValue(p.base, m) + IndexValue(p.index, m), Value(d, m));
  }

  lemma RegisterDisplaced(x: Rtx, d: Rtx, c: M68k, m: Machine)
    requires BaseRegister(x, c) && Displacement(d, 0x8000)
    ensures var p := Parts(Some(BaseOf(x)), None, Some(d));
      Encodable(p, c) && PartsValue(p, m) == Wrap(Value(x, m) + Value(d, m))
  {
    hide Displacement;
    hide Fits;
    hide Value;
    BaseMeans(x, c, m);
    DisplacementFits(d, 0x8000);
  }

  lemma SumValue(x: Rtx, m: Machine)
    requires Is2(x, PLUS)
    ensures Value(x, m) == Wrap(Value(x.left, m) + Value(x.right, m))
    ensures Value(x, m) == Wrap(Value(x.right, m) + Value(x.left, m))
  {}

  // An accepted address is a mode of the processor with the same value, or steps its
  // base register.
  lemma LegitimateDecomposes(x: Rtx, c: M68k, m: Machine)
    requires M68kLegitimate(x, c)
    ensures Stepping(x, c) || (Encodable(PartsOf(x, c), c) && PartsValue(PartsOf(x, c), m) == Value(x, m))
  {
    hide Indexing;
    hide IndexedOf;
    hide Displacement;
    hide Encodable;
    hide Value;
    hide PartsValue;
    IndexingIsSum(x, c);
    if Stepping(x, c) {
    } else if ConstantP(x) || BaseRegister(x, c) {
      OneTerm(x, c, m);
    } else if BaseRegister(x.left, c) && Displacement(x.right, 0x8000) {
      RegisterDisplaced(x.left, x.right, c, m);
      SumValue(x, m);
    } else if Indexing(x, c) {
      IndexedAlone(x, c, m);
    } else if Displacement(x.right, 0x80) && Indexing(x.left, c) {
      DisplacedMeans(x.left, x.right, c, m);
      SumValue(x, m);
    } else {
      DisplacedMeans(x.right, x.left, c, m);
      SumValue(x, m);
    }
  }

  lemma OneTerm(x: Rtx, c: M68k, m: Machine)
    requires ConstantP(x) || BaseRegister(x, c)
    ensures Encodable(PartsOf(x, c), c) && PartsValue(PartsOf(x, c), m) == Value(x, m)
  {
    ValueInRange(x, m);
    hide Value;
    if !ConstantP(x) { BaseMeans(x, c, m); }
  }

  lemma IndexedAlone(x: Rtx, c: M68k, m: Machine)
    requires Indexing(x, c)
    ensures Encodable(IndexedOf(x, c), c) && PartsValue(IndexedOf(x, c), m) == Value(x, m)
  {
    hide Indexing;
    hide IndexedOf;
    hide Value;
    IndexedMeans(x, c, m);
  }

  lemma IndexingIsSum(x: Rtx, c: M68k)
    ensures Indexing(x, c) ==> Is2(x, PLUS)
  {}

  lemma IndexRtxMeans(i: Index, c: M68k, m: Machine)
    requires c.index(i.n) && (i.scale == 1 || (c.t68020 && i.scale in {2, 4, 8}))
    ensures OperandPredicates.Index(IndexRtx(i), c) && IndexOf(IndexRtx(i)) == i
  {}

  lemma BaseRtxMeans(b: Base, c: M68k, m: Machine)
    requires b.Register? ==> c.base(b.n)
    ensures IndexableBase(BaseRtx(b), c) && (b.Register? ==> BaseRegister(BaseRtx(b), c))
    ensures Value(BaseRtx(b), m) == BaseValue(Some(b), m)
  {}

  // Every mode of the processor is accepted in its usual rtx, and so is every
  // automatic increment of a base register.
  lemma ModesAreLegitimate(p: Parts, c: M68k, m: Machine)
    requires Encodable(p, c)
    ensures M68kLegitimate(AddressRtx(p), c) && Value(AddressRtx(p), m) == PartsValue(p, m)
  {
    hide Indexing;
    hide IndexRtx;
    hide BaseRtx;
    hide BaseValue;
    hide IndexValue;
    hide Fits;
    hide Displacement;
    hide Value;
    hide Wrap;
    if p.disp.Some? { DispFits(p.disp.value, m); }
    if p.base.Some? { BaseRtxMeans(p.base.value, c, m); }
    if p.index.Some? {
      IndexedRtx(p.index.value, p.base.value, c, m);
      WrapSum(BaseValue(p.base, m) + IndexValue(p.index, m), if p.disp.Some? then Value(p.disp.value, m) else 0);
    } else {
      NoIndex(p.base, m);
    }
    if p.disp.Some? && p.base.Some? {
      SumValue(AddressRtx(p), m);
    }
  }

  lemma NoIndex(b: Option<Base>, m: Machine)
    ensures IndexValue(None, m) == 0 && BaseValue(None, m) == 0 && Wrap(BaseValue(b, m)) == BaseValue(b, m)
  {
    if b.Some? && b.value.AtLabel? { ValueInRange(X1(LABEL_REF, b.value.mode, b.value.l), m); }
  }

  lemma DispFits(d: Rtx, m: Machine)
    ensures (Displacement(d, 0x80) <==> Fits(d, 0x80)) && (Displacement(d, 0x8000) <==> Fits(d, 0x8000))
    ensures Wrap(Value(d, m)) == Value(d, m)
  {
    ValueInRange(d, m);
    DisplacementFits(d, 0x80);
    DisplacementFits(d, 0x8000);
  }

  // An index and a base.
  lemma IndexedRtx(i: Index, b: Base, c: M68k, m: Machine)
    requires c.index(i.n) && (i.scale == 1 || (c.t68020 && i.scale in {2, 4, 8})) && (b.Register? ==> c.base(b.n))
    ensures var x := X2(PLUS, SI, IndexRtx(i), BaseRtx(b));
      Indexing(x, c) && Value(x, m) == Wrap(BaseValue(Some(b), m) + IndexValue(Some(i), m))
  {
    hide OperandPredicates.Index;
    hide IndexableBase;
    hide IndexRtx;
    hide BaseRtx;
    hide IndexOf;
    hide BaseValue;
    hide IndexValue;
    hide Wrap;
    IndexRtxMeans(i, c, m);
    IndexMeans(IndexRtx(i), c, m);
    BaseRtxMeans(b, c, m);
    SumValue(X2(PLUS, SI, IndexRtx(i), BaseRtx(b)), m);
    hide Value;
  }

  lemma StepsAreLegitimate(n: int, c: M68k)
    ensures c.base(n) <==> M68kLegitimate(X1(PRE_DEC, SI, Reg(SI, n)), c)
    ensures c.base(n) <==> M68kLegitimate(X1(POST_INC, SI, Reg(SI, n)), c)
    ensures !M68kLegitimate(X1(PRE_INC, SI, Reg(SI, n)), c) && !M68kLegitimate(X1(POST_DEC, SI, Reg(SI, n)), c)
  {}
}
