// Hard register sets (cmd/gcc/h/hard-reg-set.h): sets of register numbers kept as
// arrays of longs, and what the macros on them mean.

module HardRegSet {
  import opened Common

  // HOST_BITS_PER_LONG, whatever it is.  The masks are made by shifting an int, so a
  // long must be no wider than an int.
  type Width = n: int | n > 0 witness 1

  // A long, bit 0 first.
  type Long = seq<bool>

  predicate Longs(s: seq<Long>, bits: Width) { forall i | 0 <= i < |s| :: |s[i]| == bits }

  // The scalar macros, used when one long holds the whole set.
  function Ones(bits: Width, b: bool): Long { seq(bits, _ => b) }

  function Bit(bits: Width, n: int): Long { seq(bits, i => i == n) }

  function Not(a: Long): Long { seq(|a|, i requires 0 <= i < |a| => !a[i]) }

  function And(a: Long, b: Long): Long
    requires |a| == |b|
  {
    seq(|a|, i requires 0 <= i < |a| => a[i] && b[i])
  }

  function Or(a: Long, b: Long): Long
    requires |a| == |b|
  {
    seq(|a|, i requires 0 <= i < |a| => a[i] || b[i])
  }

  // Where register p is kept.
  lemma Place(p: int, n: nat, bits: Width)
    requires 0 <= p < n * bits
    ensures 0 <= p / bits < n && 0 <= p % bits < bits && p == p / bits * bits + p % bits
  {
    QuotientBelow(p, bits, n);
  }

  lemma PlaceOf(i: nat, j: nat, n: nat, bits: Width)
    requires i < n && j < bits
    ensures 0 <= i * bits + j < n * bits && (i * bits + j) / bits == i && (i * bits + j) % bits == j
  {
    DivUnique(i * bits + j, bits, i, j);
    Multiple(n - i, bits);
    assert (n - i) * bits == n * bits - i * bits;
    if i > 0 { Multiple(i, bits); }
  }

  // The register number p is in the set.
  predicate Has(s: seq<Long>, bits: Width, p: int)
    requires Longs(s, bits) && 0 <= p < |s| * bits
  {
    Place(p, |s|, bits);
    s[p / bits][p % bits]
  }

  // The register numbers in a set.
  function Members(s: seq<Long>, bits: Width): set<int>
    requires Longs(s, bits)
  {
    set p | 0 <= p < |s| * bits && Has(s, bits, p)
  }

  // All the registers n longs have room for.
  function Universe(n: nat, bits: Width): set<int> { Members(seq(n, _ => Ones(bits, true)), bits) }

  lemma UniverseMeans(n: nat, bits: Width, p: int)
    ensures p in Universe(n, bits) <==> 0 <= p < n * bits
  {
    if 0 <= p < n * bits { Place(p, n, bits); }
  }

  // Two sets of equally many longs with the same bits hold the same registers, and
  // no others do.
  lemma SameMembers(s: seq<Long>, t: seq<Long>, bits: Width)
    requires Longs(s, bits) && Longs(t, bits) && |s| == |t|
    ensures Members(s, bits) == Members(t, bits) <==> s == t
  {
    if Members(s, bits) == Members(t, bits) {
      forall i | 0 <= i < |s| ensures s[i] == t[i] {
        forall j | 0 <= j < bits ensures s[i][j] == t[i][j] {
          var p := i * bits + j;
          PlaceOf(i, j, |s|, bits);
          assert p in Members(s, bits) <==> s[i][j];
          assert p in Members(t, bits) <==> t[i][j];
        }
      }
    }
  }

  // SET_HARD_REG_BIT
  method SetBit(a: array<Long>, bits: Width, bit: nat)
    requires Longs(a[..], bits) && bit < a.Length * bits
    modifies a
    ensures Longs(a[..], bits)
    ensures Members(a[..], bits) == Members(old(a[..]), bits) + {bit}
  {
    hide Members;
    hide Has;
    Place(bit, a.Length, bits);
    var word := a[bit / bits];
    a[bit / bits] := Or(word, Bit(bits, bit % bits));
    Changed(old(a[..]), a[..], bits, bit);
  }

  // CLEAR_HARD_REG_BIT
  method ClearBit(a: array<Long>, bits: Width, bit: nat)
    requires Longs(a[..], bits) && bit < a.Length * bits
    modifies a
    ensures Longs(a[..], bits)
    ensures Members(a[..], bits) == Members(old(a[..]), bits) - {bit}
  {
    hide Members;
    hide Has;
    Place(bit, a.Length, bits);
    var word := a[bit / bits];
    a[bit / bits] := And(word, Not(Bit(bits, bit % bits)));
    Changed(old(a[..]), a[..], bits, bit);
  }

  // s and t differ at most in the register number bit.
  lemma Changed(s: seq<Long>, t: seq<Long>, bits: Width, bit: nat)
    requires Longs(s, bits) && Longs(t, bits) && |s| == |t| && bit < |s| * bits
    requires 0 <= bit / bits < |s| && 0 <= bit % bits < bits
    requires forall i | 0 <= i < |s| && i != bit / bits :: t[i] == s[i]
    requires forall j | 0 <= j < bits && j != bit % bits :: t[bit / bits][j] == s[bit / bits][j]
    ensures Members(t, bits) ==
      if t[bit / bits][bit % bits] then Members(s, bits) + {bit} else Members(s, bits) - {bit}
  {
    Place(bit, |s|, bits);
    forall p | 0 <= p < |s| * bits && p != bit ensures Has(s, bits, p) <==> Has(t, bits, p) { Place(p, |s|, bits); }
  }

  // TEST_HARD_REG_BIT
  method TestBit(a: array<Long>, bits: Width, bit: nat) returns (r: bool)
    requires Longs(a[..], bits) && bit < a.Length * bits
    ensures r <==> bit in Members(a[..], bits)
  {
    Place(bit, a.Length, bits);
    var masked := And(a[bit / bits], Bit(bits, bit % bits));
    r := masked != Ones(bits, false);
    assert r ==> exists j :: 0 <= j < bits && masked[j];
    if a[bit / bits][bit % bits] { assert masked[bit % bits]; }
  }

  // CLEAR_HARD_REG_SET (b false) and SET_HARD_REG_SET (b true)
  method Fill(to: array<Long>, bits: Width, b: bool)
    modifies to
    ensures Longs(to[..], bits) && forall i | 0 <= i < to.Length :: to[i] == Ones(bits, b)
    ensures Members(to[..], bits) == if b then Universe(to.Length, bits) else {}
  {
    for i := 0 to to.Length
      invariant forall j | 0 <= j < i :: to[j] == Ones(bits, b)
    {
      to[i] := Ones(bits, b);
    }
    assert b ==> to[..] == seq(to.Length, _ => Ones(bits, true));
    forall p | 0 <= p < to.Length * bits && !b ensures !Has(to[..], bits, p) { Place(p, to.Length, bits); }
  }

  // The words of a binary macro: what one step of its loop stores.
  datatype Op = CopyOp | ComplOp | AndOp | AndComplOp | IorOp | IorComplOp

  function Step(op: Op, to: Long, from: Long): Long
    requires |to| == |from|
  {
    match op
    case CopyOp => from
    case ComplOp => Not(from)
    case AndOp => And(to, from)
    case AndComplOp => And(to, Not(from))
    case IorOp => Or(to, from)
    case IorComplOp => Or(to, Not(from))
  }

  // The set operation the macro is documented to perform, among the registers all.
  function SetOp(op: Op, to: set<int>, from: set<int>, all: set<int>): set<int> {
    match op
    case CopyOp => from
    case ComplOp => all - from
    case AndOp => to * from
    case AndComplOp => to - from
    case IorOp => to + from
    case IorComplOp => to + (all - from)
  }

  lemma StepMeansSetOp(op: Op, s: seq<Long>, t: seq<Long>, r: seq<Long>, bits: Width)
    requires Longs(s, bits) && Longs(t, bits) && Longs(r, bits)
    requires |s| == |t| == |r| && forall i | 0 <= i < |s| :: r[i] == Step(op, s[i], t[i])
    ensures Members(r, bits) == SetOp(op, Members(s, bits), Members(t, bits), Universe(|s|, bits))
  {
    forall p ensures p in Members(r, bits) <==>
        p in SetOp(op, Members(s, bits), Members(t, bits), Universe(|s|, bits))
    {
      UniverseMeans(|s|, bits, p);
      if 0 <= p < |s| * bits { Place(p, |s|, bits); }
    }
  }

  // COPY_, COMPL_, AND_, AND_COMPL_, IOR_ and IOR_COMPL_HARD_REG_SET.  The two
  // arguments may be one array: each element is read before it is stored.
  method Combine(op: Op, to: array<Long>, from: array<Long>, bits: Width)
    requires to.Length == from.Length && Longs(to[..], bits) && Longs(from[..], bits)
    modifies to
    ensures Longs(to[..], bits)
    ensures forall i | 0 <= i < to.Length ::
        |old(to[i])| == |old(from[i])| && to[i] == Step(op, old(to[i]), old(from[i]))
    ensures Members(to[..], bits) ==
      SetOp(op, Members(old(to[..]), bits), Members(old(from[..]), bits), Universe(to.Length, bits))
  {
    ghost var s, t := to[..], from[..];
    for i := 0 to to.Length
      invariant forall j | 0 <= j < i :: to[j] == Step(op, s[j], t[j])
      invariant forall j | i <= j < to.Length :: to[j] == s[j] && from[j] == t[j]
    {
      assert to[i] == s[i] && from[i] == t[i];
      to[i] := Step(op, to[i], from[i]);
    }
    StepMeansSetOp(op, s, t, to[..], bits);
  }

  // GO_IF_HARD_REG_SUBSET: the loop runs to the end exactly on a subset.
  method IsSubset(x: array<Long>, y: array<Long>, bits: Width) returns (go: bool)
    requires x.Length == y.Length && Longs(x[..], bits) && Longs(y[..], bits)
    ensures go <==> Members(x[..], bits) <= Members(y[..], bits)
  {
    var i := 0;
    while i < x.Length
      invariant 0 <= i <= x.Length
      invariant forall j, b | 0 <= j < i && 0 <= b < bits && x[..][j][b] :: y[..][j][b]
    {
      assert x[..][i] == x[i] && y[..][i] == y[i];
      var rest := And(x[i], Not(y[i]));
      if rest != Ones(bits, false) {
        ghost var b :| 0 <= b < bits && rest[b];
        ghost var p := i * bits + b;
        PlaceOf(i, b, x.Length, bits);
        assert p in Members(x[..], bits) && p !in Members(y[..], bits);
        return false;
      }
      forall b | 0 <= b < bits && x[i][b] ensures y[i][b] { assert !rest[b]; }
      i := i + 1;
    }
    forall p | p in Members(x[..], bits) ensures p in Members(y[..], bits) { Place(p, x.Length, bits); }
    return true;
  }

  // The scalar form of the subset test is the array form on one long.
  lemma ScalarSubset(x: Long, y: Long, bits: Width)
    requires |x| == |y| == bits
    ensures And(x, Not(y)) == Ones(bits, false) <==> Members([x], bits) <= Members([y], bits)
  {
    var rest := And(x, Not(y));
    forall b | 0 <= b < bits
      ensures (b in Members([x], bits) <==> x[b]) && (b in Members([y], bits) <==> y[b])
    {
      PlaceOf(0, b, 1, bits);
    }
    if Members([x], bits) <= Members([y], bits) {
      forall b | 0 <= b < bits ensures !rest[b] { assert x[b] ==> b in Members([y], bits); }
    } else {
      var b :| b in Members([x], bits) && b !in Members([y], bits);
      assert rest[b];
    }
  }
}
