// Loops closed by decrement-and-branch on the 68000 (output_240 to output_242 in
// cmd/gcc/m68k.gen/insn-output.c).

module CountedLoop {

  const WORD := 0x1_0000_0000
  const HALF := 0x1_0000

  type Word = x: int | 0 <= x < 0x1_0000_0000

  // Where the counter is kept.
  datatype Place = DataReg | AddressReg | Memory

  // The instructions of the three outputs, on the counter and the carry flag.
  datatype Instr =
    | DBRA          // low half minus one; branch unless it became -1
    | CLRW          // clear the low half
    | SUBQW | SUBQL // subtract one, setting the carry
    | CMPL          // compare with -1, setting the zero flag
    | SUBQA | CMPA  // subqw and cmpw on an address register: the whole of it
    | JCC           // branch if no carry
    | JNE           // branch if not zero

  datatype State = State(counter: Word, carry: bool, zero: bool)

  datatype Outcome = Branch(counter: Word) | FallThrough(counter: Word)

  function LowHalf(v: Word): int { v % HALF }

  function WithLowHalf(v: Word, h: int): Word
    requires 0 <= h < HALF
  {
    v - v % HALF + h
  }

  // One instruction: either a jump or the next state.
  function Execute(i: Instr, s: State): (r: (bool, State)) {
    var v := s.counter;
    match i
    case DBRA =>
      var h := (LowHalf(v) - 1) % HALF;
      (h != HALF - 1, State(WithLowHalf(v, h), s.carry, s.zero))
    case CLRW => (false, State(WithLowHalf(v, 0), false, true))
    case SUBQW => var h := (LowHalf(v) - 1) % HALF; (false, State(WithLowHalf(v, h), LowHalf(v) < 1, h == 0))
    case SUBQL => var w := (v - 1) % WORD; (false, State(w, v < 1, w == 0))
    case SUBQA => (false, State((v - 1) % WORD, s.carry, s.zero))
    case CMPA => (false, State(v, s.carry, v == WORD - 1))
    case CMPL => (false, State(v, s.carry, v == WORD - 1))
    case JCC => (!s.carry, s)
    case JNE => (!s.zero, s)
  }

  function Run(code: seq<Instr>, s: State): Outcome {
    if code == [] then FallThrough(s.counter)
    else
      var (jump, next) := Execute(code[0], s);
      if jump then Branch(next.counter) else Run(code[1..], next)
  }

  // output_240
  function HalfwordCode(p: Place): seq<Instr> {
    match p
    case DataReg => [DBRA]
    case Memory => [SUBQW, JCC]
    case AddressReg => [SUBQA, CMPA, JNE]
  }

  // output_241 and output_242
  function WordCode(p: Place): seq<Instr> {
    match p
    case DataReg => [DBRA, CLRW, SUBQL, JCC]
    case Memory => [SUBQL, JCC]
    case AddressReg => [SUBQL, CMPL, JNE]
  }

  // An exact 32-bit decrement, and a branch unless the result is -1: the meaning of
  // the insn whose condition is (ne (compare (plus op -1) -1) 0).
  function Decrement(v: Word): Outcome {
    var w := (v - 1) % WORD;
    if w != WORD - 1 then Branch(w) else FallThrough(w)
  }

  lemma RunStep(i: Instr, rest: seq<Instr>, s: State)
    ensures var (jump, next) := Execute(i, s);
      Run([i] + rest, s) == if jump then Branch(next.counter) else Run(rest, next)
  {
    assert ([i] + rest)[1..] == rest;
  }

  // dbra leaves v - 1, or exchanges a zero low half for -1, which clrw undoes.
  lemma DbraNonzero(s: State)
    requires LowHalf(s.counter) != 0
    ensures Execute(DBRA, s).0 && Execute(DBRA, s).1.counter == s.counter - 1
  {}

  lemma DbraZero(s: State)
    requires LowHalf(s.counter) == 0
    ensures var r := Execute(DBRA, s); !r.0 && !Execute(CLRW, r.1).0 && Execute(CLRW, r.1).1.counter == s.counter
  {}

  lemma SubtractAndTest(s: State)
    ensures Run([SUBQL, JCC], s) == Decrement(s.counter)
  {}

  lemma DataRegDecrements(s: State)
    ensures Run(WordCode(DataReg), s) == Decrement(s.counter)
  {
    assert WordCode(DataReg) == [DBRA] + [CLRW, SUBQL, JCC];
    RunStep(DBRA, [CLRW, SUBQL, JCC], s);
    if LowHalf(s.counter) == 0 {
      DbraZero(s);
      var s1 := Execute(DBRA, s).1;
      assert [CLRW, SUBQL, JCC] == [CLRW] + [SUBQL, JCC];
      RunStep(CLRW, [SUBQL, JCC], s1);
      SubtractAndTest(Execute(CLRW, s1).1);
    } else {
      DbraNonzero(s);
    }
    hide Execute;
    hide Run;
    hide WordCode;
    hide LowHalf;
  }

  lemma WordCodeDecrements(p: Place, s: State)
    ensures Run(WordCode(p), s) == Decrement(s.counter)
  {
    match p {
      case DataReg =>
        DataRegDecrements(s);
      case Memory =>
        SubtractAndTest(s);
      case AddressReg =>
        assert WordCode(p) == [SUBQL] + [CMPL, JNE];
        RunStep(SUBQL, [CMPL, JNE], s);
        WordTail(CMPL, JNE, Execute(SUBQL, s).1);
    }
  }

  // The last two instructions.
  lemma WordTail(i: Instr, j: Instr, s: State)
    requires !Execute(i, s).0
    ensures var (jump, next) := Execute(j, Execute(i, s).1);
      Run([i, j], s) == if jump then Branch(next.counter) else FallThrough(next.counter)
  {
    assert [i, j] == [i] + [j] && [j] == [j] + [];
    RunStep(i, [j], s);
    RunStep(j, [], Execute(i, s).1);
  }

  // The GE form: branch while the decremented counter is nonnegative as a signed word.
  predicate Nonnegative(v: int) { v % WORD < 0x8000_0000 }

  function DecrementGe(v: Word): Outcome {
    var w := (v - 1) % WORD;
    if Nonnegative(w) then Branch(w) else FallThrough(w)
  }

  // The same code serves the GE form exactly when the counter is nonnegative before,
  // which is what its REG_NONNEG note says, or is the word 0x80000000.
  lemma NonnegativeForm(p: Place, s: State)
    ensures Run(WordCode(p), s) == DecrementGe(s.counter) <==> Nonnegative(s.counter) || s.counter == 0x8000_0000
  {
    hide Run;
    hide WordCode;
    WordCodeDecrements(p, s);
    OneLess(s.counter);
  }

  // The decremented word, without a remainder.
  lemma OneLess(v: Word)
    ensures (v - 1) % WORD == if v == 0 then WORD - 1 else v - 1
    ensures Nonnegative(v) <==> v < 0x8000_0000
    ensures Nonnegative((v - 1) % WORD) <==> 0 < v <= 0x8000_0000
  {}

  // The halfword form decrements the counter's low half, and in a data register or in
  // memory keeps the rest of the place.  It branches unless the low half became -1,
  // but for one case: an address register is compared whole, so a zero low half is
  // not seen to run out when the upper half is not zero too.
  lemma HalfwordCodeDecrements(p: Place, s: State)
    ensures var h, o := (LowHalf(s.counter) - 1) % HALF, Run(HalfwordCode(p), s);
      && LowHalf(o.counter) == h && (p != AddressReg ==> o.counter == WithLowHalf(s.counter, h))
      && ((o.Branch? <==> h != HALF - 1) <==> p != AddressReg || LowHalf(s.counter) != 0 || s.counter == 0)
  {
    hide Run;
    match p {
      case DataReg =>
        assert [DBRA] == [DBRA] + [];
        RunStep(DBRA, [], s);
        RunNothing(Execute(DBRA, s).1);
        NewLowHalf(s.counter, (LowHalf(s.counter) - 1) % HALF);
      case Memory =>
        WordTail(SUBQW, JCC, s);
        NewLowHalf(s.counter, (LowHalf(s.counter) - 1) % HALF);
      case AddressReg =>
        assert HalfwordCode(p) == [SUBQA] + [CMPA, JNE];
        RunStep(SUBQA, [CMPA, JNE], s);
        WordTail(CMPA, JNE, Execute(SUBQA, s).1);
        LessOne(s.counter);
    }
  }

  lemma RunNothing(s: State)
    ensures Run([], s) == FallThrough(s.counter)
  {}

  lemma NewLowHalf(v: Word, h: int)
    requires 0 <= h < HALF
    ensures LowHalf(WithLowHalf(v, h)) == h
  {
    assert WithLowHalf(v, h) == v / HALF * HALF + h;
  }

  lemma LessOne(v: Word)
    ensures LowHalf((v - 1) % WORD) == (LowHalf(v) - 1) % HALF
  {}

  // A loop whose body leaves the counter alone and which is closed by the word code
  // runs its body n + 1 times, for every 32-bit n, and leaves the counter at -1.
  method LoopRuns(p: Place, n: Word) returns (bodies: nat, counter: Word)
    ensures bodies == n + 1 && counter == WORD - 1
  {
    counter, bodies := n, 0;
    var again := true;
    while again
      invariant again ==> bodies + counter == n
      invariant !again ==> bodies == n + 1 && counter == WORD - 1
      decreases again, counter
    {
      bodies := bodies + 1;
      var o := Run(WordCode(p), State(counter, false, false));
      WordCodeDecrements(p, State(counter, false, false));
      again := o.Branch?;
      counter := o.counter;
    }
  }

  // So does one closed by the GE form, from a nonnegative n.
  method GeLoopRuns(p: Place, n: Word) returns (bodies: nat, counter: Word)
    requires Nonnegative(n)
    ensures bodies == n + 1 && counter == WORD - 1
  {
    counter, bodies := n, 0;
    var again := true;
    while again
      invariant again ==> bodies + counter == n
      invariant !again ==> bodies == n + 1 && counter == WORD - 1
      decreases again, counter
    {
      bodies := bodies + 1;
      var o := Run(WordCode(p), State(counter, false, false));
      NonnegativeForm(p, State(counter, false, false));
      assert o == DecrementGe(counter);
      again := o.Branch?;
      counter := o.counter;
    }
  }
}
