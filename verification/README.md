# The GCC 1.42 back ends for the i486 and the m68k

This project models the generated back ends of the compiler under `cmd/gcc` and
proves that they do what the machine descriptions say. The back ends work on register
transfer language (RTL), an inductive tree, so every main result is a statement about
all trees, all operands or all machine states.

* **Recognition.** `Rtl`, `Patterns`, `I486Description` and `M68kDescription` give the
  trees and the machine descriptions: one template per insn code with its operand
  predicates and modes, its condition, and the places its operands are extracted from.
  The reference is one line: the least code whose template, repeated operands and
  condition fit. `I486Recog` and `M68kRecog` are the recognisers, programs that search
  and backtrack while overwriting the array `recog_operand`, proved against it with no
  assumption about the insn. Two families of insns are misread; the exact condition is
  proved, with an example of each. `I486Emit` closes the circle: emit, recognise,
  extract; `M68kEmit` does the same for the m68k, with `M68kAlternatives` for the lower
  codes an emitted insn can come back under. `OperandPredicates` shows that the
  compiler's own operand predicates satisfy what the recognisers assume of them and what
  they accept, `M68kConditions` what the m68k insn conditions ask of constants and places,
  and `Misreading` what the misread insns are for those predicates.
* **Instruction selection.** Small machines (`I486Select`, `I486Jump`, `M68kMachine`)
  execute the chosen instructions, and the result is compared with what the pattern
  means: arithmetic, shifts, rotations, division, load address and conditional jumps on
  the i486; zero extension, addition and subtraction, narrowed logic, bit fields,
  counted loops, switch dispatch and the peephole on the m68k; floating-point branches
  on the 80387. `I486Compiled` joins recognition to selection: the instruction output
  for a recognised insn computes the value RTL gives its source (`RtlValue`, over the
  meaning of the integer codes in `Arithmetic`). `I486JumpCodes` and `M68kCodes` tie the
  jumps and the m68k outputs to the patterns of their codes: what code k outputs does what
  the insn built from pattern k says (`Control` for the insns that set pc).
* **Addresses.** `I486Address`, `M68kAddress` and `I486Frame`: which addresses are
  legitimate, the address rewriter, and the elimination of the frame pointer, each keeping
  the value. The frame is the one `function_prologue` of `cmd/gcc/i486.gen/aux-output.c`
  leaves in a function without a frame pointer.
* **Register sets.** `HardRegSet`: arrays of longs, of any width, as mathematical sets.

## How to read the recogniser theorems

`Recognise` is the whole of `recog`; `Answer` says what it returns for any rtx, and
`RightUnlessMisread` turns that into the first match, if and only if `Misread` does not
hold. `Holds` says that `recog_operand` has the operands of the answer, whatever the
abandoned branches left there. `Matches` contains the comparison of repeated operands;
`Rtl.RtxEqualMeans` and `Rtl.QuietEqual` say which trees it takes for equal.
`Env` holds the operand predicates (any that are `Sane`), the target flags, and the
REG_NONNEG note of the insn; a left shift of 1 by a count outside 0..31, which the
m68k conditions can ask the compiling host for, is a parameter of it too.

The two machines differ in what is misread. On both, a SET whose destination is an
integer or symbolic constant reaches no mode of the destination switch, so only the call
pattern can be found. On the i486, codes 59, 66 and 67 are returned without a test of
the mode of the source (`cmd/gcc/i486.gen/insn-recog.c:2268-2369`; the unused `recog_4`
has that test for code 59). On the m68k the low part of a constant is taken as a byte
before it is taken as a halfword.

Where the code and its comments disagree the model follows the code:

* `cmd/gcc/i486.gen/tm-i486.h:704-706` says that the address rewriter returns a valid
  address. That is false: `HalfwordStaysIllegitimate` and
  `StackPointerTwiceStaysIllegitimate` name two sums, and the contract of `Legitimize`
  says for which sums it is true. A sum that is rewritten keeps its first register
  operand, which has to be a possible base register; two registers that are returned as
  they stand have to be a base and an index. The value is right in every case.
* `cmd/gcc/i486.gen/md.v:1677-1679` exchanges the operands of a floating-point
  comparison so that a branch on less-than is not taken on unordered operands. When the
  second operand is on the register stack, `cmd/gcc/i486.gen/insn-output.c:160-181`
  exchanges them back; `UnorderedBranchTaken` is an input on which the branch is taken,
  and `BranchTaken` the exact condition.
* `cmd/gcc/i486.gen/tm-i486.h:538-540` says that an address relative to the frame
  pointer is corrected to be relative to the stack pointer. One at a negative offset is
  left alone (`NegativeOffsetStays`); `FramePointerStays` says exactly when the result
  still names the frame pointer.
* `cmd/gcc/m68k.gen/insn-output.c:786-826` also handles a byte extended to a halfword
  and stored through a popped stack pointer, and moves the stack pointer too far.
* `cmd/gcc/m68k.gen/insn-output.c:944-962` does not look whether the destination of the
  long addition is its base register.

## Model

| member | source | states |
|---|---|---|
| Patterns.BuildShape | cmd/gcc/i486.gen/insn-emit.c:31-497 | what an insn constructor builds from operands its templates accept has the shape of the define_insn, for every template and operand list |
| Patterns.ShapeHead | cmd/gcc/i486.gen/insn-recog.c:811-888 | a SET that fits a template shows it in the codes and modes of its destination and source, which is what the switches of the recogniser test first |
| OperandPredicates.PredicatesSane | cmd/gcc/i486.gen/insn-output.c:2389-2533 | the predicates the tables name, as cmd/gcc/src/recog.c defines them: the operand predicates, on any address test that admits only operands, sums, products and automatic increments, accept only what the recognisers assume of them |
| OperandPredicates.I486Sane | cmd/gcc/i486.gen/tm-i486.h:656-702 | with the i486 address test, strict or not, before or after reload, the assumption of the recogniser theorems holds |
| OperandPredicates.M68kSane | cmd/gcc/m68k.gen/insn-output.c:4775-5041 | the same for the m68k tables, with the address test of cmd/gcc/m68k.gen/tm-m68k.h |
| I486Index.SetIndexAll | cmd/gcc/i486.gen/insn-recog.c:828-888 | every code that matches a SET is among the few the recogniser tries for its destination and source; so what it does not try cannot match |
| I486Recog.Recog.Recognise | cmd/gcc/i486.gen/insn-recog.c:2071-2380 | for every rtx: the answer is the least matching code or -1 when none matches, but for the two documented misreadings, and when a code is returned recog_operand holds exactly what extraction of that code writes |
| I486Recog.RightUnlessMisread | cmd/gcc/i486.gen/insn-recog.c:2268-2369 | the answer is the first match if and only if the insn is not one of the misread family: a constant destination some other pattern admits, or a pair multiplying or dividing in a mode other than SImode |
| I486Recog.OnlyCall | cmd/gcc/i486.gen/insn-recog.c:996-1013 | when the call-with-value pattern matches a SET no other pattern does, so trying it after the comparisons and jumps keeps first-match order |
| I486Recog.ConstantDestinationMisread | cmd/gcc/i486.gen/insn-recog.c:828-850 | a concrete insn, a move into a constant, whose first match the recogniser misses |
| I486Recog.LooseModeMisread | cmd/gcc/i486.gen/insn-recog.c:2284-2369 | a concrete insn, an HImode division paired with its remainder, that is recognised as code 66 although no pattern matches it |
| I486Recog.Recog.Recog3 | cmd/gcc/i486.gen/insn-recog.c:812-1244 | for a SET: the least matching code, or the call pattern alone when the destination is a constant |
| I486Recog.Recog.CcDestination | cmd/gcc/i486.gen/insn-recog.c:881-964 | for a SET of cc0: the least matching test, comparison or test of an AND |
| I486Recog.Recog.PcDestination | cmd/gcc/i486.gen/insn-recog.c:971-989 | for a SET of pc: the least matching jump, conditional jump or inverted jump |
| I486Recog.Recog.CallValue | cmd/gcc/i486.gen/insn-recog.c:990-1007 | for any SET: code 140 exactly when it matches |
| I486Recog.Recog.StoreFlagSource | cmd/gcc/i486.gen/insn-recog.c:708-810 | for a QImode destination: the least matching stored flag |
| I486Recog.Recog.SiStep | cmd/gcc/i486.gen/insn-recog.c:1260-1301 | inc and dec before lea and add: codes 25 to 27 exactly when one matches |
| I486Recog.Recog.SiExtend | cmd/gcc/i486.gen/insn-recog.c:1380-1395 | the extensions to SImode, an HImode source before a QImode one |
| I486Recog.Recog.SiSource | cmd/gcc/i486.gen/insn-recog.c:1308-1520 | the remaining sources of an SImode destination: the least matching code among the candidates |
| I486Recog.Recog.FloatFlags | cmd/gcc/i486.gen/insn-recog.c:2120-2210 | for a PARALLEL that sets cc0: the least matching floating-point test or comparison |
| I486Recog.Recog.Multiply | cmd/gcc/i486.gen/insn-recog.c:2244-2298 | unsigned multiplication with a clobber of the second register, both widths |
| I486Recog.Recog.Divide | cmd/gcc/i486.gen/insn-recog.c:2299-2368 | quotient and remainder: both operands of the remainder are rtx-equal to those of the quotient |
| I486Recog.Recog.MultiplyDivide | cmd/gcc/i486.gen/insn-recog.c:2113-2368 | the three codes whose source mode is not tested answer as if the source were in SImode |
| I486Recog.Recog.Call | cmd/gcc/i486.gen/insn-recog.c:2369-2381 | a call whose value is not used |
| M68kIndex.SetIndexAll | cmd/gcc/m68k.gen/insn-recog.c:1975-2190 | every code that matches a SET is among those the m68k recogniser tries for its destination and source |
| M68kIndex.RowsMean | cmd/gcc/m68k.gen/insn-recog.c:886-1974 | each switch label of recog_3 to recog_5 tests exactly the operands and the condition of its code, and the labels of one source come in ascending code order |
| M68kRecog.Recog.Recognise | cmd/gcc/m68k.gen/insn-recog.c:3595-3644 | for every rtx and every setting of the target flags: the least matching code or -1 when none matches, but for constant destinations, and recog_operand holds exactly what extraction of the answer writes, duplicates rtx-equal to the operand they repeat |
| M68kRecog.RightUnlessMisread | cmd/gcc/m68k.gen/insn-recog.c:2001-2072 | the answer is the first match if and only if the insn is not misread, and always when no SET destination is a VOIDmode constant |
| M68kRecog.ConstantDestinationMisread | cmd/gcc/m68k.gen/insn-recog.c:2001-2044 | a concrete insn, a move into a constant, whose first match the recogniser misses |
| M68kRecog.StrictConstantMisread | cmd/gcc/m68k.gen/insn-recog.c:2055-2066 | a concrete insn, a low part of a constant, for which code 35 is returned although code 33 matches |
| M68kMeaning.StrictOrder | cmd/gcc/m68k.gen/insn-recog.c:2055-2148 | the QImode codes tried before the HImode ones exclude each other but for that insn |
| M68kMeaning.OnlyCall | cmd/gcc/m68k.gen/insn-recog.c:1991-1993 | when code 244 matches, nothing else does |
| M68kMeaning.PairIndex | cmd/gcc/m68k.gen/insn-recog.c:3106-3224 | which codes can match a PARALLEL, by what its first SET sets |
| M68kMeaning.CountRow | cmd/gcc/m68k.gen/insn-recog.c:3282-3435 | codes 240 and 241 match exactly when the condition, the label, the decremented place and its two repetitions are as recog_7 tests them |
| M68kMeaning.CountNonnegativeRow | cmd/gcc/m68k.gen/insn-recog.c:3436-3512 | the same for code 242, which also needs the note that the counter is not negative |
| M68kMeaning.ComplementRow | cmd/gcc/m68k.gen/insn-recog.c:2255-2283 | code 190 matches exactly when the complemented field is the one stored and the mask covers its width |
| M68kMeaning.DivModRow | cmd/gcc/m68k.gen/insn-recog.c:3522-3594 | quotient and remainder match exactly when their operands are rtx-equal |
| M68kRecog.Recog.CcDestination | cmd/gcc/m68k.gen/insn-recog.c:34-457 | for a SET of cc0: the least matching test, comparison, bit test or field test |
| M68kRecog.Recog.CcCompare | cmd/gcc/m68k.gen/insn-recog.c:76-213 | comparisons of three integer and two real modes, and of a byte with the top byte of a long |
| M68kRecog.Recog.BitTest | cmd/gcc/m68k.gen/insn-recog.c:225-311 | single-bit tests with a position counted from the top, masked or constant |
| M68kRecog.Recog.CcField | cmd/gcc/m68k.gen/insn-recog.c:349-457 | tests of a bit field, whole or in its low part |
| M68kRecog.Recog.PcDestination | cmd/gcc/m68k.gen/insn-recog.c:459-885 | jumps and conditional jumps, the label in either arm |
| M68kRecog.Recog.StrictDestination | cmd/gcc/m68k.gen/insn-recog.c:2055-2148 | strict_low_part destinations |
| M68kRecog.Recog.HiDestination | cmd/gcc/m68k.gen/insn-recog.c:2001-2011 | an HImode destination: the least matching code among all that can match it |
| M68kRecog.Recog.SiSource | cmd/gcc/m68k.gen/insn-recog.c:1596-1974 | an SImode destination whose moves failed: the least matching arithmetic code |
| M68kRecog.Recog.AndSource | cmd/gcc/m68k.gen/insn-recog.c:1826-1861 | and with an operand before and of an extended byte or halfword |
| M68kRecog.Recog.FieldDestination | cmd/gcc/m68k.gen/insn-recog.c:2220-2327 | a stored bit field: the least matching code among those of a byte place and of a long place |
| M68kRecog.Recog.LateSource | cmd/gcc/m68k.gen/insn-recog.c:2328-2427 | extracted fields and load address, tried after the arithmetic |
| M68kRecog.Recog.MultiplyAdd | cmd/gcc/m68k.gen/insn-recog.c:2598-2767 | fused multiplications and additions in single precision, and their double twins |
| M68kRecog.Recog.FloatFlags | cmd/gcc/m68k.gen/insn-recog.c:3125-3215 | floating-point tests and comparisons with a scratch operand |
| M68kRecog.Recog.TableJump | cmd/gcc/m68k.gen/insn-recog.c:3224-3256 | the jump through a table |
| M68kRecog.Recog.Count | cmd/gcc/m68k.gen/insn-recog.c:3282-3435 | decrement and branch unless minus one, in HImode and SImode |
| M68kRecog.Recog.CountNonnegative | cmd/gcc/m68k.gen/insn-recog.c:3436-3512 | decrement and branch if not negative |
| M68kRecog.Recog.DividePair | cmd/gcc/m68k.gen/insn-recog.c:3121-3594 | signed and unsigned quotient and remainder |
| I486Emit.EmitRecognised | cmd/gcc/i486.gen/insn-emit.c:31-497 | the single insn gen_X builds from acceptable operands is recognised as X, as its unnamed twin, or as one of the listed lower codes that match the same rtx, if and only if its destination is not a constant (or X is the call), and otherwise not at all; extraction by X gives the operands back |
| I486Emit.RoundTrip | cmd/gcc/i486.gen/insn-recog.c:1250-1307 | emission, the recogniser run on the result, and extraction, together, as a program, for every list of acceptable operands |
| I486Emit.ExtractEmit | cmd/gcc/i486.gen/insn-extract.c:1478-1485 | extract_k undoes gen_k for every code and operand list |
| I486Emit.EmitDups | cmd/gcc/i486.gen/insn-emit.c:440-497 | the two occurrences of a repeated operand in the division insns are rtx-equal |
| M68kEmit.EmitRecognised | cmd/gcc/m68k.gen/insn-emit.c:31-1619 | the same for every m68k template that is not an expander: the insn comes back under its own code or under one of the lower codes listed for it, if and only if its destination is not a constant; a halfword move into the low part of a constant comes back as the byte move |
| M68kEmit.RoundTrip | cmd/gcc/m68k.gen/insn-recog.c:3595-3644 | emission, recognition and extraction on the m68k, as a program |
| M68kAlternatives.LowerCodes | cmd/gcc/m68k.gen/insn-recog.c:1975-3644 | the explicit list, code by code, of the lower codes an insn that matches a code can match too; every other pair of templates excludes each other |
| M68kEmit.ExtractEmit | cmd/gcc/m68k.gen/insn-extract.c:2748-2754 | extract_k gives back the operands of what is built for code k, for every code |
| M68kEmit.EmitDups | cmd/gcc/m68k.gen/insn-emit.c:31-1619 | every repetition of an operand in an emitted insn is rtx-equal to the operand |
| Misreading.I486ConstantMisread | cmd/gcc/i486.gen/insn-recog.c:828-888 | with the compiler's own operand predicates an insn with a constant destination is misread if and only if its source is one some template with an operand destination has |
| Misreading.M68kConstantMisread | cmd/gcc/m68k.gen/insn-recog.c:2001-2044 | the same on the m68k, the condition of the template included |
| Misreading.M68kStrictMisread | cmd/gcc/m68k.gen/insn-recog.c:2055-2148 | a low part of a constant is misread if and only if what is moved into it is a constant too |
| I486Select.TemplateFaithful | cmd/gcc/i486.gen/insn-output.c:1221-1365 | codes 25-27, 42-46, 49-53, 56, 57, 68-79 and 84-104: under the operand constraints the chosen instruction can be encoded and changes the machine exactly as the pattern of the code says, nothing else changing |
| I486Select.AddSubFaithful | cmd/gcc/i486.gen/insn-output.c:1978-2006 | inc, dec, add and sub in three widths against their patterns and constraints |
| I486Select.LogicFaithful | cmd/gcc/i486.gen/insn-output.c:2021-2039 | and, or, eor, neg and not in three widths against their patterns and constraints |
| I486Select.ShiftFaithful | cmd/gcc/i486.gen/insn-output.c:732-984 | shifts and rotations, by cl or by a constant, done one place at a time, equal the closed forms of the patterns; a shift by one is the addition chosen for it |
| I486Select.MultiplyFaithful | cmd/gcc/i486.gen/insn-output.c:630-662 | the two-operand and the three-operand multiplication leave the product modulo the width, and the three-operand form is only chosen for a constant |
| I486Select.AxProductFaithful | cmd/gcc/i486.gen/insn-output.c:1281-1282 | the unsigned double product leaves the pattern's value in ax and the high half in the clobbered dx |
| I486Select.SignedDivisionFaithful | cmd/gcc/i486.gen/insn-output.c:1289 | code 66 traps exactly for a zero divisor and for the quotient 2^31, and otherwise leaves the truncated quotient and the remainder of the pattern |
| I486Select.UnsignedDivisionFaithful | cmd/gcc/i486.gen/insn-output.c:1290 | code 67 never overflows: it traps exactly for a zero divisor |
| I486Select.QuotientTruncates | cmd/gcc/i486.gen/insn-output.c:1289 | the quotient meant is the truncating one: dividend is quotient times divisor plus a remainder smaller than the divisor and not of the opposite sign |
| I486Select.DivisorInDxTraps | cmd/gcc/i486.gen/insn-output.c:2019-2020 | without the earlyclobber: a divisor in dx traps for every nonnegative dividend |
| I486Select.LoadAddressFaithful | cmd/gcc/i486.gen/insn-output.c:438-455 | code 28: by addition or by lea, for every legitimate address over hard registers, the register receives the value of the address |
| I486Select.ReadBack | cmd/gcc/i486.gen/insn-output.c:1221-1365 | what an instruction writes to a register or to memory is read back, cut to the mode |
| I486Select.WriteKeeps | cmd/gcc/i486.gen/insn-output.c:1221-1365 | writing operand 0 changes no other register and no byte outside it |
| I486Select.ShiftRepeats | cmd/gcc/i486.gen/insn-output.c:732-984 | repeating a one-place shift or rotation count modulo 32 times is multiplication, floor division or rotation by the count |
| I486Select.RotateRepeats | cmd/gcc/i486.gen/insn-output.c:876-984 | left and right rotation one place at a time cut the word at a bit boundary and exchange the parts |
| I486Compiled.Compile | cmd/gcc/i486.gen/insn-recog.c:2071-2380 | the recogniser run on any insn: for the operands it recorded, once they meet the constraints of the code it answered, the instruction output writes the value RTL gives the insn's source to its destination in every machine state and changes nothing else |
| I486Compiled.InsnComputed | cmd/gcc/i486.gen/insn-output.c:1221-1365 | what the instruction chosen for the extracted operands computes is what the rtx of the insn says, read without its template |
| I486Compiled.InsnMeansRtl | cmd/gcc/i486.gen/insn-output.c:1221-1365 | for every integer code of one instruction, in every mode, what is written is the value RTL gives the source: arithmetic, logic, shifts, rotations, negation and complement, memory operands and their addresses included |
| I486Compiled.OperandMeans | cmd/gcc/i486.gen/tm-i486.h:654-702 | the machine operand of an allocated rtx operand reads the value RTL gives it, cut to the mode |
| I486Jump.JumpTaken | cmd/gcc/i486.gen/insn-output.c:1090-1153 | all ten conditions, label in either arm, after a comparison output in either order, after a test, and after arithmetic with unknown carry and overflow: the jump is taken exactly when asked; the output function returns 0 exactly for GT and LE after arithmetic |
| I486Jump.RecalledTest | cmd/gcc/i486.gen/insn-output.c:1097-1119 | the test that final (cmd/gcc/src/final.c) calls back for a jump that returns 0 makes it right |
| I486Jump.ReversedMeans | cmd/gcc/i486.gen/insn-output.c:110-157 | under CC_REVERSED final (alter_cond) reverses the condition: reversing the condition is exchanging the values, signed and unsigned |
| I486Jump.ComparedMeans | cmd/gcc/i486.gen/insn-output.c:110-157 | the flags of a comparison decide all ten conditions on the two values |
| I486Jump.InvertedHolds | cmd/gcc/i486.gen/insn-output.c:1350-1359 | each inverted template jumps exactly when the plain one does not |
| I486Address.LegitimateDecomposes | cmd/gcc/i486.gen/tm-i486.h:654-702 | every accepted address is base + index * {1,2,4,8} + constant with at most two registers, the index not the stack pointer, and the same value |
| I486Address.ModesAreLegitimate | cmd/gcc/i486.gen/tm-i486.h:654-702 | conversely every addressing mode of the machine is accepted in its usual form |
| I486Address.Emitter.Legitimize | cmd/gcc/i486.gen/tm-i486.h:723-751 | the rewritten address, after the emitted insns, has the value the original had before them; the insns set new registers only; which sums are rewritten, and exactly when the result is a legitimate address, both read off the original sum |
| I486Address.FormsLegitimate | cmd/gcc/i486.gen/tm-i486.h:666-702 | which of the sums the rewriter leaves are legitimate: two registers, a new register and another term, a sign-extended halfword and a register |
| I486Address.HalfwordStaysIllegitimate | cmd/gcc/i486.gen/tm-i486.h:704-742 | a concrete sum that is rewritten and not made legitimate, although the comment promises a valid address: a sign-extended halfword register and a further sum |
| I486Address.StackPointerTwiceStaysIllegitimate | cmd/gcc/i486.gen/tm-i486.h:730-732 | another: the stack pointer twice, returned through the exit for two registers |
| I486Address.Emitter.ForceLeft | cmd/gcc/i486.gen/tm-i486.h:726-727 | forcing the left operand of a sum into a register keeps the sum |
| I486Address.Emitter.LoadRight | cmd/gcc/i486.gen/tm-i486.h:734-742 | loading the right operand into a new register keeps the sum |
| I486Frame.FixFramePointerAddress | cmd/gcc/i486.gen/tm-i486.h:544-584 | the address is left alone or rewritten over the stack pointer; its value is kept for every machine state in which fp = sp + depth + saved bytes - 4, and, when rewritten, only there; exactly when the result still names the frame pointer |
| I486Frame.NegativeOffsetStays | cmd/gcc/i486.gen/tm-i486.h:548-571 | an offset from the frame pointer is replaced exactly when it is not negative |
| I486Frame.PlusConstantNames | cmd/gcc/i486.gen/tm-i486.h:583-584 | plus_constant leaves the registers an expression names as they are |
| I486Frame.PlusConstantValue | cmd/gcc/i486.gen/tm-i486.h:583-584 | plus_constant, of cmd/gcc/src/explow.c, adds the constant to the value of any expression |
| I486Frame.ShapeKept | cmd/gcc/i486.gen/tm-i486.h:544-584 | each of the six shapes keeps its value exactly when the frame is laid out so |
| FloatBranch.Sequence.GenBlt | cmd/gcc/i486.gen/insn-emit.c:920-969 | the previous floating comparison is exchanged in place, or a test becomes a comparison of zero with it, and GT is emitted; an integer comparison is untouched and LT is emitted; the emitted branch executed goes to the target exactly when the old comparison asks, but for a reversed compare of unordered operands |
| FloatBranch.Sequence.GenBle | cmd/gcc/i486.gen/insn-emit.c:992-1041 | the same with LE and GE |
| FloatBranch.BranchTaken | cmd/gcc/i486.gen/insn-output.c:160-206 | the pair emitted is taken exactly when less (or equal) and not unordered, if and only if not both the compare is output reversed and the operands are unordered |
| FloatBranch.UnorderedBranchTaken | cmd/gcc/i486.gen/insn-output.c:160-181 | a concrete input of the failing case: the second operand on the register stack, the first not a number, and a branch on less-than is taken |
| FloatBranch.TestTaken | cmd/gcc/i486.gen/insn-emit.c:920-969 | a test against zero becomes a branch that is always right |
| FloatBranch.PlainBranchTakenUnordered | cmd/gcc/i486.gen/insn-output.c:1097-1103 | why the exchange is made: without it the branch is taken on unordered operands |
| FloatBranch.ExchangedCompareMatches | cmd/gcc/i486.gen/insn-recog.c:2120-2216 | the exchanged comparison is still recognised under its code |
| FloatBranch.ExchangedTestMatches | cmd/gcc/i486.gen/insn-recog.c:2120-2216 | a test turned into a comparison is recognised as the comparison of its mode |
| CountedLoop.WordCodeDecrements | cmd/gcc/m68k.gen/insn-output.c:2355-2369 | in a data register, in memory or in an address register the code is an exact 32-bit decrement that branches unless the result is -1 |
| CountedLoop.HalfwordCodeDecrements | cmd/gcc/m68k.gen/insn-output.c:2337-2353 | the halfword form decrements the low half in all three places, keeping the rest in a data register or in memory, and branches unless the low half became -1, if and only if not an address register holds a nonzero multiple of 65536 |
| CountedLoop.NonnegativeForm | cmd/gcc/m68k.gen/insn-output.c:2371-2385 | the same code serves the GE form if and only if the counter is nonnegative or the word 0x80000000 |
| CountedLoop.LoopRuns | cmd/gcc/m68k.gen/insn-output.c:2355-2369 | a loop closed by the code runs its body n + 1 times for every 32-bit n |
| CountedLoop.GeLoopRuns | cmd/gcc/m68k.gen/insn-output.c:2371-2385 | and one closed by the GE form from every nonnegative n |
| SwitchDispatch.Sequence.GenCasesi | cmd/gcc/m68k.gen/insn-emit.c:1510-1619 | for every selector, low bound and range with low + range in range: the default label is reached exactly when the selector is outside, otherwise the halfword read is table entry selector - low; the emitted insns extend the sequence, and each is an insn of its m68k code |
| SwitchDispatch.Distance | cmd/gcc/m68k.gen/insn-emit.c:1531-1533 | one unsigned comparison of the wrapped difference decides membership in the signed interval |
| SwitchDispatch.TailDispatches | cmd/gcc/m68k.gen/insn-emit.c:1510-1565 | what the five insns after the negation do, in every state |
| Peephole.CombinedMoveSame | cmd/gcc/m68k.gen/insn-output.c:2407-2421 | the combined insn leaves the stack pointer, the floating register and all memory as popping four bytes and moving the pair does, for a pair without the stack pointer |
| Peephole.StackPairDiffers | cmd/gcc/m68k.gen/insn-output.c:2407-2421 | with the stack pointer in the pair the two always differ |
| Peephole.OperandsRoundTrip | cmd/gcc/m68k.gen/insn-extract.c:2446-2451 | extraction of the combined insn gives the operands of the move |
| Peephole.ChainKept | cmd/gcc/m68k.gen/insn-peep.c:37-61 | replacing the two insns and keeping the notes between them leaves what the whole insn chain does unchanged |
| Peephole.Chain.Combine | cmd/gcc/m68k.gen/insn-peep.c:13-65 | the insn chain afterwards: the first insn combined, the move deleted and the notes kept when the pattern is there and no label or barrier intervenes, and unchanged otherwise; which insn is returned |
| Peephole.PastNotes | cmd/gcc/m68k.gen/insn-peep.c:41-46 | the search stops at the first insn that is no note |
| BitField.InsertCorrect | cmd/gcc/m68k.gen/insn-output.c:1676-1700 | insertion: the field reads back as the low part of the source and no other bit of the register, other register or other byte changes |
| BitField.ExtractCorrect | cmd/gcc/m68k.gen/insn-output.c:1701-1727 | unsigned extraction leaves the big-endian bit field, in a register or in memory |
| BitField.ExtractSignedCorrect | cmd/gcc/m68k.gen/insn-output.c:1728-1748 | signed extraction leaves the field sign-extended, the destination possibly its own place |
| BitField.UnitIsField | cmd/gcc/m68k.gen/insn-recog.c:2358-2427 | what the recogniser admits, width 8 or 16 at a multiple of the width, is a byte or a halfword whose value is the bit field |
| BitField.MemoryField | cmd/gcc/m68k.gen/insn-output.c:1676-1748 | a bit field at a multiple of its width, bit by bit, is the load of that unit |
| BitField.RegisterField | cmd/gcc/m68k.gen/insn-output.c:1676-1748 | the field that ends a register is its low part |
| NarrowLogic.ExactLog2 | cmd/gcc/m68k.gen/insn-output.c:1517-1530 | exact_log2, of cmd/gcc/top/top-mem.c: the exponent when the argument is a power of two, else -1, and -1 only then |
| NarrowLogic.PowersDouble | cmd/gcc/m68k.gen/insn-output.c:1517-1530 | the powers the single-bit form compares with and sets: 1 doubled log times, byte log/8 and bit log%8 of a long |
| NarrowLogic.AndInRegister | cmd/gcc/m68k.gen/insn-output.c:1472-1497 | andw and clrw equal the 32-bit and for every constant that selects them |
| NarrowLogic.OrInRegister | cmd/gcc/m68k.gen/insn-output.c:1498-1536 | orw, bset and orl equal the 32-bit or |
| NarrowLogic.XorInRegister | cmd/gcc/m68k.gen/insn-output.c:1537-1556 | eorw equals the 32-bit exclusive or |
| NarrowLogic.AndInMemory | cmd/gcc/m68k.gen/insn-output.c:1472-1497 | the same on a big-endian long in memory, the other bytes kept |
| NarrowLogic.OrInMemory | cmd/gcc/m68k.gen/insn-output.c:1498-1536 | the same, with bset at byte 3 - log/8 and bit log%8 |
| NarrowLogic.XorInMemory | cmd/gcc/m68k.gen/insn-output.c:1537-1556 | the same for exclusive or |
| ZeroExtend.ZeroExtends | cmd/gcc/m68k.gen/insn-output.c:755-862 | for data-register, memory and automatic-increment destinations, and sources of every kind that do not overlap a memory destination: the state afterwards is the one with exactly the zero-extended value written and the source's register stepped, if and only if the destination is not a byte-to-halfword store popped off the stack |
| ZeroExtend.StackPopFails | cmd/gcc/m68k.gen/insn-output.c:786-826 | that case always fails: the stack pointer moves four bytes instead of two |
| ZeroExtend.RegisterExtends | cmd/gcc/m68k.gen/insn-output.c:755-862 | register destinations, including one that appears in the source address |
| ZeroExtend.PushExtends | cmd/gcc/m68k.gen/insn-output.c:755-862 | pre-decrement destinations, the stack included, from sources of every kind |
| ZeroExtend.StoreExtends | cmd/gcc/m68k.gen/insn-output.c:755-862 | all memory destinations: plain, pushed to and popped from |
| AddSub.AddCorrect | cmd/gcc/m68k.gen/insn-output.c:934-986 | on every path the constraints permit, automatic-increment and symbolic addends included, the sum modulo 2^32 is written, registers are stepped as the operands ask and nothing else changes, if and only if the long form does not have its base register as destination (or that register holds the constant already) |
| AddSub.SubCorrect | cmd/gcc/m68k.gen/insn-output.c:1104-1146 | on every path the constraints permit, automatic-increment and symbolic subtrahends and minuends included, the difference modulo 2^32 is written, registers are stepped as the operands ask and nothing else changes |
| AddSub.AddEncodable | cmd/gcc/m68k.gen/insn-output.c:934-986 | quick forms carry 1 to 8 and short displacements and constants fit sixteen bits on every path |
| AddSub.SubEncodable | cmd/gcc/m68k.gen/insn-output.c:1104-1146 | the same for subtraction, the -0x8000 case included |
| AddSub.LongFormDoubles | cmd/gcc/m68k.gen/insn-output.c:944-962 | the long form over its own base register yields twice the constant |
| HardRegSet.SetBit | cmd/gcc/h/hard-reg-set.h:98-99 | the set gains the register and nothing else changes |
| HardRegSet.ClearBit | cmd/gcc/h/hard-reg-set.h:100-101 | the set loses the register and nothing else changes |
| HardRegSet.TestBit | cmd/gcc/h/hard-reg-set.h:102-103 | true exactly for a member |
| HardRegSet.Fill | cmd/gcc/h/hard-reg-set.h:105-115 | the empty set, and the set of all positions |
| HardRegSet.UniverseMeans | cmd/gcc/h/hard-reg-set.h:105-115 | the positions of a set of n longs are the numbers below n times the bits of a long, whatever that width is |
| HardRegSet.Combine | cmd/gcc/h/hard-reg-set.h:117-151 | copy, complement, and, or and their complement forms are the set operations, aliased arguments included |
| HardRegSet.IsSubset | cmd/gcc/h/hard-reg-set.h:153-158 | jumps exactly on a subset |
| HardRegSet.ScalarSubset | cmd/gcc/h/hard-reg-set.h:95 | with one word the scalar test is the array test |
| HardRegSet.SameMembers | cmd/gcc/h/hard-reg-set.h:60-73 | the arrays are in bijection with the sets of registers |
| Rtl.RtxEqualMeans | cmd/gcc/i486.gen/insn-recog.c:2268-2369 | rtx_equal_p, of cmd/gcc/src/rtlanal.c, which compares repeated operands: two trees are equal if and only if they are the same tree once the volatile flags outside labels are cleared |
| Rtl.QuietEqual | cmd/gcc/m68k.gen/insn-recog.c:3398-3435 | on trees without volatile memory outside labels, being rtx-equal is being the same tree; addresses, modes and subreg words included |
| Rtl.RtxEqualEquivalence | cmd/gcc/m68k.gen/insn-recog.c:3398-3435 | rtx-equality is symmetric and transitive |
| Arithmetic.LogicBits | cmd/gcc/i486.gen/insn-output.c:1291-1299 | every bit of the result of AND, IOR and XOR is and, or and exclusive or of the operands' bits at that place |
| Arithmetic.BitsDetermine | cmd/gcc/i486.gen/insn-output.c:1291-1299 | two values in a mode with the same bits are the same, so the bits say all of it |
| I486Select.LogicOnBits | cmd/gcc/i486.gen/insn-output.c:1291-1299 | codes 68 to 76 executed: bit i of the destination afterwards is the logical operation on bit i of the source operands, in every mode |
| I486Select.FixedRegisters | cmd/gcc/i486.gen/tm-i486.h:909-911 | by register number: shift counts come from register 2, quotients go to register 0 and remainders to register 1, which the divisor does not name |
| I486Select.EveryModeHasAddress | cmd/gcc/i486.gen/tm-i486.h:654-702 | every memory operand of the machine, stack pointer as index excepted, is what some legitimate address selects |
| I486Address.HardRegisterRoles | cmd/gcc/i486.gen/tm-i486.h:626-634 | the possible base registers are exactly hard registers 0 to 7, the possible index registers those without 7, strict or not |
| I486Address.PseudoRegisters | cmd/gcc/i486.gen/tm-i486.h:626-641 | a pseudo register can be both before reload; under strict checking it can be what its hard register can be, and neither without one |
| I486Frame.SavedCount | cmd/gcc/i486.gen/tm-i486.h:577-582 | the two loops add four bytes for each live call-saved register below 8 and eight for each from 8 on: four and eight times the cardinalities of those sets |
| I486Frame.PrologueFrame | cmd/gcc/i486.gen/tm-i486.h:577-583 | after the prologue of a function without a frame pointer, which pushes the live call-saved registers below 7, the frame is laid out as the rewriting takes it to be if and only if no live call-saved register is numbered 7 or above |
| I486Frame.UsualFrame | cmd/gcc/i486.gen/tm-i486.h:577-583 | so it always is with the call-used registers of the i486, whichever registers are live |
| I486Frame.PlusConstantConstant | cmd/gcc/i486.gen/tm-i486.h:583-584 | plus_constant of a constant is a constant again, unless it adds to a constant term of the sum in a CONST, which loses the CONST |
| FloatBranch.JumpMatches | cmd/gcc/i486.gen/insn-recog.c:2120-2216 | the branch emitted for GT, LT, GE or LE is an insn of code 117, 120, 122 or 125, whose label extraction gives back |
| FloatBranch.JumpAsAsked | cmd/gcc/i486.gen/insn-emit.c:920-1041 | the emitted branch, executed, goes to its target when and only when the comparison asks, unless the compare is output reversed on unordered operands |
| FloatBranch.FloatModes | cmd/gcc/i486.gen/insn-emit.c:930-945 | the floating modes of a comparison are SF and DF among those the machine compares; no integer mode is one |
| OperandPredicates.GeneralAccepts | cmd/gcc/i486.gen/insn-output.c:2389-2533 | what general_operand accepts, both ways: registers, floating constants and memory at legitimate addresses of the mode asked for, and any integer or symbolic constant |
| OperandPredicates.OthersAccept | cmd/gcc/i486.gen/insn-output.c:2389-2533 | the same for register_operand and nonimmediate_operand |
| OperandPredicates.MemoryAccepts | cmd/gcc/m68k.gen/insn-output.c:4775-5041 | the same for memory_operand and push_operand |
| OperandPredicates.ImmediateAccepts | cmd/gcc/m68k.gen/insn-output.c:4775-5041 | the same for immediate_operand |
| OperandPredicates.SubregAccepts | cmd/gcc/m68k.gen/insn-output.c:4775-5041 | a SUBREG of memory is a register operand before reload and a memory operand after it, if a general one |
| OperandPredicates.IndirectAccepts | cmd/gcc/m68k.gen/insn-output.c:4775-5041 | indirect_operand accepts memory at a register or a constant, when memory_operand does |
| OperandPredicates.I486Accepts | cmd/gcc/i486.gen/tm-i486.h:656-702 | on the i486 memory operands are exactly those at legitimate addresses, and pushes those through register 7 |
| M68kAddress.LegitimateDecomposes | cmd/gcc/m68k.gen/insn-output.c:4775-5041 | the address test of cmd/gcc/m68k.gen/tm-m68k.h: every address it accepts steps an address register or is a mode of the machine with the same value: base, scaled index and displacement within 16 bits, or 8 with an index |
| M68kAddress.ModesAreLegitimate | cmd/gcc/m68k.gen/insn-output.c:4775-5041 | conversely every such mode is accepted in its usual form |
| M68kAddress.StepsAreLegitimate | cmd/gcc/m68k.gen/insn-output.c:4775-5041 | pre-decrement and post-increment of a base register are accepted, their opposites never |
| M68kConditions.NumberAsked | cmd/gcc/m68k.gen/insn-recog.c:1846-1861 | codes 24, 135 and 136 take exactly the constants 0 to 7, a halfword and a byte |
| M68kConditions.ConstantAsked | cmd/gcc/m68k.gen/insn-recog.c:335-347 | code 28 takes exactly the eight powers of two of a byte, code 29 the words that are their low half sign-extended |
| M68kConditions.TopByteAsked | cmd/gcc/m68k.gen/insn-recog.c:140-212 | the constant compared with the top byte of a long is an unsigned byte after a logical shift and a signed one after an arithmetic shift, and the address steps no register |
| M68kConditions.ComplementAsked | cmd/gcc/m68k.gen/insn-recog.c:2276-2283 | the mask of code 190 meets its condition if and only if the exclusive or of every field with it is the complement of the field |
| M68kConditions.FieldAsked | cmd/gcc/m68k.gen/insn-recog.c:2299-2427 | codes 185 to 187 admit exactly a byte at a multiple of 8 and a halfword at a multiple of 16, in a register or at an address that does not depend on the mode |
| M68kConditions.AllOnesAsked | cmd/gcc/m68k.gen/insn-recog.c:2276-2283 | a field whose width is no constant is complemented by all ones only |
| AddSub.InPlaceWords | cmd/gcc/m68k.gen/insn-output.c:964-986 | in place, a constant costs no immediate word when a quick form takes it, one when it fits an address register, otherwise two; the same for subtraction |
| SwitchDispatch.CasesiInsns | cmd/gcc/m68k.gen/insn-emit.c:1510-1619 | every insn the switch expander emits is an insn of its code: 143 unless the low bound is constant, then 78, 11, 220, 32 and 238 |
| I486Jump.ComparisonEncodable | cmd/gcc/i486.gen/insn-output.c:110-157 | under the constraints of codes 5 to 7, cmp subtracts from a register when there is one, never from a constant, and has at most one operand in memory |
| I486JumpCodes.CodeJumps | cmd/gcc/i486.gen/insn-output.c:1090-1153 | for codes 115 to 136 by number: what code k outputs jumps to the label exactly when the insn built from the pattern of code k sends control there, or calls the deleted test back |
| I486JumpCodes.CodeStores | cmd/gcc/i486.gen/insn-output.c:985-1088 | for codes 105 to 114 by number: the flag stored is the condition of the pattern, or the test is called back |
| I486JumpCodes.RecodedSays | cmd/gcc/i486.gen/insn-output.c:1341-1362 | the code of a condition altered by final has the pattern of that condition in the same form |
| M68kCodes.ZeroExtendCode | cmd/gcc/m68k.gen/insn-output.c:755-862 | codes 46 to 48: what is written is the value of the zero_extend in the pattern of the code |
| M68kCodes.AddCode | cmd/gcc/m68k.gen/insn-output.c:934-986 | code 78: what is written is the value of the plus in its pattern, under the condition of AddCorrect |
| M68kCodes.SubCode | cmd/gcc/m68k.gen/insn-output.c:1104-1146 | code 90: what is written is the value of the minus in its pattern |
| M68kCodes.LogicCode | cmd/gcc/m68k.gen/insn-output.c:1472-1556 | codes 132, 137 and 140 on a register: each bit is what the code of the pattern makes of the operands' bits |
| M68kCodes.LogicInMemoryCode | cmd/gcc/m68k.gen/insn-output.c:1472-1556 | the same on a long in memory, other bytes kept, for any exponent of the constant exact_log2 gives |
| M68kCodes.FieldIsUnit | cmd/gcc/m68k.gen/insn-recog.c:2294-2427 | the condition of codes 185 to 187 admits exactly the fields that are a byte or a halfword the output can address |
| M68kCodes.InsertCode | cmd/gcc/m68k.gen/insn-output.c:1676-1700 | code 185: the field its zero_extract names becomes the low part of the source |
| M68kCodes.ExtractCode | cmd/gcc/m68k.gen/insn-output.c:1701-1727 | code 186: the destination becomes the field the zero_extract of the pattern names |
| M68kCodes.ExtractSignedCode | cmd/gcc/m68k.gen/insn-output.c:1728-1748 | code 187: the destination becomes the signed field the sign_extract of the pattern names |
| M68kCodes.WordCountCode | cmd/gcc/m68k.gen/insn-output.c:2355-2385 | codes 241 and 242: counter and branch are those of the insn built from the pattern, for code 242 if and only if the counter is nonnegative or the word 0x80000000 |
| M68kCodes.HalfwordCountCode | cmd/gcc/m68k.gen/insn-output.c:2337-2353 | code 240: the same on the low half, with its exact condition |
| Peephole.AdjustmentPops | cmd/gcc/m68k.gen/insn-peep.c:24-41 | the first insn of the pattern, read as RTL, adds four to the stack pointer and does nothing else |
| Peephole.UsualPairFires | cmd/gcc/m68k.gen/insn-peep.c:24-61 | the usual pair, adjustment by four and move of a pair to any 68881 register, notes between, is combined |

## Left out

- Assembler text: instructions are values of a datatype, and mnemonics, suffixes and operand spelling are not modelled.
- Sharing and update in place of rtx's: an rtx is a value, so `operands[]` overwritten by an output function, a PUT_CODE or an XEXP assignment is a new value; the insn that `gen_blt` rewrites, the peephole's chain and the sequences that insns are emitted into are objects with fields.
- `I486Select.TemplateFaithful`: works on values; the constraint letters of each code are predicates, after the operands that must match do, and which alternative register allocation picks does not matter.
- `insn_extract`: extraction is a function from insn to operand list; the arrays of locations it also fills are not modelled, only that every repeated operand is rtx-equal to the one it repeats.
- `I486Emit.EmitRecognised`: for the codes built by a single template; the expanders for division and for `blt` and `ble` stand for the insn they emit.
- `M68kEmit.EmitRecognised`: for the templates; expanders that emit several insns, other than the switch dispatch, are not modelled.
- `Rtl.RtxEqual`: the flag REG_FUNCTION_VALUE_P of a register, which `rtx_equal_p` compares until reload has ended, is not modelled, and `Rtl.IsInt` compares the value of a CONST_INT and not its mode, as if `const0_rtx` and `const1_rtx` were the only CONST_INTs of their value.
- Which insn sets the flags a jump reads: `notice_update_cc` and the deletion of redundant tests are not modelled; `I486Jump` starts from the three states they leave.
- CC_NOT_POSITIVE, CC_NOT_NEGATIVE and the two CC_Z flags of `alter_cond`, which the i486 never sets.
- Condition codes of m68k instructions other than those the counted loops test.
- 80387, 68881 and FPA arithmetic: values enter only as the order of two operands, and in the peephole as a pair of words; pairs in FPA registers are left out of the peephole.
- `SwitchDispatch.Sequence.GenCasesi`: `memory_address_noforce` may load parts of the table address into registers first; the address is used as it stands, which has the same value.
- `I486Address.Emitter.ForceOperand`: stands for `force_operand`, which is not part of this model beyond what its callers rely on: a register or the expression itself, with the same value.
- `HardRegSet.SetBit`: takes the shift of 1 to give the single bit, so an int as wide as a long.
- `BitField.ExtractCorrect`: for destinations other than the place, as the earlyclobber of the constraint demands.
- `M68kCodes.InsertCode`: for the fields the fast path of the output takes; a register field that does not end its register is left to the machine's own bit-field instruction, here and in codes 186 and 187.
- `M68kCodes`: the patterns of codes 46 to 48, 78, 90, 132, 137, 140, 185 to 187 and 240 to 242, those whose outputs are modelled.
- `ZeroExtend.ZeroExtends`: for memory operands that do not overlap; an operand does not name a register the other one steps, which RTL does not allow.
- `AddSub.AddCorrect`: a memory destination is not an automatic increment, which one insn could not both read and write.
- `I486Compiled.Compile`: for the codes that output one instruction; load address, the double multiplications and the divisions are proved on machine operands in `I486Select`.
- Stack frames, calls, block moves, conversions and the 68881 and FPA insns beyond their recognition.
- i486 `recog_4`, which nothing calls.
- `-mregparm`, which its header says does not work.
