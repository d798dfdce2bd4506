// Where the insns that set pc send control.

module Control {
  import opened Common
  import opened Rtl

  // Where control goes after (set pc (if_then_else (c cc0 0) ..)), given which
  // conditions cc0 meets.
  datatype Destination = To(target: Rtx) | Next

  function Arm(x: Rtx): Option<Destination> {
    if Is1(x, LABEL_REF) then Some(To(x.arg)) else if x == PC_RTX then Some(Next) else None
  }

  function Goes(x: Rtx, holds: Code2 -> bool): Option<Destination> {
    match x
    case X2(SET, _, X0(PC, _, _), X3(IF_THEN_ELSE, _, X2(c, _, X0(CC0, _, _), X0(CONST_INT, _, 0)), a, b)) =>
      Arm(if holds(c) then a else b)
    case _ => None
  }
}
