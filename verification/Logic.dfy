/** The four-valued logic of the simulator (plus NVL, the "unused bit" marker)
    and its lookup tables. */
module Logic {

  datatype Bit = LO | HI | DC | Z | NVL

  /** True of the two bits that carry a number. */
  predicate Known(b: Bit) { b == LO || b == HI }

  function Inv(a: Bit): Bit {
    match a case LO => HI case HI => LO case _ => DC
  }

  function And(a: Bit, b: Bit): Bit {
    if a == NVL || b == NVL then DC
    else if a == LO || b == LO then LO
    else if a == HI && b == HI then HI
    else DC
  }

  function Or(a: Bit, b: Bit): Bit {
    if a == NVL || b == NVL then DC
    else if a == HI || b == HI then HI
    else if a == LO && b == LO then LO
    else DC
  }

  function Xor(a: Bit, b: Bit): Bit {
    if !Known(a) || !Known(b) then DC else if a == b then LO else HI
  }

  function Nand(a: Bit, b: Bit): Bit { Inv(And(a, b)) }
  function Nor(a: Bit, b: Bit): Bit { Inv(Or(a, b)) }
  function Xnor(a: Bit, b: Bit): Bit { Inv(Xor(a, b)) }

  /** The merge used when the condition of a conditional operator is unknown. */
  function Ternary(a: Bit, b: Bit): Bit {
    if Known(a) && a == b then a else DC
  }

  function Equ(a: Bit, b: Bit): Bit {
    if !Known(a) || !Known(b) then DC else if a == b then HI else LO
  }

  /** Z stands for "equal so far, keep scanning". */
  function Les(a: Bit, b: Bit): Bit {
    if !Known(a) || !Known(b) then DC
    else if a == b then Z
    else if a == LO then HI
    else LO
  }

  datatype Edge = NoEdge | PosEdge | NegEdge

  function EdgeDetect(from: Bit, to: Bit): Edge {
    if from == NVL || to == NVL then NoEdge
    else if from == LO then (if to == LO then NoEdge else PosEdge)
    else if from == HI then (if to == HI then NoEdge else NegEdge)
    else if to == LO then NegEdge
    else if to == HI then PosEdge
    else NoEdge
  }
}
