/** The elliptic-curve group used by confidential transactions, modelled
    symbolically. A point is written by its discrete logarithms with respect
    to the two independent generators G and H, so that a Pedersen commitment
    `blind·G + value·H` is the point with coordinates (blind, value). Scalars
    are unbounded integers: reduction modulo the group order is not modelled. */
module Ecc {
  import opened WalletTypes

  /** `ECC::Scalar::Native`. */
  type Scalar = int

  /** `ECC::Point::Native`: the element `g·G + h·H`. */
  datatype Point = Point(g: int, h: int)

  /** The neutral element (`Zero`). */
  const Identity: Point := Point(0, 0)

  function Add(a: Point, b: Point): Point
  {
    Point(a.g + b.g, a.h + b.h)
  }

  function Neg(a: Point): Point
  {
    Point(-a.g, -a.h)
  }

  function Sub(a: Point, b: Point): Point
  {
    Add(a, Neg(b))
  }

  /** `Context::get().G * x`. */
  function MulG(x: Scalar): Point
  {
    Point(x, 0)
  }

  /** `v·H`, as `AmountBig::AddTo` adds it for an amount `v`. */
  function MulH(v: int): Point
  {
    Point(0, v)
  }

  /** The Pedersen commitment `blind·G + value·H`. */
  function Commit(blind: Scalar, value: int): Point
  {
    Add(MulG(blind), MulH(value))
  }

  /** `ECC::Point`, the serialised form stored in inputs, outputs and kernels:
      either the export of a group element, or raw X/Y coordinates that the
      model cannot decode. */
  datatype CompressedPoint = Encoded(p: Point) | RawXY(x: nat, y: nat)

  /** `Point::Native::Import`: a partial decoding that fails on coordinates
      that are not a valid export. */
  function Import(c: CompressedPoint): Option<Point>
  {
    match c
    case Encoded(p) => Some(p)
    case RawXY(_, _) => None
  }
}
