/** Floating-point values as the gizmo's settings hold them. Only the
    distinction the code makes is kept: a value is either a finite number
    or not finite (an infinity or a NaN). Rounding to f32 is not modelled. */
module Floats {

  datatype Float = Finite(v: real) | NonFinite

  function Abs(x: real): (r: real)
    ensures r >= 0.0
    ensures r == x || r == -x
  {
    if x < 0.0 then -x else x
  }

  /** The sanitisation `gizmo_config` applies to every scalar setting:
      a finite value is replaced by its magnitude, any other value by a
      fixed default. */
  function Sanitize(x: Float, default: real): (r: real)
    requires default >= 0.0
    ensures r >= 0.0
    ensures x.Finite? ==> r * r == x.v * x.v
    ensures x.NonFinite? ==> r == default
  {
    match x
    case Finite(v) => Abs(v)
    case NonFinite => default
  }

  /** A finite setting keeps its magnitude whatever its sign. */
  lemma SanitizeIgnoresSign(v: real, default: real)
    requires default >= 0.0
    ensures Sanitize(Finite(-v), default) == Sanitize(Finite(v), default)
  {
  }
}
