/**
  The gradual colour of a space (coloracion.py): the noise relative to the threshold,
  clamped at 1, and the colormap argument `1 - ratio` it is turned into (0 red, 1 green).
 */
module Coloracion {
  import opened Wrappers

  /** The exception `ruido / umbral` raises on a zero threshold. */
  datatype ErrorDivision = ZeroDivisionError

  /** Python's `min(a, b)`: `a` unless `b` is strictly smaller. */
  function Min(a: real, b: real): (m: real)
    ensures m <= a && m <= b
    ensures m == a || m == b
  {
    if b < a then b else a
  }

  /** `ratio = min(ruido / umbral, 1)`. */
  function Ratio(ruido: real, umbral: real): (r: Result<real, ErrorDivision>)
    ensures r.Ok? <==> umbral != 0.0
    ensures r.Ok? ==> r.value <= 1.0
    ensures umbral > 0.0 && ruido >= umbral ==> r == Ok(1.0)
    ensures umbral != 0.0 && ruido == 0.0 ==> r == Ok(0.0)
    ensures umbral > 0.0 && 0.0 <= ruido <= umbral ==> r == Ok(ruido / umbral)
  {
    if umbral == 0.0 then Err(ZeroDivisionError) else Ok(Min(ruido / umbral, 1.0))
  }

  /** The argument handed to the colormap, `1 - ratio`. */
  function ArgumentoColor(ruido: real, umbral: real): (a: Result<real, ErrorDivision>)
    ensures a.Ok? <==> umbral != 0.0
    ensures a.Ok? ==> a.value >= 0.0
    ensures umbral > 0.0 && ruido >= umbral ==> a == Ok(0.0)
    ensures umbral != 0.0 && ruido == 0.0 ==> a == Ok(1.0)
    ensures umbral > 0.0 && ruido >= 0.0 ==> a.Ok? && 0.0 <= a.value <= 1.0
  {
    match Ratio(ruido, umbral)
    case Err(e) => Err(e)
    case Ok(r) => Ok(1.0 - r)
  }

  /** For a fixed positive threshold, more noise never gives a smaller ratio. */
  lemma RatioMonotono(r1: real, r2: real, umbral: real)
    requires umbral > 0.0 && r1 <= r2
    ensures Ratio(r1, umbral).value <= Ratio(r2, umbral).value
  {
    assert r1 / umbral <= r2 / umbral by {
      assert r2 / umbral - r1 / umbral == (r2 - r1) / umbral;
    }
  }
}
