/**
 * The bounded random-walk step of the sensor simulator
 * (`gerar_leitura_variavel`). The uniform draw in [-maxDelta, maxDelta] is
 * an input, `delta`, instead of a call to the random number generator.
 */
module RandomWalk {

  function Min(a: real, b: real): real {
    if a <= b then a else b
  }

  function Max(a: real, b: real): real {
    if a >= b then a else b
  }

  /** Reference clamp: min(max(x, lo), hi). */
  function Clamp(x: real, lo: real, hi: real): real {
    Min(Max(x, lo), hi)
  }

  /**
   * The current value moved by the draw, then raised to minVal when below it
   * and lowered to maxVal when above it, the two tests made one after the other.
   */
  function GerarLeituraVariavel(valorAtual: real, minVal: real, maxVal: real, maxDelta: real, delta: real): (r: real)
    requires -maxDelta <= delta <= maxDelta
    // the hard range holds whenever it is not empty
    ensures minVal <= maxVal ==> minVal <= r <= maxVal
    // an empty range yields its upper end, since the upper test comes second
    ensures maxVal < minVal ==> r == maxVal
    // a step that stays in range is taken exactly
    ensures minVal <= valorAtual + delta <= maxVal ==> r == valorAtual + delta
    // the two sequential tests agree with min(max(x, lo), hi)
    ensures r == Clamp(valorAtual + delta, minVal, maxVal)
    // from an in-range value the clamp only pulls toward the current value
    ensures minVal <= valorAtual <= maxVal ==>
      (if delta >= 0.0 then valorAtual <= r <= valorAtual + delta else valorAtual + delta <= r <= valorAtual)
    ensures minVal <= valorAtual <= maxVal ==> -maxDelta <= r - valorAtual <= maxDelta
  {
    var novoValor := valorAtual + delta;
    var novoValor := if novoValor < minVal then minVal else novoValor;
    if novoValor > maxVal then maxVal else novoValor
  }

  /** A value pegged at the ceiling stays there while the draws push upward. */
  lemma {:induction false} SticksAtCeiling(valorAtual: real, minVal: real, maxVal: real, maxDelta: real, deltas: seq<real>)
    requires minVal <= maxVal && valorAtual == maxVal
    requires forall k :: 0 <= k < |deltas| ==> 0.0 <= deltas[k] <= maxDelta
    ensures WalkFrom(valorAtual, minVal, maxVal, maxDelta, deltas) == maxVal
    decreases |deltas|
  {
    if |deltas| > 0 {
      var next := GerarLeituraVariavel(valorAtual, minVal, maxVal, maxDelta, deltas[0]);
      SticksAtCeiling(next, minVal, maxVal, maxDelta, deltas[1..]);
    }
  }

  /** The value after walking through each draw in turn. */
  function WalkFrom(valorAtual: real, minVal: real, maxVal: real, maxDelta: real, deltas: seq<real>): (r: real)
    requires forall k :: 0 <= k < |deltas| ==> -maxDelta <= deltas[k] <= maxDelta
    decreases |deltas|
  {
    if |deltas| == 0 then valorAtual
    else WalkFrom(GerarLeituraVariavel(valorAtual, minVal, maxVal, maxDelta, deltas[0]), minVal, maxVal, maxDelta, deltas[1..])
  }

  /** However many steps are taken, the walk never leaves a non-empty range it started in. */
  lemma {:induction false} WalkStaysInRange(valorAtual: real, minVal: real, maxVal: real, maxDelta: real, deltas: seq<real>)
    requires minVal <= valorAtual <= maxVal
    requires forall k :: 0 <= k < |deltas| ==> -maxDelta <= deltas[k] <= maxDelta
    ensures minVal <= WalkFrom(valorAtual, minVal, maxVal, maxDelta, deltas) <= maxVal
    decreases |deltas|
  {
    if |deltas| > 0 {
      var next := GerarLeituraVariavel(valorAtual, minVal, maxVal, maxDelta, deltas[0]);
      WalkStaysInRange(next, minVal, maxVal, maxDelta, deltas[1..]);
    }
  }
}
