/** Coercion of the spectrum analyzer's bindable properties: every invalid
    value is replaced by the nearest valid one, valid values pass through. */
module SpectrumCoercion {

  function IntDistance(a: int, b: int): nat {
    if a < b then b - a else a - b
  }

  function RealDistance(a: real, b: real): real {
    if a < b then b - a else a - b
  }

  /** BarCount: at least one bar. */
  function CoerceBarCount(value: int): (r: int)
    ensures r >= 1
    ensures value >= 1 ==> r == value
    ensures forall w :: w >= 1 ==> IntDistance(r, value) <= IntDistance(w, value)
  {
    if value > 1 then value else 1
  }

  /** BarSpacing: never negative. */
  function CoerceBarSpacing(value: real): (r: real)
    ensures r >= 0.0
    ensures value >= 0.0 ==> r == value
    ensures forall w :: w >= 0.0 ==> RealDistance(r, value) <= RealDistance(w, value)
  {
    if value > 0.0 then value else 0.0
  }

  const MinRefreshInterval: int := 10
  const MaxRefreshInterval: int := 1000
  const DefaultRefreshInterval: int := 16

  /** RefreshInterval (milliseconds): kept within [10, 1000]. */
  function CoerceRefreshInterval(value: int): (r: int)
    ensures MinRefreshInterval <= r <= MaxRefreshInterval
    ensures MinRefreshInterval <= value <= MaxRefreshInterval ==> r == value
    ensures forall w :: MinRefreshInterval <= w <= MaxRefreshInterval ==>
              IntDistance(r, value) <= IntDistance(w, value)
  {
    var atLeast := if value > MinRefreshInterval then value else MinRefreshInterval;
    if atLeast < MaxRefreshInterval then atLeast else MaxRefreshInterval
  }

  /** BarWidth is not constrained: any width, negative included, is kept. */
  function CoerceBarWidth(value: real): (r: real)
    ensures r == value
  {
    value
  }
}
