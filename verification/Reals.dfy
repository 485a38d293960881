/** Instants and durations are exact reals. */
module Reals {
  function RealMin(x: real, y: real): real {
    if x < y then x else y
  }

  function RealMax(x: real, y: real): real {
    if x < y then y else x
  }
}
