/** The HomeKit (HAP) heating/cooling enumeration and its numeric codes. */
module Hap {
  import opened Wrappers

  /** The values of TargetHeatingCoolingState; CurrentHeatingCoolingState uses the first three. */
  datatype HeatingCoolingState = Off | Heat | Cool | Auto

  /** The numeric value HomeKit uses for each state. */
  function Code(s: HeatingCoolingState): int
  {
    match s
    case Off => 0
    case Heat => 1
    case Cool => 2
    case Auto => 3
  }

  /** The state a numeric characteristic value stands for, if any. */
  function FromCode(c: int): (r: Option<HeatingCoolingState>)
    ensures r.Some? <==> 0 <= c <= 3
    ensures r.Some? ==> Code(r.value) == c
  {
    if c == 0 then Some(Off)
    else if c == 1 then Some(Heat)
    else if c == 2 then Some(Cool)
    else if c == 3 then Some(Auto)
    else None
  }

  /** Decoding a state's own code gives the state back, so codes are distinct. */
  lemma FromCodeOfCode(s: HeatingCoolingState)
    ensures FromCode(Code(s)) == Some(s)
  {
  }

  /** TemperatureDisplayUnits.CELSIUS. */
  const CELSIUS: int := 0
}
