/** Small shared vocabulary: an optional value, the two scroll intents and integer min/max. */
module Common {

  /** An optional value (JavaScript's `null`/`undefined` versus a present value). */
  datatype Option<+T> = None | Some(value: T)

  /** The discrete navigation intent every input adapter produces: "up" or "down". */
  datatype Direction = Up | Down

  /**
   * The sign rule both the wheel and the touch adapter use: a positive delta (wheel delta, or
   * touch start minus current position) scrolls down; zero or negative scrolls up.
   */
  function DirectionOfDelta(delta: int): (d: Direction)
    ensures d == Down <==> delta > 0
  {
    if delta > 0 then Down else Up
  }

  function Min(a: int, b: int): (r: int)
    ensures r <= a && r <= b && (r == a || r == b)
  {
    if a <= b then a else b
  }

  function Max(a: int, b: int): (r: int)
    ensures r >= a && r >= b && (r == a || r == b)
  {
    if a >= b then a else b
  }
}
