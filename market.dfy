/**
 * Values shared by the two prediction engines: candles, colours and an
 * optional value.
 */
module Market {

  datatype Option<+T> = None | Some(value: T)

  /**
   * One completed candle of the history. `openText` is the decimal text that
   * the engine's key functions read for the open value (the rendering of the
   * number as text is not part of this model, so it is given alongside it).
   */
  datatype Candle = Candle(open: real, high: real, low: real, close: real, openText: string)

  /** Candle colour: green when the close is above the open, red otherwise. */
  datatype Color = Green | Red

  /** Trading position derived from a colour. */
  datatype Position = Call | Put

  function ColorOf(close: real, open: real): (c: Color)
    ensures c == Green <==> close > open
  {
    if close > open then Green else Red
  }

  function PositionOf(c: Color): (p: Position)
    ensures p == Call <==> c == Green
  {
    if c == Green then Call else Put
  }

  function Min(a: real, b: real): real { if a <= b then a else b }
  function Max(a: real, b: real): real { if a >= b then a else b }

  function Abs(x: real): (r: real)
    ensures r >= 0.0 && (r == x || r == -x)
  {
    if x < 0.0 then -x else x
  }
}
