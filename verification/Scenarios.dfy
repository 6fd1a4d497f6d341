/** The benchmark's `Scenario` record. */
module Scenarios {
  import opened Basics
  import opened Folds
  import opened Exchange

  const DEFAULT_WINDOW := 65_535

  datatype Scenario = Scenario(
    parallel: int,
    requestBody: seq<Byte>,
    requestChunks: int,
    responseBody: seq<Byte>,
    window: Option<nat>)
  {
    function InitialWindow(): nat {
      if window.Some? then window.value else DEFAULT_WINDOW
    }

    /** `(body,) * chunks` is empty for a negative count. */
    function RequestParts(): seq<seq<Byte>> {
      if requestChunks != 0 then
        seq(if requestChunks < 0 then 0 else requestChunks, _ => requestBody)
      else BodyParts(requestBody)
    }

    function Expected(): seq<int> {
      [parallel, parallel * Sum(Length, RequestParts()), parallel, parallel * |responseBody|]
    }

    /** `range(parallel)` */
    function Iterations(): nat { if parallel < 0 then 0 else parallel }

    /** Totals of `n` complete requests. */
    function TotalsOf(n: nat): seq<nat> {
      [n, n * Sum(Length, RequestParts()), n, n * |responseBody|]
    }
  }
}
