// bucket/bucket.go: per-key limits. Floats are reals, so NaN and the
// infinities do not arise.
module Limits {

  const TWO63: real := 9223372036854775808.0
  const DEFAULT_BUFFER_FACTOR: real := 0.9

  datatype Limits = Limits(tokensPerMinute: int, maxConcurrency: int, bufferFactor: real) {

    function EffectiveBufferFactor(): real {
      if bufferFactor <= 0.0 then DEFAULT_BUFFER_FACTOR else bufferFactor
    }

    predicate Validate() {
      && tokensPerMinute >= 0
      && maxConcurrency >= 0
      && bufferFactor >= 0.0
      && tokensPerMinute as real * EffectiveBufferFactor() < TWO63
    }

    // Floored at 1 when token limiting is on, and 0 when it is off; valid
    // limits have a capacity that fits in 64 bits.
    function Capacity(): (c: int)
      ensures c >= 0 && (c > 0 <==> TokenLimited())
      ensures Validate() ==> c < 0x8000_0000_0000_0000
    {
      if tokensPerMinute <= 0 then 0
      else
        var c := (tokensPerMinute as real * EffectiveBufferFactor()).Floor;
        if c < 1 then 1 else c
    }

    predicate TokenLimited() { tokensPerMinute > 0 }

    predicate SlotLimited() { maxConcurrency > 0 }

    function RefillPerSecond(): (r: real)
      ensures TokenLimited() ==> r > 0.0
    {
      tokensPerMinute as real / 60.0
    }
  }
}
