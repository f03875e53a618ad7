/**
 * src/cpp/utilities/sequence.h: an inclusive index range with a step, plus a flag
 * saying whether the dimension it selects is valid. The range is fixed at
 * construction; only the flag can change afterwards.
 */
module Sequence {

  class Seq {
    const startIndex: int
    const stopIndex: int
    const step: int
    var isValidDimension: bool

    /** Any start, stop and step are accepted; the step defaults to 1 and a new range is valid. */
    constructor(start: int, stop: int, step: int := 1)
      ensures startIndex == start && stopIndex == stop && this.step == step
      ensures isValidDimension
    {
      startIndex := start;
      stopIndex := stop;
      this.step := step;
      isValidDimension := true;
    }

    function Start(): int { startIndex }

    function Stop(): int { stopIndex }

    function Step(): int { step }

    function IsValidDimension(): bool
      reads this
    {
      isValidDimension
    }

    /** Overwrites the flag; start, stop and step are constants and cannot change. */
    method SetValidDimension(valid: bool)
      modifies this
      ensures IsValidDimension() == valid
    {
      isValidDimension := valid;
    }
  }
}
