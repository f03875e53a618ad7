/**
 * src/cpp/reader/sequence.h: the older, immutable index range. `Start`, `Stop`
 * and `Step` give back the constructor arguments; the step defaults to 1.
 */
module ReaderSequence {

  datatype Seq = Seq(start: int, stop: int, step: int := 1)
  {
    function Start(): int { start }

    function Stop(): int { stop }

    function Step(): int { step }
  }

  /** Number of indices an inclusive range selects, `Stop() - Start() + 1` as the readers compute it. */
  function Extent(s: Seq): int
  {
    s.Stop() - s.Start() + 1
  }

  /** Omitting the step gives 1; start and stop are the arguments given. */
  lemma DefaultStep(start: int, stop: int)
    ensures Seq(start, stop).Step() == 1
    ensures Seq(start, stop).Start() == start && Seq(start, stop).Stop() == stop
  {
  }

  /** The integers a .. b, both included (none when b < a). */
  function Indices(a: int, b: int): set<int>
    decreases b - a
  {
    if b < a then {} else Indices(a, b - 1) + {b}
  }

  /** Indices(a, b) holds exactly the integers from a to b and has b - a + 1 of them. */
  lemma {:induction false} IndicesOfRange(a: int, b: int)
    requires a <= b + 1
    ensures forall k :: k in Indices(a, b) <==> a <= k <= b
    ensures |Indices(a, b)| == b - a + 1
    decreases b - a
  {
    if a <= b {
      IndicesOfRange(a, b - 1);
    }
  }

  /**
   * The extent the readers compute is the number of indices the range selects,
   * whenever the range is not reversed; the step plays no part in it.
   */
  lemma ExtentCountsIndices(s: Seq)
    requires s.Start() <= s.Stop() + 1
    ensures forall k :: k in Indices(s.Start(), s.Stop()) <==> s.Start() <= k <= s.Stop()
    ensures Extent(s) == |Indices(s.Start(), s.Stop())|
  {
    IndicesOfRange(s.Start(), s.Stop());
  }
}
