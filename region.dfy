/**
 * The shape of one region read (`GetImageDataTemplated` in both readers): how many
 * elements the read buffer holds, which store dimension each requested range is
 * bound to (`Dims(d).ClosedInterval(lo, hi)`), and the shape of the destination
 * array laid over the buffer.
 */
module Region {

  /** `Dims(dim).ClosedInterval(lo, hi)` */
  datatype Binding = Binding(dim: int, lo: int, hi: int)

  /** Number of indices a closed interval selects, `hi - lo + 1` as the readers compute it. */
  function Width(b: Binding): int
  {
    b.hi - b.lo + 1
  }

  /** Buffer length, dimension bindings in the order applied, destination array shape. */
  datatype RegionRead = RegionRead(bufferLength: int, bindings: seq<Binding>, arrayShape: seq<int>)

  /** Each destination axis has the size of the interval bound on the matching store dimension. */
  predicate Follows(bindings: seq<Binding>, shape: seq<int>)
  {
    && |shape| == |bindings|
    && forall k :: 0 <= k < |bindings| ==> shape[k] == Width(bindings[k])
  }

  predicate ShapeFollowsBindings(r: RegionRead)
  {
    Follows(r.bindings, r.arrayShape)
  }

  lemma FollowsAppend(b1: seq<Binding>, s1: seq<int>, b2: seq<Binding>, s2: seq<int>)
    requires Follows(b1, s1) && Follows(b2, s2)
    ensures Follows(b1 + b2, s1 + s2)
  {
  }

  /**
   * Splitting a five-factor volume into the factors of the axes that are kept in the
   * destination array and the factors of those that are not: for each axis the kept
   * factor times the dropped factor is the axis's extent.
   */
  lemma VolumeSplit(keptT: int, dropT: int, e_t: int, keptC: int, dropC: int, e_c: int,
                    keptZ: int, dropZ: int, e_z: int, e_y: int, e_x: int)
    requires keptT * dropT == e_t && keptC * dropC == e_c && keptZ * dropZ == e_z
    ensures (keptT * (keptC * (keptZ * (e_y * e_x)))) * (dropT * (dropC * dropZ)) == e_y * e_x * e_z * e_c * e_t
  {
  }
}
