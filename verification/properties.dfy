/**
 Properties of the facade that relate several of its methods: the two
 dispatch tests, the closed-pair offsets against the padding map, and the
 places where the as-written shifts leave that map.
 */
module EnergyModelApiProperties {
  import opened Provider
  import opened Padding
  import opened EnergyModelApi
  import CorrectedApi

  /** The DP dispatcher is the stack method exactly when (p, q) is adjacent
      to (i, j), and the interior method with unchanged indices otherwise. */
  lemma LoopDispatch(i: int, j: int, p: int, q: int)
    ensures LogBoltzLoop(i, j, p, q) == LogBoltzStack(i, j) <==> Adjacent(i, j, p, q)
    ensures LogBoltzLoop(i, j, p, q) == LogBoltzInterior(i, j, p, q) <==> !Adjacent(i, j, p, q)
    ensures BoltzLoop(i, j, p, q) == BoltzStack(i, j) <==> Adjacent(i, j, p, q)
    ensures BoltzLoop(i, j, p, q) == BoltzInterior(i, j, p, q) <==> !Adjacent(i, j, p, q)
  {
  }

  /** The closed dispatcher is the closed stack wrapper exactly when (c, d)
      is adjacent to (a, b), and the closed interior wrapper otherwise. */
  lemma LoopClosedDispatch(a: int, b: int, c: int, d: int)
    ensures LogBoltzLoopClosed(a, b, c, d) == LogBoltzStackClosed(a, b) <==> Adjacent(a, b, c, d)
    ensures LogBoltzLoopClosed(a, b, c, d) == LogBoltzInteriorClosed(a, b, c, d) <==> !Adjacent(a, b, c, d)
  {
  }

  /** For nested pairs a < c < d < b, the closed dispatcher takes the stack
      branch exactly when no base is unpaired between (a, b) and (c, d). */
  lemma LoopClosedStackIffNoUnpaired(a: int, b: int, c: int, d: int)
    requires a < c < d < b
    ensures LogBoltzLoopClosed(a, b, c, d) == LogBoltzStackClosed(a, b)
            <==> UnpairedBetween(Pair(a, b), Pair(c, d)) == 0
    ensures UnpairedBetween(Pair(a, b), Pair(c, d)) == (c - a - 1) + (b - d - 1)
  {
  }

  /** The wrappers that take a base pair and pass it on as a pair (stack,
      multi_open, outer_branch) call the DP method at exactly the DP pair
      the padding map puts at (a, b). */
  lemma PairedWrappersUsePaddingMap(a: int, b: int)
    ensures var (i, j) := DpOfPadded(Pair(a, b));
            && LogBoltzStackClosed(a, b) == LogBoltzStack(i, j)
            && LogBoltzMultiOpenClosed(a, b) == LogBoltzMultiOpen(i, j)
            && LogBoltzOuterBranchClosed(a, b) == LogBoltzOuterBranch(i, j)
  {
  }

  /** The interior wrapper passes the inner bounds of the DP pair at (a, b)
      and the DP pair at (c, d), and keeps the number of unpaired bases. */
  lemma InteriorClosedUsesPaddingMap(a: int, b: int, c: int, d: int)
    ensures var (i, j) := DpOfPadded(Pair(a, b));
            var (ip, jp) := DpOfPadded(Pair(c, d));
            LogBoltzInteriorClosed(a, b, c, d) == LogBoltzInterior(i + 1, j - 1, ip, jp)
    ensures var n := AddressedBy(LogBoltzInteriorClosed(a, b, c, d));
            UnpairedBetween(n.outer, n.inner) == UnpairedBetween(Pair(a, b), Pair(c, d))
  {
  }

  /** The comment example is in DP coordinates: interior(2, 9, 2, 8) is the
      DP outer pair (1, 10) around the DP inner pair (2, 8), a bulge of one.
      The closed wrapper given (1, 10, 2, 8) makes a different call. */
  lemma InteriorCommentExample()
    ensures AddressedBy(LogBoltzInterior(2, 9, 2, 8)) == Nested(PaddedOfDp(1, 10), PaddedOfDp(2, 8))
    ensures UnpairedBetween(PaddedOfDp(1, 10), PaddedOfDp(2, 8)) == 1
    ensures LogBoltzInteriorClosed(1, 10, 2, 8) == LogBoltzInterior(1, 9, 1, 8)
    ensures LogBoltzInteriorClosed(1, 10, 2, 8) != LogBoltzInterior(2, 9, 2, 8)
  {
  }

  /** As written, the hairpin wrapper concerns the padded pair (a+1, b), not
      (a, b), and so sees one unpaired base fewer than the pair (a, b)
      encloses. Given the same closing pair, it passes a left bound one
      greater than the interior wrapper does for its outer pair. */
  lemma HairpinClosedOffByOne(a: int, b: int, c: int, d: int)
    ensures AddressedBy(LogBoltzHairpinClosed(a, b)) != Single(Pair(a, b))
    ensures HairpinLength(AddressedBy(LogBoltzHairpinClosed(a, b)).pair) == HairpinLength(Pair(a, b)) - 1
    ensures LookupOf(LogBoltzHairpinClosed(a, b)).i == LookupOf(LogBoltzInteriorClosed(a, b, c, d)).i + 1
    ensures LookupOf(LogBoltzHairpinClosed(a, b)).j == LookupOf(LogBoltzInteriorClosed(a, b, c, d)).j
    ensures AddressedBy(LogBoltzHairpinClosed(1, 10)) == Single(Pair(2, 10))
  {
  }

  /** As written, the multiloop-close wrapper concerns the padded pair
      (a+1, b), not (a, b). */
  lemma MultiCloseClosedOffByOne(a: int, b: int, c: int, d: int)
    ensures AddressedBy(LogBoltzMultiCloseClosed(a, b)) != Single(Pair(a, b))
    ensures LookupOf(LogBoltzMultiCloseClosed(a, b)).i == LookupOf(LogBoltzInteriorClosed(a, b, c, d)).i + 1
    ensures AddressedBy(LogBoltzMultiCloseClosed(1, 10)) == Single(Pair(2, 10))
  {
  }

  /** The corrected closing wrappers are the DP methods at the inner bounds
      of the DP pair that the padding map puts at (a, b). */
  lemma CorrectedClosingWrappersUsePaddingMap(a: int, b: int)
    ensures var (i, j) := DpOfPadded(Pair(a, b));
            && CorrectedApi.LogBoltzHairpinClosed(a, b) == LogBoltzHairpin(i + 1, j - 1)
            && CorrectedApi.LogBoltzMultiCloseClosed(a, b) == LogBoltzMultiClose(i + 1, j - 1)
  {
  }

  /** As written, the DP dispatcher's two branches disagree on the outer
      pair: the stack branch concerns the DP pair (i, j), the interior
      branch the DP pair (i-1, j+1). Hence a pair with no unpaired base
      around it goes to the interior branch, and the adjacency test fires
      on what the interior convention reads as a 1x1 interior loop. */
  lemma LoopBranchesDisagree(i: int, j: int)
    ensures AddressedBy(LogBoltzLoop(i, j, i + 1, j - 1)).outer == PaddedOfDp(i, j)
    ensures AddressedBy(LogBoltzLoop(i, j, i + 2, j - 1)).outer == PaddedOfDp(i - 1, j + 1)
    ensures LogBoltzLoop(i, j, i, j) == LogBoltzInterior(i, j, i, j)
    ensures var n := AddressedBy(LogBoltzLoop(i, j, i, j)); UnpairedBetween(n.outer, n.inner) == 0
    ensures LogBoltzLoop(i, j, i + 1, j - 1) == LogBoltzStack(i, j)
    ensures UnpairedBetween(PaddedOfDp(i - 1, j + 1), PaddedOfDp(i + 1, j - 1)) == 2
    ensures LogBoltzLoop(0, 10, 1, 8) == LogBoltzInterior(0, 10, 1, 8) != LogBoltzLoopClosed(1, 10, 2, 8)
    ensures CorrectedApi.LogBoltzLoop(0, 10, 1, 8) == LogBoltzLoopClosed(1, 10, 2, 8)
  {
  }

  /** The closed dispatcher is the corrected DP dispatcher at the DP pairs
      the padding map puts at (a, b) and (c, d). The as-written DP
      dispatcher agrees with it only in the stack case. */
  lemma LoopClosedIsCorrectedLoop(a: int, b: int, c: int, d: int)
    ensures var (i, j) := DpOfPadded(Pair(a, b));
            var (p, q) := DpOfPadded(Pair(c, d));
            && LogBoltzLoopClosed(a, b, c, d) == CorrectedApi.LogBoltzLoop(i, j, p, q)
            && (LogBoltzLoopClosed(a, b, c, d) == LogBoltzLoop(i, j, p, q) <==> Adjacent(a, b, c, d))
  {
  }

  /** For DP pairs nested as i < p < q < j, the corrected dispatcher takes
      the stack branch exactly when no base is unpaired between them. */
  lemma CorrectedLoopStackIffNoUnpaired(i: int, j: int, p: int, q: int)
    requires i < p < q < j
    ensures LookupOf(CorrectedApi.LogBoltzLoop(i, j, p, q)).Stack?
            <==> UnpairedBetween(PaddedOfDp(i, j), PaddedOfDp(p, q)) == 0
  {
  }
}
