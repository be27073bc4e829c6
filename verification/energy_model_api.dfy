/**
 The facade `Raccess::EnergyModelApi` as written: every method forwards to
 one provider request, after a fixed index shift for the closed-pair
 wrappers and after the adjacency test for the two loop dispatchers.
 Each `Boltz*` is `EXP` of the matching `LogBoltz*` with the same arguments.
 */
module EnergyModelApi {
  import opened Provider
  import opened Padding

  /** The stack-versus-interior test of both dispatchers: (p, q) is the pair
      directly inside (i, j), with no unpaired base between them. */
  predicate Adjacent(i: int, j: int, p: int, q: int)
  {
    p == i + 1 && q == j - 1
  }

  // ---------------------------------------------------------------------
  // DP-coordinate methods

  /** Stack between the DP pairs (i, j) and (i+1, j-1). */
  function LogBoltzStack(i: int, j: int): (r: Score)
    ensures IsLogScoreOf(r, Stack(i, j))
    ensures AddressedBy(r) == Nested(Pair(i + 1, j), Pair(i + 2, j - 1))
  {
    Lookup(Stack(i, j))
  }

  function LogBoltzStemClose(i: int, j: int): (r: Score)
    ensures IsLogScoreOf(r, StemClose(i, j))
  {
    Lookup(StemClose(i, j))
  }

  /** Hairpin with inner bounds i and j; closed by padded positions i and j+1. */
  function LogBoltzHairpin(i: int, j: int): (r: Score)
    ensures IsLogScoreOf(r, Hairpin(i, j))
    ensures AddressedBy(r) == Single(Pair(i, j + 1))
  {
    Lookup(Hairpin(i, j))
  }

  /** Interior loop or bulge: outer DP pair (i-1, j+1), inner DP pair (ip, jp). */
  function LogBoltzInterior(i: int, j: int, ip: int, jp: int): (r: Score)
    ensures IsLogScoreOf(r, Interior(i, j, ip, jp))
    ensures AddressedBy(r) == Nested(Pair(i, j + 1), Pair(ip + 1, jp))
  {
    Lookup(Interior(i, j, ip, jp))
  }

  /** The DP-coordinate dispatcher. Its stack branch reads (i, j) as the
      outer pair; its interior branch passes (i, j) on as inner bounds, so
      the outer pair it concerns moves out by one. */
  function LogBoltzLoop(i: int, j: int, p: int, q: int): (r: Score)
    ensures Adjacent(i, j, p, q) ==> IsLogScoreOf(r, Stack(i, j))
    ensures !Adjacent(i, j, p, q) ==> IsLogScoreOf(r, Interior(i, j, p, q))
    ensures AddressedBy(r) ==
      Nested(if Adjacent(i, j, p, q) then PaddedOfDp(i, j) else PaddedOfDp(i - 1, j + 1), PaddedOfDp(p, q))
  {
    if Adjacent(i, j, p, q) then LogBoltzStack(i, j) else LogBoltzInterior(i, j, p, q)
  }

  /** Multiloop closing, with inner bounds like the hairpin. */
  function LogBoltzMultiClose(i: int, j: int): (r: Score)
    ensures IsLogScoreOf(r, MultiClose(i, j))
    ensures AddressedBy(r) == Single(Pair(i, j + 1))
  {
    Lookup(MultiClose(i, j))
  }

  /** Multiloop branch opening at padded pair (i+1, j). */
  function LogBoltzMultiOpen(i: int, j: int): (r: Score)
    ensures IsLogScoreOf(r, MultiOpen(i, j))
    ensures AddressedBy(r) == Single(Pair(i + 1, j))
  {
    Lookup(MultiOpen(i, j))
  }

  function LogBoltzMultiExtend(i: int, j: int): (r: Score)
    ensures IsLogScoreOf(r, MultiExtend(i, j))
  {
    Lookup(MultiExtend(i, j))
  }

  function LogBoltzOuterExtend(i: int, j: int): (r: Score)
    ensures IsLogScoreOf(r, OuterExtend(i, j))
  {
    Lookup(OuterExtend(i, j))
  }

  /** Exterior-loop branch at padded pair (i+1, j). */
  function LogBoltzOuterBranch(i: int, j: int): (r: Score)
    ensures IsLogScoreOf(r, OuterBranch(i, j))
    ensures AddressedBy(r) == Single(Pair(i + 1, j))
  {
    Lookup(OuterBranch(i, j))
  }

  // ---------------------------------------------------------------------
  // Boltzmann factors of the DP-coordinate methods

  function BoltzStack(i: int, j: int): (r: Score)
    ensures IsBoltzOf(r, Stack(i, j))
    ensures AddressedBy(r) == AddressedBy(LogBoltzStack(i, j))
  {
    ExpOfLogScore(LogBoltzStack(i, j), Stack(i, j));
    Exp(LogBoltzStack(i, j))
  }

  function BoltzStemClose(i: int, j: int): (r: Score)
    ensures IsBoltzOf(r, StemClose(i, j))
  {
    ExpOfLogScore(LogBoltzStemClose(i, j), StemClose(i, j));
    Exp(LogBoltzStemClose(i, j))
  }

  function BoltzHairpin(i: int, j: int): (r: Score)
    ensures IsBoltzOf(r, Hairpin(i, j))
    ensures AddressedBy(r) == AddressedBy(LogBoltzHairpin(i, j))
  {
    ExpOfLogScore(LogBoltzHairpin(i, j), Hairpin(i, j));
    Exp(LogBoltzHairpin(i, j))
  }

  function BoltzInterior(i: int, j: int, ip: int, jp: int): (r: Score)
    ensures IsBoltzOf(r, Interior(i, j, ip, jp))
    ensures AddressedBy(r) == AddressedBy(LogBoltzInterior(i, j, ip, jp))
  {
    ExpOfLogScore(LogBoltzInterior(i, j, ip, jp), Interior(i, j, ip, jp));
    Exp(LogBoltzInterior(i, j, ip, jp))
  }

  function BoltzLoop(i: int, j: int, p: int, q: int): (r: Score)
    ensures Adjacent(i, j, p, q) ==> IsBoltzOf(r, Stack(i, j))
    ensures !Adjacent(i, j, p, q) ==> IsBoltzOf(r, Interior(i, j, p, q))
    ensures AddressedBy(r) == AddressedBy(LogBoltzLoop(i, j, p, q))
  {
    ExpOfLogScore(LogBoltzLoop(i, j, p, q), if Adjacent(i, j, p, q) then Stack(i, j) else Interior(i, j, p, q));
    Exp(LogBoltzLoop(i, j, p, q))
  }

  function BoltzMultiClose(i: int, j: int): (r: Score)
    ensures IsBoltzOf(r, MultiClose(i, j))
    ensures AddressedBy(r) == AddressedBy(LogBoltzMultiClose(i, j))
  {
    ExpOfLogScore(LogBoltzMultiClose(i, j), MultiClose(i, j));
    Exp(LogBoltzMultiClose(i, j))
  }

  function BoltzMultiOpen(i: int, j: int): (r: Score)
    ensures IsBoltzOf(r, MultiOpen(i, j))
    ensures AddressedBy(r) == AddressedBy(LogBoltzMultiOpen(i, j))
  {
    ExpOfLogScore(LogBoltzMultiOpen(i, j), MultiOpen(i, j));
    Exp(LogBoltzMultiOpen(i, j))
  }

  function BoltzMultiExtend(i: int, j: int): (r: Score)
    ensures IsBoltzOf(r, MultiExtend(i, j))
  {
    ExpOfLogScore(LogBoltzMultiExtend(i, j), MultiExtend(i, j));
    Exp(LogBoltzMultiExtend(i, j))
  }

  function BoltzOuterExtend(i: int, j: int): (r: Score)
    ensures IsBoltzOf(r, OuterExtend(i, j))
  {
    ExpOfLogScore(LogBoltzOuterExtend(i, j), OuterExtend(i, j));
    Exp(LogBoltzOuterExtend(i, j))
  }

  function BoltzOuterBranch(i: int, j: int): (r: Score)
    ensures IsBoltzOf(r, OuterBranch(i, j))
    ensures AddressedBy(r) == AddressedBy(LogBoltzOuterBranch(i, j))
  {
    ExpOfLogScore(LogBoltzOuterBranch(i, j), OuterBranch(i, j));
    Exp(LogBoltzOuterBranch(i, j))
  }

  // ---------------------------------------------------------------------
  // Closed-pair wrappers: (a, b) and (c, d) name base pairs

  /** Hairpin closed by (a, b). Shifts to inner bounds (a+1, b-1), which by
      the hairpin's own convention is the padded pair (a+1, b). */
  function LogBoltzHairpinClosed(a: int, b: int): (r: Score)
    ensures IsLogScoreOf(r, Hairpin(a + 1, b - 1))
    ensures AddressedBy(r) == Single(Pair(a + 1, b))
  {
    LogBoltzHairpin(a + 1, b - 1)
  }

  function BoltzHairpinClosed(a: int, b: int): (r: Score)
    ensures IsBoltzOf(r, Hairpin(a + 1, b - 1))
    ensures AddressedBy(r) == Single(Pair(a + 1, b))
  {
    ExpOfLogScore(LogBoltzHairpinClosed(a, b), Hairpin(a + 1, b - 1));
    Exp(LogBoltzHairpinClosed(a, b))
  }

  /** Stack of the pair (a, b) on (a+1, b-1). */
  function LogBoltzStackClosed(a: int, b: int): (r: Score)
    ensures IsLogScoreOf(r, Stack(a - 1, b))
    ensures AddressedBy(r) == Nested(Pair(a, b), Pair(a + 1, b - 1))
  {
    LogBoltzStack(a - 1, b)
  }

  function BoltzStackClosed(a: int, b: int): (r: Score)
    ensures IsBoltzOf(r, Stack(a - 1, b))
    ensures AddressedBy(r) == Nested(Pair(a, b), Pair(a + 1, b - 1))
  {
    ExpOfLogScore(LogBoltzStackClosed(a, b), Stack(a - 1, b));
    Exp(LogBoltzStackClosed(a, b))
  }

  /** Interior loop with outer pair (a, b) and inner pair (c, d). */
  function LogBoltzInteriorClosed(a: int, b: int, c: int, d: int): (r: Score)
    ensures IsLogScoreOf(r, Interior(a, b - 1, c - 1, d))
    ensures AddressedBy(r) == Nested(Pair(a, b), Pair(c, d))
  {
    LogBoltzInterior(a, b - 1, c - 1, d)
  }

  function BoltzInteriorClosed(a: int, b: int, c: int, d: int): (r: Score)
    ensures IsBoltzOf(r, Interior(a, b - 1, c - 1, d))
    ensures AddressedBy(r) == Nested(Pair(a, b), Pair(c, d))
  {
    ExpOfLogScore(LogBoltzInteriorClosed(a, b, c, d), Interior(a, b - 1, c - 1, d));
    Exp(LogBoltzInteriorClosed(a, b, c, d))
  }

  /** The closed-pair dispatcher. Both branches concern outer pair (a, b)
      and inner pair (c, d). */
  function LogBoltzLoopClosed(a: int, b: int, c: int, d: int): (r: Score)
    ensures Adjacent(a, b, c, d) ==> IsLogScoreOf(r, Stack(a - 1, b))
    ensures !Adjacent(a, b, c, d) ==> IsLogScoreOf(r, Interior(a, b - 1, c - 1, d))
    ensures AddressedBy(r) == Nested(Pair(a, b), Pair(c, d))
  {
    if Adjacent(a, b, c, d) then LogBoltzStackClosed(a, b) else LogBoltzInteriorClosed(a, b, c, d)
  }

  function BoltzLoopClosed(a: int, b: int, c: int, d: int): (r: Score)
    ensures Adjacent(a, b, c, d) ==> IsBoltzOf(r, Stack(a - 1, b))
    ensures !Adjacent(a, b, c, d) ==> IsBoltzOf(r, Interior(a, b - 1, c - 1, d))
    ensures AddressedBy(r) == Nested(Pair(a, b), Pair(c, d))
  {
    ExpOfLogScore(LogBoltzLoopClosed(a, b, c, d),
                  if Adjacent(a, b, c, d) then Stack(a - 1, b) else Interior(a, b - 1, c - 1, d));
    Exp(LogBoltzLoopClosed(a, b, c, d))
  }

  /** Multiloop closed by (a, b). Shifts to inner bounds (a+1, b-1), which
      by the multiloop-close convention is the padded pair (a+1, b). */
  function LogBoltzMultiCloseClosed(a: int, b: int): (r: Score)
    ensures IsLogScoreOf(r, MultiClose(a + 1, b - 1))
    ensures AddressedBy(r) == Single(Pair(a + 1, b))
  {
    LogBoltzMultiClose(a + 1, b - 1)
  }

  function BoltzMultiCloseClosed(a: int, b: int): (r: Score)
    ensures IsBoltzOf(r, MultiClose(a + 1, b - 1))
    ensures AddressedBy(r) == Single(Pair(a + 1, b))
  {
    ExpOfLogScore(LogBoltzMultiCloseClosed(a, b), MultiClose(a + 1, b - 1));
    Exp(LogBoltzMultiCloseClosed(a, b))
  }

  /** Multiloop branch opened by the pair (a, b). */
  function LogBoltzMultiOpenClosed(a: int, b: int): (r: Score)
    ensures IsLogScoreOf(r, MultiOpen(a - 1, b))
    ensures AddressedBy(r) == Single(Pair(a, b))
  {
    LogBoltzMultiOpen(a - 1, b)
  }

  function BoltzMultiOpenClosed(a: int, b: int): (r: Score)
    ensures IsBoltzOf(r, MultiOpen(a - 1, b))
    ensures AddressedBy(r) == Single(Pair(a, b))
  {
    ExpOfLogScore(LogBoltzMultiOpenClosed(a, b), MultiOpen(a - 1, b));
    Exp(LogBoltzMultiOpenClosed(a, b))
  }

  /** Exterior-loop branch at the pair (a, b). */
  function LogBoltzOuterBranchClosed(a: int, b: int): (r: Score)
    ensures IsLogScoreOf(r, OuterBranch(a - 1, b))
    ensures AddressedBy(r) == Single(Pair(a, b))
  {
    LogBoltzOuterBranch(a - 1, b)
  }

  function BoltzOuterBranchClosed(a: int, b: int): (r: Score)
    ensures IsBoltzOf(r, OuterBranch(a - 1, b))
    ensures AddressedBy(r) == Single(Pair(a, b))
  {
    ExpOfLogScore(LogBoltzOuterBranchClosed(a, b), OuterBranch(a - 1, b));
    Exp(LogBoltzOuterBranchClosed(a, b))
  }
}
