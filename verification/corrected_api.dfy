/**
 The closed-pair wrappers and the DP dispatcher with the index shifts that
 make them agree with the facade's documented padding convention. The
 as-written versions are in `EnergyModelApi`; the discrepancies are stated
 in `EnergyModelApiProperties`.
 */
module CorrectedApi {
  import opened Provider
  import opened Padding
  import EnergyModelApi

  /** Hairpin closed by (a, b): inner bounds (a, b-1), the same shift that
      the interior wrapper applies to its outer pair. */
  function LogBoltzHairpinClosed(a: int, b: int): (r: Score)
    ensures IsLogScoreOf(r, Hairpin(a, b - 1))
    ensures AddressedBy(r) == Single(Pair(a, b))
    ensures HairpinLength(AddressedBy(r).pair) == b - a - 1
  {
    EnergyModelApi.LogBoltzHairpin(a, b - 1)
  }

  function BoltzHairpinClosed(a: int, b: int): (r: Score)
    ensures IsBoltzOf(r, Hairpin(a, b - 1))
    ensures AddressedBy(r) == Single(Pair(a, b))
  {
    ExpOfLogScore(LogBoltzHairpinClosed(a, b), Hairpin(a, b - 1));
    Exp(LogBoltzHairpinClosed(a, b))
  }

  /** Multiloop closed by (a, b): inner bounds (a, b-1). */
  function LogBoltzMultiCloseClosed(a: int, b: int): (r: Score)
    ensures IsLogScoreOf(r, MultiClose(a, b - 1))
    ensures AddressedBy(r) == Single(Pair(a, b))
  {
    EnergyModelApi.LogBoltzMultiClose(a, b - 1)
  }

  function BoltzMultiCloseClosed(a: int, b: int): (r: Score)
    ensures IsBoltzOf(r, MultiClose(a, b - 1))
    ensures AddressedBy(r) == Single(Pair(a, b))
  {
    ExpOfLogScore(LogBoltzMultiCloseClosed(a, b), MultiClose(a, b - 1));
    Exp(LogBoltzMultiCloseClosed(a, b))
  }

  /** The DP dispatcher reading (i, j) as the outer pair and (p, q) as the
      inner pair in both branches: the interior branch passes the inner
      bounds (i+1, j-1) of the outer pair. */
  function LogBoltzLoop(i: int, j: int, p: int, q: int): (r: Score)
    ensures EnergyModelApi.Adjacent(i, j, p, q) ==> IsLogScoreOf(r, Stack(i, j))
    ensures !EnergyModelApi.Adjacent(i, j, p, q) ==> IsLogScoreOf(r, Interior(i + 1, j - 1, p, q))
    ensures AddressedBy(r) == Nested(PaddedOfDp(i, j), PaddedOfDp(p, q))
  {
    if EnergyModelApi.Adjacent(i, j, p, q) then EnergyModelApi.LogBoltzStack(i, j)
    else EnergyModelApi.LogBoltzInterior(i + 1, j - 1, p, q)
  }

  function BoltzLoop(i: int, j: int, p: int, q: int): (r: Score)
    ensures EnergyModelApi.Adjacent(i, j, p, q) ==> IsBoltzOf(r, Stack(i, j))
    ensures !EnergyModelApi.Adjacent(i, j, p, q) ==> IsBoltzOf(r, Interior(i + 1, j - 1, p, q))
    ensures AddressedBy(r) == Nested(PaddedOfDp(i, j), PaddedOfDp(p, q))
  {
    ExpOfLogScore(LogBoltzLoop(i, j, p, q),
                  if EnergyModelApi.Adjacent(i, j, p, q) then Stack(i, j) else Interior(i + 1, j - 1, p, q));
    Exp(LogBoltzLoop(i, j, p, q))
  }
}
