/**
 The coordinate systems of the facade.

 The provider pads the sequence with one sentinel at each end, so padded
 positions are 1-based. The facade's comments place a DP-coordinate pair
 (i, j) at padded positions (i+1, j): the left index gains one and the right
 index is unchanged. Closed-pair coordinates are meant to name padded
 positions directly.
 */
module Padding {
  import opened Provider

  /** A base pair, as two positions. */
  datatype Pair = Pair(left: int, right: int)

  /** The padded positions of the DP-coordinate pair (i, j). */
  function PaddedOfDp(i: int, j: int): Pair
  {
    Pair(i + 1, j)
  }

  /** The DP-coordinate pair that sits at the padded positions `p`. */
  function DpOfPadded(p: Pair): (r: (int, int))
    ensures PaddedOfDp(r.0, r.1) == p
    ensures forall i: int, j: int :: PaddedOfDp(i, j) == p ==> (i, j) == r
  {
    (p.left - 1, p.right)
  }

  /** Which padded pairs a provider request concerns, according to the
      facade's comments: one pair, an outer pair with the pair nested
      directly inside it, or no documented convention. */
  datatype Addr = Single(pair: Pair) | Nested(outer: Pair, inner: Pair) | Unstated

  /** The documented convention of each provider request.
      - stack (i, j): the DP pair (i, j) stacked on (i+1, j-1);
      - hairpin and multi_close (i, j): inner bounds, closed by the DP pair (i-1, j+1);
      - interior (i, j, ip, jp): outer pair (i-1, j+1), inner pair (ip, jp), both DP;
      - multi_open and outer_branch (i, j): the DP pair (i, j) itself.
      The stem_close, multi_extend and outer_extend requests carry no
      stated convention. */
  function Addressed(c: Call): Addr
  {
    match c
    case Stack(i, j) => Nested(PaddedOfDp(i, j), PaddedOfDp(i + 1, j - 1))
    case Hairpin(i, j) => Single(PaddedOfDp(i - 1, j + 1))
    case Interior(i, j, ip, jp) => Nested(PaddedOfDp(i - 1, j + 1), PaddedOfDp(ip, jp))
    case MultiClose(i, j) => Single(PaddedOfDp(i - 1, j + 1))
    case MultiOpen(i, j) => Single(PaddedOfDp(i, j))
    case OuterBranch(i, j) => Single(PaddedOfDp(i, j))
    case StemClose(_, _) => Unstated
    case MultiExtend(_, _) => Unstated
    case OuterExtend(_, _) => Unstated
  }

  /** The padded pairs a facade result concerns. */
  function AddressedBy(s: Score): Addr
  {
    Addressed(LookupOf(s))
  }

  /** Number of unpaired bases between an outer pair and a pair nested
      inside it (left gap plus right gap). */
  function UnpairedBetween(outer: Pair, inner: Pair): int
  {
    (inner.left - outer.left - 1) + (outer.right - inner.right - 1)
  }

  /** Number of unpaired bases enclosed by a hairpin's closing pair. */
  function HairpinLength(closing: Pair): int
  {
    closing.right - closing.left - 1
  }
}
