/**
 The energy-table provider (`ScoreModelEnergy`) seen from the facade.

 The provider's tables are not part of this model, so a provider is any
 function from a lookup request to a log-space score, and `EXP` is any
 function on scores. A facade result is a `Score` term that records which
 lookup it makes and whether `EXP` is applied on top of it.
 */
module Provider {

  /** One request to the provider: the `score_*` method called and its
      arguments, exactly as the facade passes them. */
  datatype Call =
    | Stack(i: int, j: int)
    | StemClose(i: int, j: int)
    | Hairpin(i: int, j: int)
    | Interior(i: int, j: int, ip: int, jp: int)
    | MultiClose(i: int, j: int)
    | MultiOpen(i: int, j: int)
    | MultiExtend(i: int, j: int)
    | OuterExtend(i: int, j: int)
    | OuterBranch(i: int, j: int)

  /** What a facade method returns: one provider lookup, possibly under
      `EXP`. There is no way to combine two lookups, so every value of this
      type reads the provider exactly once. */
  datatype Score = Lookup(call: Call) | Exp(arg: Score)

  /** The single provider request a score is built on. */
  function LookupOf(s: Score): Call
  {
    match s
    case Lookup(c) => c
    case Exp(x) => LookupOf(x)
  }

  /** The value of a score when the provider answers `provider` and the
      exponential is `exp`. */
  function Eval(s: Score, provider: Call -> real, exp: real -> real): real
  {
    match s
    case Lookup(c) => provider(c)
    case Exp(x) => exp(Eval(x, provider, exp))
  }

  /** `s` is the provider's log-Boltzmann score for `c`, whatever the
      provider and the exponential are. */
  ghost predicate IsLogScoreOf(s: Score, c: Call)
  {
    forall provider: Call -> real, exp: real -> real :: Eval(s, provider, exp) == provider(c)
  }

  /** `s` is `EXP` of the provider's log-Boltzmann score for `c`, whatever
      the provider and the exponential are. */
  ghost predicate IsBoltzOf(s: Score, c: Call)
  {
    forall provider: Call -> real, exp: real -> real :: Eval(s, provider, exp) == exp(provider(c))
  }

  /** Applying `EXP` to the log-score of `c` gives the Boltzmann factor of `c`. */
  lemma ExpOfLogScore(s: Score, c: Call)
    requires IsLogScoreOf(s, c)
    ensures IsBoltzOf(Exp(s), c)
  {
    assert forall provider: Call -> real, exp: real -> real ::
      Eval(Exp(s), provider, exp) == exp(Eval(s, provider, exp));
  }

  /** A score depends on the provider only through the one request it
      makes: two providers that agree on that request give the same value.
      This is the sense in which every facade method is a pure composition
      that performs no lookup of its own. */
  lemma {:induction false} ProviderAgreement(s: Score, p1: Call -> real, p2: Call -> real, exp: real -> real)
    requires p1(LookupOf(s)) == p2(LookupOf(s))
    ensures Eval(s, p1, exp) == Eval(s, p2, exp)
  {
    match s
    case Lookup(c) =>
    case Exp(x) =>
      ProviderAgreement(x, p1, p2, exp);
  }
}
