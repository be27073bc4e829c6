# EnergyModelApi: coordinate translation of the raccess energy facade

`Raccess::EnergyModelApi` is a thin adapter that a beam-search DP for RNA
secondary structure uses to score elementary loops (stack, hairpin,
interior/bulge, multiloop, exterior). It owns no energy tables: every
method forwards to one lookup of a `ScoreModelEnergy` provider, after
translating indices between three conventions:

- **DP coordinates**, used by the loop recurrences (a DP pair `(i, j)`, or
  the inner bounds of a loop);
- **padded coordinates**, the provider's 1-based positions in a sequence
  with one sentinel at each end; the header's comments place the DP pair
  `(i, j)` at padded `(i+1, j)`;
- **closed-pair coordinates**, in which a caller names the base pair(s)
  that close the loop.

The model keeps the provider abstract. `Provider.Call` has one constructor
per provider request (`Stack(i, j)`, `Interior(i, j, ip, jp)`, ...), and a
facade result is a `Provider.Score`: a single `Lookup(call)`, possibly
under `Exp`. `Provider.Eval` gives its value for any provider and any
exponential, so each contract says which request the method makes, with
which index arithmetic, whatever the provider answers. `Padding.Addressed`
encodes the header's comments on which padded pair(s) each request
concerns, and every wrapper is checked against it.

Files:

- `provider.dfy`: requests, score terms, evaluation, and the lemma that a
  score depends on the provider only through its one request;
- `padding.dfy`: pairs, the DP-to-padded map and its inverse, the
  documented addressing of each request, unpaired-base counts;
- `energy_model_api.dfy`: every method of the facade as written;
- `corrected_api.dfy`: the three methods (and their Boltzmann forms) whose shifts leave the padding
  convention, with the shift that keeps it (see Findings);
- `properties.dfy`: lemmas that relate several methods.

The example in the comment at `src/raccess/energy_model_api.hpp:35-36`
(`log_boltz_interior(2, 9, 2, 8)` for outer pair (1,10), inner pair (2,8))
is in DP coordinates. It is sometimes read as the value of
`log_boltz_interior_closed(1, 10, 2, 8)`, but the code makes that call
`interior(1, 9, 1, 8)`. The model follows the code; `InteriorCommentExample`
states both facts.

## Model

| member | source | states |
|---|---|---|
| `Provider.ExpOfLogScore` | src/raccess/energy_model_api.hpp:54-67 | applying `EXP` to the log-score of a request gives, under every provider and every exponential, `EXP` of the provider's answer for that request; every `Boltz*` member rests on it |
| `Provider.ProviderAgreement` | src/raccess/energy_model_api.hpp:27-52 | a facade value depends on the provider only through the one request it makes: two providers that agree on that request give the same value, with or without `EXP` |
| `Padding.DpOfPadded` | src/raccess/energy_model_api.hpp:25-26 | the DP pair placed at padded positions p is (p.left-1, p.right), and it is the only DP pair the padding map (left index +1, right index unchanged) sends to p |
| `EnergyModelApi.LogBoltzStack` | src/raccess/energy_model_api.hpp:25-27 | is the provider's stack score at (i, j) with the indices unchanged; concerns padded pair (i+1, j) stacked on (i+2, j-1) |
| `EnergyModelApi.LogBoltzStemClose` | src/raccess/energy_model_api.hpp:28 | is the provider's stem-close score at (i, j) with the indices unchanged |
| `EnergyModelApi.LogBoltzHairpin` | src/raccess/energy_model_api.hpp:30-32 | is the provider's hairpin score at (i, j); with i, j the inner bounds, the closing pair is padded (i, j+1) |
| `EnergyModelApi.LogBoltzInterior` | src/raccess/energy_model_api.hpp:34-39 | is the provider's interior score at (i, j, ip, jp); outer pair padded (i, j+1), inner pair padded (ip+1, jp) |
| `EnergyModelApi.LogBoltzLoop` | src/raccess/energy_model_api.hpp:40-47 | is the stack score at (i, j) when p == i+1 and q == j-1, otherwise the interior score at (i, j, p, q) unchanged; the inner pair is padded (p+1, q) in both branches but the outer pair is (i+1, j) for a stack and (i, j+1) otherwise |
| `EnergyModelApi.LogBoltzMultiClose` | src/raccess/energy_model_api.hpp:48 | is the provider's multiloop-close score at (i, j); as inner bounds, the closing pair is padded (i, j+1) |
| `EnergyModelApi.LogBoltzMultiOpen` | src/raccess/energy_model_api.hpp:49 | is the provider's multiloop-open score at (i, j); concerns padded pair (i+1, j), per the comment at line 108 |
| `EnergyModelApi.LogBoltzMultiExtend` | src/raccess/energy_model_api.hpp:50 | is the provider's multiloop-extend score at (i, j) with the indices unchanged |
| `EnergyModelApi.LogBoltzOuterExtend` | src/raccess/energy_model_api.hpp:51 | is the provider's exterior-extend score at (i, j) with the indices unchanged |
| `EnergyModelApi.LogBoltzOuterBranch` | src/raccess/energy_model_api.hpp:52 | is the provider's exterior-branch score at (i, j); concerns padded pair (i+1, j), per the comment at line 108 |
| `EnergyModelApi.BoltzStack` | src/raccess/energy_model_api.hpp:54 | is `EXP` of the provider's stack score with the same arguments, under every provider and exponential, and concerns the same padded pairs as the log form |
| `EnergyModelApi.BoltzStemClose` | src/raccess/energy_model_api.hpp:55 | is `EXP` of the provider's stem-close score with the same arguments, under every provider and exponential |
| `EnergyModelApi.BoltzHairpin` | src/raccess/energy_model_api.hpp:56 | is `EXP` of the provider's hairpin score with the same arguments, under every provider and exponential, and concerns the same padded pairs as the log form |
| `EnergyModelApi.BoltzInterior` | src/raccess/energy_model_api.hpp:57-59 | is `EXP` of the provider's interior score with the same arguments, under every provider and exponential, and concerns the same padded pairs as the log form |
| `EnergyModelApi.BoltzMultiClose` | src/raccess/energy_model_api.hpp:63 | is `EXP` of the provider's multiloop-close score with the same arguments, under every provider and exponential, and concerns the same padded pairs as the log form |
| `EnergyModelApi.BoltzMultiOpen` | src/raccess/energy_model_api.hpp:64 | is `EXP` of the provider's multiloop-open score with the same arguments, under every provider and exponential, and concerns the same padded pairs as the log form |
| `EnergyModelApi.BoltzMultiExtend` | src/raccess/energy_model_api.hpp:65 | is `EXP` of the provider's multiloop-extend score with the same arguments, under every provider and exponential |
| `EnergyModelApi.BoltzOuterExtend` | src/raccess/energy_model_api.hpp:66 | is `EXP` of the provider's exterior-extend score with the same arguments, under every provider and exponential |
| `EnergyModelApi.BoltzOuterBranch` | src/raccess/energy_model_api.hpp:67 | is `EXP` of the provider's exterior-branch score with the same arguments, under every provider and exponential, and concerns the same padded pairs as the log form |
| `EnergyModelApi.BoltzLoop` | src/raccess/energy_model_api.hpp:60-62 | is `EXP` of the stack score at (i, j) in the adjacent case and of the interior score at (i, j, p, q) otherwise |
| `EnergyModelApi.LogBoltzHairpinClosed` | src/raccess/energy_model_api.hpp:72-75 | is the hairpin score at (a+1, b-1); by the hairpin's own convention that concerns padded pair (a+1, b) |
| `EnergyModelApi.BoltzHairpinClosed` | src/raccess/energy_model_api.hpp:78-80 | is `EXP` of the hairpin score at (a+1, b-1), padded pair (a+1, b) |
| `EnergyModelApi.LogBoltzStackClosed` | src/raccess/energy_model_api.hpp:81-83 | is the stack score at (a-1, b), i.e. padded pair (a, b) stacked on (a+1, b-1) |
| `EnergyModelApi.BoltzStackClosed` | src/raccess/energy_model_api.hpp:84-86 | is `EXP` of the stack score at (a-1, b), padded pairs (a, b) and (a+1, b-1) |
| `EnergyModelApi.LogBoltzInteriorClosed` | src/raccess/energy_model_api.hpp:87-91 | is the interior score at (a, b-1, c-1, d), which concerns outer padded pair (a, b) and inner padded pair (c, d) |
| `EnergyModelApi.BoltzInteriorClosed` | src/raccess/energy_model_api.hpp:92-94 | is `EXP` of the interior score at (a, b-1, c-1, d), padded pairs (a, b) and (c, d) |
| `EnergyModelApi.LogBoltzLoopClosed` | src/raccess/energy_model_api.hpp:95-101 | is the stack score at (a-1, b) when c == a+1 and d == b-1, otherwise the interior score at (a, b-1, c-1, d); both branches concern outer pair (a, b) and inner pair (c, d) |
| `EnergyModelApi.BoltzLoopClosed` | src/raccess/energy_model_api.hpp:102-104 | is `EXP` of the closed dispatcher's log form in each branch, padded pairs (a, b) and (c, d) |
| `EnergyModelApi.LogBoltzMultiCloseClosed` | src/raccess/energy_model_api.hpp:106-111 | is the multiloop-close score at (a+1, b-1), which concerns padded pair (a+1, b) |
| `EnergyModelApi.BoltzMultiCloseClosed` | src/raccess/energy_model_api.hpp:112-114 | is `EXP` of the multiloop-close score at (a+1, b-1), padded pair (a+1, b) |
| `EnergyModelApi.LogBoltzMultiOpenClosed` | src/raccess/energy_model_api.hpp:115-117 | is the multiloop-open score at (a-1, b), which concerns padded pair (a, b) |
| `EnergyModelApi.BoltzMultiOpenClosed` | src/raccess/energy_model_api.hpp:118-120 | is `EXP` of the multiloop-open score at (a-1, b), padded pair (a, b) |
| `EnergyModelApi.LogBoltzOuterBranchClosed` | src/raccess/energy_model_api.hpp:121-123 | is the exterior-branch score at (a-1, b), which concerns padded pair (a, b) |
| `EnergyModelApi.BoltzOuterBranchClosed` | src/raccess/energy_model_api.hpp:124-126 | is `EXP` of the exterior-branch score at (a-1, b), padded pair (a, b) |
| `EnergyModelApiProperties.LoopDispatch` | src/raccess/energy_model_api.hpp:40-47 | the DP dispatcher equals the stack method iff p == i+1 and q == j-1, and equals the interior method with unchanged indices iff not; likewise for the Boltzmann forms |
| `EnergyModelApiProperties.LoopClosedDispatch` | src/raccess/energy_model_api.hpp:95-101 | the closed dispatcher equals the closed stack wrapper iff c == a+1 and d == b-1, and the closed interior wrapper iff not |
| `EnergyModelApiProperties.LoopClosedStackIffNoUnpaired` | src/raccess/energy_model_api.hpp:88-101 | for a < c < d < b the closed dispatcher takes the stack branch iff the unpaired count (c-a-1)+(b-d-1) is 0 |
| `EnergyModelApiProperties.PairedWrappersUsePaddingMap` | src/raccess/energy_model_api.hpp:81-83 | stack, multi_open and outer_branch closed wrappers call their DP method at exactly the DP pair the padding map puts at (a, b) |
| `EnergyModelApiProperties.InteriorClosedUsesPaddingMap` | src/raccess/energy_model_api.hpp:87-91 | the closed interior wrapper passes the inner bounds of the DP pair at (a, b) and the DP pair at (c, d), and the loop it concerns has the caller's unpaired count |
| `EnergyModelApiProperties.InteriorCommentExample` | src/raccess/energy_model_api.hpp:34-36 | interior(2, 9, 2, 8) is DP outer pair (1, 10) around DP inner pair (2, 8), a one-base bulge; interior_closed(1, 10, 2, 8) calls interior(1, 9, 1, 8), not interior(2, 9, 2, 8) |
| `EnergyModelApiProperties.HairpinClosedOffByOne` | src/raccess/energy_model_api.hpp:72-75 | as written, hairpin_closed(a, b) concerns padded (a+1, b) rather than (a, b), sees one unpaired base fewer, and passes a left bound one greater than interior_closed does for the same closing pair; (1, 10) gives (2, 10) |
| `EnergyModelApiProperties.MultiCloseClosedOffByOne` | src/raccess/energy_model_api.hpp:109-111 | as written, multi_close_closed(a, b) concerns padded (a+1, b) rather than (a, b); (1, 10) gives (2, 10) |
| `EnergyModelApiProperties.LoopBranchesDisagree` | src/raccess/energy_model_api.hpp:40-47 | as written, the dispatcher's stack branch concerns DP outer pair (i, j) and its interior branch DP outer pair (i-1, j+1); (i, j, i, j), which has no unpaired base under the interior convention, goes to the interior branch, and the stack test fires where that convention reads two unpaired bases |
| `EnergyModelApiProperties.LoopClosedIsCorrectedLoop` | src/raccess/energy_model_api.hpp:95-101 | the closed dispatcher equals the corrected DP dispatcher at the DP pairs the padding map puts at (a, b) and (c, d); it equals the as-written DP dispatcher there iff the pairs are adjacent |
| `EnergyModelApiProperties.CorrectedClosingWrappersUsePaddingMap` | src/raccess/energy_model_api.hpp:106-111 | the corrected hairpin and multiloop-close wrappers are the DP methods at the inner bounds of the DP pair the padding map puts at (a, b) |
| `EnergyModelApiProperties.CorrectedLoopStackIffNoUnpaired` | src/raccess/energy_model_api.hpp:40-47 | for DP pairs i < p < q < j the corrected dispatcher makes a stack request iff no base is unpaired between the pairs |
| `CorrectedApi.LogBoltzHairpinClosed` | src/raccess/energy_model_api.hpp:72-75 | corrected: the hairpin score at (a, b-1), which concerns padded pair (a, b) and encloses b-a-1 unpaired bases |
| `CorrectedApi.BoltzHairpinClosed` | src/raccess/energy_model_api.hpp:78-80 | corrected: `EXP` of the hairpin score at (a, b-1), padded pair (a, b) |
| `CorrectedApi.LogBoltzMultiCloseClosed` | src/raccess/energy_model_api.hpp:109-111 | corrected: the multiloop-close score at (a, b-1), which concerns padded pair (a, b) |
| `CorrectedApi.BoltzMultiCloseClosed` | src/raccess/energy_model_api.hpp:112-114 | corrected: `EXP` of the multiloop-close score at (a, b-1), padded pair (a, b) |
| `CorrectedApi.LogBoltzLoop` | src/raccess/energy_model_api.hpp:40-47 | corrected: the stack score at (i, j) when adjacent, otherwise the interior score at (i+1, j-1, p, q); both branches concern DP outer pair (i, j) and DP inner pair (p, q) |
| `CorrectedApi.BoltzLoop` | src/raccess/energy_model_api.hpp:60-62 | corrected: `EXP` of the corrected dispatcher's log form in each branch |

## Left out

- `ScoreModelEnergy` itself is not part of this model: its tables, and its enforcement of the minimum hairpin length and maximum loop length, are unseen, so the forbidden-score boundary properties cannot be stated. Every provider request is an uninterpreted function argument of `Provider.Eval`.
- Floating point: `EXP`, `energy_to_score`, `score_to_energy`, `rt_kcal_mol`, the forbidden sentinel and log-sum-exp are not modelled; scores are reals and `EXP` is an arbitrary function, so `boltz(...) == 0` for a forbidden score is not stated.
- `initialize`, `set_seq` and `seqlen` forward to state held by the provider; `max_loop` and `min_hairpin` return provider constants. They hold no index logic of their own.
- The non-owning provider pointer is an ownership concern, not behaviour; every method is `const`, which the model reflects by being purely functional.
- `src/raccess/grammar_api.hpp` forwards `allow_pair`, `allow_inner_loop` and `allow_outer_loop` to an unseen constraint model and re-exports floating-point helpers; it has no logic of its own.
- Indices are unbounded integers: overflow of the provider's `IntT` at `a + 1` or `b - 1` is not modelled.
- `Padding.Addressed` gives no padded convention for stem_close, multi_extend and outer_extend, because the header states none.

## Findings

| source | as written | input that shows it | evidently intended | confidence | as-written member | corrected member |
|---|---|---|---|---|---|---|
| src/raccess/energy_model_api.hpp:72-75 | `log_boltz_hairpin(a + 1, b - 1)`: by the hairpin convention (line 31) this is closing pair padded (a+1, b) | (a, b) = (1, 10) concerns padded (2, 10) and 7 unpaired bases instead of 8 | `log_boltz_hairpin(a, b - 1)`, the same shift the interior wrapper applies to its outer pair | medium: the provider's real convention is unseen; not executed | `EnergyModelApiProperties.HairpinClosedOffByOne` | `CorrectedApi.LogBoltzHairpinClosed` |
| src/raccess/energy_model_api.hpp:109-111 | `log_boltz_multi_close(a + 1, b - 1)`: with inner bounds "like hairpin/interior" (line 107) this is padded (a+1, b) | (a, b) = (1, 10) concerns padded (2, 10) | `log_boltz_multi_close(a, b - 1)` | medium: the provider's real convention is unseen; not executed | `EnergyModelApiProperties.MultiCloseClosedOffByOne` | `CorrectedApi.LogBoltzMultiCloseClosed` |
| src/raccess/energy_model_api.hpp:40-47 | the stack branch reads (i, j) as the outer pair, the interior branch passes (i, j) as inner bounds, i.e. outer pair (i-1, j+1) | (i, j, p, q) = (0, 10, 1, 8): a one-base bulge between DP pairs (0, 10) and (1, 8) is sent to interior(0, 10, 1, 8), whose outer pair is DP (-1, 11); the closed dispatcher for the same pairs calls interior(1, 9, 1, 8) | interior branch `log_boltz_interior(i + 1, j - 1, p, q)`, which the closed dispatcher matches exactly | low: which branch is the intended convention depends on unseen callers; not executed | `EnergyModelApiProperties.LoopBranchesDisagree` | `CorrectedApi.LogBoltzLoop` |
