# Multivariate spectral transfer entropy: surrogate bookkeeping

This project models the core of IDTxl's `Multivariate_spectral_te` class in
Dafny. Its constructor reads the analysis options. Its method
`analyse_single_target` tests, for every source variable that an earlier
multivariate TE analysis selected for a target, whether the source's
information transfer lives in one wavelet frequency band.

For each source, the method:
- transforms every replication of the source process with the maximal
  overlap discrete wavelet transform (MODWT) and stacks the coefficients;
- asks for spectral surrogates of the tested scale;
- for every permutation, overwrites that scale's slot of the stack in place,
  inverse-transforms the stack, and copies the data with the source process
  replaced by the reconstruction;
- estimates a surrogate TE in which only the source's realisations come from
  the surrogate copy;
- scores the original TE against the surrogate distribution with a one-sided
  test.

The result is four lists that stay aligned with the sources.

The model has two layers:

- `SurrogateSpec` holds ghost functions for what one call computes:
  - the coefficient stack;
  - the stack at each permutation;
  - the reconstruction and the surrogate data;
  - the surrogate TE values;
  - the outcome of each source and of the whole call.

  It also holds lemmas about these functions.
- `SpectralTe` holds the source's imperative algorithm: numpy arrays become
  Dafny arrays and loops carry invariants. Each method is proved to compute
  exactly the value the corresponding `SurrogateSpec` function describes.
  `AnalyseSingleTarget` is proved equal to `Analyse`.

Other modules:
- `Settings`: the constructor.
- `Scales`: the integer characterisation of `max_scale`.
- `PyLists`: Python indexing, `list.index` and `list.pop`.
- `Base.Collect`: "the loop stops at the first exception".

Modelling conventions:
- Numerical collaborators are uninterpreted fields of `Tools`. Their only
  contract is the shape of what they return. They are `Modwt`, `Imodwt`,
  `_get_spectral_surrogates`, `_find_pvalue`, `get_realisations`,
  `_lag_to_idx` and the CMI estimator.
- `_get_spectral_surrogates` also takes the number of the source being
  tested. It draws fresh random shuffles on every call, and the extra
  argument lets each source's surrogates differ.
- Sample, TE and p-values are an opaque type `Value`.
- Python exceptions become `Err` results:
  - `KeyError`: no calculator name;
  - `OverflowError`: `int(round(log2(0)))` for an empty data set;
  - `AssertionError`: the scale check;
  - `IndexError`: a process index, a slot, or `selected_sources_te[count]` out of range;
  - `ValueError`: `list.index` of a source missing from the full set.

Where the documentation and the code disagree, the model follows the code:

- `max_scale` is `log2(n_samples)` rounded to the nearest integer
  (`np.round`, idtxl/multivariate_spectral_te.py:200). It is not the integer
  part, which is the largest number of dyadic levels a series of that length
  has. `Scales.MaxScale` models the rounding. `Scales.MaxScaleExceedsFloor`
  shows the two differ: for 3 samples the maximum scale is 2, while
  `FloorLog2(3)` is 1.
- The docstring calls `scale` 1-indexed (line 180). The code's only check is
  `scale <= max_scale`, and Python's negative indexing then applies to
  `scale - 1`:
  - scale 0 tests the last (approximation) slot;
  - a scale below `-max_scale` raises `IndexError` at the first slot write,
    and only when there is at least one permutation.

  See `SurrogateSpec.TestedSlot` and `SurrogateSpec.SourceOutcome`.
- The docstring offers a `sources` argument that selects which sources to
  test (lines 181-184). The code never reads it: every source in
  `selected_vars_sources` is tested. The model has no such parameter.
- The docstring says the method returns a dictionary (lines 186-194). The
  code returns the four lists `pvalue`, `significance`, `te_surrogate` and
  `surrogate` (line 392). The model returns the four lists.

## Model

| member | source | states |
|---|---|---|
| `Settings.Init` | idtxl/multivariate_spectral_te.py:47-60 | KeyError with the message "Calculator name was not specified!" exactly when `cmi_calc_name` is absent; otherwise each of `n_perm_spec`, `perm_type`, `alpha_spec`, `tail` is the given option or the default 200, 'random', 0.05, 'two' |
| `Scales.FloorLog2` | idtxl/multivariate_spectral_te.py:200 | `2^k <= n < 2^(k+1)`; the integer part of `log2 n`, for comparison with the rounding |
| `Scales.OddPowerNotSquare` | idtxl/multivariate_spectral_te.py:200 | `n^2` is never `2^(2k+1)`: `log2 n` is never halfway between integers, so rounding has no ties |
| `Scales.MaxScale` | idtxl/multivariate_spectral_te.py:200 | `max_scale = k` satisfies `2^(2k-1) < n^2 < 2^(2k+1)`, i.e. k is `log2 n` rounded, and lies between `floor(log2 n)` and one more |
| `Scales.MaxScaleUnique` | idtxl/multivariate_spectral_te.py:200 | any k with `2^(2k-1) < n^2 < 2^(2k+1)` is `MaxScale(n)`: the characterisation pins `round(log2 n)` down |
| `Scales.MaxScaleExceedsFloor` | idtxl/multivariate_spectral_te.py:200 | for 3 samples the code's maximum scale is 2 while the integer part of `log2 3` is 1 |
| `PyLists.PyIndex` | idtxl/multivariate_spectral_te.py:321 | numpy indexing: an index is valid iff it lies in [-len, len); a negative one selects `len + i` |
| `PyLists.IndexOf` | idtxl/multivariate_spectral_te.py:305 | `list.index`: None (ValueError) iff the element is absent, else the first position holding it |
| `PyLists.Pop` | idtxl/multivariate_spectral_te.py:305 | `list.pop(i)`: one element shorter, elements before i unchanged, those after shifted down by one, the multiset loses exactly `s[i]` |
| `SurrogateSpec.Coefficients` | idtxl/multivariate_spectral_te.py:252-266 | the stack has shape (max_scale+1, n_samples, n_repl) and entry [j, s, r] is coefficient [j][s] of the transform of replication r |
| `SurrogateSpec.StackSlicesAreTransforms` | idtxl/multivariate_spectral_te.py:252-266 | slice `[:, :, rep]` of the stack equals the transform of replication `rep` of the source process, for every rep |
| `SpectralTe.FillStack` | idtxl/multivariate_spectral_te.py:252-266 | the loop over replications fills a fresh array of shape (max_scale+1, n_samples, n_repl) whose contents are the coefficient stack |
| `SurrogateSpec.SurrogatesShape` | idtxl/multivariate_spectral_te.py:295-299 | the spectral surrogates of a stack are a sample x replication x permutation array |
| `SurrogateSpec.ConditioningSet` | idtxl/multivariate_spectral_te.py:304-308 | ValueError iff the source is not in the full set; otherwise one element shorter and the full set's multiset minus the source |
| `SurrogateSpec.ConditioningSetRemovesFirst` | idtxl/multivariate_spectral_te.py:304-305 | the conditioning set is the full set with exactly its first occurrence of the source removed |
| `Collaborators.Tools.Valid` | idtxl/multivariate_spectral_te.py:257-331 | the whole assumption about the collaborators: `Modwt` returns max_scale+1 rows of the series' length, `Imodwt` a series as long as a coefficient row, and the surrogates are sample x replication x permutation |
| `Arrays.Data.constructor` | idtxl/multivariate_spectral_te.py:293 | `Data(array, 'psr', normalise=False)` wraps the array it is given, so `wav_stored._data` is the stack itself |
| `SurrogateSpec.PermutedStack` | idtxl/multivariate_spectral_te.py:321 | the stack while permutation p is tested: the original coefficients with the slot replaced by `spectral_surr[:, :, p]`, of the same shape |
| `SurrogateSpec.Slot` | idtxl/multivariate_spectral_te.py:321 | the slot `scale - 1` selects under numpy indexing; none when `scale - 1` lies outside [-(max_scale+1), max_scale+1) |
| `SurrogateSpec.PermutedStackFrame` | idtxl/multivariate_spectral_te.py:321 | at permutation p every scale other than the tested slot equals the original coefficients, and the slot equals `spectral_surr[:, :, p]` |
| `SurrogateSpec.OverwriteForgetsEarlierPermutation` | idtxl/multivariate_spectral_te.py:314-321 | overwriting the slot for permutation q erases what permutation p wrote: the stack never depends on earlier permutations |
| `SpectralTe.OverwriteSlot` | idtxl/multivariate_spectral_te.py:321 | the in-place slice assignment changes the stack array into the permuted stack of its previous contents |
| `SurrogateSpec.TestedSlot` | idtxl/multivariate_spectral_te.py:321 | after the scale check, scale j >= 1 writes slot j-1, scale 0 the approximation slot, scales down to -max_scale the slots from the end, lower scales no slot |
| `SurrogateSpec.Reconstruction` | idtxl/multivariate_spectral_te.py:322-331 | a replication x sample array whose row inv is the inverse transform of the stack's plane `[:, :, inv]` |
| `SpectralTe.Reconstruct` | idtxl/multivariate_spectral_te.py:322-331 | the row-by-row loop fills a fresh n_repl x n_samples array whose contents are the reconstruction of the current stack |
| `SurrogateSpec.WithProcessReplaced` | idtxl/multivariate_spectral_te.py:339-345 | the surrogate data: a copy of the raw data, of the same shape, with process `process` replaced by the transposed reconstruction |
| `SurrogateSpec.Reconstructed` | idtxl/multivariate_spectral_te.py:319-331 | the replication x sample reconstruction of the stack permuted for p |
| `SurrogateSpec.SurrogateTe` | idtxl/multivariate_spectral_te.py:339-371 | the estimate for permutation p: current value and conditioning realisations as given, the source's from the surrogate data of p |
| `SurrogateSpec.SurrogateTes` | idtxl/multivariate_spectral_te.py:312-371 | `te_surr`: the surrogate TE values of all permutations, one per permutation, in order |
| `SurrogateSpec.Surrogates` | idtxl/multivariate_spectral_te.py:313-333 | `surrog`: the reconstructions of all permutations, one per permutation, in order |
| `SurrogateSpec.WithProcessReplacedFrame` | idtxl/multivariate_spectral_te.py:339-345 | in the surrogate data every process other than the source's is the original one, and the source's is the transposed reconstruction |
| `SpectralTe.CopyReplacingProcess` | idtxl/multivariate_spectral_te.py:339-345 | the copy is a fresh array holding the surrogate data; the original data array may not be modified and is not |
| `SpectralTe.SurrogatePermutation` | idtxl/multivariate_spectral_te.py:319-371 | given the stack the loop hands over (the original coefficients, or the stack permuted for p-1), one permutation leaves the stack permuted for p, and yields the surrogate TE value and reconstruction of p |
| `SpectralTe.PermutationLoop` | idtxl/multivariate_spectral_te.py:312-371 | `te_surr` holds, at every index p, the surrogate TE value of permutation p, and `surrog` the reconstruction of each permutation in order; afterwards the stack holds the last permutation's surrogate in the slot (the original coefficients if there was none) |
| `SurrogateSpec.TestedSourceRealisations` | idtxl/multivariate_spectral_te.py:364-371 | each surrogate TE value takes the current value's and the conditioning realisations from the original data, and the source's from the data with its process replaced by the surrogate of the same permutation |
| `SurrogateSpec.TestedSourceSurrogate` | idtxl/multivariate_spectral_te.py:321-333 | each stored surrogate is the reconstruction of the stack with only the tested slot replaced by that permutation's surrogate plane |
| `SurrogateSpec.TestedSource` | idtxl/multivariate_spectral_te.py:312-378 | one surrogate TE and one reconstruction per permutation; significance and p-value are `_find_pvalue` of `selected_sources_te[count]` against the surrogate values with tail 'one' |
| `SurrogateSpec.SourceChecksPass` | idtxl/multivariate_spectral_te.py:255-374 | the four checks a source must pass: a valid process index, membership of the full set, a valid slot when there is a permutation, an entry in `selected_sources_te` |
| `SurrogateSpec.SourceOutcome` | idtxl/multivariate_spectral_te.py:231-378 | succeeds iff the source passes its checks; IndexError for an out-of-range process, ValueError for a source missing from the full set, otherwise IndexError exactly when the slot is invalid and there is a permutation or `count` is past `selected_sources_te`; on success the lengths and the one-sided scoring against `selected_sources_te[count]` |
| `SurrogateSpec.SuccessfulOutcome` | idtxl/multivariate_spectral_te.py:255-374 | a source that was tested successfully had a valid process, conditioning set, slot (if permuted) and original TE entry, and its result is the tested-source value |
| `SpectralTe.TestSource` | idtxl/multivariate_spectral_te.py:231-390 | the body of the loop over sources returns exactly the source's outcome, errors included |
| `Base.Collect` | idtxl/multivariate_spectral_te.py:230-390 | running the sources in order succeeds iff no source raises, and then yields one value per source |
| `Base.CollectEntries` | idtxl/multivariate_spectral_te.py:230-390 | position i of a successful run holds the value of source i |
| `Base.CollectStep` | idtxl/multivariate_spectral_te.py:380-390 | one more successful source appends its value to the run |
| `Base.CollectFirstFailure` | idtxl/multivariate_spectral_te.py:230-390 | the first source that raises decides the error of the whole call |
| `SurrogateSpec.Outcomes` | idtxl/multivariate_spectral_te.py:230-308 | source i is tested on its own, from the full conditioning set, so no source sees an earlier one's removal. In the source the `cp.copy` at line 304 protects the shared list; in the model lists are values, so this holds by construction |
| `SurrogateSpec.Partial` | idtxl/multivariate_spectral_te.py:222-225 | the four lists after some of the sources: p-values and flags of the tested ones, and one list per source (created empty) holding one array for each tested source |
| `SurrogateSpec.Assemble` | idtxl/multivariate_spectral_te.py:390-392 | the four lists returned once every source is tested |
| `SurrogateSpec.AlignedWithSources` | idtxl/multivariate_spectral_te.py:380-392 | the returned lists hold one entry per source, entry i one array of n_permutations values scored against `selected_sources_te[i]` with tail 'one' |
| `SurrogateSpec.PartialStep` | idtxl/multivariate_spectral_te.py:380-383 | testing one more source appends its p-value and significance and appends one array to its own entry of the two surrogate lists |
| `SurrogateSpec.Sources` | idtxl/multivariate_spectral_te.py:211-213 | `idx_list_sources`: the selected sources converted to absolute indices by `_lag_to_idx` |
| `SurrogateSpec.FullSet` | idtxl/multivariate_spectral_te.py:215-217 | `conditioning_set`: the full selected set converted to absolute indices |
| `SurrogateSpec.SetupOf` | idtxl/multivariate_spectral_te.py:196-227 | what a call fixes before its loop: samples, replications, max_scale, the scale, the full set and the current value's realisations from the original data |
| `SurrogateSpec.RunAll` | idtxl/multivariate_spectral_te.py:222-392 | a successful run returns lists aligned with the sources: each holds one entry per source, entry i holds one array of n_permutations values scored against `selected_sources_te[i]` with tail 'one' |
| `SpectralTe.TestSources` | idtxl/multivariate_spectral_te.py:222-392 | the loop with its appends returns exactly the run over all sources, or the error of the first source that raises |
| `SurrogateSpec.Analyse` | idtxl/multivariate_spectral_te.py:196-392 | OverflowError on empty data, AssertionError when scale > max_scale (before anything else is computed), otherwise lists aligned with the sources |
| `SurrogateSpec.AnalyseSucceeds` | idtxl/multivariate_spectral_te.py:196-392 | a call succeeds iff there are samples, the scale passes the assertion, and every selected source passes its checks |
| `SurrogateSpec.ReturnedEntry` | idtxl/multivariate_spectral_te.py:380-383 | in a successful call, entry i of `te_surrogate` and of `surrogate` is the one-element list holding source i's surrogate TE values and reconstructions |
| `SpectralTe.AnalyseSingleTarget` | idtxl/multivariate_spectral_te.py:196-392 | the method computes exactly `Analyse` of its inputs |
| `SurrogateSpec.SuccessfulSource` | idtxl/multivariate_spectral_te.py:230-308 | in a successful call every source had a valid process and conditioning set, a valid slot when permuted, and its returned entry is its own outcome |
| `SurrogateSpec.SurrogateRealisations` | idtxl/multivariate_spectral_te.py:364-371 | entry p of source i's returned distribution is the estimate on the current value and conditioning set from the original data, with source i's realisations from the data carrying the surrogate returned at the same position |
| `SurrogateSpec.ReturnedSurrogate` | idtxl/multivariate_spectral_te.py:321-333 | the surrogate returned at permutation p of source i is the inverse transform of that source's coefficient stack with only the tested slot replaced by surrogate plane p |
| `SurrogateSpec.TestedSourceIgnoresTail` | idtxl/multivariate_spectral_te.py:374-378 | testing a source does not depend on the instance's `tail` |
| `SurrogateSpec.AnalyseIgnoresTail` | idtxl/multivariate_spectral_te.py:374-378 | the analysis of a target is the same whatever the instance's `tail` is: scoring always uses tail 'one' |

## Left out

- The JIDT estimator (idtxl/estimators_cmi.py) is left out. It starts a Java VM and runs floating-point nearest-neighbour code, so it becomes the uninterpreted `estimate`. So does the construction of `Estimator_cmi` from the calculator name (line 55), including its own check of that name.
- The internals of `Modwt`, `Imodwt`, `_get_spectral_surrogates`, `_find_pvalue`, `get_realisations` and `_lag_to_idx` are left out. They are library or floating-point code outside these files. The model knows only the shapes of their outputs and none of the errors they may raise themselves.
- `_get_data_slice(process)[0]` (line 255) is taken to be `data.data[process, :, :]`, and its error to be numpy's bounds check on `process` (IndexError outside [-n_processes, n_processes)). Its own code is not part of this model.
- Randomness is read as a fixed random stream. `_get_spectral_surrogates` draws fresh shuffles on every call, and the JIDT estimator adds random noise. The model makes each a function of its arguments: the surrogates also of the tested source's number, the estimator of its inputs only. Two calls with equal inputs thus give equal estimates. Equalities between analyses, such as `AnalyseIgnoresTail`, hold for the same random draws.
- Data types are not modelled. Line 344 writes the floating-point reconstruction into a copy that keeps the dtype of `data.data`; integer raw data would truncate it. With the opaque `Value` the model has one value type and no such conversion.
- Printing is left out: the unconditional progress line (lines 232-235, with its `_idx_to_lag` calls) and the `VERBOSE` messages. They only produce output.
- `analyse_network` is left out. It is a stub that returns 1.
- Floating-point `log2` and `round` are not modelled. `max_scale` is defined by its exact integer characterisation instead.
- The options mapping is a record of optional typed fields, not a heterogeneous dictionary. The options are passed on whole to the surrogate generator and the estimator.
- `sources` is not a parameter of the model, because the code never reads it.
- The shape of `Data` is not modelled: `dim_order` and normalisation of `wav_stored` and `data_surr` are left out. The stack is a Dafny array indexed the same way, and the surrogate data are its value.
- `surrog` holds snapshots of the reconstructed arrays. In the source each permutation allocates a fresh `reconstructed` array, so no aliasing is lost.
- The test script (test/systemtest_multivariate_spectral_te.py) is left out. It reads HDF5 files and pickles results.
