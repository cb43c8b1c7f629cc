/**
 * `analyse_single_target` as the source runs it: it fills a coefficient
 * array replication by replication, overwrites the tested scale's slot in
 * place for every permutation, reconstructs the series row by row, copies the
 * data and replaces one process, and appends to the result lists. Each
 * method is proved to compute the value SurrogateSpec describes.
 */
module SpectralTe {
  import opened Base
  import opened Arrays
  import opened Scales
  import opened PyLists
  import opened Settings
  import opened Collaborators
  import opened SurrogateSpec

  /** Transforms every replication of `process` into a new scale x sample x replication array. */
  method FillStack(tools: Tools, data: Data, process: nat, maxScale: nat) returns (stack: array3<Value>)
    requires tools.Valid() && process < data.data.Length0
    ensures fresh(stack)
    ensures stack.Length0 == maxScale + 1 && stack.Length1 == data.data.Length1 && stack.Length2 == data.data.Length2
    ensures Contents3(stack) == Coefficients(tools, Contents3(data.data), data.data.Length1, data.data.Length2, process, maxScale)
  {
    var n, R := data.data.Length1, data.data.Length2;
    stack := new Value[maxScale + 1, n, R];
    var dataSlice := Contents3(data.data)[process];
    for rep := 0 to R
      invariant forall j, s, r :: 0 <= j <= maxScale && 0 <= s < n && 0 <= r < rep ==>
        stack[j, s, r] == tools.modwt(Column(dataSlice, n, R, r), MotherWavelet, maxScale)[j][s]
    {
      var wTransform := tools.modwt(Column(dataSlice, n, R, rep), MotherWavelet, maxScale);
      forall j, s | 0 <= j <= maxScale && 0 <= s < n {
        stack[j, s, rep] := wTransform[j][s];
      }
    }
    TensorExt(Contents3(stack), Coefficients(tools, Contents3(data.data), n, R, process, maxScale), maxScale + 1, n, R);
  }

  /** Writes `surr[:, :, perm]` over slot `slot` of the stack, and nothing else. */
  method OverwriteSlot(stack: array3<Value>, slot: nat, surr: Tensor, nPerm: nat, perm: nat)
    requires slot < stack.Length0 && IsTensor(surr, stack.Length1, stack.Length2, nPerm) && perm < nPerm
    modifies stack
    ensures Contents3(stack)
         == PermutedStack(old(Contents3(stack)), stack.Length0, stack.Length1, stack.Length2, slot, surr, nPerm, perm)
  {
    ghost var before := Contents3(stack);
    forall s, r | 0 <= s < stack.Length1 && 0 <= r < stack.Length2 {
      stack[slot, s, r] := surr[s][r][perm];
    }
    TensorExt(Contents3(stack), PermutedStack(before, stack.Length0, stack.Length1, stack.Length2, slot, surr, nPerm, perm),
              stack.Length0, stack.Length1, stack.Length2);
  }

  /** Inverse-transforms every replication of the stack into a new replication x sample array. */
  method Reconstruct(tools: Tools, stack: array3<Value>) returns (rec: array2<Value>)
    requires tools.Valid() && stack.Length0 >= 1
    ensures fresh(rec)
    ensures rec.Length0 == stack.Length2 && rec.Length1 == stack.Length1
    ensures Contents2(rec) == Reconstruction(tools, Contents3(stack), stack.Length0, stack.Length1, stack.Length2)
  {
    var S, n, R := stack.Length0, stack.Length1, stack.Length2;
    InverseLength(tools, S, n);
    rec := new Value[R, n];
    for inv := 0 to R
      invariant forall i, s :: 0 <= i < inv && 0 <= s < n ==>
        rec[i, s] == tools.imodwt(PlaneOf(Contents3(stack), S, n, R, i), MotherWavelet)[s]
    {
      var mergedCoeff := PlaneOf(Contents3(stack), S, n, R, inv);
      var row := tools.imodwt(mergedCoeff, MotherWavelet);
      forall s | 0 <= s < n {
        rec[inv, s] := row[s];
      }
    }
    ghost var want := Reconstruction(tools, Contents3(stack), S, n, R);
    forall i, s | 0 <= i < R && 0 <= s < n
      ensures Contents2(rec)[i][s] == want[i][s]
    {
    }
    MatrixExt(Contents2(rec), want, R, n);
  }

  /**
   * A copy of `d` in which process `process` is replaced by the transposed
   * reconstruction. `d` itself is not modified: the method may not modify it.
   */
  method CopyReplacingProcess(d: array3<Value>, process: nat, rec: array2<Value>) returns (dTemp: array3<Value>)
    requires process < d.Length0 && rec.Length0 == d.Length2 && rec.Length1 == d.Length1
    ensures fresh(dTemp)
    ensures Contents3(dTemp) == WithProcessReplaced(Contents3(d), d.Length1, d.Length2, process, Contents2(rec))
  {
    dTemp := new Value[d.Length0, d.Length1, d.Length2];
    forall p, s, r | 0 <= p < d.Length0 && 0 <= s < d.Length1 && 0 <= r < d.Length2 {
      dTemp[p, s, r] := d[p, s, r];
    }
    forall s, r | 0 <= s < d.Length1 && 0 <= r < d.Length2 {
      dTemp[process, s, r] := rec[r, s];
    }
    TensorExt(Contents3(dTemp), WithProcessReplaced(Contents3(d), d.Length1, d.Length2, process, Contents2(rec)),
              d.Length0, d.Length1, d.Length2);
  }

  /**
   * One permutation: writes surrogate `perm` into the tested slot, rebuilds
   * the series, and estimates the TE of `source` from data in which the
   * source's process is replaced by that surrogate.
   */
  method SurrogatePermutation(st: Setup, data: Data, process: nat, source: VarRef, condRealisations: Matrix,
                              coeffs: Tensor, storage: array3<Value>, slot: nat, surr: Tensor, perm: nat)
    returns (teValue: Value, reconstructed: Matrix)
    requires st.Valid() && st.raw == Contents3(data.data) && process < data.data.Length0
    requires st.nSamples == data.data.Length1 && st.nRepl == data.data.Length2
    requires IsTensor(coeffs, st.maxScale + 1, st.nSamples, st.nRepl) && slot <= st.maxScale
    requires IsTensor(surr, st.nSamples, st.nRepl, st.te.nPermutations) && perm < st.te.nPermutations
    requires storage.Length0 == st.maxScale + 1 && storage.Length1 == st.nSamples && storage.Length2 == st.nRepl
    requires storage != data.data
    requires perm == 0 ==> Contents3(storage) == coeffs
    requires perm > 0 ==>
      Contents3(storage) == PermutedStack(coeffs, st.maxScale + 1, st.nSamples, st.nRepl, slot, surr, st.te.nPermutations, perm - 1)
    modifies storage
    ensures Contents3(storage)
         == PermutedStack(coeffs, st.maxScale + 1, st.nSamples, st.nRepl, slot, surr, st.te.nPermutations, perm)
    ensures teValue == SurrogateTe(st, process, source, condRealisations, coeffs, slot, surr, perm)
    ensures reconstructed == Reconstructed(st, coeffs, slot, surr, perm)
  {
    var S, n, R, nPerm := st.maxScale + 1, st.nSamples, st.nRepl, st.te.nPermutations;
    OverwriteSlot(storage, slot, surr, nPerm, perm);
    if perm > 0 {
      OverwriteForgetsEarlierPermutation(coeffs, S, n, R, slot, surr, nPerm, perm - 1, perm);
    }
    var rec := Reconstruct(st.tools, storage);
    reconstructed := Contents2(rec);
    var dTemp := CopyReplacingProcess(data.data, process, rec);
    var dataSurr := new Data(dTemp);
    var curSourceRealisations := st.tools.getRealisations(Contents3(dataSurr.data), st.currentValue, [source]);
    teValue := st.tools.estimate(st.te.calculatorName, st.curValRealisations, curSourceRealisations,
                                 condRealisations, st.te.options);
  }

  /**
   * The loop over permutations: one surrogate TE value and one reconstructed
   * surrogate per permutation, the stack's slot overwritten each time.
   */
  method PermutationLoop(st: Setup, data: Data, process: nat, source: VarRef, condRealisations: Matrix,
                         coeffs: Tensor, storage: array3<Value>, slot: nat, surr: Tensor)
    returns (teSurr: array<Value>, surrog: seq<Matrix>)
    requires st.Valid() && st.raw == Contents3(data.data) && process < data.data.Length0
    requires st.nSamples == data.data.Length1 && st.nRepl == data.data.Length2
    requires IsTensor(coeffs, st.maxScale + 1, st.nSamples, st.nRepl) && slot <= st.maxScale
    requires IsTensor(surr, st.nSamples, st.nRepl, st.te.nPermutations)
    requires storage.Length0 == st.maxScale + 1 && storage.Length1 == st.nSamples && storage.Length2 == st.nRepl
    requires storage != data.data && Contents3(storage) == coeffs
    modifies storage
    ensures fresh(teSurr)
    ensures teSurr[..] == SurrogateTes(st, process, source, condRealisations, coeffs, slot, surr)
    ensures surrog == Surrogates(st, coeffs, slot, surr)
    ensures st.te.nPermutations == 0 ==> Contents3(storage) == coeffs
    ensures st.te.nPermutations > 0 ==>
      Contents3(storage)
      == PermutedStack(coeffs, st.maxScale + 1, st.nSamples, st.nRepl, slot, surr, st.te.nPermutations, st.te.nPermutations - 1)
  {
    var S, n, R, nPerm := st.maxScale + 1, st.nSamples, st.nRepl, st.te.nPermutations;
    teSurr := new Value[nPerm];
    surrog := [];
    for perm := 0 to nPerm
      invariant perm == 0 ==> Contents3(storage) == coeffs
      invariant perm > 0 ==> Contents3(storage) == PermutedStack(coeffs, S, n, R, slot, surr, nPerm, perm - 1)
      invariant forall q :: 0 <= q < perm ==>
        teSurr[q] == SurrogateTe(st, process, source, condRealisations, coeffs, slot, surr, q)
      invariant surrog == seq(perm, q requires 0 <= q < perm => Reconstructed(st, coeffs, slot, surr, q))
    {
      var teValue, reconstructed := SurrogatePermutation(st, data, process, source, condRealisations,
                                                         coeffs, storage, slot, surr, perm);
      surrog := surrog + [reconstructed];
      teSurr[perm] := teValue;
    }
  }

  /** The body of the loop over sources: tests source number `count`. */
  method TestSource(st: Setup, data: Data, count: nat, source: VarRef) returns (r: Result<SourceResult>)
    requires st.Valid() && st.raw == Contents3(data.data)
    requires st.nSamples == data.data.Length1 && st.nRepl == data.data.Length2
    ensures r == SourceOutcome(st, count, source)
  {
    var tools, te := st.tools, st.te;
    var S, n, R, nPerm := st.maxScale + 1, st.nSamples, st.nRepl, te.nPermutations;
    var processIndex := PyIndex(source.process, data.data.Length0);
    if processIndex.None? {
      return Err(IndexError);
    }
    var process := processIndex.value;

    var storage := FillStack(tools, data, process, st.maxScale);
    var wavStored := new Data(storage);
    var coeffs := Contents3(wavStored.data);
    var spectralSurr := tools.spectralSurrogates(coeffs, st.scale - 1, nPerm, te.options, count);
    SurrogatesShape(tools, coeffs, S, n, R, st.scale - 1, nPerm, te.options, count);

    var curCondSet := st.conditioningSet;
    var position := IndexOf(curCondSet, source);
    if position.None? {
      return Err(ValueError);
    }
    curCondSet := Pop(curCondSet, position.value);
    var curCondSetRealisations := tools.getRealisations(Contents3(data.data), st.currentValue, curCondSet);

    // The first permutation's write to the slot is where a bad slot raises.
    var slot := Slot(st.scale, S);
    if slot.None? && nPerm > 0 {
      return Err(IndexError);
    }
    var teSurr, surrog := PermutationLoop(st, data, process, source, curCondSetRealisations, coeffs,
                                          wavStored.data, if slot.Some? then slot.value else 0, spectralSurr);

    if count >= |st.selectedSourcesTe| {
      return Err(IndexError);
    }
    var teOriginal := st.selectedSourcesTe[count];
    var scored := tools.findPvalue(teOriginal, teSurr[..], te.alpha, ScoringTail);
    r := Ok(SourceResult(teSurr[..], surrog, scored.0, scored.1));
  }

  /**
   * The loop over sources: tests each in order, appending to the four result
   * lists, and stops at the first source whose test raises.
   */
  method TestSources(st: Setup, data: Data, idxListSources: seq<VarRef>) returns (r: Result<Output>)
    requires st.Valid() && st.raw == Contents3(data.data)
    requires st.nSamples == data.data.Length1 && st.nRepl == data.data.Length2
    ensures r == RunAll(st, idxListSources)
  {
    var pvalue: seq<Value> := [];
    var significance: seq<bool> := [];
    var teSurrogate: seq<seq<seq<Value>>> := seq(|idxListSources|, _ => []);
    var surrogate: seq<seq<seq<Matrix>>> := seq(|idxListSources|, _ => []);
    assert Output(pvalue, significance, teSurrogate, surrogate) == Partial([], |idxListSources|);
    ghost var outs := Outcomes(st, idxListSources);
    ghost var results: seq<SourceResult> := [];
    var count := 0;
    while count < |idxListSources|
      invariant 0 <= count <= |idxListSources|
      invariant Collect(outs[..count]) == Ok(results)
      invariant |results| == count
      invariant Output(pvalue, significance, teSurrogate, surrogate) == Partial(results, |idxListSources|)
    {
      var source := idxListSources[count];
      var outcome := TestSource(st, data, count, source);
      if outcome.Err? {
        CollectFirstFailure(outs, count, results, outcome.error);
        return Err(outcome.error);
      }
      var res := outcome.value;
      CollectStep(outs, count, results, res);
      PartialStep(results, res, |idxListSources|);
      teSurrogate := teSurrogate[count := teSurrogate[count] + [res.teSurr]];
      surrogate := surrogate[count := surrogate[count] + [res.surrog]];
      pvalue := pvalue + [res.pvalue];
      significance := significance + [res.significance];
      results := results + [res];
      count := count + 1;
    }
    assert outs[..count] == outs;
    r := Ok(Output(pvalue, significance, teSurrogate, surrogate));
  }

  /**
   * `analyse_single_target(res_target, data, scale)`: tests every selected
   * source, in order, and returns the p-values, significance flags,
   * surrogate TE distributions and reconstructed surrogates as parallel lists.
   */
  method AnalyseSingleTarget(te: MultivariateSpectralTe, tools: Tools, resTarget: ResTarget, data: Data, scale: int)
    returns (r: Result<Output>)
    requires tools.Valid()
    ensures r == Analyse(tools, te, resTarget, Contents3(data.data), data.data.Length1, data.data.Length2, scale)
  {
    var nSamples, nRepl := data.data.Length1, data.data.Length2;
    var currentValue := resTarget.currentValue;
    if nSamples == 0 {
      return Err(OverflowError);
    }
    var maxScale := MaxScale(nSamples);
    if scale > maxScale {
      return Err(AssertionError);
    }

    var idxListSources := tools.lagToIdx(resTarget.selectedVarsSources, currentValue.sample);
    var conditioningSet := tools.lagToIdx(resTarget.selectedVarsFull, currentValue.sample);
    var curValRealisations := tools.getRealisations(Contents3(data.data), currentValue, [currentValue]);
    var st := Setup(tools, te, Contents3(data.data), nSamples, nRepl, currentValue, conditioningSet,
                    curValRealisations, maxScale, scale, resTarget.selectedSourcesTe);
    r := TestSources(st, data, idxListSources);
  }
}
