/**
 * Variable references, the upstream inference result, and the numerical
 * collaborators the analysis calls. The collaborators are uninterpreted: the
 * model knows only the shapes of what they return.
 */
module Collaborators {
  import opened Arrays
  import opened Settings

  /** A (process, sample) pair; upstream results hold (process, lag) pairs of this shape. */
  datatype VarRef = VarRef(process: int, sample: int)

  /** The keys of `res_target` the analysis reads. */
  datatype ResTarget = ResTarget(
    currentValue: VarRef,               // 'current_value'
    selectedVarsSources: seq<VarRef>,   // 'selected_vars_sources', as (process, lag)
    selectedVarsFull: seq<VarRef>,      // 'selected_vars_full', as (process, lag)
    selectedSourcesTe: seq<Value>)      // 'selected_sources_te'

  datatype Tools = Tools(
    // self._lag_to_idx(lag_list, current_value_sample)
    lagToIdx: (seq<VarRef>, int) -> seq<VarRef>,
    // modwt.Modwt(series, wavelet, max_scale): rows are scales, the last the approximation
    modwt: (seq<Value>, string, nat) -> Matrix,
    // modwt.Imodwt(coefficients, wavelet)
    imodwt: (Matrix, string) -> seq<Value>,
    // stats._get_spectral_surrogates(coefficients, scale, n_perm, perm_opts): sample x replication x permutation;
    // the last argument numbers the call within one analysis, so that each call has its own random draws
    spectralSurrogates: (Tensor, int, nat, Options, nat) -> Tensor,
    // Data.get_realisations(current_value, idx_list)[0], on the given data array
    getRealisations: (Tensor, VarRef, seq<VarRef>) -> Matrix,
    // Estimator_cmi(calculator_name).estimate(var1, var2, conditional, opts)
    estimate: (string, Matrix, Matrix, Matrix, Options) -> Value,
    // stats._find_pvalue(statistic, distribution, alpha, tail): (significance, p-value)
    findPvalue: (Value, seq<Value>, real, string) -> (bool, Value))
  {
    /** The output shapes the analysis relies on when it stores the results in arrays. */
    ghost predicate Valid() {
      && (forall x, w, k: nat :: IsMatrix(modwt(x, w, k), k + 1, |x|))
      && (forall m, w :: |m| > 0 && IsMatrix(m, |m|, |m[0]|) ==> |imodwt(m, w)| == |m[0]|)
      && (forall t, i, n, o, d :: |t| > 0 && |t[0]| > 0 && IsTensor(t, |t|, |t[0]|, |t[0][0]|) ==>
            IsTensor(spectralSurrogates(t, i, n, o, d), |t[0]|, |t[0][0]|, n))
    }
  }
}
