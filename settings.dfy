/** The analysis object: the options it recognises and their defaults. */
module Settings {
  import opened Base

  /**
   * The options mapping. A key that is absent is None. The whole mapping is
   * also handed on to the surrogate generator and the CMI estimator.
   */
  datatype Options = Options(
    cmiCalcName: Option<string>,   // 'cmi_calc_name', required
    nPermSpec: Option<nat>,        // 'n_perm_spec'
    permType: Option<string>,      // 'perm_type'
    alphaSpec: Option<real>,       // 'alpha_spec'
    tail: Option<string>,          // 'tail'
    permuteInTime: Option<bool>)   // 'permute_in_time', read only by the surrogate generator

  const DefaultPermutations: nat := 200
  const DefaultPermType := "random"
  const DefaultAlpha: real := 0.05
  const DefaultTail := "two"
  const MissingCalculatorMessage := "Calculator name was not specified!"

  /** The fields the constructor sets. */
  datatype MultivariateSpectralTe = MultivariateSpectralTe(
    calculatorName: string,
    nPermutations: nat,
    permType: string,
    alpha: real,
    tail: string,
    options: Options)

  /**
   * The constructor: fails with KeyError when there is no estimator name,
   * otherwise takes every option that is given and the default for every one
   * that is not.
   */
  function Init(options: Options): (r: Result<MultivariateSpectralTe>)
    ensures r.Err? <==> options.cmiCalcName.None?
    ensures r.Err? ==> r.error == KeyError(MissingCalculatorMessage)
    ensures r.Ok? ==> r.value.calculatorName == options.cmiCalcName.value && r.value.options == options
    ensures r.Ok? && options.nPermSpec.None? ==> r.value.nPermutations == DefaultPermutations
    ensures r.Ok? && options.permType.None? ==> r.value.permType == DefaultPermType
    ensures r.Ok? && options.alphaSpec.None? ==> r.value.alpha == DefaultAlpha
    ensures r.Ok? && options.tail.None? ==> r.value.tail == DefaultTail
    ensures r.Ok? && options.nPermSpec.Some? ==> r.value.nPermutations == options.nPermSpec.value
    ensures r.Ok? && options.permType.Some? ==> r.value.permType == options.permType.value
    ensures r.Ok? && options.alphaSpec.Some? ==> r.value.alpha == options.alphaSpec.value
    ensures r.Ok? && options.tail.Some? ==> r.value.tail == options.tail.value
  {
    match options.cmiCalcName
    case None => Err(KeyError(MissingCalculatorMessage))
    case Some(name) =>
      Ok(MultivariateSpectralTe(
        name,
        Get(options.nPermSpec, DefaultPermutations),
        Get(options.permType, DefaultPermType),
        Get(options.alphaSpec, DefaultAlpha),
        Get(options.tail, DefaultTail),
        options))
  }

  /** `options.get(key, default)`. */
  function Get<T>(o: Option<T>, default: T): (v: T) {
    match o
    case Some(v) => v
    case None => default
  }
}
