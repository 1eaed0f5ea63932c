/** Executor construction and configuration: the options record, the
    executor's base swap configuration, whole-value replacement of that
    configuration, and the per-field precedence used when a swap is built
    (override field, else base field, else a hard default). */
module Config {
  import opened Base

  /** The priority-fee and compute-unit policies are defined by the crate's
      `types` module, which is not part of this model; the executor only moves
      them around. */
  type PriorityFeeConfig(==, 0)
  type ComputeUnitLimits(==, 0)

  /** `RaydiumAmmExecutorOpts`. */
  datatype ExecutorOpts = ExecutorOpts(
    priorityFee: Option<PriorityFeeConfig>,
    cuLimits: Option<ComputeUnitLimits>,
    wrapAndUnwrapSol: Option<bool>,
    loadKeysByApi: Option<bool>)

  /** `SwapConfig`. */
  datatype SwapConfig = SwapConfig(
    priorityFee: Option<PriorityFeeConfig>,
    cuLimits: Option<ComputeUnitLimits>,
    wrapAndUnwrapSol: Option<bool>,
    asLegacyTransaction: Option<bool>)

  /** The fields of `SwapConfigOverrides` that `make_swap` reads. */
  datatype SwapConfigOverrides = SwapConfigOverrides(
    priorityFee: Option<PriorityFeeConfig>,
    cuLimits: Option<ComputeUnitLimits>,
    wrapAndUnwrapSol: Option<bool>)

  /** The configuration `make_swap` hands to the instruction builder. */
  datatype EffectiveConfig = EffectiveConfig(
    priorityFee: Option<PriorityFeeConfig>,
    cuLimits: Option<ComputeUnitLimits>,
    wrapAndUnwrapSol: bool)

  /** The state of a `RaydiumAmm` that the model observes; the RPC and API
      clients are the collaborators passed to each operation instead. */
  datatype Executor = Executor(config: SwapConfig, loadKeysByApi: bool)

  /** `RaydiumAmmExecutorOpts::default()` (derived): every field unset. */
  function DefaultOpts(): (o: ExecutorOpts)
    ensures o.priorityFee.None? && o.cuLimits.None?
    ensures o.wrapAndUnwrapSol.None? && o.loadKeysByApi.None?
  {
    ExecutorOpts(None, None, None, None)
  }

  /** `RaydiumAmmExecutorOpts::new()`: no fee or compute-unit policy, SOL
      wrapping on, keys loaded through the API. */
  function NewOpts(): (o: ExecutorOpts)
    ensures o.priorityFee.None? && o.cuLimits.None?
    ensures o.wrapAndUnwrapSol == Some(true) && o.loadKeysByApi == Some(true)
  {
    ExecutorOpts(None, None, Some(true), Some(true))
  }

  /** `RaydiumAmm::new`: the options' policies become the base configuration
      unchanged, legacy transactions are requested, and keys are loaded
      through the API unless the options explicitly say otherwise. */
  function NewExecutor(opts: ExecutorOpts): (e: Executor)
    ensures e.config.priorityFee == opts.priorityFee
    ensures e.config.cuLimits == opts.cuLimits
    ensures e.config.wrapAndUnwrapSol == opts.wrapAndUnwrapSol
    ensures e.config.asLegacyTransaction == Some(true)
    ensures !e.loadKeysByApi <==> opts.loadKeysByApi == Some(false)
  {
    Executor(
      config := SwapConfig(opts.priorityFee, opts.cuLimits, opts.wrapAndUnwrapSol, Some(true)),
      loadKeysByApi := opts.loadKeysByApi.UnwrapOr(true))
  }

  /** `update_config`: replaces the whole base configuration and nothing
      else. */
  function UpdateConfig(e: Executor, config: SwapConfig): (r: Executor)
    ensures r.config == config
    ensures r.loadKeysByApi == e.loadKeysByApi
  {
    e.(config := config)
  }

  /** Updates do not accumulate: only the last configuration is kept. */
  lemma UpdateConfigLastWins(e: Executor, a: SwapConfig, b: SwapConfig)
    ensures UpdateConfig(UpdateConfig(e, a), b) == UpdateConfig(e, b)
  {
  }

  /** `overrides.and_then(|o| o.field)`, for each field. */
  function OverridePriorityFee(o: Option<SwapConfigOverrides>): Option<PriorityFeeConfig> {
    if o.Some? then o.value.priorityFee else None
  }

  function OverrideCuLimits(o: Option<SwapConfigOverrides>): Option<ComputeUnitLimits> {
    if o.Some? then o.value.cuLimits else None
  }

  function OverrideWrap(o: Option<SwapConfigOverrides>): Option<bool> {
    if o.Some? then o.value.wrapAndUnwrapSol else None
  }

  /** The configuration resolution at the head of `make_swap`. Each field is
      the override's value when the override sets it, else the base
      configuration's; wrapping additionally defaults to on, so it is off only
      when the first of (override, base) that is set says off. */
  function ResolveConfig(base: SwapConfig, overrides: Option<SwapConfigOverrides>): (r: EffectiveConfig)
    ensures OverridePriorityFee(overrides).Some? ==> r.priorityFee == OverridePriorityFee(overrides)
    ensures OverridePriorityFee(overrides).None? ==> r.priorityFee == base.priorityFee
    ensures OverrideCuLimits(overrides).Some? ==> r.cuLimits == OverrideCuLimits(overrides)
    ensures OverrideCuLimits(overrides).None? ==> r.cuLimits == base.cuLimits
    ensures !r.wrapAndUnwrapSol <==>
      (OverrideWrap(overrides) == Some(false)
       || (OverrideWrap(overrides).None? && base.wrapAndUnwrapSol == Some(false)))
  {
    EffectiveConfig(
      priorityFee := OverridePriorityFee(overrides).Or(base.priorityFee),
      cuLimits := OverrideCuLimits(overrides).Or(base.cuLimits),
      wrapAndUnwrapSol := OverrideWrap(overrides).Or(base.wrapAndUnwrapSol).UnwrapOr(true))
  }

  /** Folds the set fields of an override into a base configuration. */
  function Merge(base: SwapConfig, o: SwapConfigOverrides): SwapConfig {
    base.(priorityFee := o.priorityFee.Or(base.priorityFee),
          cuLimits := o.cuLimits.Or(base.cuLimits),
          wrapAndUnwrapSol := o.wrapAndUnwrapSol.Or(base.wrapAndUnwrapSol))
  }

  /** Precedence is layering: applying an override to a base configuration is
      the same as first folding the override into the base and then resolving
      with no override at all. */
  lemma OverrideIsMerge(base: SwapConfig, o: SwapConfigOverrides)
    ensures ResolveConfig(base, Some(o)) == ResolveConfig(Merge(base, o), None)
  {
  }

  /** An override that sets every field fully decides the effective
      configuration; the base configuration no longer matters. */
  lemma FullOverrideWins(a: SwapConfig, b: SwapConfig, o: SwapConfigOverrides)
    requires o.priorityFee.Some? && o.cuLimits.Some? && o.wrapAndUnwrapSol.Some?
    ensures ResolveConfig(a, Some(o)) == ResolveConfig(b, Some(o))
    ensures ResolveConfig(a, Some(o)).wrapAndUnwrapSol == o.wrapAndUnwrapSol.value
  {
  }

  /** An executor built from the derived default options and one built from
      `RaydiumAmmExecutorOpts::new()` behave alike: both load keys through the
      API, and both wrap SOL when no override says otherwise. */
  lemma DefaultAndNewOptsAgree(o: Option<SwapConfigOverrides>)
    ensures NewExecutor(DefaultOpts()).loadKeysByApi && NewExecutor(NewOpts()).loadKeysByApi
    ensures ResolveConfig(NewExecutor(DefaultOpts()).config, o)
         == ResolveConfig(NewExecutor(NewOpts()).config, o)
  {
  }
}
