/**
 * The environment post-processor: the entry point the host calls once per
 * application context. It decides whether the parameter store is active (the
 * enabled flag, or an accepted profile), picks the strategy, and keeps an
 * initialized flag so that a second context does not register the sources
 * again unless multiple contexts are supported.
 */
module PostProcessor {
  import opened Wrappers
  import opened Configuration
  import opened PropertySources
  import opened Strategies

  /** The built-in profile that activates the parameter store when no accepted profiles are configured. */
  const AcceptedProfile := "awsParameterStorePropertySourceEnabled"

  /** The profile check: whether it activates the store, and whether acceptsProfiles was asked at all. */
  datatype ProfileCheck = ProfileCheck(active: bool, consulted: bool)

  /** What one call decides: the strategy it runs, if any, and whether it asked acceptsProfiles. */
  datatype Decision = Decision(strategy: Option<StrategyType>, profilesConsulted: bool)

  /**
   * A custom accepted-profiles list, when set and not empty, replaces the
   * built-in profile; an empty list skips the check.
   */
  function ProfileActivation(env: Environment): (r: ProfileCheck)
    ensures r.consulted <==> env.acceptedProfiles.None? || |env.acceptedProfiles.value| > 0
    ensures r.active ==> r.consulted
    ensures r.active <==>
              exists p :: p in env.activeProfiles &&
                (if env.acceptedProfiles.Some? then p in env.acceptedProfiles.value else p == AcceptedProfile)
  {
    match env.acceptedProfiles
    case None => ProfileCheck(AcceptsProfiles(env, [AcceptedProfile]), true)
    case Some(profiles) =>
      if |profiles| > 0 then ProfileCheck(AcceptsProfiles(env, profiles), true)
      else ProfileCheck(false, false)
  }

  /** The strategy key: multi-region iff the signing-regions key is set. */
  function StrategyFor(env: Environment): StrategyType
  {
    if env.signingRegions.Some? then MultiRegionStrategy else DefaultStrategy
  }

  /** postProcessEnvironment's decision, given the initialized flag before the call. */
  function Decide(initialized: bool, env: Environment): (d: Decision)
    ensures initialized && !env.supportMultipleApplicationContexts ==> d == Decision(None, false)
    ensures d.strategy.Some? <==>
              (!initialized || env.supportMultipleApplicationContexts) &&
              (env.enabled || ProfileActivation(env).active)
    ensures d.strategy.Some? ==> (d.strategy.value == MultiRegionStrategy <==> env.signingRegions.Some?)
    ensures d.profilesConsulted ==> env.acceptedProfiles != Some([])
  {
    if initialized && !env.supportMultipleApplicationContexts then Decision(None, false)
    else
      var profiles := ProfileActivation(env);
      if env.enabled || profiles.active then Decision(Some(StrategyFor(env)), profiles.consulted)
      else Decision(None, profiles.consulted)
  }

  /** The strategies run by successive calls, starting from the given initialized flag. */
  function StrategiesRun(initialized: bool, envs: seq<Environment>): seq<StrategyType>
    decreases |envs|
  {
    if envs == [] then []
    else
      var d := Decide(initialized, envs[0]);
      (if d.strategy.Some? then [d.strategy.value] else []) + StrategiesRun(initialized || d.strategy.Some?, envs[1..])
  }

  /** Disabled and no accepted profile active: no strategy runs. */
  lemma DisabledWithoutProfileRunsNothing(initialized: bool, env: Environment)
    requires !env.enabled
    requires env.acceptedProfiles.None? ==> AcceptedProfile !in env.activeProfiles
    requires env.acceptedProfiles.Some? ==> forall p :: p in env.acceptedProfiles.value ==> p !in env.activeProfiles
    ensures Decide(initialized, env).strategy.None?
  {
  }

  /** The enabled flag alone activates the store on a first call, whatever the profiles. */
  lemma EnabledFlagSuffices(env: Environment)
    requires env.enabled
    ensures Decide(false, env).strategy == Some(StrategyFor(env))
  {
  }

  /** The active built-in profile alone activates the store when no custom profiles are set. */
  lemma BuiltInProfileSuffices(env: Environment)
    requires env.acceptedProfiles.None? && AcceptedProfile in env.activeProfiles
    ensures Decide(false, env).strategy == Some(StrategyFor(env))
    ensures Decide(false, env).profilesConsulted
  {
  }

  /** With a non-empty custom list and the flag off, the store is active iff one listed profile is. */
  lemma CustomProfilesDecide(env: Environment, profiles: seq<string>)
    requires env.acceptedProfiles == Some(profiles) && |profiles| > 0 && !env.enabled
    ensures Decide(false, env).profilesConsulted
    ensures Decide(false, env).strategy.Some? <==> exists p :: p in profiles && p in env.activeProfiles
  {
  }

  /** An empty custom list is never checked against the active profiles; the flag alone decides. */
  lemma EmptyCustomProfilesSkipTheCheck(initialized: bool, env: Environment)
    requires env.acceptedProfiles == Some([])
    ensures !Decide(initialized, env).profilesConsulted
    ensures Decide(initialized, env).strategy.Some? <==>
              env.enabled && (!initialized || env.supportMultipleApplicationContexts)
  {
  }

  /** Enabled with the signing-regions key set: the multi-region strategy runs instead of the default. */
  lemma SigningRegionsSelectMultiRegion(env: Environment)
    requires env.enabled && env.signingRegions.Some?
    ensures Decide(false, env).strategy == Some(MultiRegionStrategy)
  {
  }

  /** Without multiple-context support, any number of calls runs a strategy at most once in all. */
  lemma {:induction false} GuardedCallsRunAtMostOnce(initialized: bool, envs: seq<Environment>)
    requires forall i :: 0 <= i < |envs| ==> !envs[i].supportMultipleApplicationContexts
    ensures initialized ==> StrategiesRun(initialized, envs) == []
    ensures |StrategiesRun(initialized, envs)| <= 1
    decreases |envs|
  {
    if envs != [] {
      var d := Decide(initialized, envs[0]);
      GuardedCallsRunAtMostOnce(initialized || d.strategy.Some?, envs[1..]);
    }
  }

  /** With multiple-context support, every enabled call runs its strategy again. */
  lemma {:induction false} MultiContextCallsAlwaysRun(initialized: bool, envs: seq<Environment>)
    requires forall i :: 0 <= i < |envs| ==> envs[i].supportMultipleApplicationContexts && envs[i].enabled
    ensures |StrategiesRun(initialized, envs)| == |envs|
    ensures forall i :: 0 <= i < |envs| ==> StrategiesRun(initialized, envs)[i] == StrategyFor(envs[i])
    decreases |envs|
  {
    if envs != [] {
      MultiContextCallsAlwaysRun(true, envs[1..]);
      var rest := StrategiesRun(true, envs[1..]);
      assert StrategiesRun(initialized, envs) == [StrategyFor(envs[0])] + rest;
      assert forall j :: 0 <= j < |rest| ==> rest[j] == StrategyFor(envs[j + 1]);
    }
  }

  /** ParameterStorePropertySourceEnvironmentPostProcessor; its static `initialized` field is a field of the object here. */
  class ParameterStorePropertySourceEnvironmentPostProcessor {
    var initialized: bool
    ghost var strategiesRun: seq<StrategyType>

    /** A strategy has run iff the flag is set. */
    ghost predicate Valid()
      reads this
    {
      initialized <==> strategiesRun != []
    }

    constructor ()
      ensures Valid() && !initialized && strategiesRun == []
    {
      initialized := false;
      strategiesRun := [];
    }

    /**
     * postProcessEnvironment. Errors a strategy raises are returned as its
     * outcome; the flag is already set when the strategy runs.
     */
    method PostProcessEnvironment(env: Environment, chain: MutablePropertySources)
      returns (d: Decision, outcome: Option<StrategyOutcome>)
      requires Valid() && chain.Valid()
      modifies this, chain
      ensures Valid() && chain.Valid() && chain.initial == old(chain.initial)
      ensures d == Decide(old(initialized), env)
      ensures initialized == (old(initialized) || d.strategy.Some?)
      ensures strategiesRun == old(strategiesRun) + StrategiesRun(old(initialized), [env])
      ensures d.strategy.None? ==>
                outcome.None? && chain.sources == old(chain.sources) && chain.added == old(chain.added)
      ensures d.strategy.Some? ==>
                var registered := Registrations(d.strategy.value, env);
                outcome == Some(if registered.Some? then Registered else MissingSigningRegions) &&
                (registered.Some? ==> chain.sources == registered.value + old(chain.sources)) &&
                (registered.None? ==> chain.sources == old(chain.sources))
    {
      if initialized && !env.supportMultipleApplicationContexts {
        return Decision(None, false), None;
      }
      var profiles := ProfileActivation(env);
      if !(env.enabled || profiles.active) {
        return Decision(None, profiles.consulted), None;
      }
      initialized := true;
      var strategy := StrategyFor(env);
      strategiesRun := strategiesRun + [strategy];
      d := Decision(Some(strategy), profiles.consulted);
      var result := PostProcess(strategy, env, chain);
      outcome := Some(result);
    }
  }

  /** Two enabled calls without multiple-context support: the strategy runs once, the second call is a no-op. */
  method CalledTwiceRegistersOnce(env: Environment, chain: MutablePropertySources)
    requires chain.Valid() && env.enabled && !env.supportMultipleApplicationContexts && env.signingRegions.None?
    modifies chain
    ensures chain.sources == [DefaultPropertySource(env.haltBoot)] + old(chain.sources)
  {
    var processor := new ParameterStorePropertySourceEnvironmentPostProcessor();
    var d1, o1 := processor.PostProcessEnvironment(env, chain);
    var d2, o2 := processor.PostProcessEnvironment(env, chain);
    assert processor.strategiesRun == [DefaultStrategy];
  }

  /** Two enabled calls with multiple-context support: both register, the second ahead of the first. */
  method CalledTwiceWithMultipleContextsRegistersTwice(env: Environment, chain: MutablePropertySources)
    requires chain.Valid() && env.enabled && env.supportMultipleApplicationContexts && env.signingRegions.None?
    modifies chain
    ensures chain.sources == [DefaultPropertySource(env.haltBoot), DefaultPropertySource(env.haltBoot)] + old(chain.sources)
  {
    var processor := new ParameterStorePropertySourceEnvironmentPostProcessor();
    var d1, o1 := processor.PostProcessEnvironment(env, chain);
    var d2, o2 := processor.PostProcessEnvironment(env, chain);
    assert processor.strategiesRun == [DefaultStrategy, DefaultStrategy];
  }
}
