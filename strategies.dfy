/**
 * The two post-process strategies: the default one registers a single
 * parameter source for the ambient region; the multi-region one registers one
 * source per configured signing region so that the first region listed takes
 * precedence and only the last region may halt boot.
 */
module Strategies {
  import opened Wrappers
  import opened ParameterStore
  import opened Configuration
  import opened PropertySources

  /** Name of the parameter-store property source; regional sources append "_" and their region. */
  const PropertySourceName := "AWSParameterStorePropertySource"

  /** The two keys the strategy factory recognises. */
  datatype StrategyType = DefaultStrategy | MultiRegionStrategy

  /** How a strategy ends: sources registered, or the multi-region configuration refused. */
  datatype StrategyOutcome = Registered | MissingSigningRegions

  predicate EndsWith(s: string, suffix: string)
  {
    |suffix| <= |s| && s[|s| - |suffix|..] == suffix
  }

  /** The source the default strategy registers. */
  function DefaultPropertySource(haltBoot: bool): PropertySource
  {
    ParameterStorePropertySource(PropertySourceName, ParameterStoreSource(SsmClient(None), haltBoot))
  }

  /** The source registered for one signing region. */
  function RegionalPropertySource(region: string, haltBoot: bool): (r: PropertySource)
    ensures r.ParameterStorePropertySource?
    ensures EndsWith(r.name, "_" + region)
    ensures r.source == ParameterStoreSource(SsmClient(Some(region)), haltBoot)
  {
    ParameterStorePropertySource(PropertySourceName + "_" + region, ParameterStoreSource(SsmClient(Some(region)), haltBoot))
  }

  /**
   * The sources the multi-region strategy leaves at the head of the chain,
   * highest precedence first: every region but the last is best-effort, the
   * last carries the configured haltBoot.
   */
  function RegionalPropertySources(regions: seq<string>, haltBoot: bool): (r: seq<PropertySource>)
    ensures |r| == |regions|
    ensures forall i :: 0 <= i < |regions| ==>
              r[i] == RegionalPropertySource(regions[i], haltBoot && i == |regions| - 1)
    decreases |regions|
  {
    if |regions| == 0 then []
    else if |regions| == 1 then [RegionalPropertySource(regions[0], haltBoot)]
    else [RegionalPropertySource(regions[0], false)] + RegionalPropertySources(regions[1..], haltBoot)
  }

  /** The sources a strategy registers, front first; None when it refuses the configuration. */
  function Registrations(strategy: StrategyType, env: Environment): Option<seq<PropertySource>>
  {
    match strategy
    case DefaultStrategy => Some([DefaultPropertySource(env.haltBoot)])
    case MultiRegionStrategy =>
      if env.signingRegions.Some? && |env.signingRegions.value| > 0
      then Some(RegionalPropertySources(env.signingRegions.value, env.haltBoot))
      else None
  }

  /** Region i's source ends in "_" + region i and queries that region. */
  lemma RegionalSourcesNamedAndBoundByRegion(regions: seq<string>, haltBoot: bool, i: int)
    requires 0 <= i < |regions|
    ensures var s := RegionalPropertySources(regions, haltBoot)[i];
            s.ParameterStorePropertySource? && EndsWith(s.name, "_" + regions[i]) &&
            s.source.client == SsmClient(Some(regions[i]))
  {
  }

  /** Only the last region's source may halt boot, and it does exactly when haltBoot is configured. */
  lemma OnlyLastRegionHaltsBoot(regions: seq<string>, haltBoot: bool, i: int)
    requires 0 <= i < |regions|
    ensures RegionalPropertySources(regions, haltBoot)[i].source.haltBoot <==> haltBoot && i == |regions| - 1
  {
  }

  /** A single region is both first and last: its source carries the configured haltBoot. */
  lemma SingleRegionCarriesHaltBoot(region: string, haltBoot: bool)
    ensures RegionalPropertySources([region], haltBoot) == [RegionalPropertySource(region, haltBoot)]
    ensures RegionalPropertySources([region], haltBoot)[0].source.haltBoot == haltBoot
  {
  }

  /** Adding s[i] at the front of a chain headed by s[i + 1..] heads it with s[i..], and logs s[i..] reversed. */
  lemma SuffixStep(s: seq<PropertySource>, i: int, rest: seq<PropertySource>, log: seq<PropertySource>)
    requires 0 <= i < |s|
    ensures [s[i]] + (s[i + 1..] + rest) == s[i..] + rest
    ensures (log + Reversed(s[i + 1..])) + [s[i]] == log + Reversed(s[i..])
  {
    assert s[i..] == [s[i]] + s[i + 1..];
    assert s[i..][1..] == s[i + 1..];
  }

  /** The default strategy: one source for the ambient region, added at the front. */
  method PostProcessDefault(env: Environment, chain: MutablePropertySources)
    requires chain.Valid()
    modifies chain
    ensures chain.Valid() && chain.initial == old(chain.initial)
    ensures chain.sources == [DefaultPropertySource(env.haltBoot)] + old(chain.sources)
    ensures chain.added == old(chain.added) + [DefaultPropertySource(env.haltBoot)]
  {
    chain.AddFirst(DefaultPropertySource(env.haltBoot));
  }

  /**
   * The multi-region strategy: walks the signing regions from last to first and
   * adds each one's source at the front, so the chain ends up in the configured
   * order. An absent or empty region list is refused and the chain is untouched.
   */
  method PostProcessMultiRegion(env: Environment, chain: MutablePropertySources) returns (outcome: StrategyOutcome)
    requires chain.Valid()
    modifies chain
    ensures chain.Valid() && chain.initial == old(chain.initial)
    ensures outcome == Registered <==> env.signingRegions.Some? && |env.signingRegions.value| > 0
    ensures outcome == Registered ==>
              var regional := RegionalPropertySources(env.signingRegions.value, env.haltBoot);
              chain.added == old(chain.added) + Reversed(regional) &&
              chain.sources == regional + old(chain.sources)
    ensures outcome == MissingSigningRegions ==>
              chain.sources == old(chain.sources) && chain.added == old(chain.added)
  {
    if env.signingRegions.None? || |env.signingRegions.value| == 0 {
      return MissingSigningRegions;
    }
    var regions := env.signingRegions.value;
    var last := |regions| - 1;
    ghost var regional := RegionalPropertySources(regions, env.haltBoot);
    ghost var sources0, added0 := chain.sources, chain.added;
    var i := |regions|;
    while i > 0
      invariant 0 <= i <= |regions|
      invariant chain.Valid() && chain.initial == old(chain.initial)
      invariant chain.sources == regional[i..] + sources0
      invariant chain.added == added0 + Reversed(regional[i..])
      decreases i
    {
      i := i - 1;
      var source := RegionalPropertySource(regions[i], env.haltBoot && i == last);
      assert source == regional[i];
      SuffixStep(regional, i, sources0, added0);
      chain.AddFirst(source);
    }
    outcome := Registered;
  }

  /** getStrategy(key).postProcess(environment). */
  method PostProcess(strategy: StrategyType, env: Environment, chain: MutablePropertySources) returns (outcome: StrategyOutcome)
    requires chain.Valid()
    modifies chain
    ensures chain.Valid() && chain.initial == old(chain.initial)
    ensures outcome == Registered <==> Registrations(strategy, env).Some?
    ensures Registrations(strategy, env).Some? ==>
              chain.sources == Registrations(strategy, env).value + old(chain.sources) &&
              chain.added == old(chain.added) + Reversed(Registrations(strategy, env).value)
    ensures Registrations(strategy, env).None? ==>
              chain.sources == old(chain.sources) && chain.added == old(chain.added)
  {
    match strategy
    case DefaultStrategy =>
      PostProcessDefault(env, chain);
      outcome := Registered;
    case MultiRegionStrategy =>
      outcome := PostProcessMultiRegion(env, chain);
  }
}
