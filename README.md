# Parameter-store property sources, modelled in Dafny

This project models the decision core of a library that loads configuration
values from AWS Systems Manager Parameter Store into a Spring Boot
application's chain of property sources at startup (Coveo's
spring-boot-parameter-store-integration). The model has three cooperating
pieces:

- **Parameter source** (`parameter_store.dfy`, module `ParameterStore`).
  `GetProperty` turns the outcome of one remote lookup into a value, null
  (`Absent`), a `ParameterStoreParameterNotFoundError` or a general
  `ParameterStoreError`. The result depends on the source's `haltBoot` flag,
  the status code (200 expected), a missing parameter and a null value. The
  store is not called: what each client answers to each request is an
  argument, and `GetProperty` asks the source's own client for the property's
  name with decryption.
- **Property-source chain and strategies** (`property_sources.dfy`,
  `strategies.dfy`). `MutablePropertySources` is the host's chain. It is a
  class whose `AddFirst` prepends a source and logs it in a ghost insertion
  list. The default strategy registers one source. The multi-region strategy
  walks the signing regions from last to first and calls `AddFirst` for each.
  Each source is named `AWSParameterStorePropertySource_<region>` and only the
  last region's source carries the configured `haltBoot`. The regional sources
  end up at the head of the chain in the configured order, proved through
  `AddAllFirst` and `Reversed` (for distinct source names; see "Left out").
- **Environment post-processor** (`post_processor.dfy`). A class holding the
  one-way `initialized` flag. Its `PostProcessEnvironment` method skips a
  second registration unless multiple application contexts are supported. It
  activates on `enabled || profileActive`, picks `MultiRegionStrategy` when the
  signing-regions key is set, runs the strategy on the chain, and returns its
  `Decision`: the strategy run, if any, and whether `acceptsProfiles` was
  consulted. `StrategiesRun` folds the decision over successive calls.

The host environment is a plain record (`Configuration.Environment`). It holds
the flags, the optional accepted-profiles and signing-regions lists, and the set
of active profiles. `acceptsProfiles` is a set intersection.

The multi-region strategy is chosen whenever the signing-regions key is set
(`containsProperty`), even when its list is empty. The multi-region strategy
then refuses an absent or empty list and leaves the chain untouched
(`MissingSigningRegions`).

## Model

| member | source | states |
|---|---|---|
| ParameterStore.GetProperty | src/test/java/com/coveo/configuration/parameterstore/ParameterStoreSourceTest.java:48-131 | the lookup asks the source's own client for the property's name with decryption; the result is a value exactly when that answer has status 200 and a parameter with a non-null value, and then that value; null exactly for not-found without haltBoot; the not-found error exactly for not-found with haltBoot; the general error exactly for any other exception, a non-200 status, a missing parameter or a null value; errors name the property |
| ParameterStore.OnlyTheExactRequestIsSent | src/test/java/com/coveo/configuration/parameterstore/ParameterStoreSourceTest.java:129-131 | two stores that answer the source's client alike for the property's name with decryption give the same lookup result, whatever else they answer |
| ParameterStore.StoredValueIsReturned | src/test/java/com/coveo/configuration/parameterstore/ParameterStoreSourceTest.java:48-62 | a 200 answer holding a value yields that value |
| ParameterStore.HaltBootNeverAbsent | src/test/java/com/coveo/configuration/parameterstore/ParameterStoreSourceTest.java:80-86 | a source with haltBoot never answers null; every failure is raised |
| ParameterStore.HaltBootOnlyAffectsNotFound | src/test/java/com/coveo/configuration/parameterstore/ParameterStoreSourceTest.java:73-78 | for every outcome other than not-found, haltBoot true and false classify alike, so other exceptions are the general error even without haltBoot |
| ParameterStore.BadStatusIsError | src/test/java/com/coveo/configuration/parameterstore/ParameterStoreSourceTest.java:88-95 | any status other than 200 is the general error, whatever the body and haltBoot |
| PropertySources.MutablePropertySources.AddFirst | src/test/java/com/coveo/configuration/parameterstore/strategy/MultiRegionParameterStorePropertySourceEnvironmentPostProcessStrategyTest.java:61 | the added source becomes the head of the chain, the rest is unchanged, and it is appended to the insertion log |
| PropertySources.AddAllFirstPrependsReversed | src/test/java/com/coveo/configuration/parameterstore/strategy/MultiRegionParameterStorePropertySourceEnvironmentPostProcessStrategyTest.java:61-67 | adding sources one by one at the front leaves them in reverse insertion order ahead of the old chain |
| PropertySources.FrontInsertionInReverseKeepsOrder | src/test/java/com/coveo/configuration/parameterstore/strategy/MultiRegionParameterStorePropertySourceEnvironmentPostProcessStrategyTest.java:56-68 | inserting a list at the front last-element-first leaves it at the head in its original order |
| Strategies.RegionalPropertySource | src/test/java/com/coveo/configuration/parameterstore/strategy/MultiRegionParameterStorePropertySourceEnvironmentPostProcessStrategyTest.java:102-107 | a regional source's name ends with "_" and its region, and it queries that region with the given haltBoot |
| Strategies.RegionalPropertySources | src/test/java/com/coveo/configuration/parameterstore/strategy/MultiRegionParameterStorePropertySourceEnvironmentPostProcessStrategyTest.java:70-84 | one source per region, in region order, each with haltBoot iff it is the last region and haltBoot is configured |
| Strategies.RegionalSourcesNamedAndBoundByRegion | src/test/java/com/coveo/configuration/parameterstore/strategy/MultiRegionParameterStorePropertySourceEnvironmentPostProcessStrategyTest.java:102-107 | the i-th regional source ends with "_" and region i and queries region i |
| Strategies.OnlyLastRegionHaltsBoot | src/test/java/com/coveo/configuration/parameterstore/strategy/MultiRegionParameterStorePropertySourceEnvironmentPostProcessStrategyTest.java:56-84 | a regional source halts boot iff it is the last region's and haltBoot is configured; with haltBoot false none does |
| Strategies.SingleRegionCarriesHaltBoot | src/test/java/com/coveo/configuration/parameterstore/strategy/MultiRegionParameterStorePropertySourceEnvironmentPostProcessStrategyTest.java:86-100 | a single region yields one source, carrying the configured haltBoot |
| Strategies.PostProcessDefault | src/test/java/com/coveo/configuration/parameterstore/ParameterStorePropertySourceEnvironmentPostProcessorTest.java:70-79 | the default strategy adds one source for the ambient region at the front of the chain |
| Strategies.PostProcessMultiRegion | src/test/java/com/coveo/configuration/parameterstore/strategy/MultiRegionParameterStorePropertySourceEnvironmentPostProcessStrategyTest.java:56-100 | with a non-empty region list, one addFirst per region, last region first, leaving the regional sources at the head in configured order; an absent or empty list is refused and changes nothing |
| Strategies.PostProcess | src/test/java/com/coveo/configuration/parameterstore/ParameterStorePropertySourceEnvironmentPostProcessorTest.java:49-51 | each strategy key runs its strategy, which registers exactly the sources Registrations gives or refuses |
| PostProcessor.ProfileActivation | src/test/java/com/coveo/configuration/parameterstore/ParameterStorePropertySourceEnvironmentPostProcessorTest.java:81-127 | acceptsProfiles is consulted iff no custom list is set or the list is non-empty; the profile activates iff an active profile is in the custom list, or is the built-in profile when no list is set |
| PostProcessor.Decide | src/test/java/com/coveo/configuration/parameterstore/ParameterStorePropertySourceEnvironmentPostProcessorTest.java:59-170 | an initialized processor without multiple-context support does nothing; otherwise a strategy runs iff enabled or a profile activates; it is multi-region iff the signing-regions key is set; an empty custom list is never consulted |
| PostProcessor.DisabledWithoutProfileRunsNothing | src/test/java/com/coveo/configuration/parameterstore/ParameterStorePropertySourceEnvironmentPostProcessorTest.java:59-68 | with enabled false and no accepted profile active, no strategy runs |
| PostProcessor.EnabledFlagSuffices | src/test/java/com/coveo/configuration/parameterstore/ParameterStorePropertySourceEnvironmentPostProcessorTest.java:70-79 | enabled alone makes a first call run the selected strategy |
| PostProcessor.BuiltInProfileSuffices | src/test/java/com/coveo/configuration/parameterstore/ParameterStorePropertySourceEnvironmentPostProcessorTest.java:81-90 | the active built-in profile alone makes a first call run the strategy |
| PostProcessor.CustomProfilesDecide | src/test/java/com/coveo/configuration/parameterstore/ParameterStorePropertySourceEnvironmentPostProcessorTest.java:92-127 | with a non-empty custom list and enabled false, the strategy runs iff one listed profile is active |
| PostProcessor.EmptyCustomProfilesSkipTheCheck | src/test/java/com/coveo/configuration/parameterstore/ParameterStorePropertySourceEnvironmentPostProcessorTest.java:104-115 | an empty custom list is never checked, and the enabled flag alone decides |
| PostProcessor.SigningRegionsSelectMultiRegion | src/test/java/com/coveo/configuration/parameterstore/ParameterStorePropertySourceEnvironmentPostProcessorTest.java:160-170 | enabled with the signing-regions key set runs the multi-region strategy |
| PostProcessor.GuardedCallsRunAtMostOnce | src/test/java/com/coveo/configuration/parameterstore/ParameterStorePropertySourceEnvironmentPostProcessorTest.java:129-141 | without multiple-context support, any sequence of calls runs a strategy at most once, and none once initialized |
| PostProcessor.MultiContextCallsAlwaysRun | src/test/java/com/coveo/configuration/parameterstore/ParameterStorePropertySourceEnvironmentPostProcessorTest.java:143-158 | with multiple-context support, every enabled call runs its strategy |
| PostProcessor.ParameterStorePropertySourceEnvironmentPostProcessor.constructor | src/test/java/com/coveo/configuration/parameterstore/ParameterStorePropertySourceEnvironmentPostProcessorTest.java:44-47 | a new processor is not initialized and has run no strategy |
| PostProcessor.ParameterStorePropertySourceEnvironmentPostProcessor.PostProcessEnvironment | src/test/java/com/coveo/configuration/parameterstore/ParameterStorePropertySourceEnvironmentPostProcessorTest.java:59-170 | the call follows Decide; the flag becomes set iff a strategy runs; the chain is unchanged when none runs, otherwise it gains exactly the strategy's sources at the front |
| PostProcessor.CalledTwiceRegistersOnce | src/test/java/com/coveo/configuration/parameterstore/ParameterStorePropertySourceEnvironmentPostProcessorTest.java:129-141 | two enabled calls without multiple-context support register the default source once |
| PostProcessor.CalledTwiceWithMultipleContextsRegistersTwice | src/test/java/com/coveo/configuration/parameterstore/ParameterStorePropertySourceEnvironmentPostProcessorTest.java:143-158 | two enabled calls with multiple-context support register the default source twice |

## Left out

- The AWS client and the network: a lookup's outcome is a `ClientOutcome` argument of `GetProperty`, not a call. Timeouts, retries and decryption are not modelled.
- The Spring environment: its settings are a plain record, and its property-source chain is a sequence of named sources.
- PropertySources.MutablePropertySources.AddFirst: Spring's `addFirst` first removes any source with the same name and then prepends. The model only prepends, so same-named sources are kept. A signing-region list that repeats a region, or two registrations on one chain (as `CalledTwiceWithMultipleContextsRegistersTwice` shows), leave duplicates that Spring would collapse into one.
- Spring's profile expressions (negated profiles such as "!p") and default profiles: `acceptsProfiles` is a plain intersection with the active profiles.
- The adapter's `getProperty`: it forwards to the wrapped source's lookup, so it adds nothing beyond `GetProperty`.
- Lookups through the whole chain: the host resolves keys front to back, and the model stops at the chain's order.
- The strategy factory and its registry: a two-constructor `StrategyType` and the `PostProcess` dispatch replace them.
- The `SpringApplication` argument: the post-processor never touches it.
- Thread safety of the process-wide `initialized` field: it is an ordinary field of the processor object, and calls are sequential.
- Exceptions raised while a strategy runs are returned as the `StrategyOutcome`. An error raised later, by a lookup, is a `Lookup` value.
- The name prefix `AWSParameterStorePropertySource`: the proofs rely only on the `_<region>` suffix of a regional source's name, not on the prefix's text.
