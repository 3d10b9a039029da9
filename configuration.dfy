/**
 * The settings the post-processor and the strategies read from the host's
 * environment, as one plain record, and the host's profile check.
 */
module Configuration {
  import opened Wrappers

  /**
   * enabled, haltBoot and supportMultipleApplicationContexts default to false;
   * acceptedProfiles and signingRegions are None when their key is not set.
   */
  datatype Environment = Environment(
    enabled: bool,
    haltBoot: bool,
    supportMultipleApplicationContexts: bool,
    acceptedProfiles: Option<seq<string>>,
    signingRegions: Option<seq<string>>,
    activeProfiles: set<string>)

  /** acceptsProfiles: at least one of `profiles` is active. */
  predicate AcceptsProfiles(env: Environment, profiles: seq<string>)
  {
    exists p :: p in profiles && p in env.activeProfiles
  }
}
