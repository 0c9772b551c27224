/**
 * The capability of one registered upgrade step (lib/src/app_config/traits.rs).
 * Each concrete upgrader is a value with four facets; the engine only ever
 * queries them and never relies on anything else about the step.
 */
module Traits {
  import opened Wrappers

  datatype Upgrader = Upgrader(
    /** Maps a data string to its upgraded form. */
    upgrade: string -> string,
    /** The single version this step produces; the engine adopts it as the current version. */
    version: string,
    /** Whether this step applies to the given current version. */
    canUpgrade: string -> bool,
    /** Present exactly when the step is breaking; its presence alone makes the engine abort. */
    breakingChangeMessage: Option<string>)
}
