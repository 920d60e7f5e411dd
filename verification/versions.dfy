/**
 * The version helpers the orchestration relies on but does not define: the semver
 * library (`valid`, `gt`, `inc`) and `isPreRelease` with the increment-type constants
 * of lib/version.js. The model takes them as parameters, so every property proved
 * holds whatever they compute.
 */
module Versions {

  /**
   * `valid(v)`: v follows the semver grammar; `gt(a, b)`: a is a later version than b;
   * `inc(v, increment, preReleaseId)`: the incremented version, "" where semver
   * returns null; `isPreRelease(v)`: v carries a pre-release identifier.
   */
  datatype VersionLib = VersionLib(
    valid: string -> bool,
    gt: (string, string) -> bool,
    inc: (string, string, string) -> string,
    isPreRelease: string -> bool)

  /** The `releaseTypes`, `preReleaseTypes` and `continuationTypes` constants. */
  datatype IncrementTable = IncrementTable(
    release: seq<string>,
    preRelease: seq<string>,
    continuation: seq<string>)
}
