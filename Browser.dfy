/**
 * The parts of `window.location` that the client's decisions read.
 */
module Browser {

  /** `location.hostname` and `location.protocol` (with its colon). */
  datatype Location = Location(hostname: string, protocol: string)

  /** The strict host test used for debug logging, hash routing and the config fallback: exactly `localhost` or `127.0.0.1`. */
  predicate IsLocalHostname(loc: Location) {
    loc.hostname == "localhost" || loc.hostname == "127.0.0.1"
  }
}
