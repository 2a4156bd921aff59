/** The answer of `src/verify.rs` to whether traffic goes through Tor. Anything that goes
    wrong during a check counts as not verified. */
module Verdicts {
  datatype Verdict = ThroughTor | NotThroughTor | Unverified
}
