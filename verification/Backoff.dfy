/** Waiting twice as long after every failure. */
module Backoff {

  /** first doubled k times. */
  function Doubled(first: nat, k: nat): nat { if k == 0 then first else 2 * Doubled(first, k - 1) }
}
