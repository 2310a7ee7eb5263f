/** Limits of the deployment host. */
module Limits {

  /** Containers of one service, and servers of the managed upstream. */
  const MAX_SERVICE_REPLICAS := 128
}
