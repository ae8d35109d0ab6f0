module Identifiers {

  /** Guids, of which only equality and the total order used by the lock discipline matter. */
  type Id = nat
}
