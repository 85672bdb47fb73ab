/** Creation-time scratchpad planning: the registrar records which buffers a primitive needs. */
module Scratchpad {
  import opened Common

  /** Stable names of the scratchpad buffers booked by the modelled primitives. */
  datatype Key = KeyPrecomputedScales | KeyIprodIntDatInAccDt

  /** One booking: the element type and the number of elements reserved. */
  datatype Booking = Booking(dt: DataType, count: nat)

  /** The registrar of a primitive descriptor's scratchpad registry. */
  class Registrar {
    var entries: map<Key, Booking>

    constructor ()
      ensures entries == map[]
    {
      entries := map[];
    }

    /** `book<T>(key, count)`: reserves `count` elements of type `dt` under `key`. */
    method Book(key: Key, dt: DataType, count: nat)
      modifies this
      ensures entries == old(entries)[key := Booking(dt, count)]
    {
      entries := entries[key := Booking(dt, count)];
    }
  }
}
