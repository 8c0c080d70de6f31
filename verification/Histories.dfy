/** Histories of events, read from their end. */
module Histories {

  function Last<T>(evs: seq<T>): T
    requires evs != []
  {
    evs[|evs| - 1]
  }

  function Prefix<T>(evs: seq<T>): seq<T>
    requires evs != []
  {
    evs[..|evs| - 1]
  }
}
