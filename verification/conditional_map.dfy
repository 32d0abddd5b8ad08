/**
 * The process-wide registry of named on/off switches. A switch is a shared
 * cell: every holder of the same id holds the same cell, so a store through
 * one holder is seen by all.
 */
module ConditionalMap {
  import opened Common

  /** A shared boolean cell. */
  class Flag {
    var value: bool

    constructor (value: bool)
      ensures this.value == value
    {
      this.value := value;
    }

    method Store(value: bool)
      modifies this
      ensures this.value == value
    {
      this.value := value;
    }
  }

  class Registry {
    var flags: map<string, Flag>

    constructor ()
      ensures flags == map[]
    {
      flags := map[];
    }

    /** `get_by_id`: the switch registered under `id`, if any. */
    function GetById(id: string): (r: Option<Flag>)
      reads this
      ensures r.None? <==> id !in flags
      ensures r.Some? ==> r.value == flags[id]
    {
      if id in flags then Some(flags[id]) else None
    }

    /**
     * `get_or_create_by_id`: the switch registered under `id`; a new one set
     * to `default` when there is none. An existing switch keeps its value.
     */
    method GetOrCreateById(id: string, default: bool) returns (f: Flag)
      modifies this
      ensures id in old(flags) ==> f == old(flags[id]) && flags == old(flags) && f.value == old(f.value)
      ensures id !in old(flags) ==> fresh(f) && f.value == default && flags == old(flags)[id := f]
      ensures GetById(id) == Some(f)
      ensures forall other | other != id :: GetById(other) == old(GetById(other))
    {
      if id in flags {
        f := flags[id];
      } else {
        f := new Flag(default);
        flags := flags[id := f];
      }
    }
  }
}
