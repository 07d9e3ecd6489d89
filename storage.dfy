/** The NVS calibration store, reduced to what the calibration engine needs:
    a key -> value map whose every access can fail. A float is stored as its
    raw 32-bit pattern and read back bit for bit, so in this model a stored
    real comes back unchanged. The status of each NVS call (open, set, commit)
    is an input: `Ok` when the flash layer succeeds, its error code otherwise. */
module Storage {
  import opened Esp

  /** The map after a `storage_save_float` whose NVS calls reported `status`. */
  function Written(entries: map<string, real>, key: string, value: real, status: EspErr): (e: map<string, real>)
    ensures status == Ok ==> key in e && e[key] == value && e.Keys == entries.Keys + {key}
    ensures status == Ok ==> forall k :: k in entries && k != key ==> k in e && e[k] == entries[k]
    ensures status != Ok ==> e == entries
  {
    if status == Ok then entries[key := value] else entries
  }

  /** The result of `storage_load_float`: the device error if the NVS could not be
      used, otherwise OK exactly when the key is present. */
  function ReadOutcome(entries: map<string, real>, key: string, status: EspErr): (r: EspErr)
    ensures r == Ok <==> status == Ok && key in entries
  {
    if status != Ok then status
    else if key in entries then Ok
    else NvsNotFound
  }

  class Nvs {
    var entries: map<string, real>

    constructor (initial: map<string, real>)
      ensures entries == initial
    {
      entries := initial;
    }

    /** storage_save_float: the value is kept only when every NVS call succeeded,
        and the result is the NVS status. */
    method SaveFloat(key: string, value: real, status: EspErr) returns (r: EspErr)
      modifies this
      ensures r == status
      ensures entries == Written(old(entries), key, value, status)
    {
      r := status;
      if status == Ok {
        entries := entries[key := value];
      }
    }

    /** storage_load_float: on OK the value read is the stored one; otherwise the
        caller's variable is not written (the returned value is meaningless). */
    method LoadFloat(key: string, status: EspErr) returns (r: EspErr, value: real)
      ensures r == ReadOutcome(entries, key, status)
      ensures r == Ok ==> key in entries && value == entries[key]
    {
      if status != Ok {
        return status, 0.0;
      }
      if key in entries {
        return Ok, entries[key];
      }
      return NvsNotFound, 0.0;
    }
  }
}
