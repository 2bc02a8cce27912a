/**
 * The key-value store the processor uses for its lock and its id cache: the three
 * commands it issues (SET with NX, SET, DEL) over a string-to-string map. A command
 * that fails (connection lost, timeout) is an environment parameter: `fault` carries
 * the error text, and a failed command changes nothing.
 */
module KeyValue {
  import opened Wrappers
  import opened Python

  /** `SET key value NX`: writes only when the key is absent; answers whether it wrote. */
  function SetIfAbsentResult(entries: map<string, string>, key: string, fault: Option<string>): (r: Result<bool, PyError>)
    ensures r.Success? <==> fault.None?
    ensures r.Success? ==> (r.value <==> key !in entries)
  {
    if fault.Some? then Failure(Infra(fault.value)) else Success(key !in entries)
  }

  function SetIfAbsentState(entries: map<string, string>, key: string, value: string, fault: Option<string>): (e: map<string, string>)
    ensures fault.Some? || key in entries ==> e == entries
    ensures fault.None? && key !in entries ==> e == entries[key := value] && key in e
  {
    if fault.None? && key !in entries then entries[key := value] else entries
  }

  /** `SET key value`: overwrites. */
  function SetState(entries: map<string, string>, key: string, value: string, fault: Option<string>): (e: map<string, string>)
    ensures fault.None? ==> key in e && e[key] == value
    ensures fault.Some? ==> e == entries
    ensures forall k :: k != key ==> (k in e <==> k in entries) && (k in entries ==> e[k] == entries[k])
  {
    if fault.None? then entries[key := value] else entries
  }

  /** `DEL key`. */
  function DeleteState(entries: map<string, string>, key: string, fault: Option<string>): (e: map<string, string>)
    ensures fault.None? ==> key !in e
    ensures fault.Some? ==> e == entries
    ensures forall k :: k != key ==> (k in e <==> k in entries) && (k in e ==> e[k] == entries[k])
  {
    if fault.None? then entries - {key} else entries
  }

  /** Writing a lock and deleting it again leaves the store as it was. */
  lemma SetThenDelete(entries: map<string, string>, key: string, value: string)
    requires key !in entries
    ensures DeleteState(SetIfAbsentState(entries, key, value, None), key, None) == entries
  {
    var e := DeleteState(SetIfAbsentState(entries, key, value, None), key, None);
    assert forall k :: k in e <==> k in entries;
  }

  /** A second `SET NX` on the same key fails while the first one's entry is there. */
  lemma SetIfAbsentExcludes(entries: map<string, string>, key: string, v1: string)
    requires key !in entries
    ensures SetIfAbsentResult(entries, key, None) == Success(true)
    ensures SetIfAbsentResult(SetIfAbsentState(entries, key, v1, None), key, None) == Success(false)
  {
  }

  class KeyValueStore {
    var entries: map<string, string>

    constructor()
      ensures entries == map[]
    {
      entries := map[];
    }

    method SetIfAbsent(key: string, value: string, fault: Option<string>) returns (r: Result<bool, PyError>)
      modifies this
      ensures r == SetIfAbsentResult(old(entries), key, fault)
      ensures entries == SetIfAbsentState(old(entries), key, value, fault)
    {
      if fault.Some? {
        return Failure(Infra(fault.value));
      }
      if key in entries {
        return Success(false);
      }
      entries := entries[key := value];
      return Success(true);
    }

    method Set(key: string, value: string, fault: Option<string>) returns (r: Result<(), PyError>)
      modifies this
      ensures r == FaultOutcome(fault)
      ensures entries == SetState(old(entries), key, value, fault)
    {
      if fault.Some? {
        return Failure(Infra(fault.value));
      }
      entries := entries[key := value];
      return Success(());
    }

    method Delete(key: string, fault: Option<string>) returns (r: Result<(), PyError>)
      modifies this
      ensures r == FaultOutcome(fault)
      ensures entries == DeleteState(old(entries), key, fault)
    {
      if fault.Some? {
        return Failure(Infra(fault.value));
      }
      entries := entries - {key};
      return Success(());
    }
  }
}
