/** The lookup index from published devices to their members. */
module DeviceStores {

  import opened Options
  import opened Names
  import opened DeviceModel
  import opened Pairing

  /** The entry for a device of a pool. */
  function Lookup(devices: map<string, Mapping>, pool: string, device: string): Option<Mapping> {
    Find(devices, StoreKey(pool, device))
  }

  class DeviceStore {
    var devices: map<string, Mapping>

    constructor ()
      ensures forall pool, device :: Lookup(devices, pool, device) == None
    {
      devices := map[];
    }

    /** Sets one entry and, device names being free of slashes, no other. */
    method Put(pool: string, device: string, mapping: Mapping)
      modifies this
      ensures Lookup(devices, pool, device) == Some(mapping)
      ensures '/' !in device ==> forall p, d :: '/' !in d && (p, d) != (pool, device) ==> Lookup(devices, p, d) == Lookup(old(devices), p, d)
    {
      devices := devices[pool + "/" + device := mapping];
      KeysApart(pool, device);
    }

    method Get(pool: string, device: string) returns (mapping: Option<Mapping>)
      ensures mapping == Lookup(devices, pool, device)
    {
      var k := pool + "/" + device;
      mapping := if k in devices then Some(devices[k]) else None;
    }

    method Delete(pool: string, device: string)
      modifies this
      ensures Lookup(devices, pool, device) == None
      ensures '/' !in device ==> forall p, d :: '/' !in d && (p, d) != (pool, device) ==> Lookup(devices, p, d) == Lookup(old(devices), p, d)
    {
      devices := devices - {pool + "/" + device};
      KeysApart(pool, device);
    }

    method ReplaceAll(mappings: map<string, Mapping>)
      modifies this
      ensures devices == mappings
    {
      devices := mappings;
    }
  }

  lemma KeysApart(pool: string, device: string)
    ensures '/' !in device ==> forall p, d :: '/' !in d && (p, d) != (pool, device) ==> StoreKey(p, d) != StoreKey(pool, device)
  {
    if '/' !in device {
      forall p, d | '/' !in d && (p, d) != (pool, device) ensures StoreKey(p, d) != StoreKey(pool, device) {
        if StoreKey(p, d) == StoreKey(pool, device) {
          StoreKeyInjective(p, d, pool, device);
        }
      }
    }
  }
}
