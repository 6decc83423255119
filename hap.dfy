/**
 * The Homebridge host objects the core updates: platform accessories with
 * their context, services and characteristic values, and the host's
 * registration API with its UUID generator.
 */
module Hap {
  import opened Wrappers
  import opened Config

  datatype ServiceType = AccessoryInformation | Switch

  datatype Characteristic = Manufacturer | Model | SerialNumber | Name

  /**
   * The services after `getService(s) || addService(s)`: the list gains `s`
   * at its end unless it already holds it, and nothing else changes.
   */
  function WithService(services: seq<ServiceType>, s: ServiceType): (r: seq<ServiceType>)
    ensures s in r
    ensures services <= r && |r| <= |services| + 1
    ensures forall x | x in r :: x in services || x == s
    ensures s in services ==> r == services
  {
    if s in services then services else services + [s]
  }

  /** A `PlatformAccessory`; its context maps "policy" or "rule" to the entry it was created for. */
  class PlatformAccessory {
    const displayName: string
    const uuid: string
    var context: map<string, EntryConfig>
    var services: seq<ServiceType>
    var values: map<Characteristic, string>

    constructor (displayName: string, uuid: string)
      ensures this.displayName == displayName && this.uuid == uuid
      ensures context == map[] && services == [AccessoryInformation] && values == map[]
    {
      this.displayName := displayName;
      this.uuid := uuid;
      context := map[];
      services := [AccessoryInformation];
      values := map[];
    }

    /** `accessory.context[key] = entry`. */
    method SetContext(key: string, entry: EntryConfig)
      modifies this`context
      ensures context == old(context)[key := entry]
    {
      context := context[key := entry];
    }

    /** `getService(s) || addService(s)`: an existing service is reused, a missing one added once. */
    method UseService(s: ServiceType)
      modifies this`services
      ensures services == WithService(old(services), s)
    {
      if s !in services {
        services := services + [s];
      }
    }

    /** `setCharacteristic(c, v)`. */
    method SetCharacteristic(c: Characteristic, v: string)
      modifies this`values
      ensures values == old(values)[c := v]
    {
      values := values[c := v];
    }
  }

  /** The host API: `hap.uuid.generate` and `registerPlatformAccessories`. */
  class HostApi {
    /** `hap.uuid.generate`, a hash whose definition is not modelled. */
    const generate: string -> string
    /** UUIDs of the accessories the host already bridges. */
    var bridged: set<string>
    /** Every list passed to `registerPlatformAccessories`, in order. */
    var registrations: seq<seq<PlatformAccessory>>

    constructor (generate: string -> string, bridged: set<string>)
      ensures this.generate == generate && this.bridged == bridged && registrations == []
    {
      this.generate := generate;
      this.bridged := bridged;
      registrations := [];
    }

    /** Registering an accessory whose UUID the host already bridges raises a duplicate-UUID error. */
    method RegisterPlatformAccessories(list: seq<PlatformAccessory>) returns (r: Outcome<string>)
      modifies this
      ensures registrations == old(registrations) + [list]
      ensures r.Fail? <==> exists a :: a in list && a.uuid in old(bridged)
      ensures bridged == if r.Pass? then old(bridged) + (set a | a in list :: a.uuid) else old(bridged)
    {
      registrations := registrations + [list];
      if exists a :: a in list && a.uuid in bridged {
        r := Fail("Cannot add a bridged Accessory with the same UUID as another bridged Accessory");
      } else {
        r := Pass;
        bridged := bridged + (set a | a in list :: a.uuid);
      }
    }
  }
}
