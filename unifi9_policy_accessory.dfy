/**
 * The switch bound to one zone-based policy (src/unifi9PolicyAccessory.ts).
 * The policy object is shared with the list the platform fetched; its
 * `enabled` field is updated only after a write that did not throw.
 */
module Unifi9PolicyAccessory {
  import opened Wrappers
  import opened Json
  import opened Config
  import opened UnifiClient
  import opened Hap
  import opened Unifi9Policy

  /** One fetched policy as a heap object: `_id` and `name` are read, `enabled` is also written. */
  class PolicyObject {
    const id: Json
    const name: Json
    var enabled: Json

    constructor (body: Json)
      ensures id == Get(body, "_id") && name == Get(body, "name") && enabled == Get(body, "enabled")
    {
      id := Get(body, "_id");
      name := Get(body, "name");
      enabled := Get(body, "enabled");
    }
  }

  /** The remote `enabled` value a switch value asks for. */
  function TargetEnabled(invert: bool, value: bool): (r: bool)
    ensures r != value <==> invert
  {
    if invert then !value else value
  }

  /** The switch value shown for a local `enabled` value: `invert ? !enabled : enabled`. */
  function Displayed(invert: bool, enabled: Json): (r: Json)
    ensures !invert ==> r == enabled
    ensures invert ==> r.Bool? && (r.b <==> !Truthy(enabled))
  {
    if invert then Bool(!Truthy(enabled)) else enabled
  }

  /** Writing a switch value and reading it back gives that value, whatever the inversion. */
  lemma DisplayedAfterWrite(invert: bool, value: bool)
    ensures Displayed(invert, Bool(TargetEnabled(invert, value))) == Bool(value)
  {
  }

  /**
   * The accessory information a policy switch writes over `before` before it
   * reads `context.policy.name`: the manufacturer and the model.
   */
  function PartialInformation(before: map<Characteristic, string>): (values: map<Characteristic, string>)
    ensures values.Keys == before.Keys + {Manufacturer, Model}
    ensures values[Manufacturer] == "Ubiquiti" && values[Model] == "UniFi-9-Policy"
    ensures forall c | c in before && c !in {Manufacturer, Model} :: values[c] == before[c]
  {
    before[Manufacturer := "Ubiquiti"][Model := "UniFi-9-Policy"]
  }

  /**
   * The accessory information a policy switch writes over `before`: the
   * manufacturer, the model, and the entry name as serial number and name.
   */
  function PolicyInformation(before: map<Characteristic, string>, entry: EntryConfig): (values: map<Characteristic, string>)
    ensures values.Keys == before.Keys + {Manufacturer, Model, SerialNumber, Name}
    ensures values[Manufacturer] == "Ubiquiti" && values[Model] == "UniFi-9-Policy"
    ensures values[SerialNumber] == entry.name && values[Name] == entry.name
    ensures forall c | c in before && c !in {Manufacturer, Model, SerialNumber, Name} :: values[c] == before[c]
  {
    PartialInformation(before)[SerialNumber := entry.name][Name := entry.name]
  }

  /** Binding a second switch to the same accessory writes the same information again. */
  lemma PolicyInformationIdempotent(before: map<Characteristic, string>, entry: EntryConfig)
    ensures PolicyInformation(PolicyInformation(before, entry), entry) == PolicyInformation(before, entry)
  {
  }

  /**
   * A switch bound later, once the accessory carries a policy context, writes
   * the same information as if no construction had failed on it before.
   */
  lemma {:induction false} PolicyInformationAfterPartial(before: map<Characteristic, string>, entry: EntryConfig)
    ensures PolicyInformation(PartialInformation(before), entry) == PolicyInformation(before, entry)
  {
    var once := PolicyInformation(before, entry);
    var twice := PolicyInformation(PartialInformation(before), entry);
    assert twice.Keys == once.Keys;
    forall c | c in once.Keys
      ensures twice[c] == once[c]
    {
    }
  }

  /**
   * `new UniFi9PolicySwitch` on an accessory without `context.policy`: the
   * manufacturer and the model are written, then reading `name` of the
   * missing policy throws; the TypeError message is returned.
   */
  method ConstructWithoutPolicy(accessory: PlatformAccessory) returns (error: string)
    requires "policy" !in accessory.context
    modifies accessory`values
    ensures accessory.values == PartialInformation(old(accessory.values))
    ensures error == ReadError(Undefined, "name")
  {
    accessory.SetCharacteristic(Manufacturer, "Ubiquiti");
    accessory.SetCharacteristic(Model, "UniFi-9-Policy");
    error := ReadError(Undefined, "name");
  }

  /** `UniFi9PolicySwitch`. */
  class PolicySwitch {
    const accessory: PlatformAccessory
    const policy: PolicyObject
    const invert: bool
    const manager: PolicyManager

    /** Fills in the accessory information and reuses or adds the one Switch service. */
    constructor (accessory: PlatformAccessory, policy: PolicyObject, invert: bool, site: Site)
      requires "policy" in accessory.context
      modifies accessory`services, accessory`values
      ensures this.accessory == accessory && this.policy == policy && this.invert == invert
      ensures fresh(manager) && manager.site == site
      ensures accessory.services == WithService(old(accessory.services), Switch)
      ensures accessory.values == PolicyInformation(old(accessory.values), accessory.context["policy"])
    {
      this.accessory := accessory;
      this.policy := policy;
      this.invert := invert;
      manager := new PolicyManager(site);
      new;
      var name := accessory.context["policy"].name;
      accessory.SetCharacteristic(Manufacturer, "Ubiquiti");
      accessory.SetCharacteristic(Model, "UniFi-9-Policy");
      accessory.SetCharacteristic(SerialNumber, name);
      accessory.UseService(Switch);
      accessory.SetCharacteristic(Name, name);
    }

    /** `setOn`: writes the (possibly inverted) value; the local policy follows only a write that succeeded. */
    method SetOn(value: bool, remote: Remote) returns (r: Outcome<string>, ghost attempted: seq<Request>)
      modifies policy`enabled
      ensures var qs := UpdateRequests(manager.site.name, JsString(policy.id), TargetEnabled(invert, value));
        r == UpdateResult(qs, remote) && attempted == UpdateTrace(qs, remote)
      ensures r.Pass? ==> policy.enabled == Bool(TargetEnabled(invert, value))
      ensures r.Pass? ==> Displayed(invert, policy.enabled) == Bool(value)
      ensures r.Fail? ==> r == Fail(UpdateFailure) && policy.enabled == old(policy.enabled)
    {
      var targetEnabled := TargetEnabled(invert, value);
      r, attempted := manager.UpdatePolicy(JsString(policy.id), targetEnabled, remote);
      if r.Pass? {
        policy.enabled := Bool(targetEnabled);
      }
    }

    /** `getOn`: the local `enabled` value, inverted when configured; nothing is requested. */
    method GetOn() returns (v: Json)
      ensures v == Displayed(invert, policy.enabled)
      ensures !invert ==> v == policy.enabled
      ensures invert ==> v == Bool(!Truthy(policy.enabled))
    {
      v := if invert then Bool(!Truthy(policy.enabled)) else policy.enabled;
    }
  }
}
