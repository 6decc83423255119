/**
 * The platform's rule switch (src/platformAccessory.ts): a switch over one
 * fetched legacy firewall rule, which is changed in place and then saved,
 * without inversion.
 */
module RuleAccessory {
  import opened Wrappers
  import opened Config
  import opened UnifiClient
  import opened Hap

  /** A fetched `FWRule`: its data, changed in place, and the controller a save goes to. */
  class FwRule {
    var data: RuleData
    const controller: Controller

    constructor (data: RuleData, controller: Controller)
      ensures this.data == data && this.controller == controller
    {
      this.data := data;
      this.controller := controller;
    }

    /** `save()`: the current data is sent; `reply` is what the controller answers. */
    method Save(reply: Outcome<string>) returns (r: Outcome<string>)
      modifies controller`saved
      ensures r == reply && controller.saved == old(controller.saved) + [data]
    {
      r := controller.Save(data, reply);
    }
  }

  /** The values the constructor writes to the information and switch services of a rule accessory. */
  function RuleInformation(before: map<Characteristic, string>, rule: EntryConfig): (values: map<Characteristic, string>)
    ensures values.Keys == before.Keys + {Manufacturer, Model, SerialNumber, Name}
    ensures values[Manufacturer] == "Ubiquiti" && values[Model] == "Firewall-Rule"
    ensures values[SerialNumber] == rule.id && values[Name] == rule.name
    ensures forall c | c in before && c !in {Manufacturer, Model, SerialNumber, Name} :: values[c] == before[c]
  {
    before[Manufacturer := "Ubiquiti"][Model := "Firewall-Rule"][SerialNumber := rule.id][Name := rule.name]
  }

  /** `UnifiFirewallSwitch` of src/platformAccessory.ts. */
  class RuleSwitch {
    const accessory: PlatformAccessory
    const fwRule: FwRule

    /** Fills in the accessory information from `context.rule` and reuses or adds the one Switch service. */
    constructor (accessory: PlatformAccessory, fwRule: FwRule)
      requires "rule" in accessory.context
      modifies accessory`services, accessory`values
      ensures this.accessory == accessory && this.fwRule == fwRule
      ensures accessory.services == WithService(old(accessory.services), Switch)
      ensures accessory.values == RuleInformation(old(accessory.values), accessory.context["rule"])
    {
      this.accessory := accessory;
      this.fwRule := fwRule;
      new;
      var rule := accessory.context["rule"];
      accessory.SetCharacteristic(Manufacturer, "Ubiquiti");
      accessory.SetCharacteristic(Model, "Firewall-Rule");
      accessory.SetCharacteristic(SerialNumber, rule.id);
      accessory.UseService(Switch);
      accessory.SetCharacteristic(Name, rule.name);
    }

    /**
     * `setOn`: the rule's flag takes the requested value before the save is
     * sent, so a save that throws leaves the new value in place and rethrows.
     */
    method SetOn(value: bool, reply: Outcome<string>) returns (r: Outcome<string>)
      modifies fwRule`data, fwRule.controller`saved
      ensures fwRule.data == old(fwRule.data).(enabled := value)
      ensures fwRule.controller.saved == old(fwRule.controller.saved) + [old(fwRule.data).(enabled := value)]
      ensures r == reply
    {
      fwRule.data := fwRule.data.(enabled := value);
      r := fwRule.Save(reply);
    }

    /** `getOn`: the rule's flag as it is held locally. */
    method GetOn() returns (v: bool)
      ensures v == fwRule.data.enabled
    {
      v := fwRule.data.enabled;
    }
  }

  /** A set followed by a get returns the value set, whether or not the save threw. */
  method SetThenGet(sw: RuleSwitch, value: bool, reply: Outcome<string>) returns (v: bool)
    modifies sw.fwRule`data, sw.fwRule.controller`saved
    ensures v == value
  {
    var _ := sw.SetOn(value, reply);
    v := sw.GetOn();
  }
}
