/**
 * The legacy single-rule accessory (src/accessory.ts): defaults merged into
 * the accessory configuration, and a switch that caches the last value it was
 * set to while the remote rule is written and read without being awaited.
 * As written, the constructor reads the module's own `hap`, which nothing
 * assigns, and throws before the switch exists; the class below is the
 * constructor as intended, with the host's `api.hap` in its place.
 */
module Accessory {
  import opened Wrappers
  import opened UnifiClient
  import opened Hap
  import opened Unifi
  import Json

  /** `UnifiFirewallSwitchConfig`. */
  datatype SwitchConfig = SwitchConfig(controller: ControllerProps, site: string, rule: string, inverted: bool)

  /** `Partial<UnifiFirewallSwitchConfig>`: each key is present or absent. */
  datatype PartialSwitchConfig = PartialSwitchConfig(
    controller: Option<ControllerProps>, site: Option<string>, rule: Option<string>, inverted: Option<bool>)

  const Defaults := SwitchConfig(ControllerProps("https://unifi:8443", "ubnt", "ubnt", false), "", "", false)

  /** `{...defaults, ...options}`: a key present in `options` replaces the default one, the controller as a whole. */
  function InitUnifiConfig(options: Option<PartialSwitchConfig>): (c: SwitchConfig)
    ensures options.None? ==> c == Defaults
    ensures options.Some? ==>
      && c.controller == options.value.controller.GetOr(Defaults.controller)
      && c.site == options.value.site.GetOr("")
      && c.rule == options.value.rule.GetOr("")
      && c.inverted == options.value.inverted.GetOr(false)
  {
    match options
    case None => Defaults
    case Some(o) =>
      SwitchConfig(
        if o.controller.Some? then o.controller.value else Defaults.controller,
        if o.site.Some? then o.site.value else Defaults.site,
        if o.rule.Some? then o.rule.value else Defaults.rule,
        if o.inverted.Some? then o.inverted.value else Defaults.inverted)
  }

  /** The options that set every key. */
  function Complete(c: SwitchConfig): PartialSwitchConfig {
    PartialSwitchConfig(Some(c.controller), Some(c.site), Some(c.rule), Some(c.inverted))
  }

  /** Options that set every key are taken as they are, and merging is idempotent. */
  lemma CompleteOptionsWin(c: SwitchConfig, options: Option<PartialSwitchConfig>)
    ensures InitUnifiConfig(Some(Complete(c))) == c
    ensures InitUnifiConfig(Some(Complete(InitUnifiConfig(options)))) == InitUnifiConfig(options)
    ensures InitUnifiConfig(Some(PartialSwitchConfig(None, None, None, None))) == Defaults
  {
  }

  /** The remote `enabled` written for the switch value `on`: `on !== inverted`. */
  function Written(on: bool, inverted: bool): bool {
    on != inverted
  }

  /** The switch value shown for the remote `enabled`: `enabled !== inverted`. */
  function Shown(enabled: bool, inverted: bool): bool {
    enabled != inverted
  }

  /** Writing then reading back restores the switch value, whatever the inversion. */
  lemma ShownAfterWritten(on: bool, inverted: bool)
    ensures Shown(Written(on, inverted), inverted) == on
    ensures Written(Shown(on, inverted), inverted) == on
  {
  }

  /**
   * A rule written through a lookup that succeeded, and listed back by the
   * controller in its place, is shown with the value the switch was set to.
   */
  lemma {:induction false} RefreshShowsWrittenValue(logged: bool, f: Fetch, siteName: string, ruleId: string,
                                                    on: bool, inverted: bool)
    requires RuleFrom(logged, f, siteName, ruleId).Success?
    ensures var rule := RuleFrom(logged, f, siteName, ruleId).value;
      var j := Seqs.Find(f.rules.value, (r: RuleData) => r.id == ruleId).value;
      var after := f.(rules := Success(f.rules.value[j := rule.(enabled := Written(on, inverted))]));
      var read := RuleFrom(logged, after, siteName, ruleId);
      read.Success? && Shown(read.value.enabled, inverted) == on
  {
    SavedRuleReadsBack(logged, f, siteName, ruleId, Written(on, inverted));
    ShownAfterWritten(on, inverted);
  }

  /** The module-level `hap` of src/accessory.ts: declared with `let` and assigned nowhere, so `undefined`. */
  const ModuleHap := Json.Undefined

  /**
   * Construction up to the switch service, with `hap` the HAP object it reads:
   * the configuration is merged and the information service written, then
   * `new hap.Service.Switch` reads `Service` of `hap`. On null or undefined
   * that throws, before the rule client is created and before the first
   * refresh; otherwise construction goes on with the merged configuration.
   */
  function ConstructWith(hap: Json.Json, options: PartialSwitchConfig): (r: Result<SwitchConfig, string>)
    ensures r.Failure? <==> Json.Nullish(hap)
    ensures r.Failure? ==> r.error == Json.ReadError(hap, "Service")
    ensures r.Success? ==> r.value == InitUnifiConfig(Some(options))
  {
    if Json.Nullish(hap) then Failure(Json.ReadError(hap, "Service")) else Success(InitUnifiConfig(Some(options)))
  }

  /**
   * As written, with the module's unassigned `hap`, every construction throws
   * "Cannot read properties of undefined (reading 'Service')".
   */
  lemma ConstructorThrowsAsWritten(options: PartialSwitchConfig)
    ensures ConstructWith(ModuleHap, options) == Failure(Json.ReadError(Json.Undefined, "Service"))
  {
  }

  /**
   * `UnifiFirewallSwitch` of src/accessory.ts as intended: the switch service
   * is built from the host's HAP object, as the information service already is.
   */
  class UnifiFirewallSwitch {
    /** The cached value of the switch, returned by every get. */
    var switchOn: bool
    const inverted: bool
    const unifi: UnifiFirewallRule
    /** The values of the information service. */
    const information: map<Characteristic, string>
    /** The last value pushed to the On characteristic by a refresh; None before the first one. */
    ghost var pushed: Option<bool>

    /** Merges the defaults, creates the rule client and runs the first refresh with the replies `f`. */
    constructor (options: PartialSwitchConfig, name: string, f: Fetch)
      ensures var c := InitUnifiConfig(Some(options));
        && !switchOn && inverted == c.inverted
        && fresh(unifi) && fresh(unifi.controller)
        && unifi.controller.props == c.controller && unifi.siteName == c.site && unifi.ruleId == c.rule
        && information == map[Manufacturer := "Unifi", Model := "Firewall Rule", SerialNumber := name]
        && var read := RuleFrom(false, f, c.site, c.rule);
          pushed == if read.Success? then Some(Shown(read.value.enabled, c.inverted)) else None
      ensures unifi.controller.logged == f.login.Pass? && unifi.controller.logins == 1 && unifi.controller.saved == []
    {
      var c := InitUnifiConfig(Some(options));
      switchOn := false;
      inverted := c.inverted;
      information := map[Manufacturer := "Unifi", Model := "Firewall Rule", SerialNumber := name];
      unifi := new UnifiFirewallRule(c.controller, c.site, c.rule);
      pushed := None;
      new;
      Refresh(f);
    }

    /**
     * The callback of a `getEnabled` that is not awaited: when the lookup
     * succeeds the On characteristic shows `enabled !== inverted`; a failed one
     * rejects the promise and shows nothing.
     */
    method Refresh(f: Fetch)
      modifies this`pushed, unifi.controller`logged, unifi.controller`logins
      ensures var read := RuleFrom(old(unifi.controller.logged), f, unifi.siteName, unifi.ruleId);
        pushed == if read.Success? then Some(Shown(read.value.enabled, inverted)) else old(pushed)
      ensures unifi.controller.logged == (old(unifi.controller.logged) || f.login.Pass?)
      ensures unifi.controller.logins == old(unifi.controller.logins) + (if old(unifi.controller.logged) then 0 else 1)
    {
      var enabled := unifi.GetEnabled(f);
      if enabled.Success? {
        pushed := Some(Shown(enabled.value, inverted));
      }
    }

    /** `setOn`: the cached value follows the request at once; the write is sent and its outcome ignored. */
    method SetOn(value: bool, f: Fetch, saveReply: Outcome<string>)
      modifies this`switchOn, unifi.controller`logged, unifi.controller`logins, unifi.controller`saved
      ensures switchOn == value
      ensures var rule := RuleFrom(old(unifi.controller.logged), f, unifi.siteName, unifi.ruleId);
        && (rule.Failure? ==> unifi.controller.saved == old(unifi.controller.saved))
        && (rule.Success? ==>
              unifi.controller.saved == old(unifi.controller.saved) + [rule.value.(enabled := Written(value, inverted))])
      ensures unifi.controller.logged == (old(unifi.controller.logged) || f.login.Pass?)
      ensures unifi.controller.logins == old(unifi.controller.logins) + (if old(unifi.controller.logged) then 0 else 1)
    {
      switchOn := value;
      var ignored := unifi.SetEnabled(Written(switchOn, inverted), f, saveReply);
    }

    /** `getOn`: starts a refresh and returns the cached value, which it leaves unchanged. */
    method GetOn(f: Fetch) returns (v: bool)
      modifies this`pushed, unifi.controller`logged, unifi.controller`logins
      ensures v == switchOn
      ensures var read := RuleFrom(old(unifi.controller.logged), f, unifi.siteName, unifi.ruleId);
        pushed == if read.Success? then Some(Shown(read.value.enabled, inverted)) else old(pushed)
      ensures unifi.controller.logged == (old(unifi.controller.logged) || f.login.Pass?)
      ensures unifi.controller.logins == old(unifi.controller.logins) + (if old(unifi.controller.logged) then 0 else 1)
    {
      Refresh(f);
      v := switchOn;
    }
  }
}
