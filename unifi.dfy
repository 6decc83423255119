/**
 * The legacy rule client (src/unifi.ts): one firewall rule of one site,
 * found by its `_id` among the rules of the site with the configured name,
 * read and written through a `unifi-client` controller.
 */
module Unifi {
  import opened Wrappers
  import opened Seqs
  import opened UnifiClient

  const SiteMissing := "Cannot find site"
  const RuleMissing := "Cannot find rule"

  /**
   * The replies of the controller to one `getRule`: the login (sent only when
   * not logged in yet), the site list, and the rule list of the site found.
   */
  datatype Fetch = Fetch(login: Outcome<string>, sites: Result<seq<Site>, string>, rules: Result<seq<RuleData>, string>)

  predicate HasSite(sites: seq<Site>, siteName: string) {
    exists i | 0 <= i < |sites| :: sites[i].name == siteName
  }

  predicate HasRule(rules: seq<RuleData>, ruleId: string) {
    exists j | 0 <= j < |rules| :: rules[j].id == ruleId
  }

  /** `getRule`: the rule it returns, or the message of the error it throws. */
  function RuleFrom(logged: bool, f: Fetch, siteName: string, ruleId: string): (r: Result<RuleData, string>)
    ensures !logged && f.login.Fail? ==> r == Failure(f.login.error)
    ensures (logged || f.login.Pass?) && f.sites.Failure? ==> r == Failure(f.sites.error)
    ensures (logged || f.login.Pass?) && f.sites.Success? && !HasSite(f.sites.value, siteName) ==>
      r == Failure(SiteMissing)
    ensures (logged || f.login.Pass?) && f.sites.Success? && HasSite(f.sites.value, siteName) ==>
      && (f.rules.Failure? ==> r == Failure(f.rules.error))
      && (f.rules.Success? && !HasRule(f.rules.value, ruleId) ==> r == Failure(RuleMissing))
    ensures r.Success? <==>
      && (logged || f.login.Pass?) && f.sites.Success? && HasSite(f.sites.value, siteName)
      && f.rules.Success? && HasRule(f.rules.value, ruleId)
    ensures r.Success? ==>
      && r.value.id == ruleId
      && exists j | 0 <= j < |f.rules.value| :: f.rules.value[j] == r.value
                                              && forall i | 0 <= i < j :: f.rules.value[i].id != ruleId
  {
    if !logged && f.login.Fail? then Failure(f.login.error)
    else if f.sites.Failure? then Failure(f.sites.error)
    else match Find(f.sites.value, (s: Site) => s.name == siteName)
      case None => Failure(SiteMissing)
      case Some(_) =>
        if f.rules.Failure? then Failure(f.rules.error)
        else match Find(f.rules.value, (rule: RuleData) => rule.id == ruleId)
          case None => Failure(RuleMissing)
          case Some(j) => Success(f.rules.value[j])
  }

  /**
   * A rule saved with `enabled` set reads back with that value when the
   * controller lists the saved rule in its place: the same rule is found again.
   */
  lemma SavedRuleReadsBack(logged: bool, f: Fetch, siteName: string, ruleId: string, enabled: bool)
    requires RuleFrom(logged, f, siteName, ruleId).Success?
    ensures var rule := RuleFrom(logged, f, siteName, ruleId).value;
      var j := Find(f.rules.value, (r: RuleData) => r.id == ruleId).value;
      var after := f.(rules := Success(f.rules.value[j := rule.(enabled := enabled)]));
      RuleFrom(logged, after, siteName, ruleId) == Success(rule.(enabled := enabled))
  {
    var rules := f.rules.value;
    var p := (r: RuleData) => r.id == ruleId;
    var j := Find(rules, p).value;
    var rule := rules[j];
    var updated := rules[j := rule.(enabled := enabled)];
    assert forall i | 0 <= i < j :: updated[i] == rules[i];
    FindIsFirst(updated, p, j);
  }

  /** `UnifiFirewallRule`. */
  class UnifiFirewallRule {
    const ruleId: string
    const siteName: string
    const controller: Controller

    constructor (props: ControllerProps, siteName: string, ruleId: string)
      ensures this.siteName == siteName && this.ruleId == ruleId
      ensures fresh(controller) && controller.props == props && !controller.logged
      ensures controller.logins == 0 && controller.saved == []
    {
      controller := new Controller(props);
      this.siteName := siteName;
      this.ruleId := ruleId;
    }

    /** `login`: nothing is sent when the controller is already logged in. */
    method Login(reply: Outcome<string>) returns (r: Outcome<string>)
      modifies controller`logged, controller`logins
      ensures old(controller.logged) ==> r == Pass && controller.logins == old(controller.logins)
      ensures old(controller.logged) ==> controller.logged
      ensures !old(controller.logged) ==> r == reply && controller.logins == old(controller.logins) + 1
      ensures !old(controller.logged) ==> controller.logged == reply.Pass?
    {
      if controller.logged {
        return Pass;
      }
      r := controller.Login(reply);
    }

    /** `getRule`: log in if needed, find the site by name, then the rule by id. */
    method GetRule(f: Fetch) returns (r: Result<RuleData, string>)
      modifies controller`logged, controller`logins
      ensures r == RuleFrom(old(controller.logged), f, siteName, ruleId)
      ensures controller.logged == (old(controller.logged) || f.login.Pass?)
      ensures controller.logins == old(controller.logins) + (if old(controller.logged) then 0 else 1)
    {
      var loggedIn := Login(f.login);
      if loggedIn.Fail? {
        return Failure(loggedIn.error);
      }
      if f.sites.Failure? {
        return Failure(f.sites.error);
      }
      var site := Find(f.sites.value, (s: Site) => s.name == siteName);
      if site.None? {
        return Failure(SiteMissing);
      }
      if f.rules.Failure? {
        return Failure(f.rules.error);
      }
      var rule := Find(f.rules.value, (rule: RuleData) => rule.id == ruleId);
      if rule.None? {
        return Failure(RuleMissing);
      }
      r := Success(f.rules.value[rule.value]);
    }

    /** `getEnabled`: the `enabled` flag of the freshly fetched rule. */
    method GetEnabled(f: Fetch) returns (r: Result<bool, string>)
      modifies controller`logged, controller`logins
      ensures var rule := RuleFrom(old(controller.logged), f, siteName, ruleId);
        && (rule.Success? ==> r == Success(rule.value.enabled))
        && (rule.Failure? ==> r == Failure(rule.error))
      ensures controller.logged == (old(controller.logged) || f.login.Pass?)
      ensures controller.logins == old(controller.logins) + (if old(controller.logged) then 0 else 1)
    {
      var rule := GetRule(f);
      if rule.Failure? {
        return Failure(rule.error);
      }
      r := Success(rule.value.enabled);
    }

    /** `setEnabled`: fetch the rule again, set its flag, save it; a failed lookup saves nothing. */
    method SetEnabled(enabled: bool, f: Fetch, saveReply: Outcome<string>) returns (r: Outcome<string>)
      modifies controller`logged, controller`logins, controller`saved
      ensures var rule := RuleFrom(old(controller.logged), f, siteName, ruleId);
        && (rule.Failure? ==> r == Fail(rule.error) && controller.saved == old(controller.saved))
        && (rule.Success? ==> r == saveReply && controller.saved == old(controller.saved) + [rule.value.(enabled := enabled)])
      ensures controller.logged == (old(controller.logged) || f.login.Pass?)
      ensures controller.logins == old(controller.logins) + (if old(controller.logged) then 0 else 1)
    {
      var rule := GetRule(f);
      if rule.Failure? {
        return Fail(rule.error);
      }
      r := controller.Save(rule.value.(enabled := enabled), saveReply);
    }
  }
}
