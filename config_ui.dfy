/**
 * The discovery behind the configuration screen (src/configUI.ts): log in,
 * pick the site by name or else by description, list its legacy rules, add
 * the one placeholder policy, log out, and turn every thrown error into a
 * failed result.
 */
module ConfigUI {
  import opened Wrappers
  import opened Seqs
  import opened UnifiClient

  /** One listed rule; `N` is whatever `Number(rule_index)` yields, a conversion not modelled here. */
  datatype RuleSummary<N> = RuleSummary(
    id: N, name: string, enabled: bool, action: string,
    srcAddress: Option<string>, dstAddress: Option<string>, dstPort: Option<string>)

  datatype PolicySummary = PolicySummary(id: string, name: string, enabled: bool, description: string)

  /** `DiscoveryResult`: absent keys are None. */
  datatype DiscoveryResult<N> = DiscoveryResult(
    success: bool, message: Option<string>, rules: Option<seq<RuleSummary<N>>>, policies: Option<seq<PolicySummary>>)

  /** The controller calls the discovery makes, in order. */
  datatype Call = Login | GetSites | GetRules | Logout

  /** The replies of the controller to those calls. */
  datatype Replies = Replies(
    login: Outcome<string>, sites: Result<seq<Site>, string>,
    rules: Result<seq<RuleData>, string>, logout: Outcome<string>)

  const Placeholder := PolicySummary(
    "example_policy", "Example Policy (UniFi 9 detection requires full setup)", false,
    "Use the full discovery script for UniFi 9 policies")

  /** `sites.find(s => s.name === site) || sites.find(s => s.desc === site)`. */
  function FindSite(sites: seq<Site>, site: string): (r: Option<Site>)
    ensures (exists i | 0 <= i < |sites| :: sites[i].name == site) ==>
      r.Some? && exists i | 0 <= i < |sites| :: sites[i] == r.value && r.value.name == site
                                   && forall j | 0 <= j < i :: sites[j].name != site
    ensures (forall i | 0 <= i < |sites| :: sites[i].name != site) ==>
      && (r.None? <==> forall i | 0 <= i < |sites| :: sites[i].desc != site)
      && (r.Some? ==> exists i | 0 <= i < |sites| :: sites[i] == r.value && r.value.desc == site
                                                   && forall j | 0 <= j < i :: sites[j].desc != site)
  {
    match Find(sites, (s: Site) => s.name == site)
    case Some(i) => Some(sites[i])
    case None =>
      match Find(sites, (s: Site) => s.desc == site)
      case Some(i) => Some(sites[i])
      case None => None
  }

  function SiteNames(sites: seq<Site>): (names: seq<string>)
    ensures |names| == |sites| && forall i | 0 <= i < |sites| :: names[i] == sites[i].name
  {
    seq(|sites|, i requires 0 <= i < |sites| => sites[i].name)
  }

  /** `rule.name || \`Rule ${rule.rule_index}\``. */
  function RuleName(rule: RuleData): (r: string)
    ensures r != ""
  {
    if rule.name != "" then rule.name else "Rule " + rule.ruleIndex
  }

  /** Every listed rule has a name: its own when it has one, otherwise one built from its index. */
  lemma RuleNameShape(rule: RuleData)
    ensures RuleName(rule) != ""
    ensures rule.name != "" ==> RuleName(rule) == rule.name
    ensures rule.name == "" ==> RuleName(rule)[..5] == "Rule " && RuleName(rule)[5..] == rule.ruleIndex
  {
  }

  /** The rule mapping: one summary per rule, in the same order. */
  function MapRules<N>(rules: seq<RuleData>, toNumber: string -> N): (r: seq<RuleSummary<N>>)
    ensures |r| == |rules|
    ensures forall i | 0 <= i < |rules| ::
      && r[i].id == toNumber(rules[i].ruleIndex)
      && r[i].name == RuleName(rules[i])
      && r[i].enabled == rules[i].enabled && r[i].action == rules[i].action
      && r[i].srcAddress == rules[i].srcAddress && r[i].dstAddress == rules[i].dstAddress
      && r[i].dstPort == rules[i].dstPort
  {
    seq(|rules|, i requires 0 <= i < |rules| =>
      var rule := rules[i];
      RuleSummary(toNumber(rule.ruleIndex), RuleName(rule), rule.enabled, rule.action,
                  rule.srcAddress, rule.dstAddress, rule.dstPort))
  }

  function Failed<N>(message: string): DiscoveryResult<N> {
    DiscoveryResult(false, Some(message), None, None)
  }

  function NotFoundMessage(site: string, sites: seq<Site>): string {
    "Site \"" + site + "\" not found. Available sites: " + Join(SiteNames(sites), ", ")
  }

  function FoundMessage(rules: nat, policies: nat): string {
    "Found " + NatToString(rules) + " traditional rules and " + NatToString(policies) + " UniFi 9 policies"
  }

  /** What one discovery returns, and the controller calls it made. */
  datatype Discovery<N> = Discovery(result: DiscoveryResult<N>, calls: seq<Call>)

  /**
   * `discoverRulesAndPolicies` for the configured `site`. It succeeds exactly
   * when every call succeeds and a site matches; a success lists every rule and
   * the single placeholder policy and counts them in its message. Every failure
   * carries the message of the call that threw, or the available site names
   * when no site matches, in which case no rules are fetched and no logout is sent.
   */
  function Discover<N>(site: string, replies: Replies, toNumber: string -> N): (d: Discovery<N>)
    ensures d.result.success <==>
      && replies.login.Pass? && replies.sites.Success? && FindSite(replies.sites.value, site).Some?
      && replies.rules.Success? && replies.logout.Pass?
    ensures d.result.success ==>
      && d.result.rules == Some(MapRules(replies.rules.value, toNumber))
      && d.result.policies == Some([Placeholder])
      && d.result.message == Some(FoundMessage(|replies.rules.value|, 1))
      && d.calls == [Login, GetSites, GetRules, Logout]
    ensures !d.result.success ==> d.result.message.Some? && d.result.rules.None? && d.result.policies.None?
    ensures replies.login.Fail? ==> d == Discovery(Failed(replies.login.error), [Login])
    ensures replies.login.Pass? && replies.sites.Failure? ==> d.result == Failed(replies.sites.error)
    ensures replies.login.Pass? && replies.sites.Success? && FindSite(replies.sites.value, site).None? ==>
      && d.result == Failed(NotFoundMessage(site, replies.sites.value))
      && GetRules !in d.calls && Logout !in d.calls
    ensures replies.login.Pass? && replies.sites.Success? && FindSite(replies.sites.value, site).Some? ==>
      && (replies.rules.Failure? ==> d.result == Failed(replies.rules.error))
      && (replies.rules.Success? && replies.logout.Fail? ==> d.result == Failed(replies.logout.error))
  {
    if replies.login.Fail? then Discovery(Failed(replies.login.error), [Login])
    else if replies.sites.Failure? then Discovery(Failed(replies.sites.error), [Login, GetSites])
    else match FindSite(replies.sites.value, site)
      case None => Discovery(Failed(NotFoundMessage(site, replies.sites.value)), [Login, GetSites])
      case Some(_) =>
        if replies.rules.Failure? then Discovery(Failed(replies.rules.error), [Login, GetSites, GetRules])
        else
          var rules := MapRules(replies.rules.value, toNumber);
          var policies := [Placeholder];
          if replies.logout.Fail? then Discovery(Failed(replies.logout.error), [Login, GetSites, GetRules, Logout])
          else Discovery(DiscoveryResult(true, Some(FoundMessage(|rules|, |policies|)), Some(rules), Some(policies)),
                         [Login, GetSites, GetRules, Logout])
  }

  /** The success message: "Found N traditional rules and 1 UniFi 9 policies", N in decimal. */
  lemma FoundMessageDigits(rules: nat)
    ensures var m := FoundMessage(rules, 1);
      && m[..6] == "Found "
      && m[|m| - 17..] == " UniFi 9 policies"
      && m[6..|m| - 41] == NatToString(rules)
  {
  }
}
