# homebridge-unifi-firewall, modelled in Dafny

homebridge-unifi-firewall is a Homebridge plugin. It exposes UniFi firewall
rules and UniFi 9 zone-based firewall policies as HomeKit switches. This
project models the plugin's own logic and proves properties of that model.

- **Policy probing** (`Unifi9Policy`, src/unifi9Policy.ts). `getPolicies` tries
  seven GET endpoints in a fixed order. It stops at the first whose payload,
  unwrapped as `data?.data || data`, is truthy, and turns a non-array payload
  into a one-element list. `updatePolicy` tries five PUT endpoints in order and
  stops at the first that does not throw. The controller's HTTP instance is a
  function from requests to replies (`Threw` or `Answered(data)`). Each method
  also returns the ghost trace of the requests it issued.
- **Platform reconciliation** (`Platform`, src/platform.ts).
  - The startup cache of restored accessories is filled by `ConfigureAccessory`.
  - `DiscoverDevices` logs in and selects the site.
  - `DiscoverPolicies` matches every configured entry to a fetched policy, derives
    the UUID key, and either binds a switch to the cached accessory or creates,
    binds and registers a new one.
  - The decision for each entry is the pure `StepFor`, and a whole pass is the
    fold `Run`. The imperative loop (`Reconcile`) is proved to perform exactly
    that fold, and to leave the host's registration log and the handler list as
    `Recorded` describes.
  - `hap.uuid.generate` is an uninterpreted function. The host's
    `registerPlatformAccessories` appends to a log and rejects a UUID it already
    bridges.
- **Switch handlers**:
  - the zone-based policy switch (`Unifi9PolicyAccessory`, src/unifi9PolicyAccessory.ts);
  - the legacy single-rule accessory (`Accessory`, src/accessory.ts). As
    written, its constructor builds the switch service from the module-level
    `hap` (src/accessory.ts:37), which nothing assigns, so it throws a
    TypeError at src/accessory.ts:94, before the rule client is created and
    before the first refresh (`Accessory.ConstructWith`). The class
    `Accessory.UnifiFirewallSwitch` is the constructor as intended, with the
    host's `api.hap`; its not-awaited refreshes and writes are separate steps;
  - the platform rule switch (`RuleAccessory`, src/platformAccessory.ts).
- **Lookups**:
  - the legacy rule client `UnifiFirewallRule` (`Unifi`, src/unifi.ts), which
    finds the site by name, then the rule by `_id`, and skips the login when
    already logged in;
  - the discovery behind the configuration screen, `discoverRulesAndPolicies`
    (`ConfigUI`, src/configUI.ts).

Each call into `unifi-client` is represented by the reply it produced, passed
in as an input. Its effect on the controller is a field or a ghost log of the
`Controller` class (`UnifiClient`). The Homebridge objects the core updates are
the classes `Hap.PlatformAccessory` and `Hap.HostApi`. JSON values follow
JavaScript truthiness (`Json`). `Seqs.Find` is `Array.prototype.find`.

Four facts about the platform's loop (src/platform.ts:165-227):

- Matching is a plain disjunction, `_id` equal or `name` equal; the id has no
  priority. A policy that matches only by name but comes first in the list
  wins over a later policy that matches by id (src/platform.ts:166-168).
- The match reads `p._id` of every item it passes. A `null` or `undefined`
  item reached before a match throws a TypeError; the catch at
  src/platform.ts:225-227 ends the pass there (`Platform.StepFor`,
  `Platform.NullItemStopsPass`).
- A cached accessory whose UUID matches but which carries no `context.policy`
  makes the switch constructor throw while it reads `context.policy.name`.
  By then the constructor has already written the manufacturer and the model
  (src/unifi9PolicyAccessory.ts:27-34). The catch ends the pass, and that
  accessory keeps those two values (`Platform.UnifiFirewallPlatform.HaltEntry`).
- A newly created accessory is registered but not added to `accessories`, so
  a later entry with the same identity registers the same UUID again. The
  comment at src/platform.ts:84-88 says accessories must be registered only
  once. This is listed under "Findings". The imperative loop `Reconcile`
  follows the code as written; `Platform.RunOnce` is the pass as intended.

## Model

| member | source | states |
|---|---|---|
| Unifi9Policy.ListRequest | src/unifi9Policy.ts:54-60 | a listing request is a GET of the endpoint's url with the endpoint's apiVersion and apiPart |
| Unifi9Policy.ListEndpoints | src/unifi9Policy.ts:22-50 | seven listing rows; each carries no urlParams or exactly `{site: site.name}`, and only the third, zone-based row sets apiPart |
| Unifi9Policy.UpdateEndpoints | src/unifi9Policy.ts:86-106 | five update rows, none with urlParams of its own; only the first, zone-based row sets apiPart; every url ends with the policy id |
| Unifi9Policy.DefaultSiteRepeatsRows | src/unifi9Policy.ts:24-100 | for the site named "default" the first two listing rows are equal, and so are the second and third update rows |
| Unifi9Policy.ListRequestParams | src/unifi9Policy.ts:54-60 | the request's urlParams always hold `site`, hold every key of the endpoint's own urlParams with its value, and `site` is the endpoint's own value when it sets one and the site name otherwise |
| Unifi9Policy.ListRequestsCarrySite | src/unifi9Policy.ts:22-60 | there are seven listing requests, and every one is a GET whose urlParams are exactly `{site: site.name}` |
| Unifi9Policy.UpdateRequestsCarryBody | src/unifi9Policy.ts:84-113 | there are five update requests, and every one is a PUT of body `{enabled}` with urlParams exactly `{site, id}` |
| Unifi9Policy.UpdateRequest | src/unifi9Policy.ts:108-113 | an update request is a PUT to the endpoint's url with the endpoint's apiVersion and apiPart |
| Unifi9Policy.ListRequestsFor | src/unifi9Policy.ts:52-60 | one listing request per endpoint row, in the same order |
| Unifi9Policy.UpdateRequestsFor | src/unifi9Policy.ts:108-113 | one update request per endpoint row, in the same order |
| Unifi9Policy.PayloadShapes | src/unifi9Policy.ts:62-67 | a bare array and a `{data: [...]}` envelope both unwrap to the array itself; an object without a truthy `data` becomes the one-element list of itself |
| Unifi9Policy.Unwrap | src/unifi9Policy.ts:62 | the nested `data` field when the reply is an object whose `data` is truthy, and the reply itself otherwise |
| Unifi9Policy.Normalise | src/unifi9Policy.ts:67 | an array payload is the list itself; any other payload is the one-element list of itself |
| Unifi9Policy.Inspect | src/unifi9Policy.ts:62-68 | a reply ends the probe exactly when it answered and its unwrapped payload is truthy, and then the list is that payload normalised |
| Unifi9Policy.ProbeStopsAt | src/unifi9Policy.ts:52-72 | when reply k is found and no earlier reply is, the probe stops at index k |
| Unifi9Policy.ProbeReturnsFirstFound | src/unifi9Policy.ts:52-72 | when reply k is the first found one, the probe returns its normalised payload and issues exactly the requests 0..k |
| Unifi9Policy.ProbeTraceIsPrefix | src/unifi9Policy.ts:52-72 | the requests issued are a prefix of the table, in table order, each at most once, and every one before the last was not found |
| Unifi9Policy.ProbeExhausted | src/unifi9Policy.ts:72-78 | the probe finds nothing exactly when every reply throws or is falsy, and then it returns `[]` after trying every endpoint |
| Unifi9Policy.ProbeEmptyIff | src/unifi9Policy.ts:62-74 | the probe returns `[]` exactly when it is exhausted or the payload it stops at is an empty array |
| Unifi9Policy.EmptyArrayEndsProbe | src/unifi9Policy.ts:62-67 | an answer `[]` or `{data: []}` ends the probe, with the empty list and no later request |
| Unifi9Policy.Probe | src/unifi9Policy.ts:52-74 | the loop over an endpoint table returns the probe result and issues the probe trace of that table's requests |
| Unifi9Policy.PolicyManager.GetPolicies | src/unifi9Policy.ts:19-79 | `getPolicies` returns the probe result over the seven listing requests and issues exactly the probe trace; it never throws |
| Unifi9Policy.UpdateStopsAt | src/unifi9Policy.ts:108-115 | when PUT k answers and every earlier one threw, the update stops at index k |
| Unifi9Policy.UpdateReturnsFirstAnswer | src/unifi9Policy.ts:108-115 | when PUT k is the first that does not throw, the update succeeds after issuing exactly PUTs 0..k |
| Unifi9Policy.UpdateFailsIffAllThrow | src/unifi9Policy.ts:108-125 | the update fails with "Could not update policy via any known endpoint" exactly when every PUT throws, and then all were tried; on success the last PUT issued answered |
| Unifi9Policy.TryUpdates | src/unifi9Policy.ts:108-121 | the loop over an endpoint table returns the update result and issues the update trace of that table's requests |
| Unifi9Policy.PolicyManager.UpdatePolicy | src/unifi9Policy.ts:81-126 | `updatePolicy` returns the update result over the five PUTs of `{enabled}` and issues exactly the update trace |
| Json.FalsyValues | src/unifi9Policy.ts:62-64 | the falsy values are exactly undefined, null, false, 0 and "" |
| Json.Or | src/unifi9Policy.ts:62 | JavaScript's or-operator yields its left operand when that is truthy and its right operand otherwise |
| Json.Get | src/unifi9Policy.ts:62 | `v?.key` is the field of an object that has the key, and undefined otherwise |
| Json.JsString | src/platform.ts:176-178 | a template literal prints undefined and null as their names, booleans as "true" or "false", a string as itself, an integer in decimal and an array as its elements joined |
| Json.JoinElementsIsJoin | src/platform.ts:176-178 | an array prints as `join(",")` of its elements, with null and undefined elements printed as "" |
| Seqs.JoinAppend | src/configUI.ts:63-65 | joining one more string appends one separator and that string |
| Seqs.Find | src/platform.ts:166-168 | `find` returns the first index whose element satisfies the predicate, and finds nothing exactly when no element does |
| Seqs.FindIsFirst | src/platform.ts:166-168 | when k is the first index satisfying the predicate, `find` returns k |
| Platform.UnifiFirewallPlatform.ConfigureAccessory | src/platform.ts:75-82 | appends the restored accessory to `accessories` and changes nothing else |
| Platform.SelectSite | src/platform.ts:103-117 | a login or site-listing error is rethrown; otherwise a site is selected exactly when one has the configured name, it is the first such site, and otherwise the error is the platform's site-not-found message |
| Platform.Matches | src/platform.ts:166-168 | an item matches exactly when it is an object whose `_id` is the entry's id or whose `name` is the entry's name |
| Platform.Identity | src/platform.ts:176-178 | the configured id when it is non-empty; otherwise the policy's `_id` string, or "undefined" or "null" as a template literal prints those |
| Platform.UuidKey | src/platform.ts:176-178 | the key is `unifi9-policy-` followed by the identity |
| Platform.StepFor | src/platform.ts:165-196 | an entry is unmatched exactly when every item is non-null and matches nothing; a null or undefined item reached before any match is a fault at its index; otherwise its policy is the first match, with no null item before it; it restores the first cached accessory with the derived UUID, and it creates only when no cached accessory has that UUID |
| Platform.Steps | src/platform.ts:165 | one step per configured entry, in order |
| Platform.IdentityChoice | src/platform.ts:176-178 | the key is `unifi9-policy-` followed by the configured id when it is non-empty, and otherwise by the policy's `_id` as a template literal prints it |
| Platform.UuidKeyInjective | src/platform.ts:176-178 | two keys coincide exactly when their identities do |
| Platform.Advance | src/platform.ts:165-227 | a stopped pass stays as it is; a step binds at most one switch, and only a Restore or Create step binds; a registration is added exactly for a Create step of a running pass, and it bridges that UUID; a Restore step of a running pass at an accessory without a context stops the pass with that accessory as the halted one, and only then does the halted accessory change |
| Platform.Run | src/platform.ts:165-227 | no more registrations than bound switches and no more bound switches than entries; every registration is a Create step of the pass; the host ends up bridging the start set plus the registered UUIDs; a pass with a halted accessory is stopped |
| Platform.NullItemStopsPass | src/platform.ts:165-227 | a null item ahead of the matching policy is a fault at index 0, and the pass ends stopped with nothing bound or registered |
| Platform.RunStaysStopped | src/platform.ts:225-227 | once an error stopped the pass, the remaining entries change nothing |
| Platform.StoppedPrefix | src/platform.ts:225-227 | a stopped prefix of the pass means the whole pass is stopped |
| Platform.UnstoppedRun | src/platform.ts:165-224 | a pass that no error stopped binds one switch per matched entry, registers once per entry whose UUID was absent from the startup cache, both in order, and bridges exactly those UUIDs in addition |
| Platform.SameIdentityRegistersTwice | src/platform.ts:176-223 | two entries with the same id register the same UUID twice, so the registrations are not pairwise distinct, and the rejected duplicate stops the pass |
| Platform.AdvanceOnce | src/platform.ts:196-223 | as intended: binds exactly what the loop as written binds; registers only a UUID not yet registered in this pass and bridges it; a repeated identity does not stop the pass |
| Platform.RunOnce | src/platform.ts:165-227 | as intended: every registration is a Create step of the pass, and the host bridges the start set plus the registered UUIDs |
| Platform.RunOnceRegistersOnce | src/platform.ts:84-88 | in the intended pass no UUID is registered twice |
| Platform.SameIdentityRegistersOnce | src/platform.ts:176-223 | under the intended pass the duplicate configuration registers one accessory, binds two switches and is not stopped |
| Platform.UnifiFirewallPlatform.AllocatePolicies | src/platform.ts:157 | one fresh policy object per fetched item, holding its `_id`, `name` and `enabled` |
| Platform.UnifiFirewallPlatform.NewPolicyAccessory | src/platform.ts:201-218 | a fresh accessory with the entry's name and the UUID, `context.policy` set from the entry, services AccessoryInformation and Switch, the policy information values, and its switch bound to the policy and the entry's inversion |
| Platform.UnifiFirewallPlatform.BindRestored | src/platform.ts:184-195 | a new switch is bound to the cached accessory and recorded in the handler list; nothing is registered; that accessory gains the Switch service unless it had it and gets the policy information values; every other cached accessory keeps its services and values |
| Platform.UnifiFirewallPlatform.HaltEntry | src/platform.ts:184-227 | at a cached accessory without a context the pass stops with that accessory halted; it gets the manufacturer and the model and nothing else; no switch is bound, nothing is registered, and every other cached accessory keeps its values |
| Platform.UnifiFirewallPlatform.RestoreEntry | src/platform.ts:184-195 | a cached accessory with a context gets a new switch and nothing is registered; that accessory gains the Switch service unless it had it and gets the policy information values; every other cached accessory keeps its services and values |
| Platform.UnifiFirewallPlatform.CreateEntry | src/platform.ts:196-223 | as `CreateAndRegister`, and no cached accessory's services or values change |
| Platform.UnifiFirewallPlatform.CreateAndRegister | src/platform.ts:196-223 | a new accessory is bound and registered as a one-element list; the pass stops exactly when the host already bridges the UUID |
| Platform.UnifiFirewallPlatform.ReconcileEntry | src/platform.ts:165-227 | one entry advances the pass by its step: skip when unmatched, stop on a null item or at a cached accessory without a context, after that accessory got the manufacturer and the model, restore, or create; the cached accessories stay as the steps so far dressed them |
| Platform.UnifiFirewallPlatform.ReconcileAt | src/platform.ts:165-227 | after entry i the pass over the first i+1 steps holds, with host, handlers and cached accessories as that pass records |
| Platform.UnifiFirewallPlatform.Reconcile | src/platform.ts:165-227 | the loop performs exactly the fold of the steps and leaves registrations and handlers as that fold records; a cached accessory that a Restore step bound has the Switch service and the policy information values; the halted accessory, if any, keeps its services and has the manufacturer and the model written over its values; every other keeps its services and values; errors are swallowed |
| Platform.UnifiFirewallPlatform.DiscoverPolicies | src/platform.ts:154-228 | the fetched policies mirror the probe result, and the reconciliation over them, including the cached accessories' services and values, is as `Reconcile` states |
| Platform.UnifiFirewallPlatform.Connect | src/platform.ts:98-117 | the configured site when the login and the site listing succeed and a site has that name; otherwise the error rethrown, as `SelectSite` states |
| Platform.UnifiFirewallPlatform.DiscoverDevices | src/platform.ts:89-149 | a site-selection error is rethrown and touches neither host, handlers nor cached accessories; without configured policies nothing is reconciled; otherwise policies are fetched from the selected site and reconciled as `DiscoverPolicies` states |
| Hap.HostApi.RegisterPlatformAccessories | src/platform.ts:220-222 | the call is logged; it fails exactly when some accessory's UUID is already bridged, and otherwise bridges their UUIDs |
| Hap.WithService | src/unifi9PolicyAccessory.ts:36-38 | the service is present afterwards, the existing services are kept in order, at most one is added, and nothing changes when it was already there |
| Hap.PlatformAccessory.UseService | src/unifi9PolicyAccessory.ts:36-38 | the services become `WithService` of the old ones: an existing service is reused, a missing one is added once |
| Unifi9PolicyAccessory.DisplayedAfterWrite | src/unifi9PolicyAccessory.ts:51-79 | reading back the target value of a write shows the value set, whatever the inversion |
| Unifi9PolicyAccessory.TargetEnabled | src/unifi9PolicyAccessory.ts:53 | the target differs from the value set exactly when the switch is inverted |
| Unifi9PolicyAccessory.Displayed | src/unifi9PolicyAccessory.ts:73 | uninverted, the local `enabled` as it is; inverted, the boolean negation of its truthiness |
| Unifi9PolicyAccessory.PartialInformation | src/unifi9PolicyAccessory.ts:25-30 | the manufacturer "Ubiquiti" and the model "UniFi-9-Policy" are added, and every other value is kept |
| Unifi9PolicyAccessory.PolicyInformation | src/unifi9PolicyAccessory.ts:25-43 | the four keys Manufacturer, Model, SerialNumber and Name are added: "Ubiquiti", "UniFi-9-Policy", and the context name as serial number and as the Switch service's name; other values are kept |
| Unifi9PolicyAccessory.PolicyInformationAfterPartial | src/unifi9PolicyAccessory.ts:25-43 | a full write over a partial one gives what the full write alone gives, so a once-halted accessory is dressed normally once it has a context |
| Unifi9PolicyAccessory.ConstructWithoutPolicy | src/unifi9PolicyAccessory.ts:21-34 | without `context.policy` only the manufacturer and the model are written, and the TypeError of reading `name` of undefined is raised |
| Unifi9PolicyAccessory.PolicyInformationIdempotent | src/unifi9PolicyAccessory.ts:25-43 | writing the information twice is writing it once, so a restored accessory is dressed the same on every start |
| Unifi9PolicyAccessory.PolicySwitch.constructor | src/unifi9PolicyAccessory.ts:21-43 | the accessory's values become the policy information over the old ones and its services `WithService(old, Switch)`; the switch keeps the policy and the inversion, with a fresh policy manager for the site |
| Unifi9PolicyAccessory.PolicySwitch.SetOn | src/unifi9PolicyAccessory.ts:51-70 | the PUTs carry `invert ? !v : v`; on success `policy.enabled` is that target and reads back as v; on failure it is unchanged and the error is rethrown |
| Unifi9PolicyAccessory.PolicySwitch.GetOn | src/unifi9PolicyAccessory.ts:72-80 | returns `policy.enabled`, negated when inverted, and changes nothing |
| Accessory.InitUnifiConfig | src/accessory.ts:46-63 | without options the defaults; otherwise every key present in the options replaces the default |
| Accessory.CompleteOptionsWin | src/accessory.ts:59-62 | options that set every key are taken as they are; merging twice is merging once; empty options give the defaults |
| Accessory.ShownAfterWritten | src/accessory.ts:129-150 | `(v !== i) !== i` is `v`, in both directions |
| Accessory.RefreshShowsWrittenValue | src/accessory.ts:123-151 | a rule written by `setOn(v)` through a successful lookup and listed back in its place is shown as v by the next refresh |
| Accessory.ConstructWith | src/accessory.ts:83-94 | construction fails exactly when the HAP object it reads is null or undefined, with the TypeError of reading `Service`; otherwise it goes on with the merged configuration |
| Accessory.ConstructorThrowsAsWritten | src/accessory.ts:94 | with the module's unassigned `hap`, every construction throws that TypeError |
| Accessory.UnifiFirewallSwitch.constructor | src/accessory.ts:78-106 | the constructor as intended, with `api.hap`: the merged configuration sets the inversion and the rule client; the information values are "Unifi", "Firewall Rule" and the name; the first refresh pushes `enabled !== inverted` when its lookup succeeds; afterwards the controller has had one login, is logged in exactly when it succeeded, and nothing is saved |
| Accessory.UnifiFirewallSwitch.Refresh | src/accessory.ts:103-105 | a successful lookup pushes `enabled !== inverted`, a failed one pushes nothing; one login is sent exactly when the controller was logged out, and it is logged in afterwards exactly when it was before or that login succeeded |
| Accessory.UnifiFirewallSwitch.SetOn | src/accessory.ts:123-132 | `switchOn` takes v whatever the write does; the rule saved is the looked-up rule with `enabled = v !== inverted`, and nothing is saved when the lookup fails; the login state changes as for `Refresh` |
| Accessory.UnifiFirewallSwitch.GetOn | src/accessory.ts:147-159 | returns the cached `switchOn` unchanged and starts a refresh; the login state changes as for `Refresh` |
| RuleAccessory.RuleInformation | src/platformAccessory.ts:17-34 | Manufacturer "Ubiquiti", Model "Firewall-Rule", serial `context.rule.id`, name `context.rule.name`; other values kept |
| RuleAccessory.RuleSwitch.constructor | src/platformAccessory.ts:10-40 | writes those information values and leaves exactly one Switch service, reused or added |
| RuleAccessory.RuleSwitch.SetOn | src/platformAccessory.ts:42-48 | `fwRule.enabled` takes v, uninverted, before the save; the save sends the new data and its outcome is returned, so a failed save leaves v in place |
| RuleAccessory.RuleSwitch.GetOn | src/platformAccessory.ts:50-56 | returns `fwRule.enabled` and changes nothing |
| RuleAccessory.SetThenGet | src/platformAccessory.ts:42-56 | a get after a set returns the value set, whether or not the save threw |
| Unifi.RuleFrom | src/unifi.ts:26-43 | the login error, the sites error, "Cannot find site", the rules error or "Cannot find rule", each in its case; success exactly when every call succeeds and both lookups find, with the first rule whose `_id` is the rule id |
| Unifi.SavedRuleReadsBack | src/unifi.ts:14-24 | a saved rule listed back in its place is found again, with the `enabled` that was saved |
| Unifi.UnifiFirewallRule.constructor | src/unifi.ts:8-12 | a fresh controller with the given properties, not logged in, with no login or save yet; the site name and rule id as given |
| Unifi.UnifiFirewallRule.Login | src/unifi.ts:45-51 | nothing is sent when already logged in; otherwise one login is sent and its reply returned |
| Unifi.UnifiFirewallRule.GetRule | src/unifi.ts:26-43 | returns the lookup result for the login state it started in; afterwards logged in exactly when it was before or the login succeeded; one login is sent exactly when it was logged out |
| Unifi.UnifiFirewallRule.GetEnabled | src/unifi.ts:14-18 | the `enabled` of the freshly looked-up rule, or its error; the login state changes as for `GetRule` |
| Unifi.UnifiFirewallRule.SetEnabled | src/unifi.ts:20-24 | a successful lookup saves the rule with the new `enabled` and returns the save's outcome; a failed one saves nothing and returns its error; the login state changes as for `GetRule` |
| ConfigUI.FindSite | src/configUI.ts:56-58 | the first site whose name matches; only when no name matches, the first whose description matches; none exactly when neither matches |
| ConfigUI.SiteNames | src/configUI.ts:63-65 | the site names in order |
| ConfigUI.RuleName | src/configUI.ts:75 | the displayed rule name is never empty |
| ConfigUI.RuleNameShape | src/configUI.ts:75 | a rule's own non-empty name, otherwise "Rule " followed by its index; never empty |
| ConfigUI.MapRules | src/configUI.ts:72-81 | one summary per rule, same order and length, `id = Number(rule_index)` and the other fields copied |
| ConfigUI.Discover | src/configUI.ts:35-123 | succeeds exactly when every call succeeds and a site is found; a success lists the mapped rules and the single placeholder policy and counts both in the message; every failure carries the thrown message or the available sites, and a missing site fetches no rules and sends no logout |
| ConfigUI.FoundMessageDigits | src/configUI.ts:112 | the success message is "Found ", the rule count in decimal, then " traditional rules and 1 UniFi 9 policies" |

## Left out

- Logging, `console` output and the process-wide TLS bypass (src/platform.ts:92, src/configUI.ts:40-42) are not modelled. They change nothing the model observes.
- Promise timing is not modelled. The not-awaited write of `setOn` and the refreshes of src/accessory.ts are separate, sequential steps (`Refresh`, `SetEnabled`), with no interleaving.
- `unifi-client` is not part of this model. `login`, `getSites`, `firewall.getRules`, `FWRule.save`, `logout` and the HTTP instance are represented by their replies, which are inputs.
- The remote of the policy probe is a function of the request. Two equal requests therefore receive the same reply. This matters only when the site is named `default`, where the first two listing requests coincide and so do the second and third update requests (`Unifi9Policy.DefaultSiteRepeatsRows`).
- Homebridge internals are not modelled: services beyond AccessoryInformation and Switch, the On characteristic's bindings, and the `platformAccessory` category. `getService(AccessoryInformation)` is taken to succeed, as the source's `!` asserts.
- `hap.uuid.generate` is an uninterpreted function, `HostApi.generate`.
- JSON numbers are integers. NaN, fractions and the `Number()` conversion of `rule_index` are not modelled: the conversion is the function parameter `toNumber` of `ConfigUI.MapRules`.
- Unifi.RuleFrom: a fetch holds one rules reply, so the rules of a site other than the one found are not represented.
- Platform.UnifiFirewallPlatform.CreateEntry: that the registered accessory is new is stated as "not in the startup cache", not as freshly allocated.
- `PLUGIN_NAME` and `PLATFORM_NAME` (src/settings.ts) are not part of this model. The register call is recorded without them.
- The `controller` argument that the policy manager and the policy switch receive is not kept. Neither class uses it beyond storing it; only the site is used.
- A `Partial<...>` key that is present but `undefined` is treated as absent by `Accessory.InitUnifiConfig`. In JavaScript such a key overrides the default with `undefined`.
- Hap.PlatformAccessory: the characteristic values of an accessory are one map, which merges the AccessoryInformation service and the Switch service. `Name` is set on the Switch service (src/unifi9PolicyAccessory.ts:40-43), the other three information values on AccessoryInformation; the map does not say which service holds a value.
- RuleAccessory.RuleSwitch.constructor: it requires `context.rule`. Without it, src/platformAccessory.ts:17-25 writes the manufacturer and the model before reading `context.rule.id` throws. The core never constructs this class, so that partial write is not modelled.
- The platform's `discoverRulesAndPolicies` (src/platform.ts:60-69) only delegates to `ConfigUI.Discover` and is not modelled separately.
- The legacy `rules` list of the platform configuration is carried in `Config.PlatformConfig` but is not reconciled: the platform's code only discovers zone-based policies.

## Findings

| source | as written | input that shows it | evidently intended | confidence | as-written member | corrected member |
|---|---|---|---|---|---|---|
| src/platform.ts:196-223 | a created accessory is registered but never added to `accessories`, so a later entry with the same identity misses it, registers the same UUID again, and the host's rejection ends the pass | entries `{id: "p1", name: "Guest"}` and `{id: "p1", name: "Guest again"}`, one policy `{_id: "p1", name: "Guest"}`, an empty cache | accessories are registered once (the comment at src/platform.ts:84-88): the second entry binds to the accessory the first registered | not executed | Platform.SameIdentityRegistersTwice | Platform.RunOnceRegistersOnce |
| src/accessory.ts:94 | `new hap.Service.Switch` reads the module-level `hap` (src/accessory.ts:37), which nothing assigns, so every construction throws a TypeError before the rule client and the first refresh | any accessory configuration, such as `{name: "Rule"}` | the host's `this.api.hap`, which the information service at src/accessory.ts:88-91 already uses | not executed | Accessory.ConstructorThrowsAsWritten | Accessory.UnifiFirewallSwitch.constructor |
