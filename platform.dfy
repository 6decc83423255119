/**
 * The dynamic platform (src/platform.ts): the cache of restored accessories,
 * the site selection at startup, and the reconciliation of every configured
 * policy entry with the fetched policies and the cache, which either binds a
 * switch to a cached accessory or creates, binds and registers a new one.
 */
module Platform {
  import opened Wrappers
  import opened Seqs
  import opened Json
  import opened Config
  import opened UnifiClient
  import opened Hap
  import opened Unifi9Policy
  import opened Unifi9PolicyAccessory

  const KeyPrefix := "unifi9-policy-"

  /** `p._id === entry.id || p.name === entry.name`: a plain disjunction, the id has no priority. */
  predicate Matches(entry: EntryConfig, p: Json): (r: bool)
    ensures r <==> p.Obj? && (("_id" in p.fields && p.fields["_id"] == Str(entry.id))
                              || ("name" in p.fields && p.fields["name"] == Str(entry.name)))
  {
    Get(p, "_id") == Str(entry.id) || Get(p, "name") == Str(entry.name)
  }

  /** The identity a key is derived from: `entry.id || policy._id`. */
  function Identity(entry: EntryConfig, policyId: Json): (r: string)
    ensures entry.id != "" ==> r == entry.id
    ensures entry.id == "" && policyId.Str? ==> r == policyId.s
    ensures entry.id == "" && policyId.Undefined? ==> r == "undefined"
    ensures entry.id == "" && policyId.Null? ==> r == "null"
  {
    if entry.id != "" then entry.id else JsString(policyId)
  }

  /** The string hashed into the accessory UUID: the identity behind a fixed prefix. */
  function UuidKey(entry: EntryConfig, policyId: Json): (r: string)
    ensures |r| >= |KeyPrefix| && r[..|KeyPrefix|] == "unifi9-policy-"
    ensures r[|KeyPrefix|..] == Identity(entry, policyId)
  {
    KeyPrefix + Identity(entry, policyId)
  }

  /**
   * What the reconciliation loop decides for one configured entry. `Fault` is
   * the TypeError of `p._id` on a null or undefined item that `find` reaches
   * before any match.
   */
  datatype Step =
    | Unmatched
    | Fault(index: nat)
    | Restore(cache: nat, policy: nat, entry: EntryConfig)
    | Create(uuid: string, policy: nat, entry: EntryConfig)

  function StepFor(entry: EntryConfig, payload: seq<Json>, cache: seq<PlatformAccessory>,
                   generate: string -> string): (step: Step)
    ensures step.Unmatched? <==>
      forall k | 0 <= k < |payload| :: !Nullish(payload[k]) && !Matches(entry, payload[k])
    ensures step.Fault? ==>
      && step.index < |payload| && Nullish(payload[step.index])
      && (forall k | 0 <= k < step.index :: !Nullish(payload[k]) && !Matches(entry, payload[k]))
    ensures step.Restore? || step.Create? ==>
      && step.policy < |payload| && Matches(entry, payload[step.policy]) && step.entry == entry
      && (forall k | 0 <= k < step.policy :: !Nullish(payload[k]) && !Matches(entry, payload[k]))
    ensures step.Restore? ==>
      && step.cache < |cache|
      && cache[step.cache].uuid == generate(UuidKey(entry, Get(payload[step.policy], "_id")))
      && forall c | 0 <= c < step.cache :: cache[c].uuid != cache[step.cache].uuid
    ensures step.Create? ==>
      && step.uuid == generate(UuidKey(entry, Get(payload[step.policy], "_id")))
      && forall c | 0 <= c < |cache| :: cache[c].uuid != step.uuid
  {
    match Find(payload, p => Nullish(p) || Matches(entry, p))
    case None => Unmatched
    case Some(k) =>
      if Nullish(payload[k]) then Fault(k)
      else
      var uuid := generate(UuidKey(entry, Get(payload[k], "_id")));
      match Find(cache, (a: PlatformAccessory) => a.uuid == uuid)
      case Some(c) => Restore(c, k, entry)
      case None => Create(uuid, k, entry)
  }

  function Steps(entries: seq<EntryConfig>, payload: seq<Json>, cache: seq<PlatformAccessory>,
                 generate: string -> string): (steps: seq<Step>)
    ensures |steps| == |entries|
    ensures forall i | 0 <= i < |entries| :: steps[i] == StepFor(entries[i], payload, cache, generate)
  {
    seq(|entries|, i requires 0 <= i < |entries| => StepFor(entries[i], payload, cache, generate))
  }

  /** Two keys coincide exactly when their identities do: the prefix is the same for every entry. */
  lemma UuidKeyInjective(e1: EntryConfig, id1: Json, e2: EntryConfig, id2: Json)
    ensures UuidKey(e1, id1) == UuidKey(e2, id2) <==> Identity(e1, id1) == Identity(e2, id2)
  {
  }

  /** A configured id wins over the policy's own `_id`; without one, the policy `_id` is interpolated. */
  lemma IdentityChoice(entry: EntryConfig, policyId: Json)
    ensures entry.id != "" ==> UuidKey(entry, policyId) == "unifi9-policy-" + entry.id
    ensures entry.id == "" && policyId.Str? ==> UuidKey(entry, policyId) == "unifi9-policy-" + policyId.s
    ensures entry.id == "" && policyId.Undefined? ==> UuidKey(entry, policyId) == "unifi9-policy-undefined"
  {
  }

  /**
   * The state of one reconciliation pass: whether an error stopped it, the
   * steps that bound a switch, the steps that called register, the UUIDs
   * the host bridges, and the cached accessory whose switch constructor threw
   * when that stopped the pass.
   */
  datatype RunState = RunState(stopped: bool, bound: seq<Step>, created: seq<Step>, bridged: set<string>,
                               halted: Option<nat>)

  /**
   * One entry of the loop. A cached accessory without a policy context makes
   * the switch constructor throw; a register of a UUID the host already
   * bridges throws after the switch was bound. Both stop the pass.
   */
  function Advance(s: RunState, step: Step, hasContext: seq<bool>): (r: RunState)
    ensures s.stopped ==> r == s
    ensures s.bound <= r.bound && |r.bound| <= |s.bound| + 1 && (r.bound != s.bound ==> r.bound[|s.bound|] == step)
    ensures s.created <= r.created && (r.created != s.created <==> !s.stopped && step.Create?)
    ensures r.created != s.created ==> r.created == s.created + [step] && r.bridged == s.bridged + {step.uuid}
    ensures r.created == s.created ==> r.bridged == s.bridged
    ensures r.bound != s.bound ==> step.Restore? || step.Create?
    ensures r.halted != s.halted ==> r.stopped && step.Restore? && r.halted == Some(step.cache)
    ensures !s.stopped && step.Restore? && !(step.cache < |hasContext| && hasContext[step.cache]) ==>
              r.halted == Some(step.cache)
  {
    if s.stopped then s
    else match step
      case Unmatched => s
      case Fault(_) => s.(stopped := true)
      case Restore(c, _, _) =>
        if c < |hasContext| && hasContext[c] then s.(bound := s.bound + [step]) else s.(stopped := true, halted := Some(c))
      case Create(uuid, _, _) =>
        s.(stopped := uuid in s.bridged, bound := s.bound + [step], created := s.created + [step],
           bridged := s.bridged + {uuid})
  }

  /** The pass folded over its steps, from a state with nothing bound or registered. */
  function Run(steps: seq<Step>, hasContext: seq<bool>, bridged: set<string>): (r: RunState)
    ensures |r.created| <= |r.bound| <= |steps|
    ensures forall x | x in r.created :: x.Create? && x in steps
    ensures forall x | x in r.bound :: (x.Restore? || x.Create?) && x in steps
    ensures r.bridged == bridged + set x | x in r.created :: x.uuid
    ensures r.halted.Some? ==> r.stopped
    decreases |steps|
  {
    if steps == [] then RunState(false, [], [], bridged, None)
    else Advance(Run(steps[..|steps| - 1], hasContext, bridged), steps[|steps| - 1], hasContext)
  }

  /** Which cached accessories carry a `context.policy`. */
  ghost function ContextFlags(cache: seq<PlatformAccessory>): (flags: seq<bool>)
    reads (set a | a in cache)`context
    ensures |flags| == |cache|
    ensures forall c | 0 <= c < |cache| :: flags[c] == ("policy" in cache[c].context)
  {
    if cache == [] then []
    else ContextFlags(cache[..|cache| - 1]) + ["policy" in cache[|cache| - 1].context]
  }

  /** Every accessory passed to the host's register call. */
  ghost function RegisteredObjects(registrations: seq<seq<PlatformAccessory>>): (r: set<PlatformAccessory>)
    ensures forall j, a | 0 <= j < |registrations| && a in registrations[j] :: a in r
  {
    set j, a | 0 <= j < |registrations| && a in registrations[j] :: a
  }

  lemma RegisteredAppend(registrations: seq<seq<PlatformAccessory>>, call: seq<PlatformAccessory>)
    ensures RegisteredObjects(registrations + [call]) == RegisteredObjects(registrations) + set a | a in call
  {
    var rs := registrations + [call];
    forall a | a in RegisteredObjects(rs) ensures a in RegisteredObjects(registrations) || a in call {
      var j :| 0 <= j < |rs| && a in rs[j];
      if j < |registrations| {
        assert a in registrations[j];
      }
    }
    forall a | a in RegisteredObjects(registrations) ensures a in RegisteredObjects(rs) {
      var j :| 0 <= j < |registrations| && a in registrations[j];
      assert rs[j] == registrations[j];
    }
    forall a | a in call ensures a in RegisteredObjects(rs) {
      assert rs[|rs| - 1] == call;
    }
  }

  /** Once an error stopped the pass, the remaining entries change nothing. */
  lemma {:induction false} RunStaysStopped(steps: seq<Step>, m: nat, hasContext: seq<bool>, bridged: set<string>)
    requires m <= |steps| && Run(steps[..m], hasContext, bridged).stopped
    ensures Run(steps, hasContext, bridged) == Run(steps[..m], hasContext, bridged)
    decreases |steps|
  {
    if m == |steps| {
      assert steps[..m] == steps;
    } else {
      var init := steps[..|steps| - 1];
      assert init[..m] == steps[..m];
      RunStaysStopped(init, m, hasContext, bridged);
    }
  }

  /** A loop that ran out of entries or was stopped has computed the whole pass. */
  lemma RunEnds(steps: seq<Step>, i: nat, hasContext: seq<bool>, bridged: set<string>)
    requires i <= |steps| && (i == |steps| || Run(steps[..i], hasContext, bridged).stopped)
    ensures Run(steps, hasContext, bridged) == Run(steps[..i], hasContext, bridged)
  {
    if i == |steps| {
      assert steps[..i] == steps;
    } else {
      RunStaysStopped(steps, i, hasContext, bridged);
    }
  }

  lemma RunStep(steps: seq<Step>, i: nat, hasContext: seq<bool>, bridged: set<string>)
    requires i < |steps|
    ensures Run(steps[..i + 1], hasContext, bridged)
         == Advance(Run(steps[..i], hasContext, bridged), steps[i], hasContext)
  {
    assert steps[..i + 1][..i] == steps[..i];
  }

  /** The steps that bind a switch (every matched entry) and the steps that call register. */
  function Matched(steps: seq<Step>): (r: seq<Step>)
    ensures forall x | x in r :: x in steps && (x.Restore? || x.Create?)
    decreases |steps|
  {
    if steps == [] then []
    else Matched(steps[..|steps| - 1]) + (if steps[|steps| - 1].Restore? || steps[|steps| - 1].Create? then [steps[|steps| - 1]] else [])
  }

  function Creates(steps: seq<Step>): (r: seq<Step>)
    ensures forall x | x in r :: x in steps && x.Create?
    decreases |steps|
  {
    if steps == [] then []
    else Creates(steps[..|steps| - 1]) + (if steps[|steps| - 1].Create? then [steps[|steps| - 1]] else [])
  }

  /** An error stops the pass for good: a stopped prefix stays stopped. */
  lemma {:induction false} StoppedPrefix(steps: seq<Step>, m: nat, hasContext: seq<bool>, bridged: set<string>)
    requires m <= |steps| && Run(steps[..m], hasContext, bridged).stopped
    ensures Run(steps, hasContext, bridged).stopped
  {
    RunStaysStopped(steps, m, hasContext, bridged);
  }

  /**
   * A pass that no error stopped binds a switch for every matched entry, in
   * order, and calls register once for every entry whose UUID was not in the
   * startup cache, in order; unmatched entries are skipped without stopping it.
   */
  lemma {:induction false} UnstoppedRun(steps: seq<Step>, hasContext: seq<bool>, bridged: set<string>)
    requires !Run(steps, hasContext, bridged).stopped
    ensures Run(steps, hasContext, bridged).bound == Matched(steps)
    ensures Run(steps, hasContext, bridged).created == Creates(steps)
    ensures Run(steps, hasContext, bridged).bridged == bridged + set x | x in Creates(steps) :: x.uuid
    decreases |steps|
  {
    if steps != [] {
      var init := steps[..|steps| - 1];
      var last := steps[|steps| - 1];
      var prev := Run(init, hasContext, bridged);
      assert Run(steps, hasContext, bridged) == Advance(prev, last, hasContext);
      assert !prev.stopped;
      UnstoppedRun(init, hasContext, bridged);
      if last.Create? {
        assert Creates(steps) == Creates(init) + [last];
      } else {
        assert Creates(steps) == Creates(init);
      }
    }
  }

  /**
   * Two configured entries with the same identity derive the same UUID. The
   * first registers it; the cache is not updated, so the second registers it
   * again, the host rejects the duplicate, and the pass stops there.
   */
  lemma SameIdentityRegistersTwice(generate: string -> string, hasContext: seq<bool>)
    ensures
      var policy := Obj(map["_id" := Str("p1"), "name" := Str("Guest")]);
      var entries := [EntryConfig("p1", "Guest", false), EntryConfig("p1", "Guest again", true)];
      var run := Run(Steps(entries, [policy], [], generate), hasContext, {});
      && |run.created| == 2 && run.created[0].Create? && run.created[1].Create?
      && run.created[0].uuid == run.created[1].uuid == generate("unifi9-policy-p1")
      && !DistinctUuids(run.created) && run.stopped
  {
    var policy := Obj(map["_id" := Str("p1"), "name" := Str("Guest")]);
    var entries := [EntryConfig("p1", "Guest", false), EntryConfig("p1", "Guest again", true)];
    var uuid := generate("unifi9-policy-p1");
    var a, b := Create(uuid, 0, entries[0]), Create(uuid, 0, entries[1]);
    DuplicateSteps(generate);
    RunOfTwo(a, b, hasContext, {});
  }

  /** Both entries of the duplicate configuration match the one policy and get the same UUID. */
  lemma DuplicateSteps(generate: string -> string)
    ensures
      var policy := Obj(map["_id" := Str("p1"), "name" := Str("Guest")]);
      var entries := [EntryConfig("p1", "Guest", false), EntryConfig("p1", "Guest again", true)];
      var uuid := generate("unifi9-policy-p1");
      Steps(entries, [policy], [], generate) == [Create(uuid, 0, entries[0]), Create(uuid, 0, entries[1])]
  {
    var policy := Obj(map["_id" := Str("p1"), "name" := Str("Guest")]);
    var entries := [EntryConfig("p1", "Guest", false), EntryConfig("p1", "Guest again", true)];
    var steps := Steps(entries, [policy], [], generate);
    var uuid := generate("unifi9-policy-p1");
    assert Matches(entries[0], policy) && Matches(entries[1], policy);
    assert UuidKey(entries[0], Str("p1")) == "unifi9-policy-p1";
    assert steps[0] == Create(uuid, 0, entries[0]);
    assert steps[1] == Create(uuid, 0, entries[1]);
  }

  /** A pass over two steps is two advances from the initial state. */
  lemma RunOfTwo(a: Step, b: Step, hasContext: seq<bool>, bridged: set<string>)
    ensures Run([a, b], hasContext, bridged)
         == Advance(Advance(RunState(false, [], [], bridged, None), a, hasContext), b, hasContext)
  {
    assert [a][..0] == [];
    assert Run([a], hasContext, bridged) == Advance(RunState(false, [], [], bridged, None), a, hasContext);
    assert [a, b][..1] == [a];
  }

  /**
   * A null item ahead of the matching policy: reading its `_id` throws, the
   * error is caught, and the pass ends with nothing bound or registered.
   */
  lemma NullItemStopsPass(generate: string -> string, hasContext: seq<bool>, bridged: set<string>)
    ensures
      var entry := EntryConfig("p1", "A", false);
      var payload := [Null, Obj(map["_id" := Str("p1"), "name" := Str("A")])];
      var run := Run(Steps([entry], payload, [], generate), hasContext, bridged);
      && StepFor(entry, payload, [], generate) == Fault(0)
      && run.stopped && run.bound == [] && run.created == [] && run.bridged == bridged
  {
  }

  /** The UUIDs that Create steps registered. */
  function Uuids(created: seq<Step>): set<string> {
    set x | x in created && x.Create? :: x.uuid
  }

  /**
   * One entry of the pass as the comment on `discoverDevices` intends it:
   * accessories are registered once, so a Create step whose UUID this pass
   * already registered binds its switch to that accessory and registers
   * nothing. It binds exactly what the loop as written binds.
   */
  function AdvanceOnce(s: RunState, step: Step, hasContext: seq<bool>): (r: RunState)
    ensures r.bound == Advance(s, step, hasContext).bound
    ensures s.created <= r.created
    ensures r.created != s.created ==>
      && step.Create? && step.uuid !in Uuids(s.created)
      && r.created == s.created + [step] && r.bridged == s.bridged + {step.uuid}
    ensures r.created == s.created ==> r.bridged == s.bridged
    ensures !s.stopped && step.Create? && step.uuid in Uuids(s.created) ==> !r.stopped
  {
    if !s.stopped && step.Create? && step.uuid in Uuids(s.created) then s.(bound := s.bound + [step])
    else Advance(s, step, hasContext)
  }

  /** The intended pass folded over its steps. */
  function RunOnce(steps: seq<Step>, hasContext: seq<bool>, bridged: set<string>): (r: RunState)
    ensures forall i | 0 <= i < |r.created| :: r.created[i].Create? && r.created[i] in steps
    ensures r.bridged == bridged + Uuids(r.created)
    decreases |steps|
  {
    if steps == [] then RunState(false, [], [], bridged, None)
    else AdvanceOnce(RunOnce(steps[..|steps| - 1], hasContext, bridged), steps[|steps| - 1], hasContext)
  }

  /** Registrations of pairwise different UUIDs. */
  predicate DistinctUuids(created: seq<Step>) {
    forall i, j | 0 <= i < j < |created| && created[i].Create? && created[j].Create? ::
      created[i].uuid != created[j].uuid
  }

  /** In the intended pass no UUID is registered twice. */
  lemma {:induction false} RunOnceRegistersOnce(steps: seq<Step>, hasContext: seq<bool>, bridged: set<string>)
    ensures DistinctUuids(RunOnce(steps, hasContext, bridged).created)
    decreases |steps|
  {
    if steps != [] {
      var init := steps[..|steps| - 1];
      RunOnceRegistersOnce(init, hasContext, bridged);
      var prev := RunOnce(init, hasContext, bridged);
      var last := steps[|steps| - 1];
      var r := AdvanceOnce(prev, last, hasContext);
      assert r == RunOnce(steps, hasContext, bridged);
      if r.created != prev.created {
        assert r.created == prev.created + [last] && last.uuid !in Uuids(prev.created);
        forall i, j | 0 <= i < j < |r.created| && r.created[i].Create? && r.created[j].Create?
          ensures r.created[i].uuid != r.created[j].uuid
        {
          assert r.created[i] == prev.created[i] && r.created[i] in prev.created;
          if j < |prev.created| {
            assert r.created[j] == prev.created[j];
          } else {
            assert prev.created[i].uuid in Uuids(prev.created);
          }
        }
      }
    }
  }

  /**
   * The duplicate configuration under the intended pass: one registration,
   * both switches bound, and nothing stops the pass.
   */
  lemma SameIdentityRegistersOnce(generate: string -> string, hasContext: seq<bool>)
    ensures
      var policy := Obj(map["_id" := Str("p1"), "name" := Str("Guest")]);
      var entries := [EntryConfig("p1", "Guest", false), EntryConfig("p1", "Guest again", true)];
      var run := RunOnce(Steps(entries, [policy], [], generate), hasContext, {});
      && |run.created| == 1 && run.created[0].uuid == generate("unifi9-policy-p1")
      && |run.bound| == 2 && !run.stopped
  {
    var policy := Obj(map["_id" := Str("p1"), "name" := Str("Guest")]);
    var entries := [EntryConfig("p1", "Guest", false), EntryConfig("p1", "Guest again", true)];
    var uuid := generate("unifi9-policy-p1");
    var a, b := Create(uuid, 0, entries[0]), Create(uuid, 0, entries[1]);
    DuplicateSteps(generate);
    assert [a, b][..1] == [a] && [a][..0] == [];
    var empty := RunState(false, [], [], {}, None);
    assert Uuids([]) == {};
    assert RunOnce([a], hasContext, {}) == AdvanceOnce(empty, a, hasContext);
    var first := Advance(empty, a, hasContext);
    assert first == RunState(false, [a], [a], {uuid}, None);
    assert uuid in Uuids(first.created);
    assert RunOnce([a, b], hasContext, {}) == AdvanceOnce(first, b, hasContext);
  }

  /** One call to register, for a Create step: a single new accessory, not a cached one, stamped with the entry. */
  ghost predicate Stamped(call: seq<PlatformAccessory>, step: Step, cache: seq<PlatformAccessory>)
    reads call`context
  {
    && step.Create?
    && |call| == 1
    && call[0] !in cache
    && call[0].uuid == step.uuid
    && call[0].displayName == step.entry.name
    && call[0].context == map["policy" := step.entry]
  }

  /** The cached accessories the Restore steps among `bound` dressed as switches. */
  ghost function Restored(bound: seq<Step>, cache: seq<PlatformAccessory>): (r: set<PlatformAccessory>)
    ensures forall a | a in r :: a in cache
    decreases |bound|
  {
    if bound == [] then {}
    else
      var last := bound[|bound| - 1];
      Restored(bound[..|bound| - 1], cache) + (if last.Restore? && last.cache < |cache| then {cache[last.cache]} else {})
  }

  /** A switch bound by a Restore or a Create step. */
  ghost predicate Binds(sw: PolicySwitch, step: Step, cache: seq<PlatformAccessory>, policies: seq<PolicyObject>) {
    match step
    case Unmatched => false
    case Fault(_) => false
    case Restore(c, k, entry) =>
      c < |cache| && k < |policies| && sw.accessory == cache[c] && sw.policy == policies[k]
      && sw.invert == entry.inverted
    case Create(uuid, k, entry) =>
      k < |policies| && sw.accessory !in cache && sw.accessory.uuid == uuid && sw.accessory.displayName == entry.name
      && sw.policy == policies[k] && sw.invert == entry.inverted
  }

  /** The policy objects mirror the fetched payload, item by item. */
  ghost predicate Mirrors(policies: seq<PolicyObject>, payload: seq<Json>)
    reads policies`enabled
  {
    && |policies| == |payload|
    && forall k | 0 <= k < |payload| ::
         && policies[k].id == Get(payload[k], "_id")
         && policies[k].name == Get(payload[k], "name")
         && policies[k].enabled == Get(payload[k], "enabled")
  }

  /** The platform's own message when the configured site is missing. */
  function SiteNotFound(siteName: string): string {
    "Site defined in Unifi config <" + siteName + "> was not found on the controller (Check the Controller URL)"
  }

  /** Login, site listing and the site lookup of `discoverDevices`: the site, or the error it rethrows. */
  function SelectSite(siteName: string, login: Outcome<string>, sites: Result<seq<Site>, string>): (r: Result<Site, string>)
    ensures login.Fail? ==> r == Failure(login.error)
    ensures login.Pass? && sites.Failure? ==> r == Failure(sites.error)
    ensures login.Pass? && sites.Success? ==>
      && (r.Success? <==> exists i | 0 <= i < |sites.value| :: sites.value[i].name == siteName)
      && (r.Failure? ==> r.error == SiteNotFound(siteName))
      && (r.Success? ==> exists i | 0 <= i < |sites.value| ::
            && sites.value[i] == r.value && r.value.name == siteName
            && forall j | 0 <= j < i :: sites.value[j].name != siteName)
  {
    if login.Fail? then Failure(login.error)
    else if sites.Failure? then Failure(sites.error)
    else match Find(sites.value, (s: Site) => s.name == siteName)
      case None => Failure(SiteNotFound(siteName))
      case Some(i) => Success(sites.value[i])
  }

  /** `UnifiFirewallPlatform`. */
  class UnifiFirewallPlatform {
    const config: PlatformConfig
    const api: HostApi
    /** The restored accessories, filled by `configureAccessory`. */
    var accessories: seq<PlatformAccessory>
    /** The switch handlers constructed, kept alive by the host's characteristic bindings. */
    ghost var handlers: seq<PolicySwitch>

    constructor (config: PlatformConfig, api: HostApi)
      ensures this.config == config && this.api == api && accessories == [] && handlers == []
    {
      this.config := config;
      this.api := api;
      accessories := [];
      handlers := [];
    }

    /** `configureAccessory`: remembers a restored accessory and changes nothing else. */
    method ConfigureAccessory(accessory: PlatformAccessory)
      modifies this`accessories
      ensures accessories == old(accessories) + [accessory]
    {
      accessories := accessories + [accessory];
    }

    /**
     * What a pass recorded in `run` has left in the host and in the handler
     * list, relative to the registrations `regs0` and handlers `handlers0` it
     * started from.
     */
    ghost predicate Recorded(run: RunState, policies: seq<PolicyObject>,
                             regs0: seq<seq<PlatformAccessory>>, handlers0: seq<PolicySwitch>)
      reads this, api, RegisteredObjects(api.registrations)`context
    {
      && api.bridged == run.bridged
      && |api.registrations| == |regs0| + |run.created|
      && api.registrations[..|regs0|] == regs0
      && (forall j | 0 <= j < |run.created| :: Stamped(api.registrations[|regs0| + j], run.created[j], accessories))
      && |handlers| == |handlers0| + |run.bound|
      && handlers[..|handlers0|] == handlers0
      && (forall j | 0 <= j < |run.bound| :: Binds(handlers[|handlers0| + j], run.bound[j], accessories, policies))
    }

    /** One `PolicyObject` per fetched payload item. */
    static method AllocatePolicies(payload: seq<Json>) returns (policies: seq<PolicyObject>)
      ensures Mirrors(policies, payload)
      ensures forall k | 0 <= k < |policies| :: fresh(policies[k])
    {
      policies := [];
      for k := 0 to |payload|
        invariant |policies| == k
        invariant forall j | 0 <= j < k ::
          && fresh(policies[j])
          && policies[j].id == Get(payload[j], "_id")
          && policies[j].name == Get(payload[j], "name")
          && policies[j].enabled == Get(payload[j], "enabled")
      {
        var p := new PolicyObject(payload[k]);
        policies := policies + [p];
      }
    }

    /** A new accessory for `entry`, stamped with `context.policy`, and its switch. */
    static method NewPolicyAccessory(uuid: string, entry: EntryConfig, policy: PolicyObject, site: Site)
      returns (accessory: PlatformAccessory, sw: PolicySwitch)
      ensures fresh(accessory) && accessory.uuid == uuid && accessory.displayName == entry.name
      ensures accessory.context == map["policy" := entry]
      ensures accessory.services == [AccessoryInformation, Switch] && accessory.values == PolicyInformation(map[], entry)
      ensures sw.accessory == accessory && sw.policy == policy && sw.invert == entry.inverted
    {
      accessory := new PlatformAccessory(entry.name, uuid);
      accessory.SetContext("policy", EntryConfig(entry.id, entry.name, entry.inverted));
      sw := new PolicySwitch(accessory, policy, entry.inverted, site);
    }

    /** `flags` says which cached accessories carry a policy context. */
    ghost predicate FlagsOf(flags: seq<bool>)
      reads this, accessories`context
    {
      |flags| == |accessories| && forall c | 0 <= c < |accessories| :: flags[c] == ("policy" in accessories[c].context)
    }

    /** The services of every cached accessory. */
    ghost function ServicesOf(): (r: map<PlatformAccessory, seq<ServiceType>>)
      reads this`accessories, accessories`services
      ensures forall a | a in accessories :: a in r && r[a] == a.services
    {
      map a | a in accessories :: a.services
    }

    /** The characteristic values of every cached accessory. */
    ghost function ValuesOf(): (r: map<PlatformAccessory, map<Characteristic, string>>)
      reads this`accessories, accessories`values
      ensures forall a | a in accessories :: a in r && r[a] == a.values
    {
      map a | a in accessories :: a.values
    }

    /**
     * Every cached accessory is as it was when the pass started (services
     * `services0`, values `values0`); or dressed as a switch, when a Restore
     * step among `bound` was for it and it carries a policy context; or, when
     * it is the accessory `halted` whose switch constructor threw, with the
     * manufacturer and the model written and its services as they were.
     */
    ghost predicate Dressed(bound: seq<Step>, halted: Option<nat>, services0: map<PlatformAccessory, seq<ServiceType>>,
                            values0: map<PlatformAccessory, map<Characteristic, string>>)
      reads this`accessories, accessories`context, accessories`services, accessories`values
    {
      forall a | a in accessories ::
        && a in services0 && a in values0
        && (a in Restored(bound, accessories) ==>
              && "policy" in a.context
              && a.services == WithService(services0[a], Switch)
              && a.values == PolicyInformation(values0[a], a.context["policy"]))
        && (a !in Restored(bound, accessories) ==>
              && a.services == services0[a]
              && a.values == if Halts(halted, a) then PartialInformation(values0[a]) else values0[a])
    }

    /** `a` is the cached accessory at index `halted`. */
    ghost predicate Halts(halted: Option<nat>, a: PlatformAccessory)
      reads this`accessories
    {
      halted.Some? && halted.value < |accessories| && accessories[halted.value] == a
    }

    /** A Restore step whose cached accessory has a context: a new switch is bound to it. */
    method BindRestored(c: nat, k: nat, entry: EntryConfig, objects: seq<PolicyObject>, site: Site,
                        ghost run: RunState, ghost regs0: seq<seq<PlatformAccessory>>, ghost handlers0: seq<PolicySwitch>)
      returns (ghost next: RunState)
      requires c < |accessories| && k < |objects| && "policy" in accessories[c].context
      requires Recorded(run, objects, regs0, handlers0)
      modifies this`handlers, accessories`services, accessories`values
      ensures next == run.(bound := run.bound + [Restore(c, k, entry)])
      ensures Recorded(next, objects, regs0, handlers0)
      ensures accessories[c].services == WithService(old(accessories[c].services), Switch)
      ensures accessories[c].values == PolicyInformation(old(accessories[c].values), accessories[c].context["policy"])
      ensures forall a | a in accessories && a != accessories[c] :: a.services == old(a.services) && a.values == old(a.values)
    {
      var sw := new PolicySwitch(accessories[c], objects[k], entry.inverted, site);
      handlers := handlers + [sw];
      next := run.(bound := run.bound + [Restore(c, k, entry)]);
      assert handlers[|handlers0| + |run.bound|] == sw;
    }

    /** A Restore step whose cached accessory has a context, before any construction threw: it is dressed. */
    method RestoreEntry(c: nat, k: nat, entry: EntryConfig, objects: seq<PolicyObject>, site: Site,
                        ghost run: RunState, ghost regs0: seq<seq<PlatformAccessory>>, ghost handlers0: seq<PolicySwitch>,
                        ghost services0: map<PlatformAccessory, seq<ServiceType>>,
                        ghost values0: map<PlatformAccessory, map<Characteristic, string>>)
      returns (ghost next: RunState)
      requires c < |accessories| && k < |objects| && "policy" in accessories[c].context && run.halted == None
      requires Recorded(run, objects, regs0, handlers0) && Dressed(run.bound, run.halted, services0, values0)
      modifies this`handlers, accessories`services, accessories`values
      ensures next == run.(bound := run.bound + [Restore(c, k, entry)])
      ensures Recorded(next, objects, regs0, handlers0)
      ensures accessories[c].services == WithService(old(accessories[c].services), Switch)
      ensures accessories[c].values == PolicyInformation(old(accessories[c].values), accessories[c].context["policy"])
      ensures forall a | a in accessories && a != accessories[c] :: a.services == old(a.services) && a.values == old(a.values)
      ensures Dressed(next.bound, next.halted, services0, values0)
    {
      next := BindRestored(c, k, entry, objects, site, run, regs0, handlers0);
      assert next.bound[..|next.bound| - 1] == run.bound;
      assert Restored(next.bound, accessories) == Restored(run.bound, accessories) + {accessories[c]};
      PolicyInformationIdempotent(values0[accessories[c]], accessories[c].context["policy"]);
    }

    /**
     * A Restore step whose cached accessory has no policy context: the switch
     * constructor writes the manufacturer and the model, then throws; the
     * error is logged and swallowed, and the pass stops.
     */
    method HaltEntry(c: nat, objects: seq<PolicyObject>,
                     ghost run: RunState, ghost regs0: seq<seq<PlatformAccessory>>, ghost handlers0: seq<PolicySwitch>,
                     ghost services0: map<PlatformAccessory, seq<ServiceType>>,
                     ghost values0: map<PlatformAccessory, map<Characteristic, string>>)
      returns (ghost next: RunState)
      requires c < |accessories| && "policy" !in accessories[c].context && run.halted == None
      requires Recorded(run, objects, regs0, handlers0) && Dressed(run.bound, run.halted, services0, values0)
      modifies accessories`values
      ensures next == run.(stopped := true, halted := Some(c))
      ensures accessories[c].values == PartialInformation(old(accessories[c].values))
      ensures forall a | a in accessories && a != accessories[c] :: a.values == old(a.values)
      ensures Recorded(next, objects, regs0, handlers0)
      ensures Dressed(next.bound, next.halted, services0, values0)
    {
      var error := ConstructWithoutPolicy(accessories[c]);
      next := run.(stopped := true, halted := Some(c));
    }

    /**
     * A Create step: a new accessory stamped with the entry, its switch bound,
     * then registered; the register fails when the host already bridges the UUID.
     */
    method CreateAndRegister(uuid: string, k: nat, entry: EntryConfig, objects: seq<PolicyObject>, site: Site,
                             ghost run: RunState, ghost regs0: seq<seq<PlatformAccessory>>, ghost handlers0: seq<PolicySwitch>)
      returns (stopped: bool, ghost next: RunState)
      requires k < |objects|
      requires Recorded(run, objects, regs0, handlers0)
      modifies this`handlers, api
      ensures next == RunState(uuid in run.bridged, run.bound + [Create(uuid, k, entry)],
                               run.created + [Create(uuid, k, entry)], run.bridged + {uuid}, run.halted)
      ensures stopped == next.stopped
      ensures Recorded(next, objects, regs0, handlers0)
    {
      var step := Create(uuid, k, entry);
      var accessory, sw := NewPolicyAccessory(uuid, entry, objects[k], site);
      handlers := handlers + [sw];
      var registered := api.RegisterPlatformAccessories([accessory]);
      assert (set a | a in [accessory] :: a.uuid) == {uuid};
      assert registered.Fail? <==> uuid in run.bridged by {
        assert accessory in [accessory];
      }
      // a duplicate-UUID error is logged and swallowed
      stopped := registered.Fail?;
      next := RunState(stopped, run.bound + [step], run.created + [step], api.bridged, run.halted);
      assert handlers[|handlers0| + |run.bound|] == sw;
      assert api.registrations[|regs0| + |run.created|] == [accessory];
      RegisteredAppend(old(api.registrations), [accessory]);
    }

    /** A Create step, which leaves every cached accessory as it was. */
    method CreateEntry(uuid: string, k: nat, entry: EntryConfig, objects: seq<PolicyObject>, site: Site,
                       ghost run: RunState, ghost regs0: seq<seq<PlatformAccessory>>, ghost handlers0: seq<PolicySwitch>,
                       ghost services0: map<PlatformAccessory, seq<ServiceType>>,
                       ghost values0: map<PlatformAccessory, map<Characteristic, string>>)
      returns (stopped: bool, ghost next: RunState)
      requires k < |objects|
      requires Recorded(run, objects, regs0, handlers0) && Dressed(run.bound, run.halted, services0, values0)
      modifies this`handlers, api
      ensures next == RunState(uuid in run.bridged, run.bound + [Create(uuid, k, entry)],
                               run.created + [Create(uuid, k, entry)], run.bridged + {uuid}, run.halted)
      ensures stopped == next.stopped
      ensures Recorded(next, objects, regs0, handlers0) && Dressed(next.bound, next.halted, services0, values0)
    {
      // a Create step restores no cached accessory
      assert (run.bound + [Create(uuid, k, entry)])[..|run.bound|] == run.bound;
      assert Dressed(run.bound + [Create(uuid, k, entry)], run.halted, services0, values0);
      stopped, next := CreateAndRegister(uuid, k, entry, objects, site, run, regs0, handlers0);
    }

    /** One entry of the loop of `discoverUniFi9Policies`, while no error has stopped it. */
    method ReconcileEntry(entry: EntryConfig, payload: seq<Json>, objects: seq<PolicyObject>, site: Site,
                          ghost run: RunState, ghost flags: seq<bool>,
                          ghost regs0: seq<seq<PlatformAccessory>>, ghost handlers0: seq<PolicySwitch>,
                          ghost services0: map<PlatformAccessory, seq<ServiceType>>,
                          ghost values0: map<PlatformAccessory, map<Characteristic, string>>)
      returns (stopped: bool, ghost next: RunState)
      requires |objects| == |payload| && !run.stopped && run.halted == None && FlagsOf(flags)
      requires Recorded(run, objects, regs0, handlers0) && Dressed(run.bound, run.halted, services0, values0)
      modifies this`handlers, api, accessories`services, accessories`values
      ensures next == Advance(run, StepFor(entry, payload, accessories, api.generate), flags)
      ensures stopped == next.stopped
      ensures Recorded(next, objects, regs0, handlers0)
      ensures Dressed(next.bound, next.halted, services0, values0)
    {
      var step := StepFor(entry, payload, accessories, api.generate);
      match step {
        case Unmatched =>
          // the entry is warned about and skipped
          stopped, next := false, run;
        case Fault(_) =>
          // reading `_id` of a null or undefined item throws; the error is logged and swallowed
          stopped, next := true, run.(stopped := true);
        case Restore(c, k, e) =>
          if "policy" in accessories[c].context {
            next := RestoreEntry(c, k, e, objects, site, run, regs0, handlers0, services0, values0);
            stopped := false;
          } else {
            next := HaltEntry(c, objects, run, regs0, handlers0, services0, values0);
            stopped := true;
          }
        case Create(uuid, k, e) =>
          stopped, next := CreateEntry(uuid, k, e, objects, site, run, regs0, handlers0, services0, values0);
      }
    }

    /**
     * The state of the loop of `discoverUniFi9Policies` after `i` entries:
     * `run` is the pass over the first `i` steps, and the host, the handler
     * list and the cached accessories are as `run` records.
     */
    ghost predicate Progress(i: nat, steps: seq<Step>, run: RunState, flags: seq<bool>, bridged0: set<string>,
                             objects: seq<PolicyObject>, regs0: seq<seq<PlatformAccessory>>, handlers0: seq<PolicySwitch>,
                             services0: map<PlatformAccessory, seq<ServiceType>>,
                             values0: map<PlatformAccessory, map<Characteristic, string>>)
      reads this, api, RegisteredObjects(api.registrations)`context
      reads accessories`context, accessories`services, accessories`values
    {
      && i <= |steps|
      && Run(steps[..i], flags, bridged0) == run
      && FlagsOf(flags)
      && Recorded(run, objects, regs0, handlers0)
      && Dressed(run.bound, run.halted, services0, values0)
    }

    /** The `i`th entry of the loop: the pass so far is extended by its step. */
    method ReconcileAt(i: nat, payload: seq<Json>, objects: seq<PolicyObject>, site: Site,
                       ghost steps: seq<Step>, ghost run: RunState, ghost flags: seq<bool>, ghost bridged0: set<string>,
                       ghost regs0: seq<seq<PlatformAccessory>>, ghost handlers0: seq<PolicySwitch>,
                       ghost services0: map<PlatformAccessory, seq<ServiceType>>,
                       ghost values0: map<PlatformAccessory, map<Characteristic, string>>)
      returns (stopped: bool, ghost next: RunState)
      requires steps == Steps(config.unifi9Policies, payload, accessories, api.generate)
      requires i < |steps| && |objects| == |payload| && !run.stopped
      requires Progress(i, steps, run, flags, bridged0, objects, regs0, handlers0, services0, values0)
      modifies this`handlers, api, accessories`services, accessories`values
      ensures stopped == next.stopped
      ensures Progress(i + 1, steps, next, flags, bridged0, objects, regs0, handlers0, services0, values0)
    {
      RunStep(steps, i, flags, bridged0);
      stopped, next := ReconcileEntry(config.unifi9Policies[i], payload, objects, site, run, flags, regs0, handlers0,
                                      services0, values0);
    }

    /**
     * The loop of `discoverUniFi9Policies` over the configured entries, against
     * the fetched `payload` and its policy objects. An error stops the loop and
     * is swallowed.
     */
    method Reconcile(payload: seq<Json>, objects: seq<PolicyObject>, site: Site) returns (ghost run: RunState)
      requires |objects| == |payload|
      modifies this`handlers, api, accessories`services, accessories`values
      ensures run == Run(Steps(config.unifi9Policies, payload, accessories, api.generate),
                         old(ContextFlags(accessories)), old(api.bridged))
      ensures Recorded(run, objects, old(api.registrations), old(handlers))
      ensures Dressed(run.bound, run.halted, old(ServicesOf()), old(ValuesOf()))
    {
      var entries := config.unifi9Policies;
      ghost var steps := Steps(entries, payload, accessories, api.generate);
      ghost var flags := ContextFlags(accessories);
      ghost var regs0 := api.registrations;
      ghost var handlers0 := handlers;
      ghost var services0 := ServicesOf();
      ghost var values0 := ValuesOf();
      run := RunState(false, [], [], api.bridged, None);
      var stopped := false;
      var i := 0;
      while i < |entries| && !stopped
        invariant 0 <= i <= |entries|
        invariant stopped == run.stopped
        invariant Progress(i, steps, run, flags, old(api.bridged), objects, regs0, handlers0, services0, values0)
        decreases |entries| - i
      {
        stopped, run := ReconcileAt(i, payload, objects, site, steps, run, flags, old(api.bridged), regs0, handlers0,
                                    services0, values0);
        i := i + 1;
      }
      RunEnds(steps, i, flags, old(api.bridged));
    }

    /** `discoverUniFi9Policies`: fetch the policies, then reconcile every configured entry with them. */
    method DiscoverPolicies(site: Site, remote: Remote) returns (ghost policies: seq<PolicyObject>, ghost run: RunState)
      modifies this`handlers, api, accessories`services, accessories`values
      ensures var payload := ProbeResult(ListRequests(site.name), remote);
        && Mirrors(policies, payload)
        && (forall k | 0 <= k < |policies| :: fresh(policies[k]))
        && run == Run(Steps(config.unifi9Policies, payload, accessories, api.generate),
                      old(ContextFlags(accessories)), old(api.bridged))
        && Recorded(run, policies, old(api.registrations), old(handlers))
        && Dressed(run.bound, run.halted, old(ServicesOf()), old(ValuesOf()))
    {
      var manager := new PolicyManager(site);
      ghost var requested;
      var payload;
      payload, requested := manager.GetPolicies(remote);
      var objects := AllocatePolicies(payload);
      policies := objects;
      run := Reconcile(payload, objects, site);
    }

    /** The login to the controller and the site lookup of `discoverDevices`. */
    method Connect(login: Outcome<string>, sites: Result<seq<Site>, string>) returns (selected: Result<Site, string>)
      ensures selected == SelectSite(config.unifi.site, login, sites)
    {
      var controller := new Controller(ControllerProps(config.unifi.url, config.unifi.username,
                                                       config.unifi.password, false));
      var loggedIn := controller.Login(login);
      selected := SelectSite(config.unifi.site, login, sites);
    }

    /** `discoverDevices`: log in, select the configured site, and reconcile policies when any are configured. */
    method DiscoverDevices(login: Outcome<string>, sites: Result<seq<Site>, string>, remote: Remote)
      returns (r: Outcome<string>, ghost policies: seq<PolicyObject>, ghost run: RunState)
      modifies this`handlers, api, accessories`services, accessories`values
      ensures var selected := SelectSite(config.unifi.site, login, sites);
        && (selected.Failure? ==> r == Fail(selected.error))
        && (selected.Success? ==> r == Pass)
        && (selected.Failure? || config.unifi9Policies == [] ==>
              handlers == old(handlers) && unchanged(api) && policies == []
              && ServicesOf() == old(ServicesOf()) && ValuesOf() == old(ValuesOf()))
        && (selected.Success? && config.unifi9Policies != [] ==>
              var payload := ProbeResult(ListRequests(selected.value.name), remote);
              && Mirrors(policies, payload)
              && run == Run(Steps(config.unifi9Policies, payload, accessories, api.generate),
                            old(ContextFlags(accessories)), old(api.bridged))
              && Recorded(run, policies, old(api.registrations), old(handlers))
              && Dressed(run.bound, run.halted, old(ServicesOf()), old(ValuesOf())))
    {
      policies := [];
      run := RunState(false, [], [], api.bridged, None);
      ghost var flags := ContextFlags(accessories);
      var selected := Connect(login, sites);
      if selected.Failure? {
        return Fail(selected.error), policies, run;
      }
      if |config.unifi9Policies| > 0 {
        assert ContextFlags(accessories) == flags;
        policies, run := DiscoverPolicies(selected.value, remote);
      }
      r := Pass;
    }
  }
}
