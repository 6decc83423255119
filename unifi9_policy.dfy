/**
 * Zone-based firewall policies (src/unifi9Policy.ts): listing by probing an
 * ordered table of GET endpoints, and updating through an ordered table of PUT
 * endpoints. The controller's HTTP instance is a function from requests to
 * replies; success of a write and truthiness of a listed payload decide where
 * each probe stops.
 */
module Unifi9Policy {
  import opened Wrappers
  import opened Seqs
  import opened Json
  import opened UnifiClient

  /** The options object of one request: `apiVersion`, `apiPart` and `urlParams`. */
  datatype ApiOptions = ApiOptions(apiVersion: Option<nat>, apiPart: bool, urlParams: map<string, string>)

  /** One row of an endpoint table. */
  datatype Endpoint = Endpoint(url: string, options: ApiOptions)

  datatype Verb = HttpGet | HttpPut

  /** A request as handed to the controller's HTTP instance. */
  datatype Request = Request(verb: Verb, url: string, body: Json, options: ApiOptions)

  /** What a request produced: it threw, or it answered with `response.data`. */
  datatype Reply = Threw(message: string) | Answered(data: Json)

  /** The controller's HTTP instance (`site.getInstance()`). */
  type Remote = Request -> Reply

  const NoOptions := ApiOptions(None, false, map[])
  const ZoneBased := ApiOptions(Some(2), true, map[])

  const UpdateFailure := "Could not update policy via any known endpoint"

  /** The seven listing endpoints, in the order they are tried. */
  function ListEndpoints(siteName: string): (es: seq<Endpoint>)
    ensures |es| == 7
    ensures forall i | 0 <= i < |es| :: es[i].options.urlParams == map[] || es[i].options.urlParams == map["site" := siteName]
    ensures forall i | 0 <= i < |es| :: es[i].options.apiPart <==> i == 2
  {
    [ Endpoint("/proxy/network/v2/api/site/" + siteName + "/firewall-policies", NoOptions),
      Endpoint("/proxy/network/v2/api/site/default/firewall-policies", NoOptions),
      Endpoint("/firewall-policies", ZoneBased),
      Endpoint("/rest/firewallpolicy", NoOptions),
      Endpoint("/rest/policy", NoOptions),
      Endpoint("/api/s/:site/rest/firewallpolicy", ApiOptions(None, false, map["site" := siteName])),
      Endpoint("/api/s/:site/rest/policy", ApiOptions(None, false, map["site" := siteName])) ]
  }

  /** The five update endpoints, in the order they are tried. */
  function UpdateEndpoints(siteName: string, policyId: string): (es: seq<Endpoint>)
    ensures |es| == 5
    ensures forall i | 0 <= i < |es| :: es[i].options.urlParams == map[]
    ensures forall i | 0 <= i < |es| :: es[i].options.apiPart <==> i == 0
    ensures forall i | 0 <= i < |es| :: |policyId| < |es[i].url| && es[i].url[|es[i].url| - |policyId|..] == policyId
  {
    [ Endpoint("/firewall-policies/" + policyId, ZoneBased),
      Endpoint("/proxy/network/v2/api/site/" + siteName + "/firewall-policies/" + policyId, NoOptions),
      Endpoint("/proxy/network/v2/api/site/default/firewall-policies/" + policyId, NoOptions),
      Endpoint("/rest/firewallpolicy/" + policyId, NoOptions),
      Endpoint("/rest/policy/" + policyId, NoOptions) ]
  }

  /** For the site named "default" the first two rows of each table coincide, and so do their requests. */
  lemma DefaultSiteRepeatsRows(policyId: string)
    ensures ListEndpoints("default")[0] == ListEndpoints("default")[1]
    ensures UpdateEndpoints("default", policyId)[1] == UpdateEndpoints("default", policyId)[2]
  {
    var base := "/proxy/network/v2/api/site/";
    assert base + "default" + "/firewall-policies" == "/proxy/network/v2/api/site/default/firewall-policies";
    assert base + "default" + "/firewall-policies/" + policyId
        == "/proxy/network/v2/api/site/default/firewall-policies/" + policyId;
  }

  /** `{...options, urlParams: {site, ...(options.urlParams || {})}}`. */
  function ListRequest(siteName: string, e: Endpoint): (q: Request)
    ensures q.verb == HttpGet && q.url == e.url && q.body == Undefined
    ensures q.options.apiVersion == e.options.apiVersion && q.options.apiPart == e.options.apiPart
  {
    Request(HttpGet, e.url, Undefined, e.options.(urlParams := map["site" := siteName] + e.options.urlParams))
  }

  /** The spread of `urlParams`: `site` is always set, and an endpoint's own parameters win. */
  lemma ListRequestParams(siteName: string, e: Endpoint)
    ensures var p := ListRequest(siteName, e).options.urlParams;
      && p.Keys == {"site"} + e.options.urlParams.Keys
      && p["site"] == (if "site" in e.options.urlParams then e.options.urlParams["site"] else siteName)
      && forall k | k in e.options.urlParams :: p[k] == e.options.urlParams[k]
  {
  }

  /** The PUT of body `{enabled}` with `urlParams: {site, id}`. */
  function UpdateRequest(siteName: string, policyId: string, enabled: bool, e: Endpoint): (q: Request)
    ensures q.verb == HttpPut && q.url == e.url
    ensures q.options.apiVersion == e.options.apiVersion && q.options.apiPart == e.options.apiPart
  {
    Request(HttpPut, e.url, Obj(map["enabled" := Bool(enabled)]),
      e.options.(urlParams := map["site" := siteName, "id" := policyId]))
  }

  /** The listing requests built from an endpoint table, one per row, in order. */
  function ListRequestsFor(siteName: string, es: seq<Endpoint>): (qs: seq<Request>)
    ensures |qs| == |es|
    ensures forall i | 0 <= i < |qs| :: qs[i] == ListRequest(siteName, es[i])
  {
    seq(|es|, i requires 0 <= i < |es| => ListRequest(siteName, es[i]))
  }

  /** The update requests built from an endpoint table, one per row, in order. */
  function UpdateRequestsFor(siteName: string, policyId: string, enabled: bool, es: seq<Endpoint>): (qs: seq<Request>)
    ensures |qs| == |es|
    ensures forall i | 0 <= i < |qs| :: qs[i] == UpdateRequest(siteName, policyId, enabled, es[i])
  {
    seq(|es|, i requires 0 <= i < |es| => UpdateRequest(siteName, policyId, enabled, es[i]))
  }

  function ListRequests(siteName: string): seq<Request> {
    ListRequestsFor(siteName, ListEndpoints(siteName))
  }

  function UpdateRequests(siteName: string, policyId: string, enabled: bool): seq<Request> {
    UpdateRequestsFor(siteName, policyId, enabled, UpdateEndpoints(siteName, policyId))
  }

  /** `response.data?.data || response.data`. */
  function Unwrap(data: Json): (r: Json)
    ensures data.Obj? && "data" in data.fields && Truthy(data.fields["data"]) ==> r == data.fields["data"]
    ensures !(data.Obj? && "data" in data.fields && Truthy(data.fields["data"])) ==> r == data
  {
    Or(Get(data, "data"), data)
  }

  /** `Array.isArray(v) ? v : [v]`. */
  function Normalise(v: Json): (r: seq<Json>)
    ensures v.Arr? ==> r == v.items
    ensures !v.Arr? ==> |r| == 1 && r[0] == v
  {
    if v.Arr? then v.items else [v]
  }

  /** A listing reply that ends the probe: it answered and its unwrapped payload is truthy. */
  predicate Found(r: Reply) {
    r.Answered? && Truthy(Unwrap(r.data))
  }

  /** Index of the listing request that ends the probe, if any. */
  function ProbeStop(qs: seq<Request>, remote: Remote): Option<nat> {
    Find(qs, q => Found(remote(q)))
  }

  /** What the probe returns. */
  function ProbeResult(qs: seq<Request>, remote: Remote): seq<Json> {
    match ProbeStop(qs, remote)
    case None => []
    case Some(k) => Normalise(Unwrap(remote(qs[k]).data))
  }

  /** The requests the probe issues, in order. */
  function ProbeTrace(qs: seq<Request>, remote: Remote): seq<Request> {
    match ProbeStop(qs, remote)
    case None => qs
    case Some(k) => qs[..k + 1]
  }

  /** Index of the PUT that does not throw, if any. */
  function UpdateStop(qs: seq<Request>, remote: Remote): Option<nat> {
    Find(qs, q => remote(q).Answered?)
  }

  function UpdateResult(qs: seq<Request>, remote: Remote): Outcome<string> {
    if UpdateStop(qs, remote).Some? then Pass else Fail(UpdateFailure)
  }

  function UpdateTrace(qs: seq<Request>, remote: Remote): seq<Request> {
    match UpdateStop(qs, remote)
    case None => qs
    case Some(k) => qs[..k + 1]
  }

  lemma ProbeStopsAt(qs: seq<Request>, remote: Remote, k: nat)
    requires k < |qs| && Found(remote(qs[k]))
    requires forall j | 0 <= j < k :: !Found(remote(qs[j]))
    ensures ProbeStop(qs, remote) == Some(k)
  {
    FindIsFirst(qs, q => Found(remote(q)), k);
  }

  lemma UpdateStopsAt(qs: seq<Request>, remote: Remote, k: nat)
    requires k < |qs| && remote(qs[k]).Answered?
    requires forall j | 0 <= j < k :: remote(qs[j]).Threw?
    ensures UpdateStop(qs, remote) == Some(k)
  {
    FindIsFirst(qs, q => remote(q).Answered?, k);
  }

  /** An update succeeds after the first PUT that answers, and issues no later request. */
  lemma UpdateReturnsFirstAnswer(qs: seq<Request>, remote: Remote, k: nat)
    requires k < |qs| && remote(qs[k]).Answered?
    requires forall j | 0 <= j < k :: remote(qs[j]).Threw?
    ensures UpdateResult(qs, remote) == Pass && UpdateTrace(qs, remote) == qs[..k + 1]
  {
    UpdateStopsAt(qs, remote, k);
  }

  /** The probe returns the normalised payload of the first endpoint that answers truthily, and issues no later request. */
  lemma ProbeReturnsFirstFound(qs: seq<Request>, remote: Remote, k: nat)
    requires k < |qs| && Found(remote(qs[k]))
    requires forall j | 0 <= j < k :: !Found(remote(qs[j]))
    ensures ProbeResult(qs, remote) == Normalise(Unwrap(remote(qs[k]).data))
    ensures ProbeTrace(qs, remote) == qs[..k + 1]
  {
    ProbeStopsAt(qs, remote, k);
  }

  /** Every request is issued at most once, in table order: the trace is a prefix of the table. */
  lemma ProbeTraceIsPrefix(qs: seq<Request>, remote: Remote)
    ensures var t := ProbeTrace(qs, remote); |t| <= |qs| && t == qs[..|t|]
    ensures forall j | 0 <= j < |ProbeTrace(qs, remote)| - 1 :: !Found(remote(qs[j]))
  {
  }

  /** When no endpoint answers truthily the probe has tried them all and returns the empty list. */
  lemma ProbeExhausted(qs: seq<Request>, remote: Remote)
    ensures ProbeStop(qs, remote).None? <==> forall j | 0 <= j < |qs| :: !Found(remote(qs[j]))
    ensures ProbeStop(qs, remote).None? ==> ProbeResult(qs, remote) == [] && ProbeTrace(qs, remote) == qs
  {
  }

  /** The probe returns the empty list exactly when it is exhausted or it stops at an empty array. */
  lemma ProbeEmptyIff(qs: seq<Request>, remote: Remote)
    ensures ProbeResult(qs, remote) == [] <==>
      (ProbeStop(qs, remote).None? || Unwrap(remote(qs[ProbeStop(qs, remote).value]).data) == Arr([]))
  {
  }

  /** An answer `[]` or `{data: []}` is truthy, so it ends the probe with the empty list. */
  lemma EmptyArrayEndsProbe(qs: seq<Request>, remote: Remote, k: nat)
    requires k < |qs| && remote(qs[k]) in [Answered(Arr([])), Answered(Obj(map["data" := Arr([])]))]
    requires forall j | 0 <= j < k :: !Found(remote(qs[j]))
    ensures ProbeResult(qs, remote) == [] && ProbeTrace(qs, remote) == qs[..k + 1]
  {
    ProbeStopsAt(qs, remote, k);
  }

  /** How the three payload shapes unwrap: a bare array, an `{data: [...]}` envelope, and a single object. */
  lemma PayloadShapes(xs: seq<Json>, fields: map<string, Json>)
    ensures Normalise(Unwrap(Arr(xs))) == xs
    ensures Normalise(Unwrap(Obj(map["data" := Arr(xs)]))) == xs
    ensures !Truthy(Get(Obj(fields), "data")) ==> Normalise(Unwrap(Obj(fields))) == [Obj(fields)]
  {
  }

  /** Every listing request carries `urlParams` exactly `{site: site.name}`. */
  lemma ListRequestsCarrySite(siteName: string)
    ensures |ListRequests(siteName)| == 7
    ensures forall q | q in ListRequests(siteName) ::
      q.verb == HttpGet && q.options.urlParams == map["site" := siteName]
  {
    var qs := ListRequests(siteName);
    var es := ListEndpoints(siteName);
    forall i | 0 <= i < |qs|
      ensures qs[i].verb == HttpGet && qs[i].options.urlParams == map["site" := siteName]
    {
      var own := es[i].options.urlParams;
      assert own == map[] || own == map["site" := siteName];
      assert qs[i].options.urlParams == map["site" := siteName] + own;
    }
  }

  /** Every update request is a PUT of `{enabled}` to one of the five endpoints, with `urlParams` `{site, id}`. */
  lemma UpdateRequestsCarryBody(siteName: string, policyId: string, enabled: bool)
    ensures |UpdateRequests(siteName, policyId, enabled)| == 5
    ensures forall q | q in UpdateRequests(siteName, policyId, enabled) ::
      && q.verb == HttpPut
      && q.body == Obj(map["enabled" := Bool(enabled)])
      && q.options.urlParams == map["site" := siteName, "id" := policyId]
  {
  }

  /** An update fails exactly when every PUT throws, and then all of them were tried. */
  lemma UpdateFailsIffAllThrow(qs: seq<Request>, remote: Remote)
    ensures UpdateResult(qs, remote) == Fail(UpdateFailure) <==> forall j | 0 <= j < |qs| :: remote(qs[j]).Threw?
    ensures UpdateResult(qs, remote).Fail? ==> UpdateTrace(qs, remote) == qs
    ensures UpdateResult(qs, remote).Pass? ==>
      var t := UpdateTrace(qs, remote); |t| > 0 && remote(t[|t| - 1]).Answered?
  {
  }

  /** `UniFi9PolicyManager`: the site whose policies it lists and updates. */
  class PolicyManager {
    const site: Site

    constructor (site: Site)
      ensures this.site == site
    {
      this.site := site;
    }

    /** `getPolicies`: the first endpoint whose unwrapped payload is truthy decides the list; it never throws. */
    method GetPolicies(remote: Remote) returns (policies: seq<Json>, ghost requested: seq<Request>)
      ensures policies == ProbeResult(ListRequests(site.name), remote)
      ensures requested == ProbeTrace(ListRequests(site.name), remote)
    {
      policies, requested := Probe(site.name, ListEndpoints(site.name), remote);
    }

    /** `updatePolicy`: returns after the first PUT that does not throw, and throws if all of them do. */
    method UpdatePolicy(policyId: string, enabled: bool, remote: Remote)
      returns (r: Outcome<string>, ghost attempted: seq<Request>)
      ensures r == UpdateResult(UpdateRequests(site.name, policyId, enabled), remote)
      ensures attempted == UpdateTrace(UpdateRequests(site.name, policyId, enabled), remote)
    {
      r, attempted := TryUpdates(site.name, policyId, enabled, UpdateEndpoints(site.name, policyId), remote);
    }
  }

  /** One listing reply: whether it answered with a truthy payload, and that payload as a list. */
  method Inspect(reply: Reply) returns (found: bool, listed: seq<Json>)
    ensures found == Found(reply)
    ensures found ==> listed == Normalise(Unwrap(reply.data))
  {
    if reply.Answered? {
      var responseData := Unwrap(reply.data);
      if Truthy(responseData) {
        return true, Normalise(responseData);
      }
    }
    return false, [];
  }

  /** The loop of `getPolicies` over an endpoint table: one GET per row until a payload is truthy. */
  method Probe(siteName: string, endpoints: seq<Endpoint>, remote: Remote)
    returns (policies: seq<Json>, ghost requested: seq<Request>)
    ensures policies == ProbeResult(ListRequestsFor(siteName, endpoints), remote)
    ensures requested == ProbeTrace(ListRequestsFor(siteName, endpoints), remote)
  {
    ghost var qs := ListRequestsFor(siteName, endpoints);
    requested := [];
    for i := 0 to |endpoints|
      invariant requested == qs[..i]
      invariant forall j | 0 <= j < i :: !Found(remote(qs[j]))
    {
      var request := ListRequest(siteName, endpoints[i]);
      requested := requested + [request];
      var found, listed := Inspect(remote(request));
      if found {
        ProbeReturnsFirstFound(qs, remote, i);
        return listed, requested;
      }
    }
    assert requested == qs;
    ProbeExhausted(qs, remote);
    return [], requested;
  }

  /** The loop of `updatePolicy` over an endpoint table: one PUT per row until one does not throw. */
  method TryUpdates(siteName: string, policyId: string, enabled: bool, endpoints: seq<Endpoint>, remote: Remote)
    returns (r: Outcome<string>, ghost attempted: seq<Request>)
    ensures r == UpdateResult(UpdateRequestsFor(siteName, policyId, enabled, endpoints), remote)
    ensures attempted == UpdateTrace(UpdateRequestsFor(siteName, policyId, enabled, endpoints), remote)
  {
    ghost var qs := UpdateRequestsFor(siteName, policyId, enabled, endpoints);
    attempted := [];
    for i := 0 to |endpoints|
      invariant attempted == qs[..i]
      invariant forall j | 0 <= j < i :: remote(qs[j]).Threw?
    {
      var request := UpdateRequest(siteName, policyId, enabled, endpoints[i]);
      attempted := attempted + [request];
      var reply := remote(request);
      if reply.Answered? {
        UpdateReturnsFirstAnswer(qs, remote, i);
        return Pass, attempted;
      }
    }
    assert attempted == qs;
    UpdateFailsIffAllThrow(qs, remote);
    return Fail(UpdateFailure), attempted;
  }
}
