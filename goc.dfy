/**
 * The GOCDB client of goc.py: which sites support which VO, and which
 * sites take part in which SLA, built from the SLA service groups and a
 * memoising lookup of the site behind each service endpoint.
 *
 * Fetching the service groups and querying the GOCDB for an endpoint are
 * left to the outside: the groups are a parameter and the endpoint query
 * is the function `remote` of the `GOCDB` object.
 */
module Goc {
  import opened Wrappers
  import opened GocSlaName

  /** `SERVICE_TYPES`: the only endpoint type whose site is looked up. */
  const ServiceTypes: seq<string> := ["org.openstack.nova"]

  /** The value standing for the sites of an SLA that covers several VOs. */
  const MultipleVos: string := "sla-group-with-multiple-vos"

  /** A `SERVICE_ENDPOINT` record as the GOCDB returns it; empty when nothing was found. */
  type Service = map<string, string>

  const SiteNameKey: string := "SITENAME"

  /** A service endpoint of a service group. */
  datatype Endpoint = Endpoint(primaryKey: string, serviceType: Option<string>, hostname: Option<string>)

  /** The `SERVICE_ENDPOINT` entry of a group: missing, a lone record, or a list. */
  datatype EndpointField = NoEndpoints | Lone(endpoint: Endpoint) | Listed(endpoints: seq<Endpoint>)

  datatype Group = Group(name: string, endpoints: EndpointField)

  /** The SLA configuration: SLA name to its list of VOs, which may be null. */
  type VoMap = map<string, Option<seq<string>>>

  /** The parameters of a `get_service` query. */
  datatype Query = Query(hostname: Option<string>, serviceType: Option<string>)

  /** The lookup cache (endpoint primary key to service) and the number of GOCDB queries made. */
  datatype GocState = GocState(cache: map<string, Service>, queries: nat)

  /** Only services with some content are ever cached. */
  predicate CacheValid(cache: map<string, Service>)
  {
    forall k :: k in cache ==> cache[k] != map[]
  }

  // ---------------------------------------------------------------------
  // flatten_vo_map

  /** The VOs listed by the SLAs among `slas`. */
  function FlattenOver(voMap: VoMap, slas: set<string>): set<string>
  {
    set sla, vo | sla in slas && sla in voMap && voMap[sla].Some? && vo in voMap[sla].value :: vo
  }

  /** Every VO listed by some SLA. */
  function Flatten(voMap: VoMap): set<string>
  {
    FlattenOver(voMap, voMap.Keys)
  }

  /** An SLA with a null or empty VO list adds no VO. */
  lemma FlattenIgnoresEmpty(voMap: VoMap, sla: string)
    requires sla in voMap && (voMap[sla] == None || voMap[sla] == Some([]))
    ensures Flatten(voMap) == Flatten(voMap - {sla})
  {
    var m := voMap - {sla};
    forall vo | vo in Flatten(voMap) ensures vo in Flatten(m) {
      var s :| s in voMap && voMap[s].Some? && vo in voMap[s].value;
      assert s != sla;
      assert s in m && m[s].Some? && vo in m[s].value;
    }
    forall vo | vo in Flatten(m) ensures vo in Flatten(voMap) {
      var s :| s in m && m[s].Some? && vo in m[s].value;
      assert s in voMap && voMap[s].Some? && vo in voMap[s].value;
    }
  }

  /** Taking one more SLA into the union adds exactly its VOs. */
  lemma FlattenOverAdd(voMap: VoMap, done: set<string>, sla: string)
    requires sla in voMap
    ensures FlattenOver(voMap, done + {sla})
         == FlattenOver(voMap, done) + (if voMap[sla].Some? then set vo | vo in voMap[sla].value else {})
  {
    var l := FlattenOver(voMap, done + {sla});
    var r := FlattenOver(voMap, done) + (if voMap[sla].Some? then set vo | vo in voMap[sla].value else {});
    forall vo | vo in l ensures vo in r {
      var s :| s in done + {sla} && s in voMap && voMap[s].Some? && vo in voMap[s].value;
      if s != sla {
        assert s in done && s in voMap && voMap[s].Some? && vo in voMap[s].value;
      }
    }
    forall vo | vo in r ensures vo in l {
      if vo in FlattenOver(voMap, done) {
        var s :| s in done && s in voMap && voMap[s].Some? && vo in voMap[s].value;
        assert s in done + {sla};
      } else {
        assert sla in done + {sla} && voMap[sla].Some? && vo in voMap[sla].value;
      }
    }
  }

  // ---------------------------------------------------------------------
  // get_endpoint_site

  /** What looking an endpoint up gives: the service (none for an endpoint of another type) and the new state. */
  datatype Lookup = Lookup(service: Option<Service>, state: GocState)

  function TypeOf(e: Endpoint): string
  {
    if e.serviceType.Some? then e.serviceType.value else ""
  }

  /** `get_endpoint_site`. */
  function LookupEndpoint(remote: Query -> Service, st: GocState, e: Endpoint): Lookup
  {
    if e.primaryKey in st.cache then Lookup(Some(st.cache[e.primaryKey]), st)
    else if TypeOf(e) !in ServiceTypes then Lookup(None, st)
    else
      var service := remote(Query(e.hostname, e.serviceType));
      var cache := if service != map[] then st.cache[e.primaryKey := service] else st.cache;
      Lookup(Some(service), GocState(cache, st.queries + 1))
  }

  /** Python's truth value of the looked-up service. */
  predicate Truthy(s: Option<Service>)
  {
    s.Some? && s.value != map[]
  }

  /**
   * A lookup makes at most one query, exactly when the endpoint is not
   * cached and is of a looked-up type; it keeps every cached entry and
   * caches only a non-empty answer; a cached endpoint answers from the
   * cache and one of another type answers nothing, both without a query.
   */
  lemma LookupEndpointSpec(remote: Query -> Service, st: GocState, e: Endpoint)
    requires CacheValid(st.cache)
    ensures var l := LookupEndpoint(remote, st, e);
      && CacheValid(l.state.cache)
      && (forall k :: k in st.cache ==> k in l.state.cache && l.state.cache[k] == st.cache[k])
      && (forall k :: k in l.state.cache && k !in st.cache ==> k == e.primaryKey && Truthy(l.service))
      && l.state.queries == st.queries + (if e.primaryKey !in st.cache && TypeOf(e) in ServiceTypes then 1 else 0)
      && (e.primaryKey in st.cache ==> l.state == st && Truthy(l.service))
      && (l.service.None? <==> e.primaryKey !in st.cache && TypeOf(e) !in ServiceTypes)
      && (l.service.None? ==> l.state == st)
  {}

  /**
   * Memoisation: once an endpoint has answered a non-empty service, asking
   * again answers the same service without a query or any change.
   */
  lemma LookupEndpointMemoises(remote: Query -> Service, st: GocState, e: Endpoint)
    requires Truthy(LookupEndpoint(remote, st, e).service)
    ensures var l := LookupEndpoint(remote, st, e);
      LookupEndpoint(remote, l.state, e) == l
  {}

  // ---------------------------------------------------------------------
  // Resolving the endpoints of a group to site names

  /** The endpoints of a group as a list: a lone record becomes a one-element list. */
  function EndpointList(f: EndpointField): (r: seq<Endpoint>)
    ensures f.NoEndpoints? ==> r == []
    ensures f.Lone? ==> r == [f.endpoint]
    ensures f.Listed? ==> r == f.endpoints
  {
    match f
    case NoEndpoints => []
    case Lone(e) => [e]
    case Listed(es) => es
  }

  /** A computation that may raise `KeyError: 'SITENAME'`, with the state it leaves either way. */
  datatype Found<T> = Found(value: T, state: GocState) | MissingSiteName(state: GocState)

  /**
   * Lines 68-72 (and 89-92) of goc.py: the site names of the endpoints,
   * after `found`, in endpoint order, for every lookup giving a non-empty
   * service.
   */
  function ResolveSites(remote: Query -> Service, st: GocState, endpoints: seq<Endpoint>, found: seq<string>)
    : Found<seq<string>>
    decreases |endpoints|
  {
    if endpoints == [] then Found(found, st)
    else
      var l := LookupEndpoint(remote, st, endpoints[0]);
      if !Truthy(l.service) then ResolveSites(remote, l.state, endpoints[1..], found)
      else if SiteNameKey !in l.service.value then MissingSiteName(l.state)
      else ResolveSites(remote, l.state, endpoints[1..], found + [l.service.value[SiteNameKey]])
  }

  /**
   * Resolving keeps the sites found before, adds at most one site per
   * endpoint, makes at most one query per endpoint, and keeps the cache
   * valid with every earlier entry in it.
   */
  lemma {:induction false} ResolveSitesBounds(remote: Query -> Service, st: GocState, endpoints: seq<Endpoint>,
                                              found: seq<string>)
    requires CacheValid(st.cache)
    ensures var r := ResolveSites(remote, st, endpoints, found);
      && CacheValid(r.state.cache)
      && (forall k :: k in st.cache ==> k in r.state.cache && r.state.cache[k] == st.cache[k])
      && st.queries <= r.state.queries <= st.queries + |endpoints|
      && (r.Found? ==> found <= r.value && |r.value| <= |found| + |endpoints|)
    decreases |endpoints|
  {
    if endpoints != [] {
      var l := LookupEndpoint(remote, st, endpoints[0]);
      LookupEndpointSpec(remote, st, endpoints[0]);
      if !Truthy(l.service) {
        ResolveSitesBounds(remote, l.state, endpoints[1..], found);
      } else if SiteNameKey in l.service.value {
        ResolveSitesBounds(remote, l.state, endpoints[1..], found + [l.service.value[SiteNameKey]]);
      }
    }
  }

  /**
   * Resolving `a + b` resolves `a`, then `b` from the state and the names
   * `a` left; a missing "SITENAME" in `a` stops before `b` is looked up.
   */
  lemma {:induction false} ResolveSitesConcat(remote: Query -> Service, st: GocState, a: seq<Endpoint>,
                                              b: seq<Endpoint>, found: seq<string>)
    ensures ResolveSites(remote, st, a + b, found) ==
      match ResolveSites(remote, st, a, found)
      case Found(names, st') => ResolveSites(remote, st', b, names)
      case MissingSiteName(st') => MissingSiteName(st')
    decreases |a|
  {
    if a == [] {
      assert a + b == b;
    } else {
      assert (a + b)[0] == a[0];
      assert (a + b)[1..] == a[1..] + b;
      var l := LookupEndpoint(remote, st, a[0]);
      if !Truthy(l.service) {
        ResolveSitesConcat(remote, l.state, a[1..], b, found);
      } else if SiteNameKey in l.service.value {
        ResolveSitesConcat(remote, l.state, a[1..], b, found + [l.service.value[SiteNameKey]]);
      }
    }
  }

  /**
   * One endpoint adds its "SITENAME" when its lookup gives a non-empty
   * service holding one, adds nothing when the service is missing or
   * empty, and raises when a non-empty service has no "SITENAME".
   */
  lemma ResolveSitesOne(remote: Query -> Service, st: GocState, e: Endpoint, found: seq<string>)
    ensures var l := LookupEndpoint(remote, st, e);
      ResolveSites(remote, st, [e], found) ==
        if !Truthy(l.service) then Found(found, l.state)
        else if SiteNameKey !in l.service.value then MissingSiteName(l.state)
        else Found(found + [l.service.value[SiteNameKey]], l.state)
  {
    assert [e][1..] == [];
  }

  // ---------------------------------------------------------------------
  // get_sites_vo

  /** Every VO of a multi-VO SLA, in order, now maps to the special value. */
  function MarkMultiple(sitesPerVo: map<string, seq<string>>, vos: seq<string>): map<string, seq<string>>
    decreases |vos|
  {
    if vos == [] then sitesPerVo else MarkMultiple(sitesPerVo[vos[0] := [MultipleVos]], vos[1..])
  }

  /** After marking, exactly the VOs of the SLA map to `[MultipleVos]`; the other entries stay. */
  lemma {:induction false} MarkMultipleSpec(sitesPerVo: map<string, seq<string>>, vos: seq<string>)
    ensures var r := MarkMultiple(sitesPerVo, vos);
      && (forall vo :: vo in vos ==> vo in r && r[vo] == [MultipleVos])
      && (forall vo :: vo !in vos ==> (vo in r <==> vo in sitesPerVo))
      && (forall vo :: vo !in vos && vo in sitesPerVo ==> r[vo] == sitesPerVo[vo])
    decreases |vos|
  {
    if vos != [] {
      var next := sitesPerVo[vos[0] := [MultipleVos]];
      MarkMultipleSpec(next, vos[1..]);
      var r := MarkMultiple(sitesPerVo, vos);
      forall vo | vo in vos ensures vo in r && r[vo] == [MultipleVos] {
        if vo !in vos[1..] {
          assert vo == vos[0];
        }
      }
      forall vo | vo !in vos ensures (vo in r <==> vo in sitesPerVo) && (vo in sitesPerVo ==> r[vo] == sitesPerVo[vo]) {
        assert vo !in vos[1..] && vo != vos[0];
      }
    }
  }

  /** The VO list of an SLA: nothing when the SLA is unknown or its list is null. */
  function VosOf(voMap: VoMap, sla: string): Option<seq<string>>
  {
    if sla in voMap then voMap[sla] else None
  }

  /** One iteration of the loop of `get_sites_vo`. */
  function SitesVoStep(remote: Query -> Service, voMap: VoMap, g: Group, sitesPerVo: map<string, seq<string>>,
                       st: GocState): Found<map<string, seq<string>>>
  {
    match SlaName(g.name)
    case None => Found(sitesPerVo, st)
    case Some(sla) =>
      var vos := VosOf(voMap, sla);
      if vos.Some? && |vos.value| != 1 then Found(MarkMultiple(sitesPerVo, vos.value), st)
      else if vos.None? then Found(sitesPerVo, st)
      else
        match ResolveSites(remote, st, EndpointList(g.endpoints), [])
        case MissingSiteName(st') => MissingSiteName(st')
        case Found(sites, st') => Found(sitesPerVo[vos.value[0] := sites], st')
  }

  /** The loop of `get_sites_vo` over the remaining groups. */
  function SitesVo(remote: Query -> Service, voMap: VoMap, groups: seq<Group>, sitesPerVo: map<string, seq<string>>,
                   st: GocState): Found<map<string, seq<string>>>
    decreases |groups|
  {
    if groups == [] then Found(sitesPerVo, st)
    else
      match SitesVoStep(remote, voMap, groups[0], sitesPerVo, st)
      case MissingSiteName(st') => MissingSiteName(st')
      case Found(next, st') => SitesVo(remote, voMap, groups[1..], next, st')
  }

  /**
   * A group whose name does not match, or whose SLA has no VO list, adds
   * nothing and makes no query; one whose SLA does not list exactly one VO
   * maps each of its VOs to `[MultipleVos]` and makes no query; one whose
   * SLA lists a single VO resets that VO's entry to the sites of its
   * endpoints; no other entry changes.
   */
  lemma SitesVoStepSpec(remote: Query -> Service, voMap: VoMap, g: Group, sitesPerVo: map<string, seq<string>>,
                        st: GocState)
    ensures var r := SitesVoStep(remote, voMap, g, sitesPerVo, st);
      && (SlaName(g.name).None? || VosOf(voMap, SlaName(g.name).value).None? ==> r == Found(sitesPerVo, st))
      && (SlaName(g.name).Some? && VosOf(voMap, SlaName(g.name).value).Some? ==>
            var vos := VosOf(voMap, SlaName(g.name).value).value;
            if |vos| != 1 then
              && r.Found? && r.state == st
              && (forall vo :: vo in vos ==> vo in r.value && r.value[vo] == [MultipleVos])
              && (forall vo :: vo !in vos ==> (vo in r.value <==> vo in sitesPerVo))
              && (forall vo :: vo !in vos && vo in sitesPerVo ==> r.value[vo] == sitesPerVo[vo])
            else
              var resolved := ResolveSites(remote, st, EndpointList(g.endpoints), []);
              && (r.Found? <==> resolved.Found?)
              && r.state == resolved.state
              && (r.Found? ==> r.value == sitesPerVo[vos[0] := resolved.value]))
  {
    if SlaName(g.name).Some? && VosOf(voMap, SlaName(g.name).value).Some? {
      var vos := VosOf(voMap, SlaName(g.name).value).value;
      if |vos| != 1 {
        MarkMultipleSpec(sitesPerVo, vos);
      }
    }
  }

  /** A VO of a listed SLA is in the union of all VO lists. */
  lemma InFlatten(voMap: VoMap, sla: string, vo: string)
    requires VosOf(voMap, sla).Some? && vo in VosOf(voMap, sla).value
    ensures vo in Flatten(voMap)
  {
    assert sla in voMap.Keys && voMap[sla].Some? && vo in voMap[sla].value;
  }

  /**
   * `get_sites_vo` only ever adds VOs the SLA configuration lists, so the
   * VOs of its table are among `sla_vos`.
   */
  lemma {:induction false} SitesVoKeys(remote: Query -> Service, voMap: VoMap, groups: seq<Group>,
                                       sitesPerVo: map<string, seq<string>>, st: GocState)
    requires forall vo :: vo in sitesPerVo ==> vo in Flatten(voMap)
    ensures var r := SitesVo(remote, voMap, groups, sitesPerVo, st);
      r.Found? ==> forall vo :: vo in r.value ==> vo in Flatten(voMap)
    decreases |groups|
  {
    if groups != [] {
      var g := groups[0];
      var step := SitesVoStep(remote, voMap, g, sitesPerVo, st);
      SitesVoStepSpec(remote, voMap, g, sitesPerVo, st);
      if step.Found? {
        forall vo | vo in step.value ensures vo in Flatten(voMap) {
          if vo !in sitesPerVo {
            var sla := SlaName(g.name).value;
            var vos := VosOf(voMap, sla).value;
            if |vos| == 1 {
              assert vo == vos[0];
            }
            InFlatten(voMap, sla, vo);
          }
        }
        SitesVoKeys(remote, voMap, groups[1..], step.value, step.state);
        assert SitesVo(remote, voMap, groups, sitesPerVo, st) == SitesVo(remote, voMap, groups[1..], step.value, step.state);
      }
    }
  }

  // ---------------------------------------------------------------------
  // get_sites_slas

  /** The SLAs of one site: SLA name to the set of its VOs (the `"vos"` entry). */
  type Slas = map<string, set<string>>

  /** `set(vos or [])`: the VOs of an SLA as a set, empty when unknown or null. */
  function VoSet(voMap: VoMap, sla: string): set<string>
  {
    var vos := VosOf(voMap, sla);
    if vos.Some? then set vo | vo in vos.value else {}
  }

  /** The SLAs recorded for a site so far, none when it is not in the table. */
  function SlasOf(sites: map<string, Slas>, site: string): Slas
  {
    if site in sites then sites[site] else map[]
  }

  /** Records that `site` takes part in `sla`, keeping its other SLAs. */
  function InsertSla(sites: map<string, Slas>, site: string, sla: string, vos: set<string>): map<string, Slas>
  {
    sites[site := SlasOf(sites, site)[sla := vos]]
  }

  /** Lines 89-98 of goc.py: insert an SLA for every site found, in order. */
  function InsertAll(sites: map<string, Slas>, names: seq<string>, sla: string, vos: set<string>): map<string, Slas>
    decreases |names|
  {
    if names == [] then sites else InsertAll(InsertSla(sites, names[0], sla, vos), names[1..], sla, vos)
  }

  /**
   * After inserting an SLA for a list of sites, the table holds exactly
   * the earlier sites and the listed ones; each listed site keeps its
   * other SLAs and has this SLA with its VO set; every other site is
   * unchanged. Repeated names change nothing more.
   */
  lemma {:induction false} InsertAllSpec(sites: map<string, Slas>, names: seq<string>, sla: string, vos: set<string>)
    ensures var r := InsertAll(sites, names, sla, vos);
      && (forall s :: s in r <==> s in sites || s in names)
      && (forall s :: s in r ==> r[s] == if s in names then SlasOf(sites, s)[sla := vos] else sites[s])
    decreases |names|
  {
    if names != [] {
      var next := InsertSla(sites, names[0], sla, vos);
      InsertAllSpec(next, names[1..], sla, vos);
      var r := InsertAll(sites, names, sla, vos);
      forall s ensures s in r <==> s in sites || s in names {
        assert s in names <==> s == names[0] || s in names[1..];
      }
      forall s | s in r ensures r[s] == if s in names then SlasOf(sites, s)[sla := vos] else sites[s] {
        assert s in names <==> s == names[0] || s in names[1..];
        if s == names[0] {
          assert SlasOf(next, s) == SlasOf(sites, s)[sla := vos];
          assert SlasOf(next, s)[sla := vos] == SlasOf(sites, s)[sla := vos];
        }
      }
    }
  }

  // Lines 93-98 of goc.py as written read `sites.get("site", dict())`, with
  // the literal "site" where the variable `site` is evidently meant. The
  // dictionary it gets back is the one stored under the key "site", shared
  // with the table, so the as-written step is modelled on a store: each
  // site names an object and the objects are kept apart.

  /** The key the as-written lookup uses. */
  const LiteralSite: string := "site"

  /** The table as objects: the object each site refers to, and the objects. */
  datatype Store = Store(ids: map<string, nat>, heap: seq<Slas>)

  predicate StoreValid(st: Store)
  {
    forall s :: s in st.ids ==> st.ids[s] < |st.heap|
  }

  /** No two sites share an object. */
  predicate Unshared(st: Store)
  {
    forall s, t :: s in st.ids && t in st.ids && s != t ==> st.ids[s] != st.ids[t]
  }

  /** The table as Python shows it. */
  function View(st: Store): map<string, Slas>
    requires StoreValid(st)
  {
    map s | s in st.ids :: st.heap[st.ids[s]]
  }

  /** Lines 93-98 of goc.py as written. */
  function InsertSlaAsWritten(st: Store, site: string, sla: string, vos: set<string>): (r: Store)
    requires StoreValid(st)
    ensures StoreValid(r)
    ensures forall s :: s in r.ids <==> s in st.ids || s == site
  {
    var info := if LiteralSite in st.ids then st.ids[LiteralSite] else |st.heap|;
    var heap := if LiteralSite in st.ids then st.heap else st.heap + [map[]];
    var heap' := heap[info := heap[info][sla := vos]];
    if site in st.ids then Store(st.ids, heap'[st.ids[site] := heap'[st.ids[site]] + heap'[info]])
    else Store(st.ids[site := info], heap')
  }

  /**
   * As long as no site is called "site", the as-written step builds the
   * table `InsertSla` describes, and no two sites come to share an object.
   */
  lemma InsertSlaAsWrittenAgrees(st: Store, site: string, sla: string, vos: set<string>)
    requires StoreValid(st) && Unshared(st) && LiteralSite !in st.ids
    ensures var r := InsertSlaAsWritten(st, site, sla, vos);
      && Unshared(r)
      && View(r) == InsertSla(View(st), site, sla, vos)
      && (site != LiteralSite ==> LiteralSite !in r.ids)
  {
    var heap' := st.heap + [map[sla := vos]];
    if site in st.ids {
      var o := st.ids[site];
      assert InsertSlaAsWritten(st, site, sla, vos) == Store(st.ids, heap'[o := st.heap[o] + map[sla := vos]]);
      MergeIntoOwnObject(st, site, heap'[o := st.heap[o] + map[sla := vos]], sla, vos);
    } else {
      assert InsertSlaAsWritten(st, site, sla, vos) == Store(st.ids[site := |st.heap|], heap');
      NewObjectForSite(st, site, sla, vos);
    }
  }

  lemma MergeIntoOwnObject(st: Store, site: string, heap: seq<Slas>, sla: string, vos: set<string>)
    requires StoreValid(st) && Unshared(st) && site in st.ids
    requires |heap| == |st.heap| + 1
    requires forall k :: 0 <= k < |st.heap| && k != st.ids[site] ==> heap[k] == st.heap[k]
    requires heap[st.ids[site]] == st.heap[st.ids[site]] + map[sla := vos]
    ensures StoreValid(Store(st.ids, heap)) && Unshared(Store(st.ids, heap))
    ensures View(Store(st.ids, heap)) == InsertSla(View(st), site, sla, vos)
  {
    var r := Store(st.ids, heap);
    var expected := InsertSla(View(st), site, sla, vos);
    assert View(r).Keys == expected.Keys;
    forall s | s in st.ids ensures View(r)[s] == expected[s] {
      if s != site {
        assert st.ids[s] != st.ids[site];
      } else {
        assert expected[s] == st.heap[st.ids[s]][sla := vos];
      }
    }
  }

  lemma NewObjectForSite(st: Store, site: string, sla: string, vos: set<string>)
    requires StoreValid(st) && Unshared(st) && site !in st.ids
    ensures var r := Store(st.ids[site := |st.heap|], st.heap + [map[sla := vos]]);
      StoreValid(r) && Unshared(r) && View(r) == InsertSla(View(st), site, sla, vos)
  {
    var r := Store(st.ids[site := |st.heap|], st.heap + [map[sla := vos]]);
    NewObjectStore(st, site, map[sla := vos]);
    var expected := InsertSla(View(st), site, sla, vos);
    assert SlasOf(View(st), site) == map[];
    assert expected == View(st)[site := map[sla := vos]];
    assert View(r).Keys == expected.Keys;
    forall s | s in r.ids ensures View(r)[s] == expected[s] {
      if s != site {
        assert s in st.ids;
        assert View(r)[s] == r.heap[r.ids[s]];
        assert r.heap[r.ids[s]] == st.heap[st.ids[s]];
        assert View(st)[s] == st.heap[st.ids[s]];
      } else {
        assert View(r)[s] == map[sla := vos];
      }
    }
  }

  /** Appending a fresh object for a new site keeps the store valid and unshared, and the other sites' objects. */
  lemma NewObjectStore(st: Store, site: string, obj: Slas)
    requires StoreValid(st) && Unshared(st) && site !in st.ids
    ensures var r := Store(st.ids[site := |st.heap|], st.heap + [obj]);
      && StoreValid(r) && Unshared(r) && r.heap[r.ids[site]] == obj
      && forall s | s in st.ids :: r.ids[s] == st.ids[s] && r.heap[r.ids[s]] == st.heap[st.ids[s]]
  {
    var r := Store(st.ids[site := |st.heap|], st.heap + [obj]);
    forall s, t | s in r.ids && t in r.ids && s != t ensures r.ids[s] != r.ids[t] {
      if s != site && t != site {
        assert st.ids[s] != st.ids[t];
      }
    }
  }

  /**
   * A site called "site" with SLA A, then a site X with SLA B: X is given
   * both SLAs, and "site" gains SLA B, where X should have B alone.
   */
  lemma AliasedSiteCounterexample(vosA: set<string>, vosB: set<string>)
    ensures var st := InsertSlaAsWritten(InsertSlaAsWritten(Store(map[], []), LiteralSite, "A", vosA), "X", "B", vosB);
      && View(st)["X"] == map["A" := vosA, "B" := vosB]
      && View(st)[LiteralSite] == map["A" := vosA, "B" := vosB]
      && InsertSla(InsertSla(map[], LiteralSite, "A", vosA), "X", "B", vosB)["X"] == map["B" := vosB]
  {
    var st1 := InsertSlaAsWritten(Store(map[], []), LiteralSite, "A", vosA);
    assert st1 == Store(map[LiteralSite := 0], [map["A" := vosA]]);
    var st2 := InsertSlaAsWritten(st1, "X", "B", vosB);
    assert st2 == Store(map[LiteralSite := 0, "X" := 0], [map["A" := vosA, "B" := vosB]]);
  }

  /** One iteration of the loop of `get_sites_slas`. */
  function SitesSlasStep(remote: Query -> Service, voMap: VoMap, g: Group, sites: map<string, Slas>, st: GocState)
    : Found<map<string, Slas>>
  {
    match SlaName(g.name)
    case None => Found(sites, st)
    case Some(sla) =>
      match ResolveSites(remote, st, EndpointList(g.endpoints), [])
      case MissingSiteName(st') => MissingSiteName(st')
      case Found(names, st') => Found(InsertAll(sites, names, sla, VoSet(voMap, sla)), st')
  }

  /** The loop of `get_sites_slas` over the remaining groups. */
  function SitesSlas(remote: Query -> Service, voMap: VoMap, groups: seq<Group>, sites: map<string, Slas>,
                     st: GocState): Found<map<string, Slas>>
    decreases |groups|
  {
    if groups == [] then Found(sites, st)
    else
      match SitesSlasStep(remote, voMap, groups[0], sites, st)
      case MissingSiteName(st') => MissingSiteName(st')
      case Found(next, st') => SitesSlas(remote, voMap, groups[1..], next, st')
  }

  /**
   * In the table `get_sites_slas` builds, every SLA entry of every site
   * holds `set(vo_map.get(sla) or [])`, whatever group or endpoint put it
   * there, and entries present before are kept.
   */
  lemma {:induction false} SitesSlasEntries(remote: Query -> Service, voMap: VoMap, groups: seq<Group>,
                                            sites: map<string, Slas>, st: GocState)
    requires forall s, sla :: s in sites && sla in sites[s] ==> sites[s][sla] == VoSet(voMap, sla)
    ensures var r := SitesSlas(remote, voMap, groups, sites, st);
      r.Found? ==>
        && (forall s, sla :: s in r.value && sla in r.value[s] ==> r.value[s][sla] == VoSet(voMap, sla))
        && (forall s, sla :: s in sites && sla in sites[s] ==> s in r.value && sla in r.value[s])
    decreases |groups|
  {
    if groups != [] {
      var step := SitesSlasStep(remote, voMap, groups[0], sites, st);
      if step.Found? {
        var g := groups[0];
        if SlaName(g.name).Some? {
          var sla := SlaName(g.name).value;
          var names := ResolveSites(remote, st, EndpointList(g.endpoints), []).value;
          InsertAllSpec(sites, names, sla, VoSet(voMap, sla));
          assert step.value == InsertAll(sites, names, sla, VoSet(voMap, sla));
        }
        assert forall s, sla :: s in sites && sla in sites[s] ==> s in step.value && sla in step.value[s];
        SitesSlasEntries(remote, voMap, groups[1..], step.value, step.state);
        assert SitesSlas(remote, voMap, groups, sites, st) == SitesSlas(remote, voMap, groups[1..], step.value, step.state);
      }
    }
  }

  /** Lines 89-98 of goc.py as written, for every site found, in order. */
  function InsertAllAsWritten(st: Store, names: seq<string>, sla: string, vos: set<string>): (r: Store)
    requires StoreValid(st)
    ensures StoreValid(r)
    ensures forall s :: s in r.ids <==> s in st.ids || s in names
    decreases |names|
  {
    if names == [] then st
    else InsertAllAsWritten(InsertSlaAsWritten(st, names[0], sla, vos), names[1..], sla, vos)
  }

  /** One iteration of the loop of `get_sites_slas` as written. */
  function SitesSlasStepAsWritten(remote: Query -> Service, voMap: VoMap, g: Group, sites: Store, st: GocState)
    : (r: Found<Store>)
    requires StoreValid(sites)
    ensures r.Found? ==> StoreValid(r.value) && forall s :: s in sites.ids ==> s in r.value.ids
  {
    match SlaName(g.name)
    case None => Found(sites, st)
    case Some(sla) =>
      match ResolveSites(remote, st, EndpointList(g.endpoints), [])
      case MissingSiteName(st') => MissingSiteName(st')
      case Found(names, st') => Found(InsertAllAsWritten(sites, names, sla, VoSet(voMap, sla)), st')
  }

  /** The loop of `get_sites_slas` as written over the remaining groups. */
  function SitesSlasAsWritten(remote: Query -> Service, voMap: VoMap, groups: seq<Group>, sites: Store,
                              st: GocState): (r: Found<Store>)
    requires StoreValid(sites)
    ensures r.Found? ==> StoreValid(r.value) && forall s :: s in sites.ids ==> s in r.value.ids
    decreases |groups|
  {
    if groups == [] then Found(sites, st)
    else
      match SitesSlasStepAsWritten(remote, voMap, groups[0], sites, st)
      case MissingSiteName(st') => MissingSiteName(st')
      case Found(next, st') => SitesSlasAsWritten(remote, voMap, groups[1..], next, st')
  }

  /**
   * As long as no site is called "site", inserting an SLA for a list of
   * sites as written builds the table `InsertAll` describes.
   */
  lemma {:induction false} InsertAllAsWrittenAgrees(st: Store, names: seq<string>, sla: string, vos: set<string>)
    requires StoreValid(st) && Unshared(st) && LiteralSite !in st.ids && LiteralSite !in names
    ensures var r := InsertAllAsWritten(st, names, sla, vos);
      Unshared(r) && View(r) == InsertAll(View(st), names, sla, vos)
    decreases |names|
  {
    if names != [] {
      InsertSlaAsWrittenAgrees(st, names[0], sla, vos);
      InsertAllAsWrittenAgrees(InsertSlaAsWritten(st, names[0], sla, vos), names[1..], sla, vos);
    }
  }

  /**
   * The as-written loop raises, queries and caches exactly as the
   * corrected one does, whatever the tables: only the tables differ.
   */
  lemma {:induction false} SitesSlasAsWrittenResolves(remote: Query -> Service, voMap: VoMap, groups: seq<Group>,
                                                      sites: Store, table: map<string, Slas>, st: GocState)
    requires StoreValid(sites)
    ensures var r := SitesSlasAsWritten(remote, voMap, groups, sites, st);
      var c := SitesSlas(remote, voMap, groups, table, st);
      r.Found? == c.Found? && r.state == c.state
    decreases |groups|
  {
    if groups != [] {
      var step := SitesSlasStepAsWritten(remote, voMap, groups[0], sites, st);
      var other := SitesSlasStep(remote, voMap, groups[0], table, st);
      assert step.Found? == other.Found? && step.state == other.state;
      if step.Found? {
        SitesSlasAsWrittenResolves(remote, voMap, groups[1..], step.value, other.value, step.state);
      }
    }
  }

  /**
   * Lines 78-98 of goc.py as written build the table the corrected loop
   * builds whenever no site found is called "site"; with one that is, only
   * the outcome and the queries are sure to agree.
   */
  lemma {:induction false} SitesSlasAsWrittenAgrees(remote: Query -> Service, voMap: VoMap, groups: seq<Group>,
                                                    sites: Store, st: GocState)
    requires StoreValid(sites) && Unshared(sites) && LiteralSite !in sites.ids
    ensures var r := SitesSlasAsWritten(remote, voMap, groups, sites, st);
      var c := SitesSlas(remote, voMap, groups, View(sites), st);
      && r.Found? == c.Found? && r.state == c.state
      && (r.Found? && LiteralSite !in r.value.ids ==> View(r.value) == c.value)
    decreases |groups|
  {
    SitesSlasAsWrittenResolves(remote, voMap, groups, sites, View(sites), st);
    if groups != [] {
      var step := SitesSlasStepAsWritten(remote, voMap, groups[0], sites, st);
      var other := SitesSlasStep(remote, voMap, groups[0], View(sites), st);
      if step.Found? && LiteralSite !in step.value.ids {
        var g := groups[0];
        if SlaName(g.name).Some? {
          var sla := SlaName(g.name).value;
          var names := ResolveSites(remote, st, EndpointList(g.endpoints), []).value;
          InsertAllAsWrittenAgrees(sites, names, sla, VoSet(voMap, sla));
        }
        assert View(step.value) == other.value;
        SitesSlasAsWrittenAgrees(remote, voMap, groups[1..], step.value, step.state);
      }
    }
  }

  /** `SitesSlasAsWrittenAgrees` from the empty table `get_sites_slas` starts with. */
  lemma EmptyTableAgrees(remote: Query -> Service, voMap: VoMap, groups: seq<Group>, st: GocState)
    ensures var r := SitesSlasAsWritten(remote, voMap, groups, Store(map[], []), st);
      var c := SitesSlas(remote, voMap, groups, map[], st);
      && r.Found? == c.Found?
      && (r.Found? && LiteralSite !in View(r.value) ==> View(r.value) == c.value)
  {
    var empty := Store(map[], []);
    assert View(empty) == map[];
    SitesSlasAsWrittenAgrees(remote, voMap, groups, empty, st);
  }

  /** Every SLA entry of every object holds the VO set of its SLA. */
  predicate EntriesHold(heap: seq<Slas>, voMap: VoMap)
  {
    forall k, sla :: 0 <= k < |heap| && sla in heap[k] ==> heap[k][sla] == VoSet(voMap, sla)
  }

  /** The as-written step only writes or copies entries holding their SLA's VO set. */
  lemma InsertSlaAsWrittenEntries(st: Store, site: string, sla: string, voMap: VoMap)
    requires StoreValid(st) && EntriesHold(st.heap, voMap)
    ensures EntriesHold(InsertSlaAsWritten(st, site, sla, VoSet(voMap, sla)).heap, voMap)
  {
    var vos := VoSet(voMap, sla);
    var info := if LiteralSite in st.ids then st.ids[LiteralSite] else |st.heap|;
    var heap := if LiteralSite in st.ids then st.heap else st.heap + [map[]];
    var heap' := heap[info := heap[info][sla := vos]];
    assert EntriesHold(heap, voMap);
    assert EntriesHold(heap', voMap);
  }

  lemma {:induction false} InsertAllAsWrittenEntries(st: Store, names: seq<string>, sla: string, voMap: VoMap)
    requires StoreValid(st) && EntriesHold(st.heap, voMap)
    ensures EntriesHold(InsertAllAsWritten(st, names, sla, VoSet(voMap, sla)).heap, voMap)
    decreases |names|
  {
    if names != [] {
      InsertSlaAsWrittenEntries(st, names[0], sla, voMap);
      InsertAllAsWrittenEntries(InsertSlaAsWritten(st, names[0], sla, VoSet(voMap, sla)), names[1..], sla, voMap);
    }
  }

  /**
   * Even as written, every SLA entry of every site in the table holds
   * `set(vo_map.get(sla) or [])`: the aliasing of lines 93-98 merges the
   * wrong SLAs into a site, never a wrong VO set into an SLA.
   */
  lemma {:induction false} SitesSlasAsWrittenEntries(remote: Query -> Service, voMap: VoMap, groups: seq<Group>,
                                                     sites: Store, st: GocState)
    requires StoreValid(sites) && EntriesHold(sites.heap, voMap)
    ensures var r := SitesSlasAsWritten(remote, voMap, groups, sites, st);
      r.Found? ==>
        && EntriesHold(r.value.heap, voMap)
        && forall s, sla :: s in View(r.value) && sla in View(r.value)[s] ==> View(r.value)[s][sla] == VoSet(voMap, sla)
    decreases |groups|
  {
    var r := SitesSlasAsWritten(remote, voMap, groups, sites, st);
    if groups != [] {
      var step := SitesSlasStepAsWritten(remote, voMap, groups[0], sites, st);
      if step.Found? {
        var g := groups[0];
        if SlaName(g.name).Some? {
          var sla := SlaName(g.name).value;
          var names := ResolveSites(remote, st, EndpointList(g.endpoints), []).value;
          InsertAllAsWrittenEntries(sites, names, sla, voMap);
        }
        SitesSlasAsWrittenEntries(remote, voMap, groups[1..], step.value, step.state);
      }
    }
    if r.Found? && EntriesHold(r.value.heap, voMap) {
      forall s, sla | s in View(r.value) && sla in View(r.value)[s]
        ensures View(r.value)[s][sla] == VoSet(voMap, sla)
      {
        assert View(r.value)[s] == r.value.heap[r.value.ids[s]];
      }
    }
  }

  // ---------------------------------------------------------------------
  // The client object

  class GOCDB {
    var cache: map<string, Service>
    var queries: nat
    var slaVos: set<string>
    /** The GOCDB answer to a `get_service` query, already parsed. */
    const remote: Query -> Service

    ghost predicate Valid()
      reads this
    {
      CacheValid(cache)
    }

    constructor(remote: Query -> Service)
      ensures Valid() && cache == map[] && queries == 0 && slaVos == {} && this.remote == remote
    {
      cache := map[];
      queries := 0;
      slaVos := {};
      this.remote := remote;
    }

    /** `flatten_vo_map`: the union of all VO lists. */
    method FlattenVoMap(voMap: VoMap) returns (vos: set<string>)
      ensures vos == Flatten(voMap)
    {
      var all: seq<string> := [];
      var left := voMap.Keys;
      while left != {}
        invariant left <= voMap.Keys
        invariant (set vo | vo in all) == FlattenOver(voMap, voMap.Keys - left)
        decreases left
      {
        var sla :| sla in left;
        FlattenOverAdd(voMap, voMap.Keys - left, sla);
        if voMap[sla].Some? && voMap[sla].value != [] {
          var vos := voMap[sla].value;
          assert (set vo | vo in all + vos) == (set vo | vo in all) + (set vo | vo in vos);
          all := all + vos;
        }
        assert voMap.Keys - (left - {sla}) == (voMap.Keys - left) + {sla};
        left := left - {sla};
      }
      vos := set vo | vo in all;
      assert voMap.Keys - left == voMap.Keys;
    }

    /** `get_endpoint_site`. */
    method GetEndpointSite(e: Endpoint) returns (service: Option<Service>)
      requires Valid()
      modifies this
      ensures Valid()
      ensures Lookup(service, GocState(cache, queries)) == LookupEndpoint(remote, GocState(old(cache), old(queries)), e)
      ensures slaVos == old(slaVos)
    {
      if e.primaryKey in cache {
        return Some(cache[e.primaryKey]);
      }
      if TypeOf(e) !in ServiceTypes {
        return None;
      }
      var found := remote(Query(e.hostname, e.serviceType));
      queries := queries + 1;
      if found != map[] {
        cache := cache[e.primaryKey := found];
      }
      service := Some(found);
    }

    /** `get_sites_vo`, for the service groups a fetch (one query) has returned. */
    method GetSitesVo(groups: seq<Group>, voMap: VoMap) returns (sitesPerVo: Option<map<string, seq<string>>>)
      requires Valid()
      modifies this
      ensures Valid()
      ensures slaVos == Flatten(voMap)
      ensures var r := SitesVo(remote, voMap, groups, map[], GocState(old(cache), old(queries) + 1));
              GocState(cache, queries) == r.state && (sitesPerVo.Some? <==> r.Found?)
              && (r.Found? ==> sitesPerVo.value == r.value)
    {
      queries := queries + 1;
      slaVos := FlattenVoMap(voMap);
      var result: map<string, seq<string>> := map[];
      var i := 0;
      while i < |groups|
        invariant 0 <= i <= |groups|
        invariant Valid()
        invariant slaVos == Flatten(voMap)
        invariant SitesVo(remote, voMap, groups[i..], result, GocState(cache, queries))
               == SitesVo(remote, voMap, groups, map[], GocState(old(cache), old(queries) + 1))
      {
        var ok;
        ok, result := SitesVoOfGroup(groups[i], voMap, result);
        if !ok {
          return None;
        }
        assert groups[i..][1..] == groups[i + 1..];
        i := i + 1;
      }
      sitesPerVo := Some(result);
    }

    /** The body of the loop of `get_sites_vo` for one group; `ok` is false when it raises. */
    method SitesVoOfGroup(g: Group, voMap: VoMap, sitesPerVo: map<string, seq<string>>)
      returns (ok: bool, result: map<string, seq<string>>)
      requires Valid()
      modifies this
      ensures Valid()
      ensures var r := SitesVoStep(remote, voMap, g, sitesPerVo, GocState(old(cache), old(queries)));
              GocState(cache, queries) == r.state && (ok <==> r.Found?) && (ok ==> result == r.value)
      ensures slaVos == old(slaVos)
    {
      result := sitesPerVo;
      var m := SlaName(g.name);
      if m.None? {
        return true, result;
      }
      var vos := VosOf(voMap, m.value);
      if vos.Some? && |vos.value| != 1 {
        for k := 0 to |vos.value|
          invariant MarkMultiple(result, vos.value[k..]) == MarkMultiple(sitesPerVo, vos.value)
        {
          assert vos.value[k..][1..] == vos.value[k + 1..];
          result := result[vos.value[k] := [MultipleVos]];
        }
        return true, result;
      } else if vos.None? {
        return true, result;
      }
      var slaVo := vos.value[0];
      var endpoints := EndpointList(g.endpoints);
      ghost var st0 := GocState(cache, queries);
      result := result[slaVo := []];
      for k := 0 to |endpoints|
        invariant Valid()
        invariant slaVo in result
        invariant result == sitesPerVo[slaVo := result[slaVo]]
        invariant ResolveSites(remote, GocState(cache, queries), endpoints[k..], result[slaVo])
               == ResolveSites(remote, st0, endpoints, [])
        invariant slaVos == old(slaVos)
      {
        assert endpoints[k..][1..] == endpoints[k + 1..];
        var service := GetEndpointSite(endpoints[k]);
        if Truthy(service) {
          if SiteNameKey !in service.value {
            return false, result;
          }
          result := result[slaVo := result[slaVo] + [service.value[SiteNameKey]]];
        }
      }
      ok := true;
    }

    /**
     * `get_sites_slas`, for the service groups a fetch (one query) has
     * returned, with the table kept as goc.py keeps it (`Store`); it gives
     * the table of `SitesSlas` whenever no site found is called "site".
     */
    method GetSitesSlas(groups: seq<Group>, voMap: VoMap) returns (sites: Option<map<string, Slas>>)
      requires Valid()
      modifies this
      ensures Valid()
      ensures slaVos == Flatten(voMap)
      ensures var r := SitesSlasAsWritten(remote, voMap, groups, Store(map[], []), GocState(old(cache), old(queries) + 1));
              GocState(cache, queries) == r.state && (sites.Some? <==> r.Found?)
              && (r.Found? ==> sites.value == View(r.value))
      ensures var c := SitesSlas(remote, voMap, groups, map[], GocState(old(cache), old(queries) + 1));
              (sites.Some? <==> c.Found?) && (sites.Some? && LiteralSite !in sites.value ==> sites.value == c.value)
    {
      queries := queries + 1;
      slaVos := FlattenVoMap(voMap);
      ghost var st0 := GocState(cache, queries);
      EmptyTableAgrees(remote, voMap, groups, st0);
      var table := Store(map[], []);
      var i := 0;
      while i < |groups|
        invariant 0 <= i <= |groups|
        invariant Valid()
        invariant slaVos == Flatten(voMap)
        invariant StoreValid(table)
        invariant SitesSlasAsWritten(remote, voMap, groups[i..], table, GocState(cache, queries))
               == SitesSlasAsWritten(remote, voMap, groups, Store(map[], []), st0)
      {
        var ok;
        ok, table := SitesSlasOfGroup(groups[i], voMap, table);
        if !ok {
          return None;
        }
        assert groups[i..][1..] == groups[i + 1..];
        i := i + 1;
      }
      assert groups[i..] == [];
      sites := Some(View(table));
    }

    /** The body of the loop of `get_sites_slas` for one group; `ok` is false when it raises. */
    method SitesSlasOfGroup(g: Group, voMap: VoMap, sites: Store)
      returns (ok: bool, result: Store)
      requires Valid() && StoreValid(sites)
      modifies this
      ensures Valid()
      ensures var r := SitesSlasStepAsWritten(remote, voMap, g, sites, GocState(old(cache), old(queries)));
              GocState(cache, queries) == r.state && (ok <==> r.Found?) && (ok ==> result == r.value)
      ensures StoreValid(result)
      ensures slaVos == old(slaVos)
    {
      result := sites;
      var m := SlaName(g.name);
      if m.None? {
        return true, result;
      }
      var sla := m.value;
      var vos := VoSet(voMap, sla);
      var endpoints := EndpointList(g.endpoints);
      ghost var st0 := GocState(cache, queries);
      ghost var names: seq<string> := [];
      for k := 0 to |endpoints|
        invariant Valid()
        invariant StoreValid(result) && result == InsertAllAsWritten(sites, names, sla, vos)
        invariant ResolveSites(remote, GocState(cache, queries), endpoints[k..], names)
               == ResolveSites(remote, st0, endpoints, [])
        invariant slaVos == old(slaVos)
      {
        assert endpoints[k..][1..] == endpoints[k + 1..];
        var service := GetEndpointSite(endpoints[k]);
        if Truthy(service) {
          if SiteNameKey !in service.value {
            return false, result;
          }
          var site := service.value[SiteNameKey];
          InsertAllAsWrittenSnoc(sites, names, site, sla, vos);
          result := InsertSlaAsWritten(result, site, sla, vos);
          names := names + [site];
        }
      }
      ok := true;
    }
  }

  lemma {:induction false} InsertAllAsWrittenSnoc(st: Store, names: seq<string>, site: string, sla: string,
                                                  vos: set<string>)
    requires StoreValid(st)
    ensures InsertAllAsWritten(st, names + [site], sla, vos)
         == InsertSlaAsWritten(InsertAllAsWritten(st, names, sla, vos), site, sla, vos)
    decreases |names|
  {
    if names == [] {
      assert names + [site] == [site];
    } else {
      assert (names + [site])[1..] == names[1..] + [site];
      InsertAllAsWrittenSnoc(InsertSlaAsWritten(st, names[0], sla, vos), names[1..], site, sla, vos);
    }
  }

}
