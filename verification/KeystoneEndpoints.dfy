/** Which GlanceAPI objects register their endpoints with keystone (internal/glanceapi/funcs.go,
    internal/controller/glanceapi_controller.go, reconcileInit and ensureKeystoneEndpoints). */
module KeystoneEndpoints {
  import opened Text
  import opened GlanceTypes
  import opened GlancePass
  import GlanceRuns
  import Webhook
  import Admission

  const PUBLIC_PORT := 9292
  const INTERNAL_PORT := 9292

  /** The endpoints a GlanceAPI of each type serves. */
  function EndpointsOf(t: ApiType): set<Endpoint> {
    match t
    case Internal | Edge => {InternalEndpoint}
    case External => {Public}
    case Single => {Public, InternalEndpoint}
  }

  /** The KeystoneEndpoint resources, each named after its GlanceAPI, with the urls they register. */
  type Registry = map<ChildId, map<Endpoint, string>>

  /** A pass of one GlanceAPI: the urls of the services it got to create, and whether the write of its
      KeystoneEndpoint failed. */
  datatype ChildPass = ChildPass(id: ChildId, urls: map<Endpoint, string>, refused: bool)

  predicate Completes(c: Child, p: ChildPass) {
    EndpointsOf(c.spec.apiType) <= p.urls.Keys && !p.refused
  }

  /** The object's spec says which type it is. */
  function Registered(registry: Registry, c: Child, p: ChildPass): Registry {
    if !Completes(c, p) then registry
    else if !c.keystone then registry - {p.id}
    else registry[p.id := map e | e in EndpointsOf(c.spec.apiType) :: p.urls[e]]
  }

  class GlanceApiEndpoints {
    var registry: Registry

    constructor (registry: Registry)
      ensures this.registry == registry
    {
      this.registry := registry;
    }

    static method GetGlanceEndpoints(t: ApiType) returns (ports: map<Endpoint, nat>)
      ensures ports.Keys == EndpointsOf(t)
      ensures Public in ports <==> t == External || t == Single
      ensures InternalEndpoint in ports <==> t != External
      ensures forall e :: e in ports ==> ports[e] == if e == Public then PUBLIC_PORT else INTERNAL_PORT
    {
      ports := map[];
      if t == Edge {
        ports := ports[InternalEndpoint := INTERNAL_PORT];
        return;
      }
      if t == Internal {
        ports := ports[InternalEndpoint := INTERNAL_PORT];
      } else {
        ports := ports[Public := PUBLIC_PORT];
      }
      if t == Single {
        ports := ports[InternalEndpoint := INTERNAL_PORT];
      }
    }

    /** The urls of the services of a GlanceAPI, or None when one of them cannot be created. */
    static method CreateServices(t: ApiType, p: ChildPass) returns (apiEndpoints: Option<map<Endpoint, string>>)
      ensures apiEndpoints.Some? <==> EndpointsOf(t) <= p.urls.Keys
      ensures apiEndpoints.Some? ==>
                && apiEndpoints.value.Keys == EndpointsOf(t)
                && forall e :: e in apiEndpoints.value ==> apiEndpoints.value[e] == p.urls[e]
    {
      var ports := GetGlanceEndpoints(t);
      var rest, urls := ports.Keys, map[];
      while rest != {}
        invariant rest <= ports.Keys && urls.Keys == ports.Keys - rest && urls.Keys <= p.urls.Keys
        invariant forall e :: e in urls ==> urls[e] == p.urls[e]
        decreases rest
      {
        var e :| e in rest;
        if e !in p.urls {
          return None;
        }
        urls := urls[e := p.urls[e]];
        rest := rest - {e};
      }
      return Some(urls);
    }

    /** A GlanceAPI without the annotation withdraws what it may have registered before. */
    method EnsureKeystoneEndpoints(c: Child, p: ChildPass)
      modifies this
      ensures registry == Registered(old(registry), c, p)
    {
      var apiEndpoints := CreateServices(c.spec.apiType, p);
      if apiEndpoints.None? || p.refused {
        return;
      }
      if !c.keystone {
        registry := registry - {p.id};
        return;
      }
      registry := registry[p.id := apiEndpoints.value];
      assert apiEndpoints.value == map e | e in EndpointsOf(c.spec.apiType) :: p.urls[e];
    }
  }

  // ----- Coverage -----

  function AfterPasses(registry: Registry, children: Children, passes: seq<ChildPass>): Registry {
    if passes == [] then registry
    else
      var before, p := AfterPasses(registry, children, passes[..|passes| - 1]), passes[|passes| - 1];
      if p.id in children then Registered(before, children[p.id], p) else before
  }

  /** Some pass of the object completes. */
  ghost predicate Passed(passes: seq<ChildPass>, children: Children, id: ChildId)
    requires id in children
  {
    exists p :: p in passes && p.id == id && Completes(children[id], p)
  }

  ghost predicate Settled(registry: Registry, children: Children, id: ChildId)
    requires id in children
  {
    && (id in registry <==> children[id].keystone)
    && (id in registry ==> registry[id].Keys == EndpointsOf(children[id].spec.apiType))
  }

  /** Whatever was registered before, an object that completed a pass has registered its endpoints or
      nothing, according to its annotation. */
  lemma {:induction false} PassedSettles(registry: Registry, children: Children, passes: seq<ChildPass>, id: ChildId)
    requires id in children && Passed(passes, children, id)
    ensures Settled(AfterPasses(registry, children, passes), children, id)
  {
    var n := |passes| - 1;
    var last := passes[n];
    assert passes == passes[..n] + [last];
    if last.id != id || !Completes(children[id], last) {
      var p :| p in passes && p.id == id && Completes(children[id], p);
      assert p in passes[..n];
      PassedSettles(registry, children, passes[..n], id);
    }
  }

  /** The last pass of the object that completes. */
  ghost predicate IsLast(passes: seq<ChildPass>, children: Children, id: ChildId, n: nat)
    requires id in children
  {
    && n < |passes| && passes[n].id == id && Completes(children[id], passes[n])
    && forall m :: n < m < |passes| && passes[m].id == id ==> !Completes(children[id], passes[m])
  }

  /** What is registered are the urls of that pass. */
  lemma {:induction false} LastUrls(registry: Registry, children: Children, passes: seq<ChildPass>, id: ChildId, n: nat)
    requires id in children && children[id].keystone && IsLast(passes, children, id, n)
    ensures
      var r := AfterPasses(registry, children, passes);
      id in r && forall e :: e in r[id] ==> e in passes[n].urls && r[id][e] == passes[n].urls[e]
  {
    var last := |passes| - 1;
    if n < last {
      forall m | n < m < last && passes[..last][m].id == id ensures !Completes(children[id], passes[..last][m]) {
        assert passes[..last][m] == passes[m];
      }
      LastUrls(registry, children, passes[..last], id, n);
    }
  }

  /** The object is registered for the endpoint. */
  predicate Covers(registry: Registry, children: Children, id: ChildId, e: Endpoint) {
    id in children && id in registry && e in registry[id]
  }

  /** Exactly one object is registered for the endpoint; it belongs to the API named k, and is one that serves
      the endpoint: the external or a single one for public, the internal or a single one otherwise. */
  ghost predicate CoveredOnceBy(registry: Registry, children: Children, e: Endpoint, k: string) {
    exists id :: Covers(registry, children, id, e) && id.apiName == k
                 && children[id].spec.apiType in (if e == Public then {External, Single} else {Internal, Single})
                 && forall other :: Covers(registry, children, other, e) ==> other == id
  }

  /** The object of a layout that serves an endpoint; an edge API has none for the public one. */
  function Server(layout: Layout, e: Endpoint): ApiType {
    match layout
    case SingleLayout => Single
    case EdgeLayout => Edge
    case _ => if e == Public then External else Internal
  }

  lemma ServerIsUnique(layout: Layout, e: Endpoint, t: ApiType)
    requires t in LayoutTypes(layout)
    ensures e in EndpointsOf(t) <==> t == Server(layout, e) && !(layout == EdgeLayout && e == Public)
  {
  }

  /** Once the objects are those of the spec and each has completed a pass, in any order and from any
      registry, public and internal are each registered exactly once, by the API keystoneEndpoint names, if
      and only if the webhook's check on keystoneEndpoint holds. */
  lemma CoveredOnceExactly(registry: Registry, g: GlanceSpec, children: Children, passes: seq<ChildPass>)
    requires children.Keys == Expansion(g) && forall id :: id in children ==> UpToDate(children[id], g, id)
    requires forall id :: id in children ==> Passed(passes, children, id)
    ensures
      var r := AfterPasses(registry, children, passes);
      Webhook.ValidKeystone(g) <==>
        && CoveredOnceBy(r, children, Public, g.keystoneEndpoint)
        && CoveredOnceBy(r, children, InternalEndpoint, g.keystoneEndpoint)
  {
    var r := AfterPasses(registry, children, passes);
    ExpansionMembers(g);
    forall id | id in children ensures Settled(r, children, id) {
      PassedSettles(registry, children, passes, id);
    }
    if Webhook.ValidKeystone(g) {
      SettledCovers(r, g, children, Public);
      SettledCovers(r, g, children, InternalEndpoint);
    } else {
      NotCovered(r, g, children);
    }
  }

  lemma SettledCovers(r: Registry, g: GlanceSpec, children: Children, e: Endpoint)
    requires children.Keys == Expansion(g) && forall id :: id in children ==> UpToDate(children[id], g, id)
    requires forall id :: id in children ==> Settled(r, children, id)
    requires Webhook.ValidKeystone(g)
    ensures CoveredOnceBy(r, children, e, g.keystoneEndpoint)
  {
    var k := g.keystoneEndpoint;
    var layout := g.apis[k].layout;
    var id := ChildId(k, Server(layout, e));
    ExpansionMembers(g);
    ServerIsUnique(layout, e, id.apiType);
    assert InExpansion(g, id) && Settled(r, children, id);
    forall other | Covers(r, children, other, e) ensures other == id {
      assert InExpansion(g, other) && Settled(r, children, other);
      ServerIsUnique(layout, e, other.apiType);
    }
  }

  lemma NotCovered(r: Registry, g: GlanceSpec, children: Children)
    requires children.Keys == Expansion(g) && forall id :: id in children ==> UpToDate(children[id], g, id)
    requires forall id :: id in children ==> Settled(r, children, id)
    requires !Webhook.ValidKeystone(g)
    ensures forall id :: !Covers(r, children, id, Public)
  {
    ExpansionMembers(g);
    forall id | Covers(r, children, id, Public) ensures false {
      assert InExpansion(g, id) && Settled(r, children, id);
      ServerIsUnique(g.apis[id.apiName].layout, Public, id.apiType);
    }
  }

  /** The spec stays admissible in every run of the parent. */
  lemma {:induction false} EveryRunKeepsAdmissible(site: GlanceRuns.Site, w: GlanceWorld, es: seq<GlanceRuns.Event>)
    requires Admission.Admissible(site.name, w.spec)
    ensures Admission.Admissible(site.name, GlanceRuns.Run(site, w, es).spec)
    decreases |es|
  {
    if es != [] {
      if es[0].Update? {
        Admission.ServeKeepsAdmissible(site.name, site.defaults, Some(w.spec),
                                       Admission.Update(es[0].spec, es[0].deprecatedOk));
      }
      EveryRunKeepsAdmissible(site, GlanceRuns.Next(site, w, es[0]), es[1..]);
    }
  }

  /** So after any run of admitted updates and possibly failing passes, one complete parent pass and then one
      complete pass of each object leave public and internal each registered exactly once, by the API named
      keystoneEndpoint, for split and single layouts alike. */
  lemma EveryRunCoversOnce(site: GlanceRuns.Site, w: GlanceWorld, es: seq<GlanceRuns.Event>, o: GlanceOracle,
                           registry: Registry, passes: seq<ChildPass>)
    requires Admission.Admissible(site.name, w.spec)
    requires GlanceRuns.NoStale(w.spec, w.children) && GlanceRuns.NeverReAdds(site, w, es)
    requires GlanceRuns.Complete(GlanceRuns.Run(site, w, es), o)
    requires
      var children := Reconcile(GlanceRuns.Run(site, w, es), o).children;
      forall id :: id in children ==> Passed(passes, children, id)
    ensures
      var w' := Reconcile(GlanceRuns.Run(site, w, es), o);
      var r := AfterPasses(registry, w'.children, passes);
      && CoveredOnceBy(r, w'.children, Public, w'.spec.keystoneEndpoint)
      && CoveredOnceBy(r, w'.children, InternalEndpoint, w'.spec.keystoneEndpoint)
  {
    var v := GlanceRuns.Run(site, w, es);
    EveryRunKeepsAdmissible(site, w, es);
    GlanceRuns.EveryRunConverges(site, w, es, o);
    CoveredOnceExactly(registry, v.spec, Reconcile(v, o).children, passes);
  }
}
