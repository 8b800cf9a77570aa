/** One reconcile pass of the parent Glance (internal/controller/glance_controller.go): it writes one or two
    GlanceAPI objects per API, mirrors their state in its own status, and deletes the objects of APIs that
    are no longer in the spec. */
module GlancePass {
  import opened Text
  import opened GlanceTypes
  import opened Inheritance
  import Webhook

  /** A GlanceAPI object owned by this Glance is identified by its api-name label and its type; its name is
      ChildName, which is injective in both. */
  datatype ChildId = ChildId(apiName: string, apiType: ApiType)

  datatype Child = Child(
    spec: ApiSpec,
    keystone: bool,
    generation: nat,
    observedGeneration: nat,
    readyCount: nat,
    endpoints: Option<map<Endpoint, string>>)

  type Children = map<ChildId, Child>

  datatype ParentStatus = ParentStatus(endpoints: map<string, string>, readyCounts: map<string, nat>)

  datatype GlanceWorld = GlanceWorld(spec: GlanceSpec, children: Children, status: ParentStatus, ready: bool)

  /** A GlanceAPI of the namespace as the cleanup sees it: owned and labelled, owned by another Glance, or
      owned without the api-name label. */
  datatype Listed = Own(id: ChildId) | OtherOwner | Unlabelled

  /** The generation of a GlanceAPI of another Glance and the one its controller has observed. */
  datatype Generation = Generation(current: nat, observed: nat)

  /** Outcomes of one pass: names and listing are the orders in which the APIs and the objects are walked;
      others are the GlanceAPIs of other Glances in the namespace, None when they cannot be listed. */
  datatype GlanceOracle = GlanceOracle(
    prelude: bool, names: seq<string>, locationApi: bool, wsgi: bool, refused: set<ChildId>,
    listed: bool, listing: seq<Listed>, undeletable: set<ChildId>, rest: bool, others: Option<seq<Generation>>,
    subsReady: bool, patch: bool)

  datatype Flow = Running | Returned | Panicked

  datatype Progress = Progress(children: Children, status: ParentStatus, flow: Flow)

  function FirstType(layout: Layout): ApiType {
    match layout
    case SingleLayout => Single
    case EdgeLayout => Edge
    case _ => External
  }

  predicate AlsoInternal(layout: Layout) {
    layout == SplitLayout || layout == NoLayout
  }

  predicate InExpansion(g: GlanceSpec, id: ChildId) {
    id.apiName in g.apis && id.apiType in LayoutTypes(g.apis[id.apiName].layout)
  }

  /** The objects the layouts of a spec stand for. */
  function Expansion(g: GlanceSpec): set<ChildId> {
    set k, t | k in g.apis && t in LayoutTypes(g.apis[k].layout) :: ChildId(k, t)
  }

  /** Writes the merged spec; a change of it is a new generation. */
  function CreateOrUpdate(children: Children, g: GlanceSpec, id: ChildId): Children
    requires id.apiName in g.apis
  {
    var spec := ChildSpec(g, id.apiName, id.apiType);
    var keystone := g.keystoneEndpoint == id.apiName;
    if id in children then
      var c := children[id];
      children[id := c.(spec := spec, keystone := keystone,
                        generation := if c.spec == spec then c.generation else c.generation + 1)]
    else children[id := Child(spec, keystone, 1, 0, 0, None)]
  }

  function Url(endpoints: map<Endpoint, string>, e: Endpoint): string {
    if e in endpoints then endpoints[e] else ""
  }

  /** The status after the first object of an API has been written. */
  function MirrorFirst(status: ParentStatus, k: string, layout: Layout, c: Child): ParentStatus {
    var s := status.(readyCounts := status.readyCounts[k := c.readyCount]);
    if c.endpoints == None then s
    else
      var e := c.endpoints.value;
      var public := if layout == EdgeLayout then s.endpoints
                    else s.endpoints[EndpointKey(k, Public) := Url(e, Public)];
      s.(endpoints := if AlsoInternal(layout) then public
                      else public[EndpointKey(k, InternalEndpoint) := Url(e, InternalEndpoint)])
  }

  function MirrorInternal(status: ParentStatus, k: string, c: Child): ParentStatus {
    if c.endpoints == None then status
    else status.(endpoints :=
      status.endpoints[EndpointKey(k, InternalEndpoint) := Url(c.endpoints.value, InternalEndpoint)])
  }

  /** A single API without the location API must use File: otherwise the pass returns an error. None is a
      run-time panic of the parser. */
  function Deployable(g: GlanceSpec, api: ApiTemplate, o: GlanceOracle): Option<bool> {
    match Webhook.IsFileBackend(g.customServiceConfig, true)
    case None => None
    case Some(top) =>
      if !o.locationApi && api.layout == SingleLayout then
        match Webhook.IsFileBackend(api.customServiceConfig, top)
        case None => None
        case Some(file) => Some(file && o.wsgi)
      else Some(o.wsgi)
  }

  function WriteFirst(p: Progress, g: GlanceSpec, k: string, o: GlanceOracle): Progress
    requires k in g.apis
  {
    var id := ChildId(k, FirstType(g.apis[k].layout));
    if p.flow != Running then p
    else if id in o.refused then p.(flow := Returned)
    else
      var children := CreateOrUpdate(p.children, g, id);
      p.(children := children, status := MirrorFirst(p.status, k, g.apis[k].layout, children[id]))
  }

  function WriteInternal(p: Progress, g: GlanceSpec, k: string, o: GlanceOracle): Progress
    requires k in g.apis
  {
    var id := ChildId(k, Internal);
    if p.flow != Running || !AlsoInternal(g.apis[k].layout) then p
    else if id in o.refused then p.(flow := Returned)
    else
      var children := CreateOrUpdate(p.children, g, id);
      p.(children := children, status := MirrorInternal(p.status, k, children[id]))
  }

  /** apiDeployment */
  function DeployApi(p: Progress, g: GlanceSpec, k: string, o: GlanceOracle): Progress {
    if p.flow != Running || k !in g.apis then p
    else
      match Deployable(g, g.apis[k], o)
      case None => p.(flow := Panicked)
      case Some(false) => p.(flow := Returned)
      case Some(true) => WriteInternal(WriteFirst(p, g, k, o), g, k, o)
  }

  function DeployApis(p: Progress, g: GlanceSpec, names: seq<string>, o: GlanceOracle): Progress {
    if names == [] then p
    else DeployApi(DeployApis(p, g, names[..|names| - 1], o), g, names[|names| - 1], o)
  }

  function Forget(status: ParentStatus, k: string): ParentStatus {
    ParentStatus(status.endpoints - {EndpointKey(k, Public), EndpointKey(k, InternalEndpoint)},
                 status.readyCounts - {k})
  }

  /** An object of an absent API is deleted, or found to be gone already, and its entries are forgotten;
      undeletable are those whose deletion fails for another reason than absence. */
  function CleanupOne(p: Progress, g: GlanceSpec, id: ChildId, o: GlanceOracle): Progress {
    if p.flow != Running || id.apiName in g.apis then p
    else if id in o.undeletable then p.(flow := Returned)
    else p.(children := p.children - {id}, status := Forget(p.status, id.apiName))
  }

  /** glanceAPICleanup */
  function Cleanup(p: Progress, g: GlanceSpec, listing: seq<ChildId>, o: GlanceOracle): Progress {
    if listing == [] then p
    else CleanupOne(Cleanup(p, g, listing[..|listing| - 1], o), g, listing[|listing| - 1], o)
  }

  /** The owned objects the cleanup gets to: one without a label ends it without an error. */
  function Walked(listing: seq<Listed>): seq<ChildId> {
    if listing == [] then []
    else
      match listing[0]
      case Own(id) => [id] + Walked(listing[1..])
      case OtherOwner => Walked(listing[1..])
      case Unlabelled => []
  }

  /** A failed listing is logged and skipped. */
  function Work(w: GlanceWorld, o: GlanceOracle): Progress {
    var p := Progress(w.children, w.status, if o.prelude then Running else Returned);
    var deployed := DeployApis(p, w.spec, o.names, o);
    if o.listed then Cleanup(deployed, w.spec, Walked(o.listing), o) else deployed
  }

  predicate AllObserved(children: Children) {
    forall id :: id in children ==> children[id].generation == children[id].observedGeneration
  }

  /** checkGlanceAPIsGeneration: every GlanceAPI of the namespace; None when they cannot be listed. */
  function AllGenerations(children: Children, others: Option<seq<Generation>>): Option<bool> {
    match others
    case None => None
    case Some(gs) => Some(AllObserved(children) && forall g :: g in gs ==> g.current == g.observed)
  }

  /** The pass and its deferred status patch, which a panic or a failure loses. */
  function Reconcile(w: GlanceWorld, o: GlanceOracle): GlanceWorld {
    var p := Work(w, o);
    var ready := p.flow == Running && o.rest && o.subsReady && AllGenerations(p.children, o.others) == Some(true);
    if p.flow == Panicked || !o.patch then w.(children := p.children)
    else GlanceWorld(w.spec, p.children, p.status, ready)
  }

  // ----- What a pass does to the objects -----

  /** Split, or no layout, stands for an external and an internal object, single and edge for one. */
  lemma ExpansionSpelled(g: GlanceSpec, k: string, t: ApiType)
    ensures ChildId(k, t) in Expansion(g) <==>
              && k in g.apis
              && match t
                 case External | Internal => g.apis[k].layout == SplitLayout || g.apis[k].layout == NoLayout
                 case Single => g.apis[k].layout == SingleLayout
                 case Edge => g.apis[k].layout == EdgeLayout
  {
    ExpansionMembers(g);
  }

  lemma ExpansionMembers(g: GlanceSpec)
    ensures forall id :: id in Expansion(g) <==> InExpansion(g, id)
  {
    forall id | InExpansion(g, id) ensures id in Expansion(g) {
      assert id == ChildId(id.apiName, id.apiType);
    }
  }

  /** The object carries the spec and the keystone annotation its API now stands for. */
  predicate UpToDate(c: Child, g: GlanceSpec, id: ChildId) {
    && id.apiName in g.apis
    && c.spec == ChildSpec(g, id.apiName, id.apiType)
    && c.keystone == (g.keystoneEndpoint == id.apiName)
  }

  /** p' differs from p only by up-to-date objects of the API k. */
  ghost predicate Wrote(p: Progress, p': Progress, g: GlanceSpec, k: string) {
    && p.children.Keys <= p'.children.Keys
    && (forall id :: id in p'.children ==>
          (id in p.children && p'.children[id] == p.children[id])
          || (id.apiName == k && InExpansion(g, id) && UpToDate(p'.children[id], g, id)))
    && (p'.flow == Running ==> p.flow == Running)
  }

  lemma WriteFirstObjects(p: Progress, g: GlanceSpec, k: string, o: GlanceOracle)
    requires k in g.apis
    ensures
      var p', id := WriteFirst(p, g, k, o), ChildId(k, FirstType(g.apis[k].layout));
      Wrote(p, p', g, k) && (p'.flow == Running ==> id in p'.children && UpToDate(p'.children[id], g, id))
  {
  }

  lemma WriteInternalObjects(p: Progress, g: GlanceSpec, k: string, o: GlanceOracle)
    requires k in g.apis
    ensures
      var p', id := WriteInternal(p, g, k, o), ChildId(k, Internal);
      && Wrote(p, p', g, k)
      && (p'.flow == Running && AlsoInternal(g.apis[k].layout) ==>
            id in p'.children && UpToDate(p'.children[id], g, id))
      && forall other :: other in p.children && other != id ==> p'.children[other] == p.children[other]
  {
  }

  lemma WriteObjects(p: Progress, g: GlanceSpec, k: string, o: GlanceOracle)
    requires k in g.apis
    ensures
      var p' := WriteInternal(WriteFirst(p, g, k, o), g, k, o);
      && Wrote(p, p', g, k)
      && (p'.flow == Running ==>
            forall id: ChildId :: id.apiName == k && InExpansion(g, id) ==>
              id in p'.children && UpToDate(p'.children[id], g, id))
  {
    var first := WriteFirst(p, g, k, o);
    WriteFirstObjects(p, g, k, o);
    WriteInternalObjects(first, g, k, o);
    forall id: ChildId | id.apiName == k && InExpansion(g, id)
      ensures || id == ChildId(k, FirstType(g.apis[k].layout))
              || (AlsoInternal(g.apis[k].layout) && id == ChildId(k, Internal))
    {
    }
  }

  /** Deploying only ever adds objects of the expansion, and if it goes through, the objects of the API are
      there and up to date. */
  lemma DeployApiObjects(p: Progress, g: GlanceSpec, k: string, o: GlanceOracle)
    ensures
      var p' := DeployApi(p, g, k, o);
      && Wrote(p, p', g, k)
      && (p'.flow == Running && k in g.apis ==>
            forall id: ChildId :: id.apiName == k && InExpansion(g, id) ==>
              id in p'.children && UpToDate(p'.children[id], g, id))
  {
    if k in g.apis {
      WriteObjects(p, g, k, o);
    }
  }

  lemma {:induction false} DeployApisObjects(p: Progress, g: GlanceSpec, names: seq<string>, o: GlanceOracle)
    ensures
      var p' := DeployApis(p, g, names, o);
      && p.children.Keys <= p'.children.Keys
      && (forall id :: id in p'.children ==>
            (id in p.children && p'.children[id] == p.children[id])
            || (InExpansion(g, id) && UpToDate(p'.children[id], g, id)))
      && (p'.flow == Running ==> p.flow == Running)
      && (p'.flow == Running ==>
            forall id: ChildId :: id.apiName in names && InExpansion(g, id) ==>
              id in p'.children && UpToDate(p'.children[id], g, id))
  {
    if names != [] {
      var n := |names| - 1;
      DeployApisObjects(p, g, names[..n], o);
      DeployApiObjects(DeployApis(p, g, names[..n], o), g, names[n], o);
      assert names == names[..n] + [names[n]];
    }
  }

  /** Cleaning up removes listed objects whose API is gone, all of them if it goes through. */
  lemma {:induction false} CleanupObjects(p: Progress, g: GlanceSpec, listing: seq<ChildId>, o: GlanceOracle)
    ensures
      var p' := Cleanup(p, g, listing, o);
      && p'.children.Keys <= p.children.Keys
      && (forall id :: id in p'.children ==> p'.children[id] == p.children[id])
      && (forall id :: id in p.children && id !in p'.children ==> id.apiName !in g.apis)
      && (p'.flow == Running ==> p.flow == Running)
      && (p'.flow == Running ==> forall id :: id in listing && id in p'.children ==> id.apiName in g.apis)
  {
    if listing != [] {
      var n := |listing| - 1;
      CleanupObjects(p, g, listing[..n], o);
      assert listing == listing[..n] + [listing[n]];
    }
  }
}
