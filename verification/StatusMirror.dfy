/** What the parent's status and readiness say of its objects after a pass
    (internal/controller/glance_controller.go). */
module StatusMirror {
  import opened Text
  import opened GlanceTypes
  import opened GlancePass
  import opened PassEffects
  import opened GlanceRuns
  import KeystoneEndpoints

  // ----- The mirrored values -----

  /** The url of an endpoint is that of the object serving it, once that object has published its urls. */
  ghost predicate Shown(children: Children, status: ParentStatus, k: string, layout: Layout, e: Endpoint) {
    (layout == EdgeLayout && e == Public) || ShownUrl(children, status, k, KeystoneEndpoints.Server(layout, e), e)
  }

  ghost predicate ShownUrl(children: Children, status: ParentStatus, k: string, t: ApiType, e: Endpoint) {
    var id, key := ChildId(k, t), EndpointKey(k, e);
    && id in children
    && (children[id].endpoints.Some? ==>
          && key in status.endpoints
          && status.endpoints[key] == if e in children[id].endpoints.value then children[id].endpoints.value[e] else "")
  }

  ghost predicate Mirrors(children: Children, status: ParentStatus, k: string, layout: Layout) {
    var first := ChildId(k, FirstType(layout));
    && first in children && k in status.readyCounts && status.readyCounts[k] == children[first].readyCount
    && Shown(children, status, k, layout, Public) && Shown(children, status, k, layout, InternalEndpoint)
  }

  lemma WriteMirrors(p: Progress, g: GlanceSpec, k: string, o: GlanceOracle)
    requires k in g.apis
    ensures
      var q := WriteInternal(WriteFirst(p, g, k, o), g, k, o);
      q.flow == Running ==> Mirrors(q.children, q.status, k, g.apis[k].layout)
  {
    if EndpointKey(k, Public) == EndpointKey(k, InternalEndpoint) {
      EndpointKeyInjective(k, Public, k, InternalEndpoint);
    }
  }

  /** An object and the entries of the API j are the same in both. */
  ghost predicate SameFor(p: Progress, q: Progress, j: string, e: Endpoint, t: ApiType) {
    var id, key := ChildId(j, t), EndpointKey(j, e);
    && (id in p.children ==> id in q.children && q.children[id] == p.children[id])
    && (j in p.status.readyCounts ==> j in q.status.readyCounts && q.status.readyCounts[j] == p.status.readyCounts[j])
    && (key in p.status.endpoints ==> key in q.status.endpoints && q.status.endpoints[key] == p.status.endpoints[key])
  }

  /** The steps for k leave the objects and the entries of every other API alone. */
  lemma FirstElsewhere(p: Progress, g: GlanceSpec, k: string, j: string, e: Endpoint, t: ApiType, o: GlanceOracle)
    requires k in g.apis && j != k
    ensures SameFor(p, WriteFirst(p, g, k, o), j, e, t)
  {
    KeysElsewhere(k, j, e);
  }

  lemma WriteElsewhere(p: Progress, g: GlanceSpec, k: string, j: string, e: Endpoint, t: ApiType, o: GlanceOracle)
    requires k in g.apis && j != k
    ensures SameFor(p, WriteInternal(WriteFirst(p, g, k, o), g, k, o), j, e, t)
  {
    FirstElsewhere(p, g, k, j, e, t, o);
    InternalElsewhere(WriteFirst(p, g, k, o), g, k, j, e, t, o);
  }

  lemma InternalElsewhere(p: Progress, g: GlanceSpec, k: string, j: string, e: Endpoint, t: ApiType, o: GlanceOracle)
    requires k in g.apis && j != k
    ensures SameFor(p, WriteInternal(p, g, k, o), j, e, t)
  {
    KeysElsewhere(k, j, e);
  }

  lemma WriteKeepsMirror(p: Progress, g: GlanceSpec, k: string, j: string, layout: Layout, o: GlanceOracle)
    requires k in g.apis && j != k && Mirrors(p.children, p.status, j, layout)
    ensures var q := WriteInternal(WriteFirst(p, g, k, o), g, k, o); Mirrors(q.children, q.status, j, layout)
  {
    WriteElsewhere(p, g, k, j, Public, FirstType(layout), o);
    WriteElsewhere(p, g, k, j, Public, KeystoneEndpoints.Server(layout, Public), o);
    WriteElsewhere(p, g, k, j, InternalEndpoint, KeystoneEndpoints.Server(layout, InternalEndpoint), o);
  }

  lemma DeployApiMirrors(p: Progress, g: GlanceSpec, k: string, j: string, o: GlanceOracle)
    requires j in g.apis && (k == j || Mirrors(p.children, p.status, j, g.apis[j].layout))
    ensures var q := DeployApi(p, g, k, o); q.flow == Running ==> Mirrors(q.children, q.status, j, g.apis[j].layout)
  {
    if k in g.apis {
      if k == j {
        WriteMirrors(p, g, k, o);
      } else {
        WriteKeepsMirror(p, g, k, j, g.apis[j].layout, o);
      }
    }
  }

  lemma {:induction false} DeployMirrors(p: Progress, g: GlanceSpec, names: seq<string>, j: string, o: GlanceOracle)
    requires j in g.apis && j in names
    ensures
      var q := DeployApis(p, g, names, o);
      q.flow == Running ==> Mirrors(q.children, q.status, j, g.apis[j].layout)
  {
    var n := |names| - 1;
    var before := DeployApis(p, g, names[..n], o);
    assert names == names[..n] + [names[n]];
    DeployApiObjects(before, g, names[n], o);
    if names[n] != j {
      DeployMirrors(p, g, names[..n], j, o);
    }
    if before.flow == Running {
      DeployApiMirrors(before, g, names[n], j, o);
    }
  }

  lemma CleanupOneMirrors(p: Progress, g: GlanceSpec, id: ChildId, j: string, o: GlanceOracle)
    requires j in g.apis && Mirrors(p.children, p.status, j, g.apis[j].layout)
    ensures var q := CleanupOne(p, g, id, o); Mirrors(q.children, q.status, j, g.apis[j].layout)
  {
    if id.apiName != j {
      ForgetExactly(p.status, id.apiName, j, Public);
      ForgetExactly(p.status, id.apiName, j, InternalEndpoint);
    }
  }

  lemma {:induction false} CleanupMirrors(p: Progress, g: GlanceSpec, listing: seq<ChildId>, j: string, o: GlanceOracle)
    requires j in g.apis && Mirrors(p.children, p.status, j, g.apis[j].layout)
    ensures var q := Cleanup(p, g, listing, o); Mirrors(q.children, q.status, j, g.apis[j].layout)
  {
    if listing != [] {
      var n := |listing| - 1;
      CleanupMirrors(p, g, listing[..n], j, o);
      CleanupOneMirrors(Cleanup(p, g, listing[..n], o), g, listing[n], j, o);
    }
  }

  /** After a complete and persisted pass the ready count of every API is that of its first object, and each
      of its endpoints shows the url of the object that serves it, whatever the status held before. */
  lemma CompletePassMirrors(w: GlanceWorld, o: GlanceOracle, j: string)
    requires Complete(w, o) && o.patch && j in w.spec.apis
    ensures Mirrors(Reconcile(w, o).children, Reconcile(w, o).status, j, w.spec.apis[j].layout)
  {
    var p := Progress(w.children, w.status, Running);
    var deployed := DeployApis(p, w.spec, o.names, o);
    WorkExactly(w, o);
    CleanupObjects(deployed, w.spec, Walked(o.listing), o);
    DeployMirrors(p, w.spec, o.names, j, o);
    CleanupMirrors(deployed, w.spec, Walked(o.listing), j, o);
  }

  // ----- Readiness and change -----

  /** What a pass may do to an object: its own status stays, a change of its spec is a new generation, which is
      still to be observed, and no other change is; a new object has reported nothing yet. */
  ghost predicate Advances(children: Children, children': Children, id: ChildId)
    requires id in children'
  {
    if id in children then
      && children'[id].observedGeneration == children[id].observedGeneration
      && children'[id].readyCount == children[id].readyCount && children'[id].endpoints == children[id].endpoints
      && children'[id].generation >= children[id].generation
      && (children'[id].spec != children[id].spec ==> children'[id].generation > children[id].generation)
    else
      && children'[id].observedGeneration < children'[id].generation
      && children'[id].readyCount == 0 && children'[id].endpoints == None
  }

  lemma DeployApiAdvances(p: Progress, g: GlanceSpec, k: string, o: GlanceOracle)
    ensures AllAdvance(p.children, DeployApi(p, g, k, o).children)
  {
    if k in g.apis {
      WriteAdvances(p, g, k, o);
    }
  }

  ghost predicate AllAdvance(children: Children, children': Children) {
    children.Keys <= children'.Keys && forall id :: id in children' ==> Advances(children, children', id)
  }

  lemma AdvanceTwice(a: Children, b: Children, c: Children)
    requires AllAdvance(a, b) && AllAdvance(b, c)
    ensures AllAdvance(a, c)
  {
    forall id | id in c ensures Advances(a, c, id) {
      assert Advances(b, c, id);
      assert id in b ==> Advances(a, b, id);
    }
  }

  lemma WriteAdvances(p: Progress, g: GlanceSpec, k: string, o: GlanceOracle)
    requires k in g.apis
    ensures AllAdvance(p.children, WriteInternal(WriteFirst(p, g, k, o), g, k, o).children)
  {
    var first := WriteFirst(p, g, k, o);
    CreateAdvances(p.children, g, ChildId(k, FirstType(g.apis[k].layout)));
    assert AllAdvance(p.children, first.children);
    CreateAdvances(first.children, g, ChildId(k, Internal));
    AdvanceTwice(p.children, first.children, WriteInternal(first, g, k, o).children);
  }

  lemma CreateAdvances(children: Children, g: GlanceSpec, id: ChildId)
    requires id.apiName in g.apis
    ensures AllAdvance(children, CreateOrUpdate(children, g, id))
  {
  }

  lemma {:induction false} DeployAdvances(p: Progress, g: GlanceSpec, names: seq<string>, o: GlanceOracle)
    ensures AllAdvance(p.children, DeployApis(p, g, names, o).children)
  {
    if names != [] {
      var n := |names| - 1;
      var before := DeployApis(p, g, names[..n], o);
      DeployAdvances(p, g, names[..n], o);
      DeployApiAdvances(before, g, names[n], o);
      AdvanceTwice(p.children, before.children, DeployApi(before, g, names[n], o).children);
    }
  }

  /** A pass that makes the Glance ready has created no object and changed the spec of none: it found them
      all as the spec wants them, and observed. */
  lemma ReadyChangesNothing(w: GlanceWorld, o: GlanceOracle)
    requires Reconcile(w, o).ready && o.patch && Work(w, o).flow != Panicked
    requires Bounded(w.children)
    ensures forall id :: id in Reconcile(w, o).children ==>
              id in w.children && Reconcile(w, o).children[id].spec == w.children[id].spec
  {
    var p := Progress(w.children, w.status, if o.prelude then Running else Returned);
    var deployed := DeployApis(p, w.spec, o.names, o);
    DeployAdvances(p, w.spec, o.names, o);
    CleanupObjects(deployed, w.spec, Walked(o.listing), o);
    var children := Reconcile(w, o).children;
    forall id | id in children ensures id in w.children && children[id].spec == w.children[id].spec {
      assert children[id] == deployed.children[id] && Advances(w.children, deployed.children, id);
    }
  }

  // ----- Readiness over runs -----

  /** No controller has observed a generation that does not exist. */
  predicate Bounded(children: Children) {
    forall id :: id in children ==> children[id].observedGeneration <= children[id].generation
  }

  lemma PassBounded(w: GlanceWorld, o: GlanceOracle)
    requires Bounded(w.children)
    ensures Bounded(Reconcile(w, o).children)
  {
    var p := Progress(w.children, w.status, if o.prelude then Running else Returned);
    var deployed := DeployApis(p, w.spec, o.names, o);
    DeployAdvances(p, w.spec, o.names, o);
    CleanupObjects(deployed, w.spec, Walked(o.listing), o);
    var children := Reconcile(w, o).children;
    forall id | id in children ensures children[id].observedGeneration <= children[id].generation {
      assert children[id] == deployed.children[id] && Advances(w.children, deployed.children, id);
    }
  }

  lemma {:induction false} EveryRunBounded(site: Site, w: GlanceWorld, es: seq<Event>)
    requires Bounded(w.children)
    ensures Bounded(Run(site, w, es).children)
    decreases |es|
  {
    if es != [] {
      if es[0].Pass? {
        PassBounded(w, es[0].o);
      }
      EveryRunBounded(site, Next(site, w, es[0]), es[1..]);
    }
  }

  /** So after any run a pass that makes the Glance ready has created no object and changed the spec of none. */
  lemma EveryRunReadyChangesNothing(site: Site, w: GlanceWorld, es: seq<Event>, o: GlanceOracle)
    requires Bounded(w.children)
    requires
      var v := Run(site, w, es);
      Reconcile(v, o).ready && o.patch && Work(v, o).flow != Panicked
    ensures
      var v := Run(site, w, es);
      forall id :: id in Reconcile(v, o).children ==>
        id in v.children && Reconcile(v, o).children[id].spec == v.children[id].spec
  {
    EveryRunBounded(site, w, es);
    ReadyChangesNothing(Run(site, w, es), o);
  }

  /** A pass leaves what the objects report about themselves alone. */
  lemma PassKeepsReports(w: GlanceWorld, o: GlanceOracle)
    ensures
      var children := Reconcile(w, o).children;
      forall id :: id in children && id in w.children ==>
        && children[id].observedGeneration == w.children[id].observedGeneration
        && children[id].readyCount == w.children[id].readyCount
        && children[id].endpoints == w.children[id].endpoints
  {
    var p := Progress(w.children, w.status, if o.prelude then Running else Returned);
    var deployed := DeployApis(p, w.spec, o.names, o);
    DeployAdvances(p, w.spec, o.names, o);
    CleanupObjects(deployed, w.spec, Walked(o.listing), o);
    var children := Reconcile(w, o).children;
    forall id | id in children && id in w.children
      ensures children[id].readyCount == w.children[id].readyCount && children[id].endpoints == w.children[id].endpoints
      ensures children[id].observedGeneration == w.children[id].observedGeneration
    {
      assert children[id] == deployed.children[id] && Advances(w.children, deployed.children, id);
    }
  }
}
