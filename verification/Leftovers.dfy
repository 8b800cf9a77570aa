/** What becomes of the status entries of an API that has neither a place in the spec nor an object left
    (internal/controller/glance_controller.go, glanceAPICleanup). */
module Leftovers {
  import opened GlanceTypes
  import opened GlancePass
  import opened PassEffects
  import opened GlanceRuns

  ghost predicate Abandoned(w: GlanceWorld, k: string) {
    k !in w.spec.apis && !HasObject(w.children, k)
  }

  /** The entries of the API k, its ready count and its endpoints, are the same in both. */
  ghost predicate SameEntries(a: ParentStatus, b: ParentStatus, k: string) {
    && (k in a.readyCounts <==> k in b.readyCounts) && (k in a.readyCounts ==> b.readyCounts[k] == a.readyCounts[k])
    && SameUrl(a, b, EndpointKey(k, Public)) && SameUrl(a, b, EndpointKey(k, InternalEndpoint))
  }

  predicate SameUrl(a: ParentStatus, b: ParentStatus, key: string) {
    (key in a.endpoints <==> key in b.endpoints) && (key in a.endpoints ==> b.endpoints[key] == a.endpoints[key])
  }

  lemma WriteFirstKeepsEntries(p: Progress, g: GlanceSpec, j: string, o: GlanceOracle, k: string)
    requires j in g.apis && k != j
    ensures SameEntries(p.status, WriteFirst(p, g, j, o).status, k)
  {
    KeysElsewhere(j, k, Public);
    KeysElsewhere(j, k, InternalEndpoint);
  }

  lemma WriteInternalKeepsEntries(p: Progress, g: GlanceSpec, j: string, o: GlanceOracle, k: string)
    requires j in g.apis && k != j
    ensures SameEntries(p.status, WriteInternal(p, g, j, o).status, k)
  {
    KeysElsewhere(j, k, Public);
    KeysElsewhere(j, k, InternalEndpoint);
  }

  lemma {:induction false} DeployKeepsEntries(
      p: Progress, g: GlanceSpec, names: seq<string>, o: GlanceOracle, k: string)
    requires k !in g.apis
    ensures SameEntries(p.status, DeployApis(p, g, names, o).status, k)
  {
    if names != [] {
      var n := |names| - 1;
      var before := DeployApis(p, g, names[..n], o);
      DeployKeepsEntries(p, g, names[..n], o, k);
      if names[n] in g.apis {
        WriteFirstKeepsEntries(before, g, names[n], o, k);
        WriteInternalKeepsEntries(WriteFirst(before, g, names[n], o), g, names[n], o, k);
      }
    }
  }

  predicate NoEntries(status: ParentStatus, k: string) {
    k !in status.readyCounts && EndpointKey(k, Public) !in status.endpoints
    && EndpointKey(k, InternalEndpoint) !in status.endpoints
  }

  /** Some object of the API is reached. */
  ghost predicate ReachesApi(g: GlanceSpec, listing: seq<ChildId>, o: GlanceOracle, k: string) {
    exists id :: Reaches(g, listing, o, id) && id.apiName == k
  }

  /** The cleanup forgets the entries of exactly the APIs of which it reaches an object, and no other's. */
  lemma {:induction false} CleanupEntriesExactly(
      p: Progress, g: GlanceSpec, listing: seq<ChildId>, o: GlanceOracle, k: string)
    requires p.flow == Running
    ensures
      var status := Cleanup(p, g, listing, o).status;
      if ReachesApi(g, listing, o, k) then NoEntries(status, k) else SameEntries(p.status, status, k)
  {
    if listing != [] {
      var n := |listing| - 1;
      CleanupEntriesExactly(p, g, listing[..n], o, k);
      CleanupExactly(p, g, listing[..n], o);
      ReachesApiSnoc(g, listing, o, k);
      if listing[n].apiName != k {
        KeysElsewhere(listing[n].apiName, k, Public);
        KeysElsewhere(listing[n].apiName, k, InternalEndpoint);
      }
    }
  }

  lemma ReachesApiSnoc(g: GlanceSpec, listing: seq<ChildId>, o: GlanceOracle, k: string)
    requires listing != []
    ensures
      var n := |listing| - 1;
      ReachesApi(g, listing, o, k) <==>
        || ReachesApi(g, listing[..n], o, k)
        || (!Stops(g, listing[..n], o) && listing[n].apiName == k && Absent(g, listing[n])
            && listing[n] !in o.undeletable)
  {
    var n := |listing| - 1;
    ReachesSnoc(g, listing, o, listing[n]);
    if id :| Reaches(g, listing, o, id) && id.apiName == k {
      ReachesSnoc(g, listing, o, id);
    }
    if id :| Reaches(g, listing[..n], o, id) && id.apiName == k {
      ReachesSnoc(g, listing, o, id);
    }
  }

  /** The pass stores its status, and its cleanup reaches an object of the API, be it one that is still listed
      though it is gone. */
  ghost predicate Forgets(w: GlanceWorld, e: Event, k: string) {
    e.Pass? && !LosesStatus(w, e) && exists id :: Deletes(w.spec, e.o, id) && id.apiName == k
  }

  /** An event forgets all entries of an abandoned API or keeps every one unchanged, and nothing makes it
      anything but abandoned while its name stays unused. */
  lemma NextEntriesExactly(site: Site, w: GlanceWorld, e: Event, k: string)
    requires Abandoned(w, k) && k !in Next(site, w, e).spec.apis
    ensures
      var w' := Next(site, w, e);
      Abandoned(w', k) && if Forgets(w, e, k) then NoEntries(w'.status, k) else SameEntries(w.status, w'.status, k)
  {
    if e.Pass? {
      PassAbandons(w, e.o, k);
      WorkExactly(w, e.o);
      if !LosesStatus(w, e) {
        WorkEntriesExactly(w, e.o, k);
      }
    }
  }

  lemma PassAbandons(w: GlanceWorld, o: GlanceOracle, k: string)
    requires Abandoned(w, k)
    ensures Abandoned(Reconcile(w, o), k)
  {
    WorkObjects(w, o);
  }

  lemma WorkEntriesExactly(w: GlanceWorld, o: GlanceOracle, k: string)
    requires k !in w.spec.apis
    ensures
      var status := Work(w, o).status;
      if exists id :: Deletes(w.spec, o, id) && id.apiName == k then NoEntries(status, k)
      else SameEntries(w.status, status, k)
  {
    var p := Progress(w.children, w.status, if o.prelude then Running else Returned);
    var deployed := DeployApis(p, w.spec, o.names, o);
    DeployFlowExactly(p, w.spec, o.names, o);
    DeployKeepsEntries(p, w.spec, o.names, o, k);
    if o.listed {
      if deployed.flow == Running {
        CleanupEntriesExactly(deployed, w.spec, Walked(o.listing), o, k);
        assert forall id :: Deletes(w.spec, o, id) <==> Reaches(w.spec, Walked(o.listing), o, id);
      } else {
        StoppedCleanup(deployed, w.spec, Walked(o.listing), o);
      }
    }
  }

  /** The name is in the spec neither at the start nor after any event. */
  ghost predicate NeverNames(site: Site, w: GlanceWorld, es: seq<Event>, k: string)
    decreases |es|
  {
    k !in w.spec.apis && (es != [] ==> NeverNames(site, Next(site, w, es[0]), es[1..], k))
  }

  ghost predicate NeverForgets(site: Site, w: GlanceWorld, es: seq<Event>, k: string)
    decreases |es|
  {
    es == [] || (!Forgets(w, es[0], k) && NeverForgets(site, Next(site, w, es[0]), es[1..], k))
  }

  /** Over every run that does not use the name, the entries of an abandoned API, ready count and endpoints
      alike, stay unchanged if and only if there are none or no pass that stores its status reaches an object
      of the API in its listing. */
  lemma {:induction false} EntriesStayExactly(site: Site, w: GlanceWorld, es: seq<Event>, k: string)
    requires Abandoned(w, k) && NeverNames(site, w, es, k)
    ensures
      var w' := Run(site, w, es);
      && Abandoned(w', k)
      && (SameEntries(w.status, w'.status, k) <==> NoEntries(w.status, k) || NeverForgets(site, w, es, k))
      && (SameEntries(w.status, w'.status, k) || NoEntries(w'.status, k))
    decreases |es|
  {
    if es != [] {
      assert NeverNames(site, Next(site, w, es[0]), es[1..], k);
      NextEntriesExactly(site, w, es[0], k);
      EntriesStayExactly(site, Next(site, w, es[0]), es[1..], k);
    }
  }

  /** A pass that deletes the last object of an API and loses its status leaves the API abandoned with all the
      entries it had. */
  lemma LostDeletionAbandons(site: Site, w: GlanceWorld, e: Event, id: ChildId)
    requires LosesStatus(w, e)
    requires id in w.children && Deletes(w.spec, e.o, id) && !HasObject(Kept(w, e.o), id.apiName)
    ensures Abandoned(Next(site, w, e), id.apiName) && Next(site, w, e).status == w.status
  {
    WorkExactly(w, e.o);
    KeptStands(w, e.o, id);
  }
}
