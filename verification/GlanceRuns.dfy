/** What holds of the parent's objects and status over every run of admitted updates and possibly failing
    passes. */
module GlanceRuns {
  import opened Text
  import opened GlanceTypes
  import opened GlancePass
  import opened PassEffects
  import Inheritance
  import Webhook
  import Admission

  datatype Event =
    | Pass(o: GlanceOracle)
    | Update(spec: GlanceSpec, deprecatedOk: bool)
    | ChildProgress(id: ChildId, observedGeneration: nat, readyCount: nat, endpoints: Option<map<Endpoint, string>>)

  /** The name and the defaults of the operator are fixed; an update goes through the webhook. */
  datatype Site = Site(name: string, defaults: Webhook.Defaults)

  ghost function Updated(site: Site, w: GlanceWorld, e: Event): GlanceSpec
    requires e.Update?
  {
    Admission.Serve(site.name, site.defaults, Some(w.spec), Admission.Update(e.spec, e.deprecatedOk)).value
  }

  /** A controller cannot have observed a generation that does not exist. */
  ghost function Next(site: Site, w: GlanceWorld, e: Event): GlanceWorld {
    match e
    case Pass(o) => Reconcile(w, o)
    case Update(_, _) => w.(spec := Updated(site, w, e))
    case ChildProgress(id, observed, ready, endpoints) =>
      if id in w.children && observed <= w.children[id].generation then
        w.(children := w.children[id :=
          w.children[id].(observedGeneration := observed, readyCount := ready, endpoints := endpoints)])
      else w
  }

  ghost function Run(site: Site, w: GlanceWorld, es: seq<Event>): GlanceWorld
    decreases |es|
  {
    if es == [] then w else Run(site, Next(site, w, es[0]), es[1..])
  }

  // ----- Convergence of the objects -----

  /** The pass walks every API of the spec and every object of an API that is not, and reaches the end of the
      cleanup. */
  ghost predicate Complete(w: GlanceWorld, o: GlanceOracle) {
    && (forall k :: k in w.spec.apis ==> k in o.names)
    && o.listed && (forall id :: id in w.children && Absent(w.spec, id) ==> id in Walked(o.listing))
    && GoesThrough(w.spec, o)
  }

  /** Every object of a current API is one its layout stands for. */
  ghost predicate NoStale(g: GlanceSpec, children: Children) {
    forall id :: id in children && id.apiName in g.apis ==> InExpansion(g, id)
  }

  lemma WorkObjects(w: GlanceWorld, o: GlanceOracle)
    ensures
      var p := Work(w, o);
      && (forall id :: id in p.children ==> (id in w.children && p.children[id] == w.children[id])
                                            || (InExpansion(w.spec, id) && UpToDate(p.children[id], w.spec, id)))
      && (forall id :: id in w.children && id !in p.children ==> id.apiName !in w.spec.apis)
      && (Complete(w, o) ==>
            && (forall id :: id in p.children ==> id.apiName in w.spec.apis)
            && (forall id :: InExpansion(w.spec, id) ==> id in p.children && UpToDate(p.children[id], w.spec, id)))
  {
    var p := Progress(w.children, w.status, if o.prelude then Running else Returned);
    DeployApisObjects(p, w.spec, o.names, o);
    CleanupObjects(DeployApis(p, w.spec, o.names, o), w.spec, Walked(o.listing), o);
    WorkExactly(w, o);
  }

  /** A complete pass leaves exactly the objects of the spec's layouts if and only if no object of a current
      API was stale: the cleanup compares names, not layouts. */
  lemma CompletePassConvergesExactly(w: GlanceWorld, o: GlanceOracle)
    requires Complete(w, o)
    ensures Reconcile(w, o).children.Keys == Expansion(w.spec) <==> NoStale(w.spec, w.children)
    ensures forall id :: id in Expansion(w.spec) ==>
              id in Reconcile(w, o).children && UpToDate(Reconcile(w, o).children[id], w.spec, id)
  {
    WorkObjects(w, o);
    ExpansionMembers(w.spec);
    var children := Reconcile(w, o).children;
    if NoStale(w.spec, w.children) {
      assert forall id :: id in children.Keys <==> id in Expansion(w.spec);
    } else {
      var id :| id in w.children && id.apiName in w.spec.apis && !InExpansion(w.spec, id);
      assert id in children;
    }
  }

  /** The update brings back the name of an API whose old objects survive, with another layout. */
  ghost predicate ReAdds(site: Site, w: GlanceWorld, e: Event) {
    e.Update? && exists id :: id in w.children && id.apiName !in w.spec.apis
                              && id.apiName in Updated(site, w, e).apis && !InExpansion(Updated(site, w, e), id)
  }

  /** Staleness appears exactly with such an update; the webhook excludes every other way. */
  lemma StaleExactlyByReAdding(site: Site, w: GlanceWorld, e: Event)
    requires NoStale(w.spec, w.children)
    ensures NoStale(Next(site, w, e).spec, Next(site, w, e).children) <==> !ReAdds(site, w, e)
  {
    match e
    case Pass(o) => WorkObjects(w, o);
    case Update(_, _) =>
      forall k | k in w.spec.apis && k in Updated(site, w, e).apis
        ensures Updated(site, w, e).apis[k].layout == w.spec.apis[k].layout
      {
        Admission.UpdateKeepsLayout(
          site.name, site.defaults, Some(w.spec), Admission.Update(e.spec, e.deprecatedOk), k);
      }
    case ChildProgress(_, _, _, _) =>
  }

  ghost predicate NeverReAdds(site: Site, w: GlanceWorld, es: seq<Event>)
    decreases |es|
  {
    es == [] || (!ReAdds(site, w, es[0]) && NeverReAdds(site, Next(site, w, es[0]), es[1..]))
  }

  lemma {:induction false} NeverStale(site: Site, w: GlanceWorld, es: seq<Event>)
    requires NoStale(w.spec, w.children) && NeverReAdds(site, w, es)
    ensures NoStale(Run(site, w, es).spec, Run(site, w, es).children)
    decreases |es|
  {
    if es != [] {
      StaleExactlyByReAdding(site, w, es[0]);
      NeverStale(site, Next(site, w, es[0]), es[1..]);
    }
  }

  /** After any such run, however many of its passes failed half way, one complete pass leaves exactly the
      objects the spec stands for, each with the API, the type and every field asked for, and the keystone
      annotation exactly on those of the API that is to register. */
  lemma EveryRunConverges(site: Site, w: GlanceWorld, es: seq<Event>, o: GlanceOracle)
    requires NoStale(w.spec, w.children) && NeverReAdds(site, w, es)
    requires Complete(Run(site, w, es), o)
    ensures
      var v := Run(site, w, es);
      var children := Reconcile(v, o).children;
      && children.Keys == Expansion(v.spec)
      && (forall id :: id in children ==> UpToDate(children[id], v.spec, id))
      && forall id :: id in children ==>
           && id.apiName in v.spec.apis && Inheritance.Asked(children[id].spec, v.spec, id.apiName, id.apiType)
           && (children[id].keystone <==> id.apiName == v.spec.keystoneEndpoint)
  {
    var v := Run(site, w, es);
    NeverStale(site, w, es);
    CompletePassConvergesExactly(v, o);
    var children := Reconcile(v, o).children;
    forall id | id in children
      ensures id.apiName in v.spec.apis && Inheritance.Asked(children[id].spec, v.spec, id.apiName, id.apiType)
    {
      assert UpToDate(children[id], v.spec, id);
      Inheritance.AskedExactly(children[id].spec, v.spec, id.apiName, id.apiType);
    }
  }

  // ----- Objects outside the expansion -----

  /** An object of a current API that its layout does not stand for. */
  predicate Stray(w: GlanceWorld, id: ChildId) {
    id in w.children && id.apiName in w.spec.apis && !InExpansion(w.spec, id)
  }

  /** The name is in the spec at the start and after every event. */
  ghost predicate AlwaysNames(site: Site, w: GlanceWorld, es: seq<Event>, k: string)
    decreases |es|
  {
    k in w.spec.apis && (es != [] ==> AlwaysNames(site, Next(site, w, es[0]), es[1..], k))
  }

  /** While its API stays in the spec nothing ever removes a stray object: no pass, and no admitted update. */
  lemma {:induction false} StrayStays(site: Site, w: GlanceWorld, es: seq<Event>, id: ChildId)
    requires Stray(w, id) && AlwaysNames(site, w, es, id.apiName)
    ensures Stray(Run(site, w, es), id)
    decreases |es|
  {
    if es != [] {
      var e := es[0];
      if e.Pass? {
        WorkObjects(w, e.o);
      } else if e.Update? {
        Admission.UpdateKeepsLayout(
          site.name, site.defaults, Some(w.spec), Admission.Update(e.spec, e.deprecatedOk), id.apiName);
      }
      assert AlwaysNames(site, Next(site, w, e), es[1..], id.apiName);
      StrayStays(site, Next(site, w, e), es[1..], id);
    }
  }

  /** So no complete pass of any such run leaves the objects the spec stands for. */
  lemma StrayNeverConverges(site: Site, w: GlanceWorld, es: seq<Event>, o: GlanceOracle, id: ChildId)
    requires Stray(w, id) && AlwaysNames(site, w, es, id.apiName)
    requires Complete(Run(site, w, es), o)
    ensures Reconcile(Run(site, w, es), o).children.Keys != Expansion(Run(site, w, es).spec)
  {
    StrayStays(site, w, es, id);
    CompletePassConvergesExactly(Run(site, w, es), o);
  }

  // ----- Readiness -----

  /** A pass that makes the Glance ready has seen every object observed by its own controller at its last
      generation; with the objects up to date, each of them runs the spec this very pass wrote. */
  lemma ReadyMeansObserved(w: GlanceWorld, o: GlanceOracle)
    requires Reconcile(w, o).ready && o.patch && Work(w, o).flow != Panicked
    requires forall k :: k in w.spec.apis ==> k in o.names
    ensures
      var w' := Reconcile(w, o);
      && o.subsReady
      && o.others.Some? && (forall g :: g in o.others.value ==> g.current == g.observed)
      && (forall id :: id in w'.children ==> w'.children[id].generation == w'.children[id].observedGeneration)
      && (forall id :: id in Expansion(w.spec) ==> id in w'.children && UpToDate(w'.children[id], w.spec, id))
  {
    var p := Progress(w.children, w.status, if o.prelude then Running else Returned);
    DeployApisObjects(p, w.spec, o.names, o);
    CleanupObjects(DeployApis(p, w.spec, o.names, o), w.spec, Walked(o.listing), o);
    ExpansionMembers(w.spec);
  }

  // ----- The parent's status maps -----

  ghost predicate HasObject(children: Children, k: string) {
    exists id :: id in children && id.apiName == k
  }

  /** Some object serves the endpoint of the key. */
  ghost predicate Served(children: Children, key: string) {
    exists id :: id in children && EndpointOf(id, key)
  }

  ghost predicate EndpointOf(id: ChildId, key: string) {
    || key == EndpointKey(id.apiName, InternalEndpoint)
    || (key == EndpointKey(id.apiName, Public) && id.apiType != Edge)
  }

  /** Every entry of the status maps belongs to an object that exists. */
  ghost predicate Tied(children: Children, status: ParentStatus) {
    && (forall k :: k in status.readyCounts ==> HasObject(children, k))
    && (forall key :: key in status.endpoints ==> Served(children, key))
  }

  lemma CreateKeepsTied(children: Children, status: ParentStatus, g: GlanceSpec, id: ChildId)
    requires Tied(children, status) && id.apiName in g.apis
    ensures Tied(CreateOrUpdate(children, g, id), status) && id in CreateOrUpdate(children, g, id)
  {
    var children' := CreateOrUpdate(children, g, id);
    assert children.Keys <= children'.Keys;
    forall k | k in status.readyCounts ensures HasObject(children', k) {
      var other :| other in children && other.apiName == k;
      assert other in children';
    }
    forall key | key in status.endpoints ensures Served(children', key) {
      var other :| other in children && EndpointOf(other, key);
      assert other in children';
    }
  }

  lemma MirrorFirstTied(children: Children, status: ParentStatus, k: string, layout: Layout, c: Child)
    requires Tied(children, status) && ChildId(k, FirstType(layout)) in children
    ensures Tied(children, MirrorFirst(status, k, layout, c))
  {
    var id := ChildId(k, FirstType(layout));
    var status' := MirrorFirst(status, k, layout, c);
    forall key | key in status'.endpoints && key !in status.endpoints ensures EndpointOf(id, key) {
    }
  }

  lemma MirrorInternalTied(children: Children, status: ParentStatus, k: string, c: Child)
    requires Tied(children, status) && ChildId(k, Internal) in children
    ensures Tied(children, MirrorInternal(status, k, c))
  {
    assert EndpointOf(ChildId(k, Internal), EndpointKey(k, InternalEndpoint));
  }

  /** The step keeps the status tied, forgets no ready count, and adds the one of k if it goes through. */
  ghost predicate StaysTied(p: Progress, p': Progress) {
    && Tied(p'.children, p'.status)
    && p.status.readyCounts.Keys <= p'.status.readyCounts.Keys
    && (p'.flow == Running ==> p.flow == Running)
  }

  lemma WriteFirstTied(p: Progress, g: GlanceSpec, k: string, o: GlanceOracle)
    requires Tied(p.children, p.status) && k in g.apis
    ensures StaysTied(p, WriteFirst(p, g, k, o))
    ensures WriteFirst(p, g, k, o).flow == Running ==> k in WriteFirst(p, g, k, o).status.readyCounts
  {
    var layout := g.apis[k].layout;
    var id := ChildId(k, FirstType(layout));
    CreateKeepsTied(p.children, p.status, g, id);
    var children := CreateOrUpdate(p.children, g, id);
    MirrorFirstTied(children, p.status, k, layout, children[id]);
  }

  lemma WriteInternalTied(p: Progress, g: GlanceSpec, k: string, o: GlanceOracle)
    requires Tied(p.children, p.status) && k in g.apis
    ensures StaysTied(p, WriteInternal(p, g, k, o))
  {
    var id := ChildId(k, Internal);
    CreateKeepsTied(p.children, p.status, g, id);
    var children := CreateOrUpdate(p.children, g, id);
    MirrorInternalTied(children, p.status, k, children[id]);
  }

  lemma DeployApiTied(p: Progress, g: GlanceSpec, k: string, o: GlanceOracle)
    requires Tied(p.children, p.status)
    ensures StaysTied(p, DeployApi(p, g, k, o))
    ensures DeployApi(p, g, k, o).flow == Running && k in g.apis ==> k in DeployApi(p, g, k, o).status.readyCounts
  {
    if k in g.apis {
      WriteFirstTied(p, g, k, o);
      WriteInternalTied(WriteFirst(p, g, k, o), g, k, o);
    }
  }

  lemma {:induction false} DeployTied(p: Progress, g: GlanceSpec, names: seq<string>, o: GlanceOracle)
    requires Tied(p.children, p.status)
    ensures StaysTied(p, DeployApis(p, g, names, o))
    ensures DeployApis(p, g, names, o).flow == Running ==>
              forall k :: k in names && k in g.apis ==> k in DeployApis(p, g, names, o).status.readyCounts
  {
    if names != [] {
      var n := |names| - 1;
      DeployTied(p, g, names[..n], o);
      DeployApiTied(DeployApis(p, g, names[..n], o), g, names[n], o);
      assert names == names[..n] + [names[n]];
    }
  }

  /** Forgetting an API takes all its entries and, hyphens or not, no entry of another API. */
  lemma ForgetExactly(status: ParentStatus, k: string, other: string, e: Endpoint)
    ensures
      var s := Forget(status, k);
      && (other != k ==>
            && (EndpointKey(other, e) in s.endpoints <==> EndpointKey(other, e) in status.endpoints)
            && (EndpointKey(other, e) in s.endpoints ==>
                  s.endpoints[EndpointKey(other, e)] == status.endpoints[EndpointKey(other, e)])
            && (other in s.readyCounts <==> other in status.readyCounts))
      && (other == k ==> EndpointKey(k, e) !in s.endpoints && k !in s.readyCounts)
  {
    if other != k {
      KeysElsewhere(k, other, e);
    }
  }

  lemma ForgetTied(children: Children, status: ParentStatus, id: ChildId)
    requires Tied(children, status)
    ensures Tied(children - {id}, Forget(status, id.apiName))
  {
    var children', status' := children - {id}, Forget(status, id.apiName);
    forall k | k in status'.readyCounts ensures HasObject(children', k) {
      var other :| other in children && other.apiName == k;
      assert other in children';
    }
    forall key | key in status'.endpoints ensures Served(children', key) {
      var other :| other in children && EndpointOf(other, key);
      assert other in children';
    }
  }

  lemma {:induction false} CleanupTied(p: Progress, g: GlanceSpec, listing: seq<ChildId>, o: GlanceOracle)
    requires Tied(p.children, p.status)
    ensures
      var p' := Cleanup(p, g, listing, o);
      && Tied(p'.children, p'.status)
      && (forall k :: k in g.apis && k in p.status.readyCounts ==> k in p'.status.readyCounts)
  {
    if listing != [] {
      var n := |listing| - 1;
      CleanupTied(p, g, listing[..n], o);
      var q := Cleanup(p, g, listing[..n], o);
      ForgetTied(q.children, q.status, listing[n]);
    }
  }

  lemma WorkTied(w: GlanceWorld, o: GlanceOracle)
    requires Tied(w.children, w.status)
    ensures
      var p := Work(w, o);
      && Tied(p.children, p.status)
      && (p.flow == Running ==> forall k :: k in o.names && k in w.spec.apis ==> k in p.status.readyCounts)
  {
    var p := Progress(w.children, w.status, if o.prelude then Running else Returned);
    var deployed := DeployApis(p, w.spec, o.names, o);
    DeployTied(p, w.spec, o.names, o);
    CleanupTied(deployed, w.spec, Walked(o.listing), o);
    CleanupObjects(deployed, w.spec, Walked(o.listing), o);
  }

  /** A pass whose status is lost: what it did to the objects stays. */
  predicate LosesStatus(w: GlanceWorld, e: Event) {
    e.Pass? && (Panics(w.spec, e.o) || !e.o.patch)
  }

  /** The deletion of the object leaves an entry of the status that no other object stands for. */
  ghost predicate StrandsEntry(status: ParentStatus, left: Children, id: ChildId) {
    || (id.apiName in status.readyCounts && !HasObject(left, id.apiName))
    || exists key :: key in status.endpoints && EndpointOf(id, key) && !Served(left, key)
  }

  ghost predicate Strands(w: GlanceWorld, e: Event) {
    LosesStatus(w, e)
    && exists id :: id in w.children && Deletes(w.spec, e.o, id) && StrandsEntry(w.status, Kept(w, e.o), id)
  }

  /** The entries stay tied to objects exactly unless a pass deletes the last object behind one of them and
      then loses the status that no longer has it. */
  lemma NextTiedExactly(site: Site, w: GlanceWorld, e: Event)
    requires Tied(w.children, w.status)
    ensures Tied(Next(site, w, e).children, Next(site, w, e).status) <==> !Strands(w, e)
  {
    if e.Pass? {
      WorkExactly(w, e.o);
    }
    if LosesStatus(w, e) {
      LostTiedExactly(w, e);
    } else if e.Pass? {
      WorkTied(w, e.o);
    } else {
      TiedGrows(w.children, Next(site, w, e).children, w.status);
    }
  }

  lemma LostTiedExactly(w: GlanceWorld, e: Event)
    requires Tied(w.children, w.status) && LosesStatus(w, e)
    ensures Tied(Work(w, e.o).children, w.status) <==> !Strands(w, e)
  {
    var left, kept := Work(w, e.o).children, Kept(w, e.o);
    WorkExactly(w, e.o);
    forall id | id in w.children && Deletes(w.spec, e.o, id)
      ensures StrandsEntry(w.status, left, id) <==> StrandsEntry(w.status, kept, id)
    {
      KeptStands(w, e.o, id);
    }
    if !Strands(w, e) {
      forall k | k in w.status.readyCounts ensures HasObject(left, k) {
        var id :| id in w.children && id.apiName == k;
        assert id in left || !StrandsEntry(w.status, kept, id);
      }
      forall key | key in w.status.endpoints ensures Served(left, key) {
        var id :| id in w.children && EndpointOf(id, key);
        assert id in left || !StrandsEntry(w.status, kept, id);
      }
    }
  }

  /** New objects belong to APIs of the spec, so for a deleted one only those that were there count. */
  lemma KeptStands(w: GlanceWorld, o: GlanceOracle, id: ChildId)
    requires id in w.children && Deletes(w.spec, o, id)
    ensures HasObject(Work(w, o).children, id.apiName) <==> HasObject(Kept(w, o), id.apiName)
    ensures forall key :: EndpointOf(id, key) ==> (Served(Work(w, o).children, key) <==> Served(Kept(w, o), key))
  {
    var left, kept := Work(w, o).children, Kept(w, o);
    WorkExactly(w, o);
    assert Absent(w.spec, id);
    if other :| other in left && other.apiName == id.apiName {
      assert Absent(w.spec, other) && other in kept;
    }
    if other :| other in kept && other.apiName == id.apiName {
      assert other in left;
    }
    forall key | EndpointOf(id, key) ensures Served(left, key) <==> Served(kept, key) {
      if other :| other in left && EndpointOf(other, key) {
        SameApi(id, other, key);
        assert Absent(w.spec, other) && other in kept;
      }
      if other :| other in kept && EndpointOf(other, key) {
        assert other in left;
      }
    }
  }

  lemma SameApi(a: ChildId, b: ChildId, key: string)
    requires EndpointOf(a, key) && EndpointOf(b, key)
    ensures a.apiName == b.apiName
  {
    if a.apiName != b.apiName {
      KeysElsewhere(a.apiName, b.apiName, Public);
      KeysElsewhere(a.apiName, b.apiName, InternalEndpoint);
    }
  }

  lemma TiedGrows(children: Children, children': Children, status: ParentStatus)
    requires Tied(children, status) && children.Keys <= children'.Keys
    ensures Tied(children', status)
  {
    forall k | k in status.readyCounts ensures HasObject(children', k) {
      var id :| id in children && id.apiName == k;
      assert id in children';
    }
    forall key | key in status.endpoints ensures Served(children', key) {
      var id :| id in children && EndpointOf(id, key);
      assert id in children';
    }
  }

  ghost predicate NeverStrands(site: Site, w: GlanceWorld, es: seq<Event>)
    decreases |es|
  {
    es == [] || (!Strands(w, es[0]) && NeverStrands(site, Next(site, w, es[0]), es[1..]))
  }

  lemma {:induction false} EveryRunTied(site: Site, w: GlanceWorld, es: seq<Event>)
    requires Tied(w.children, w.status) && NeverStrands(site, w, es)
    ensures Tied(Run(site, w, es).children, Run(site, w, es).status)
    decreases |es|
  {
    if es != [] {
      NextTiedExactly(site, w, es[0]);
      EveryRunTied(site, Next(site, w, es[0]), es[1..]);
    }
  }

  /** After such a run, a complete and persisted pass leaves a ready count for exactly the APIs of the spec,
      and endpoint entries only of those APIs, never a public one of an edge API. */
  lemma EveryRunAgreesOnStatus(site: Site, w: GlanceWorld, es: seq<Event>, o: GlanceOracle)
    requires Tied(w.children, w.status) && NeverStrands(site, w, es)
    requires NoStale(w.spec, w.children) && NeverReAdds(site, w, es)
    requires Complete(Run(site, w, es), o) && o.patch
    ensures
      var g := Run(site, w, es).spec;
      var status := Reconcile(Run(site, w, es), o).status;
      && status.readyCounts.Keys == g.apis.Keys
      && forall key :: key in status.endpoints ==>
           exists k :: k in g.apis && (key == EndpointKey(k, InternalEndpoint)
                                       || (key == EndpointKey(k, Public) && g.apis[k].layout != EdgeLayout))
  {
    var v := Run(site, w, es);
    EveryRunTied(site, w, es);
    EveryRunConverges(site, w, es, o);
    WorkExactly(v, o);
    WorkTied(v, o);
    StatusOfExpansion(v.spec, Reconcile(v, o).children, Reconcile(v, o).status);
  }

  lemma StatusOfExpansion(g: GlanceSpec, children: Children, status: ParentStatus)
    requires Tied(children, status) && children.Keys == Expansion(g)
    ensures status.readyCounts.Keys <= g.apis.Keys
    ensures forall key :: key in status.endpoints ==>
              exists k :: k in g.apis && (key == EndpointKey(k, InternalEndpoint)
                                          || (key == EndpointKey(k, Public) && g.apis[k].layout != EdgeLayout))
  {
    ExpansionMembers(g);
    forall k | k in status.readyCounts ensures k in g.apis {
      var id :| id in children && id.apiName == k;
      assert InExpansion(g, id);
    }
    forall key | key in status.endpoints
      ensures exists k :: k in g.apis && (key == EndpointKey(k, InternalEndpoint)
                                          || (key == EndpointKey(k, Public) && g.apis[k].layout != EdgeLayout))
    {
      var id :| id in children && EndpointOf(id, key);
      assert InExpansion(g, id) && id.apiName in g.apis;
    }
  }
}
