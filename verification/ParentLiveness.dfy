/** When a Glance gets Ready (internal/controller/glance_controller.go). */
module ParentLiveness {
  import opened Text
  import opened GlanceTypes
  import opened GlancePass
  import opened PassEffects
  import opened GlanceRuns
  import opened StatusMirror
  import Inheritance

  // ----- What deploying leaves of each object -----

  /** The pass writes the object: its API is walked and its layout stands for it. */
  predicate Writes(g: GlanceSpec, names: seq<string>, id: ChildId) {
    InExpansion(g, id) && id.apiName in names
  }

  function Written(children: Children, g: GlanceSpec, id: ChildId): Child
    requires id.apiName in g.apis
  {
    CreateOrUpdate(children, g, id)[id]
  }

  lemma WriteFirstExactly(p: Progress, g: GlanceSpec, k: string, o: GlanceOracle)
    requires k in g.apis && p.flow == Running && WriteFirst(p, g, k, o).flow == Running
    ensures
      var id := ChildId(k, FirstType(g.apis[k].layout));
      WriteFirst(p, g, k, o).children == p.children[id := Written(p.children, g, id)]
  {
  }

  lemma WriteInternalExactly(p: Progress, g: GlanceSpec, k: string, o: GlanceOracle)
    requires k in g.apis && p.flow == Running && WriteInternal(p, g, k, o).flow == Running
    ensures
      var id := ChildId(k, Internal);
      WriteInternal(p, g, k, o).children
      == if AlsoInternal(g.apis[k].layout) then p.children[id := Written(p.children, g, id)] else p.children
  {
  }

  /** The children a deployment of k that goes through leaves. */
  ghost function Deployed(children: Children, g: GlanceSpec, k: string): Children
    requires k in g.apis
  {
    var first := ChildId(k, FirstType(g.apis[k].layout));
    var one := children[first := Written(children, g, first)];
    if AlsoInternal(g.apis[k].layout) then one[ChildId(k, Internal) := Written(one, g, ChildId(k, Internal))] else one
  }

  lemma ApiDeploys(p: Progress, g: GlanceSpec, k: string, o: GlanceOracle)
    requires k in g.apis && p.flow == Running && DeployApi(p, g, k, o).flow == Running
    ensures DeployApi(p, g, k, o).children == Deployed(p.children, g, k)
  {
    var first := WriteFirst(p, g, k, o);
    WriteInternalObjects(first, g, k, o);
    WriteFirstExactly(p, g, k, o);
    WriteInternalExactly(first, g, k, o);
  }

  lemma DeployedAt(children: Children, g: GlanceSpec, k: string, id: ChildId)
    requires k in g.apis
    ensures
      var children' := Deployed(children, g, k);
      if InExpansion(g, id) && id.apiName == k then id in children' && children'[id] == Written(children, g, id)
      else (id in children' <==> id in children) && (id in children' ==> children'[id] == children[id])
  {
    assert InExpansion(g, id) && id.apiName == k <==>
      id == ChildId(k, FirstType(g.apis[k].layout)) || (AlsoInternal(g.apis[k].layout) && id == ChildId(k, Internal));
  }

  lemma ApiExactly(p: Progress, g: GlanceSpec, k: string, o: GlanceOracle, id: ChildId)
    requires p.flow == Running && DeployApi(p, g, k, o).flow == Running
    ensures
      var children := DeployApi(p, g, k, o).children;
      if InExpansion(g, id) && id.apiName == k then id in children && children[id] == Written(p.children, g, id)
      else (id in children <==> id in p.children) && (id in children ==> children[id] == p.children[id])
  {
    if k in g.apis {
      ApiDeploys(p, g, k, o);
      DeployedAt(p.children, g, k, id);
    }
  }

  /** Writing an object twice in a pass is writing it once. */
  lemma WrittenTwice(children: Children, children': Children, g: GlanceSpec, id: ChildId)
    requires id.apiName in g.apis && id in children' && children'[id] == Written(children, g, id)
    ensures Written(children', g, id) == Written(children, g, id)
  {
  }

  lemma {:induction false} DeployExactly(p: Progress, g: GlanceSpec, names: seq<string>, o: GlanceOracle, id: ChildId)
    requires p.flow == Running && DeployApis(p, g, names, o).flow == Running
    ensures
      var children := DeployApis(p, g, names, o).children;
      if Writes(g, names, id) then id in children && children[id] == Written(p.children, g, id)
      else (id in children <==> id in p.children) && (id in children ==> children[id] == p.children[id])
  {
    if names != [] {
      var n := |names| - 1;
      var before := DeployApis(p, g, names[..n], o);
      assert names == names[..n] + [names[n]];
      DeployApiObjects(before, g, names[n], o);
      DeployExactly(p, g, names[..n], o, id);
      ApiExactly(before, g, names[n], o, id);
      if Writes(g, names[..n], id) && id.apiName == names[n] {
        WrittenTwice(p.children, before.children, g, id);
      }
    }
  }

  // ----- Readiness of one pass -----

  /** Everything besides the objects is in order. */
  predicate OthersReady(o: GlanceOracle) {
    o.rest && o.subsReady && o.others.Some? && forall g :: g in o.others.value ==> g.current == g.observed
  }

  /** The object was there, observed, and carried what the pass writes if it writes it. */
  ghost predicate Untouched(w: GlanceWorld, o: GlanceOracle, id: ChildId) {
    && id in w.children && w.children[id].generation == w.children[id].observedGeneration
    && (Writes(w.spec, o.names, id) ==> Inheritance.Asked(w.children[id].spec, w.spec, id.apiName, id.apiType))
  }

  lemma UntouchedExactly(w: GlanceWorld, o: GlanceOracle, id: ChildId)
    requires Bounded(w.children) && GoesThrough(w.spec, o) && id in Reconcile(w, o).children
    ensures
      var c := Reconcile(w, o).children[id];
      c.generation == c.observedGeneration <==> Untouched(w, o, id)
  {
    var p := Progress(w.children, w.status, Running);
    var deployed := DeployApis(p, w.spec, o.names, o);
    DeployFlowExactly(p, w.spec, o.names, o);
    DeployExactly(p, w.spec, o.names, o, id);
    CleanupObjects(deployed, w.spec, Walked(o.listing), o);
    if Writes(w.spec, o.names, id) && id in w.children {
      Inheritance.AskedExactly(w.children[id].spec, w.spec, id.apiName, id.apiType);
    }
  }

  /** What is left after the pass: the objects it writes and those it does not delete. */
  lemma LeftExactly(w: GlanceWorld, o: GlanceOracle, id: ChildId)
    requires GoesThrough(w.spec, o)
    ensures id in Reconcile(w, o).children <==> Writes(w.spec, o.names, id) || id in Kept(w, o)
  {
    var p := Progress(w.children, w.status, Running);
    DeployFlowExactly(p, w.spec, o.names, o);
    DeployExactly(p, w.spec, o.names, o, id);
    WorkExactly(w, o);
    WorkObjects(w, o);
    CleanupObjects(DeployApis(p, w.spec, o.names, o), w.spec, Walked(o.listing), o);
  }

  /** A pass that stores its status makes the Glance ready if and only if it goes through, everything else is in
      order, and every object it leaves was there before, observed, with the spec the pass would write. */
  lemma ReadyExactly(w: GlanceWorld, o: GlanceOracle)
    requires Bounded(w.children) && o.patch && !Panics(w.spec, o)
    ensures Reconcile(w, o).ready <==>
              && GoesThrough(w.spec, o) && OthersReady(o)
              && forall id :: Writes(w.spec, o.names, id) || id in Kept(w, o) ==> Untouched(w, o, id)
  {
    WorkExactly(w, o);
    if GoesThrough(w.spec, o) {
      forall id ensures id in Reconcile(w, o).children <==> Writes(w.spec, o.names, id) || id in Kept(w, o) {
        LeftExactly(w, o, id);
      }
      forall id | id in Reconcile(w, o).children
        ensures var c := Reconcile(w, o).children[id]; c.generation == c.observedGeneration <==> Untouched(w, o, id)
      {
        UntouchedExactly(w, o, id);
      }
    }
  }

  // ----- Getting there -----

  /** Progress of the objects' own controllers changes neither the spec nor what the parent wrote. */
  lemma {:induction false} ProgressKeeps(site: Site, w: GlanceWorld, es: seq<Event>)
    requires forall e :: e in es ==> e.ChildProgress?
    ensures
      var v := Run(site, w, es);
      && v.spec == w.spec && v.children.Keys == w.children.Keys
      && forall id :: id in v.children ==> v.children[id].spec == w.children[id].spec
    decreases |es|
  {
    if es != [] {
      var next := Next(site, w, es[0]);
      assert es[0] in es && forall e :: e in es[1..] ==> e in es;
      assert next.spec == w.spec && next.children.Keys == w.children.Keys;
      assert forall id :: id in next.children ==> next.children[id].spec == w.children[id].spec;
      ProgressKeeps(site, next, es[1..]);
    }
  }

  /** Once a complete pass has written the objects and their controllers have observed all of them, the next
      complete pass with everything else in order makes the Glance ready, whatever happened before. */
  lemma EveryRunCanBecomeReady(site: Site, w: GlanceWorld, es: seq<Event>, o: GlanceOracle, progress: seq<Event>,
                               again: GlanceOracle)
    requires Bounded(w.children) && Complete(Run(site, w, es), o)
    requires forall e :: e in progress ==> e.ChildProgress?
    requires
      var v := Run(site, Reconcile(Run(site, w, es), o), progress);
      AllObserved(v.children) && Complete(v, again) && OthersReady(again) && again.patch
    ensures Reconcile(Run(site, Reconcile(Run(site, w, es), o), progress), again).ready
  {
    var v0 := Run(site, w, es);
    EveryRunBounded(site, w, es);
    SecondPassReady(site, v0, o, progress, again);
  }

  lemma SecondPassReady(site: Site, w: GlanceWorld, o: GlanceOracle, progress: seq<Event>, again: GlanceOracle)
    requires Bounded(w.children) && Complete(w, o)
    requires forall e :: e in progress ==> e.ChildProgress?
    requires
      var v := Run(site, Reconcile(w, o), progress);
      AllObserved(v.children) && Complete(v, again) && OthersReady(again) && again.patch
    ensures Reconcile(Run(site, Reconcile(w, o), progress), again).ready
  {
    var v := Run(site, Reconcile(w, o), progress);
    PassBounded(w, o);
    EveryRunBounded(site, Reconcile(w, o), progress);
    ProgressKeeps(site, Reconcile(w, o), progress);
    CompletePassConvergesExactly(w, o);
    ExpansionMembers(w.spec);
    forall id | Writes(v.spec, again.names, id) || id in Kept(v, again) ensures Untouched(v, again, id) {
      if Writes(v.spec, again.names, id) {
        Inheritance.AskedExactly(v.children[id].spec, v.spec, id.apiName, id.apiType);
      }
    }
    ReadyExactly(v, again);
  }
}
