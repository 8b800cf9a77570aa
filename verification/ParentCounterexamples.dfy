/** Concrete runs of the parent that show why the conditions of the main results are there. */
module ParentCounterexamples {
  import opened Text
  import opened GlanceTypes
  import opened Inheritance
  import Webhook
  import Admission
  import P = GlancePass
  import R = GlanceRuns
  import L = Leftovers
  import E = PassEffects

  // ----- Re-adding an API with another layout -----

  function Api(layout: Layout): ApiTemplate {
    ApiTemplate(1, layout, "", [], Storage("", "1G", false), ImageCache("", "@daily", "@daily"), 60, "", None, None,
                LibraryChecks(true, true, true))
  }

  function Spec(apis: map<string, ApiTemplate>): GlanceSpec {
    GlanceSpec("image", "", [], Storage("", "1G", false), ImageCache("", "", ""), "main", 60, 30, "@daily",
               None, None, true, apis)
  }

  const WITH_EDGE := Spec(map["main" := Api(SingleLayout), "x" := Api(EdgeLayout)])
  const WITHOUT := Spec(map["main" := Api(SingleLayout)])
  const WITH_SINGLE := Spec(map["main" := Api(SingleLayout), "x" := Api(SingleLayout)])

  predicate Small(g: GlanceSpec) {
    && g == Spec(g.apis) && "main" in g.apis && g.apis.Keys <= {"main", "x"}
    && g.apis["main"] == Api(SingleLayout)
    && ("x" in g.apis ==> g.apis["x"] == Api(SingleLayout) || g.apis["x"] == Api(EdgeLayout))
  }

  lemma SmallDefaulted(g: GlanceSpec, d: Webhook.Defaults)
    requires Small(g)
    ensures Webhook.Defaulted(g, d) == g
  {
    assert |g.apis.Keys| != 0;
    assert Webhook.DefaultedTop(g, d) == g;
    forall k | k in g.apis ensures Webhook.DefaultedApi(g.apis[k], g.apiTimeout, d) == g.apis[k] {
      assert k == "main" || k == "x";
    }
    assert Webhook.DefaultedApis(g, d).apis == g.apis;
  }

  lemma SmallNames(layout: Layout)
    requires layout == SingleLayout || layout == EdgeLayout
    ensures Webhook.NameOk("g", "main", layout) && Webhook.NameOk("g", "x", layout)
  {
  }

  lemma SmallAdmitted(g: GlanceSpec, previous: GlanceSpec, d: Webhook.Defaults)
    requires Small(g) && Small(previous)
    requires "x" in g.apis && "x" in previous.apis ==> g.apis["x"] == previous.apis["x"]
    ensures Admission.Serve("g", d, Some(previous), Admission.Update(g, true)) == Some(g)
  {
    SmallDefaulted(g, d);
    SmallNames(SingleLayout);
    SmallNames(EdgeLayout);
    EmptyConfigListsNothing();
    forall k | k in g.apis ensures Admission.CleanApi("g", g, k) {
      assert k == "main" || k == "x";
    }
    Admission.CleanIsAdmitted("g", g);
    forall k | k in g.apis && k in previous.apis ensures g.apis[k].layout == previous.apis[k].layout {
      assert k == "main" || k == "x";
    }
  }

  lemma UpdateRuns(site: R.Site, w: P.GlanceWorld, e: R.Event, f: R.Event)
    requires e.Update? && f.Update?
    ensures R.Run(site, w, [e, f]) == R.Next(site, R.Next(site, w, e), f)
  {
    assert [e, f][1..] == [f] && [f][1..] == [];
    assert R.Run(site, w, [e, f]) == R.Run(site, R.Next(site, w, e), [f]);
    assert R.Run(site, R.Next(site, w, e), [f]) == R.Run(site, R.Next(site, R.Next(site, w, e), f), []);
  }

  lemma UpdateAdmitted(d: Webhook.Defaults, w: P.GlanceWorld, g: GlanceSpec)
    requires Small(g) && Small(w.spec)
    requires "x" in g.apis && "x" in w.spec.apis ==> g.apis["x"] == w.spec.apis["x"]
    ensures R.Next(R.Site("g", d), w, R.Update(g, true)) == w.(spec := g)
  {
    SmallAdmitted(g, w.spec, d);
  }

  lemma UpdatesAdmitted(d: Webhook.Defaults, w: P.GlanceWorld, e: R.Event, f: R.Event)
    requires w.spec == WITH_EDGE && e == R.Update(WITHOUT, true) && f == R.Update(WITH_SINGLE, true)
    ensures R.Run(R.Site("g", d), w, [e, f]) == w.(spec := WITH_SINGLE)
  {
    UpdateRuns(R.Site("g", d), w, e, f);
    UpdateAdmitted(d, w, WITHOUT);
    UpdateAdmitted(d, w.(spec := WITHOUT), WITH_SINGLE);
  }

  lemma EdgeObject()
    ensures var id := P.ChildId("x", Edge); P.InExpansion(WITH_EDGE, id) && !P.InExpansion(WITH_SINGLE, id)
  {
    assert "x" in WITH_EDGE.apis;
  }

  const RE_ADD: seq<R.Event> := [R.Update(WITHOUT, true), R.Update(WITH_SINGLE, true)]

  /** An edge API is removed and, before a pass has deleted its object, added again as single: both updates
      are admitted, and from then on, whatever passes and updates follow while the API stays in the spec, no
      complete pass leaves the objects the spec stands for. */
  lemma ReAddedWithAnotherLayout(d: Webhook.Defaults, w: P.GlanceWorld, w': P.GlanceWorld, es: seq<R.Event>,
                                 o: P.GlanceOracle)
    requires w.spec == WITH_EDGE && w.children.Keys == P.Expansion(WITH_EDGE)
    requires w' == R.Run(R.Site("g", d), w, RE_ADD)
    ensures R.NoStale(w.spec, w.children) && w'.spec == WITH_SINGLE
    ensures
      var v := R.Run(R.Site("g", d), w', es);
      R.AlwaysNames(R.Site("g", d), w', es, "x") && R.Complete(v, o) ==>
        P.Reconcile(v, o).children.Keys != P.Expansion(v.spec)
  {
    var site := R.Site("g", d);
    P.ExpansionMembers(WITH_EDGE);
    UpdatesAdmitted(d, w, R.Update(WITHOUT, true), R.Update(WITH_SINGLE, true));
    EdgeObject();
    assert R.Stray(w', P.ChildId("x", Edge));
    if R.AlwaysNames(site, w', es, "x") && R.Complete(R.Run(site, w', es), o) {
      R.StrayNeverConverges(site, w', es, o, P.ChildId("x", Edge));
    }
  }

  // ----- A lost deletion -----

  const MAIN := P.ChildId("main", Single)
  const EDGE := P.ChildId("x", Edge)

  /** The API x has been removed from the spec, its object and entries are still there. */
  const REMOVED := P.GlanceWorld(
    WITHOUT,
    map[MAIN := P.Child(ChildSpec(WITHOUT, "main", Single), true, 1, 1, 1, None),
        EDGE := P.Child(ChildSpec(WITH_EDGE, "x", Edge), false, 1, 1, 1, None)],
    P.ParentStatus(map[EndpointKey("x", InternalEndpoint) := "url"], map["main" := 1, "x" := 1]), true)

  /** Everything succeeds but the status patch. */
  const UNPATCHED := P.GlanceOracle(
    true, ["main"], true, true, {}, true, [P.Own(EDGE)], {}, true, Some([]), true, false)

  lemma RemovedTied()
    ensures R.Tied(REMOVED.children, REMOVED.status)
  {
    assert MAIN in REMOVED.children && EDGE in REMOVED.children;
    assert R.EndpointOf(EDGE, EndpointKey("x", InternalEndpoint));
  }

  lemma RemovedDeletes()
    ensures E.DeployFlow(WITHOUT, UNPATCHED.names, UNPATCHED) == P.Running && !E.Panics(WITHOUT, UNPATCHED)
    ensures E.Deletes(WITHOUT, UNPATCHED, EDGE) && E.Kept(REMOVED, UNPATCHED).Keys == {MAIN}
  {
    EmptyConfigListsNothing();
    assert E.ApiFlow(WITHOUT, "main", UNPATCHED) == P.Running && ["main"][1..] == [];
    assert P.Walked([P.Own(EDGE)]) == [EDGE] by {
      assert [P.Own(EDGE)][1..] == [];
    }
    assert E.ReachesAt(WITHOUT, [EDGE], UNPATCHED, EDGE, 0);
    assert !E.Deletes(WITHOUT, UNPATCHED, MAIN);
  }

  /** One pass that deletes the object of x and loses its status leads from a tied world to one that is not;
      and in every later run that does not use the name, x keeps its ready count and its endpoint until a
      pass that stores its status finds the deleted object in its listing. */
  lemma LostDeletion(site: R.Site, w: P.GlanceWorld, es: seq<R.Event>)
    requires w == R.Next(site, REMOVED, R.Pass(UNPATCHED))
    ensures R.Tied(REMOVED.children, REMOVED.status) && R.Strands(REMOVED, R.Pass(UNPATCHED))
    ensures !R.Tied(w.children, w.status)
    ensures L.NeverNames(site, w, es, "x") ==>
              var status := R.Run(site, w, es).status;
              && ("x" in status.readyCounts <==> L.NeverForgets(site, w, es, "x"))
              && (EndpointKey("x", InternalEndpoint) in status.endpoints <==> L.NeverForgets(site, w, es, "x"))
  {
    RemovedTied();
    RemovedDeletes();
    assert EDGE in REMOVED.children && !R.HasObject(E.Kept(REMOVED, UNPATCHED), "x");
    L.LostDeletionAbandons(site, REMOVED, R.Pass(UNPATCHED), EDGE);
    assert R.StrandsEntry(REMOVED.status, E.Kept(REMOVED, UNPATCHED), EDGE);
    R.NextTiedExactly(site, REMOVED, R.Pass(UNPATCHED));
    if L.NeverNames(site, w, es, "x") {
      L.EntriesStayExactly(site, w, es, "x");
    }
  }
}
