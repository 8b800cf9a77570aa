/** What the Ready condition of a GlanceAPI attests, over every run. */
module ApiReadiness {
  import opened Text
  import opened GlanceTypes
  import opened Inheritance
  import opened ApiPass
  import opened ApiRuns

  // ----- Readiness -----

  /** Until the StatefulSet has been observed a pass cannot have decided Ready or DeploymentReady. */
  ghost predicate Undecided(s: Step, generation: nat) {
    !s.Dead? ==>
      && GATES + {Ready} <= s.m.conditions.Keys
      && s.m.conditions[Ready] == Unknown
      && s.m.conditions[DeploymentReady] != True
      && s.m.observedGeneration == generation
  }

  /** DeploymentReady is True only for a StatefulSet whose last generation was observed with as many ready
      replicas as the spec asks for, running with the wanted secret, configuration and claim templates. */
  ghost predicate Attested(s: Step, i: Instance, o: Oracle) {
    !s.Dead? && DeploymentReady in s.m.conditions && s.m.conditions[DeploymentReady] == True ==>
      Serves(s.c, s.m.readyCount, i, o)
  }

  /** What the GlanceAPI asks for, field by field. */
  predicate Applied(sts: StatefulSet, i: Instance, config: string) {
    && sts.replicas == i.spec.template.replicas
    && sts.acSecret == i.spec.template.appCredentialSecret
    && sts.config == config
    && sts.claims == Claims(i.spec.template)
  }

  ghost predicate Serves(c: Cluster, readyCount: nat, i: Instance, o: Oracle) {
    && c.sts.Some? && o.render.Some? && Applied(c.sts.value, i, o.render.value)
    && c.sts.value.generation == c.sts.value.observedGeneration
    && c.sts.value.readyReplicas == readyCount == i.spec.template.replicas
  }

  lemma InputsUndecided(s: Step, o: Oracle, generation: nat)
    requires Undecided(s, generation)
    ensures Undecided(Inputs(s, o), generation)
  {
  }

  lemma RefreshUndecided(s: Step, i: Instance, o: Oracle)
    requires Undecided(s, i.generation)
    ensures Undecided(Backends(Refresh(s, i, o), i, o), i.generation)
  {
  }

  lemma ConfigureUndecided(s: Step, i: Instance, o: Oracle)
    requires Undecided(s, i.generation)
    ensures Undecided(Configure(s, i, o), i.generation)
  {
  }

  lemma ConsumeUndecided(s: Step, i: Instance, o: Oracle)
    requires Undecided(s, i.generation)
    ensures Undecided(Consume(s, i, o), i.generation)
  {
  }

  lemma DeployUndecided(s: Step, i: Instance, o: Oracle)
    requires Undecided(s, i.generation)
    requires s.Go? ==> o.render.Some?
    ensures
      var s' := Deploy(s, i, o);
      && Undecided(s', i.generation)
      && (s'.Go? ==> s'.c.sts.Some? && o.render.Some? && Applied(s'.c.sts.value, i, o.render.value))
  {
  }

  /** A pass that has not decided Ready yet: DeploymentReady attests what it should. */
  ghost predicate Pending(s: Step, i: Instance, o: Oracle) {
    && Attested(s, i, o)
    && (!s.Dead? ==>
          && GATES + {Ready} <= s.m.conditions.Keys
          && s.m.conditions[Ready] == Unknown
          && s.m.observedGeneration == i.generation)
  }

  lemma ObserveAttests(s: Step, i: Instance, o: Oracle)
    requires Undecided(s, i.generation)
    requires s.Go? ==> s.c.sts.Some? && o.render.Some? && Applied(s.c.sts.value, i, o.render.value)
    ensures Pending(Observe(s, i, o), i, o)
  {
  }

  lemma JobsAttests(s: Step, i: Instance, o: Oracle)
    requires Pending(s, i, o)
    ensures Pending(Jobs(s, i, o), i, o)
  {
  }

  lemma ReleaseAttests(s: Step, i: Instance, o: Oracle)
    requires Pending(s, i, o)
    ensures Pending(Release(s, i, o), i, o)
  {
  }

  /** Ready is decided only by conditions that are all True. */
  ghost predicate Decided(m: Status) {
    && GATES + {Ready} <= m.conditions.Keys
    && (m.conditions[Ready] == True ==> AllSubTrue(m.conditions) && m.conditions[DeploymentReady] == True)
  }

  lemma FinishDecides(s: Step, i: Instance, o: Oracle)
    requires Pending(s, i, o)
    ensures
      var s' := Finish(s);
      Attested(s', i, o) && (!s'.Dead? ==> Decided(s'.m) && s'.m.observedGeneration == i.generation)
  {
    if s.Go? && AllSubTrue(s.m.conditions) {
      ReadyDecides(s.m);
    }
  }

  lemma ReadyDecides(m: Status)
    requires GATES + {Ready} <= m.conditions.Keys && AllSubTrue(m.conditions)
    ensures Decided(Mark(m, Ready, True))
  {
    assert DeploymentReady in GATES;
  }

  lemma BodyDecides(w: World, o: Oracle)
    requires w.api.Some?
    ensures
      var s, i := Body(w, o), w.api.value;
      Attested(s, i, o) && (!s.Dead? ==> Decided(s.m) && s.m.observedGeneration == i.generation)
  {
    var i := w.api.value;
    if !IsFirstPass(i) && !i.deleting {
      NormalDecides(w.cluster, i, o);
    }
  }

  lemma NormalDecides(c: Cluster, i: Instance, o: Oracle)
    ensures
      var s := ReconcileNormal(Go(c, Started(i)), i, o);
      Attested(s, i, o) && (!s.Dead? ==> Decided(s.m) && s.m.observedGeneration == i.generation)
  {
    var s := Go(c, Started(i));
    NormalUndecided(c, i, o);
    PrepareSecrets(c, Started(i), i, o);
    ConsumeSecrets(c, Started(i), Prepare(s, i, o), i, o);
    var consumed := Consume(Prepare(s, i, o), i, o);
    DeployUndecided(consumed, i, o);
    var observed := Observe(Deploy(consumed, i, o), i, o);
    ObserveAttests(Deploy(consumed, i, o), i, o);
    JobsAttests(observed, i, o);
    ReleaseAttests(Jobs(observed, i, o), i, o);
    FinishDecides(Release(Jobs(observed, i, o), i, o), i, o);
  }

  /** The stages up to the deployment. */
  lemma NormalUndecided(c: Cluster, i: Instance, o: Oracle)
    ensures Undecided(Consume(Prepare(Go(c, Started(i)), i, o), i, o), i.generation)
  {
    var s := Go(c, Started(i));
    InputsUndecided(s, o, i.generation);
    RefreshUndecided(Inputs(s, o), i, o);
    ConfigureUndecided(Backends(Refresh(Inputs(s, o), i, o), i, o), i, o);
    ConsumeUndecided(Prepare(s, i, o), i, o);
  }

  lemma MirrorDecides(m: Status, choice: CondStatus)
    requires Decided(m) && m.conditions[Ready] == Unknown
    ensures Decided(Mark(m, Ready, Mirrored(m, choice)))
  {
    if AllSubTrue(m.conditions) {
      assert DeploymentReady in GATES + {Ready};
    }
  }

  /** Whatever exit a pass takes, the status it persists is Ready only if in this pass every gate came out
      True, for the generation it reconciled, and the StatefulSet serves it: last generation observed, ready
      replicas as asked, and the replicas, secret, configuration and claims this pass wanted. */
  lemma ReadyIsSound(w: World, o: Oracle)
    requires Valid(w) && w.api.Some? && !Lost(w, o)
    requires Reconcile(w, o).api.Some?
    ensures
      var w' := Reconcile(w, o);
      var status := w'.api.value.status;
      Ready in status.conditions && status.conditions[Ready] == True ==>
        && GATES <= status.conditions.Keys
        && AllSubTrue(status.conditions)
        && status.observedGeneration == w'.api.value.generation
        && Serves(w'.cluster, status.readyCount, w'.api.value, o)
  {
    var s := Body(w, o);
    BodyDecides(w, o);
    PassResult(w, o);
    if s.m.conditions[Ready] == Unknown {
      MirrorDecides(s.m, o.mirror);
    }
  }

  /** So it is after every run: whatever came before, a status stored as Ready stands for a StatefulSet that
      asks for the replicas, secret, configuration and claims of the pass, and has the replicas. */
  lemma EveryRunReadyIsSound(w: World, es: seq<Event>, o: Oracle)
    requires Valid(w)
    requires
      var v := Run(w, es);
      && v.api.Some? && !Lost(v, o)
      && var v' := Reconcile(v, o);
         v'.api.Some? && Ready in v'.api.value.status.conditions && v'.api.value.status.conditions[Ready] == True
    ensures
      var v' := Reconcile(Run(w, es), o);
      && v'.cluster.sts.Some? && o.render.Some?
      && var sts, template := v'.cluster.sts.value, v'.api.value.spec.template;
         && sts.replicas == template.replicas && sts.config == o.render.value
         && sts.acSecret == template.appCredentialSecret && sts.claims == Claims(template)
         && sts.readyReplicas == template.replicas && sts.observedGeneration == sts.generation
  {
    EveryRunValid(w, es);
    ReadyIsSound(Run(w, es), o);
  }

  // ----- What a pass applies -----

  lemma DeployApplies(s: Step, i: Instance, o: Oracle)
    ensures
      var sts := Deploy(s, i, o).c.sts;
      && (sts == s.c.sts || (sts.Some? && o.render.Some? && Applied(sts.value, i, o.render.value)))
      && (s.Go? && o.render.Some? && Deploy(s, i, o).Go? ==> sts.Some? && Applied(sts.value, i, o.render.value))
      && (Deploy(s, i, o).Go? ==> s.Go?)
  {
  }

  lemma FinishNeedsGo(s: Step, i: Instance, o: Oracle)
    ensures Finish(Release(Jobs(Observe(s, i, o), i, o), i, o)).Go? ==> s.Go?
  {
  }

  /** Whatever a pass changes of a StatefulSet that is there afterwards, it is then the one the spec asks for;
      and a pass that goes through to its end leaves that one in any case. */
  lemma PassApplies(w: World, o: Oracle)
    requires Valid(w) && w.api.Some? && !w.api.value.deleting
    ensures
      var sts := Reconcile(w, o).cluster.sts;
      && (sts.Some? && sts != w.cluster.sts ==> o.render.Some? && Applied(sts.value, w.api.value, o.render.value))
      && (Body(w, o).Go? ==> sts.Some? && o.render.Some? && Applied(sts.value, w.api.value, o.render.value))
  {
    var i := w.api.value;
    PassResult(w, o);
    if !IsFirstPass(i) {
      var s := Go(w.cluster, Started(i));
      var consumed := Consume(Prepare(s, i, o), i, o);
      PrepareSecrets(w.cluster, Started(i), i, o);
      ConsumeSecrets(w.cluster, Started(i), Prepare(s, i, o), i, o);
      DeployApplies(consumed, i, o);
      FinishKeepsSts(Deploy(consumed, i, o), i, o);
      FinishNeedsGo(Deploy(consumed, i, o), i, o);
    }
  }

  /** So over every run the StatefulSet of a Ready GlanceAPI asks for as many replicas as the spec the status
      was decided for, and has them: edits apart, which the status does not know yet. */
  ghost predicate ReadyServed(w: World) {
    if w.api == None || w.api.value.deleting then true
    else
      var i := w.api.value;
      var c := i.status.conditions;
      Ready in c && c[Ready] == True && i.status.observedGeneration == i.generation ==>
        i.status.readyCount == i.spec.template.replicas
  }

  lemma NextReadyServed(w: World, e: Event)
    requires Valid(w) && ReadyServed(w) && Current(w)
    ensures ReadyServed(Next(w, e)) && Current(Next(w, e))
  {
    if e.Pass? && w.api.Some? {
      PassResult(w, e.o);
      BodyDecides(w, e.o);
      if !Lost(w, e.o) && Reconcile(w, e.o).api.Some? {
        ReadyIsSound(w, e.o);
      }
    }
  }

  /** The status never claims a generation that does not exist. */
  predicate Current(w: World) {
    w.api.Some? ==> w.api.value.status.observedGeneration <= w.api.value.generation
  }

  /** In every run a GlanceAPI that is Ready for its present generation counts as many ready replicas as it
      asks for. */
  lemma {:induction false} EveryRunReadyServed(w: World, es: seq<Event>)
    requires Valid(w) && ReadyServed(w) && Current(w)
    ensures ReadyServed(Run(w, es))
    decreases |es|
  {
    if es != [] {
      NextValid(w, es[0]);
      NextReadyServed(w, es[0]);
      EveryRunReadyServed(Next(w, es[0]), es[1..]);
    }
  }

  // ----- Readiness and change -----

  /** The StatefulSet controller has not observed a generation that does not exist. */
  predicate Observable(sts: Option<StatefulSet>) {
    sts.Some? ==> sts.value.observedGeneration <= sts.value.generation
  }

  /** The same StatefulSet, or one whose last generation is still to be observed, or none. */
  predicate SameOrPending(sts: Option<StatefulSet>, sts': Option<StatefulSet>) {
    sts' == sts || (sts'.Some? ==> sts'.value.observedGeneration < sts'.value.generation)
  }

  lemma DeployPends(s: Step, i: Instance, o: Oracle)
    requires Observable(s.c.sts)
    ensures SameOrPending(s.c.sts, Deploy(s, i, o).c.sts)
  {
  }

  lemma FinishKeepsSts(s: Step, i: Instance, o: Oracle)
    ensures Finish(Release(Jobs(Observe(s, i, o), i, o), i, o)).c.sts == s.c.sts
  {
  }

  lemma NormalPends(c: Cluster, i: Instance, o: Oracle)
    requires Observable(c.sts)
    ensures SameOrPending(c.sts, ReconcileNormal(Go(c, Started(i)), i, o).c.sts)
  {
    var prepared := Prepare(Go(c, Started(i)), i, o);
    PrepareSecrets(c, Started(i), i, o);
    ConsumeSecrets(c, Started(i), prepared, i, o);
    DeployPends(Consume(prepared, i, o), i, o);
    FinishKeepsSts(Deploy(Consume(prepared, i, o), i, o), i, o);
  }

  lemma NextObservable(w: World, e: Event)
    requires Valid(w) && Observable(w.cluster.sts)
    ensures Observable(Next(w, e).cluster.sts)
  {
    if e.Pass? && w.api.Some? {
      PassResult(w, e.o);
      if !IsFirstPass(w.api.value) && !w.api.value.deleting {
        NormalPends(w.cluster, w.api.value, e.o);
      }
    }
  }

  /** A pass that ends Ready has applied nothing: any change of the StatefulSet, its replacement included, is
      a generation that a later pass must see observed first. */
  lemma ReadyAppliesNothing(w: World, o: Oracle)
    requires Valid(w) && w.api.Some? && Observable(w.cluster.sts) && !Lost(w, o)
    requires !w.api.value.deleting
    ensures
      var w' := Reconcile(w, o);
      && w'.api.Some?
      && var c := w'.api.value.status.conditions;
         Ready in c && c[Ready] == True ==> w'.cluster.sts == w.cluster.sts
  {
    PassResult(w, o);
    ReadyIsSound(w, o);
    if !IsFirstPass(w.api.value) {
      NormalPends(w.cluster, w.api.value, o);
    }
  }

  lemma {:induction false} EveryRunObservable(w: World, es: seq<Event>)
    requires Valid(w) && Observable(w.cluster.sts)
    ensures Valid(Run(w, es)) && Observable(Run(w, es).cluster.sts)
    decreases |es|
  {
    if es != [] {
      NextValid(w, es[0]);
      NextObservable(w, es[0]);
      EveryRunObservable(Next(w, es[0]), es[1..]);
    }
  }

  /** So it is after every run. */
  lemma EveryRunReadyAppliesNothing(w: World, es: seq<Event>, o: Oracle)
    requires Valid(w) && Observable(w.cluster.sts)
    requires var v := Run(w, es); v.api.Some? && !v.api.value.deleting && !Lost(v, o)
    ensures
      var v := Run(w, es);
      var v' := Reconcile(v, o);
      && v'.api.Some?
      && var c := v'.api.value.status.conditions;
         Ready in c && c[Ready] == True ==> v'.cluster.sts == v.cluster.sts
  {
    EveryRunObservable(w, es);
    ReadyAppliesNothing(Run(w, es), o);
  }
}
