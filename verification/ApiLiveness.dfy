/** When a GlanceAPI gets Ready (internal/controller/glanceapi_controller.go): the converse of ApiReadiness. */
module ApiLiveness {
  import opened Text
  import opened GlanceTypes
  import opened Inheritance
  import opened ApiPass
  import opened ApiRuns
  import opened ApiReadiness
  import opened ApiClaims

  /** Every call up to the deployment succeeds. */
  predicate Prepares(o: Oracle) {
    && o.inputs == Ok && o.memcached == Ok && o.refresh && o.cinder && o.tls == Ok && o.nad == Ok && o.services == Ok
    && o.keystone == Ok && o.keystoneStatus == True && o.render.Some? && o.addFinalizer && o.crash == NoCrash
  }

  /** Every call of the pass succeeds. */
  predicate Smooth(o: Oracle) {
    && Prepares(o) && o.topology && o.build && o.apply == Ok && o.network == Some(true)
    && o.pvcLabels && o.ensureJobs && o.cleanupJobs == Ok && o.release && o.patch
  }

  /** The configuration makes no parser panic, and the wanted secret exists. */
  predicate Serviceable(i: Instance, secrets: map<string, set<string>>) {
    && DigestOf(i.spec).Some? && ScanBackends(DigestOf(i.spec).value.backends, true) == Scanned
    && (Secret(i) != "" ==> Secret(i) in secrets)
  }

  predicate Matching(sts: Option<StatefulSet>, i: Instance, o: Oracle)
    requires Smooth(o)
  {
    sts.Some? && Applied(sts.value, i, o.render.value)
  }

  /** The conditions xs became True and the others stayed. */
  ghost predicate Grew(m: Status, m': Status, xs: set<Cond>) {
    && m'.conditions.Keys == m.conditions.Keys + xs
    && forall x :: x in m'.conditions ==> m'.conditions[x] == if x in xs then True else m.conditions[x]
  }

  // ----- The stages when every call succeeds -----

  lemma LiveRefresh(s: Step, i: Instance, o: Oracle)
    requires s.Go? && Prepares(o) && Serviceable(i, s.c.secrets)
    ensures
      var p := Backends(Refresh(Inputs(s, o), i, o), i, o);
      && p.Go? && p.c.secrets == s.c.secrets
      && p.c.sts == (if s.m.backendHash == DigestOf(i.spec) then s.c.sts else None)
      && p.m.backendHash == DigestOf(i.spec) && p.m.acSecret == s.m.acSecret
      && Grew(s.m, p.m, {InputReady, MemcachedReady, CinderReady})
  {
  }

  lemma LiveConfigure(s: Step, i: Instance, o: Oracle)
    requires s.Go? && Prepares(o) && Serviceable(i, s.c.secrets)
    ensures
      var p := Configure(s, i, o);
      && p.Go? && p.c == s.c && p.m.backendHash == s.m.backendHash && p.m.acSecret == s.m.acSecret
      && Grew(s.m, p.m, {TLSInputReady, CreateServiceReady, KeystoneEndpointReady})
  {
  }

  lemma LiveConsume(s: Step, i: Instance, o: Oracle)
    requires s.Go? && Prepares(o)
    ensures
      var p := Consume(s, i, o);
      && p.Go? && p.c.sts == s.c.sts && p.c.secrets.Keys == s.c.secrets.Keys
      && p.m.backendHash == s.m.backendHash && p.m.acSecret == s.m.acSecret
      && Grew(s.m, p.m, {ServiceConfigReady})
  {
  }

  function TopologyMark(i: Instance): set<Cond> {
    if i.spec.template.topologyRef.Some? then {TopologyReady} else {}
  }

  lemma LiveDeploy(s: Step, i: Instance, o: Oracle)
    requires s.Go? && Smooth(o)
    requires s.c.sts.Some? ==> s.c.sts.value.claims == Claims(i.spec.template)
    ensures
      var p := Deploy(s, i, o);
      && p.Go? && p.c.secrets == s.c.secrets && p.c.sts.Some? && Applied(p.c.sts.value, i, o.render.value)
      && (s.c.sts.Some? && Applied(s.c.sts.value, i, o.render.value) ==> p.c.sts == s.c.sts)
      && p.m.backendHash == s.m.backendHash && p.m.acSecret == s.m.acSecret
      && Grew(s.m, p.m, TopologyMark(i))
  {
  }

  predicate Serving(sts: Option<StatefulSet>, i: Instance) {
    && sts.Some? && sts.value.generation == sts.value.observedGeneration
    && sts.value.readyReplicas == i.spec.template.replicas
  }

  lemma LiveObserve(s: Step, i: Instance, o: Oracle)
    requires s.Go? && Smooth(o) && Serving(s.c.sts, i)
    ensures
      var p := Observe(s, i, o);
      p.Go? && p.c == s.c && p.m.acSecret == s.m.acSecret && p.m.backendHash == s.m.backendHash
      && Grew(s.m, p.m, {NetworkAttachmentsReady, DeploymentReady})
  {
  }

  lemma LiveJobs(s: Step, i: Instance, o: Oracle)
    requires s.Go? && Smooth(o)
    ensures
      var p := Jobs(s, i, o);
      p.Go? && p.c == s.c && p.m.acSecret == s.m.acSecret && p.m.backendHash == s.m.backendHash
      && Grew(s.m, p.m, {CronJobReady})
  {
  }

  /** Ready is marked, and the wanted secret recorded, if every other condition is True; otherwise the
      conditions stay. */
  lemma LiveFinish(s: Step, i: Instance, o: Oracle)
    requires s.Go? && Smooth(o)
    ensures
      var p := Finish(Release(s, i, o));
      && p.Go? && p.c.sts == s.c.sts && p.c.secrets.Keys == s.c.secrets.Keys && p.m.backendHash == s.m.backendHash
      && if AllSubTrue(s.m.conditions)
         then p.m.acSecret == Secret(i) && p.m.conditions == s.m.conditions[Ready := True]
         else p.m.conditions == s.m.conditions
  {
  }

  lemma GrewTwice(a: Status, b: Status, c: Status, xs: set<Cond>, ys: set<Cond>)
    requires Grew(a, b, xs) && Grew(b, c, ys)
    ensures Grew(a, c, xs + ys)
  {
  }

  // ----- A pass over a served GlanceAPI -----

  const BEFORE_DEPLOY: set<Cond> := {
    InputReady, MemcachedReady, CinderReady, TLSInputReady, CreateServiceReady, KeystoneEndpointReady,
    ServiceConfigReady}

  lemma LivePrepare(c: Cluster, i: Instance, o: Oracle)
    requires Prepares(o) && Serviceable(i, c.secrets)
    ensures
      var m := Started(i);
      var p := Consume(Prepare(Go(c, m), i, o), i, o);
      && p.Go? && p.c.secrets.Keys == c.secrets.Keys
      && p.c.sts == (if i.status.backendHash == DigestOf(i.spec) then c.sts else None)
      && p.m.backendHash == DigestOf(i.spec) && p.m.acSecret == i.status.acSecret && Grew(m, p.m, BEFORE_DEPLOY)
  {
    var s := Go(c, Started(i));
    LiveRefresh(s, i, o);
    var refreshed := Backends(Refresh(Inputs(s, o), i, o), i, o);
    LiveConfigure(refreshed, i, o);
    var prepared := Configure(refreshed, i, o);
    LiveConsume(prepared, i, o);
    var xs, ys := {InputReady, MemcachedReady, CinderReady}, {TLSInputReady, CreateServiceReady, KeystoneEndpointReady};
    GrewTwice(s.m, refreshed.m, prepared.m, xs, ys);
    GrewTwice(s.m, prepared.m, Consume(prepared, i, o).m, xs + ys, {ServiceConfigReady});
    assert xs + ys + {ServiceConfigReady} == BEFORE_DEPLOY;
  }

  /** Under the agreement a pass in which every call succeeds gets to a StatefulSet that matches the spec. */
  lemma LiveDeployed(w: World, o: Oracle)
    requires Agrees(w) && w.api.Some? && Smooth(o) && Serviceable(w.api.value, w.cluster.secrets)
    ensures
      var i := w.api.value;
      var s := Go(w.cluster, Started(i));
      var p := Deploy(Consume(Prepare(s, i, o), i, o), i, o);
      && p.Go? && p.c.secrets.Keys == w.cluster.secrets.Keys
      && p.c.sts.Some? && Applied(p.c.sts.value, i, o.render.value)
      && (i.status.backendHash == DigestOf(i.spec) && Matching(w.cluster.sts, i, o) ==> p.c.sts == w.cluster.sts)
      && p.m.backendHash == DigestOf(i.spec) && p.m.acSecret == i.status.acSecret
      && Grew(Started(i), p.m, BEFORE_DEPLOY + TopologyMark(i))
  {
    var i := w.api.value;
    LivePrepare(w.cluster, i, o);
    var consumed := Consume(Prepare(Go(w.cluster, Started(i)), i, o), i, o);
    LiveDeploy(consumed, i, o);
    GrewTwice(Started(i), consumed.m, Deploy(consumed, i, o).m, BEFORE_DEPLOY, TopologyMark(i));
  }

  /** The StatefulSet is the one the spec asks for, observed and with all its replicas ready, and the stored
      hash is that of the spec. */
  predicate Settled(w: World, o: Oracle)
    requires Smooth(o)
  {
    && w.api.Some? && !w.api.value.deleting && !IsFirstPass(w.api.value)
    && Serviceable(w.api.value, w.cluster.secrets)
    && w.api.value.status.backendHash == DigestOf(w.api.value.spec)
    && Serving(w.cluster.sts, w.api.value) && Applied(w.cluster.sts.value, w.api.value, o.render.value)
  }

  /** Nothing is left of a topology that is no longer referred to. */
  predicate TopologyClear(i: Instance) {
    || i.spec.template.topologyRef.Some? || TopologyReady !in i.status.conditions
    || i.status.conditions[TopologyReady] == True
  }

  const AFTER_DEPLOY: set<Cond> := {NetworkAttachmentsReady, DeploymentReady, CronJobReady}

  lemma LiveServe(s: Step, i: Instance, o: Oracle, m: Status, xs: set<Cond>)
    requires s.Go? && Smooth(o) && Serving(s.c.sts, i) && Grew(m, s.m, xs)
    ensures
      var p := Jobs(Observe(s, i, o), i, o);
      p.Go? && p.c == s.c && Grew(m, p.m, xs + AFTER_DEPLOY)
  {
    LiveObserve(s, i, o);
    var observed := Observe(s, i, o);
    LiveJobs(observed, i, o);
    var jobs := Jobs(observed, i, o);
    GrewTwice(m, s.m, observed.m, xs, {NetworkAttachmentsReady, DeploymentReady});
    GrewTwice(m, observed.m, jobs.m, xs + {NetworkAttachmentsReady, DeploymentReady}, {CronJobReady});
    assert xs + {NetworkAttachmentsReady, DeploymentReady} + {CronJobReady} == xs + AFTER_DEPLOY;
  }

  lemma LiveServed(w: World, o: Oracle)
    requires Agrees(w) && Smooth(o) && Settled(w, o)
    ensures
      var i := w.api.value;
      var p := Jobs(Observe(Deploy(Consume(Prepare(Go(w.cluster, Started(i)), i, o), i, o), i, o), i, o), i, o);
      p.Go? && Grew(Started(i), p.m, Marked(i))
  {
    var i := w.api.value;
    LiveDeployed(w, o);
    var deployed := Deploy(Consume(Prepare(Go(w.cluster, Started(i)), i, o), i, o), i, o);
    LiveServe(deployed, i, o, Started(i), BEFORE_DEPLOY + TopologyMark(i));
  }

  lemma LiveNormal(w: World, o: Oracle)
    requires Agrees(w) && Smooth(o) && Settled(w, o)
    ensures
      var i := w.api.value;
      var r := ReconcileNormal(Go(w.cluster, Started(i)), i, o);
      && r.Go?
      && if TopologyClear(i) then r.m.acSecret == Secret(i) && Ready in r.m.conditions && r.m.conditions[Ready] == True
         else Ready in r.m.conditions && r.m.conditions[Ready] == Unknown && !AllSubTrue(r.m.conditions)
  {
    var i := w.api.value;
    LiveServed(w, o);
    var jobs := Jobs(Observe(Deploy(Consume(Prepare(Go(w.cluster, Started(i)), i, o), i, o), i, o), i, o), i, o);
    AllSubTrueExactly(i, jobs.m);
    LiveFinish(jobs, i, o);
  }

  function Marked(i: Instance): set<Cond> {
    BEFORE_DEPLOY + TopologyMark(i) + AFTER_DEPLOY
  }

  /** There are no conditions but the gates, Ready and the topology's. */
  lemma MarkedCover(i: Instance, x: Cond)
    ensures x in Marked(i)
            <==> x !in {Ready, TopologyReady} || (x == TopologyReady && i.spec.template.topologyRef.Some?)
  {
  }

  lemma StartedTopology(i: Instance)
    ensures
      var c := Started(i).conditions;
      && (TopologyReady in c <==> TopologyReady in i.status.conditions)
      && (TopologyReady in c ==> c[TopologyReady] == i.status.conditions[TopologyReady])
      && Ready in c && c[Ready] == Unknown
  {
    assert TopologyReady !in GATES + {Ready} && Ready in GATES + {Ready};
  }

  lemma GrewAt(m: Status, m': Status, xs: set<Cond>, x: Cond)
    requires Grew(m, m', xs)
    ensures x in m'.conditions <==> x in m.conditions || x in xs
    ensures x in m'.conditions ==> m'.conditions[x] == if x in xs then True else m.conditions[x]
  {
  }

  lemma AllTrueBut(m: Status)
    requires forall x :: x in m.conditions && x != Ready && x != TopologyReady ==> m.conditions[x] == True
    ensures AllSubTrue(m.conditions) <==> (TopologyReady in m.conditions ==> m.conditions[TopologyReady] == True)
  {
  }

  lemma AllSubTrueExactly(i: Instance, m: Status)
    requires Grew(Started(i), m, Marked(i))
    ensures AllSubTrue(m.conditions) <==> TopologyClear(i)
    ensures Ready in m.conditions && m.conditions[Ready] == Unknown
  {
    StartedTopology(i);
    MarkedCover(i, Ready);
    GrewAt(Started(i), m, Marked(i), Ready);
    MarkedCover(i, TopologyReady);
    GrewAt(Started(i), m, Marked(i), TopologyReady);
    forall x | x in m.conditions && x != Ready && x != TopologyReady ensures m.conditions[x] == True {
      MarkedCover(i, x);
      GrewAt(Started(i), m, Marked(i), x);
    }
    AllTrueBut(m);
  }

  /** A pass over a settled GlanceAPI in which every call succeeds ends Ready, with the wanted secret recorded,
      if and only if no condition of a former topology is in the way. */
  lemma SettledReadyExactly(w: World, o: Oracle)
    requires Valid(w) && Agrees(w) && Smooth(o) && Settled(w, o)
    ensures
      var w' := Reconcile(w, o);
      && w'.api.Some?
      && (IsReady(w'.api.value.status) <==> TopologyClear(w.api.value))
      && (TopologyClear(w.api.value) ==> w'.api.value.status.acSecret == Secret(w.api.value))
  {
    LiveNormal(w, o);
    PassResult(w, o);
  }

  // ----- A topology reference that is gone -----

  /** The reference to a topology has been removed while its condition was not True. */
  predicate Stuck(w: World) {
    && w.api.Some? && w.api.value.spec.template.topologyRef == None
    && TopologyReady in w.api.value.status.conditions && w.api.value.status.conditions[TopologyReady] != True
    && !IsReady(w.api.value.status)
  }

  /** A topology that cannot be had is recorded as False, and the pass is not Ready. */
  lemma FailedTopologyRecorded(w: World, o: Oracle)
    requires Valid(w) && w.api.Some? && !w.api.value.deleting && !IsFirstPass(w.api.value)
    requires Serviceable(w.api.value, w.cluster.secrets) && Prepares(o) && !o.topology && o.patch
    ensures
      var w' := Reconcile(w, o);
      && w'.api.Some? && w'.api.value.spec == w.api.value.spec && !w'.api.value.deleting
      && TopologyReady in w'.api.value.status.conditions
      && w'.api.value.status.conditions[TopologyReady] == False
      && !IsReady(w'.api.value.status)
  {
    var i := w.api.value;
    LivePrepare(w.cluster, i, o);
    var consumed := Consume(Prepare(Go(w.cluster, Started(i)), i, o), i, o);
    var failed := Exit(consumed.c, Mark(consumed.m, TopologyReady, False));
    assert Deploy(consumed, i, o) == failed;
    assert ReconcileNormal(Go(w.cluster, Started(i)), i, o) == failed;
    PassResult(w, o);
    PersistKeeps(w, failed, i.finalizer, o);
    ReadyIsSound(w, o);
  }

  ghost predicate Blocked(s: Step) {
    !s.Dead? ==> TopologyReady in s.m.conditions && s.m.conditions[TopologyReady] != True
  }

  lemma PrepareBlocked(s: Step, i: Instance, o: Oracle)
    requires Blocked(s)
    ensures Blocked(Backends(Refresh(Inputs(s, o), i, o), i, o))
  {
  }

  lemma ConfigureBlocked(s: Step, i: Instance, o: Oracle)
    requires Blocked(s)
    ensures Blocked(Configure(s, i, o))
  {
  }

  lemma DeployBlocked(s: Step, i: Instance, o: Oracle)
    requires Blocked(s) && i.spec.template.topologyRef == None
    ensures Blocked(Deploy(Consume(s, i, o), i, o))
  {
  }

  lemma FinishBlocked(s: Step, i: Instance, o: Oracle)
    requires Blocked(s)
    ensures Blocked(Finish(Release(Jobs(Observe(s, i, o), i, o), i, o)))
  {
  }

  lemma NormalBlocked(c: Cluster, m: Status, i: Instance, o: Oracle)
    requires Blocked(Go(c, m)) && i.spec.template.topologyRef == None
    ensures Blocked(ReconcileNormal(Go(c, m), i, o))
  {
    var refreshed := Backends(Refresh(Inputs(Go(c, m), o), i, o), i, o);
    PrepareBlocked(Go(c, m), i, o);
    ConfigureBlocked(refreshed, i, o);
    DeployBlocked(Configure(refreshed, i, o), i, o);
    FinishBlocked(Deploy(Consume(Configure(refreshed, i, o), i, o), i, o), i, o);
  }

  lemma BodyBlocked(w: World, o: Oracle)
    requires Stuck(w)
    ensures Blocked(Body(w, o))
  {
    var i := w.api.value;
    assert TopologyReady !in GATES + {Ready};
    if !IsFirstPass(i) && !i.deleting {
      NormalBlocked(w.cluster, Started(i), i, o);
    }
  }

  lemma PersistBlocked(w: World, s: Step, finalizer: bool, o: Oracle)
    requires w.api.Some? && Blocked(s) && !s.Dead? && o.patch
    ensures
      var w' := Persist(w, s, finalizer, o);
      w'.api.Some? ==> && TopologyReady in w'.api.value.status.conditions
                       && w'.api.value.status.conditions[TopologyReady] != True
  {
  }

  lemma StuckPass(w: World, o: Oracle)
    requires Valid(w) && Stuck(w)
    ensures var w' := Reconcile(w, o); w'.api.Some? ==> Stuck(w')
  {
    var i := w.api.value;
    PassResult(w, o);
    BodyBlocked(w, o);
    if !Lost(w, o) && Reconcile(w, o).api.Some? {
      ReadyIsSound(w, o);
      PersistBlocked(w, Body(w, o), i.finalizer, o);
      PersistBlocked(w, Body(w, o), i.finalizer || !i.deleting, o);
      PersistBlocked(w, Body(w, o), false, o);
    }
  }

  /** Until a topology is referred to again it is never Ready, in whatever run. */
  lemma {:induction false} StuckStays(w: World, es: seq<Event>)
    requires Valid(w) && Stuck(w)
    requires forall e :: e in es && e.Edit? ==> e.spec.template.topologyRef == None
    ensures Run(w, es).api.Some? ==> Stuck(Run(w, es))
    decreases |es|
  {
    if es != [] {
      NextValid(w, es[0]);
      if es[0].Pass? {
        StuckPass(w, es[0].o);
      }
      if Next(w, es[0]).api.Some? {
        StuckStays(Next(w, es[0]), es[1..]);
      } else {
        GoneStays(Next(w, es[0]), es[1..]);
      }
    }
  }

  lemma {:induction false} GoneStays(w: World, es: seq<Event>)
    requires w.api == None
    ensures Run(w, es).api == None
    decreases |es|
  {
    if es != [] {
      GoneStays(Next(w, es[0]), es[1..]);
    }
  }

  // ----- Getting there -----

  /** The GlanceAPI exists and its StatefulSet is the one the spec asks for, its pods up or not. */
  predicate Deployed(w: World, o: Oracle)
    requires Smooth(o)
  {
    && w.api.Some? && !w.api.value.deleting && !IsFirstPass(w.api.value)
    && Serviceable(w.api.value, w.cluster.secrets)
    && w.api.value.status.backendHash == DigestOf(w.api.value.spec)
    && w.cluster.sts.Some? && Applied(w.cluster.sts.value, w.api.value, o.render.value)
  }

  /** What a pass keeps of the object when every call succeeds. */
  ghost predicate Steady(w: World, w': World)
    requires w.api.Some?
  {
    && w'.api.Some? && w'.api.value.spec == w.api.value.spec && !w'.api.value.deleting && !IsFirstPass(w'.api.value)
    && w'.cluster.secrets.Keys == w.cluster.secrets.Keys
    && (TopologyClear(w'.api.value) <==> TopologyClear(w.api.value))
  }

  lemma FirstPassSteady(w: World, o: Oracle)
    requires Valid(w) && w.api.Some? && !w.api.value.deleting && Smooth(o) && IsFirstPass(w.api.value)
    ensures Steady(w, Reconcile(w, o))
  {
    PassResult(w, o);
    assert Ready in GATES + {Ready} && TopologyReady !in GATES + {Ready};
    assert Ready in Reconcile(w, o).api.value.status.conditions;
  }

  lemma PersistKeeps(w: World, s: Step, finalizer: bool, o: Oracle)
    requires w.api.Some? && !w.api.value.deleting && !s.Dead? && o.patch
    ensures
      var w' := Persist(w, s, finalizer, o);
      && w'.api.Some? && w'.api.value.status.conditions.Keys == s.m.conditions.Keys
      && (TopologyReady in s.m.conditions ==>
            w'.api.value.status.conditions[TopologyReady] == s.m.conditions[TopologyReady])
  {
  }

  /** A later pass: whether or not its pods are up, the StatefulSet then matches. */
  lemma LatePassDeploys(w: World, o: Oracle)
    requires Valid(w) && Agrees(w) && w.api.Some? && !w.api.value.deleting && Smooth(o) && !IsFirstPass(w.api.value)
    requires Serviceable(w.api.value, w.cluster.secrets)
    ensures Steady(w, Reconcile(w, o)) && Deployed(Reconcile(w, o), o)
  {
    var i := w.api.value;
    var r := ReconcileNormal(Go(w.cluster, Started(i)), i, o);
    LiveTail(w, o);
    PassResult(w, o);
    PersistKeeps(w, r, i.finalizer, o);
    BodyDecides(w, o);
    StartedTopology(i);
  }

  lemma LiveTail(w: World, o: Oracle)
    requires Agrees(w) && w.api.Some? && Smooth(o) && Serviceable(w.api.value, w.cluster.secrets)
    ensures
      var i := w.api.value;
      var r := ReconcileNormal(Go(w.cluster, Started(i)), i, o);
      && r.Go? && r.c.secrets.Keys == w.cluster.secrets.Keys && Matching(r.c.sts, i, o)
      && r.m.backendHash == DigestOf(i.spec) && SameTopology(Started(i), r.m, i)
  {
    var i := w.api.value;
    LiveDeployed(w, o);
    var deployed := Deploy(Consume(Prepare(Go(w.cluster, Started(i)), i, o), i, o), i, o);
    GrewTopology(Started(i), deployed.m, i);
    TailKeeps(deployed, i, o);
  }

  lemma GrewTopology(m: Status, m': Status, i: Instance)
    requires Grew(m, m', BEFORE_DEPLOY + TopologyMark(i))
    ensures SameTopology(m, m', i)
  {
    assert TopologyReady !in BEFORE_DEPLOY;
  }

  lemma TailKeeps(s: Step, i: Instance, o: Oracle)
    requires s.Go? && Smooth(o)
    ensures
      var r := Finish(Release(Jobs(Observe(s, i, o), i, o), i, o));
      && r.Go? && r.c.sts == s.c.sts && r.c.secrets.Keys == s.c.secrets.Keys
      && r.m.backendHash == s.m.backendHash && SameTopology(s.m, r.m, i)
  {
    ObserveTopology(s, i, o);
    var observed := Observe(s, i, o);
    LiveJobs(observed, i, o);
    LiveFinish(Jobs(observed, i, o), i, o);
  }

  /** Without a reference the topology's condition is left alone. */
  ghost predicate SameTopology(m: Status, m': Status, i: Instance) {
    i.spec.template.topologyRef == None ==>
      && (TopologyReady in m'.conditions <==> TopologyReady in m.conditions)
      && (TopologyReady in m.conditions ==> m'.conditions[TopologyReady] == m.conditions[TopologyReady])
  }

  lemma ObserveTopology(s: Step, i: Instance, o: Oracle)
    requires s.Go? && Smooth(o)
    ensures
      var p := Observe(s, i, o);
      && p.Go? && p.c == s.c && p.m.backendHash == s.m.backendHash && SameTopology(s.m, p.m, i)
  {
  }

  /** From any world in which the agreement holds: two passes in which every call succeeds deploy, and once the
      StatefulSet controller has brought the pods up a third one ends Ready, if and only if no condition of a
      former topology is in the way. */
  lemma BecomesReadyExactly(w: World, o: Oracle)
    requires Valid(w) && Agrees(w) && w.api.Some? && !w.api.value.deleting && Smooth(o)
    requires Serviceable(w.api.value, w.cluster.secrets)
    ensures
      var w2 := Reconcile(Reconcile(w, o), o);
      && w2.cluster.sts.Some?
      && var up := Observed(w2.cluster.sts.value.generation, w.api.value.spec.template.replicas);
         var w3 := Reconcile(Next(w2, up), o);
         w3.api.Some? && (IsReady(w3.api.value.status) <==> TopologyClear(w.api.value))
  {
    var w1 := Reconcile(w, o);
    if IsFirstPass(w.api.value) {
      FirstPassSteady(w, o);
    } else {
      LatePassDeploys(w, o);
    }
    NextValid(w, Pass(o));
    SuccessfulPassAgrees(w, o);
    LatePassDeploys(w1, o);
    var w2 := Reconcile(w1, o);
    NextValid(w1, Pass(o));
    SuccessfulPassAgrees(w1, o);
    PodsUp(w2, o, w.api.value.spec.template.replicas);
  }

  lemma PodsUp(w: World, o: Oracle, replicas: nat)
    requires Valid(w) && Agrees(w) && Smooth(o) && Deployed(w, o) && w.api.value.spec.template.replicas == replicas
    ensures
      var w' := Reconcile(Next(w, Observed(w.cluster.sts.value.generation, replicas)), o);
      w'.api.Some? && (IsReady(w'.api.value.status) <==> TopologyClear(w.api.value))
  {
    SettledReadyExactly(Next(w, Observed(w.cluster.sts.value.generation, replicas)), o);
  }

  /** So it is after every run that keeps the agreement, whatever failed in it. */
  lemma EveryRunCanBecomeReady(w: World, es: seq<Event>, o: Oracle)
    requires Valid(w) && Agrees(w) && NeverDisagrees(w, es) && Smooth(o)
    requires
      var v := Run(w, es);
      v.api.Some? && !v.api.value.deleting && Serviceable(v.api.value, v.cluster.secrets)
    ensures
      var v := Run(w, es);
      var v2 := Reconcile(Reconcile(v, o), o);
      && v2.cluster.sts.Some?
      && var up := Observed(v2.cluster.sts.value.generation, v.api.value.spec.template.replicas);
         var v3 := Reconcile(Next(v2, up), o);
         v3.api.Some? && (IsReady(v3.api.value.status) <==> TopologyClear(v.api.value))
  {
    EveryRunValid(w, es);
    EveryRunAgrees(w, es);
    BecomesReadyExactly(Run(w, es), o);
  }
}
