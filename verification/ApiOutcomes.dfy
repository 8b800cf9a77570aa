/** What a pass of a GlanceAPI reports and when it ends the object's life, read off the outcomes of its calls
    (internal/controller/glanceapi_controller.go). */
module ApiOutcomes {
  import opened Text
  import opened GlanceTypes
  import opened Inheritance
  import opened ApiPass
  import opened ApiRuns
  import opened ApiReadiness
  import opened FileStores
  import EnabledBackends

  // ----- The stores -----

  ghost predicate HasSomeKind(entry: string) {
    exists kind :: HasKind(entry, kind)
  }

  lemma SomeKindExactly(entry: string)
    ensures Cut(entry, ':').1.Some? <==> HasSomeKind(entry)
  {
    if Cut(entry, ':').1.Some? {
      KindExactly(entry, Cut(entry, ':').1.value);
    }
    if kind :| HasKind(entry, kind) {
      KindExactly(entry, kind);
    }
  }

  /** The entry lets the loop over the stores go on. */
  ghost predicate Passes(entry: string, cinder: bool) {
    HasSomeKind(entry) && (HasKind(entry, "cinder") ==> cinder)
  }

  /** The loop goes through exactly if every entry names a kind and none names cinder while Cinder is not
      deployed; it waits exactly if the first entry that does not pass names cinder. */
  lemma {:induction false} ScanExactly(stores: seq<string>, cinder: bool)
    ensures ScanBackends(stores, cinder) == Scanned <==> forall n :: 0 <= n < |stores| ==> Passes(stores[n], cinder)
    ensures ScanBackends(stores, cinder) == WaitForCinder <==>
              exists n :: 0 <= n < |stores| && HasKind(stores[n], "cinder") && !cinder
                          && forall m :: 0 <= m < n ==> Passes(stores[m], cinder)
  {
    if stores != [] {
      var rest := stores[1..];
      ScanExactly(rest, cinder);
      SomeKindExactly(stores[0]);
      KindExactly(stores[0], "cinder");
      forall n | 0 <= n < |rest| ensures rest[n] == stores[n + 1] {
      }
      if Passes(stores[0], cinder) {
        PassedOn(stores, cinder);
      } else {
        assert !Passes(stores[0], cinder);
      }
    }
  }

  lemma PassedOn(stores: seq<string>, cinder: bool)
    requires stores != [] && Passes(stores[0], cinder)
    ensures
      var rest := stores[1..];
      && ((forall n :: 0 <= n < |stores| ==> Passes(stores[n], cinder))
          <==> forall n :: 0 <= n < |rest| ==> Passes(rest[n], cinder))
      && (WaitsIn(stores, cinder) <==> WaitsIn(rest, cinder))
  {
    var rest := stores[1..];
    forall n | 0 <= n < |rest| ensures rest[n] == stores[n + 1] {
    }
    if forall n :: 0 <= n < |rest| ==> Passes(rest[n], cinder) {
      forall n | 0 <= n < |stores| ensures Passes(stores[n], cinder) {
        assert n > 0 ==> stores[n] == rest[n - 1];
      }
    }
    if n :| WaitsAt(stores, cinder, n) {
      assert n > 0;
      assert WaitsAt(rest, cinder, n - 1);
    }
    if n :| WaitsAt(rest, cinder, n) {
      forall m | 0 <= m < n + 1 ensures Passes(stores[m], cinder) {
        assert m > 0 ==> stores[m] == rest[m - 1];
      }
      assert WaitsAt(stores, cinder, n + 1);
    }
  }

  ghost predicate WaitsAt(stores: seq<string>, cinder: bool, n: int) {
    && 0 <= n < |stores| && HasKind(stores[n], "cinder") && !cinder
    && forall m :: 0 <= m < n ==> Passes(stores[m], cinder)
  }

  ghost predicate WaitsIn(stores: seq<string>, cinder: bool) {
    exists n :: WaitsAt(stores, cinder, n)
  }

  function Stores(spec: ApiSpec): Option<seq<string>> {
    EnabledBackends.Parse(spec.template.customServiceConfig)
  }

  /** The hash changes with the stores listed, the storage settings or the cache size, and with nothing else. */
  lemma DigestExactly(a: ApiSpec, b: ApiSpec)
    requires DigestOf(a).Some? && DigestOf(b).Some?
    ensures DigestOf(a) == DigestOf(b) <==>
              && Stores(a) == Stores(b)
              && a.template.storage == b.template.storage && a.template.imageCache.size == b.template.imageCache.size
  {
  }

  // ----- What is reported -----

  /** The condition that is to name the first call that fails, in the order of the calls. */
  ghost function Blamed(w: World, o: Oracle): Option<Cond>
    requires w.api.Some?
  {
    var i := w.api.value;
    if o.inputs != Ok then Some(InputReady)
    else if o.memcached != Ok then Some(MemcachedReady)
    else if DigestOf(i.spec) == None then None
    else if i.status.backendHash != DigestOf(i.spec) && !o.refresh then Some(DeploymentReady)
    else BlamedLater(i, w.cluster, o)
  }

  ghost function BlamedLater(i: Instance, c: Cluster, o: Oracle): Option<Cond>
    requires DigestOf(i.spec).Some?
  {
    var secret := i.spec.template.appCredentialSecret;
    match ScanBackends(DigestOf(i.spec).value.backends, o.cinder)
    case WaitForCinder => Some(CinderReady)
    case ScanPanics => None
    case Scanned =>
      if o.tls != Ok then Some(TLSInputReady)
      else if o.nad != Ok then Some(NetworkAttachmentsReady)
      else if o.services != Ok then Some(CreateServiceReady)
      else if o.keystone == Err && i.keystone then Some(KeystoneEndpointReady)
      else if o.keystone != Ok then None
      else if o.render == None || (secret != "" && secret !in c.secrets) then Some(ServiceConfigReady)
      else if secret != "" && !o.addFinalizer then Some(ServiceConfigReady)
      else if !o.topology then Some(TopologyReady)
      else if !o.build then None
      else if o.apply != Ok then Some(DeploymentReady)
      else None
  }

  ghost predicate Names(s: Step, x: Cond) {
    s.Exit? && x in s.m.conditions && s.m.conditions[x] == False
  }

  /** A pass that has returned does nothing more. */
  lemma ReturnedStays(s: Step, i: Instance, o: Oracle)
    requires s.Exit?
    ensures Backends(Refresh(Inputs(s, o), i, o), i, o) == s
    ensures Finish(Release(Jobs(Observe(Deploy(Consume(Configure(s, i, o), i, o), i, o), i, o), i, o), i, o)) == s
  {
  }

  lemma InputsNamed(c: Cluster, m: Status, i: Instance, o: Oracle)
    ensures
      var s := Inputs(Go(c, m), o);
      && (o.inputs != Ok ==> Names(s, InputReady)) && (o.inputs == Ok && o.memcached != Ok ==> Names(s, MemcachedReady))
      && (o.inputs == Ok && o.memcached == Ok ==> s.Go? && s.c == c && s.m.backendHash == m.backendHash)
  {
  }

  lemma RefreshNamed(s: Step, i: Instance, o: Oracle)
    requires s.Go? && DigestOf(i.spec).Some? && o.crash == NoCrash
    ensures
      var r := Refresh(s, i, o);
      if s.m.backendHash != DigestOf(i.spec) && !o.refresh then Names(r, DeploymentReady)
      else r.Go? && r.c.secrets == s.c.secrets
  {
  }

  lemma BackendsNamed(s: Step, i: Instance, o: Oracle)
    requires s.Go? && DigestOf(i.spec).Some?
    ensures
      var r := Backends(s, i, o);
      match ScanBackends(DigestOf(i.spec).value.backends, o.cinder)
      case WaitForCinder => Names(r, CinderReady)
      case ScanPanics => r.Dead?
      case Scanned => r.Go? && r.c == s.c
  {
  }

  lemma ConfigureNamed(s: Step, i: Instance, o: Oracle)
    requires s.Go?
    ensures
      var r := Configure(s, i, o);
      var secret := i.spec.template.appCredentialSecret;
      if o.tls != Ok then Names(r, TLSInputReady)
      else if o.nad != Ok then Names(r, NetworkAttachmentsReady)
      else if o.services != Ok then Names(r, CreateServiceReady)
      else if o.keystone == Err && i.keystone then Names(r, KeystoneEndpointReady)
      else if o.keystone != Ok then r.Exit?
      else if o.render == None || (secret != "" && secret !in s.c.secrets) then Names(r, ServiceConfigReady)
      else r.Go? && r.c == s.c
  {
  }

  lemma DeployNamed(s: Step, i: Instance, o: Oracle)
    requires s.Go? && o.render.Some? && o.crash == NoCrash
    ensures
      var r := Deploy(Consume(s, i, o), i, o);
      if i.spec.template.appCredentialSecret != "" && !o.addFinalizer then Names(r, ServiceConfigReady)
      else if !o.topology then Names(r, TopologyReady)
      else o.build && o.apply != Ok ==> Names(r, DeploymentReady)
  {
  }

  lemma NormalNames(w: World, o: Oracle)
    requires w.api.Some? && o.crash == NoCrash && Blamed(w, o).Some?
    ensures Names(ReconcileNormal(Go(w.cluster, Started(w.api.value)), w.api.value, o), Blamed(w, o).value)
  {
    var i := w.api.value;
    var m := Started(i);
    var inputs := Inputs(Go(w.cluster, m), o);
    InputsNamed(w.cluster, m, i, o);
    if inputs.Go? {
      RefreshNamed(inputs, i, o);
      var refreshed := Refresh(inputs, i, o);
      if refreshed.Go? {
        LaterNames(refreshed, w, o);
      } else {
        ReturnedStays(refreshed, i, o);
      }
    } else {
      ReturnedStays(inputs, i, o);
    }
  }

  lemma LaterNames(s: Step, w: World, o: Oracle)
    requires w.api.Some? && DigestOf(w.api.value.spec).Some? && o.crash == NoCrash
    requires s.Go? && s.c.secrets == w.cluster.secrets && BlamedLater(w.api.value, w.cluster, o).Some?
    ensures
      var i := w.api.value;
      var prepared := Configure(Backends(s, i, o), i, o);
      Names(Finish(Release(Jobs(Observe(Deploy(Consume(prepared, i, o), i, o), i, o), i, o), i, o)),
            BlamedLater(i, w.cluster, o).value)
  {
    var i := w.api.value;
    BackendsNamed(s, i, o);
    var scanned := Backends(s, i, o);
    if scanned.Go? {
      ConfigureNamed(scanned, i, o);
      var configured := Configure(scanned, i, o);
      if configured.Go? {
        DeployNamed(configured, i, o);
        DeployedStays(Deploy(Consume(configured, i, o), i, o), i, o);
      } else {
        ConfiguredStays(configured, i, o);
      }
    } else {
      ReturnedStays(scanned, i, o);
    }
  }

  lemma ConfiguredStays(s: Step, i: Instance, o: Oracle)
    requires s.Exit?
    ensures Finish(Release(Jobs(Observe(Deploy(Consume(s, i, o), i, o), i, o), i, o), i, o)) == s
  {
  }

  lemma DeployedStays(s: Step, i: Instance, o: Oracle)
    requires s.Exit?
    ensures Finish(Release(Jobs(Observe(s, i, o), i, o), i, o)) == s
  {
  }

  lemma PersistNames(w: World, s: Step, finalizer: bool, o: Oracle, x: Cond)
    requires w.api.Some? && !w.api.value.deleting && o.patch && Names(s, x) && x != Ready
    ensures
      var w' := Persist(w, s, finalizer, o);
      w'.api.Some? && x in w'.api.value.status.conditions && w'.api.value.status.conditions[x] == False
  {
  }

  /** The status a pass stores names the first call that failed, as False, for the generation it reconciled, and
      the GlanceAPI is not Ready. */
  lemma FailureIsReported(w: World, o: Oracle)
    requires Valid(w) && w.api.Some? && !w.api.value.deleting && !IsFirstPass(w.api.value)
    requires o.crash == NoCrash && o.patch && Blamed(w, o).Some?
    ensures
      var w' := Reconcile(w, o);
      && w'.api.Some?
      && var c := w'.api.value.status.conditions;
         && Blamed(w, o).value in c && c[Blamed(w, o).value] == False
         && Ready in c && c[Ready] != True
         && w'.api.value.status.observedGeneration == w'.api.value.generation
  {
    var i := w.api.value;
    NormalNames(w, o);
    PersistNames(w, Body(w, o), i.finalizer, o, Blamed(w, o).value);
    BodyDecides(w, o);
    PassResult(w, o);
    PersistReady(w, Body(w, o), i.finalizer, o);
    ReadyIsSound(w, o);
  }

  lemma PersistReady(w: World, s: Step, finalizer: bool, o: Oracle)
    requires w.api.Some? && !w.api.value.deleting && o.patch && !s.Dead? && Ready in s.m.conditions
    ensures
      var w' := Persist(w, s, finalizer, o);
      w'.api.Some? && Ready in w'.api.value.status.conditions
  {
  }

  // ----- The end -----

  /** A GlanceAPI that is being deleted is gone after a pass exactly if its endpoints, both secrets and its
      topology have been released, without a crash, and the removal of its finalizer is stored. */
  lemma DeletedExactly(w: World, o: Oracle)
    requires Valid(w) && w.api.Some? && w.api.value.deleting && !IsFirstPass(w.api.value)
    ensures Reconcile(w, o).api == None <==>
              && o.endpointsGone && o.release && o.releaseSpec && o.topologyGone && o.patch
              && o.crash != AfterRelease && o.crash != AfterSecondRelease
  {
  }

  // ----- What is not needed -----

  /** An observed StatefulSet needs the network only for pods that are asked for, and DeploymentReady is then
      decided by the ready replicas alone. */
  lemma ObserveExactly(s: Step, i: Instance, o: Oracle)
    requires s.Go? && s.c.sts.Some? && s.c.sts.value.generation == s.c.sts.value.observedGeneration
    ensures
      var r := Observe(s, i, o);
      && (r.Go? <==> i.spec.template.replicas == 0 || o.network == Some(true))
      && (!r.Go? ==> Names(r, NetworkAttachmentsReady))
      && (r.Go? ==>
            && DeploymentReady in r.m.conditions
            && (r.m.conditions[DeploymentReady] == True <==> s.c.sts.value.readyReplicas == i.spec.template.replicas))
  {
  }

  /** Labels are put on the claims of local storage only, jobs are made for a cache only, and cleaned up
      always. */
  lemma JobsExactly(s: Step, i: Instance, o: Oracle)
    requires s.Go?
    ensures
      var r, template := Jobs(s, i, o), i.spec.template;
      && (r.Go? <==> && (template.storage.external || o.pvcLabels)
                     && (template.imageCache.size == "" || o.ensureJobs) && o.cleanupJobs == Ok)
      && (r.Go? ==> CronJobReady in r.m.conditions && r.m.conditions[CronJobReady] == True)
      && ((template.storage.external || o.pvcLabels) && template.imageCache.size != "" && !o.ensureJobs ==>
            Names(r, CronJobReady))
  {
  }

  /** A GlanceAPI that is not to register has nothing to wait for in keystone. */
  lemma UnregisteredIsFine(s: Step, i: Instance, o: Oracle)
    requires s.Go? && Configure(s, i, o).Go? && !i.keystone
    ensures
      var m := Configure(s, i, o).m;
      KeystoneEndpointReady in m.conditions && m.conditions[KeystoneEndpointReady] == True
  {
  }
}
