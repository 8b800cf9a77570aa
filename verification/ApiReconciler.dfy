/** The GlanceAPI reconciler itself: a controller that updates the cluster and an in-memory status step by
    step (internal/controller/glanceapi_controller.go), proved to do what ApiPass specifies. */
module ApiReconciler {
  import opened Text
  import opened GlanceTypes
  import opened Inheritance
  import EnabledBackends
  import opened ApiPass

  /** What a step tells its caller: go on, return through the deferred patch, or crash. */
  datatype Flow = Continue | Return | Crashed

  function StepOf(f: Flow, c: Cluster, m: Status): Step {
    match f
    case Continue => Go(c, m)
    case Return => Exit(c, m)
    case Crashed => Dead(c)
  }

  class GlanceApiReconciler {
    const me: string
    var secrets: map<string, set<string>>
    var sts: Option<StatefulSet>
    var api: Option<Instance>

    constructor (w: World)
      ensures W() == w
    {
      me, secrets, sts, api := w.me, w.cluster.secrets, w.cluster.sts, w.api;
    }

    function C(): Cluster
      reads this
    {
      Cluster(secrets, sts)
    }

    function W(): World
      reads this
    {
      World(me, C(), api)
    }

    method CheckInputs(m: Status, o: Oracle) returns (m': Status, f: Flow)
      ensures StepOf(f, C(), m') == Inputs(Go(C(), m), o)
    {
      if o.inputs != Ok {
        return Mark(m, InputReady, False), Return;
      }
      m' := Mark(m, InputReady, True);
      if o.memcached != Ok {
        return Mark(m', MemcachedReady, False), Return;
      }
      m', f := Mark(m', MemcachedReady, True), Continue;
    }

    method CreateHashOfBackendConfig(i: Instance, m: Status) returns (m': Status, changed: bool)
      requires DigestOf(i.spec).Some?
      ensures m' == m.(backendHash := DigestOf(i.spec))
      ensures changed <==> m.backendHash != DigestOf(i.spec)
    {
      var hash := DigestOf(i.spec);
      m', changed := m, false;
      if m.backendHash != hash {
        m', changed := m.(backendHash := hash), true;
      }
    }

    method GlanceApiRefresh(o: Oracle) returns (ok: bool)
      modifies this`sts
      ensures ok == o.refresh && sts == if ok then None else old(sts)
    {
      if !o.refresh {
        return false;
      }
      sts := None;
      return true;
    }

    method RefreshBackends(i: Instance, m: Status, o: Oracle) returns (m': Status, f: Flow)
      modifies this`sts
      ensures StepOf(f, C(), m') == Refresh(Go(old(C()), m), i, o)
    {
      m', f := m, Continue;
      if DigestOf(i.spec) == None {
        return m, Crashed;
      }
      var changed;
      m', changed := CreateHashOfBackendConfig(i, m);
      if changed {
        var ok := GlanceApiRefresh(o);
        if !ok {
          return Mark(m', DeploymentReady, False), Return;
        }
        if o.crash == AfterRefresh {
          return m', Crashed;
        }
      }
    }

    method CheckBackends(i: Instance, m: Status, o: Oracle) returns (m': Status, f: Flow)
      ensures StepOf(f, C(), m') == Backends(Go(C(), m), i, o)
    {
      var available := EnabledBackends.GetEnabledBackends(i.spec.template.customServiceConfig);
      if available == None {
        return m, Crashed;
      }
      var backends := available.value;
      for n := 0 to |backends|
        invariant ScanBackends(backends[n..], o.cinder) == ScanBackends(backends, o.cinder)
      {
        assert backends[n..][1..] == backends[n + 1..];
        var token := Cut(backends[n], ':').1;
        if token == None {
          return m, Crashed;
        }
        if token.value == "cinder" && !o.cinder {
          return Mark(m, CinderReady, False), Return;
        }
      }
      m', f := Mark(m, CinderReady, True), Continue;
    }

    method EnsureKeystoneEndpoints(i: Instance, m: Status, o: Oracle) returns (m': Status, call: Call)
      ensures call == o.keystone
      ensures m' == Mark(m, KeystoneEndpointReady,
                         if !i.keystone then True else if call == Err then False else o.keystoneStatus)
    {
      call := o.keystone;
      if !i.keystone {
        m' := Mark(m, KeystoneEndpointReady, True);
      } else if call == Err {
        m' := Mark(m, KeystoneEndpointReady, False);
      } else {
        m' := Mark(m, KeystoneEndpointReady, o.keystoneStatus);
      }
    }

    method ConfigureService(i: Instance, m: Status, o: Oracle) returns (m': Status, f: Flow)
      ensures StepOf(f, C(), m') == Configure(Go(C(), m), i, o)
    {
      if o.tls != Ok {
        return Mark(m, TLSInputReady, False), Return;
      }
      m' := Mark(m, TLSInputReady, True);
      if o.nad != Ok {
        return Mark(m', NetworkAttachmentsReady, False), Return;
      }
      if o.services != Ok {
        return Mark(m', CreateServiceReady, False), Return;
      }
      m' := Mark(m', CreateServiceReady, True);
      var call;
      m', call := EnsureKeystoneEndpoints(i, m', o);
      if call != Ok {
        return m', Return;
      }
      var ac := i.spec.template.appCredentialSecret;
      if o.render == None || (ac != "" && ac !in secrets) {
        return Mark(m', ServiceConfigReady, False), Return;
      }
      f := Continue;
    }

    method ConsumeSecret(i: Instance, m: Status, o: Oracle) returns (m': Status, f: Flow)
      modifies this`secrets
      ensures StepOf(f, C(), m') == Consume(Go(old(C()), m), i, o)
    {
      var ac := i.spec.template.appCredentialSecret;
      if ac != "" {
        if !o.addFinalizer {
          return Mark(m, ServiceConfigReady, False), Return;
        }
        secrets := AddTo(secrets, ac, Me(i));
      }
      if o.crash == AfterFinalizer {
        return m, Crashed;
      }
      m', f := Mark(m, ServiceConfigReady, True), Continue;
    }

    method DeployStatefulSet(i: Instance, m: Status, o: Oracle) returns (m': Status, f: Flow)
      requires o.render.Some?
      modifies this`sts
      ensures StepOf(f, C(), m') == Deploy(Go(old(C()), m), i, o)
    {
      m' := m;
      if !o.topology {
        return Mark(m', TopologyReady, False), Return;
      }
      if i.spec.template.topologyRef.Some? {
        m' := Mark(m', TopologyReady, True);
      }
      if !o.build {
        return m', Return;
      }
      var applied := Apply(sts, Desired(i, o.render.value));
      if o.apply != Ok || applied == None {
        return Mark(m', DeploymentReady, False), Return;
      }
      sts := applied;
      f := if o.crash == AfterApply then Crashed else Continue;
    }

    method ObserveStatefulSet(i: Instance, m: Status, o: Oracle) returns (m': Status, f: Flow)
      ensures StepOf(f, C(), m') == Observe(Go(C(), m), i, o)
    {
      m', f := m, Continue;
      if sts.Some? && sts.value.generation == sts.value.observedGeneration {
        m' := m'.(readyCount := sts.value.readyReplicas);
        if i.spec.template.replicas > 0 && o.network != Some(true) {
          return Mark(m', NetworkAttachmentsReady, False), Return;
        }
        m' := Mark(m', NetworkAttachmentsReady, True);
        if m'.readyCount == i.spec.template.replicas {
          m' := Mark(m', DeploymentReady, True);
        } else {
          m' := Mark(m', DeploymentReady, False);
        }
      }
    }

    method ReconcileJobs(i: Instance, m: Status, o: Oracle) returns (m': Status, f: Flow)
      ensures StepOf(f, C(), m') == Jobs(Go(C(), m), i, o)
    {
      if !i.spec.template.storage.external && !o.pvcLabels {
        return m, Return;
      }
      if i.spec.template.imageCache.size != "" && !o.ensureJobs {
        return Mark(m, CronJobReady, False), Return;
      }
      if o.cleanupJobs != Ok {
        return m, Return;
      }
      m', f := Mark(m, CronJobReady, True), Continue;
    }

    method ReleaseSecret(i: Instance, m: Status, o: Oracle) returns (m': Status, f: Flow)
      modifies this`secrets
      ensures StepOf(f, C(), m') == Release(Go(old(C()), m), i, o)
    {
      var ac := i.spec.template.appCredentialSecret;
      m', f := m, Continue;
      var isRotation := m.acSecret != "" && m.acSecret != ac;
      if isRotation {
        if AllSubTrue(m.conditions) {
          if !o.release {
            return m, Return;
          }
          secrets := RemoveFrom(secrets, m.acSecret, Me(i));
          if o.crash == AfterRelease {
            return m, Crashed;
          }
          m' := m.(acSecret := ac);
        }
      } else {
        m' := m.(acSecret := ac);
      }
    }

    method RunNormal(i: Instance, m: Status, o: Oracle) returns (m': Status, f: Flow)
      modifies this`secrets, this`sts
      ensures StepOf(f, C(), m') == ReconcileNormal(Go(old(C()), m), i, o)
    {
      m', f := PrepareService(i, m, o);
      if f != Continue {
        return;
      }
      m', f := ConsumeSecret(i, m', o);
      if f != Continue {
        return;
      }
      m', f := DeployStatefulSet(i, m', o);
      if f != Continue {
        return;
      }
      m', f := FinishPass(i, m', o);
    }

    method PrepareService(i: Instance, m: Status, o: Oracle) returns (m': Status, f: Flow)
      modifies this`sts
      ensures StepOf(f, C(), m') == Prepare(Go(old(C()), m), i, o)
      ensures f == Continue ==> o.render.Some?
    {
      m', f := CheckInputs(m, o);
      if f != Continue {
        return;
      }
      m', f := RefreshBackends(i, m', o);
      if f != Continue {
        return;
      }
      m', f := CheckBackends(i, m', o);
      if f != Continue {
        return;
      }
      m', f := ConfigureService(i, m', o);
    }

    method FinishPass(i: Instance, m: Status, o: Oracle) returns (m': Status, f: Flow)
      modifies this`secrets
      ensures StepOf(f, C(), m') == Finish(Release(Jobs(Observe(Go(old(C()), m), i, o), i, o), i, o))
    {
      m', f := ObserveStatefulSet(i, m, o);
      if f != Continue {
        return;
      }
      m', f := ReconcileJobs(i, m', o);
      if f != Continue {
        return;
      }
      m', f := ReleaseSecret(i, m', o);
      if f == Continue && AllSubTrue(m'.conditions) {
        m' := Mark(m', Ready, True);
      }
    }

    method RunDelete(i: Instance, m: Status, o: Oracle) returns (f: Flow)
      modifies this`secrets
      ensures StepOf(f, C(), m) == ReconcileDelete(Go(old(C()), m), i, o)
    {
      if !o.endpointsGone {
        return Return;
      }
      var names := [m.acSecret, i.spec.template.appCredentialSecret];
      var released := [o.release, o.releaseSpec];
      var crashes := [AfterRelease, AfterSecondRelease];
      for n := 0 to 2
        invariant n >= 1 ==> o.release && o.crash != AfterRelease
        invariant n == 2 ==> o.releaseSpec && o.crash != AfterSecondRelease
        invariant secrets ==
                  var one := if n == 0 then old(secrets) else RemoveFrom(old(secrets), names[0], Me(i));
                  if n == 2 then RemoveFrom(one, names[1], Me(i)) else one
      {
        if !released[n] {
          return Return;
        }
        secrets := RemoveFrom(secrets, names[n], Me(i));
        if o.crash == crashes[n] {
          return Crashed;
        }
      }
      f := if o.topologyGone then Continue else Return;
    }

    /** The pass before the deferred status patch. */
    method ReconcileBody(i: Instance, o: Oracle) returns (m: Status, finalizer: bool, f: Flow)
      requires api == Some(i)
      modifies this`secrets, this`sts
      ensures StepOf(f, C(), m) == Body(old(W()), o)
      ensures finalizer == if IsFirstPass(i) then i.finalizer || !i.deleting
                           else if i.deleting && f == Continue then false
                           else i.finalizer
    {
      m, finalizer, f := Started(i), i.finalizer, Return;
      if IsFirstPass(i) {
        finalizer := i.finalizer || !i.deleting;
      } else if i.deleting {
        f := RunDelete(i, m, o);
        finalizer := if f == Continue then false else i.finalizer;
      } else {
        m, f := RunNormal(i, m, o);
      }
    }

    /** A whole pass, from the fetched object to the deferred status patch. */
    method ReconcilePass(o: Oracle)
      modifies this
      ensures W() == Reconcile(old(W()), o)
    {
      if api == None {
        return;
      }
      var i := api.value;
      var m, finalizer, f := ReconcileBody(i, o);
      if f != Crashed {
        PatchInstance(i, m, finalizer, o);
      }
    }

    method PatchInstance(i: Instance, m: Status, finalizer: bool, o: Oracle)
      requires api == Some(i)
      modifies this`api
      ensures W() == Persist(old(W()), Exit(old(C()), m), finalizer, o)
    {
      var m := m;
      if Ready in m.conditions && m.conditions[Ready] == Unknown {
        m := Mark(m, Ready, Mirrored(m, o.mirror));
      }
      if o.patch {
        api := if i.deleting && !finalizer then None else Some(i.(finalizer := finalizer, status := m));
      }
    }
  }
}
