/** One reconcile pass of a GlanceAPI (internal/controller/glanceapi_controller.go), from the fetched object
    to the deferred status patch. Calls into the cluster and into other services are outcomes chosen by an
    oracle, and the operator may crash after any write. */
module ApiPass {
  import opened Text
  import opened GlanceTypes
  import opened Inheritance
  import EnabledBackends

  // ----- The cluster as this GlanceAPI sees it -----

  /** acSecret is the application credential behind the config hash of the pod template, config stands for
      everything else in the template. */
  datatype StatefulSet = StatefulSet(
    acSecret: string,
    config: string,
    claims: seq<Claim>,
    replicas: nat,
    generation: nat,
    observedGeneration: nat,
    readyReplicas: nat)

  /** secrets maps each existing application credential secret to its finalizers. */
  datatype Cluster = Cluster(secrets: map<string, set<string>>, sts: Option<StatefulSet>)

  datatype CondStatus = Unknown | False | True

  datatype Cond =
    | Ready | CinderReady | MemcachedReady | CreateServiceReady | InputReady | ServiceConfigReady
    | DeploymentReady | TLSInputReady | KeystoneEndpointReady | NetworkAttachmentsReady | CronJobReady
    | TopologyReady

  /** The storage settings whose hash is kept in the status; the hash is taken to be injective. */
  datatype Digest = Digest(backends: seq<string>, storage: Storage, cacheSize: string)

  datatype Status = Status(
    conditions: map<Cond, CondStatus>,
    backendHash: Option<Digest>,
    acSecret: string,
    readyCount: nat,
    observedGeneration: nat)

  /** A stored GlanceAPI; keystone is the annotation that makes it register its endpoints. */
  datatype Instance = Instance(
    spec: ApiSpec,
    keystone: bool,
    generation: nat,
    deleting: bool,
    finalizer: bool,
    status: Status)

  /** me is this GlanceAPI's consumer finalizer; api is None once the object is gone. */
  datatype World = World(me: string, cluster: Cluster, api: Option<Instance>)

  // ----- Outcomes of the calls of one pass -----

  datatype Call = Ok | Err | Requeue

  /** The writes of a pass after which it may crash. A crash elsewhere is one after the last write. */
  datatype Crash = NoCrash | AfterRefresh | AfterFinalizer | AfterApply | AfterRelease | AfterSecondRelease

  datatype Oracle = Oracle(
    inputs: Call, memcached: Call, refresh: bool, cinder: bool, tls: Call, nad: Call, services: Call,
    keystone: Call, keystoneStatus: CondStatus, render: Option<string>, addFinalizer: bool, topology: bool,
    build: bool, apply: Call, network: Option<bool>, pvcLabels: bool, ensureJobs: bool, cleanupJobs: Call,
    endpointsGone: bool, release: bool, releaseSpec: bool, topologyGone: bool,
    mirror: CondStatus, crash: Crash, patch: bool)

  // ----- Conditions -----

  /** The conditions every pass starts from Unknown, besides Ready itself. */
  const GATES: set<Cond> := {
    CinderReady, MemcachedReady, CreateServiceReady, InputReady, ServiceConfigReady, DeploymentReady,
    TLSInputReady, KeystoneEndpointReady, NetworkAttachmentsReady, CronJobReady}

  function InitConditions(c: map<Cond, CondStatus>): map<Cond, CondStatus> {
    c + map g | g in GATES + {Ready} :: Unknown
  }

  predicate AllSubTrue(c: map<Cond, CondStatus>) {
    forall x :: x in c && x != Ready ==> c[x] == True
  }

  function Mark(m: Status, c: Cond, s: CondStatus): Status {
    m.(conditions := m.conditions[c := s])
  }

  /** The library's mirror of the sub-conditions is not True when one of them is not. */
  function Mirrored(m: Status, choice: CondStatus): CondStatus {
    if choice == True && !AllSubTrue(m.conditions) then Unknown else choice
  }

  // ----- A pass -----

  /** How far a pass has got: it continues, has returned, or has died with its status lost. m is the
      in-memory status, which only the deferred patch writes back. */
  datatype Step = Go(c: Cluster, m: Status) | Exit(c: Cluster, m: Status) | Dead(c: Cluster)

  function AddTo(secrets: map<string, set<string>>, name: string, fin: string): map<string, set<string>> {
    if name in secrets then secrets[name := secrets[name] + {fin}] else secrets
  }

  function RemoveFrom(secrets: map<string, set<string>>, name: string, fin: string): map<string, set<string>> {
    if name in secrets then secrets[name := secrets[name] - {fin}] else secrets
  }

  function Me(i: Instance): string {
    ConsumerFinalizer(i.spec.apiName, i.spec.apiType)
  }

  function DigestOf(spec: ApiSpec): Option<Digest> {
    match EnabledBackends.Parse(spec.template.customServiceConfig)
    case None => None
    case Some(backends) => Some(Digest(backends, spec.template.storage, spec.template.imageCache.size))
  }

  function Inputs(s: Step, o: Oracle): Step {
    if !s.Go? then s
    else if o.inputs != Ok then Exit(s.c, Mark(s.m, InputReady, False))
    else
      var m := Mark(s.m, InputReady, True);
      if o.memcached != Ok then Exit(s.c, Mark(m, MemcachedReady, False))
      else Go(s.c, Mark(m, MemcachedReady, True))
  }

  /** When the storage settings differ from those under the stored hash the StatefulSet is deleted, since
      its claim templates cannot be changed. */
  function Refresh(s: Step, i: Instance, o: Oracle): Step {
    if !s.Go? then s
    else
      match DigestOf(i.spec)
      case None => Dead(s.c)
      case Some(digest) =>
        if s.m.backendHash == Some(digest) then s
        else
          var m := s.m.(backendHash := Some(digest));
          if !o.refresh then Exit(s.c, Mark(m, DeploymentReady, False))
          else
            var c := s.c.(sts := None);
            if o.crash == AfterRefresh then Dead(c) else Go(c, m)
  }

  datatype Scan = Scanned | WaitForCinder | ScanPanics

  /** The loop over the stores: Cinder must be deployed, and an entry without ':' is a run-time panic. */
  function ScanBackends(backends: seq<string>, cinder: bool): Scan {
    if backends == [] then Scanned
    else
      match Cut(backends[0], ':').1
      case None => ScanPanics
      case Some(kind) => if kind == "cinder" && !cinder then WaitForCinder else ScanBackends(backends[1..], cinder)
  }

  function Backends(s: Step, i: Instance, o: Oracle): Step {
    if !s.Go? then s
    else
      match EnabledBackends.Parse(i.spec.template.customServiceConfig)
      case None => Dead(s.c)
      case Some(backends) =>
        match ScanBackends(backends, o.cinder)
        case ScanPanics => Dead(s.c)
        case WaitForCinder => Exit(s.c, Mark(s.m, CinderReady, False))
        case Scanned => Go(s.c, Mark(s.m, CinderReady, True))
  }

  /** TLS secrets, networks, services and keystone endpoints, then the rendered configuration, which needs
      the application credential secret to exist. */
  function Configure(s: Step, i: Instance, o: Oracle): Step {
    if !s.Go? then s
    else if o.tls != Ok then Exit(s.c, Mark(s.m, TLSInputReady, False))
    else
      var m := Mark(s.m, TLSInputReady, True);
      if o.nad != Ok then Exit(s.c, Mark(m, NetworkAttachmentsReady, False))
      else if o.services != Ok then Exit(s.c, Mark(m, CreateServiceReady, False))
      else
        var m := Mark(Mark(m, CreateServiceReady, True), KeystoneEndpointReady,
                      if !i.keystone then True else if o.keystone == Err then False else o.keystoneStatus);
        var ac := i.spec.template.appCredentialSecret;
        if o.keystone != Ok then Exit(s.c, m)
        else if o.render == None || (ac != "" && ac !in s.c.secrets) then Exit(s.c, Mark(m, ServiceConfigReady, False))
        else Go(s.c, m)
  }

  /** The consumer finalizer goes on the secret before any pod can use it. */
  function Consume(s: Step, i: Instance, o: Oracle): Step {
    if !s.Go? then s
    else
      var ac := i.spec.template.appCredentialSecret;
      if ac != "" && !o.addFinalizer then Exit(s.c, Mark(s.m, ServiceConfigReady, False))
      else
        var c := if ac != "" then s.c.(secrets := AddTo(s.c.secrets, ac, Me(i))) else s.c;
        if o.crash == AfterFinalizer then Dead(c) else Go(c, Mark(s.m, ServiceConfigReady, True))
  }

  function Desired(i: Instance, config: string): StatefulSet {
    StatefulSet(i.spec.template.appCredentialSecret, config, Claims(i.spec.template), i.spec.template.replicas, 1, 0, 0)
  }

  /** CreateOrPatch: the API server refuses a change of the claim templates, and any other change is a new
      generation. None is a refusal. */
  function Apply(sts: Option<StatefulSet>, want: StatefulSet): Option<StatefulSet> {
    match sts
    case None => Some(want)
    case Some(have) =>
      var same := want.(generation := have.generation, observedGeneration := have.observedGeneration,
                        readyReplicas := have.readyReplicas);
      if have.claims != want.claims then None
      else if have == same then Some(have)
      else Some(same.(generation := have.generation + 1))
  }

  function Deploy(s: Step, i: Instance, o: Oracle): Step {
    if !s.Go? || o.render == None then s
    else if !o.topology then Exit(s.c, Mark(s.m, TopologyReady, False))
    else
      var m := if i.spec.template.topologyRef.Some? then Mark(s.m, TopologyReady, True) else s.m;
      var applied := Apply(s.c.sts, Desired(i, o.render.value));
      if !o.build then Exit(s.c, m)
      else if o.apply != Ok || applied == None then Exit(s.c, Mark(m, DeploymentReady, False))
      else
        var c := s.c.(sts := applied);
        if o.crash == AfterApply then Dead(c) else Go(c, m)
  }

  function Observe(s: Step, i: Instance, o: Oracle): Step {
    if !s.Go? || s.c.sts == None || s.c.sts.value.generation != s.c.sts.value.observedGeneration then s
    else
      var m := s.m.(readyCount := s.c.sts.value.readyReplicas);
      var replicas := i.spec.template.replicas;
      if replicas > 0 && o.network != Some(true) then Exit(s.c, Mark(m, NetworkAttachmentsReady, False))
      else Go(s.c, Mark(Mark(m, NetworkAttachmentsReady, True), DeploymentReady,
                        if m.readyCount == replicas then True else False))
  }

  function Jobs(s: Step, i: Instance, o: Oracle): Step {
    if !s.Go? then s
    else if !i.spec.template.storage.external && !o.pvcLabels then Exit(s.c, s.m)
    else if i.spec.template.imageCache.size != "" && !o.ensureJobs then Exit(s.c, Mark(s.m, CronJobReady, False))
    else if o.cleanupJobs != Ok then Exit(s.c, s.m)
    else Go(s.c, Mark(s.m, CronJobReady, True))
  }

  /** The old secret is released, and the new one recorded, only when everything runs with the new one. */
  function Release(s: Step, i: Instance, o: Oracle): Step {
    if !s.Go? then s
    else
      var ac := i.spec.template.appCredentialSecret;
      if s.m.acSecret == "" || s.m.acSecret == ac then Go(s.c, s.m.(acSecret := ac))
      else if !AllSubTrue(s.m.conditions) then s
      else if !o.release then Exit(s.c, s.m)
      else
        var c := s.c.(secrets := RemoveFrom(s.c.secrets, s.m.acSecret, Me(i)));
        if o.crash == AfterRelease then Dead(c) else Go(c, s.m.(acSecret := ac))
  }

  function Finish(s: Step): Step {
    if s.Go? && AllSubTrue(s.m.conditions) then Go(s.c, Mark(s.m, Ready, True)) else s
  }

  function Prepare(s: Step, i: Instance, o: Oracle): Step {
    Configure(Backends(Refresh(Inputs(s, o), i, o), i, o), i, o)
  }

  function ReconcileNormal(s: Step, i: Instance, o: Oracle): Step {
    var consumed := Consume(Prepare(s, i, o), i, o);
    Finish(Release(Jobs(Observe(Deploy(consumed, i, o), i, o), i, o), i, o))
  }

  /** Both the recorded and the wanted secret are released. */
  function ReconcileDelete(s: Step, i: Instance, o: Oracle): Step {
    if !s.Go? then s
    else if !o.endpointsGone || !o.release then Exit(s.c, s.m)
    else
      var c := s.c.(secrets := RemoveFrom(s.c.secrets, s.m.acSecret, Me(i)));
      if o.crash == AfterRelease then Dead(c)
      else if !o.releaseSpec then Exit(c, s.m)
      else
        var c := c.(secrets := RemoveFrom(c.secrets, i.spec.template.appCredentialSecret, Me(i)));
        if o.crash == AfterSecondRelease then Dead(c)
        else if !o.topologyGone then Exit(c, s.m)
        else Go(c, s.m)
  }

  /** The deferred patch: an undecided Ready mirrors the other conditions; the object is gone once it is
      being deleted and has lost the controller's finalizer. */
  function Persist(w: World, s: Step, finalizer: bool, o: Oracle): World
    requires w.api.Some?
  {
    var i := w.api.value;
    if s.Dead? || !o.patch then w.(cluster := s.c)
    else if i.deleting && !finalizer then w.(cluster := s.c, api := None)
    else
      var m := if Ready in s.m.conditions && s.m.conditions[Ready] == Unknown
               then Mark(s.m, Ready, Mirrored(s.m, o.mirror)) else s.m;
      w.(cluster := s.c, api := Some(i.(finalizer := finalizer, status := m)))
  }

  function Started(i: Instance): Status {
    i.status.(conditions := InitConditions(i.status.conditions), observedGeneration := i.generation)
  }

  predicate IsFirstPass(i: Instance) {
    (!i.deleting && !i.finalizer) || i.status.conditions == map[]
  }

  /** Where the pass ends, before the deferred patch. */
  function Body(w: World, o: Oracle): Step
    requires w.api.Some?
  {
    var i := w.api.value;
    if IsFirstPass(i) then Exit(w.cluster, Started(i))
    else if i.deleting then ReconcileDelete(Go(w.cluster, Started(i)), i, o)
    else ReconcileNormal(Go(w.cluster, Started(i)), i, o)
  }

  function Reconcile(w: World, o: Oracle): World {
    if w.api == None then w
    else
      var i := w.api.value;
      var s := Body(w, o);
      var finalizer :=
        if IsFirstPass(i) then i.finalizer || !i.deleting
        else if i.deleting && s.Go? then false
        else i.finalizer;
      Persist(w, s, finalizer, o)
  }
}
