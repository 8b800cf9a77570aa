/** What holds over every run of a GlanceAPI: passes with any outcome and crash point, interleaved with edits
    of the object, changes of the secrets and progress of the StatefulSet. */
module ApiRuns {
  import opened Text
  import opened GlanceTypes
  import opened Inheritance
  import opened ApiPass

  datatype Event =
    | Pass(o: Oracle)
    | Edit(spec: ApiSpec, keystone: bool)
    | RequestDelete
    | SecretCreated(name: string)
    | SecretDeleted(name: string)
    | OtherFinalizers(name: string, fins: set<string>)
    | Observed(generation: nat, ready: nat)
    | StsDeleted

  /** Only a change of the spec is a new generation. An event that is not possible changes nothing: the API
      server keeps a secret while it has finalizers, and the name and type of a GlanceAPI are fixed. */
  function Next(w: World, e: Event): World {
    match e
    case Pass(o) => Reconcile(w, o)
    case Edit(spec, keystone) =>
      if w.api.Some? && spec.apiName == w.api.value.spec.apiName && spec.apiType == w.api.value.spec.apiType then
        var generation := if spec == w.api.value.spec then w.api.value.generation else w.api.value.generation + 1;
        w.(api := Some(w.api.value.(spec := spec, keystone := keystone, generation := generation)))
      else w
    case RequestDelete =>
      if w.api.Some? then
        w.(api := if w.api.value.finalizer then Some(w.api.value.(deleting := true)) else None)
      else w
    case SecretCreated(name) =>
      if name != "" && name !in w.cluster.secrets then
        w.(cluster := w.cluster.(secrets := w.cluster.secrets[name := {}]))
      else w
    case SecretDeleted(name) =>
      if name in w.cluster.secrets && w.cluster.secrets[name] == {} then
        w.(cluster := w.cluster.(secrets := w.cluster.secrets - {name}))
      else w
    case OtherFinalizers(name, fins) =>
      if name in w.cluster.secrets then
        w.(cluster := w.cluster.(secrets :=
          w.cluster.secrets[name := (fins - {w.me}) + (w.cluster.secrets[name] * {w.me})]))
      else w
    case Observed(generation, ready) =>
      if w.cluster.sts.Some? && generation <= w.cluster.sts.value.generation then
        w.(cluster := w.cluster.(sts :=
          Some(w.cluster.sts.value.(observedGeneration := generation, readyReplicas := ready))))
      else w
    case StsDeleted => w.(cluster := w.cluster.(sts := None))
  }

  function Run(w: World, es: seq<Event>): World
    decreases |es|
  {
    if es == [] then w else Run(Next(w, es[0]), es[1..])
  }

  ghost predicate Valid(w: World) {
    && "" !in w.cluster.secrets
    && (w.api.Some? ==> w.me == Me(w.api.value) && (w.api.value.deleting ==> w.api.value.finalizer))
  }

  lemma {:induction false} EveryRunValid(w: World, es: seq<Event>)
    requires Valid(w)
    ensures Valid(Run(w, es))
    decreases |es|
  {
    if es != [] {
      NextValid(w, es[0]);
      EveryRunValid(Next(w, es[0]), es[1..]);
    }
  }

  // ----- What a pass does to the secrets -----

  predicate Held(c: Cluster, me: string, name: string) {
    name in c.secrets && me in c.secrets[name]
  }

  function Secret(i: Instance): string {
    i.spec.template.appCredentialSecret
  }

  /** No secret comes or goes, and no finalizer but this GlanceAPI's own. */
  ghost predicate OnlyMine(c: Cluster, c': Cluster, me: string) {
    && c'.secrets.Keys == c.secrets.Keys
    && forall n :: n in c.secrets ==> c'.secrets[n] - {me} == c.secrets[n] - {me}
  }

  /** The effect of a pass on the secrets and on the recorded secret: only the wanted secret is ever added,
      only the recorded one is ever released, and the record moves to the wanted secret only when the old
      one is no longer held. */
  ghost predicate SecretsEffect(c: Cluster, m: Status, s: Step, i: Instance) {
    && OnlyMine(c, s.c, Me(i))
    && (forall n :: Held(s.c, Me(i), n) ==> Held(c, Me(i), n) || n == Secret(i))
    && (forall n :: Held(c, Me(i), n) && !Held(s.c, Me(i), n) ==> n == m.acSecret || n == Secret(i))
    && (!s.Dead? ==>
          || s.m.acSecret == m.acSecret
          || (s.m.acSecret == Secret(i) && (m.acSecret == "" || !Held(s.c, Me(i), m.acSecret))))
  }

  ghost predicate Wanted(c: Cluster, i: Instance) {
    Secret(i) != "" ==> Held(c, Me(i), Secret(i))
  }

  lemma ConfigureSecrets(s: Step, i: Instance, o: Oracle)
    ensures
      var s' := Configure(s, i, o);
      && s'.c == s.c
      && (!s'.Dead? ==> !s.Dead? && s'.m.acSecret == s.m.acSecret)
      && (s'.Go? ==> s.Go? && o.render.Some? && (Secret(i) != "" ==> Secret(i) in s.c.secrets))
  {
  }

  /** The stages up to the rendered configuration leave the secrets alone. */
  lemma RefreshSecrets(c: Cluster, m: Status, i: Instance, o: Oracle)
    ensures
      var s := Backends(Refresh(Inputs(Go(c, m), o), i, o), i, o);
      && s.c.secrets == c.secrets
      && (s.c.sts == c.sts || s.c.sts == None)
      && (!s.Dead? ==> s.m.acSecret == m.acSecret)
  {
  }

  lemma PrepareSecrets(c: Cluster, m: Status, i: Instance, o: Oracle)
    ensures
      var s := Prepare(Go(c, m), i, o);
      && s.c.secrets == c.secrets
      && (s.c.sts == c.sts || s.c.sts == None)
      && (!s.Dead? ==> s.m.acSecret == m.acSecret)
      && (s.Go? ==> o.render.Some? && (Secret(i) != "" ==> Secret(i) in c.secrets))
  {
    RefreshSecrets(c, m, i, o);
    var s := Backends(Refresh(Inputs(Go(c, m), o), i, o), i, o);
    ConfigureSecrets(s, i, o);
  }

  lemma ConsumeSecrets(c: Cluster, m: Status, s: Step, i: Instance, o: Oracle)
    requires s.c.secrets == c.secrets && (!s.Dead? ==> s.m.acSecret == m.acSecret)
    requires s.Go? && Secret(i) != "" ==> Secret(i) in c.secrets
    ensures
      var s' := Consume(s, i, o);
      && SecretsEffect(c, m, s', i)
      && (forall n :: Held(c, Me(i), n) ==> Held(s'.c, Me(i), n))
      && (!s'.Dead? ==> s'.m.acSecret == m.acSecret)
      && (s'.Go? ==> s.Go? && Wanted(s'.c, i))
      && s'.c.sts == s.c.sts
  {
  }

  lemma RunSecrets(s: Step, i: Instance, o: Oracle)
    ensures
      var s' := Jobs(Observe(Deploy(s, i, o), i, o), i, o);
      && s'.c.secrets == s.c.secrets
      && (!s'.Dead? ==> !s.Dead? && s'.m.acSecret == s.m.acSecret)
      && (s'.Go? ==> s.Go?)
  {
  }

  lemma ReleaseSecrets(c: Cluster, m: Status, s: Step, i: Instance, o: Oracle)
    requires SecretsEffect(c, m, s, i) && "" !in c.secrets
    requires !s.Dead? ==> s.m.acSecret == m.acSecret
    requires s.Go? ==> Wanted(s.c, i)
    ensures
      var s' := Finish(Release(s, i, o));
      && SecretsEffect(c, m, s', i)
      && (s'.Go? ==> Wanted(s'.c, i) && (s'.m.acSecret == Secret(i) || !AllSubTrue(s'.m.conditions)))
  {
  }

  lemma NormalSecrets(c: Cluster, m: Status, i: Instance, o: Oracle)
    requires "" !in c.secrets
    ensures
      var s := ReconcileNormal(Go(c, m), i, o);
      && SecretsEffect(c, m, s, i)
      && (s.Go? ==> Wanted(s.c, i) && (s.m.acSecret == Secret(i) || !AllSubTrue(s.m.conditions)))
  {
    var prepared := Prepare(Go(c, m), i, o);
    PrepareSecrets(c, m, i, o);
    ConsumeSecrets(c, m, prepared, i, o);
    var consumed := Consume(prepared, i, o);
    RunSecrets(consumed, i, o);
    ReleaseSecrets(c, m, Jobs(Observe(Deploy(consumed, i, o), i, o), i, o), i, o);
  }

  lemma DeleteSecrets(c: Cluster, m: Status, i: Instance, o: Oracle)
    ensures
      var s := ReconcileDelete(Go(c, m), i, o);
      && SecretsEffect(c, m, s, i)
      && (s.Go? ==> !Held(s.c, Me(i), m.acSecret) && !Held(s.c, Me(i), Secret(i)))
  {
  }

  lemma BodySecrets(w: World, o: Oracle)
    requires Valid(w) && w.api.Some?
    ensures SecretsEffect(w.cluster, w.api.value.status, Body(w, o), w.api.value)
  {
    var i := w.api.value;
    if !IsFirstPass(i) {
      if i.deleting {
        DeleteSecrets(w.cluster, Started(i), i, o);
      } else {
        NormalSecrets(w.cluster, Started(i), i, o);
      }
    }
  }

  /** A pass is lost when it dies or its patch fails: the stored object is then as before. */
  predicate Lost(w: World, o: Oracle)
    requires w.api.Some?
  {
    Body(w, o).Dead? || !o.patch
  }

  predicate Gone(w: World, o: Oracle)
    requires w.api.Some?
  {
    w.api.value.deleting && !IsFirstPass(w.api.value) && Body(w, o).Go?
  }

  lemma PassResult(w: World, o: Oracle)
    requires Valid(w) && w.api.Some?
    ensures
      var w', s, i := Reconcile(w, o), Body(w, o), w.api.value;
      && w'.me == w.me && w'.cluster == s.c
      && if Lost(w, o) then w'.api == w.api
         else if Gone(w, o) then w'.api == None
         else
           && w'.api.Some?
           && w'.api.value == i.(finalizer := true, status := w'.api.value.status)
           && w'.api.value.status == s.m.(conditions := w'.api.value.status.conditions)
  {
  }

  lemma NextValid(w: World, e: Event)
    requires Valid(w)
    ensures Valid(Next(w, e)) && Next(w, e).me == w.me
  {
    if e.Pass? && w.api.Some? {
      PassResult(w, e.o);
      BodySecrets(w, e.o);
    }
  }

  // ----- A GlanceAPI touches no finalizer but its own -----

  /** On a secret shared by several GlanceAPIs of one Glance, a pass of one of them leaves the finalizers of
      all the others alone. */
  lemma PassLeavesOthers(w: World, o: Oracle, name: string, apiName: string, t: ApiType)
    requires Valid(w) && w.api.Some? && name in w.cluster.secrets
    requires apiName != w.api.value.spec.apiName || t != w.api.value.spec.apiType
    ensures
      var secrets := Reconcile(w, o).cluster.secrets;
      var other := ConsumerFinalizer(apiName, t);
      name in secrets && (other in secrets[name] <==> other in w.cluster.secrets[name])
  {
    var other := ConsumerFinalizer(apiName, t);
    if other == w.me {
      ConsumerFinalizerInjective(apiName, t, w.api.value.spec.apiName, w.api.value.spec.apiType);
    }
    PassResult(w, o);
    BodySecrets(w, o);
    var now := Body(w, o).c.secrets[name];
    assert other in now <==> other in now - {w.me};
    assert other in w.cluster.secrets[name] <==> other in w.cluster.secrets[name] - {w.me};
  }

  // ----- Safety of the deployed credential -----

  ghost predicate StsHeld(c: Cluster, me: string) {
    c.sts.Some? && c.sts.value.acSecret != "" ==> Held(c, me, c.sts.value.acSecret)
  }

  /** Until the GlanceAPI is deleted, the credential behind the applied StatefulSet is held by it. */
  ghost predicate DeployedIsHeld(w: World) {
    w.api.Some? && !w.api.value.deleting ==> StsHeld(w.cluster, w.me)
  }

  lemma DeployHeld(s: Step, i: Instance, o: Oracle)
    requires StsHeld(s.c, Me(i)) && (s.Go? ==> Wanted(s.c, i) && o.render.Some?)
    ensures
      var s' := Jobs(Observe(Deploy(s, i, o), i, o), i, o);
      && StsHeld(s'.c, Me(i))
      && (s'.Go? ==> s'.c.sts.Some? && s'.c.sts.value.acSecret == Secret(i))
  {
  }

  /** What is released is the recorded secret, and only when another one is deployed. */
  lemma ReleaseHeld(s: Step, i: Instance, o: Oracle)
    requires StsHeld(s.c, Me(i)) && (s.Go? ==> s.c.sts.Some? && s.c.sts.value.acSecret == Secret(i))
    ensures StsHeld(Finish(Release(s, i, o)).c, Me(i))
  {
  }

  lemma NormalHeld(c: Cluster, m: Status, i: Instance, o: Oracle)
    requires StsHeld(c, Me(i))
    ensures StsHeld(ReconcileNormal(Go(c, m), i, o).c, Me(i))
  {
    var prepared := Prepare(Go(c, m), i, o);
    PrepareSecrets(c, m, i, o);
    ConsumeSecrets(c, m, prepared, i, o);
    var consumed := Consume(prepared, i, o);
    DeployHeld(consumed, i, o);
    ReleaseHeld(Jobs(Observe(Deploy(consumed, i, o), i, o), i, o), i, o);
  }

  lemma NextKeepsDeployedHeld(w: World, e: Event)
    requires Valid(w) && DeployedIsHeld(w)
    ensures DeployedIsHeld(Next(w, e))
  {
    if e.Pass? && w.api.Some? {
      PassResult(w, e.o);
      if !w.api.value.deleting && !IsFirstPass(w.api.value) {
        NormalHeld(w.cluster, Started(w.api.value), w.api.value, e.o);
      }
    }
  }

  /** In every run, whatever the edits, failures and crashes, the deployed credential stays held. */
  lemma {:induction false} EveryRunKeepsDeployedHeld(w: World, es: seq<Event>)
    requires Valid(w) && DeployedIsHeld(w)
    ensures DeployedIsHeld(Run(w, es))
    decreases |es|
  {
    if es != [] {
      NextValid(w, es[0]);
      NextKeepsDeployedHeld(w, es[0]);
      EveryRunKeepsDeployedHeld(Next(w, es[0]), es[1..]);
    }
  }

  // ----- Exactness of the held secrets -----

  /** This GlanceAPI holds nothing but the secret it records and the one it is asked to use; it holds nothing
      before its first full pass and nothing once it is gone. */
  ghost predicate HoldsExactly(w: World) {
    match w.api
    case None => forall n :: !Held(w.cluster, w.me, n)
    case Some(i) =>
      forall n :: Held(w.cluster, w.me, n) ==> i.finalizer && (n == i.status.acSecret || n == Secret(i))
  }

  /** The edit replaces a secret that is held but not yet recorded: the rotation to it has not completed. */
  predicate Orphans(w: World, e: Event) {
    && e.Edit? && w.api.Some?
    && e.spec.apiName == w.api.value.spec.apiName && e.spec.apiType == w.api.value.spec.apiType
    && Held(w.cluster, w.me, Secret(w.api.value))
    && Secret(w.api.value) != w.api.value.status.acSecret
    && Secret(w.api.value) != e.spec.template.appCredentialSecret
  }

  lemma PassHoldsExactly(w: World, o: Oracle)
    requires Valid(w) && HoldsExactly(w)
    ensures HoldsExactly(Reconcile(w, o))
  {
    if w.api.Some? {
      var i := w.api.value;
      PassResult(w, o);
      BodySecrets(w, o);
      if Gone(w, o) {
        DeleteSecrets(w.cluster, Started(i), i, o);
      }
      if IsFirstPass(i) {
        assert Body(w, o).c == w.cluster;
      }
    }
  }

  /** Exactness survives every event but one: it is lost if and only if an edit orphans a held secret. */
  lemma ExactnessLostExactly(w: World, e: Event)
    requires Valid(w) && HoldsExactly(w)
    ensures HoldsExactly(Next(w, e)) <==> !Orphans(w, e)
  {
    match e
    case Pass(o) => PassHoldsExactly(w, o);
    case Edit(_, _) =>
      if Orphans(w, e) {
        assert Held(Next(w, e).cluster, w.me, Secret(w.api.value));
      }
    case _ =>
      assert forall n :: Held(Next(w, e).cluster, w.me, n) ==> Held(w.cluster, w.me, n);
  }

  ghost predicate NeverOrphans(w: World, es: seq<Event>)
    decreases |es|
  {
    es == [] || (!Orphans(w, es[0]) && NeverOrphans(Next(w, es[0]), es[1..]))
  }

  lemma {:induction false} EveryCalmRunHoldsExactly(w: World, es: seq<Event>)
    requires Valid(w) && HoldsExactly(w) && NeverOrphans(w, es)
    ensures HoldsExactly(Run(w, es))
    decreases |es|
  {
    if es != [] {
      NextValid(w, es[0]);
      ExactnessLostExactly(w, es[0]);
      EveryCalmRunHoldsExactly(Next(w, es[0]), es[1..]);
    }
  }

  /** A full, persisted pass either records the wanted secret, and then that is the one secret held, or
      keeps the old record because something is not ready yet. */
  lemma FullPassCompletesRotation(w: World, o: Oracle)
    requires Valid(w) && HoldsExactly(w)
    requires w.api.Some? && !w.api.value.deleting
    ensures !Lost(w, o) && Body(w, o).Go? ==>
      var w' := Reconcile(w, o);
      && w'.api.Some?
      && (Secret(w'.api.value) != "" ==> Held(w'.cluster, w.me, Secret(w'.api.value)))
      && if w'.api.value.status.acSecret == Secret(w'.api.value)
         then forall n :: Held(w'.cluster, w.me, n) <==> n == Secret(w'.api.value) != ""
         else w'.api.value.status.acSecret == w.api.value.status.acSecret && !AllSubTrue(Body(w, o).m.conditions)
  {
    var i := w.api.value;
    PassResult(w, o);
    PassHoldsExactly(w, o);
    NormalSecrets(w.cluster, Started(i), i, o);
  }

  // ----- Rapid rotation -----

  /** A held secret that the object neither records nor asks for. */
  predicate Orphan(w: World, name: string) {
    && Held(w.cluster, w.me, name)
    && (w.api.Some? ==> name != w.api.value.status.acSecret && name != Secret(w.api.value))
  }

  lemma {:induction false} OrphanStays(w: World, es: seq<Event>, name: string)
    requires Valid(w) && Orphan(w, name)
    requires forall e :: e in es && e.Edit? ==> e.spec.template.appCredentialSecret != name
    ensures Orphan(Run(w, es), name)
    decreases |es|
  {
    if es != [] {
      var w', e := Next(w, es[0]), es[0];
      NextValid(w, e);
      if e.Pass? && w.api.Some? {
        PassResult(w, e.o);
        BodySecrets(w, e.o);
      }
      assert Orphan(w', name);
      OrphanStays(w', es[1..], name);
    }
  }

  /** Rotating on before a rotation has completed strands the secret in between: whatever happens
      afterwards, the deletion of the GlanceAPI included, its finalizer stays unless an edit asks for that
      secret again. */
  lemma RapidRotationStrands(w: World, e: Event, es: seq<Event>)
    requires Valid(w) && Orphans(w, e)
    requires forall e :: e in es && e.Edit? ==> e.spec.template.appCredentialSecret != Secret(w.api.value)
    ensures Orphan(Run(Next(w, e), es), Secret(w.api.value))
  {
    NextValid(w, e);
    OrphanStays(Next(w, e), es, Secret(w.api.value));
  }
}
