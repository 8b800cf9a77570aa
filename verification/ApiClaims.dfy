/** The backend-hash protocol: claim templates are immutable, so a StatefulSet whose storage settings changed
    is deleted and created again, and the stored hash tells the next pass which settings it has. */
module ApiClaims {
  import opened Text
  import opened GlanceTypes
  import opened Inheritance
  import opened ApiPass
  import opened ApiRuns
  import opened ApiReadiness

  function DigestClaims(d: Digest): seq<Claim> {
    ClaimTemplates(d.storage, d.cacheSize)
  }

  ghost predicate HashAgrees(hash: Option<Digest>, sts: Option<StatefulSet>) {
    sts.Some? ==> hash.Some? && sts.value.claims == DigestClaims(hash.value)
  }

  /** Any StatefulSet has exactly the claim templates of the settings under the stored hash. */
  ghost predicate Agrees(w: World) {
    w.api.Some? ==> HashAgrees(w.api.value.status.backendHash, w.cluster.sts)
  }

  /** The pass got to compare the hash, and found it changed. */
  predicate Refreshes(m: Status, i: Instance, o: Oracle) {
    o.inputs == Ok && o.memcached == Ok && DigestOf(i.spec).Some? && m.backendHash != DigestOf(i.spec)
  }

  lemma RefreshClaims(c: Cluster, m: Status, i: Instance, o: Oracle)
    ensures
      var s := Refresh(Inputs(Go(c, m), o), i, o);
      && s.c.secrets == c.secrets
      && if !Refreshes(m, i, o) then
           && s.c.sts == c.sts
           && (!s.Dead? ==> s.m.backendHash == m.backendHash)
           && (s.Go? ==> s.m.backendHash == DigestOf(i.spec))
         else if !o.refresh then s.Exit? && s.c.sts == c.sts && s.m.backendHash == DigestOf(i.spec)
         else s.c.sts == None && (!s.Dead? ==> s.m.backendHash == DigestOf(i.spec))
  {
  }

  lemma ConsumeClaims(s: Step, i: Instance, o: Oracle)
    ensures
      var s' := Consume(Configure(Backends(s, i, o), i, o), i, o);
      && s'.c.sts == s.c.sts
      && (!s'.Dead? ==> !s.Dead? && s'.m.backendHash == s.m.backendHash)
      && (s'.Go? ==> s.Go?)
  {
  }

  /** A live StatefulSet never changes its claim templates. */
  lemma DeployClaims(s: Step, i: Instance, o: Oracle)
    ensures
      var s' := Deploy(s, i, o);
      && (!s'.Dead? ==> !s.Dead? && s'.m.backendHash == s.m.backendHash)
      && (s'.Go? ==> s.Go?)
      && (s.c.sts.Some? ==> s'.c.sts.Some? && s'.c.sts.value.claims == s.c.sts.value.claims)
      && (s'.c.sts == s.c.sts || (s.Go? && s'.c.sts.Some? && s'.c.sts.value.claims == Claims(i.spec.template)))
  {
  }

  lemma FinishClaims(s: Step, i: Instance, o: Oracle)
    ensures
      var s' := Finish(Release(Jobs(Observe(s, i, o), i, o), i, o));
      s'.c.sts == s.c.sts && (!s'.Dead? ==> !s.Dead? && s'.m.backendHash == s.m.backendHash)
  {
  }

  /** The StatefulSet and the hash after a pass: unchanged hash, same templates; changed hash, the old
      StatefulSet is still there only if its deletion failed, and a new one has the wanted templates. */
  lemma NormalClaims(c: Cluster, m: Status, i: Instance, o: Oracle)
    ensures
      var s := ReconcileNormal(Go(c, m), i, o);
      if !Refreshes(m, i, o) then
        && (!s.Dead? ==> s.m.backendHash == m.backendHash)
        && (c.sts.Some? ==> s.c.sts.Some? && s.c.sts.value.claims == c.sts.value.claims)
        && (c.sts == None && s.c.sts.Some? ==>
              m.backendHash.Some? && s.c.sts.value.claims == DigestClaims(m.backendHash.value))
      else
        && (!s.Dead? ==> s.m.backendHash == DigestOf(i.spec))
        && if !o.refresh then s.c.sts == c.sts && !s.Dead?
           else s.c.sts.Some? ==> s.c.sts.value.claims == Claims(i.spec.template)
  {
    var refreshed := Refresh(Inputs(Go(c, m), o), i, o);
    RefreshClaims(c, m, i, o);
    ConsumeClaims(refreshed, i, o);
    var consumed := Consume(Prepare(Go(c, m), i, o), i, o);
    DeployClaims(consumed, i, o);
    FinishClaims(Deploy(consumed, i, o), i, o);
  }

  lemma DeleteClaims(c: Cluster, m: Status, i: Instance, o: Oracle)
    ensures
      var s := ReconcileDelete(Go(c, m), i, o);
      s.c.sts == c.sts && (!s.Dead? ==> s.m.backendHash == m.backendHash)
  {
  }

  /** After the deletion of the StatefulSet every stage up to its creation succeeds, and there is no crash
      before it. */
  predicate Recreates(c: Cluster, i: Instance, o: Oracle)
    requires DigestOf(i.spec).Some?
  {
    && o.crash != AfterRefresh && ScanBackends(DigestOf(i.spec).value.backends, o.cinder) == Scanned
    && o.tls == Ok && o.nad == Ok && o.services == Ok && o.keystone == Ok && o.render.Some?
    && (Secret(i) == "" || (Secret(i) in c.secrets && o.addFinalizer)) && o.crash != AfterFinalizer
    && o.topology && o.build && o.apply == Ok
  }

  lemma ConsumeGoes(s: Step, i: Instance, o: Oracle)
    requires s.Go? && DigestOf(i.spec).Some?
    ensures
      var s' := Consume(Configure(Backends(s, i, o), i, o), i, o);
      s'.Go? <==>
        && ScanBackends(DigestOf(i.spec).value.backends, o.cinder) == Scanned
        && o.tls == Ok && o.nad == Ok && o.services == Ok && o.keystone == Ok && o.render.Some?
        && (Secret(i) == "" || (Secret(i) in s.c.secrets && o.addFinalizer)) && o.crash != AfterFinalizer
  {
  }

  lemma RecreatesExactly(c: Cluster, m: Status, i: Instance, o: Oracle)
    requires Refreshes(m, i, o) && o.refresh
    ensures ReconcileNormal(Go(c, m), i, o).c.sts.Some? <==> Recreates(c, i, o)
  {
    var refreshed := Refresh(Inputs(Go(c, m), o), i, o);
    RefreshClaims(c, m, i, o);
    ConsumeClaims(refreshed, i, o);
    if refreshed.Go? {
      ConsumeGoes(refreshed, i, o);
    }
    var consumed := Consume(Prepare(Go(c, m), i, o), i, o);
    assert Deploy(consumed, i, o).c.sts.Some?
      <==> consumed.Go? && o.render.Some? && o.topology && o.build && o.apply == Ok;
    FinishClaims(Deploy(consumed, i, o), i, o);
  }

  /** Under a changed hash the pass either fails to delete a StatefulSet with other templates and persists
      the new hash all the same, or creates the new StatefulSet and loses the hash that says so. */
  predicate Disagrees(w: World, o: Oracle) {
    && w.api.Some? && !IsFirstPass(w.api.value) && !w.api.value.deleting
    && Refreshes(w.api.value.status, w.api.value, o)
    && var hash, wanted := w.api.value.status.backendHash, Claims(w.api.value.spec.template);
       if o.refresh then
         && Recreates(w.cluster, w.api.value, o) && (o.crash == AfterApply || !o.patch)
         && (hash == None || DigestClaims(hash.value) != wanted)
       else o.patch && w.cluster.sts.Some? && w.cluster.sts.value.claims != wanted
  }

  /** A created StatefulSet is not yet observed, so the pass neither gets Ready nor releases a secret. */
  lemma CreatedStaysPending(s: Step, i: Instance, o: Oracle)
    requires s.Go? && s.c.sts.Some? && s.c.sts.value.generation != s.c.sts.value.observedGeneration
    requires DeploymentReady in s.m.conditions && s.m.conditions[DeploymentReady] != True
    ensures !Finish(Release(Jobs(Observe(s, i, o), i, o), i, o)).Dead?
  {
    assert Observe(s, i, o) == s;
    var jobs := Jobs(s, i, o);
    assert DeploymentReady in jobs.m.conditions && jobs.m.conditions[DeploymentReady] != True;
  }

  lemma RecreatedIsLostExactly(c: Cluster, i: Instance, o: Oracle)
    requires Refreshes(i.status, i, o) && o.refresh && Recreates(c, i, o)
    ensures ReconcileNormal(Go(c, Started(i)), i, o).Dead? <==> o.crash == AfterApply
  {
    var consumed := Consume(Prepare(Go(c, Started(i)), i, o), i, o);
    RecreatingConsumes(c, i, o);
    DeployUndecided(consumed, i, o);
    DeployCreates(consumed, i, o);
    if o.crash != AfterApply {
      CreatedStaysPending(Deploy(consumed, i, o), i, o);
    }
  }

  lemma DeployCreates(s: Step, i: Instance, o: Oracle)
    requires s.Go? && s.c.sts == None && o.render.Some? && o.topology && o.build && o.apply == Ok
    ensures
      var s' := Deploy(s, i, o);
      if o.crash == AfterApply then s'.Dead?
      else s'.Go? && s'.c.sts.Some? && s'.c.sts.value.generation != s'.c.sts.value.observedGeneration
  {
  }

  lemma RecreatingConsumes(c: Cluster, i: Instance, o: Oracle)
    requires Refreshes(i.status, i, o) && o.refresh && Recreates(c, i, o)
    ensures
      var consumed := Consume(Prepare(Go(c, Started(i)), i, o), i, o);
      consumed.Go? && consumed.c.sts == None && Undecided(consumed, i.generation)
  {
    var s := Go(c, Started(i));
    var refreshed := Refresh(Inputs(s, o), i, o);
    RefreshClaims(c, Started(i), i, o);
    ConsumeClaims(refreshed, i, o);
    ConsumeGoes(refreshed, i, o);
    NormalUndecided(c, i, o);
  }

  /** The agreement survives a pass if and only if neither happens. */
  lemma AgreementLostExactly(w: World, o: Oracle)
    requires Valid(w) && Agrees(w) && w.api.Some?
    ensures Agrees(Reconcile(w, o)) <==> !Disagrees(w, o)
  {
    var i := w.api.value;
    PassResult(w, o);
    if !IsFirstPass(i) {
      if i.deleting {
        DeleteClaims(w.cluster, Started(i), i, o);
      } else {
        NormalClaims(w.cluster, Started(i), i, o);
        if Refreshes(i.status, i, o) && o.refresh {
          RecreatesExactly(w.cluster, Started(i), i, o);
          if Recreates(w.cluster, i, o) {
            RecreatedIsLostExactly(w.cluster, i, o);
          }
        }
      }
    }
  }

  /** So it survives every pass whose deletion succeeds and whose status patch is written. */
  lemma SuccessfulPassAgrees(w: World, o: Oracle)
    requires o.refresh && o.patch && o.crash == NoCrash
    ensures !Disagrees(w, o)
    ensures Valid(w) && Agrees(w) ==> Agrees(Reconcile(w, o))
  {
    if Valid(w) && Agrees(w) && w.api.Some? {
      AgreementLostExactly(w, o);
    }
  }

  ghost predicate NeverDisagrees(w: World, es: seq<Event>)
    decreases |es|
  {
    es == [] || ((es[0].Pass? ==> !Disagrees(w, es[0].o)) && NeverDisagrees(Next(w, es[0]), es[1..]))
  }

  /** Whatever sequence of storage, cache and backend edits, early exits and StatefulSet deletions. */
  lemma {:induction false} EveryRunAgrees(w: World, es: seq<Event>)
    requires Valid(w) && Agrees(w) && NeverDisagrees(w, es)
    ensures Agrees(Run(w, es))
    decreases |es|
  {
    if es != [] {
      NextValid(w, es[0]);
      if es[0].Pass? && w.api.Some? {
        AgreementLostExactly(w, es[0].o);
      }
      EveryRunAgrees(Next(w, es[0]), es[1..]);
    }
  }

  /** Under the agreement the API server never refuses the StatefulSet of a pass. */
  lemma NeverRefused(w: World, o: Oracle, config: string)
    requires Agrees(w) && w.api.Some? && !IsFirstPass(w.api.value) && !w.api.value.deleting
    ensures
      var i := w.api.value;
      var s := Consume(Prepare(Go(w.cluster, Started(i)), i, o), i, o);
      s.Go? ==> Apply(s.c.sts, Desired(i, config)).Some?
  {
    var i := w.api.value;
    var refreshed := Refresh(Inputs(Go(w.cluster, Started(i)), o), i, o);
    RefreshClaims(w.cluster, Started(i), i, o);
    ConsumeClaims(refreshed, i, o);
  }

  // ----- A failed deletion -----

  /** The stored hash is that of the spec, but the StatefulSet has other templates. */
  ghost predicate Wedged(w: World) {
    && w.api.Some? && !w.api.value.deleting && w.cluster.sts.Some?
    && w.api.value.status.backendHash == DigestOf(w.api.value.spec) != None
    && w.cluster.sts.value.claims != Claims(w.api.value.spec.template)
  }

  lemma FailedDeletionWedges(w: World, o: Oracle)
    requires Valid(w) && Disagrees(w, o) && !o.refresh
    ensures Wedged(Reconcile(w, o))
  {
    PassResult(w, o);
    NormalClaims(w.cluster, Started(w.api.value), w.api.value, o);
  }

  /** Then no sequence of passes, however successful, ever replaces the StatefulSet or becomes Ready, until
      the storage settings are edited, the object deleted or the StatefulSet removed by hand. */
  lemma {:induction false} WedgedStays(w: World, es: seq<Event>)
    requires Valid(w) && Wedged(w)
    requires forall e :: e in es ==> !e.RequestDelete? && !e.StsDeleted?
    requires forall e :: e in es && e.Edit? ==> DigestOf(e.spec) == DigestOf(w.api.value.spec)
    ensures
      var w' := Run(w, es);
      && Wedged(w')
      && w'.cluster.sts.value.claims == w.cluster.sts.value.claims
      && (w'.api.value.status == w.api.value.status || !IsReady(w'.api.value.status))
    decreases |es|
  {
    if es != [] {
      NextValid(w, es[0]);
      WedgedNext(w, es[0]);
      WedgedStays(Next(w, es[0]), es[1..]);
    }
  }

  lemma WedgedNext(w: World, e: Event)
    requires Valid(w) && Wedged(w) && !e.RequestDelete? && !e.StsDeleted?
    requires e.Edit? ==> DigestOf(e.spec) == DigestOf(w.api.value.spec)
    ensures
      var w' := Next(w, e);
      && Wedged(w')
      && w'.cluster.sts.value.claims == w.cluster.sts.value.claims
      && DigestOf(w'.api.value.spec) == DigestOf(w.api.value.spec)
      && (w'.api.value.status == w.api.value.status || !IsReady(w'.api.value.status))
  {
    if e.Pass? {
      WedgedPass(w, e.o);
      PassResult(w, e.o);
    }
  }

  predicate IsReady(m: Status) {
    Ready in m.conditions && m.conditions[Ready] == True
  }

  lemma WedgedPass(w: World, o: Oracle)
    requires Valid(w) && Wedged(w)
    ensures
      var w' := Reconcile(w, o);
      && Wedged(w')
      && w'.cluster.sts.value.claims == w.cluster.sts.value.claims
      && (w'.api.value.status == w.api.value.status || !IsReady(w'.api.value.status))
  {
    var i := w.api.value;
    PassResult(w, o);
    if !IsFirstPass(i) {
      NormalClaims(w.cluster, Started(i), i, o);
    }
    if !Lost(w, o) {
      ReadyIsSound(w, o);
    }
  }
}
