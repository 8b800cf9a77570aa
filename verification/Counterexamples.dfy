/** Concrete runs of a GlanceAPI that show why the conditions of the main results are there. */
module Counterexamples {
  import opened Text
  import opened GlanceTypes
  import opened Inheritance
  import opened ApiPass
  import A = ApiRuns
  import D = ApiReadiness
  import C = ApiClaims
  import L = ApiLiveness
  import Webhook

  // ----- Rapid rotation -----

  const TEMPLATE := Webhook.DEFAULT_API.(replicas := 1, layout := SingleLayout, storage := Storage("", "", true))

  function Using(secret: string): ApiSpec {
    ApiSpec("default", Single, "", TEMPLATE.(appCredentialSecret := secret))
  }

  /** Every call succeeds. */
  const SMOOTH := Oracle(
    Ok, Ok, true, true, Ok, Ok, Ok, Ok, True, Some(""), true, true, true, Ok, Some(true), true, true, Ok,
    true, true, true, true, Unknown, NoCrash, true)

  /** The pods of the StatefulSet have not come up yet. */
  predicate Starting(sts: Option<StatefulSet>) {
    sts.Some? ==> sts.value.observedGeneration < sts.value.generation && sts.value.claims == []
  }

  lemma SmoothPrepare(s: Step, i: Instance, secret: string)
    requires s.Go? && i.spec == Using(secret) && secret != "" && secret in s.c.secrets && Starting(s.c.sts)
    ensures
      var p := Prepare(s, i, SMOOTH);
      p.Go? && p.c.secrets == s.c.secrets && Starting(p.c.sts) && p.m.acSecret == s.m.acSecret
      && (DeploymentReady in s.m.conditions ==>
            DeploymentReady in p.m.conditions && p.m.conditions[DeploymentReady] == s.m.conditions[DeploymentReady])
  {
    EmptyConfigListsNothing();
    assert ScanBackends([], true) == Scanned;
    var inputs := Inputs(s, SMOOTH);
    var refreshed := Refresh(inputs, i, SMOOTH);
    var scanned := Backends(refreshed, i, SMOOTH);
    assert scanned.Go? && scanned.c.secrets == s.c.secrets;
  }

  lemma SmoothDeploy(s: Step, i: Instance, secret: string)
    requires s.Go? && i.spec == Using(secret) && secret in s.c.secrets && Starting(s.c.sts)
    requires DeploymentReady in s.m.conditions && s.m.conditions[DeploymentReady] == Unknown
    requires i.status.acSecret == s.m.acSecret
    ensures
      var r := Finish(Release(Jobs(Observe(Deploy(s, i, SMOOTH), i, SMOOTH), i, SMOOTH), i, SMOOTH));
      && r.Go? && r.c.secrets == s.c.secrets && Starting(r.c.sts) && r.c.sts.Some?
      && r.m.acSecret == (if s.m.acSecret == "" || s.m.acSecret == secret then secret else s.m.acSecret)
  {
    var deployed := Deploy(s, i, SMOOTH);
    assert Claims(i.spec.template) == [];
    assert deployed.Go? && Starting(deployed.c.sts) && deployed.c.sts.Some?;
    assert Observe(deployed, i, SMOOTH) == deployed;
    var conditions := Jobs(deployed, i, SMOOTH).m.conditions;
    assert DeploymentReady in conditions && conditions[DeploymentReady] == Unknown;
  }

  lemma SmoothNormal(c: Cluster, i: Instance, secret: string)
    requires i.spec == Using(secret) && secret != "" && secret in c.secrets && Starting(c.sts)
    ensures
      var r := ReconcileNormal(Go(c, Started(i)), i, SMOOTH);
      && r.Go? && r.c.secrets == AddTo(c.secrets, secret, Me(i)) && Starting(r.c.sts) && r.c.sts.Some?
      && r.m.acSecret == (if i.status.acSecret == "" || i.status.acSecret == secret then secret else i.status.acSecret)
  {
    var s := Go(c, Started(i));
    assert DeploymentReady in GATES + {Ready};
    assert s.m.conditions[DeploymentReady] == Unknown;
    SmoothPrepare(s, i, secret);
    SmoothDeploy(Consume(Prepare(s, i, SMOOTH), i, SMOOTH), i, secret);
  }

  /** A GlanceAPI whose controller has put its finalizer on it and that nobody deletes. */
  predicate Live(w: World, secret: string) {
    && w.api.Some? && !w.api.value.deleting && w.api.value.finalizer && w.api.value.status.conditions != map[]
    && w.api.value.spec == Using(secret) && Starting(w.cluster.sts)
  }

  /** A pass while the pods start: the wanted secret is held, the record moves only if there was none. */
  lemma SmoothPass(w: World, secret: string)
    requires A.Valid(w) && Live(w, secret) && secret != "" && secret in w.cluster.secrets
    ensures
      var w' := Reconcile(w, SMOOTH);
      var recorded := w.api.value.status.acSecret;
      && w'.cluster.secrets == AddTo(w.cluster.secrets, secret, w.me) && Live(w', secret)
      && w'.cluster.sts.Some?
      && w'.api.value.status.acSecret == (if recorded == "" || recorded == secret then secret else recorded)
      && A.Valid(w') && w'.me == w.me
  {
    SmoothNormal(w.cluster, w.api.value, secret);
    A.PassResult(w, SMOOTH);
    A.NextValid(w, A.Pass(SMOOTH));
    SmoothNonEmpty(w);
  }

  lemma PersistKeepsReady(w: World, s: Step, finalizer: bool, o: Oracle)
    requires w.api.Some? && !s.Dead? && o.patch && Ready in s.m.conditions
    ensures Persist(w, s, finalizer, o).api.Some? ==> Ready in Persist(w, s, finalizer, o).api.value.status.conditions
  {
  }

  lemma SmoothNonEmpty(w: World)
    requires w.api.Some?
    ensures Body(w, SMOOTH).Go? && Reconcile(w, SMOOTH).api.Some? ==>
              Reconcile(w, SMOOTH).api.value.status.conditions != map[]
  {
    var i := w.api.value;
    if !Body(w, SMOOTH).Go? {
      return;
    }
    D.BodyDecides(w, SMOOTH);
    PersistKeepsReady(w, Body(w, SMOOTH), i.finalizer, SMOOTH);
    PersistKeepsReady(w, Body(w, SMOOTH), i.finalizer || !i.deleting, SMOOTH);
    PersistKeepsReady(w, Body(w, SMOOTH), false, SMOOTH);
  }

  const FRESH := World(
    ConsumerFinalizer("default", Single), Cluster(map["a" := {}, "b" := {}, "c" := {}], None),
    Some(Instance(Using("a"), false, 1, false, false, Status(map[], None, "", 0, 0))))

  /** The GlanceAPI uses one secret, records another and holds some. */
  ghost predicate At(w: World, secret: string, recorded: string, held: set<string>) {
    && A.Valid(w) && w.me == FRESH.me && Live(w, secret)
    && w.cluster.secrets.Keys == {"a", "b", "c"}
    && w.api.value.status.acSecret == recorded
    && forall n :: A.Held(w.cluster, w.me, n) <==> n in held
  }

  lemma RunTwo(w: World, e: A.Event, f: A.Event)
    ensures A.Run(w, [e, f]) == A.Next(A.Next(w, e), f)
  {
    assert [e, f][1..] == [f] && [f][1..] == [];
    assert A.Run(w, [e, f]) == A.Run(A.Next(w, e), [f]);
    assert A.Run(A.Next(w, e), [f]) == A.Run(A.Next(A.Next(w, e), f), []);
  }

  /** One pass of the run. */
  lemma HoldNext(w: World, e: A.Event, secret: string, recorded: string, held: set<string>)
    requires At(w, secret, recorded, held) && secret in {"a", "b", "c"} && e == A.Pass(SMOOTH)
    ensures At(A.Next(w, e), secret, if recorded == "" then secret else recorded, held + {secret})
  {
    SmoothPass(w, secret);
  }

  lemma EditNext(w: World, e: A.Event, from: string, to: string, recorded: string, held: set<string>)
    requires At(w, from, recorded, held) && e == A.Edit(Using(to), false)
    ensures At(A.Next(w, e), to, recorded, held)
  {
  }

  /** One edit of the run and the pass after it. */
  lemma Rotate(w: World, e: A.Event, pass: A.Event, from: string, to: string, recorded: string, held: set<string>)
    requires At(w, from, recorded, held) && recorded != "" && to in {"a", "b", "c"}
    requires e == A.Edit(Using(to), false) && pass == A.Pass(SMOOTH)
    ensures At(A.Run(w, [e, pass]), to, recorded, held + {to})
  {
    EditNext(w, e, from, to, recorded, held);
    HoldNext(A.Next(w, e), pass, to, recorded, held);
    RunTwo(w, e, pass);
  }

  const ROTATION: seq<A.Event> := [A.Edit(Using("b"), false), A.Pass(SMOOTH), A.Edit(Using("c"), false), A.Pass(SMOOTH)]

  const CREATED: seq<A.Event> := [A.Pass(SMOOTH), A.Pass(SMOOTH)]

  lemma {:induction false} RunAppend(w: World, xs: seq<A.Event>, ys: seq<A.Event>)
    ensures A.Run(w, xs + ys) == A.Run(A.Run(w, xs), ys)
    decreases |xs|
  {
    if xs == [] {
      assert xs + ys == ys;
    } else {
      assert (xs + ys)[1..] == xs[1..] + ys;
      RunAppend(A.Next(w, xs[0]), xs[1..], ys);
    }
  }

  lemma FirstSecret(pass: A.Event)
    requires pass == A.Pass(SMOOTH)
    ensures At(A.Run(FRESH, [pass, pass]), "a", "a", {"a"})
  {
    FirstPass(pass);
    HoldNext(A.Next(FRESH, pass), pass, "a", "", {});
    RunTwo(FRESH, pass, pass);
  }

  lemma RotateTwice(w: World)
    requires At(w, "a", "a", {"a"})
    ensures At(A.Run(w, ROTATION), "c", "a", {"a", "b", "c"})
  {
    var one, two := [A.Edit(Using("b"), false), A.Pass(SMOOTH)], [A.Edit(Using("c"), false), A.Pass(SMOOTH)];
    Rotate(w, one[0], one[1], "a", "b", "a", {"a"});
    Rotate(A.Run(w, one), two[0], two[1], "b", "c", "a", {"a"} + {"b"});
    assert ROTATION == one + two;
    RunAppend(w, one, two);
  }

  lemma Delete(w: World, e: A.Event, pass: A.Event)
    requires At(w, "c", "a", {"a", "b", "c"}) && e == A.RequestDelete && pass == A.Pass(SMOOTH)
    ensures var w' := A.Run(w, [e, pass]); w'.api == None && A.Held(w'.cluster, FRESH.me, "b")
  {
    A.NextValid(w, e);
    DeletePass(A.Next(w, e), pass);
    RunTwo(w, e, pass);
    assert "b"[0] != "a"[0] && "b"[0] != "c"[0];
  }

  lemma Rotated()
    ensures At(A.Run(FRESH, CREATED + ROTATION), "c", "a", {"a", "b", "c"})
  {
    FirstSecret(A.Pass(SMOOTH));
    RotateTwice(A.Run(FRESH, CREATED));
    RunAppend(FRESH, CREATED, ROTATION);
  }

  lemma FreshHoldsNothing()
    ensures A.Valid(FRESH) && A.HoldsExactly(FRESH)
  {
  }

  /** A GlanceAPI rotated from a to b and on to c before its pods had come up, and then deleted without any
      error, leaves its finalizer on b: the exactness of the held secrets needs its condition. */
  lemma RapidRotation()
    ensures A.Valid(FRESH) && A.HoldsExactly(FRESH)
    ensures
      var w := A.Run(FRESH, CREATED + ROTATION + [A.RequestDelete, A.Pass(SMOOTH)]);
      w.api == None && A.Held(w.cluster, FRESH.me, "b")
  {
    FreshHoldsNothing();
    Rotated();
    Delete(A.Run(FRESH, CREATED + ROTATION), A.RequestDelete, A.Pass(SMOOTH));
    RunAppend(FRESH, CREATED + ROTATION, [A.RequestDelete, A.Pass(SMOOTH)]);
  }

  lemma FirstPass(pass: A.Event)
    requires pass == A.Pass(SMOOTH)
    ensures At(A.Next(FRESH, pass), "a", "", {})
  {
    A.PassResult(FRESH, SMOOTH);
    A.NextValid(FRESH, pass);
    assert Ready in Reconcile(FRESH, SMOOTH).api.value.status.conditions;
  }

  lemma DeletePass(w: World, pass: A.Event)
    requires A.Valid(w) && w.api.Some? && w.api.value.deleting && !IsFirstPass(w.api.value) && pass == A.Pass(SMOOTH)
    ensures
      var w' := A.Next(w, pass);
      && w'.api == None
      && forall n :: A.Held(w.cluster, w.me, n) && n != w.api.value.status.acSecret && n != A.Secret(w.api.value) ==>
           A.Held(w'.cluster, w.me, n)
  {
    A.PassResult(w, SMOOTH);
    A.BodySecrets(w, SMOOTH);
  }

  // ----- A failed deletion and a lost hash -----

  /** After two passes the StatefulSet is there, with the claim templates of the stored hash. */
  lemma Created(pass: A.Event)
    requires pass == A.Pass(SMOOTH)
    ensures
      var w := A.Run(FRESH, [pass, pass]);
      At(w, "a", "a", {"a"}) && w.cluster.sts.Some? && C.Agrees(w)
  {
    FirstPass(pass);
    FirstSecret(pass);
    RunTwo(FRESH, pass, pass);
    var first := A.Next(FRESH, pass);
    SmoothPass(first, "a");
    SmoothAgrees(FRESH, pass);
    SmoothAgrees(first, pass);
  }

  lemma SmoothAgrees(w: World, pass: A.Event)
    requires pass == A.Pass(SMOOTH) && A.Valid(w) && w.api.Some? && C.Agrees(w)
    ensures C.Agrees(A.Next(w, pass))
  {
    C.SuccessfulPassAgrees(w, SMOOTH);
  }

  /** The same GlanceAPI with local storage. */
  const STORED := Using("a").(template := TEMPLATE.(appCredentialSecret := "a", storage := Storage("", "1G", false)))

  lemma StoredDigest()
    ensures DigestOf(STORED) == Some(Digest([], Storage("", "1G", false), ""))
    ensures |Claims(STORED.template)| == 1
  {
    EmptyConfigListsNothing();
  }

  /** The edit to local storage makes the next pass refresh. */
  lemma Edited(w: World, e: A.Event, o: Oracle)
    requires At(w, "a", "a", {"a"}) && w.cluster.sts.Some? && C.Agrees(w) && e == A.Edit(STORED, false)
    requires o.inputs == Ok && o.memcached == Ok
    ensures
      var v := A.Next(w, e);
      && A.Valid(v) && C.Agrees(v) && v.api.Some? && !IsFirstPass(v.api.value) && !v.api.value.deleting
      && v.api.value.spec == STORED && v.cluster == w.cluster && C.Refreshes(v.api.value.status, v.api.value, o)
      && v.cluster.sts.Some? && v.cluster.sts.value.claims == []
      && v.api.value.status.backendHash.Some? && C.DigestClaims(v.api.value.status.backendHash.value) == []
  {
    StoredDigest();
    A.NextValid(w, e);
  }

  const UNDELETABLE := SMOOTH.(refresh := false)

  /** A GlanceAPI is deployed, edited to use local storage, and the deletion of its StatefulSet fails once: it
      is wedged. */
  lemma FailedDeletion(e: A.Event, pass: A.Event)
    requires e == A.Edit(STORED, false) && pass == A.Pass(UNDELETABLE)
    ensures var w := A.Run(FRESH, CREATED); C.Agrees(w) && C.Wedged(A.Run(w, [e, pass]))
  {
    var w := A.Run(FRESH, CREATED);
    Created(A.Pass(SMOOTH));
    Edited(w, e, UNDELETABLE);
    StoredDigest();
    var v := A.Next(w, e);
    C.NormalClaims(v.cluster, Started(v.api.value), v.api.value, UNDELETABLE);
    C.FailedDeletionWedges(v, UNDELETABLE);
    RunTwo(w, e, pass);
  }

  const UNPATCHED := SMOOTH.(patch := false)

  /** Or the StatefulSet is created again and the status patch is lost: the stored hash is the old one. */
  lemma LostHash(e: A.Event, pass: A.Event)
    requires e == A.Edit(STORED, false) && pass == A.Pass(UNPATCHED)
    ensures var w := A.Run(FRESH, CREATED); C.Agrees(w) && !C.Agrees(A.Run(w, [e, pass]))
  {
    var w := A.Run(FRESH, CREATED);
    Created(A.Pass(SMOOTH));
    Edited(w, e, UNPATCHED);
    StoredDigest();
    var v := A.Next(w, e);
    assert ScanBackends([], true) == Scanned;
    assert C.Recreates(v.cluster, v.api.value, UNPATCHED);
    C.AgreementLostExactly(v, UNPATCHED);
    RunTwo(w, e, pass);
  }

  // ----- A former topology -----

  const PLACED := Using("a").(template := TEMPLATE.(appCredentialSecret := "a", topologyRef := Some("zones")))

  const UNPLACED := SMOOTH.(topology := false)

  lemma PlacedServiceable(w: World)
    requires w.api.Some? && w.api.value.spec == PLACED && "a" in w.cluster.secrets
    ensures L.Serviceable(w.api.value, w.cluster.secrets) && L.Prepares(UNPLACED)
  {
    EmptyConfigListsNothing();
    assert ScanBackends([], true) == Scanned;
  }

  /** A deployed GlanceAPI refers to a topology that cannot be had, and the reference is taken back: until there
      is another one, no run makes it Ready. */
  lemma FormerTopology(placed: A.Event, pass: A.Event, back: A.Event, es: seq<A.Event>)
    requires placed == A.Edit(PLACED, false) && pass == A.Pass(UNPLACED) && back == A.Edit(Using("a"), false)
    requires forall e :: e in es && e.Edit? ==> e.spec.template.topologyRef == None
    ensures
      var w := A.Next(A.Next(A.Next(A.Run(FRESH, CREATED), placed), pass), back);
      var v := A.Run(w, es);
      v.api.Some? ==> !C.IsReady(v.api.value.status)
  {
    Created(A.Pass(SMOOTH));
    var w := A.Run(FRESH, CREATED);
    var edited := A.Next(w, placed);
    A.NextValid(w, placed);
    PlacedServiceable(edited);
    L.FailedTopologyRecorded(edited, UNPLACED);
    A.NextValid(edited, pass);
    var failed := A.Next(edited, pass);
    A.NextValid(failed, back);
    L.StuckStays(A.Next(failed, back), es);
  }
}
