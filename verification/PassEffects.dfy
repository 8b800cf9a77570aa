/** What a pass of the parent does, read off the spec and the outcomes of its calls
    (internal/controller/glance_controller.go). */
module PassEffects {
  import opened Text
  import opened GlanceTypes
  import opened GlancePass

  // ----- Deployment -----

  /** How the deployment of one API ends. */
  function ApiFlow(g: GlanceSpec, k: string, o: GlanceOracle): Flow {
    if k !in g.apis then Running
    else
      match Deployable(g, g.apis[k], o)
      case None => Panicked
      case Some(false) => Returned
      case Some(true) =>
        if ChildId(k, FirstType(g.apis[k].layout)) in o.refused then Returned
        else if AlsoInternal(g.apis[k].layout) && ChildId(k, Internal) in o.refused then Returned
        else Running
  }

  /** The first API whose deployment does not go through ends the loop. */
  function DeployFlow(g: GlanceSpec, names: seq<string>, o: GlanceOracle): Flow {
    if names == [] then Running
    else if ApiFlow(g, names[0], o) != Running then ApiFlow(g, names[0], o)
    else DeployFlow(g, names[1..], o)
  }

  lemma {:induction false} DeployFlowSnoc(g: GlanceSpec, names: seq<string>, k: string, o: GlanceOracle)
    ensures
      var before := DeployFlow(g, names, o);
      DeployFlow(g, names + [k], o) == if before != Running then before else ApiFlow(g, k, o)
  {
    if names == [] {
      assert ([] + [k])[1..] == [];
    } else {
      assert (names + [k])[1..] == names[1..] + [k];
      DeployFlowSnoc(g, names[1..], k, o);
    }
  }

  lemma ApiFlowExactly(p: Progress, g: GlanceSpec, k: string, o: GlanceOracle)
    ensures DeployApi(p, g, k, o).flow == if p.flow != Running then p.flow else ApiFlow(g, k, o)
  {
  }

  lemma {:induction false} DeployFlowExactly(p: Progress, g: GlanceSpec, names: seq<string>, o: GlanceOracle)
    ensures DeployApis(p, g, names, o).flow == if p.flow != Running then p.flow else DeployFlow(g, names, o)
  {
    if names != [] {
      var n := |names| - 1;
      DeployFlowExactly(p, g, names[..n], o);
      ApiFlowExactly(DeployApis(p, g, names[..n], o), g, names[n], o);
      DeployFlowSnoc(g, names[..n], names[n], o);
      assert names == names[..n] + [names[n]];
    }
  }

  // ----- Cleanup -----

  predicate Absent(g: GlanceSpec, id: ChildId) {
    id.apiName !in g.apis
  }

  /** The deletion of the object of an absent API that fails ends the loop. */
  predicate StopsAt(g: GlanceSpec, listing: seq<ChildId>, o: GlanceOracle, n: nat)
    requires n < |listing|
  {
    Absent(g, listing[n]) && listing[n] in o.undeletable
  }

  /** The object is listed, its API is absent, and neither its own deletion nor an earlier one fails. */
  ghost predicate Reaches(g: GlanceSpec, listing: seq<ChildId>, o: GlanceOracle, id: ChildId) {
    exists n :: ReachesAt(g, listing, o, id, n)
  }

  ghost predicate ReachesAt(g: GlanceSpec, listing: seq<ChildId>, o: GlanceOracle, id: ChildId, n: nat) {
    n < |listing| && listing[n] == id && Absent(g, id) && forall m :: 0 <= m <= n ==> !StopsAt(g, listing, o, m)
  }

  ghost predicate Stops(g: GlanceSpec, listing: seq<ChildId>, o: GlanceOracle) {
    exists n :: 0 <= n < |listing| && StopsAt(g, listing, o, n)
  }

  lemma ReachesSnoc(g: GlanceSpec, listing: seq<ChildId>, o: GlanceOracle, id: ChildId)
    requires listing != []
    ensures
      var n := |listing| - 1;
      Reaches(g, listing, o, id) <==>
        || Reaches(g, listing[..n], o, id)
        || (!Stops(g, listing[..n], o) && id == listing[n] && Absent(g, id) && id !in o.undeletable)
  {
    var n := |listing| - 1;
    forall m: nat | m < n ensures ReachesAt(g, listing, o, id, m) <==> ReachesAt(g, listing[..n], o, id, m) {
      forall j: nat | j <= m ensures StopsAt(g, listing, o, j) <==> StopsAt(g, listing[..n], o, j) {
      }
    }
    forall j: nat | j < n ensures StopsAt(g, listing, o, j) <==> StopsAt(g, listing[..n], o, j) {
    }
    if m: nat :| ReachesAt(g, listing, o, id, m) {
      if m < n {
        assert ReachesAt(g, listing[..n], o, id, m);
      } else {
        forall j | 0 <= j < n ensures !StopsAt(g, listing[..n], o, j) {
          assert !StopsAt(g, listing, o, j);
        }
        assert !StopsAt(g, listing, o, n);
      }
    }
    if m: nat :| ReachesAt(g, listing[..n], o, id, m) {
      assert ReachesAt(g, listing, o, id, m);
    }
    if !Stops(g, listing[..n], o) && id == listing[n] && Absent(g, id) && id !in o.undeletable {
      forall j | 0 <= j <= n ensures !StopsAt(g, listing, o, j) {
        assert j < n ==> !StopsAt(g, listing[..n], o, j);
      }
      assert ReachesAt(g, listing, o, id, n);
    }
  }

  lemma StopsSnoc(g: GlanceSpec, listing: seq<ChildId>, o: GlanceOracle)
    requires listing != []
    ensures
      var n := |listing| - 1;
      Stops(g, listing, o) <==> Stops(g, listing[..n], o) || StopsAt(g, listing, o, n)
  {
    var n := |listing| - 1;
    forall j: nat | j < n ensures StopsAt(g, listing, o, j) <==> StopsAt(g, listing[..n], o, j) {
    }
    if j :| 0 <= j < n && StopsAt(g, listing[..n], o, j) {
      assert StopsAt(g, listing, o, j);
    }
  }

  /** The cleanup walks exactly the owned objects listed before the first one without a label. */
  lemma {:induction false} WalkedExactly(listing: seq<Listed>, id: ChildId)
    ensures id in Walked(listing) <==> exists n :: ListedAt(listing, id, n)
  {
    if listing != [] {
      var rest := listing[1..];
      WalkedExactly(rest, id);
      if n :| ListedAt(rest, id, n) && listing[0] != Unlabelled {
        forall m | 0 <= m < n + 1 ensures listing[m] != Unlabelled {
          assert m > 0 ==> listing[m] == rest[m - 1];
        }
        assert listing[n + 1] == rest[n];
        assert ListedAt(listing, id, n + 1);
      }
      if n :| ListedAt(listing, id, n) {
        assert listing[0] == Own(id) || n > 0;
        if n > 0 {
          forall m | 0 <= m < n - 1 ensures rest[m] != Unlabelled {
            assert rest[m] == listing[m + 1];
          }
          assert rest[n - 1] == listing[n];
          assert ListedAt(rest, id, n - 1);
          assert listing[0] != Unlabelled;
        }
      }
      if listing[0] == Own(id) {
        assert ListedAt(listing, id, 0);
      }
    }
  }

  ghost predicate ListedAt(listing: seq<Listed>, id: ChildId, n: int) {
    0 <= n < |listing| && listing[n] == Own(id) && forall m :: 0 <= m < n ==> listing[m] != Unlabelled
  }

  /** The cleanup deletes exactly the objects it reaches. */
  lemma {:induction false} CleanupExactly(p: Progress, g: GlanceSpec, listing: seq<ChildId>, o: GlanceOracle)
    requires p.flow == Running
    ensures
      var p' := Cleanup(p, g, listing, o);
      && p'.flow == (if Stops(g, listing, o) then Returned else Running)
      && forall id :: id in p'.children <==> id in p.children && !Reaches(g, listing, o, id)
  {
    if listing != [] {
      var n := |listing| - 1;
      CleanupExactly(p, g, listing[..n], o);
      StopsSnoc(g, listing, o);
      forall id ensures Reaches(g, listing, o, id) <==>
                          || Reaches(g, listing[..n], o, id)
                          || (!Stops(g, listing[..n], o) && id == listing[n] && Absent(g, id) && id !in o.undeletable)
      {
        ReachesSnoc(g, listing, o, id);
      }
    }
  }

  // ----- The pass -----

  predicate Panics(g: GlanceSpec, o: GlanceOracle) {
    o.prelude && DeployFlow(g, o.names, o) == Panicked
  }

  /** The deployment goes through and the cleanup reaches the object, whether it is still there or not. */
  ghost predicate Deletes(g: GlanceSpec, o: GlanceOracle, id: ChildId) {
    o.prelude && DeployFlow(g, o.names, o) == Running && o.listed && Reaches(g, Walked(o.listing), o, id)
  }

  /** Every API is deployed and no deletion fails. */
  ghost predicate GoesThrough(g: GlanceSpec, o: GlanceOracle) {
    o.prelude && DeployFlow(g, o.names, o) == Running && (o.listed ==> !Stops(g, Walked(o.listing), o))
  }

  /** What is left of the objects that were there. */
  ghost function Kept(w: GlanceWorld, o: GlanceOracle): Children {
    map id | id in w.children && !Deletes(w.spec, o, id) :: w.children[id]
  }

  /** A pass panics exactly when a parser does, and takes away exactly the objects the cleanup reaches. */
  lemma WorkExactly(w: GlanceWorld, o: GlanceOracle)
    ensures
      var p := Work(w, o);
      && (p.flow == Panicked <==> Panics(w.spec, o))
      && (p.flow == Running <==> GoesThrough(w.spec, o))
      && (forall id :: id in w.children ==> (id in p.children <==> !Deletes(w.spec, o, id)))
      && (forall id :: id in p.children && Absent(w.spec, id) ==> id in Kept(w, o))
      && Kept(w, o).Keys <= p.children.Keys
  {
    var p := Progress(w.children, w.status, if o.prelude then Running else Returned);
    var deployed := DeployApis(p, w.spec, o.names, o);
    DeployFlowExactly(p, w.spec, o.names, o);
    DeployApisObjects(p, w.spec, o.names, o);
    if o.listed {
      if deployed.flow == Running {
        CleanupExactly(deployed, w.spec, Walked(o.listing), o);
      } else {
        StoppedCleanup(deployed, w.spec, Walked(o.listing), o);
      }
    }
  }

  lemma {:induction false} StoppedCleanup(p: Progress, g: GlanceSpec, listing: seq<ChildId>, o: GlanceOracle)
    requires p.flow != Running
    ensures Cleanup(p, g, listing, o) == p
  {
    if listing != [] {
      StoppedCleanup(p, g, listing[..|listing| - 1], o);
    }
  }
}
