/** The Glance reconciler itself: a controller that merges API templates, writes GlanceAPI objects and edits
    its status maps in place (internal/controller/glance_controller.go), proved to do what GlancePass
    specifies. */
module ParentReconciler {
  import opened Text
  import opened GlanceTypes
  import opened Inheritance
  import opened GlancePass
  import opened PassEffects
  import Webhook

  class GlanceReconciler {
    var spec: GlanceSpec
    var children: Children
    /** The status in the cluster, and the copy this pass works on. */
    var stored: ParentStatus
    var ready: bool
    var status: ParentStatus

    constructor (w: GlanceWorld)
      ensures W() == w
    {
      spec, children, stored, ready, status := w.spec, w.children, w.status, w.ready, w.status;
    }

    function W(): GlanceWorld
      reads this
    {
      GlanceWorld(spec, children, stored, ready)
    }

    function Now(flow: Flow): Progress
      reads this
    {
      Progress(children, status, flow)
    }

    /** Fills the fields an API template leaves empty from the top level, one by one. */
    method MergeTemplate(apiTemplate: ApiTemplate) returns (api: ApiTemplate)
      ensures api == Inherit(spec, apiTemplate)
    {
      api := apiTemplate;
      if api.nodeSelector == None {
        api := api.(nodeSelector := spec.nodeSelector);
      }
      if api.imageCache.size == "" {
        api := api.(imageCache := api.imageCache.(size := spec.imageCache.size));
      }
      if api.storage.storageRequest == "" {
        api := api.(storage := api.storage.(storageRequest := spec.storage.storageRequest));
      }
      if api.storage.storageClass == "" {
        api := api.(storage := api.storage.(storageClass := spec.storage.storageClass));
      }
      if !api.storage.external {
        api := api.(storage := api.storage.(external := spec.storage.external));
      }
      if api.topologyRef == None {
        api := api.(topologyRef := spec.topologyRef);
      }
      if |api.customServiceConfig| == 0 {
        api := api.(customServiceConfig := spec.customServiceConfig);
      }
      if |api.customServiceConfigSecrets| == 0 {
        api := api.(customServiceConfigSecrets := spec.customServiceConfigSecrets);
      }
    }

    method ApiDeploymentCreateOrUpdate(id: ChildId, refused: bool) returns (ok: bool)
      requires id.apiName in spec.apis
      modifies this`children
      ensures ok == !refused
      ensures children == if refused then old(children) else CreateOrUpdate(old(children), spec, id)
    {
      var api := MergeTemplate(spec.apis[id.apiName]);
      var apiSpec := ApiSpec(id.apiName, id.apiType, spec.containerImage, api);
      var keystone := spec.keystoneEndpoint == id.apiName;
      if refused {
        return false;
      }
      if id !in children {
        children := children[id := Child(apiSpec, keystone, 1, 0, 0, None)];
      } else {
        var c := children[id];
        if c.spec != apiSpec {
          c := c.(generation := c.generation + 1);
        }
        children := children[id := c.(spec := apiSpec, keystone := keystone)];
      }
      return true;
    }

    method DeployFirst(k: string, o: GlanceOracle) returns (flow: Flow)
      requires k in spec.apis
      modifies this`children, this`status
      ensures Now(flow) == WriteFirst(old(Now(Running)), spec, k, o)
    {
      var layout, external := spec.apis[k].layout, External;
      if layout == SingleLayout {
        external := Single;
      }
      if layout == EdgeLayout {
        external := Edge;
      }
      var id := ChildId(k, external);
      var ok := ApiDeploymentCreateOrUpdate(id, id in o.refused);
      if !ok {
        return Returned;
      }
      status := status.(readyCounts := status.readyCounts[k := children[id].readyCount]);
      if children[id].endpoints.Some? {
        var urls := children[id].endpoints.value;
        if layout != EdgeLayout {
          status := status.(endpoints := status.endpoints[EndpointKey(k, Public) := Url(urls, Public)]);
        }
        if layout == SingleLayout || layout == EdgeLayout {
          status := status.(endpoints :=
            status.endpoints[EndpointKey(k, InternalEndpoint) := Url(urls, InternalEndpoint)]);
        }
      }
      return Running;
    }

    method DeployInternal(k: string, o: GlanceOracle) returns (flow: Flow)
      requires k in spec.apis && AlsoInternal(spec.apis[k].layout)
      modifies this`children, this`status
      ensures Now(flow) == WriteInternal(old(Now(Running)), spec, k, o)
    {
      var id := ChildId(k, Internal);
      var ok := ApiDeploymentCreateOrUpdate(id, id in o.refused);
      if !ok {
        return Returned;
      }
      if children[id].endpoints.Some? {
        status := status.(endpoints := status.endpoints[
          EndpointKey(k, InternalEndpoint) := Url(children[id].endpoints.value, InternalEndpoint)]);
      }
      return Running;
    }

    method ApiDeployment(k: string, o: GlanceOracle) returns (flow: Flow)
      requires k in spec.apis
      modifies this`children, this`status
      ensures Now(flow) == DeployApi(old(Now(Running)), spec, k, o)
    {
      var top := Webhook.IsFileBackend(spec.customServiceConfig, true);
      if top.None? {
        return Panicked;
      }
      if !o.locationApi && spec.apis[k].layout == SingleLayout {
        var file := Webhook.IsFileBackend(spec.apis[k].customServiceConfig, top.value);
        if file.None? {
          return Panicked;
        }
        if !file.value {
          return Returned;
        }
      }
      if !o.wsgi {
        return Returned;
      }
      flow := DeployFirst(k, o);
      if flow == Running && AlsoInternal(spec.apis[k].layout) {
        flow := DeployInternal(k, o);
      }
    }

    method ApiDeployments(o: GlanceOracle) returns (flow: Flow)
      modifies this`children, this`status
      ensures Now(flow) == DeployApis(old(Now(Running)), spec, o.names, o)
    {
      flow := Running;
      for n := 0 to |o.names|
        invariant Now(flow) == DeployApis(old(Now(Running)), spec, o.names[..n], o)
      {
        assert o.names[..n + 1][..n] == o.names[..n];
        if flow == Running && o.names[n] in spec.apis {
          flow := ApiDeployment(o.names[n], o);
        }
      }
      assert o.names[..|o.names|] == o.names;
    }

    method GlanceApiCleanup(o: GlanceOracle) returns (flow: Flow)
      modifies this`children, this`status
      ensures Now(flow) == if o.listed then Cleanup(old(Now(Running)), spec, Walked(o.listing), o)
                           else old(Now(Running))
    {
      flow := Running;
      if !o.listed {
        return;
      }
      ghost var walked := [];
      for n := 0 to |o.listing|
        invariant flow == Running && Now(flow) == Cleanup(old(Now(Running)), spec, walked, o)
        invariant Walked(o.listing) == walked + Walked(o.listing[n..])
      {
        WalkedStep(o.listing, walked, n);
        match o.listing[n]
        case OtherOwner =>
        case Unlabelled =>
          return;
        case Own(id) =>
          CleanupSnoc(old(Now(Running)), spec, walked, id, Walked(o.listing[n + 1..]), o);
          walked := walked + [id];
          flow := CleanupStep(id, o);
          if flow != Running {
            return;
          }
      }
      assert walked + [] == walked;
    }

    method CleanupStep(id: ChildId, o: GlanceOracle) returns (flow: Flow)
      modifies this`children, this`status
      ensures Now(flow) == CleanupOne(old(Now(Running)), spec, id, o)
    {
      flow := Running;
      if id.apiName !in spec.apis {
        if id in o.undeletable {
          return Returned;
        }
        children := children - {id};
        ForgetEntries(id.apiName);
      }
    }

    method ForgetEntries(k: string)
      modifies this`status
      ensures status == Forget(old(status), k)
    {
      var endpoints := [Public, InternalEndpoint];
      for n := 0 to 2
        invariant status.readyCounts == old(status).readyCounts
        invariant forall key :: key in status.endpoints <==>
                    key in old(status).endpoints && forall m :: 0 <= m < n ==> key != EndpointKey(k, endpoints[m])
        invariant forall key :: key in status.endpoints ==> status.endpoints[key] == old(status).endpoints[key]
      {
        status := status.(endpoints := status.endpoints - {EndpointKey(k, endpoints[n])});
      }
      assert status.endpoints == Forget(old(status), k).endpoints by {
        assert endpoints[0] == Public && endpoints[1] == InternalEndpoint;
      }
      status := status.(readyCounts := status.readyCounts - {k});
    }

    /** Whether every GlanceAPI of the namespace, of this Glance or another, is observed. */
    method CheckGlanceApisGeneration(o: GlanceOracle) returns (ok: Option<bool>)
      ensures ok == AllGenerations(children, o.others)
    {
      if o.others == None {
        return None;
      }
      var rest, others := children.Keys, o.others.value;
      while rest != {}
        invariant rest <= children.Keys
        invariant forall id :: id in children && id !in rest ==>
                    children[id].generation == children[id].observedGeneration
        decreases rest
      {
        var id :| id in rest;
        if children[id].generation != children[id].observedGeneration {
          return Some(false);
        }
        rest := rest - {id};
      }
      for n := 0 to |others|
        invariant forall m :: 0 <= m < n ==> others[m].current == others[m].observed
      {
        if others[n].current != others[n].observed {
          return Some(false);
        }
      }
      return Some(true);
    }

    /** The work of a pass on the objects and on the status in memory. */
    method DeployAndCleanup(o: GlanceOracle) returns (flow: Flow)
      modifies this`children, this`status
      ensures Now(flow) == Work(old(GlanceWorld(spec, children, status, ready)), o)
    {
      if !o.prelude {
        StoppedStays(Now(Returned), spec, o);
        return Returned;
      }
      flow := ApiDeployments(o);
      if flow == Running {
        flow := GlanceApiCleanup(o);
      } else {
        StoppedCleanup(Now(flow), spec, Walked(o.listing), o);
      }
    }

    method ReconcilePass(o: GlanceOracle)
      modifies this
      ensures W() == Reconcile(old(W()), o)
    {
      status := stored;
      var flow := DeployAndCleanup(o);
      var allReady := false;
      if flow == Running && o.rest {
        var observed := CheckGlanceApisGeneration(o);
        allReady := o.subsReady && observed == Some(true);
      }
      if flow != Panicked && o.patch {
        stored, ready := status, allReady;
      }
    }
  }

  lemma {:induction false} StoppedDeploy(p: Progress, g: GlanceSpec, names: seq<string>, o: GlanceOracle)
    requires p.flow != Running
    ensures DeployApis(p, g, names, o) == p
  {
    if names != [] {
      StoppedDeploy(p, g, names[..|names| - 1], o);
    }
  }

  /** Nothing is cleaned up after the first error. */
  lemma {:induction false} StoppedCleanupMore(
      p: Progress, g: GlanceSpec, done: seq<ChildId>, more: seq<ChildId>, o: GlanceOracle)
    requires Cleanup(p, g, done, o).flow != Running
    ensures Cleanup(p, g, done + more, o) == Cleanup(p, g, done, o)
  {
    if more == [] {
      assert done + more == done;
    } else {
      var n := |more| - 1;
      assert (done + more)[..|done| + n] == done + more[..n];
      StoppedCleanupMore(p, g, done, more[..n], o);
    }
  }

  /** One more object walked: it is cleaned up next, and if that fails nothing more is. */
  lemma CleanupSnoc(p: Progress, g: GlanceSpec, done: seq<ChildId>, id: ChildId, more: seq<ChildId>, o: GlanceOracle)
    ensures Cleanup(p, g, done + [id], o) == CleanupOne(Cleanup(p, g, done, o), g, id, o)
    ensures Cleanup(p, g, done + [id], o).flow != Running ==>
              Cleanup(p, g, done + [id] + more, o) == Cleanup(p, g, done + [id], o)
  {
    assert (done + [id])[..|done|] == done;
    if Cleanup(p, g, done + [id], o).flow != Running {
      StoppedCleanupMore(p, g, done + [id], more, o);
    }
  }

  lemma WalkedStep(listing: seq<Listed>, done: seq<ChildId>, n: nat)
    requires n < |listing| && Walked(listing) == done + Walked(listing[n..])
    ensures
      match listing[n]
      case Own(id) => Walked(listing) == done + [id] + Walked(listing[n + 1..])
      case OtherOwner => Walked(listing) == done + Walked(listing[n + 1..])
      case Unlabelled => Walked(listing) == done
  {
    assert listing[n..][1..] == listing[n + 1..];
    assert done + [] == done;
  }

  /** A pass that has returned writes nothing more. */
  lemma StoppedStays(p: Progress, g: GlanceSpec, o: GlanceOracle)
    requires p.flow != Running
    ensures Cleanup(DeployApis(p, g, o.names, o), g, Walked(o.listing), o) == DeployApis(p, g, o.names, o) == p
  {
    StoppedDeploy(p, g, o.names, o);
    StoppedCleanup(p, g, Walked(o.listing), o);
  }
}
