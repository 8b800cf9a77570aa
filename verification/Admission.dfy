/** What the webhook guarantees about every stored Glance, over all runs of requests. */
module Admission {
  import opened Text
  import opened GlanceTypes
  import opened Webhook

  /** A request on the Glance resource; deprecatedOk is the library's verdict on its deprecated fields. */
  datatype Request =
    | Create(spec: GlanceSpec)
    | Update(spec: GlanceSpec, deprecatedOk: bool)
    | Delete

  /** The resource is defaulted, then validated; a refused request leaves the stored spec. */
  ghost function Serve(name: string, d: Defaults, stored: Option<GlanceSpec>, r: Request): Option<GlanceSpec> {
    match r
    case Create(g) =>
      var g := Defaulted(g, d);
      if stored == None && AdmitsCreate(name, g) then Some(g) else stored
    case Update(g, deprecatedOk) =>
      var g := Defaulted(g, d);
      if stored.Some? && AdmitsUpdate(name, stored.value, g, deprecatedOk) then Some(g) else stored
    case Delete => None
  }

  ghost function ServeAll(name: string, d: Defaults, stored: Option<GlanceSpec>, rs: seq<Request>): Option<GlanceSpec>
    decreases |rs|
  {
    if rs == [] then stored else ServeAll(name, d, Serve(name, d, stored, rs[0]), rs[1..])
  }

  // ----- Defaulting -----

  lemma TopFixed(g: GlanceSpec, h: GlanceSpec, d: Defaults)
    requires h == DefaultedTop(g, d).(apis := h.apis, keystoneEndpoint := h.keystoneEndpoint)
    requires |h.apis| != 0
    ensures DefaultedTop(h, d) == h
  {
  }

  lemma ApisFixed(t: GlanceSpec, h: GlanceSpec, d: Defaults)
    requires h == DefaultedApis(t, d).(keystoneEndpoint := h.keystoneEndpoint)
    ensures DefaultedApis(h, d) == h
  {
    assert DefaultedApis(h, d).apis == h.apis;
  }

  lemma KeystoneFixed(g: GlanceSpec)
    ensures DefaultedKeystone(DefaultedKeystone(g)) == DefaultedKeystone(g)
  {
  }

  lemma DefaultedHasApis(g: GlanceSpec, d: Defaults)
    ensures |Defaulted(g, d).apis| == |DefaultedTop(g, d).apis| != 0
  {
    assert g.apis == map[] || |g.apis.Keys| != 0;
    assert Defaulted(g, d).apis.Keys == DefaultedTop(g, d).apis.Keys;
  }

  /** Defaulting a defaulted resource changes nothing. */
  lemma DefaultIdempotent(g: GlanceSpec, d: Defaults)
    ensures Defaulted(Defaulted(g, d), d) == Defaulted(g, d)
  {
    var top := DefaultedTop(g, d);
    var once := Defaulted(g, d);
    DefaultedHasApis(g, d);
    TopFixed(g, once, d);
    ApisFixed(top, once, d);
    KeystoneFixed(DefaultedApis(top, d));
  }

  /** What defaulting establishes: an API exists, local storage is requested only with a size, and a
      single API is the keystone one unless another was named. */
  lemma DefaultedShape(g: GlanceSpec, d: Defaults)
    ensures
      var r := Defaulted(g, d);
      && r.apis != map[]
      && (!r.storage.external ==> r.storage.storageRequest != "")
      && (g.apis == map[] ==> ValidKeystone(r))
      && (g.keystoneEndpoint == "" && |g.apis| == 1 ==> r.keystoneEndpoint in g.apis)
      && (g.keystoneEndpoint != "" && g.apis != map[] ==> r.keystoneEndpoint == g.keystoneEndpoint)
  {
    var top := DefaultedTop(g, d);
    assert g.apis == map[] || |g.apis.Keys| != 0;
    assert Defaulted(g, d).apis.Keys == top.apis.Keys;
    assert g.apis == map[] ==> "default" in top.apis;
  }

  predicate Either<T(==)>(value: T, own: T, default: T, unset: T) {
    (own != unset ==> value == own) && (own == unset ==> value == default)
  }

  /** Every default in its place, and nothing else changed. */
  lemma DefaultedSpelled(g: GlanceSpec, d: Defaults)
    ensures
      var r := Defaulted(g, d);
      && Either(r.containerImage, g.containerImage, d.containerImage, "")
      && Either(r.apiTimeout, g.apiTimeout, d.apiTimeout, 0)
      && Either(r.dbPurgeAge, g.dbPurgeAge, d.dbPurgeAge, 0)
      && Either(r.dbPurgeSchedule, g.dbPurgeSchedule, d.dbPurgeSchedule, "")
      && (r.storage.external <==> g.storage.external || g.storage.storageRequest == "")
      && r.storage.storageRequest == g.storage.storageRequest && r.storage.storageClass == g.storage.storageClass
      && r.imageCache == g.imageCache && r.nodeSelector == g.nodeSelector && r.topologyRef == g.topologyRef
      && r.customServiceConfigSecrets == g.customServiceConfigSecrets && r.topologyOk == g.topologyOk
  {
  }

  lemma DefaultedApiSpelled(g: GlanceSpec, d: Defaults, k: string)
    requires k in g.apis
    ensures
      var r := Defaulted(g, d);
      && r.customServiceConfig == g.customServiceConfig && r.apis.Keys == g.apis.Keys
      && var own, api := g.apis[k], r.apis[k];
         && Either(api.imageCache.cleanerScheduler, own.imageCache.cleanerScheduler, d.cleanerSchedule, "")
         && Either(api.imageCache.prunerScheduler, own.imageCache.prunerScheduler, d.prunerSchedule, "")
         && Either(api.apiTimeout, own.apiTimeout, r.apiTimeout, 0)
         && api == own.(imageCache := own.imageCache.(cleanerScheduler := api.imageCache.cleanerScheduler,
                                                      prunerScheduler := api.imageCache.prunerScheduler),
                        apiTimeout := api.apiTimeout)
  {
    assert |g.apis.Keys| != 0;
  }

  /** Without any API one is deployed, with no replicas and a configuration to be changed. */
  lemma DefaultApiSpelled(g: GlanceSpec, d: Defaults)
    requires g.apis == map[]
    ensures
      var r := Defaulted(g, d);
      && r.apis.Keys == {"default"} && r.keystoneEndpoint == "default" && r.apis["default"].replicas == 0
      && r.customServiceConfig == "[DEFAULT]\nenabled_backends=backend1:type1 # CHANGE_ME"
  {
  }

  // ----- Runs -----

  /** keystoneEndpoint names a deployed API that is not an edge one, no API with replicas in the split layout
      has the webhook's file verdict, which is that of its own configuration and the top level's, and every
      API name fits its length budget. SplitOnFileExactly says when such an API is deployed on File all the
      same. */
  ghost predicate Admissible(name: string, g: GlanceSpec) {
    && ValidKeystone(g)
    && IsFileBackend(g.customServiceConfig, true).Some?
    && (forall k :: k in g.apis ==> NameOk(name, k, g.apis[k].layout))
    && (forall k :: k in g.apis && g.apis[k].layout == SplitLayout && g.apis[k].replicas != 0 ==>
          IsFileBackend(g.apis[k].customServiceConfig, IsFileBackend(g.customServiceConfig, true).value) == Some(false))
  }

  lemma AdmittedIsAdmissible(name: string, g: GlanceSpec)
    requires !Panics(g)
    requires !CreateError(name, g, BadKeystoneEndpoint)
    requires forall k :: !CreateError(name, g, BadName(k)) && !CreateError(name, g, InvalidBackend(k))
    ensures Admissible(name, g)
  {
    var top := IsFileBackend(g.customServiceConfig, true).value;
    forall k | k in g.apis ensures NameOk(name, k, g.apis[k].layout) {
      assert !CreateError(name, g, BadName(k));
    }
    forall k | k in g.apis && g.apis[k].layout == SplitLayout && g.apis[k].replicas != 0
      ensures IsFileBackend(g.apis[k].customServiceConfig, top) == Some(false)
    {
      assert !CreateError(name, g, InvalidBackend(k));
      assert IsInvalidBackend(g.apis[k], top) != None;
    }
  }

  /** Every check on an API passes. */
  ghost predicate CleanApi(name: string, g: GlanceSpec, k: string)
    requires k in g.apis && IsFileBackend(g.customServiceConfig, true).Some?
  {
    var top := IsFileBackend(g.customServiceConfig, true).value;
    && NameOk(name, k, g.apis[k].layout) && IsInvalidBackend(g.apis[k], top) == Some(false)
    && g.apis[k].checks == LibraryChecks(true, true, true)
  }

  /** A spec that passes every check is admitted at creation, and at an update that changes no layout. */
  lemma CleanIsAdmitted(name: string, g: GlanceSpec)
    requires IsFileBackend(g.customServiceConfig, true).Some? && g.topologyOk && ValidKeystone(g)
    requires forall k :: k in g.apis ==> CleanApi(name, g, k)
    ensures AdmitsCreate(name, g)
    ensures forall previous: GlanceSpec ::
              (forall k :: k in g.apis && k in previous.apis ==> g.apis[k].layout == previous.apis[k].layout) ==>
                AdmitsUpdate(name, previous, g, true)
  {
    forall e ensures !CreateError(name, g, e) {
      NoCreateError(name, g, e);
    }
  }

  /** And nothing else is admitted: a creation whose APIs all pass, or an update in which moreover no kept API
      changes its layout, and the deprecated fields are in order. The overrides of a newly added API are not
      looked at, and the probes only if some API is kept. */
  lemma AdmittedExactly(name: string, previous: GlanceSpec, g: GlanceSpec, deprecatedOk: bool)
    requires IsFileBackend(g.customServiceConfig, true).Some?
    ensures AdmitsCreate(name, g) <==>
              g.topologyOk && ValidKeystone(g) && forall k :: k in g.apis ==> CleanApi(name, g, k)
    ensures AdmitsUpdate(name, previous, g, deprecatedOk) <==>
              && deprecatedOk && g.topologyOk && ValidKeystone(g)
              && forall k :: k in g.apis ==> CleanUpdate(name, previous, g, k)
  {
    if AdmitsCreate(name, g) {
      assert !CreateError(name, g, BadTopology) && !CreateError(name, g, BadKeystoneEndpoint);
      forall k | k in g.apis ensures CleanApi(name, g, k) {
        AdmittedIsClean(name, g, k);
      }
    }
    if g.topologyOk && ValidKeystone(g) && forall k :: k in g.apis ==> CleanApi(name, g, k) {
      CleanIsAdmitted(name, g);
    }
    UpdateAdmittedExactly(name, previous, g, deprecatedOk);
  }

  lemma AdmittedIsClean(name: string, g: GlanceSpec, k: string)
    requires IsFileBackend(g.customServiceConfig, true).Some? && AdmitsCreate(name, g) && k in g.apis
    ensures CleanApi(name, g, k)
  {
    assert !CreateError(name, g, BadName(k)) && !CreateError(name, g, BadApiTopology(k));
    assert !CreateError(name, g, InvalidBackend(k)) && !CreateError(name, g, BadOverride(k));
    assert !CreateError(name, g, BadProbes(k, k));
    assert IsInvalidBackend(g.apis[k], IsFileBackend(g.customServiceConfig, true).value) != None;
  }

  /** What an update checks of an API, kept or newly added. */
  ghost predicate CleanUpdate(name: string, previous: GlanceSpec, g: GlanceSpec, k: string)
    requires k in g.apis && IsFileBackend(g.customServiceConfig, true).Some?
  {
    var api, top := g.apis[k], IsFileBackend(g.customServiceConfig, true).value;
    && NameOk(name, k, api.layout) && IsInvalidBackend(api, top) == Some(false) && api.checks.topology
    && (k in previous.apis ==>
          && api.layout == previous.apis[k].layout && api.checks.overrides
          && forall j :: j in g.apis ==> g.apis[j].checks.probes)
  }

  lemma UpdateAdmittedExactly(name: string, previous: GlanceSpec, g: GlanceSpec, deprecatedOk: bool)
    requires IsFileBackend(g.customServiceConfig, true).Some?
    ensures AdmitsUpdate(name, previous, g, deprecatedOk) <==>
              && deprecatedOk && g.topologyOk && ValidKeystone(g)
              && forall k :: k in g.apis ==> CleanUpdate(name, previous, g, k)
  {
    if AdmitsUpdate(name, previous, g, deprecatedOk) {
      assert !UpdateError(name, previous, g, deprecatedOk, BadTopology);
      assert !UpdateError(name, previous, g, deprecatedOk, BadKeystoneEndpoint);
      assert !UpdateError(name, previous, g, deprecatedOk, DeprecatedField);
      forall k | k in g.apis ensures CleanUpdate(name, previous, g, k) {
        UpdateIsClean(name, previous, g, deprecatedOk, k);
      }
    }
    if deprecatedOk && g.topologyOk && ValidKeystone(g)
       && forall k :: k in g.apis ==> CleanUpdate(name, previous, g, k) {
      CleanUpdateIsAdmitted(name, previous, g);
    }
  }

  lemma CleanUpdateIsAdmitted(name: string, previous: GlanceSpec, g: GlanceSpec)
    requires IsFileBackend(g.customServiceConfig, true).Some? && g.topologyOk && ValidKeystone(g)
    requires forall k :: k in g.apis ==> CleanUpdate(name, previous, g, k)
    ensures AdmitsUpdate(name, previous, g, true)
  {
    forall e ensures !UpdateError(name, previous, g, true, e) {
      NoUpdateError(name, previous, g, e);
    }
  }

  lemma UpdateIsClean(name: string, previous: GlanceSpec, g: GlanceSpec, deprecatedOk: bool, k: string)
    requires IsFileBackend(g.customServiceConfig, true).Some? && k in g.apis
    requires AdmitsUpdate(name, previous, g, deprecatedOk)
    ensures CleanUpdate(name, previous, g, k)
  {
    assert !UpdateError(name, previous, g, deprecatedOk, BadName(k));
    assert !UpdateError(name, previous, g, deprecatedOk, BadApiTopology(k));
    assert !UpdateError(name, previous, g, deprecatedOk, InvalidBackend(k));
    assert !UpdateError(name, previous, g, deprecatedOk, LayoutChanged(k));
    assert !UpdateError(name, previous, g, deprecatedOk, BadOverride(k));
    assert IsInvalidBackend(g.apis[k], IsFileBackend(g.customServiceConfig, true).value) != None;
    forall j | k in previous.apis && j in g.apis ensures g.apis[j].checks.probes {
      assert !UpdateError(name, previous, g, deprecatedOk, BadProbes(k, j));
    }
  }

  lemma NoUpdateError(name: string, previous: GlanceSpec, g: GlanceSpec, e: FieldError)
    requires IsFileBackend(g.customServiceConfig, true).Some? && g.topologyOk && ValidKeystone(g)
    requires forall k :: k in g.apis ==> CleanUpdate(name, previous, g, k)
    ensures !UpdateError(name, previous, g, true, e)
  {
    match e
    case BadName(k) => assert k in g.apis ==> CleanUpdate(name, previous, g, k);
    case BadApiTopology(k) => assert k in g.apis ==> CleanUpdate(name, previous, g, k);
    case InvalidBackend(k) => assert k in g.apis ==> CleanUpdate(name, previous, g, k);
    case LayoutChanged(k) => assert k in g.apis ==> CleanUpdate(name, previous, g, k);
    case BadOverride(k) => assert k in g.apis ==> CleanUpdate(name, previous, g, k);
    case BadProbes(k, _) => assert k in g.apis ==> CleanUpdate(name, previous, g, k);
    case _ =>
  }

  /** With a Glance whose own name is a label, every object name an admitted key leads to is made of lower-case
      letters, digits and hyphens, and starts and ends with a letter or digit. */
  lemma AdmittedNamesAreLabels(glance: string, key: string, layout: Layout, t: ApiType)
    requires NameOk(glance, key, layout) && IsLabel(glance)
    ensures IsLabel(StatefulSetName(ChildName(glance, key, t), t)) && |key| <= 63
  {
    assert IsLabel(key);
    TypeIsLabel(t);
    JoinedLabel(glance, key);
    JoinedLabel(glance + "-" + key, TypeName(t));
    assert IsLabel("api");
    JoinedLabel(ChildName(glance, key, t), "api");
    assert ChildName(glance, key, t) + "-" + "api" == ChildName(glance, key, t) + "-api";
  }

  predicate IsLabel(s: string) {
    && s != "" && s[0] != '-' && s[|s| - 1] != '-'
    && forall i :: 0 <= i < |s| ==> 'a' <= s[i] <= 'z' || '0' <= s[i] <= '9' || s[i] == '-'
  }

  lemma TypeIsLabel(t: ApiType)
    ensures IsLabel(TypeName(t))
  {
  }

  lemma JoinedLabel(a: string, b: string)
    requires IsLabel(a) && IsLabel(b)
    ensures IsLabel(a + "-" + b)
  {
  }

  lemma NoCreateError(name: string, g: GlanceSpec, e: FieldError)
    requires IsFileBackend(g.customServiceConfig, true).Some? && g.topologyOk && ValidKeystone(g)
    requires forall k :: k in g.apis ==> CleanApi(name, g, k)
    ensures !CreateError(name, g, e)
  {
    match e
    case BadName(k) => assert k in g.apis ==> CleanApi(name, g, k);
    case BadApiTopology(k) => assert k in g.apis ==> CleanApi(name, g, k);
    case InvalidBackend(k) => assert k in g.apis ==> CleanApi(name, g, k);
    case BadOverride(k) => assert k in g.apis ==> CleanApi(name, g, k);
    case BadProbes(_, j) => assert j in g.apis ==> CleanApi(name, g, j);
    case _ =>
  }

  lemma ServeKeepsAdmissible(name: string, d: Defaults, stored: Option<GlanceSpec>, r: Request)
    requires stored.Some? ==> Admissible(name, stored.value)
    ensures var s := Serve(name, d, stored, r); s.Some? ==> Admissible(name, s.value)
  {
    if r.Create? && stored == None && AdmitsCreate(name, Defaulted(r.spec, d)) {
      AdmittedIsAdmissible(name, Defaulted(r.spec, d));
    }
    if r.Update? && stored.Some? && AdmitsUpdate(name, stored.value, Defaulted(r.spec, d), r.deprecatedOk) {
      var g := Defaulted(r.spec, d);
      forall k ensures !CreateError(name, g, BadName(k)) && !CreateError(name, g, InvalidBackend(k)) {
        assert !UpdateError(name, stored.value, g, r.deprecatedOk, BadName(k));
        assert !UpdateError(name, stored.value, g, r.deprecatedOk, InvalidBackend(k));
      }
      assert !UpdateError(name, stored.value, g, r.deprecatedOk, BadKeystoneEndpoint);
      AdmittedIsAdmissible(name, g);
    }
  }

  /** Whatever is stored after any run of requests is admissible. */
  lemma {:induction false} EveryRunIsAdmissible(name: string, d: Defaults, stored: Option<GlanceSpec>, rs: seq<Request>)
    requires stored.Some? ==> Admissible(name, stored.value)
    ensures var s := ServeAll(name, d, stored, rs); s.Some? ==> Admissible(name, s.value)
    decreases |rs|
  {
    if rs != [] {
      ServeKeepsAdmissible(name, d, stored, rs[0]);
      EveryRunIsAdmissible(name, d, Serve(name, d, stored, rs[0]), rs[1..]);
    }
  }

  /** k is stored at the start and after every request of the run. */
  ghost predicate PresentThroughout(name: string, d: Defaults, stored: Option<GlanceSpec>, rs: seq<Request>, k: string)
    decreases |rs|
  {
    && stored.Some? && k in stored.value.apis
    && (rs != [] ==> PresentThroughout(name, d, Serve(name, d, stored, rs[0]), rs[1..], k))
  }

  lemma UpdateKeepsLayout(name: string, d: Defaults, stored: Option<GlanceSpec>, r: Request, k: string)
    requires stored.Some? && k in stored.value.apis
    ensures
      var s := Serve(name, d, stored, r);
      s.Some? && k in s.value.apis ==> s.value.apis[k].layout == stored.value.apis[k].layout
  {
    if r.Update? {
      var g := Defaulted(r.spec, d);
      if AdmitsUpdate(name, stored.value, g, r.deprecatedOk) {
        assert !UpdateError(name, stored.value, g, r.deprecatedOk, LayoutChanged(k));
      }
    }
  }

  /** An API that stays in the resource keeps the layout it was added with. */
  lemma {:induction false} KeptApiKeepsLayout(
      name: string, d: Defaults, stored: Option<GlanceSpec>, rs: seq<Request>, k: string)
    requires PresentThroughout(name, d, stored, rs, k)
    ensures
      var s := ServeAll(name, d, stored, rs);
      s.Some? && k in s.value.apis && s.value.apis[k].layout == stored.value.apis[k].layout
    decreases |rs|
  {
    if rs != [] {
      UpdateKeepsLayout(name, d, stored, rs[0], k);
      KeptApiKeepsLayout(name, d, Serve(name, d, stored, rs[0]), rs[1..], k);
    }
  }

  // ----- Length of the revision label -----

  /** `controller-revision-hash` is the StatefulSet name, a hyphen and ten digits. */
  function RevisionLabelLength(glance: string, key: string, t: ApiType): nat {
    |StatefulSetName(ChildName(glance, key, t), t)| + 11
  }

  /** What the correction of the webhook misses: it counts the layout where the name has the object type,
      and no "-api". */
  function Overhang(layout: Layout): nat {
    match layout
    case SingleLayout => 0
    case EdgeLayout => 4
    case SplitLayout => 7
    case NoLayout => 12
  }

  /** The label of every StatefulSet of an API exceeds the length the webhook checked by exactly the
      overhang of its layout; so an admitted name yields a legal label (63) if and only if it leaves that
      much of its budget unused. */
  lemma RevisionLabelExactly(glance: string, key: string, layout: Layout, t: ApiType)
    requires t in LayoutTypes(layout)
    ensures
      var checked := |key| + CrMaxLengthCorrection(glance, LayoutName(layout));
      && RevisionLabelLength(glance, key, t) == checked + Overhang(layout)
      && (NameOk(glance, key, layout) ==> RevisionLabelLength(glance, key, t) <= 63 + Overhang(layout))
      && (RevisionLabelLength(glance, key, t) <= 63 <==> checked <= 63 - Overhang(layout))
  {
    assert |TypeName(t)| == |LayoutName(layout)| + (if t == Single then 0 else Overhang(layout) - 4);
  }

  /** The bounds 63, 67, 70 and 75 are reached: the longest admitted key of each layout has that label. */
  lemma RevisionLabelTight(glance: string, layout: Layout, t: ApiType) returns (key: string)
    requires t in LayoutTypes(layout)
    requires CrMaxLengthCorrection(glance, LayoutName(layout)) < 63
    ensures NameOk(glance, key, layout)
    ensures RevisionLabelLength(glance, key, t) == 63 + Overhang(layout)
  {
    key := seq(63 - CrMaxLengthCorrection(glance, LayoutName(layout)), _ => 'a');
    RevisionLabelExactly(glance, key, layout, t);
  }
}
