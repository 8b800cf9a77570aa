/** The defaulting and validating webhook of the Glance resource (api/v1beta1/glance_webhook.go). */
module Webhook {
  import opened Text
  import opened GlanceTypes
  import EnabledBackends

  datatype Defaults = Defaults(
    containerImage: string,
    dbPurgeAge: int,
    dbPurgeSchedule: string,
    cleanerSchedule: string,
    prunerSchedule: string,
    apiTimeout: int)

  const TEMPLATE_BACKEND := "[DEFAULT]\nenabled_backends=backend1:type1 # CHANGE_ME"

  /** The API deployed when the resource names none: the layout is left to the schema. */
  const DEFAULT_API := ApiTemplate(
    0, NoLayout, "", [], Storage("", "", false), ImageCache("", "", ""), 0, "", None, None,
    LibraryChecks(true, true, true))

  // ----- Defaulting -----

  function Or(s: string, default: string): string {
    if s == "" then default else s
  }

  function OrInt(n: int, default: int): int {
    if n == 0 then default else n
  }

  function DefaultedApi(api: ApiTemplate, apiTimeout: int, d: Defaults): ApiTemplate {
    api.(
      imageCache := api.imageCache.(
        cleanerScheduler := Or(api.imageCache.cleanerScheduler, d.cleanerSchedule),
        prunerScheduler := Or(api.imageCache.prunerScheduler, d.prunerSchedule)),
      apiTimeout := OrInt(api.apiTimeout, apiTimeout))
  }

  /** The top-level fields, and the API that is deployed when there is none. */
  function DefaultedTop(g: GlanceSpec, d: Defaults): GlanceSpec {
    var g := g.(
      containerImage := Or(g.containerImage, d.containerImage),
      storage := g.storage.(external := g.storage.external || g.storage.storageRequest == ""),
      apiTimeout := OrInt(g.apiTimeout, d.apiTimeout),
      dbPurgeAge := OrInt(g.dbPurgeAge, d.dbPurgeAge),
      dbPurgeSchedule := Or(g.dbPurgeSchedule, d.dbPurgeSchedule));
    if |g.apis| == 0 then
      g.(keystoneEndpoint := "default", customServiceConfig := TEMPLATE_BACKEND, apis := map["default" := DEFAULT_API])
    else g
  }

  function DefaultedApis(g: GlanceSpec, d: Defaults): GlanceSpec {
    g.(apis := map k | k in g.apis :: DefaultedApi(g.apis[k], g.apiTimeout, d))
  }

  /** With a single API the keystone endpoint need not be named. */
  ghost function DefaultedKeystone(g: GlanceSpec): GlanceSpec {
    if g.keystoneEndpoint == "" && |g.apis| == 1 then
      var k :| k in g.apis;
      g.(keystoneEndpoint := k)
    else g
  }

  ghost function Defaulted(g: GlanceSpec, d: Defaults): GlanceSpec {
    DefaultedKeystone(DefaultedApis(DefaultedTop(g, d), d))
  }

  lemma OnlyKey<T>(s: set<T>, x: T, y: T)
    requires |s| == 1 && x in s && y in s
    ensures x == y
  {
    assert |s - {x}| == 0;
    assert y !in s - {x};
  }

  // ----- Backends and layouts -----

  /** File is the only store listed, or none is listed and the top level allows that to mean File. */
  function FileVerdict(backends: seq<string>, topLevel: bool): bool {
    || (|backends| == 0 && topLevel)
    || (|backends| == 1 && Cut(backends[0], ':').1 == Some("file"))
  }

  /** None is a run-time panic of the parser. */
  function IsFileBackend(config: string, topLevel: bool): Option<bool> {
    match EnabledBackends.Parse(config)
    case None => None
    case Some(backends) => Some(FileVerdict(backends, topLevel))
  }

  function IsInvalidBackend(api: ApiTemplate, topLevel: bool): Option<bool> {
    if api.replicas == 0 then Some(false)
    else if api.layout == SplitLayout then IsFileBackend(api.customServiceConfig, topLevel)
    else Some(false)
  }

  predicate ValidKeystone(g: GlanceSpec) {
    g.keystoneEndpoint in g.apis && g.apis[g.keystoneEndpoint].layout != EdgeLayout
  }

  // ----- Names -----

  function CrMaxLengthCorrection(name: string, apiType: string): nat {
    11 + |name| + |apiType| + 2
  }

  predicate IsLabelChar(c: char) {
    'a' <= c <= 'z' || '0' <= c <= '9'
  }

  /** ValidateDNS1123Label on one key, with the length budget reduced by the correction. */
  predicate NameOk(name: string, key: string, layout: Layout) {
    && key != ""
    && IsLabelChar(key[0]) && IsLabelChar(key[|key| - 1])
    && (forall i :: 0 <= i < |key| ==> IsLabelChar(key[i]) || key[i] == '-')
    && |key| + CrMaxLengthCorrection(name, LayoutName(layout)) <= 63
  }

  // ----- Validation -----

  datatype FieldError =
    | BadName(key: string)
    | BadTopology
    | BadApiTopology(key: string)
    | InvalidBackend(key: string)
    | LayoutChanged(key: string)
    | BadOverride(key: string)
    | BadProbes(key: string, api: string)
    | BadKeystoneEndpoint
    | DeprecatedField

  ghost predicate Panics(g: GlanceSpec) {
    var top := IsFileBackend(g.customServiceConfig, true);
    top == None || exists k :: k in g.apis && IsInvalidBackend(g.apis[k], top.value) == None
  }

  ghost predicate CreateError(name: string, g: GlanceSpec, e: FieldError) {
    match e
    case BadName(k) => k in g.apis && !NameOk(name, k, g.apis[k].layout)
    case BadTopology => !g.topologyOk
    case BadApiTopology(k) => k in g.apis && !g.apis[k].checks.topology
    case InvalidBackend(k) =>
      var top := IsFileBackend(g.customServiceConfig, true);
      k in g.apis && top.Some? && IsInvalidBackend(g.apis[k], top.value) == Some(true)
    case LayoutChanged(_) => false
    case BadOverride(k) => k in g.apis && !g.apis[k].checks.overrides
    case BadProbes(k, j) => k in g.apis && j in g.apis && !g.apis[j].checks.probes
    case BadKeystoneEndpoint => !ValidKeystone(g)
    case DeprecatedField => false
  }

  /** An update is checked like a creation, except that the overrides and probes of a newly added API are
      skipped and the layout of a kept one must not change. */
  ghost predicate UpdateError(name: string, previous: GlanceSpec, g: GlanceSpec, deprecatedOk: bool, e: FieldError) {
    match e
    case LayoutChanged(k) => k in previous.apis && k in g.apis && g.apis[k].layout != previous.apis[k].layout
    case BadOverride(k) => k in previous.apis && CreateError(name, g, e)
    case BadProbes(k, j) => k in previous.apis && CreateError(name, g, e)
    case DeprecatedField => !deprecatedOk
    case _ => CreateError(name, g, e)
  }

  ghost predicate AdmitsCreate(name: string, g: GlanceSpec) {
    !Panics(g) && forall e :: !CreateError(name, g, e)
  }

  ghost predicate AdmitsUpdate(name: string, previous: GlanceSpec, g: GlanceSpec, deprecatedOk: bool) {
    !Panics(g) && forall e :: !UpdateError(name, previous, g, deprecatedOk, e)
  }

  class Glance {
    const name: string
    var spec: GlanceSpec

    constructor (name: string, spec: GlanceSpec)
      ensures this.name == name && this.spec == spec
    {
      this.name, this.spec := name, spec;
    }

    /** Sets the defaults in place. The API map is walked in any order. */
    method Default(d: Defaults)
      modifies this
      ensures spec == Defaulted(old(spec), d)
    {
      DefaultTop(d);
      DefaultApis(d);
      if spec.keystoneEndpoint == "" && |spec.apis| == 1 {
        var k :| k in spec.apis;
        ghost var kept := DefaultedKeystone(spec).keystoneEndpoint;
        OnlyKey(spec.apis.Keys, k, kept);
        spec := spec.(keystoneEndpoint := k);
      }
    }

    method DefaultTop(d: Defaults)
      modifies this
      ensures spec == DefaultedTop(old(spec), d)
    {
      if |spec.containerImage| == 0 {
        spec := spec.(containerImage := d.containerImage);
      }
      if spec.storage.storageRequest == "" {
        spec := spec.(storage := spec.storage.(external := true));
      }
      if spec.apiTimeout == 0 {
        spec := spec.(apiTimeout := d.apiTimeout);
      }
      if spec.dbPurgeAge == 0 {
        spec := spec.(dbPurgeAge := d.dbPurgeAge);
      }
      if spec.dbPurgeSchedule == "" {
        spec := spec.(dbPurgeSchedule := d.dbPurgeSchedule);
      }
      if |spec.apis| == 0 {
        spec := spec.(keystoneEndpoint := "default", customServiceConfig := TEMPLATE_BACKEND,
                      apis := map["default" := DEFAULT_API]);
      }
    }

    method DefaultApi(key: string, d: Defaults)
      requires key in spec.apis
      modifies this
      ensures
        var api := DefaultedApi(old(spec).apis[key], old(spec).apiTimeout, d);
        spec == old(spec).(apis := old(spec).apis[key := api])
    {
      var api := spec.apis[key];
      if api.imageCache.cleanerScheduler == "" {
        api := api.(imageCache := api.imageCache.(cleanerScheduler := d.cleanerSchedule));
        spec := spec.(apis := spec.apis[key := api]);
      }
      if api.imageCache.prunerScheduler == "" {
        api := api.(imageCache := api.imageCache.(prunerScheduler := d.prunerSchedule));
        spec := spec.(apis := spec.apis[key := api]);
      }
      if api.apiTimeout == 0 {
        api := api.(apiTimeout := spec.apiTimeout);
        spec := spec.(apis := spec.apis[key := api]);
      }
      assert spec.apis == old(spec).apis[key := api];
    }

    method DefaultApis(d: Defaults)
      modifies this
      ensures spec == DefaultedApis(old(spec), d)
    {
      ghost var before := spec;
      ghost var done := DefaultedApis(spec, d).apis;
      var rest := spec.apis.Keys;
      while rest != {}
        invariant rest <= before.apis.Keys
        invariant spec == before.(apis := spec.apis) && spec.apis.Keys == before.apis.Keys
        invariant forall k :: k in before.apis ==> spec.apis[k] == if k in rest then before.apis[k] else done[k]
        decreases rest
      {
        var key :| key in rest;
        DefaultApi(key, d);
        rest := rest - {key};
      }
      assert spec.apis == done;
    }

    method IsValidKeystoneEP() returns (ok: bool)
      ensures ok <==> ValidKeystone(spec)
    {
      var rest := spec.apis.Keys;
      while rest != {}
        invariant rest <= spec.apis.Keys
        invariant ValidKeystone(spec) ==> spec.keystoneEndpoint in rest
        decreases rest
      {
        var name :| name in rest;
        if spec.apis[name].layout != EdgeLayout && spec.keystoneEndpoint == name {
          return true;
        }
        rest := rest - {name};
      }
      return false;
    }

    method ValidateNames() returns (errs: seq<FieldError>)
      ensures forall e :: e in errs <==> e.BadName? && CreateError(name, spec, e)
    {
      errs := [];
      var rest := spec.apis.Keys;
      while rest != {}
        invariant rest <= spec.apis.Keys
        invariant forall e :: e in errs <==> e.BadName? && e.key !in rest && CreateError(name, spec, e)
        decreases rest
      {
        var key :| key in rest;
        if !NameOk(name, key, spec.apis[key].layout) {
          errs := errs + [BadName(key)];
        }
        rest := rest - {key};
      }
    }

    method ValidateProbes(key: string) returns (errs: seq<FieldError>)
      requires key in spec.apis
      ensures forall e :: e in errs <==> e.BadProbes? && e.key == key && CreateError(name, spec, e)
    {
      errs := [];
      var rest := spec.apis.Keys;
      while rest != {}
        invariant rest <= spec.apis.Keys
        invariant forall e :: e in errs <==>
                    e.BadProbes? && e.key == key && e.api !in rest && CreateError(name, spec, e)
        decreases rest
      {
        var api :| api in rest;
        if !spec.apis[api].checks.probes {
          errs := errs + [BadProbes(key, api)];
        }
        rest := rest - {api};
      }
    }

    ghost predicate ApiError(e: FieldError)
      reads this
    {
      (e.BadApiTopology? || e.InvalidBackend? || e.BadOverride? || e.BadProbes?) && CreateError(name, spec, e)
    }

    /** The checks every API gets, newly added or not; None is a panic. */
    method ValidateTopologyAndBackend(key: string, top: bool) returns (errs: Option<seq<FieldError>>)
      requires key in spec.apis && IsFileBackend(spec.customServiceConfig, true) == Some(top)
      ensures errs.None? <==> IsInvalidBackend(spec.apis[key], top) == None
      ensures errs.Some? ==> forall e :: e in errs.value <==>
                (e.BadApiTopology? || e.InvalidBackend?) && e.key == key && CreateError(name, spec, e)
    {
      var api, all := spec.apis[key], [];
      if !api.checks.topology {
        all := all + [BadApiTopology(key)];
      }
      var invalid := IsInvalidBackend(api, top);
      if invalid.None? {
        return None;
      }
      if invalid.value {
        all := all + [InvalidBackend(key)];
      }
      return Some(all);
    }

    method ValidateOverrides(key: string) returns (errs: seq<FieldError>)
      requires key in spec.apis
      ensures forall e :: e in errs <==> (e.BadOverride? || e.BadProbes?) && e.key == key && CreateError(name, spec, e)
    {
      errs := [];
      if !spec.apis[key].checks.overrides {
        errs := errs + [BadOverride(key)];
      }
      var probes := ValidateProbes(key);
      errs := errs + probes;
    }

    /** The checks of one API at creation; None is a panic. */
    method ValidateApi(key: string, top: bool) returns (errs: Option<seq<FieldError>>)
      requires key in spec.apis && IsFileBackend(spec.customServiceConfig, true) == Some(top)
      ensures errs.None? <==> IsInvalidBackend(spec.apis[key], top) == None
      ensures errs.Some? ==> forall e :: e in errs.value <==> ApiError(e) && e.key == key
    {
      errs := ValidateTopologyAndBackend(key, top);
      if errs.None? {
        return;
      }
      var more := ValidateOverrides(key);
      errs := Some(errs.value + more);
    }

    method ValidateApis(top: bool) returns (errs: Option<seq<FieldError>>)
      requires IsFileBackend(spec.customServiceConfig, true) == Some(top)
      ensures errs.None? <==> exists k :: k in spec.apis && IsInvalidBackend(spec.apis[k], top) == None
      ensures errs.Some? ==> forall e :: e in errs.value <==> ApiError(e)
    {
      var rest := spec.apis.Keys;
      var all := [];
      while rest != {}
        invariant rest <= spec.apis.Keys
        invariant forall k :: k in spec.apis && k !in rest ==> IsInvalidBackend(spec.apis[k], top).Some?
        invariant forall e :: e in all <==> ApiError(e) && e.key !in rest
        decreases rest
      {
        var key :| key in rest;
        var found := ValidateApi(key, top);
        if found.None? {
          return None;
        }
        all := all + found.value;
        rest := rest - {key};
      }
      return Some(all);
    }

    /** None is a panic: the request is then refused, as it is when an error is returned. */
    method ValidateCreate() returns (errs: Option<seq<FieldError>>)
      ensures errs.None? <==> Panics(spec)
      ensures errs.Some? ==> forall e :: e in errs.value <==> CreateError(name, spec, e)
    {
      var top := IsFileBackend(spec.customServiceConfig, true);
      if top.None? {
        return None;
      }
      var all := ValidateNames();
      if !spec.topologyOk {
        all := all + [BadTopology];
      }
      var found := ValidateApis(top.value);
      if found.None? {
        return None;
      }
      all := all + found.value;
      var keystone := IsValidKeystoneEP();
      if !keystone {
        all := all + [BadKeystoneEndpoint];
      }
      return Some(all);
    }

    ghost predicate ApiUpdateError(previous: GlanceSpec, e: FieldError)
      reads this
    {
      && (e.BadApiTopology? || e.InvalidBackend? || e.LayoutChanged? || e.BadOverride? || e.BadProbes?)
      && UpdateError(name, previous, spec, true, e)
    }

    /** The checks of one API at update; a newly added API is left after the backend check. */
    method ValidateApiUpdate(previous: GlanceSpec, key: string, top: bool) returns (errs: Option<seq<FieldError>>)
      requires key in spec.apis && IsFileBackend(spec.customServiceConfig, true) == Some(top)
      ensures errs.None? <==> IsInvalidBackend(spec.apis[key], top) == None
      ensures errs.Some? ==> forall e :: e in errs.value <==> ApiUpdateError(previous, e) && e.key == key
    {
      errs := ValidateTopologyAndBackend(key, top);
      if errs.None? {
        return;
      }
      if key !in previous.apis {
        return;
      }
      if spec.apis[key].layout != previous.apis[key].layout {
        errs := Some(errs.value + [LayoutChanged(key)]);
      }
      var more := ValidateOverrides(key);
      errs := Some(errs.value + more);
    }

    method ValidateApisUpdate(previous: GlanceSpec, top: bool) returns (errs: Option<seq<FieldError>>)
      requires IsFileBackend(spec.customServiceConfig, true) == Some(top)
      ensures errs.None? <==> exists k :: k in spec.apis && IsInvalidBackend(spec.apis[k], top) == None
      ensures errs.Some? ==> forall e :: e in errs.value <==> ApiUpdateError(previous, e)
    {
      var rest := spec.apis.Keys;
      var all := [];
      while rest != {}
        invariant rest <= spec.apis.Keys
        invariant forall k :: k in spec.apis && k !in rest ==> IsInvalidBackend(spec.apis[k], top).Some?
        invariant forall e :: e in all <==> ApiUpdateError(previous, e) && e.key !in rest
        decreases rest
      {
        var key :| key in rest;
        var found := ValidateApiUpdate(previous, key, top);
        if found.None? {
          return None;
        }
        all := all + found.value;
        rest := rest - {key};
      }
      return Some(all);
    }

    method ValidateUpdate(previous: GlanceSpec, deprecatedOk: bool) returns (errs: Option<seq<FieldError>>)
      ensures errs.None? <==> Panics(spec)
      ensures errs.Some? ==> forall e :: e in errs.value <==> UpdateError(name, previous, spec, deprecatedOk, e)
    {
      var top := IsFileBackend(spec.customServiceConfig, true);
      if top.None? {
        return None;
      }
      var all := ValidateNames();
      if !deprecatedOk {
        all := all + [DeprecatedField];
      }
      if !spec.topologyOk {
        all := all + [BadTopology];
      }
      var found := ValidateApisUpdate(previous, top.value);
      if found.None? {
        return None;
      }
      all := all + found.value;
      var keystone := IsValidKeystoneEP();
      if !keystone {
        all := all + [BadKeystoneEndpoint];
      }
      return Some(all);
    }
  }
}
