/** How the parent fills in an API template before it writes it to a GlanceAPI object, and the volume claims
    a GlanceAPI then asks for (internal/controller/glance_controller.go, internal/glance/pvc.go,
    internal/glanceapi/statefulset.go). */
module Inheritance {
  import opened Text
  import opened GlanceTypes
  import EnabledBackends
  import Webhook
  import Admission

  function Inherit(g: GlanceSpec, api: ApiTemplate): ApiTemplate {
    api.(
      nodeSelector := if api.nodeSelector == None then g.nodeSelector else api.nodeSelector,
      imageCache := api.imageCache.(
        size := if api.imageCache.size == "" then g.imageCache.size else api.imageCache.size),
      storage := Storage(
        if api.storage.storageClass == "" then g.storage.storageClass else api.storage.storageClass,
        if api.storage.storageRequest == "" then g.storage.storageRequest else api.storage.storageRequest,
        api.storage.external || g.storage.external),
      topologyRef := if api.topologyRef == None then g.topologyRef else api.topologyRef,
      customServiceConfig :=
        if api.customServiceConfig == "" then g.customServiceConfig else api.customServiceConfig,
      customServiceConfigSecrets :=
        if api.customServiceConfigSecrets == [] then g.customServiceConfigSecrets else api.customServiceConfigSecrets)
  }

  /** The spec of the GlanceAPI object of type t for the API named k. */
  function ChildSpec(g: GlanceSpec, k: string, t: ApiType): ApiSpec
    requires k in g.apis
  {
    ApiSpec(k, t, g.containerImage, Inherit(g, g.apis[k]))
  }

  /** The value is the API's own one if it is set, and the top level's otherwise. */
  predicate Chosen<T(==)>(value: T, own: T, top: T, unset: T) {
    (own != unset ==> value == own) && (own == unset ==> value == top)
  }

  /** What a GlanceAPI object of an API should carry, field by field: which API and type it is, the one image,
      the inherited fields, and everything else as the API says. */
  predicate Asked(s: ApiSpec, g: GlanceSpec, k: string, t: ApiType)
    requires k in g.apis
  {
    var own, api := g.apis[k], s.template;
    && s.apiName == k && s.apiType == t && s.containerImage == g.containerImage
    && Chosen(api.nodeSelector, own.nodeSelector, g.nodeSelector, None)
    && Chosen(api.topologyRef, own.topologyRef, g.topologyRef, None)
    && Chosen(api.imageCache.size, own.imageCache.size, g.imageCache.size, "")
    && Chosen(api.storage.storageClass, own.storage.storageClass, g.storage.storageClass, "")
    && Chosen(api.storage.storageRequest, own.storage.storageRequest, g.storage.storageRequest, "")
    && (api.storage.external <==> own.storage.external || g.storage.external)
    && Chosen(api.customServiceConfig, own.customServiceConfig, g.customServiceConfig, "")
    && Chosen(api.customServiceConfigSecrets, own.customServiceConfigSecrets, g.customServiceConfigSecrets, [])
    && api.replicas == own.replicas && api.layout == own.layout && api.apiTimeout == own.apiTimeout
    && api.imageCache.cleanerScheduler == own.imageCache.cleanerScheduler
    && api.imageCache.prunerScheduler == own.imageCache.prunerScheduler
    && api.appCredentialSecret == own.appCredentialSecret && api.checks == own.checks
  }

  /** The merged spec is what is asked for, and nothing else is. */
  lemma AskedExactly(s: ApiSpec, g: GlanceSpec, k: string, t: ApiType)
    requires k in g.apis
    ensures Asked(s, g, k, t) <==> s == ChildSpec(g, k, t)
  {
  }

  // ----- Volume claims -----

  datatype Claim = Claim(name: string, size: string, storageClass: string, imageCache: bool)

  const LOCAL_CLAIM := "glance"
  const CACHE_CLAIM := "glance-cache"

  /** The claim templates of the StatefulSet of a GlanceAPI. */
  function ClaimTemplates(storage: Storage, cacheSize: string): seq<Claim> {
    (if storage.external then [] else [Claim(LOCAL_CLAIM, storage.storageRequest, storage.storageClass, false)])
    + (if cacheSize == "" then [] else [Claim(CACHE_CLAIM, cacheSize, storage.storageClass, true)])
  }

  function Claims(api: ApiTemplate): seq<Claim> {
    ClaimTemplates(api.storage, api.imageCache.size)
  }

  /** Local storage is claimed unless it is external, and a cache if it has a size, each under its own name,
      with its own size, in the one storage class; only the cache's claim is annotated as such. */
  lemma ClaimsSpelled(storage: Storage, cacheSize: string)
    ensures
      var local := Claim("glance", storage.storageRequest, storage.storageClass, false);
      var cache := Claim("glance-cache", cacheSize, storage.storageClass, true);
      var claims := ClaimTemplates(storage, cacheSize);
      && (forall c :: c in claims <==> (c == local && !storage.external) || (c == cache && cacheSize != ""))
      && |claims| == (if storage.external then 0 else 1) + (if cacheSize == "" then 0 else 1)
  {
    var claims := ClaimTemplates(storage, cacheSize);
    assert !storage.external ==> claims[0] in claims;
    assert cacheSize != "" ==> claims[|claims| - 1] in claims;
  }

  /** Every claim of every GlanceAPI of a defaulted Glance has a size: none is left without a request by an
      API that turns local storage on while the top level gives no size, nor the other way round. */
  lemma ClaimsHaveSizes(g: GlanceSpec, d: Webhook.Defaults, k: string, t: ApiType)
    requires k in Webhook.Defaulted(g, d).apis
    ensures forall c :: c in Claims(ChildSpec(Webhook.Defaulted(g, d), k, t).template) ==> c.size != ""
  {
    Admission.DefaultedShape(g, d);
  }

  // ----- The file verdict of the webhook against the configuration really deployed -----

  /** The webhook judges an API by its own configuration and a flag computed from the top level; the
      GlanceAPI runs with the inherited configuration. The two verdicts agree exactly when the API has no
      configuration of its own, or has one that lists its stores, or the top level is File (or lists
      nothing) as well. */
  lemma VerdictAgreesExactly(g: GlanceSpec, api: ApiTemplate)
    requires EnabledBackends.Parse(g.customServiceConfig).Some?
    requires EnabledBackends.Parse(api.customServiceConfig).Some?
    ensures
      var top := Webhook.IsFileBackend(g.customServiceConfig, true).value;
      var webhook := Webhook.IsFileBackend(api.customServiceConfig, top);
      var deployed := Webhook.IsFileBackend(Inherit(g, api).customServiceConfig, true);
      webhook == deployed <==>
        api.customServiceConfig == "" || EnabledBackends.HasKeyLine(api.customServiceConfig) || top
  {
    if api.customServiceConfig == "" {
      EmptyConfigListsNothing();
    } else {
      EnabledBackends.EmptyAndPanicExactly(api.customServiceConfig);
    }
  }

  /** A split API with replicas that the webhook has admitted is deployed on File if and only if it has a
      configuration of its own that lists no stores, while the top level is not File. */
  lemma SplitOnFileExactly(name: string, g: GlanceSpec, k: string)
    requires Admission.Admissible(name, g)
    requires k in g.apis && g.apis[k].layout == SplitLayout && g.apis[k].replicas != 0
    ensures
      var api := g.apis[k];
      Webhook.IsFileBackend(Inherit(g, api).customServiceConfig, true) == Some(true) <==>
        && api.customServiceConfig != "" && !EnabledBackends.HasKeyLine(api.customServiceConfig)
        && Webhook.IsFileBackend(g.customServiceConfig, true) == Some(false)
  {
    if g.apis[k].customServiceConfig == "" {
      EmptyConfigListsNothing();
    } else {
      EnabledBackends.EmptyAndPanicExactly(g.apis[k].customServiceConfig);
    }
  }

  lemma EmptyConfigListsNothing()
    ensures EnabledBackends.Parse("") == Some([])
  {
    assert Split("", '\n') == [""];
    assert TrimSpace("") == "" && RemoveSpaces("") == "";
    assert EnabledBackends.Tokens("") == ("", None);
    assert EnabledBackends.ParseLines([""]) == EnabledBackends.ParseLines([""][1..]);
  }
}
