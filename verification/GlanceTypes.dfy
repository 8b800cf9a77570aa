/** The custom resources of the operator, reduced to the fields its decisions read
    (api/v1beta1/glance_types.go, common_types.go, glanceapi_types.go), and the names derived from them. */
module GlanceTypes {
  import opened Text

  /** `type` of an API template; NoLayout is the empty string. */
  datatype Layout = NoLayout | SplitLayout | SingleLayout | EdgeLayout

  /** `apiType` of a GlanceAPI object. */
  datatype ApiType = Internal | External | Single | Edge

  datatype Storage = Storage(storageClass: string, storageRequest: string, external: bool)

  datatype ImageCache = ImageCache(size: string, cleanerScheduler: string, prunerScheduler: string)

  /** Verdicts of the library validators on an API's topology reference, service overrides and probes. */
  datatype LibraryChecks = LibraryChecks(topology: bool, overrides: bool, probes: bool)

  datatype ApiTemplate = ApiTemplate(
    replicas: nat,
    layout: Layout,
    customServiceConfig: string,
    customServiceConfigSecrets: seq<string>,
    storage: Storage,
    imageCache: ImageCache,
    apiTimeout: int,
    appCredentialSecret: string,
    nodeSelector: Option<map<string, string>>,
    topologyRef: Option<string>,
    checks: LibraryChecks)

  datatype GlanceSpec = GlanceSpec(
    containerImage: string,
    customServiceConfig: string,
    customServiceConfigSecrets: seq<string>,
    storage: Storage,
    imageCache: ImageCache,
    keystoneEndpoint: string,
    apiTimeout: int,
    dbPurgeAge: int,
    dbPurgeSchedule: string,
    nodeSelector: Option<map<string, string>>,
    topologyRef: Option<string>,
    topologyOk: bool,
    apis: map<string, ApiTemplate>)

  /** The spec of a GlanceAPI object; apiName is its api-name label. */
  datatype ApiSpec = ApiSpec(apiName: string, apiType: ApiType, containerImage: string, template: ApiTemplate)

  datatype Endpoint = Public | InternalEndpoint

  function LayoutName(layout: Layout): string {
    match layout
    case NoLayout => ""
    case SplitLayout => "split"
    case SingleLayout => "single"
    case EdgeLayout => "edge"
  }

  function TypeName(t: ApiType): string {
    match t
    case Internal => "internal"
    case External => "external"
    case Single => "single"
    case Edge => "edge"
  }

  function EndpointName(e: Endpoint): string {
    match e
    case Public => "public"
    case InternalEndpoint => "internal"
  }

  /** The object types deployed for a layout: split means an external and an internal GlanceAPI. */
  function LayoutTypes(layout: Layout): set<ApiType> {
    match layout
    case NoLayout | SplitLayout => {External, Internal}
    case SingleLayout => {Single}
    case EdgeLayout => {Edge}
  }

  /** Name of the GlanceAPI object of an API. */
  function ChildName(glance: string, apiName: string, t: ApiType): string {
    glance + "-" + apiName + "-" + TypeName(t)
  }

  /** Name of the StatefulSet (and headless service) of a GlanceAPI object. */
  function StatefulSetName(name: string, t: ApiType): string {
    if t == Single then name else name + "-api"
  }

  /** Key of an API's endpoint in the parent's status map. */
  function EndpointKey(apiName: string, e: Endpoint): string {
    apiName + "-" + EndpointName(e)
  }

  /** ACConsumerFinalizerName: the finalizer one GlanceAPI puts on an application credential secret. */
  function ConsumerFinalizer(apiName: string, t: ApiType): string {
    "openstack.org/glance-" + (apiName + "-" + TypeName(t)) + "-ac-consumer"
  }

  lemma TypeNameShape(t: ApiType)
    ensures '-' !in TypeName(t)
  {
  }

  lemma TypeNameInjective(t: ApiType, u: ApiType)
    requires TypeName(t) == TypeName(u)
    ensures t == u
  {
    assert TypeName(t)[0] == TypeName(u)[0];
  }

  /** GlanceAPIs of one Glance never share a consumer finalizer, hyphens in their names included. */
  lemma ConsumerFinalizerInjective(a: string, t: ApiType, b: string, u: ApiType)
    requires ConsumerFinalizer(a, t) == ConsumerFinalizer(b, u)
    ensures a == b && t == u
  {
    var prefix := "openstack.org/glance-";
    var x, y := a + "-" + TypeName(t), b + "-" + TypeName(u);
    SuffixInjective(prefix + x, prefix + y, "-ac-consumer");
    assert x == (prefix + x)[|prefix|..] == (prefix + y)[|prefix|..] == y;
    TypeNameShape(t);
    TypeNameShape(u);
    HyphenInjective(a, TypeName(t), b, TypeName(u));
    TypeNameInjective(t, u);
  }

  /** Within one Glance the object name determines the API and the object type. */
  lemma ChildNameInjective(glance: string, a: string, t: ApiType, b: string, u: ApiType)
    requires ChildName(glance, a, t) == ChildName(glance, b, u)
    ensures a == b && t == u
  {
    TypeNameShape(t);
    TypeNameShape(u);
    HyphenInjective(glance + "-" + a, TypeName(t), glance + "-" + b, TypeName(u));
    TypeNameInjective(t, u);
    assert a == (glance + "-" + a)[|glance| + 1..] == (glance + "-" + b)[|glance| + 1..] == b;
  }

  lemma EndpointKeyInjective(a: string, e: Endpoint, b: string, f: Endpoint)
    requires EndpointKey(a, e) == EndpointKey(b, f)
    ensures a == b && e == f
  {
    HyphenInjective(a, EndpointName(e), b, EndpointName(f));
    assert EndpointName(e)[0] == EndpointName(f)[0];
  }

  /** No key of an API is one of another API. */
  lemma KeysElsewhere(k: string, j: string, e: Endpoint)
    requires j != k
    ensures EndpointKey(j, e) != EndpointKey(k, Public) && EndpointKey(j, e) != EndpointKey(k, InternalEndpoint)
  {
    if EndpointKey(j, e) == EndpointKey(k, Public) {
      EndpointKeyInjective(j, e, k, Public);
    }
    if EndpointKey(j, e) == EndpointKey(k, InternalEndpoint) {
      EndpointKeyInjective(j, e, k, InternalEndpoint);
    }
  }

  /** The names as the cluster sees them. */
  lemma NamesSpelled(glance: string, k: string, name: string)
    ensures ChildName(glance, k, External) == glance + "-" + k + "-" + "external"
    ensures ChildName(glance, k, Internal) == glance + "-" + k + "-" + "internal"
    ensures ChildName(glance, k, Single) == glance + "-" + k + "-" + "single"
    ensures ChildName(glance, k, Edge) == glance + "-" + k + "-" + "edge"
    ensures forall t :: StatefulSetName(name, t) == if t == Single then name else name + "-api"
    ensures EndpointKey(k, Public) == k + "-" + "public" && EndpointKey(k, InternalEndpoint) == k + "-" + "internal"
    ensures ConsumerFinalizer(k, Single) == "openstack.org/glance-" + (k + "-" + "single") + "-ac-consumer"
    ensures ConsumerFinalizer(k, Edge) == "openstack.org/glance-" + (k + "-" + "edge") + "-ac-consumer"
  {
  }
}
