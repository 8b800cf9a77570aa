/** The pod a GlanceAPI runs in: volumes, mounts and volume claim templates, appended under many flags
    (internal/glanceapi/statefulset.go, internal/glance/volumes.go, internal/glance/pvc.go). */
module PodBuilder {
  import opened Text
  import opened GlanceTypes
  import opened Inheritance
  import opened KeystoneEndpoints

  datatype Source = Secret(secretName: string) | EmptyDir | HostPath(path: string) | LibrarySource

  datatype Volume = Volume(name: string, source: Source)

  datatype Mount = Mount(name: string, path: string, subPath: string, readOnly: bool)

  /** One secret as the library attaches it to a pod: a volume and mounts of that volume. */
  datatype Attachment = Attachment(volume: Volume, paths: seq<string>)

  /** An entry of extraMounts. */
  datatype VolMounts = VolMounts(propagation: seq<string>, volumes: seq<Volume>, mounts: seq<Mount>)

  /** The library's filter on propagation types. */
  type Filter = (VolMounts, seq<string>) -> seq<VolMounts>

  /** What the builder reads of a GlanceAPI. tls holds the enabled endpoints, with None where the settings
      cannot be converted; memcached and ca are there when the secret is named. */
  datatype PodSpec = PodSpec(
    name: string,
    apiName: string,
    apiType: ApiType,
    replicas: nat,
    storage: Storage,
    cacheSize: string,
    configSecrets: seq<Attachment>,
    extraMounts: seq<seq<VolMounts>>,
    ca: Option<Attachment>,
    memcached: Option<Attachment>,
    tls: map<Endpoint, Option<Attachment>>)

  datatype Container = Container(name: string, mounts: seq<Mount>)

  datatype Pod = Pod(
    name: string,
    replicas: nat,
    hostPid: bool,
    containers: seq<Container>,
    volumes: seq<Volume>,
    claims: seq<Claim>)

  const CONFIG_DIR_VOLUME := "glance-config-dir"
  const LOG_VOLUME := "logs"
  const RUN_HTTPD_VOLUME := "run-httpd"
  const CONF_DIR := "/etc/glance/glance.conf.d"
  const DEFAULTS_CONFIG := "00-config.conf"
  const CUSTOM_CONFIG := "02-config.conf"
  const CUSTOM_CONFIG_SECRETS := "03-config.conf"

  // ----- What the parts of a pod are -----

  /** Host paths os-brick needs. */
  function CinderVolumes(hasCinder: bool): seq<Volume> {
    if hasCinder then [
      Volume("etc-iscsi", HostPath("/etc/iscsi")),
      Volume("dev", HostPath("/dev")),
      Volume("lib-modules", HostPath("/lib/modules")),
      Volume("run", HostPath("/run")),
      Volume("sys", HostPath("/sys")),
      Volume("var-locks-brick", HostPath("/var/locks/openstack/os-brick")),
      Volume("etc-nvme", HostPath("/etc/nvme"))]
    else []
  }

  function RunOnHost(path: string): Mount {
    Mount("scripts", path, "run-on-host", false)
  }

  function CinderMounts(hasCinder: bool): seq<Mount> {
    if hasCinder then [
      Mount("etc-iscsi", "/etc/iscsi", "", true),
      Mount("dev", "/dev", "", false),
      Mount("lib-modules", "/lib/modules", "", true),
      Mount("run", "/run", "", false),
      Mount("sys", "/sys", "", false),
      Mount("var-locks-brick", "/var/locks/openstack/os-brick", "", false),
      Mount("etc-nvme", "/etc/nvme", "", false),
      RunOnHost("/usr/sbin/multipath"), RunOnHost("/usr/sbin/multipathd"), RunOnHost("/usr/sbin/iscsiadm"),
      RunOnHost("/lib/udev/scsi_id"), RunOnHost("/usr/sbin/nvme")]
    else []
  }

  function ConfigFile(path: string, file: string): Mount {
    Mount("config-data", path, file, true)
  }

  const BASE_MOUNTS := [
    Mount(CONFIG_DIR_VOLUME, CONF_DIR, "", false),
    ConfigFile(CONF_DIR + "/" + DEFAULTS_CONFIG, DEFAULTS_CONFIG),
    ConfigFile(CONF_DIR + "/" + CUSTOM_CONFIG, CUSTOM_CONFIG),
    ConfigFile(CONF_DIR + "/" + CUSTOM_CONFIG_SECRETS, CUSTOM_CONFIG_SECRETS),
    ConfigFile("/etc/my.cnf", "my.cnf")]

  function HttpdMounts(wsgi: bool): seq<Mount> {
    var vhost := if wsgi then "10-glance-wsgi.conf" else "10-glance-proxypass.conf";
    [ConfigFile("/etc/httpd/conf/httpd.conf", "httpd.conf"),
     ConfigFile("/etc/httpd/conf.d/" + vhost, vhost),
     ConfigFile("/etc/httpd/conf.d/ssl.conf", "ssl.conf")]
  }

  function AttachedVolumes(attached: seq<Attachment>): seq<Volume> {
    if attached == [] then []
    else AttachedVolumes(attached[..|attached| - 1]) + [attached[|attached| - 1].volume]
  }

  function MountsOf(a: Attachment): seq<Mount> {
    seq(|a.paths|, i requires 0 <= i < |a.paths| => Mount(a.volume.name, a.paths[i], "", true))
  }

  function AttachedMounts(attached: seq<Attachment>): seq<Mount> {
    if attached == [] then []
    else AttachedMounts(attached[..|attached| - 1]) + MountsOf(attached[|attached| - 1])
  }

  /** The extraMounts entries propagated to a service, group by group. */
  function Propagated(extra: seq<VolMounts>, svc: seq<string>, lib: Filter): seq<VolMounts> {
    if extra == [] then [] else Propagated(extra[..|extra| - 1], svc, lib) + lib(extra[|extra| - 1], svc)
  }

  function ExtraVolumes(extra: seq<VolMounts>): seq<Volume> {
    if extra == [] then [] else ExtraVolumes(extra[..|extra| - 1]) + extra[|extra| - 1].volumes
  }

  function ExtraMounts(extra: seq<VolMounts>): seq<Mount> {
    if extra == [] then [] else ExtraMounts(extra[..|extra| - 1]) + extra[|extra| - 1].mounts
  }

  function AllPropagated(groups: seq<seq<VolMounts>>, svc: seq<string>, lib: Filter): seq<VolMounts> {
    if groups == [] then []
    else AllPropagated(groups[..|groups| - 1], svc, lib) + Propagated(groups[|groups| - 1], svc, lib)
  }

  function ServiceVolumes(name: string, hasCinder: bool, secrets: seq<Attachment>, extra: seq<VolMounts>): seq<Volume> {
    [Volume("config-data", Secret(name + "-config-data"))] + ExtraVolumes(extra) + AttachedVolumes(secrets)
    + CinderVolumes(hasCinder)
  }

  function FixedMounts(external: bool, httpd: bool, wsgi: bool): seq<Mount> {
    BASE_MOUNTS
    + (if httpd then HttpdMounts(wsgi) else [])
    + if external then [] else [Mount(LOCAL_CLAIM, "/var/lib/glance", "", false)]
  }

  function ServiceMounts(secrets: seq<Attachment>, hasCinder: bool, external: bool, extra: seq<VolMounts>,
                         httpd: bool, wsgi: bool): seq<Mount> {
    FixedMounts(external, httpd, wsgi) + ExtraMounts(extra) + AttachedMounts(secrets)
    + CinderMounts(hasCinder)
  }

  const API_VOLUMES := [
    Volume(CONFIG_DIR_VOLUME, EmptyDir), Volume(LOG_VOLUME, EmptyDir),
    Volume("scripts", Secret("glance-scripts")), Volume(RUN_HTTPD_VOLUME, EmptyDir)]

  function ApiMounts(cacheSize: string): seq<Mount> {
    [Mount(LOG_VOLUME, "/var/log/glance", "", false),
     Mount("scripts", "/usr/local/bin/container-scripts", "", true),
     Mount(RUN_HTTPD_VOLUME, "/run/httpd", "", false)]
    + if cacheSize == "" then [] else [Mount(CACHE_CLAIM, "/var/lib/glance/image-cache", "", false)]
  }

  /** The endpoints of a GlanceAPI, sorted by name so that the pod does not change between passes. */
  function SortedEndpoints(t: ApiType): (r: seq<Endpoint>)
    ensures forall e :: e in r <==> e in EndpointsOf(t)
  {
    match t
    case Internal | Edge => [InternalEndpoint]
    case External => [Public]
    case Single => [InternalEndpoint, Public]
  }

  /** The certificates of the enabled endpoints; None when the settings of one cannot be converted. */
  function TlsAttachments(endpoints: seq<Endpoint>, tls: map<Endpoint, Option<Attachment>>): Option<seq<Attachment>> {
    if endpoints == [] then Some([])
    else
      var n := |endpoints| - 1;
      match TlsAttachments(endpoints[..n], tls)
      case None => None
      case Some(before) =>
        if endpoints[n] !in tls then Some(before)
        else if tls[endpoints[n]] == None then None
        else Some(before + [tls[endpoints[n]].value])
  }

  function Optional<T>(o: Option<T>): seq<T> {
    match o
    case None => []
    case Some(x) => [x]
  }

  /** The propagation types of a GlanceAPI pod. */
  function Services(spec: PodSpec): seq<string> {
    ["Glance", "GlanceAPI", spec.apiName]
  }

  function Extra(spec: PodSpec, lib: Filter): seq<VolMounts> {
    AllPropagated(spec.extraMounts, Services(spec), lib)
  }

  /** The mounts of the container that serves the API (httpd), or of the one behind it. */
  function ServingMounts(spec: PodSpec, privileged: bool, wsgi: bool, httpd: bool, extra: seq<VolMounts>,
                         attached: seq<Attachment>): seq<Mount> {
    ServiceMounts(spec.configSecrets, privileged, spec.storage.external, extra, httpd, wsgi)
    + (ApiMounts(spec.cacheSize) + AttachedMounts(attached))
  }

  function Containers(spec: PodSpec, privileged: bool, wsgi: bool, extra: seq<VolMounts>, attached: seq<Attachment>)
    : seq<Container> {
    var log := Container("glance-log", [Mount(LOG_VOLUME, "/var/log/glance", "", false)]);
    var httpd := Container("glance-httpd", ServingMounts(spec, privileged, wsgi, true, extra, attached));
    if wsgi then [log, httpd]
    else [log, httpd, Container("glance-api", ServingMounts(spec, privileged, wsgi, false, extra, attached))]
  }

  function PodFor(spec: PodSpec, privileged: bool, wsgi: bool, lib: Filter, tls: seq<Attachment>): Pod {
    var extra, attached := Extra(spec, lib), Optional(spec.ca) + Optional(spec.memcached) + tls;
    Pod(StatefulSetName(spec.name, spec.apiType), spec.replicas, privileged,
        Containers(spec, privileged, wsgi, extra, attached),
        ServiceVolumes(spec.name, privileged, spec.configSecrets, extra) + (API_VOLUMES + AttachedVolumes(attached)),
        ClaimTemplates(spec.storage, spec.cacheSize))
  }

  /** Sizes are parsed by a library; an unparsable one is an error. */
  predicate SizesParse(spec: PodSpec, parses: string -> bool) {
    forall c :: c in ClaimTemplates(spec.storage, spec.cacheSize) ==> parses(c.size)
  }

  // ----- The builder -----

  method PropagateGroup(group: seq<VolMounts>, svc: seq<string>, lib: Filter) returns (vl: seq<VolMounts>)
    ensures vl == Propagated(group, svc, lib)
  {
    vl := [];
    for n := 0 to |group|
      invariant vl == Propagated(group[..n], svc, lib)
    {
      assert group[..n + 1][..n] == group[..n];
      vl := vl + lib(group[n], svc);
    }
    assert group[..|group|] == group;
  }

  lemma Assoc<T>(a: seq<T>, b: seq<T>, c: seq<T>)
    ensures (a + b) + c == a + (b + c)
  {
  }

  lemma {:induction false} ExtraVolumesAppend(a: seq<VolMounts>, b: seq<VolMounts>)
    ensures ExtraVolumes(a + b) == ExtraVolumes(a) + ExtraVolumes(b)
  {
    if b == [] {
      assert a + b == a;
    } else {
      var n := |b| - 1;
      ExtraVolumesAppend(a, b[..n]);
      assert (a + b)[..|a| + n] == a + b[..n];
      Assoc(ExtraVolumes(a), ExtraVolumes(b[..n]), b[n].volumes);
    }
  }

  lemma {:induction false} ExtraMountsAppend(a: seq<VolMounts>, b: seq<VolMounts>)
    ensures ExtraMounts(a + b) == ExtraMounts(a) + ExtraMounts(b)
  {
    if b == [] {
      assert a + b == a;
    } else {
      var n := |b| - 1;
      ExtraMountsAppend(a, b[..n]);
      assert (a + b)[..|a| + n] == a + b[..n];
      Assoc(ExtraMounts(a), ExtraMounts(b[..n]), b[n].mounts);
    }
  }

  method AppendVolumes(vm: seq<Volume>, vols: seq<VolMounts>) returns (r: seq<Volume>)
    ensures r == vm + ExtraVolumes(vols)
  {
    r := vm;
    for n := 0 to |vols|
      invariant r == vm + ExtraVolumes(vols[..n])
    {
      assert vols[..n + 1][..n] == vols[..n];
      for k := 0 to |vols[n].volumes|
        invariant r == vm + ExtraVolumes(vols[..n]) + vols[n].volumes[..k]
      {
        r := r + [vols[n].volumes[k]];
      }
    }
    assert vols[..|vols|] == vols;
  }

  method AppendExtraVolumes(vm: seq<Volume>, groups: seq<seq<VolMounts>>, svc: seq<string>, lib: Filter)
    returns (r: seq<Volume>)
    ensures r == vm + ExtraVolumes(AllPropagated(groups, svc, lib))
  {
    r := vm;
    for n := 0 to |groups|
      invariant r == vm + ExtraVolumes(AllPropagated(groups[..n], svc, lib))
    {
      assert groups[..n + 1][..n] == groups[..n];
      var vols := PropagateGroup(groups[n], svc, lib);
      r := AppendVolumes(r, vols);
      ghost var done := AllPropagated(groups[..n], svc, lib);
      ExtraVolumesAppend(done, vols);
      Assoc(vm, ExtraVolumes(done), ExtraVolumes(vols));
    }
    assert groups[..|groups|] == groups;
  }

  method GetVolumes(name: string, hasCinder: bool, secrets: seq<Attachment>, groups: seq<seq<VolMounts>>,
                    svc: seq<string>, lib: Filter) returns (vm: seq<Volume>)
    ensures vm == ServiceVolumes(name, hasCinder, secrets, AllPropagated(groups, svc, lib))
  {
    vm := [Volume("config-data", Secret(name + "-config-data"))];
    vm := AppendExtraVolumes(vm, groups, svc, lib);
    vm := vm + AttachedVolumes(secrets);
    if hasCinder {
      vm := vm + CinderVolumes(true);
    } else {
      assert vm + [] == vm;
    }
  }

  method AppendMounts(vm: seq<Mount>, vols: seq<VolMounts>) returns (r: seq<Mount>)
    ensures r == vm + ExtraMounts(vols)
  {
    r := vm;
    for n := 0 to |vols|
      invariant r == vm + ExtraMounts(vols[..n])
    {
      assert vols[..n + 1][..n] == vols[..n];
      r := r + vols[n].mounts;
      Assoc(vm, ExtraMounts(vols[..n]), vols[n].mounts);
    }
    assert vols[..|vols|] == vols;
  }

  method AppendExtraMounts(vm: seq<Mount>, groups: seq<seq<VolMounts>>, svc: seq<string>, lib: Filter)
    returns (r: seq<Mount>)
    ensures r == vm + ExtraMounts(AllPropagated(groups, svc, lib))
  {
    r := vm;
    for n := 0 to |groups|
      invariant r == vm + ExtraMounts(AllPropagated(groups[..n], svc, lib))
    {
      assert groups[..n + 1][..n] == groups[..n];
      var vols := PropagateGroup(groups[n], svc, lib);
      r := AppendMounts(r, vols);
      ghost var done := AllPropagated(groups[..n], svc, lib);
      ExtraMountsAppend(done, vols);
      Assoc(vm, ExtraMounts(done), ExtraMounts(vols));
    }
    assert groups[..|groups|] == groups;
  }

  /** The configuration files, the httpd files and the local claim. */
  method GetFixedMounts(external: bool, httpd: bool, wsgi: bool) returns (vm: seq<Mount>)
    ensures vm == FixedMounts(external, httpd, wsgi)
  {
    vm := BASE_MOUNTS;
    if httpd {
      var vhost := "10-glance-proxypass.conf";
      if wsgi {
        vhost := "10-glance-wsgi.conf";
      }
      vm := vm + [ConfigFile("/etc/httpd/conf/httpd.conf", "httpd.conf"),
                  ConfigFile("/etc/httpd/conf.d/" + vhost, vhost),
                  ConfigFile("/etc/httpd/conf.d/ssl.conf", "ssl.conf")];
    }
    assert vm == BASE_MOUNTS + if httpd then HttpdMounts(wsgi) else [];
    if !external {
      vm := vm + [Mount(LOCAL_CLAIM, "/var/lib/glance", "", false)];
    }
  }

  method GetVolumeMounts(secrets: seq<Attachment>, hasCinder: bool, external: bool, groups: seq<seq<VolMounts>>,
                         svc: seq<string>, httpd: bool, wsgi: bool, lib: Filter) returns (vm: seq<Mount>)
    ensures vm == ServiceMounts(secrets, hasCinder, external, AllPropagated(groups, svc, lib), httpd, wsgi)
  {
    vm := GetFixedMounts(external, httpd, wsgi);
    vm := AppendExtraMounts(vm, groups, svc, lib);
    vm := vm + AttachedMounts(secrets);
    if hasCinder {
      vm := vm + CinderMounts(true);
    } else {
      assert vm + [] == vm;
    }
  }

  method GetApiVolumeMount(cacheSize: string) returns (vm: seq<Mount>)
    ensures vm == ApiMounts(cacheSize)
  {
    vm := [Mount(LOG_VOLUME, "/var/log/glance", "", false)];
    vm := vm + [Mount("scripts", "/usr/local/bin/container-scripts", "", true)];
    vm := vm + [Mount(RUN_HTTPD_VOLUME, "/run/httpd", "", false)];
    if |cacheSize| > 0 {
      vm := vm + [Mount(CACHE_CLAIM, "/var/lib/glance/image-cache", "", false)];
    }
  }

  /** The claim template of one kind, or None when its size does not parse. */
  method GetPvc(storage: Storage, cacheSize: string, cache: bool, parses: string -> bool) returns (claim: Option<Claim>)
    ensures
      var name := if cache then CACHE_CLAIM else LOCAL_CLAIM;
      var size := if cache then cacheSize else storage.storageRequest;
      claim == if parses(size) then Some(Claim(name, size, storage.storageClass, cache)) else None
  {
    var pvcName, requestSize, annotated := LOCAL_CLAIM, storage.storageRequest, false;
    if cache {
      annotated := true;
      requestSize := cacheSize;
      pvcName := LOCAL_CLAIM + "-cache";
    }
    if !parses(requestSize) {
      return None;
    }
    assert LOCAL_CLAIM + "-cache" == CACHE_CLAIM;
    return Some(Claim(pvcName, requestSize, storage.storageClass, annotated));
  }

  method GetClaims(spec: PodSpec, parses: string -> bool) returns (claims: Option<seq<Claim>>)
    ensures claims == if SizesParse(spec, parses) then Some(ClaimTemplates(spec.storage, spec.cacheSize)) else None
  {
    var all := [];
    if !spec.storage.external {
      var local := GetPvc(spec.storage, spec.cacheSize, false, parses);
      if local == None {
        assert ClaimTemplates(spec.storage, spec.cacheSize)[0].size == spec.storage.storageRequest;
        return None;
      }
      all := [local.value];
    }
    if |spec.cacheSize| > 0 {
      var cache := GetPvc(spec.storage, spec.cacheSize, true, parses);
      if cache == None {
        assert ClaimTemplates(spec.storage, spec.cacheSize)[|all|].size == spec.cacheSize;
        return None;
      }
      all := all + [cache.value];
    }
    assert all == ClaimTemplates(spec.storage, spec.cacheSize);
    return Some(all);
  }

  method GetTls(spec: PodSpec) returns (attached: Option<seq<Attachment>>)
    ensures attached == TlsAttachments(SortedEndpoints(spec.apiType), spec.tls)
  {
    var endpoints, all := SortedEndpoints(spec.apiType), [];
    for n := 0 to |endpoints|
      invariant TlsAttachments(endpoints[..n], spec.tls) == Some(all)
    {
      assert endpoints[..n + 1][..n] == endpoints[..n];
      if endpoints[n] in spec.tls {
        if spec.tls[endpoints[n]] == None {
          TlsFails(endpoints, n + 1, spec.tls);
          return None;
        }
        all := all + [spec.tls[endpoints[n]].value];
      }
    }
    assert endpoints[..|endpoints|] == endpoints;
    return Some(all);
  }

  lemma {:induction false} TlsFails(endpoints: seq<Endpoint>, n: nat, tls: map<Endpoint, Option<Attachment>>)
    requires n <= |endpoints| && TlsAttachments(endpoints[..n], tls) == None
    ensures TlsAttachments(endpoints, tls) == None
    decreases |endpoints| - n
  {
    if n == |endpoints| {
      assert endpoints[..n] == endpoints;
    } else {
      assert endpoints[..n + 1][..n] == endpoints[..n];
      TlsFails(endpoints, n + 1, tls);
    }
  }

  method GetContainers(spec: PodSpec, privileged: bool, wsgi: bool, svc: seq<string>, attached: seq<Attachment>,
                       lib: Filter)
    returns (containers: seq<Container>)
    requires svc == Services(spec)
    ensures containers == Containers(spec, privileged, wsgi, Extra(spec, lib), attached)
  {
    var apiMounts := GetApiVolumeMount(spec.cacheSize);
    apiMounts := apiMounts + AttachedMounts(attached);
    var httpd := GetVolumeMounts(
        spec.configSecrets, privileged, spec.storage.external, spec.extraMounts, svc, true, wsgi, lib);
    containers := [Container("glance-log", [Mount(LOG_VOLUME, "/var/log/glance", "", false)]),
                   Container("glance-httpd", httpd + apiMounts)];
    if !wsgi {
      var api := GetVolumeMounts(
        spec.configSecrets, privileged, spec.storage.external, spec.extraMounts, svc, false, wsgi, lib);
      containers := containers + [Container("glance-api", api + apiMounts)];
    }
  }

  method StatefulSet(spec: PodSpec, privileged: bool, wsgi: bool, probesOk: bool, parses: string -> bool, lib: Filter)
    returns (pod: Option<Pod>)
    ensures
      var tls := TlsAttachments(SortedEndpoints(spec.apiType), spec.tls);
      pod == if probesOk && tls.Some? && SizesParse(spec, parses)
             then Some(PodFor(spec, privileged, wsgi, lib, tls.value)) else None
  {
    if !probesOk {
      return None;
    }
    var svc := ["Glance", "GlanceAPI"] + [spec.apiName];
    assert svc == Services(spec);
    var tls := GetTls(spec);
    if tls == None {
      return None;
    }
    var attached := Optional(spec.ca) + Optional(spec.memcached) + tls.value;
    var stsName := spec.name;
    if spec.apiType != Single {
      stsName := stsName + "-api";
    }
    var containers := GetContainers(spec, privileged, wsgi, svc, attached, lib);
    var claims := GetClaims(spec, parses);
    if claims == None {
      return None;
    }
    var volumes := GetVolumes(spec.name, privileged, spec.configSecrets, spec.extraMounts, svc, lib);
    return Some(Pod(stsName, spec.replicas, privileged, containers,
                    volumes + (API_VOLUMES + AttachedVolumes(attached)), claims.value));
  }
}
