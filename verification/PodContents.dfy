/** What a pod is made of, in the names and paths of the images (internal/glanceapi/statefulset.go,
    internal/glance/volumes.go). Whatever extraMounts brings comes on top. */
module PodContents {
  import opened Text
  import opened GlanceTypes
  import opened Inheritance
  import opened KeystoneEndpoints
  import opened PodBuilder
  import opened PodMounts

  /** The mounts extraMounts adds to every serving container. */
  function Added(spec: PodSpec, lib: Filter): seq<Mount> {
    ExtraMounts(Extra(spec, lib))
  }

  function Secrets(spec: PodSpec, tls: seq<Attachment>): seq<Attachment> {
    Optional(spec.ca) + Optional(spec.memcached) + tls
  }

  /** A mount is the operator's own exactly if it is one of these, and present also if extraMounts adds it. */
  predicate Own(m: Mount, spec: PodSpec, privileged: bool, wsgi: bool, httpd: bool) {
    || m in FixedMounts(spec.storage.external, httpd, wsgi)
    || m in CinderMounts(privileged) || m in ApiMounts(spec.cacheSize)
  }

  lemma ServingHas(m: Mount, spec: PodSpec, privileged: bool, wsgi: bool, httpd: bool, extra: seq<VolMounts>,
                   attached: seq<Attachment>)
    ensures m in ServingMounts(spec, privileged, wsgi, httpd, extra, attached) <==>
              || Own(m, spec, privileged, wsgi, httpd) || m in ExtraMounts(extra)
              || m in AttachedMounts(spec.configSecrets) || m in AttachedMounts(attached)
  {
  }

  lemma {:induction false} AttachedShape(attached: seq<Attachment>)
    ensures forall m :: m in AttachedMounts(attached) ==> m.subPath == "" && m.readOnly
  {
    if attached != [] {
      AttachedShape(attached[..|attached| - 1]);
    }
  }

  /** A file or a writable mount cannot come from a secret. */
  lemma NotAttached(m: Mount, spec: PodSpec, privileged: bool, wsgi: bool, httpd: bool, extra: seq<VolMounts>,
                    attached: seq<Attachment>)
    requires m.subPath != "" || !m.readOnly
    ensures m in ServingMounts(spec, privileged, wsgi, httpd, extra, attached) <==>
              Own(m, spec, privileged, wsgi, httpd) || m in ExtraMounts(extra)
  {
    ServingHas(m, spec, privileged, wsgi, httpd, extra, attached);
    AttachedShape(spec.configSecrets);
    AttachedShape(attached);
  }

  // ----- The web server -----

  const WSGI_VHOST := Mount(
    "config-data", "/etc/httpd/conf.d/" + "10-glance-wsgi.conf", "10-glance-wsgi.conf", true)
  const PROXY_VHOST := Mount(
    "config-data", "/etc/httpd/conf.d/" + "10-glance-proxypass.conf", "10-glance-proxypass.conf", true)
  const HTTPD_CONF := Mount("config-data", "/etc/httpd/conf/httpd.conf", "httpd.conf", true)
  const SSL_CONF := Mount("config-data", "/etc/httpd/conf.d/ssl.conf", "ssl.conf", true)

  /** The files of a vhost have longer names than any other file mounted. */
  lemma ShortFiles(m: Mount, privileged: bool, cacheSize: string)
    requires m in BASE_MOUNTS || m in CinderMounts(privileged) || m in ApiMounts(cacheSize)
    ensures |m.subPath| <= 14
  {
  }

  function Vhost(wsgi: bool): Mount {
    if wsgi then WSGI_VHOST else PROXY_VHOST
  }

  lemma VhostPath(wsgi: bool)
    ensures HttpdMounts(wsgi)[1] == Vhost(wsgi)
  {
  }

  lemma InThree(x: Mount, a: Mount, b: Mount, c: Mount)
    ensures x in [a, b, c] <==> x == a || x == b || x == c
  {
    assert [a, b, c][0] == a && [a, b, c][1] == b && [a, b, c][2] == c;
  }

  lemma HttpdFiles(m: Mount, wsgi: bool)
    ensures m in HttpdMounts(wsgi) <==> m == HTTPD_CONF || m == Vhost(wsgi) || m == SSL_CONF
  {
    var mounts := HttpdMounts(wsgi);
    VhostPath(wsgi);
    assert mounts[0] == HTTPD_CONF && mounts[2] == SSL_CONF;
    assert mounts == [mounts[0], mounts[1], mounts[2]];
    InThree(m, mounts[0], mounts[1], mounts[2]);
  }

  lemma FixedParts(m: Mount, external: bool, httpd: bool, wsgi: bool)
    ensures m in FixedMounts(external, httpd, wsgi) <==>
              m in BASE_MOUNTS || (httpd && m in HttpdMounts(wsgi)) || (!external && m == IMAGES)
  {
  }

  lemma VhostsDiffer()
    ensures |WSGI_VHOST.subPath| == 19 && |PROXY_VHOST.subPath| == 24
    ensures |HTTPD_CONF.subPath| == 10 && |SSL_CONF.subPath| == 8 && IMAGES.subPath == ""
  {
  }

  lemma OwnLongFile(m: Mount, spec: PodSpec, privileged: bool, wsgi: bool, httpd: bool)
    requires |m.subPath| > 14
    ensures Own(m, spec, privileged, wsgi, httpd) <==> httpd && m in HttpdMounts(wsgi)
  {
    VhostsDiffer();
    if m in BASE_MOUNTS || m in CinderMounts(privileged) || m in ApiMounts(spec.cacheSize) {
      ShortFiles(m, privileged, spec.cacheSize);
    }
    FixedParts(m, spec.storage.external, httpd, wsgi);
  }

  lemma OwnVhosts(spec: PodSpec, privileged: bool, wsgi: bool, httpd: bool)
    ensures Own(WSGI_VHOST, spec, privileged, wsgi, httpd) <==> httpd && wsgi
    ensures Own(PROXY_VHOST, spec, privileged, wsgi, httpd) <==> httpd && !wsgi
    ensures httpd ==> Own(HTTPD_CONF, spec, privileged, wsgi, httpd) && Own(SSL_CONF, spec, privileged, wsgi, httpd)
  {
    VhostsDiffer();
    HttpdFiles(WSGI_VHOST, wsgi);
    HttpdFiles(PROXY_VHOST, wsgi);
    OwnLongFile(WSGI_VHOST, spec, privileged, wsgi, httpd);
    OwnLongFile(PROXY_VHOST, spec, privileged, wsgi, httpd);
    HttpdFiles(HTTPD_CONF, wsgi);
    HttpdFiles(SSL_CONF, wsgi);
    FixedParts(HTTPD_CONF, spec.storage.external, httpd, wsgi);
    FixedParts(SSL_CONF, spec.storage.external, httpd, wsgi);
  }

  lemma ServingVhosts(spec: PodSpec, privileged: bool, wsgi: bool, httpd: bool, extra: seq<VolMounts>,
                      attached: seq<Attachment>)
    ensures
      var mounts := ServingMounts(spec, privileged, wsgi, httpd, extra, attached);
      && (WSGI_VHOST in mounts <==> (httpd && wsgi) || WSGI_VHOST in ExtraMounts(extra))
      && (PROXY_VHOST in mounts <==> (httpd && !wsgi) || PROXY_VHOST in ExtraMounts(extra))
      && (httpd ==> HTTPD_CONF in mounts && SSL_CONF in mounts)
  {
    OwnVhosts(spec, privileged, wsgi, httpd);
    NotAttached(WSGI_VHOST, spec, privileged, wsgi, httpd, extra, attached);
    NotAttached(PROXY_VHOST, spec, privileged, wsgi, httpd, extra, attached);
    NotAttached(HTTPD_CONF, spec, privileged, wsgi, httpd, extra, attached);
    NotAttached(SSL_CONF, spec, privileged, wsgi, httpd, extra, attached);
  }

  /** A wsgi pod has no container but the log's and httpd, which serves Glance itself. Otherwise httpd forwards
      to the container glance-api. The log container mounts nothing but the logs. */
  lemma WebServer(spec: PodSpec, privileged: bool, wsgi: bool, lib: Filter, tls: seq<Attachment>)
    ensures
      var containers, added := PodFor(spec, privileged, wsgi, lib, tls).containers, Added(spec, lib);
      && |containers| == (if wsgi then 2 else 3)
      && containers[0] == Container("glance-log", [Mount("logs", "/var/log/glance", "", false)])
      && containers[1].name == "glance-httpd"
      && HTTPD_CONF in containers[1].mounts && SSL_CONF in containers[1].mounts
      && (WSGI_VHOST in containers[1].mounts <==> wsgi || WSGI_VHOST in added)
      && (PROXY_VHOST in containers[1].mounts <==> !wsgi || PROXY_VHOST in added)
      && (!wsgi ==>
            && containers[2].name == "glance-api"
            && (WSGI_VHOST in containers[2].mounts <==> WSGI_VHOST in added)
            && (PROXY_VHOST in containers[2].mounts <==> PROXY_VHOST in added))
  {
    ServingVhosts(spec, privileged, wsgi, true, Extra(spec, lib), Secrets(spec, tls));
    ServingVhosts(spec, privileged, wsgi, false, Extra(spec, lib), Secrets(spec, tls));
  }

  // ----- Data, logs and scripts -----

  const IMAGES := Mount("glance", "/var/lib/glance", "", false)
  const CACHE := Mount("glance-cache", "/var/lib/glance/image-cache", "", false)
  const LOGS := Mount("logs", "/var/log/glance", "", false)
  const SCRIPTS := Mount("scripts", "/usr/local/bin/container-scripts", "", true)
  const RUN_HTTPD := Mount("run-httpd", "/run/httpd", "", false)

  /** Neither claim is named by a mount that is not its own. */
  lemma ClaimMounts(m: Mount, privileged: bool, wsgi: bool)
    requires m in BASE_MOUNTS || m in HttpdMounts(wsgi) || m in CinderMounts(privileged)
    ensures |m.name| != 6 && |m.name| != 12
  {
  }

  lemma ApiData(cacheSize: string)
    ensures forall m :: m in ApiMounts(cacheSize) <==>
              m == LOGS || m == SCRIPTS || m == RUN_HTTPD || (cacheSize != "" && m == CACHE)
  {
    var api := ApiMounts(cacheSize);
    assert api[0] == LOGS && api[1] == SCRIPTS && api[2] == RUN_HTTPD;
    assert cacheSize != "" ==> api[3] == CACHE;
  }

  lemma DataDiffers()
    ensures |IMAGES.name| == 6 && |CACHE.name| == 12
    ensures |LOGS.name| == 4 && |SCRIPTS.name| == 7 && |RUN_HTTPD.name| == 9
  {
  }

  lemma OwnData(spec: PodSpec, privileged: bool, wsgi: bool, httpd: bool)
    ensures Own(IMAGES, spec, privileged, wsgi, httpd) <==> !spec.storage.external
    ensures Own(CACHE, spec, privileged, wsgi, httpd) <==> spec.cacheSize != ""
    ensures Own(LOGS, spec, privileged, wsgi, httpd) && Own(SCRIPTS, spec, privileged, wsgi, httpd)
    ensures Own(RUN_HTTPD, spec, privileged, wsgi, httpd)
  {
    DataDiffers();
    ApiData(spec.cacheSize);
    forall m | m in BASE_MOUNTS || m in HttpdMounts(wsgi) || m in CinderMounts(privileged)
      ensures |m.name| != 6 && |m.name| != 12
    {
      ClaimMounts(m, privileged, wsgi);
    }
    FixedParts(IMAGES, spec.storage.external, httpd, wsgi);
    FixedParts(CACHE, spec.storage.external, httpd, wsgi);
  }

  /** The containers after the log's are the serving ones: httpd and, without wsgi, the API behind it. */
  lemma ServingContainer(spec: PodSpec, privileged: bool, wsgi: bool, lib: Filter, tls: seq<Attachment>, n: nat)
    requires 1 <= n < |PodFor(spec, privileged, wsgi, lib, tls).containers|
    ensures PodFor(spec, privileged, wsgi, lib, tls).containers[n].mounts
         == ServingMounts(spec, privileged, wsgi, n == 1, Extra(spec, lib), Secrets(spec, tls))
  {
  }

  /** Every serving container has the images at their path, from the local claim, unless storage is external;
      the cache at its path, from its own claim, if it is sized; and the logs, scripts and run directory. */
  lemma ServingData(spec: PodSpec, privileged: bool, wsgi: bool, lib: Filter, tls: seq<Attachment>, n: nat)
    requires 1 <= n < |PodFor(spec, privileged, wsgi, lib, tls).containers|
    ensures
      var mounts := PodFor(spec, privileged, wsgi, lib, tls).containers[n].mounts;
      && (IMAGES in mounts <==> !spec.storage.external || IMAGES in Added(spec, lib))
      && (CACHE in mounts <==> spec.cacheSize != "" || CACHE in Added(spec, lib))
      && LOGS in mounts && SCRIPTS in mounts && RUN_HTTPD in mounts
  {
    ServingContainer(spec, privileged, wsgi, lib, tls, n);
    var extra, attached, httpd := Extra(spec, lib), Secrets(spec, tls), n == 1;
    OwnData(spec, privileged, wsgi, httpd);
    NotAttached(IMAGES, spec, privileged, wsgi, httpd, extra, attached);
    NotAttached(CACHE, spec, privileged, wsgi, httpd, extra, attached);
    ServingHas(LOGS, spec, privileged, wsgi, httpd, extra, attached);
    ServingHas(SCRIPTS, spec, privileged, wsgi, httpd, extra, attached);
    ServingHas(RUN_HTTPD, spec, privileged, wsgi, httpd, extra, attached);
  }

  // ----- Secrets -----

  lemma {:induction false} AttachedHas(attached: seq<Attachment>, a: Attachment, path: string)
    requires a in attached && path in a.paths
    ensures Mount(a.volume.name, path, "", true) in AttachedMounts(attached)
    ensures a.volume in AttachedVolumes(attached)
  {
    var n := |attached| - 1;
    assert attached == attached[..n] + [attached[n]];
    if a == attached[n] {
      var j :| 0 <= j < |a.paths| && a.paths[j] == path;
      assert MountsOf(a)[j] == Mount(a.volume.name, path, "", true);
    } else {
      AttachedHas(attached[..n], a, path);
    }
  }

  lemma {:induction false} TlsHas(endpoints: seq<Endpoint>, tls: map<Endpoint, Option<Attachment>>, e: Endpoint)
    requires TlsAttachments(endpoints, tls).Some? && e in endpoints && e in tls
    ensures tls[e].Some? && tls[e].value in TlsAttachments(endpoints, tls).value
  {
    var n := |endpoints| - 1;
    assert endpoints == endpoints[..n] + [endpoints[n]];
    if endpoints[n] != e {
      TlsHas(endpoints[..n], tls, e);
    }
  }

  /** The pod serves the endpoint. */
  predicate ServesEndpoint(t: ApiType, e: Endpoint) {
    if e == Public then t == External || t == Single else t != External
  }

  /** The certificate of every enabled endpoint the pod serves, the CA bundle, the memcached certificate and
      every configuration secret are mounted, at each of their paths, in every serving container. */
  lemma ServingSecrets(spec: PodSpec, privileged: bool, wsgi: bool, lib: Filter, tls: seq<Attachment>, n: nat,
                       a: Attachment, path: string)
    requires 1 <= n < |PodFor(spec, privileged, wsgi, lib, tls).containers|
    requires TlsAttachments(SortedEndpoints(spec.apiType), spec.tls) == Some(tls) && path in a.paths
    requires || spec.ca == Some(a) || spec.memcached == Some(a) || a in spec.configSecrets
             || exists e :: ServesEndpoint(spec.apiType, e) && e in spec.tls && spec.tls[e] == Some(a)
    ensures Mount(a.volume.name, path, "", true) in PodFor(spec, privileged, wsgi, lib, tls).containers[n].mounts
    ensures a.volume in PodFor(spec, privileged, wsgi, lib, tls).volumes
  {
    if a in spec.configSecrets {
      AttachedHas(spec.configSecrets, a, path);
    } else {
      if spec.ca != Some(a) && spec.memcached != Some(a) {
        var e :| ServesEndpoint(spec.apiType, e) && e in spec.tls && spec.tls[e] == Some(a);
        assert e in SortedEndpoints(spec.apiType);
        TlsHas(SortedEndpoints(spec.apiType), spec.tls, e);
      }
      SecretsHave(spec, tls, a);
      AttachedHas(Secrets(spec, tls), a, path);
    }
    ServingContainer(spec, privileged, wsgi, lib, tls, n);
    ServingHas(
      Mount(a.volume.name, path, "", true), spec, privileged, wsgi, n == 1, Extra(spec, lib), Secrets(spec, tls));
  }

  lemma SecretsHave(spec: PodSpec, tls: seq<Attachment>, a: Attachment)
    requires spec.ca == Some(a) || spec.memcached == Some(a) || a in tls
    ensures a in Secrets(spec, tls)
  {
    assert spec.ca == Some(a) ==> Optional(spec.ca)[0] == a;
    assert spec.memcached == Some(a) ==> Optional(spec.memcached)[0] == a;
  }

  // ----- The host -----

  /** The host directories os-brick needs: volume and path. */
  const HOST_PATHS := [
    ("etc-iscsi", "/etc/iscsi"), ("dev", "/dev"), ("lib-modules", "/lib/modules"), ("run", "/run"), ("sys", "/sys"),
    ("var-locks-brick", "/var/locks/openstack/os-brick"), ("etc-nvme", "/etc/nvme")]

  const HOST_COMMANDS := [
    "/usr/sbin/multipath", "/usr/sbin/multipathd", "/usr/sbin/iscsiadm", "/lib/udev/scsi_id", "/usr/sbin/nvme"]

  lemma CinderHas(n: nat)
    ensures n < |HOST_PATHS| ==> CinderVolumes(true)[n] == Volume(HOST_PATHS[n].0, HostPath(HOST_PATHS[n].1))
    ensures n < |HOST_PATHS| ==> CinderMounts(true)[n].name == HOST_PATHS[n].0
                                 && CinderMounts(true)[n].path == HOST_PATHS[n].1 && CinderMounts(true)[n].subPath == ""
    ensures n < |HOST_COMMANDS| ==>
              CinderMounts(true)[7 + n] == Mount("scripts", HOST_COMMANDS[n], "run-on-host", false)
  {
  }

  /** With Cinder every host directory is mounted where the host has it, and every host command is the script
      that runs it there. */
  lemma HostDirectories(spec: PodSpec, wsgi: bool, lib: Filter, tls: seq<Attachment>, n: nat, j: nat)
    requires 1 <= n < |PodFor(spec, true, wsgi, lib, tls).containers|
    ensures
      var pod := PodFor(spec, true, wsgi, lib, tls);
      var mounts := pod.containers[n].mounts;
      && (j < |HOST_PATHS| ==>
            && Volume(HOST_PATHS[j].0, HostPath(HOST_PATHS[j].1)) in pod.volumes
            && exists m :: m in mounts && m.name == HOST_PATHS[j].0 && m.path == HOST_PATHS[j].1 && m.subPath == "")
      && (j < |HOST_COMMANDS| ==> Mount("scripts", HOST_COMMANDS[j], "run-on-host", false) in mounts)
  {
    CinderHas(j);
    ServingContainer(spec, true, wsgi, lib, tls, n);
    if j < |HOST_PATHS| {
      assert CinderVolumes(true)[j] in CinderVolumes(true);
      ServingHas(CinderMounts(true)[j], spec, true, wsgi, n == 1, Extra(spec, lib), Secrets(spec, tls));
    }
    if j < |HOST_COMMANDS| {
      ServingHas(CinderMounts(true)[7 + j], spec, true, wsgi, n == 1, Extra(spec, lib), Secrets(spec, tls));
    }
  }

  lemma FixedVolumesHostless(v: Volume, name: string)
    requires v in API_VOLUMES || v == Volume("config-data", Secret(name + "-config-data"))
    ensures !v.source.HostPath?
  {
  }

  /** The pod without Cinder sees nothing of the host but what extraMounts or a secret of the library brings. */
  lemma NoHostDirectories(spec: PodSpec, wsgi: bool, lib: Filter, tls: seq<Attachment>, v: Volume)
    requires v in PodFor(spec, false, wsgi, lib, tls).volumes && v.source.HostPath?
    ensures || v in ExtraVolumes(Extra(spec, lib)) || v in AttachedVolumes(spec.configSecrets)
            || v in AttachedVolumes(Secrets(spec, tls))
  {
    if v in API_VOLUMES || v == Volume("config-data", Secret(spec.name + "-config-data")) {
      FixedVolumesHostless(v, spec.name);
    }
  }

  // ----- The StatefulSet -----

  /** Name, replicas, use of the host's processes and claims, and the two secrets every pod reads. */
  lemma StatefulSetSpelled(spec: PodSpec, privileged: bool, wsgi: bool, lib: Filter, tls: seq<Attachment>)
    ensures
      var pod := PodFor(spec, privileged, wsgi, lib, tls);
      && pod.name == (if spec.apiType == Single then spec.name else spec.name + "-api")
      && pod.replicas == spec.replicas && (pod.hostPid <==> privileged)
      && (forall c :: c in pod.claims <==>
            || (!spec.storage.external
                && c == Claim("glance", spec.storage.storageRequest, spec.storage.storageClass, false))
            || (spec.cacheSize != "" && c == Claim("glance-cache", spec.cacheSize, spec.storage.storageClass, true)))
      && Volume("config-data", Secret(spec.name + "-config-data")) in pod.volumes
      && Volume("scripts", Secret("glance-scripts")) in pod.volumes
      && Volume("logs", EmptyDir) in pod.volumes && Volume("glance-config-dir", EmptyDir) in pod.volumes
  {
    ClaimsSpelled(spec.storage, spec.cacheSize);
    ApiVolumesSpelled();
    ConfigVolume(spec.name, privileged, spec.configSecrets, Extra(spec, lib));
  }

  lemma ApiVolumesSpelled()
    ensures Volume("scripts", Secret("glance-scripts")) in API_VOLUMES
    ensures Volume("logs", EmptyDir) in API_VOLUMES && Volume("glance-config-dir", EmptyDir) in API_VOLUMES
  {
    assert API_VOLUMES[0] in API_VOLUMES && API_VOLUMES[1] in API_VOLUMES && API_VOLUMES[2] in API_VOLUMES;
  }

  lemma ConfigVolume(name: string, hasCinder: bool, secrets: seq<Attachment>, extra: seq<VolMounts>)
    ensures Volume("config-data", Secret(name + "-config-data")) in ServiceVolumes(name, hasCinder, secrets, extra)
  {
    var service := ServiceVolumes(name, hasCinder, secrets, extra);
    assert service[0] in service;
  }
}
