/** What the built pod guarantees: every mount names something the pod declares, and the configuration files
    are mounted over the writable configuration directory. */
module PodMounts {
  import opened Text
  import opened GlanceTypes
  import opened Inheritance
  import opened PodBuilder

  function Names(volumes: seq<Volume>): set<string> {
    set v | v in volumes :: v.name
  }

  function ClaimNames(claims: seq<Claim>): set<string> {
    set c | c in claims :: c.name
  }

  /** What a mount of the pod may name: a StatefulSet adds a volume for each claim template. */
  function Declared(pod: Pod): set<string> {
    Names(pod.volumes) + ClaimNames(pod.claims)
  }

  predicate NamedBy(mounts: seq<Mount>, names: set<string>) {
    forall m :: m in mounts ==> m.name in names
  }

  /** Every mount of every container names a declared volume or claim. */
  ghost predicate MountsClosed(pod: Pod) {
    forall c :: c in pod.containers ==> NamedBy(c.mounts, Declared(pod))
  }

  lemma NamesAppend(a: seq<Volume>, b: seq<Volume>)
    ensures Names(a + b) == Names(a) + Names(b)
  {
    forall v | v in b ensures v in a + b {
    }
  }

  lemma NamesOfFour(a: seq<Volume>, b: seq<Volume>, c: seq<Volume>, d: seq<Volume>)
    ensures Names(a + b + c + d) == Names(a) + Names(b) + Names(c) + Names(d)
  {
    NamesAppend(a, b);
    NamesAppend(a + b, c);
    NamesAppend(a + b + c, d);
  }

  lemma NamedByAppend(a: seq<Mount>, b: seq<Mount>, names: set<string>)
    ensures NamedBy(a + b, names) <==> NamedBy(a, names) && NamedBy(b, names)
  {
    forall m | m in b ensures m in a + b {
    }
  }

  lemma {:induction false} AttachedNamed(attached: seq<Attachment>, names: set<string>)
    requires Names(AttachedVolumes(attached)) <= names
    ensures NamedBy(AttachedMounts(attached), names)
  {
    if attached != [] {
      var n := |attached| - 1;
      NamesAppend(AttachedVolumes(attached[..n]), [attached[n].volume]);
      assert attached[n].volume in [attached[n].volume];
      AttachedNamed(attached[..n], names);
      NamedByAppend(AttachedMounts(attached[..n]), MountsOf(attached[n]), names);
    }
  }

  /** The host paths for Cinder are all declared; the host commands come from the scripts volume. */
  lemma CinderNamed(hasCinder: bool, names: set<string>)
    requires Names(CinderVolumes(hasCinder)) <= names && "scripts" in names
    ensures NamedBy(CinderMounts(hasCinder), names)
  {
    if hasCinder {
      forall i | 0 <= i < 7 ensures CinderMounts(true)[i].name in names {
        assert CinderVolumes(true)[i] in CinderVolumes(true);
      }
    }
  }

  lemma FixedNamed(external: bool, httpd: bool, wsgi: bool, names: set<string>)
    requires CONFIG_DIR_VOLUME in names && "config-data" in names && (!external ==> LOCAL_CLAIM in names)
    ensures NamedBy(FixedMounts(external, httpd, wsgi), names)
  {
  }

  /** The mounts of a serving container are all named by the pod but for those extraMounts brings. */
  lemma ServingNamed(spec: PodSpec, privileged: bool, wsgi: bool, httpd: bool, extra: seq<VolMounts>,
                     attached: seq<Attachment>, names: set<string>)
    requires {CONFIG_DIR_VOLUME, LOG_VOLUME, "scripts", RUN_HTTPD_VOLUME, "config-data"} <= names
    requires !spec.storage.external ==> LOCAL_CLAIM in names
    requires spec.cacheSize != "" ==> CACHE_CLAIM in names
    requires Names(CinderVolumes(privileged)) <= names
    requires Names(AttachedVolumes(spec.configSecrets)) <= names && Names(AttachedVolumes(attached)) <= names
    ensures NamedBy(ServingMounts(spec, privileged, wsgi, httpd, extra, attached), names)
            <==> NamedBy(ExtraMounts(extra), names)
  {
    var fixedMounts := FixedMounts(spec.storage.external, httpd, wsgi);
    FixedNamed(spec.storage.external, httpd, wsgi, names);
    CinderNamed(privileged, names);
    AttachedNamed(spec.configSecrets, names);
    AttachedNamed(attached, names);
    NamedByAppend(fixedMounts, ExtraMounts(extra), names);
    NamedByAppend(fixedMounts + ExtraMounts(extra), AttachedMounts(spec.configSecrets), names);
    NamedByAppend(
      fixedMounts + ExtraMounts(extra) + AttachedMounts(spec.configSecrets), CinderMounts(privileged), names);
    NamedByAppend(ApiMounts(spec.cacheSize), AttachedMounts(attached), names);
    NamedByAppend(ServiceMounts(spec.configSecrets, privileged, spec.storage.external, extra, httpd, wsgi),
                  ApiMounts(spec.cacheSize) + AttachedMounts(attached), names);
  }

  lemma ApiVolumesNamed()
    ensures {CONFIG_DIR_VOLUME, LOG_VOLUME, "scripts", RUN_HTTPD_VOLUME} <= Names(API_VOLUMES)
  {
    forall i | 0 <= i < 4 ensures API_VOLUMES[i].name in Names(API_VOLUMES) {
      assert API_VOLUMES[i] in API_VOLUMES;
    }
    assert API_VOLUMES[0].name == CONFIG_DIR_VOLUME && API_VOLUMES[1].name == LOG_VOLUME;
    assert API_VOLUMES[2].name == "scripts" && API_VOLUMES[3].name == RUN_HTTPD_VOLUME;
  }

  lemma ServiceVolumesNamed(name: string, hasCinder: bool, secrets: seq<Attachment>, extra: seq<VolMounts>)
    ensures
      var names := Names(ServiceVolumes(name, hasCinder, secrets, extra));
      && "config-data" in names
      && Names(ExtraVolumes(extra)) <= names && Names(AttachedVolumes(secrets)) <= names
      && Names(CinderVolumes(hasCinder)) <= names
  {
    var config := [Volume("config-data", Secret(name + "-config-data"))];
    NamesOfFour(config, ExtraVolumes(extra), AttachedVolumes(secrets), CinderVolumes(hasCinder));
    assert config[0] in config;
  }

  lemma ClaimsNamed(storage: Storage, cacheSize: string)
    ensures !storage.external ==> LOCAL_CLAIM in ClaimNames(ClaimTemplates(storage, cacheSize))
    ensures cacheSize != "" ==> CACHE_CLAIM in ClaimNames(ClaimTemplates(storage, cacheSize))
  {
    var claims := ClaimTemplates(storage, cacheSize);
    assert !storage.external ==> claims[0] in claims && claims[0].name == LOCAL_CLAIM;
    assert cacheSize != "" ==> claims[|claims| - 1] in claims && claims[|claims| - 1].name == CACHE_CLAIM;
  }

  lemma PodDeclares(spec: PodSpec, privileged: bool, wsgi: bool, lib: Filter, tls: seq<Attachment>)
    ensures
      var names := Declared(PodFor(spec, privileged, wsgi, lib, tls));
      && {CONFIG_DIR_VOLUME, LOG_VOLUME, "scripts", RUN_HTTPD_VOLUME, "config-data"} <= names
      && (!spec.storage.external ==> LOCAL_CLAIM in names)
      && (spec.cacheSize != "" ==> CACHE_CLAIM in names)
      && Names(CinderVolumes(privileged)) <= names
      && Names(ExtraVolumes(Extra(spec, lib))) <= names
      && Names(AttachedVolumes(spec.configSecrets)) <= names
      && Names(AttachedVolumes(Optional(spec.ca) + Optional(spec.memcached) + tls)) <= names
  {
    var service := ServiceVolumes(spec.name, privileged, spec.configSecrets, Extra(spec, lib));
    var attached := AttachedVolumes(Optional(spec.ca) + Optional(spec.memcached) + tls);
    ServiceVolumesNamed(spec.name, privileged, spec.configSecrets, Extra(spec, lib));
    ApiVolumesNamed();
    ClaimsNamed(spec.storage, spec.cacheSize);
    NamesAppend(API_VOLUMES, attached);
    NamesAppend(service, API_VOLUMES + attached);
  }

  /** The names the operator itself declares: the fixed volumes, Cinder's, one for each attached secret, and
      the claims. */
  function OwnNames(spec: PodSpec, privileged: bool, tls: seq<Attachment>): set<string> {
    {"config-data"} + {CONFIG_DIR_VOLUME, LOG_VOLUME, "scripts", RUN_HTTPD_VOLUME}
    + Names(CinderVolumes(privileged)) + SecretNames(spec.configSecrets)
    + SecretNames(Optional(spec.ca) + Optional(spec.memcached) + tls)
    + (if spec.storage.external then {} else {LOCAL_CLAIM}) + (if spec.cacheSize == "" then {} else {CACHE_CLAIM})
  }

  function SecretNames(attached: seq<Attachment>): set<string> {
    set a | a in attached :: a.volume.name
  }

  lemma {:induction false} SecretsDeclared(attached: seq<Attachment>)
    ensures Names(AttachedVolumes(attached)) == SecretNames(attached)
  {
    if attached != [] {
      var n := |attached| - 1;
      SecretsDeclared(attached[..n]);
      NamesAppend(AttachedVolumes(attached[..n]), [attached[n].volume]);
      assert attached == attached[..n] + [attached[n]];
      assert [attached[n].volume][0] in [attached[n].volume];
      assert SecretNames(attached) == SecretNames(attached[..n]) + {attached[n].volume.name};
    }
  }

  lemma ServiceNames(name: string, hasCinder: bool, secrets: seq<Attachment>, extra: seq<VolMounts>)
    ensures Names(ServiceVolumes(name, hasCinder, secrets, extra))
         == {"config-data"} + Names(ExtraVolumes(extra)) + SecretNames(secrets) + Names(CinderVolumes(hasCinder))
  {
    var config := [Volume("config-data", Secret(name + "-config-data"))];
    NamesOfFour(config, ExtraVolumes(extra), AttachedVolumes(secrets), CinderVolumes(hasCinder));
    SecretsDeclared(secrets);
    assert config[0] in config;
    assert Names(config) == {"config-data"};
  }

  lemma ApiNames()
    ensures Names(API_VOLUMES) == {CONFIG_DIR_VOLUME, LOG_VOLUME, "scripts", RUN_HTTPD_VOLUME}
  {
    ApiVolumesNamed();
  }

  lemma ClaimNamesExactly(storage: Storage, cacheSize: string)
    ensures ClaimNames(ClaimTemplates(storage, cacheSize))
         == (if storage.external then {} else {LOCAL_CLAIM}) + (if cacheSize == "" then {} else {CACHE_CLAIM})
  {
    ClaimsNamed(storage, cacheSize);
  }

  /** A pod declares the operator's own names and what extraMounts propagates to it, and nothing else. */
  lemma DeclaredExactly(spec: PodSpec, privileged: bool, wsgi: bool, lib: Filter, tls: seq<Attachment>)
    ensures Declared(PodFor(spec, privileged, wsgi, lib, tls))
         == OwnNames(spec, privileged, tls) + Names(ExtraVolumes(Extra(spec, lib)))
  {
    var service := ServiceVolumes(spec.name, privileged, spec.configSecrets, Extra(spec, lib));
    var attached := Optional(spec.ca) + Optional(spec.memcached) + tls;
    ServiceNames(spec.name, privileged, spec.configSecrets, Extra(spec, lib));
    ApiNames();
    SecretsDeclared(attached);
    ClaimNamesExactly(spec.storage, spec.cacheSize);
    NamesAppend(API_VOLUMES, AttachedVolumes(attached));
    NamesAppend(service, API_VOLUMES + AttachedVolumes(attached));
    Regroup({"config-data"}, Names(API_VOLUMES), Names(ExtraVolumes(Extra(spec, lib))), SecretNames(spec.configSecrets),
            Names(CinderVolumes(privileged)), SecretNames(attached),
            if spec.storage.external then {} else {LOCAL_CLAIM}, if spec.cacheSize == "" then {} else {CACHE_CLAIM});
  }

  lemma Regroup(config: set<string>, api: set<string>, extra: set<string>, secrets: set<string>, cinder: set<string>,
                attached: set<string>, local: set<string>, cache: set<string>)
    ensures (config + extra + secrets + cinder) + (api + attached) + (local + cache)
         == (config + api + cinder + secrets + attached + local + cache) + extra
  {
  }

  /** For every combination of Cinder, external storage, cache, wsgi, TLS, memcached mTLS and secrets, the
      pod is closed if and only if every mount that extraMounts propagates to it names a volume that extraMounts
      propagates or one of the operator's own: a mount of the operator never misses its volume, and an entry
      naming a volume that is not there is not caught. */
  lemma MountsClosedExactly(spec: PodSpec, privileged: bool, wsgi: bool, lib: Filter, tls: seq<Attachment>)
    ensures
      var extra := Extra(spec, lib);
      MountsClosed(PodFor(spec, privileged, wsgi, lib, tls)) <==>
        NamedBy(ExtraMounts(extra), OwnNames(spec, privileged, tls) + Names(ExtraVolumes(extra)))
  {
    var pod := PodFor(spec, privileged, wsgi, lib, tls);
    var names := Declared(pod);
    var attached := Optional(spec.ca) + Optional(spec.memcached) + tls;
    DeclaredExactly(spec, privileged, wsgi, lib, tls);
    PodDeclares(spec, privileged, wsgi, lib, tls);
    ServingNamed(spec, privileged, wsgi, true, Extra(spec, lib), attached, names);
    ServingNamed(spec, privileged, wsgi, false, Extra(spec, lib), attached, names);
    ContainersClosed(pod, spec, privileged, wsgi, Extra(spec, lib), attached, names);
  }

  lemma ContainersClosed(pod: Pod, spec: PodSpec, privileged: bool, wsgi: bool, extra: seq<VolMounts>,
                         attached: seq<Attachment>, names: set<string>)
    requires pod.containers == Containers(spec, privileged, wsgi, extra, attached)
    requires LOG_VOLUME in names && names == Declared(pod)
    ensures MountsClosed(pod) <==>
              && NamedBy(ServingMounts(spec, privileged, wsgi, true, extra, attached), names)
              && (!wsgi ==> NamedBy(ServingMounts(spec, privileged, wsgi, false, extra, attached), names))
  {
    assert pod.containers[0] in pod.containers && pod.containers[1] in pod.containers;
    assert !wsgi ==> pod.containers[2] in pod.containers;
  }

  /** An entry of extraMounts that mounts only its own volumes. */
  ghost predicate Closed(e: VolMounts) {
    NamedBy(e.mounts, Names(e.volumes))
  }

  lemma {:induction false} ExtraNamed(extra: seq<VolMounts>, names: set<string>)
    requires forall e :: e in extra ==> Closed(e)
    requires Names(ExtraVolumes(extra)) <= names
    ensures NamedBy(ExtraMounts(extra), names)
  {
    if extra != [] {
      var n := |extra| - 1;
      assert Closed(extra[n]);
      NamesAppend(ExtraVolumes(extra[..n]), extra[n].volumes);
      ExtraNamed(extra[..n], names);
      NamedByAppend(ExtraMounts(extra[..n]), extra[n].mounts, names);
    }
  }

  /** The filter passes an entry on, any number of times, or drops it. */
  ghost predicate Filters(lib: Filter) {
    forall e, svc, r :: r in lib(e, svc) ==> r.volumes == e.volumes && r.mounts == e.mounts
  }

  lemma {:induction false} PropagatedClosed(group: seq<VolMounts>, svc: seq<string>, lib: Filter)
    requires Filters(lib) && forall e :: e in group ==> Closed(e)
    ensures forall e :: e in Propagated(group, svc, lib) ==> Closed(e)
  {
    if group != [] {
      var n := |group| - 1;
      PropagatedClosed(group[..n], svc, lib);
      assert Closed(group[n]);
    }
  }

  lemma {:induction false} AllPropagatedClosed(groups: seq<seq<VolMounts>>, svc: seq<string>, lib: Filter)
    requires Filters(lib) && forall group, e :: group in groups && e in group ==> Closed(e)
    ensures forall e :: e in AllPropagated(groups, svc, lib) ==> Closed(e)
  {
    if groups != [] {
      var n := |groups| - 1;
      AllPropagatedClosed(groups[..n], svc, lib);
      assert groups[n] in groups;
      PropagatedClosed(groups[n], svc, lib);
    }
  }

  /** So with entries that mount only their own volumes the pod is closed, whatever they propagate to. */
  lemma ClosedEntriesClosePod(spec: PodSpec, privileged: bool, wsgi: bool, lib: Filter, tls: seq<Attachment>)
    requires Filters(lib)
    requires forall group, e :: group in spec.extraMounts && e in group ==> Closed(e)
    ensures MountsClosed(PodFor(spec, privileged, wsgi, lib, tls))
  {
    AllPropagatedClosed(spec.extraMounts, Services(spec), lib);
    var extra := Extra(spec, lib);
    ExtraNamed(extra, OwnNames(spec, privileged, tls) + Names(ExtraVolumes(extra)));
    MountsClosedExactly(spec, privileged, wsgi, lib, tls);
  }

  // ----- The configuration directory -----

  predicate Under(path: string, dir: string) {
    HasPrefix(path, dir + "/")
  }

  /** The writable directory is mounted first, so before any mount inside it, and then the three
      configuration files. */
  ghost predicate ConfigOverDir(mounts: seq<Mount>) {
    && |mounts| >= 4
    && mounts[0] == Mount(CONFIG_DIR_VOLUME, CONF_DIR, "", false)
    && (forall j :: 0 <= j < |mounts| && Under(mounts[j].path, CONF_DIR) ==> j > 0)
    && (forall file :: file in {DEFAULTS_CONFIG, CUSTOM_CONFIG, CUSTOM_CONFIG_SECRETS} ==>
          ConfigFile(CONF_DIR + "/" + file, file) in mounts[1..4])
  }

  lemma BaseFirst(mounts: seq<Mount>)
    requires BASE_MOUNTS <= mounts
    ensures ConfigOverDir(mounts)
  {
    assert mounts[0] == BASE_MOUNTS[0] && mounts[1] == BASE_MOUNTS[1];
    assert mounts[2] == BASE_MOUNTS[2] && mounts[3] == BASE_MOUNTS[3];
    assert mounts[1] == mounts[1..4][0] && mounts[2] == mounts[1..4][1] && mounts[3] == mounts[1..4][2];
  }

  lemma PrefixOfSum(a: seq<Mount>, b: seq<Mount>, c: seq<Mount>, d: seq<Mount>, e: seq<Mount>, f: seq<Mount>)
    ensures a <= a + b + c + d + e + f
  {
  }

  lemma ServingConfigFirst(spec: PodSpec, privileged: bool, wsgi: bool, httpd: bool, extra: seq<VolMounts>,
                           attached: seq<Attachment>)
    ensures ConfigOverDir(ServingMounts(spec, privileged, wsgi, httpd, extra, attached))
  {
    var base := FixedMounts(spec.storage.external, httpd, wsgi);
    assert BASE_MOUNTS <= base;
    PrefixOfSum(base, ExtraMounts(extra), AttachedMounts(spec.configSecrets), CinderMounts(privileged),
                ApiMounts(spec.cacheSize) + AttachedMounts(attached), []);
    BaseFirst(ServingMounts(spec, privileged, wsgi, httpd, extra, attached));
  }

  lemma ContainersConfigFirst(spec: PodSpec, privileged: bool, wsgi: bool, extra: seq<VolMounts>,
                              attached: seq<Attachment>)
    ensures
      var containers := Containers(spec, privileged, wsgi, extra, attached);
      && |containers| == (if wsgi then 2 else 3)
      && containers[1].name == "glance-httpd" && ConfigOverDir(containers[1].mounts)
      && (!wsgi ==> containers[2].name == "glance-api" && ConfigOverDir(containers[2].mounts))
  {
    ServingConfigFirst(spec, privileged, wsgi, true, extra, attached);
    ServingConfigFirst(spec, privileged, wsgi, false, extra, attached);
  }

  /** The httpd container of every pod, and the api container of every pod that has one, mount their
      configuration over the writable directory. */
  lemma ConfigDirFirst(spec: PodSpec, privileged: bool, wsgi: bool, lib: Filter, tls: seq<Attachment>)
    ensures
      var containers := PodFor(spec, privileged, wsgi, lib, tls).containers;
      && |containers| == (if wsgi then 2 else 3)
      && containers[1].name == "glance-httpd" && ConfigOverDir(containers[1].mounts)
      && (!wsgi ==> containers[2].name == "glance-api" && ConfigOverDir(containers[2].mounts))
  {
    ContainersConfigFirst(spec, privileged, wsgi, Extra(spec, lib), Optional(spec.ca) + Optional(spec.memcached) + tls);
  }
}
