/** Concrete specs that show why the conditions of the main results are there. */
module SpecCounterexamples {
  import opened Text
  import opened GlanceTypes
  import opened Inheritance
  import EnabledBackends
  import Webhook
  import Admission
  import opened PodBuilder
  import opened PodMounts

  // ----- A split API deployed on File -----

  const TOP_CONFIG := "enabled_backends=a:rbd"
  const OWN_CONFIG := "x"

  lemma TopListsRbd()
    ensures EnabledBackends.Parse(TOP_CONFIG) == Some(["a:rbd"])
  {
    var padded := EnabledBackends.Padded(["a:rbd"], [("", "")]);
    assert padded[0] == "" + "a:rbd" + "" == "a:rbd";
    assert padded == ["a:rbd"];
    var line := EnabledBackends.KeyLine("", "", Join(padded, ','));
    assert line == TOP_CONFIG;
    assert [] + [line] + [] == [line];
    EnabledBackends.RoundTrip([], "", "", ["a:rbd"], [("", "")], []);
  }

  lemma OwnListsNothing()
    ensures EnabledBackends.Parse(OWN_CONFIG) == Some([]) && !EnabledBackends.HasKeyLine(OWN_CONFIG)
  {
    SplitNone(OWN_CONFIG, '\n');
    assert TrimSpace("x") == "x" && RemoveSpaces("x") == "x";
    assert EnabledBackends.Tokens("x") == ("x", None);
    EnabledBackends.NoKeyLine(["x"]);
  }

  lemma NotFile()
    ensures Cut("a:rbd", ':') == ("a", Some("rbd")) && "rbd" != "file"
  {
    CutAt("a", ':', "rbd");
    assert "a" + [':'] + "rbd" == "a:rbd";
  }

  function SplitApi(config: string): ApiTemplate {
    ApiTemplate(1, SplitLayout, config, [], Storage("", "1G", false), ImageCache("", "@daily", "@daily"), 60, "",
                None, None, LibraryChecks(true, true, true))
  }

  function SplitSpec(top: string, config: string): GlanceSpec {
    GlanceSpec("image", top, [], Storage("", "1G", false), ImageCache("", "", ""), "main", 60, 30, "@daily",
               None, None, true, map["main" := SplitApi(config)])
  }

  lemma SplitAdmitted(top: string, config: string)
    requires Webhook.IsFileBackend(top, true) == Some(false) && Webhook.IsFileBackend(config, false) == Some(false)
    ensures Admission.Admissible("g", SplitSpec(top, config)) && Webhook.AdmitsCreate("g", SplitSpec(top, config))
  {
    var g := SplitSpec(top, config);
    assert Webhook.NameOk("g", "main", SplitLayout);
    forall k | k in g.apis ensures Admission.CleanApi("g", g, k) {
    }
    Admission.CleanIsAdmitted("g", g);
  }

  /** Rbd at the top level and an API with a configuration that lists no stores: the webhook finds no file
      backend and admits it as split, and it is deployed on File. */
  lemma SplitDeployedOnFile()
    ensures
      var g := SplitSpec(TOP_CONFIG, OWN_CONFIG);
      && Admission.Admissible("g", g) && Webhook.AdmitsCreate("g", g)
      && Webhook.IsFileBackend(OWN_CONFIG, Webhook.IsFileBackend(TOP_CONFIG, true).value) == Some(false)
      && Webhook.IsFileBackend(Inherit(g, g.apis["main"]).customServiceConfig, true) == Some(true)
  {
    TopListsRbd();
    OwnListsNothing();
    NotFile();
    SplitAdmitted(TOP_CONFIG, OWN_CONFIG);
    Inherited(TOP_CONFIG, OWN_CONFIG);
  }

  lemma Inherited(top: string, config: string)
    requires config != ""
    ensures Inherit(SplitSpec(top, config), SplitSpec(top, config).apis["main"]).customServiceConfig == config
  {
  }

  // ----- A pod that is not closed -----

  /** An entry of extraMounts that mounts a volume it does not bring. */
  const DANGLING := VolMounts([], [], [Mount("nowhere", "/mnt", "", false)])

  const OPEN := PodSpec(
    "g-main-single", "main", Single, 1, Storage("", "", true), "", [], [[DANGLING]], None, None, map[])

  const EVERYWHERE: Filter := (e, _) => [e]

  lemma OpenPropagates()
    ensures Extra(OPEN, EVERYWHERE) == [DANGLING]
  {
    var svc := Services(OPEN);
    assert [DANGLING][..0] == [] && [[DANGLING]][..0] == [];
    assert Propagated([DANGLING], svc, EVERYWHERE) == Propagated([], svc, EVERYWHERE) + [DANGLING];
    assert AllPropagated([[DANGLING]], svc, EVERYWHERE)
        == AllPropagated([], svc, EVERYWHERE) + Propagated([DANGLING], svc, EVERYWHERE);
  }

  lemma NowhereDeclared()
    ensures "nowhere" !in OwnNames(OPEN, false, [])
  {
    assert Optional<Attachment>(None) + Optional(None) + [] == [];
  }

  /** Its pod has a mount of nothing. */
  lemma OpenPod(pod: Pod)
    requires pod == PodFor(OPEN, false, true, EVERYWHERE, [])
    ensures !MountsClosed(pod)
  {
    OpenPropagates();
    NowhereDeclared();
    assert [DANGLING][..0] == [] && ExtraMounts([DANGLING]) == DANGLING.mounts && ExtraVolumes([DANGLING]) == [];
    assert DANGLING.mounts[0] in ExtraMounts([DANGLING]);
    MountsClosedExactly(OPEN, false, true, EVERYWHERE, []);
  }
}
