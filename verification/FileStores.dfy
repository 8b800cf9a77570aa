/** The file-backend verdict of the webhook (api/v1beta1/glance_webhook.go), said of the text of a
    configuration. */
module FileStores {
  import opened Text
  import opened GlanceTypes
  import opened EnabledBackends
  import Webhook
  import Admission
  import GlancePass
  import PassEffects

  /** An entry `name:kind`. */
  ghost predicate HasKind(entry: string, kind: string) {
    exists name :: IsEntry(entry, name, kind)
  }

  predicate IsEntry(entry: string, name: string, kind: string) {
    ':' !in name && entry == name + ":" + kind
  }

  lemma {:induction false} CutSplits(s: string, sep: char)
    ensures
      var (before, after) := Cut(s, sep);
      sep !in before && if after == None then s == before else s == before + [sep] + after.value
  {
    if s != "" && s[0] != sep {
      CutSplits(s[1..], sep);
      assert s == [s[0]] + s[1..];
    }
  }

  lemma KindExactly(entry: string, kind: string)
    ensures Cut(entry, ':').1 == Some(kind) <==> HasKind(entry, kind)
  {
    CutSplits(entry, ':');
    if Cut(entry, ':').1 == Some(kind) {
      assert IsEntry(entry, Cut(entry, ':').0, kind);
    }
    if name :| IsEntry(entry, name, kind) {
      CutAt(name, ':', kind);
      assert name + [':'] + kind == entry;
    }
  }

  /** The only store is of kind file. */
  ghost predicate OnlyFile(stores: seq<string>) {
    |stores| == 1 && HasKind(stores[0], "file")
  }

  /** The verdict is that of the stores listed: exactly one, of kind file, or none where the level above allows
      that to mean File. */
  lemma VerdictExactly(config: string, topLevel: bool)
    ensures
      var stores := Parse(config);
      Webhook.IsFileBackend(config, topLevel)
      == if stores == None then None else Some((stores.value == [] && topLevel) || OnlyFile(stores.value))
  {
    if Parse(config).Some? && |Parse(config).value| == 1 {
      KindExactly(Parse(config).value[0], "file");
    }
  }

  /** So for a configuration that prints a list of stores it is whether there is one store and that of kind
      file, whatever the padding and the text around. */
  lemma PrintedVerdict(before: seq<string>, left: string, keyPad: string, entries: seq<string>,
                       pads: seq<(string, string)>, after: seq<string>, topLevel: bool)
    requires forall i :: 0 <= i < |before| ==> '\n' !in before[i] && !IsKeyLine(before[i])
    requires forall i :: 0 <= i < |after| ==> '\n' !in after[i]
    requires Blank(left) && forall i :: 0 <= i < |keyPad| ==> keyPad[i] == ' '
    requires entries != [] && |pads| == |entries|
    requires forall i :: 0 <= i < |entries| ==> Trimmed(entries[i]) && ',' !in entries[i] && '\n' !in entries[i]
    requires forall i :: 0 <= i < |pads| ==> Blank(pads[i].0) && Blank(pads[i].1)
    ensures
      var config := Join(before + [KeyLine(left, keyPad, Join(Padded(entries, pads), ','))] + after, '\n');
      && (|entries| >= 2 ==> Webhook.IsFileBackend(config, topLevel) == Some(false))
      && (forall name, kind :: entries == [name + ":" + kind] && ':' !in name ==>
            Webhook.IsFileBackend(config, topLevel) == Some(kind == "file"))
  {
    RoundTrip(before, left, keyPad, entries, pads, after);
    VerdictExactly(Join(before + [KeyLine(left, keyPad, Join(Padded(entries, pads), ','))] + after, '\n'), topLevel);
    forall name, kind | entries == [name + ":" + kind] && ':' !in name
      ensures HasKind(entries[0], "file") <==> kind == "file"
    {
      OneKind(entries[0], name, kind);
    }
  }

  lemma OneKind(entry: string, name: string, kind: string)
    requires IsEntry(entry, name, kind)
    ensures HasKind(entry, "file") <==> kind == "file"
  {
    CutAt(name, ':', kind);
    assert name + [':'] + kind == entry;
    KindExactly(entry, "file");
  }

  /** Without a key line the level above decides. */
  lemma UnlistedVerdict(config: string, topLevel: bool)
    requires !HasKeyLine(config)
    ensures Webhook.IsFileBackend(config, topLevel) == Some(topLevel)
  {
    EmptyAndPanicExactly(config);
  }

  /** No replicated split API of an admitted Glance lists one store and that of kind file, nor lists none while
      the top level does either. */
  lemma AdmittedSplitListsNoFile(name: string, g: GlanceSpec, k: string)
    requires Admission.Admissible(name, g)
    requires k in g.apis && g.apis[k].layout == SplitLayout && g.apis[k].replicas != 0
    ensures
      var own, top := Parse(g.apis[k].customServiceConfig), Parse(g.customServiceConfig);
      && own.Some? && top.Some? && !OnlyFile(own.value)
      && (own.value == [] ==> top.value != [] && !OnlyFile(top.value))
  {
    var top := Webhook.IsFileBackend(g.customServiceConfig, true);
    VerdictExactly(g.customServiceConfig, true);
    VerdictExactly(g.apis[k].customServiceConfig, top.value);
  }

  /** And that is exactly what a replicated split API is refused for. */
  lemma RefusedExactly(name: string, g: GlanceSpec, k: string)
    requires Parse(g.customServiceConfig).Some? && k in g.apis && Parse(g.apis[k].customServiceConfig).Some?
    ensures
      var own, top := Parse(g.apis[k].customServiceConfig).value, Parse(g.customServiceConfig).value;
      Webhook.CreateError(name, g, Webhook.InvalidBackend(k)) <==>
        && g.apis[k].layout == SplitLayout && g.apis[k].replicas != 0
        && (OnlyFile(own) || (own == [] && (top == [] || OnlyFile(top))))
  {
    VerdictExactly(g.customServiceConfig, true);
    VerdictExactly(g.apis[k].customServiceConfig, Webhook.IsFileBackend(g.customServiceConfig, true).value);
  }

  /** The parent refuses to deploy a single API without the location API exactly when it would not be on File,
      and any API when the wsgi annotation is malformed. */
  lemma DeployableExactly(g: GlanceSpec, api: ApiTemplate, o: GlancePass.GlanceOracle)
    requires Parse(g.customServiceConfig).Some? && Parse(api.customServiceConfig).Some?
    ensures
      var own, top := Parse(api.customServiceConfig).value, Parse(g.customServiceConfig).value;
      GlancePass.Deployable(g, api, o) == Some(
        && o.wsgi
        && (o.locationApi || api.layout != SingleLayout || OnlyFile(own)
            || (own == [] && (top == [] || OnlyFile(top)))))
  {
    VerdictExactly(g.customServiceConfig, true);
    VerdictExactly(api.customServiceConfig, Webhook.IsFileBackend(g.customServiceConfig, true).value);
  }

  /** What a single API without the location API needs, and no other: File, its own or the top level's. */
  ghost predicate OnFileIfNeeded(g: GlanceSpec, api: ApiTemplate, o: GlancePass.GlanceOracle)
    requires Parse(g.customServiceConfig).Some? && Parse(api.customServiceConfig).Some?
  {
    var own, top := Parse(api.customServiceConfig).value, Parse(g.customServiceConfig).value;
    o.locationApi || api.layout != SingleLayout || OnlyFile(own) || (own == [] && (top == [] || OnlyFile(top)))
  }

  /** The deployment of an API goes through exactly if the annotation is well formed, it is on File where that
      is needed, and none of the objects its layout stands for is refused. */
  lemma ApiGoesExactly(g: GlanceSpec, k: string, o: GlancePass.GlanceOracle)
    requires Parse(g.customServiceConfig).Some? && k in g.apis && Parse(g.apis[k].customServiceConfig).Some?
    ensures PassEffects.ApiFlow(g, k, o) == GlancePass.Running <==>
              && o.wsgi && OnFileIfNeeded(g, g.apis[k], o)
              && forall t :: GlancePass.ChildId(k, t) in GlancePass.Expansion(g) ==>
                   GlancePass.ChildId(k, t) !in o.refused
  {
    DeployableExactly(g, g.apis[k], o);
    GlancePass.ExpansionMembers(g);
    forall t | GlancePass.ChildId(k, t) in GlancePass.Expansion(g)
      ensures || t == GlancePass.FirstType(g.apis[k].layout)
              || (t == Internal && GlancePass.AlsoInternal(g.apis[k].layout))
    {
      assert GlancePass.InExpansion(g, GlancePass.ChildId(k, t));
    }
    assert GlancePass.InExpansion(g, GlancePass.ChildId(k, GlancePass.FirstType(g.apis[k].layout)));
    assert GlancePass.AlsoInternal(g.apis[k].layout) ==> GlancePass.InExpansion(g, GlancePass.ChildId(k, Internal));
  }

  /** And the whole loop goes through exactly if every API it walks does. */
  lemma {:induction false} LoopGoesExactly(g: GlanceSpec, names: seq<string>, o: GlancePass.GlanceOracle)
    ensures PassEffects.DeployFlow(g, names, o) == GlancePass.Running <==>
              forall k :: k in names ==> PassEffects.ApiFlow(g, k, o) == GlancePass.Running
  {
    if names != [] {
      LoopGoesExactly(g, names[1..], o);
      assert names == [names[0]] + names[1..];
    }
  }
}
