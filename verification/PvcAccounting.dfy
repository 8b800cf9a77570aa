/** How much storage a Glance asks for (docs/design-decisions.md): the claims of the StatefulSets really
    produced, against the documented formula per API. */
module PvcAccounting {
  import opened GlanceTypes
  import opened Inheritance
  import opened GlancePass
  import GlanceRuns

  // ----- Sums over maps -----

  ghost function Sum<T(!new)>(m: map<T, nat>): nat
    decreases |m|
  {
    if m == map[] then 0
    else
      var k :| k in m;
      assert (m - {k}).Keys == m.Keys - {k};
      m[k] + Sum(m - {k})
  }

  /** The sum does not depend on which entry is taken out first. */
  lemma {:induction false} SumRemove<T(!new)>(m: map<T, nat>, k: T)
    requires k in m
    ensures Sum(m) == m[k] + Sum(m - {k})
    decreases |m|
  {
    var first :| first in m && Sum(m) == m[first] + Sum(m - {first});
    if first != k {
      assert (m - {first}).Keys == m.Keys - {first} && (m - {k}).Keys == m.Keys - {k};
      SumRemove(m - {first}, k);
      SumRemove(m - {k}, first);
      assert m - {first} - {k} == m - {k} - {first};
    }
  }

  // ----- Demand -----

  /** A measure of claim sizes: constantly one to count claims, the size in bytes to add them up. */
  type Weight = string -> nat

  function WeightOf(claims: seq<Claim>, w: Weight): nat {
    if claims == [] then 0 else w(claims[0].size) + WeightOf(claims[1..], w)
  }

  /** A StatefulSet asks for its claim templates once for each replica. */
  function ChildDemand(c: Child, w: Weight): nat {
    WeightOf(Claims(c.spec.template), w) * c.spec.template.replicas
  }

  /** Pods per replica: two for split, one otherwise. */
  function LayoutFactor(layout: Layout): nat {
    match layout
    case NoLayout | SplitLayout => 2
    case SingleLayout | EdgeLayout => 1
  }

  /** What the documentation charges one replica of an API, local and cache taken after inheritance. */
  function PerReplica(g: GlanceSpec, api: ApiTemplate, w: Weight): nat {
    var request := if api.storage.storageRequest == "" then g.storage.storageRequest else api.storage.storageRequest;
    var local := if api.storage.external || g.storage.external then 0 else w(request);
    var size := if api.imageCache.size == "" then g.imageCache.size else api.imageCache.size;
    local + if size == "" then 0 else w(size)
  }

  /** One term of the documented sum. */
  function ApiDemand(g: GlanceSpec, api: ApiTemplate, w: Weight): nat {
    PerReplica(g, api, w) * api.replicas * LayoutFactor(api.layout)
  }

  ghost function ChildrenDemand(children: Children, w: Weight): nat {
    Sum(map id | id in children :: ChildDemand(children[id], w))
  }

  ghost function ApisDemand(g: GlanceSpec, w: Weight): nat {
    Sum(map k | k in g.apis :: ApiDemand(g, g.apis[k], w))
  }

  lemma ClaimsWeigh(storage: Storage, cacheSize: string, w: Weight)
    ensures WeightOf(ClaimTemplates(storage, cacheSize), w)
            == (if storage.external then 0 else w(storage.storageRequest))
               + (if cacheSize == "" then 0 else w(cacheSize))
  {
    var claims := ClaimTemplates(storage, cacheSize);
    if claims != [] {
      var tail := claims[1..];
      assert tail == if |claims| == 2 then [claims[1]] else [];
      assert tail != [] ==> tail[1..] == [] && WeightOf(tail, w) == w(claims[1].size);
    }
  }

  lemma ChildOfApi(g: GlanceSpec, c: Child, id: ChildId, w: Weight)
    requires UpToDate(c, g, id)
    ensures ApiDemand(g, g.apis[id.apiName], w) == ChildDemand(c, w) * LayoutFactor(g.apis[id.apiName].layout)
  {
    var api := Inherit(g, g.apis[id.apiName]);
    ClaimsWeigh(api.storage, api.imageCache.size, w);
    assert WeightOf(Claims(api), w) == PerReplica(g, g.apis[id.apiName], w);
  }

  /** Taking the objects of one API out of the sum takes out that API's term. */
  lemma TakeApi(g: GlanceSpec, ids: map<ChildId, nat>, k: string, demand: nat) returns (rest: map<ChildId, nat>)
    requires k in g.apis
    requires forall id: ChildId :: id.apiName == k ==> (id in ids <==> InExpansion(g, id))
    requires forall id :: id in ids && id.apiName == k ==> demand == ids[id] * LayoutFactor(g.apis[k].layout)
    ensures Sum(ids) == demand + Sum(rest)
    ensures rest == map id | id in ids && id.apiName != k :: ids[id]
  {
    var first := ChildId(k, FirstType(g.apis[k].layout));
    assert InExpansion(g, first);
    SumRemove(ids, first);
    rest := ids - {first};
    if AlsoInternal(g.apis[k].layout) {
      var internal := ChildId(k, Internal);
      assert InExpansion(g, internal);
      SumRemove(rest, internal);
      rest := rest - {internal};
      assert demand == ids[first] + ids[internal];
    }
  }

  /** The part of the objects that belongs to some of the APIs adds up to those APIs' terms. */
  lemma {:induction false} PartAddsUp(g: GlanceSpec, ids: map<ChildId, nat>, apis: map<string, nat>)
    requires apis.Keys <= g.apis.Keys
    requires forall id :: id in ids <==> InExpansion(g, id) && id.apiName in apis
    requires forall id :: id in ids ==> apis[id.apiName] == ids[id] * LayoutFactor(g.apis[id.apiName].layout)
    ensures Sum(ids) == Sum(apis)
    decreases |apis|
  {
    if apis == map[] {
      assert ids == map[];
    } else {
      var k :| k in apis;
      SumRemove(apis, k);
      assert (apis - {k}).Keys == apis.Keys - {k};
      var rest := TakeApi(g, ids, k, apis[k]);
      PartAddsUp(g, rest, apis - {k});
    }
  }

  /** For any spec, the claims of the objects it stands for, times their replicas, add up to the documented
      sum over its APIs, in number and in size. */
  lemma ClaimsAddUp(g: GlanceSpec, children: Children, w: Weight)
    requires children.Keys == Expansion(g) && forall id :: id in children ==> UpToDate(children[id], g, id)
    ensures ChildrenDemand(children, w) == ApisDemand(g, w)
  {
    var ids := map id | id in children :: ChildDemand(children[id], w);
    var apis := map k | k in g.apis :: ApiDemand(g, g.apis[k], w);
    ExpansionMembers(g);
    forall id | id in ids ensures apis[id.apiName] == ids[id] * LayoutFactor(g.apis[id.apiName].layout) {
      ChildOfApi(g, children[id], id, w);
    }
    PartAddsUp(g, ids, apis);
  }

  /** So it is after any run of the parent that never re-adds an API in another layout. */
  lemma EveryRunAddsUp(site: GlanceRuns.Site, v: GlanceWorld, es: seq<GlanceRuns.Event>, o: GlanceOracle, w: Weight)
    requires GlanceRuns.NoStale(v.spec, v.children) && GlanceRuns.NeverReAdds(site, v, es)
    requires GlanceRuns.Complete(GlanceRuns.Run(site, v, es), o)
    ensures
      var v' := Reconcile(GlanceRuns.Run(site, v, es), o);
      ChildrenDemand(v'.children, w) == ApisDemand(v'.spec, w)
  {
    var u := GlanceRuns.Run(site, v, es);
    GlanceRuns.EveryRunConverges(site, v, es, o);
    ClaimsAddUp(u.spec, Reconcile(u, o).children, w);
  }

  function WithLayout(g: GlanceSpec, k: string, layout: Layout): GlanceSpec
    requires k in g.apis
  {
    g.(apis := g.apis[k := g.apis[k].(layout := layout)])
  }

  lemma OneEntryDiffers<T(!new)>(a: map<T, nat>, b: map<T, nat>, k: T)
    requires a.Keys == b.Keys && k in a && forall j :: j in a && j != k ==> a[j] == b[j]
    ensures Sum(a) + b[k] == Sum(b) + a[k]
  {
    SumRemove(a, k);
    SumRemove(b, k);
    assert a - {k} == b - {k};
  }

  lemma LayoutScales(g: GlanceSpec, h: GlanceSpec, api: ApiTemplate, layout: Layout, w: Weight)
    requires h == g.(apis := h.apis)
    ensures ApiDemand(h, api.(layout := layout), w) == PerReplica(g, api, w) * api.replicas * LayoutFactor(layout)
  {
    assert PerReplica(h, api.(layout := layout), w) == PerReplica(g, api, w);
  }

  lemma TermsOfOthers(g: GlanceSpec, k: string, layout: Layout, w: Weight)
    requires k in g.apis
    ensures forall j :: j in g.apis && j != k ==>
              ApiDemand(WithLayout(g, k, layout), WithLayout(g, k, layout).apis[j], w) == ApiDemand(g, g.apis[j], w)
  {
    var h := WithLayout(g, k, layout);
    forall j | j in g.apis && j != k ensures ApiDemand(h, h.apis[j], w) == ApiDemand(g, g.apis[j], w) {
      assert h.apis[j] == g.apis[j] && PerReplica(h, g.apis[j], w) == PerReplica(g, g.apis[j], w);
    }
  }

  lemma Doubles(g: GlanceSpec, k: string, w: Weight)
    requires k in g.apis && g.apis[k].layout == SingleLayout
    ensures ApiDemand(WithLayout(g, k, SplitLayout), WithLayout(g, k, SplitLayout).apis[k], w)
            == 2 * ApiDemand(g, g.apis[k], w)
  {
    LayoutScales(g, WithLayout(g, k, SplitLayout), g.apis[k], SplitLayout, w);
  }

  /** The same API deployed split instead of single asks for exactly twice as much, and nothing else
      changes. */
  lemma SplitTwiceSingle(g: GlanceSpec, k: string, w: Weight)
    requires k in g.apis && g.apis[k].layout == SingleLayout
    ensures
      var split := WithLayout(g, k, SplitLayout);
      && ApiDemand(split, split.apis[k], w) == 2 * ApiDemand(g, g.apis[k], w)
      && ApisDemand(split, w) == ApisDemand(g, w) + ApiDemand(g, g.apis[k], w)
  {
    var split := WithLayout(g, k, SplitLayout);
    Doubles(g, k, w);
    TermsOfOthers(g, k, SplitLayout, w);
    OneEntryDiffers(map j | j in g.apis :: ApiDemand(g, g.apis[j], w),
                    map j | j in split.apis :: ApiDemand(split, split.apis[j], w), k);
  }
}
