/**
 * What the compiled configuration promises, proved about the specification
 * functions of `RouteCompiler` (and hence, through `LoadConfig`'s contract,
 * about what the imperative compile leaves in the configuration object).
 */
module CompilerProperties {
  import opened Options
  import opened Decimal
  import opened OrderedMap
  import opened Entities
  import opened NginxConfig
  import opened RouteCompiler

  // ---------------------------------------------------------------------------
  // Names

  /** The length of the longest suffix of `x` without an `_`. */
  function TrailingRun(x: string): nat
    decreases |x|
  {
    if x == [] || x[|x| - 1] == '_' then 0 else 1 + TrailingRun(x[..|x| - 1])
  }

  /** Behind an empty head or one ending in `_`, a decimal rendering is exactly the trailing run. */
  lemma {:induction false} TrailingRunOfDigits(t: string, s: string)
    requires t == [] || t[|t| - 1] == '_'
    requires AllDigits(s)
    ensures TrailingRun(t + s) == |s|
    decreases |s|
  {
    if s == [] {
      assert t + s == t;
    } else {
      assert IsDigit(s[|s| - 1]);
      assert (t + s)[..|t + s| - 1] == t + s[..|s| - 1];
      TrailingRunOfDigits(t, s[..|s| - 1]);
    }
  }

  /**
   * Upstream names identify their routes' (alias, domain id): two routes
   * share an upstream exactly when they agree on both.
   */
  lemma UpstreamNameInjective(a1: string, d1: nat, a2: string, d2: nat)
    requires UpstreamName(a1, d1) == UpstreamName(a2, d2)
    ensures a1 == a2 && d1 == d2
  {
    var s1, s2 := NatToString(d1), NatToString(d2);
    var t1 := if a1 != "" then a1 + "_" else "";
    var t2 := if a2 != "" then a2 + "_" else "";
    var r := t1 + s1;
    assert UpstreamName(a1, d1) == UPSTREAM_PREFIX + r;
    assert UpstreamName(a2, d2) == UPSTREAM_PREFIX + (t2 + s2);
    assert r == t2 + s2 by {
      assert r == UpstreamName(a1, d1)[|UPSTREAM_PREFIX|..];
      assert t2 + s2 == UpstreamName(a2, d2)[|UPSTREAM_PREFIX|..];
    }
    TrailingRunOfDigits(t1, s1);
    TrailingRunOfDigits(t2, s2);
    assert s1 == r[|t1|..] && s2 == (t2 + s2)[|t2|..];
    NatToStringInjective(d1, d2);
    assert t1 == r[..|t1|] && t2 == (t2 + s2)[..|t2|];
    if a1 != "" && a2 != "" {
      assert a1 == t1[..|t1| - 1] && a2 == t2[..|t2| - 1];
    }
  }

  /** Distinct ports get distinct map variables. */
  lemma StreamVarNameInjective(p: nat, q: nat)
    requires StreamVarName(p) == StreamVarName(q)
    ensures p == q
  {
    assert NatToString(p) == StreamVarName(p)[|"$ffstream"|..];
    assert NatToString(q) == StreamVarName(q)[|"$ffstream"|..];
    NatToStringInjective(p, q);
  }

  // ---------------------------------------------------------------------------
  // Upstreams: one per distinct name, from the first route with that name

  lemma {:induction false} UpstreamNamesIndex(ups: seq<Upstream>)
    ensures |UpstreamNames(ups)| == |ups|
    ensures forall i :: 0 <= i < |ups| ==> UpstreamNames(ups)[i] == ups[i].name
    decreases |ups|
  {
    if ups != [] {
      UpstreamNamesIndex(ups[..|ups| - 1]);
    }
  }

  /** Route `k` is the first in `rs` with its upstream name. */
  ghost predicate FirstWithName(rs: seq<StreamRoute>, k: int) {
    0 <= k < |rs| && forall k' :: 0 <= k' < k ==> RouteUpstreamName(rs[k']) != RouteUpstreamName(rs[k])
  }

  ghost predicate DistinctNames(ups: seq<Upstream>) {
    forall i, j :: 0 <= i < j < |ups| ==> ups[i].name != ups[j].name
  }

  /** Every route's upstream name is listed. */
  ghost predicate NamesCover(ups: seq<Upstream>, rs: seq<StreamRoute>) {
    forall k :: 0 <= k < |rs| ==> RouteUpstreamName(rs[k]) in UpstreamNames(ups)
  }

  /** Each upstream is the one built from the first route carrying its name. */
  ghost predicate BuiltFromFirst(ups: seq<Upstream>, rs: seq<StreamRoute>) {
    forall i :: 0 <= i < |ups| ==> exists k :: FirstWithName(rs, k) && ups[i] == UpstreamOf(rs[k])
  }

  /** `ups` is the de-duplicated upstream list of the routes `rs`. */
  ghost predicate Deduplicated(ups: seq<Upstream>, rs: seq<StreamRoute>) {
    DistinctNames(ups) && NamesCover(ups, rs) && BuiltFromFirst(ups, rs)
  }

  lemma DistinctNamesStep(ups: seq<Upstream>, r: StreamRoute)
    requires DistinctNames(ups)
    ensures DistinctNames(AddRouteUpstream(ups, r))
  {
    if RouteUpstreamName(r) !in UpstreamNames(ups) {
      UpstreamNamesIndex(ups);
      forall i | 0 <= i < |ups| ensures ups[i].name != RouteUpstreamName(r) {
        assert UpstreamNames(ups)[i] == ups[i].name;
      }
    }
  }

  lemma NamesCoverStep(ups: seq<Upstream>, rs: seq<StreamRoute>, r: StreamRoute)
    requires NamesCover(ups, rs)
    ensures NamesCover(AddRouteUpstream(ups, r), rs + [r])
  {
    var ups' := AddRouteUpstream(ups, r);
    if ups' != ups {
      UpstreamNamesSnoc(ups, UpstreamOf(r));
    }
    forall k | 0 <= k < |rs| + 1 ensures RouteUpstreamName((rs + [r])[k]) in UpstreamNames(ups') {
      if k < |rs| {
        assert (rs + [r])[k] == rs[k];
      }
    }
  }

  lemma BuiltFromFirstStep(ups: seq<Upstream>, rs: seq<StreamRoute>, r: StreamRoute)
    requires NamesCover(ups, rs) && BuiltFromFirst(ups, rs)
    ensures BuiltFromFirst(AddRouteUpstream(ups, r), rs + [r])
  {
    var rs' := rs + [r];
    forall i | 0 <= i < |ups|
      ensures exists k :: FirstWithName(rs', k) && ups[i] == UpstreamOf(rs'[k])
    {
      var k :| FirstWithName(rs, k) && ups[i] == UpstreamOf(rs[k]);
      assert rs'[k] == rs[k];
      assert FirstWithName(rs', k) by {
        forall k' | 0 <= k' < k ensures rs'[k'] == rs[k'] {}
      }
    }
    if RouteUpstreamName(r) !in UpstreamNames(ups) {
      assert FirstWithName(rs', |rs|) by {
        forall k' | 0 <= k' < |rs| ensures RouteUpstreamName(rs'[k']) != RouteUpstreamName(r) {
          assert rs'[k'] == rs[k'];
        }
      }
      assert (ups + [UpstreamOf(r)])[|ups|] == UpstreamOf(rs'[|rs|]);
    }
  }

  /** One route of the fill loop keeps the upstream list de-duplicated. */
  lemma DeduplicatedStep(ups: seq<Upstream>, rs: seq<StreamRoute>, r: StreamRoute)
    requires Deduplicated(ups, rs)
    ensures Deduplicated(AddRouteUpstream(ups, r), rs + [r])
  {
    DistinctNamesStep(ups, r);
    NamesCoverStep(ups, rs, r);
    BuiltFromFirstStep(ups, rs, r);
  }

  /** The routes of the first `k` domains of a port, in domain order. */
  function PortRoutes(inner: OMap<string, StreamRoute>, k: nat): seq<StreamRoute>
    requires inner.Valid() && k <= |inner.keys|
  {
    if k == 0 then [] else PortRoutes(inner, k - 1) + [RouteAt(inner, k - 1)]
  }

  lemma {:induction false} PortRoutesLength(inner: OMap<string, StreamRoute>, k: nat)
    requires inner.Valid() && k <= |inner.keys|
    ensures |PortRoutes(inner, k)| == k
  {
    if k > 0 {
      PortRoutesLength(inner, k - 1);
    }
  }

  /** The routes of the first `j` ports, port by port and then in domain order: the order the fill visits them. */
  function StreamRoutesOf(groups: Groups<StreamRoute>, j: nat): seq<StreamRoute>
    requires NestedValid(groups) && j <= |groups.keys|
  {
    if j == 0 then []
    else
      var inner := groups.m[groups.keys[j - 1]];
      StreamRoutesOf(groups, j - 1) + PortRoutes(inner, |inner.keys|)
  }

  /** The upstream list the fill loop builds from `ups` over the routes `rs`, one route at a time. */
  function DedupFrom(ups: seq<Upstream>, rs: seq<StreamRoute>): seq<Upstream>
    decreases |rs|
  {
    if rs == [] then ups else AddRouteUpstream(DedupFrom(ups, rs[..|rs| - 1]), rs[|rs| - 1])
  }

  lemma {:induction false} DedupFromAppend(ups: seq<Upstream>, a: seq<StreamRoute>, b: seq<StreamRoute>)
    ensures DedupFrom(ups, a + b) == DedupFrom(DedupFrom(ups, a), b)
    decreases |b|
  {
    if b == [] {
      assert a + b == a;
    } else {
      assert (a + b)[..|a + b| - 1] == a + b[..|b| - 1];
      DedupFromAppend(ups, a, b[..|b| - 1]);
    }
  }

  lemma {:induction false} DedupFromDeduplicated(rs: seq<StreamRoute>)
    ensures Deduplicated(DedupFrom([], rs), rs)
    decreases |rs|
  {
    if rs != [] {
      var init := rs[..|rs| - 1];
      assert rs == init + [rs[|rs| - 1]];
      DedupFromDeduplicated(init);
      DeduplicatedStep(DedupFrom([], init), init, rs[|rs| - 1]);
    }
  }

  /** The per-port loop adds upstreams exactly as the route-by-route fold does. */
  lemma {:induction false} PortUpstreamsFold(ups: seq<Upstream>, inner: OMap<string, StreamRoute>, k: nat)
    requires inner.Valid() && k <= |inner.keys|
    ensures PortUpstreams(ups, inner, k) == DedupFrom(ups, PortRoutes(inner, k))
  {
    if k > 0 {
      PortRoutesLength(inner, k - 1);
      assert PortRoutes(inner, k)[..k - 1] == PortRoutes(inner, k - 1);
      PortUpstreamsFold(ups, inner, k - 1);
    }
  }

  /** Filling one more port continues the route-by-route fold over the routes before it. */
  lemma PortUpstreamsAfter(ups: seq<Upstream>, before: seq<StreamRoute>, inner: OMap<string, StreamRoute>, all: seq<StreamRoute>)
    requires inner.Valid() && ups == DedupFrom([], before)
    requires all == before + PortRoutes(inner, |inner.keys|)
    ensures PortUpstreams(ups, inner, |inner.keys|) == DedupFrom([], all)
  {
    PortUpstreamsFold(ups, inner, |inner.keys|);
    DedupFromAppend([], before, PortRoutes(inner, |inner.keys|));
  }

  /** If the upstreams after `j - 1` ports are the fold over their routes, so are those after `j`. */
  lemma StreamUpstreamsStep(groups: Groups<StreamRoute>, j: nat)
    requires NestedValid(groups) && 0 < j <= |groups.keys|
    requires StreamUpstreams(groups, j - 1) == DedupFrom([], StreamRoutesOf(groups, j - 1))
    ensures StreamUpstreams(groups, j) == DedupFrom([], StreamRoutesOf(groups, j))
  {
    var inner := groups.m[groups.keys[j - 1]];
    assert inner.Valid();
    PortUpstreamsAfter(StreamUpstreams(groups, j - 1), StreamRoutesOf(groups, j - 1), inner, StreamRoutesOf(groups, j));
  }

  /** The upstreams after `j` ports are the route-by-route fold over all their routes in fill order. */
  lemma {:induction false} StreamUpstreamsFold(groups: Groups<StreamRoute>, j: nat)
    requires NestedValid(groups) && j <= |groups.keys|
    ensures StreamUpstreams(groups, j) == DedupFrom([], StreamRoutesOf(groups, j))
  {
    if j > 0 {
      StreamUpstreamsFold(groups, j - 1);
      StreamUpstreamsStep(groups, j);
    }
  }

  /**
   * Across the whole compile, each distinct upstream name yields exactly one
   * upstream, built from the first route (in fill order) with that name.
   */
  lemma CompiledUpstreams(store: Store)
    ensures NestedValid(StreamGroups(store))
    ensures Deduplicated(Compile(store).stream.upstreams,
                         StreamRoutesOf(StreamGroups(store), |StreamGroups(store).keys|))
  {
    GroupVisitsValid(StreamVisits(store, store.listens));
    var groups := StreamGroups(store);
    StreamUpstreamsFold(groups, |groups.keys|);
    DedupFromDeduplicated(StreamRoutesOf(groups, |groups.keys|));
  }
}
