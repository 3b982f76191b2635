/**
 * A JavaScript `Map` as a value: its keys in first-insertion order and the
 * current binding of each. `Map.set` on a present key replaces the value and
 * keeps the key's position; on an absent key it appends the key.
 *
 * The route compiler groups routes with a two-level map (listen port, then
 * domain name); the grouping is specified here once, for any route type, as a
 * fold over the sequence of "visits" the compiler's loops make.
 */
module OrderedMap {

  datatype OMap<K(==, !new), V> = OMap(keys: seq<K>, m: map<K, V>)
  {
    ghost predicate Valid() {
      && (forall i, j :: 0 <= i < j < |keys| ==> keys[i] != keys[j])
      && (forall k :: k in m <==> k in keys)
    }
  }

  function Empty<K(==, !new), V>(): (e: OMap<K, V>)
    ensures e.Valid() && e.keys == [] && e.m == map[]
  {
    OMap([], map[])
  }

  /** `Map.set(k, v)`. */
  function Put<K(==, !new), V>(o: OMap<K, V>, k: K, v: V): (r: OMap<K, V>)
    ensures r.m == o.m[k := v]
    ensures r.keys == if k in o.m then o.keys else o.keys + [k]
  {
    if k in o.m then OMap(o.keys, o.m[k := v]) else OMap(o.keys + [k], o.m[k := v])
  }

  /** `Map.set` keeps the keys distinct and in step with the bindings. */
  lemma PutValid<K(!new), V>(o: OMap<K, V>, k: K, v: V)
    requires o.Valid()
    ensures Put(o, k, v).Valid()
  {
  }

  /** One step of the grouping loops: route `route` seen on `port` under domain `name`. */
  datatype Visit<R> = Visit(port: nat, name: string, route: R)

  type Groups<R> = OMap<nat, OMap<string, R>>

  ghost predicate NestedValid<R>(g: Groups<R>) {
    g.Valid() && forall p :: p in g.m ==> g.m[p].Valid()
  }

  /** The domain map of a port, or a new empty one (`if (!map.has(port)) map.set(port, new Map())`). */
  function Inner<R>(g: Groups<R>, port: nat): OMap<string, R> {
    if port in g.m then g.m[port] else Empty()
  }

  /** `map.get(port).set(name, route)`, creating the port's entry first when it is missing. */
  function PutVisit<R>(g: Groups<R>, v: Visit<R>): Groups<R> {
    Put(g, v.port, Put(Inner(g, v.port), v.name, v.route))
  }

  function GroupVisits<R>(vs: seq<Visit<R>>): Groups<R>
    decreases |vs|
  {
    if vs == [] then Empty() else PutVisit(GroupVisits(vs[..|vs| - 1]), vs[|vs| - 1])
  }

  function Ports<R>(vs: seq<Visit<R>>): seq<nat> {
    seq(|vs|, i requires 0 <= i < |vs| => vs[i].port)
  }

  /** The elements of `s` in order of first occurrence, each once. */
  function FirstOccurrences(s: seq<nat>): seq<nat>
    decreases |s|
  {
    if s == [] then []
    else
      var prev := FirstOccurrences(s[..|s| - 1]);
      if s[|s| - 1] in prev then prev else prev + [s[|s| - 1]]
  }

  lemma {:induction false} GroupVisitsValid<R>(vs: seq<Visit<R>>)
    ensures NestedValid(GroupVisits(vs))
    decreases |vs|
  {
    if vs != [] {
      var g, last := GroupVisits(vs[..|vs| - 1]), vs[|vs| - 1];
      GroupVisitsValid(vs[..|vs| - 1]);
      PutValid(Inner(g, last.port), last.name, last.route);
      PutValid(g, last.port, Put(Inner(g, last.port), last.name, last.route));
    }
  }

  lemma {:induction false} VisitedPortGrouped<R>(vs: seq<Visit<R>>, i: nat)
    requires i < |vs|
    ensures vs[i].port in GroupVisits(vs).m
    decreases |vs|
  {
    var prefix := vs[..|vs| - 1];
    if i < |prefix| {
      VisitedPortGrouped(prefix, i);
      assert prefix[i] == vs[i];
    }
  }

  lemma {:induction false} GroupedPortVisited<R>(vs: seq<Visit<R>>, p: nat)
    requires p in GroupVisits(vs).m
    ensures exists i :: 0 <= i < |vs| && vs[i].port == p
    decreases |vs|
  {
    var prefix, last := vs[..|vs| - 1], vs[|vs| - 1];
    if p == last.port {
      assert vs[|vs| - 1].port == p;
    } else {
      GroupedPortVisited(prefix, p);
      var i :| 0 <= i < |prefix| && prefix[i].port == p;
      assert vs[i] == prefix[i];
    }
  }

  /** A port has a group exactly when some visit was made on it. */
  lemma GroupedPorts<R>(vs: seq<Visit<R>>, p: nat)
    ensures p in GroupVisits(vs).m <==> exists i :: 0 <= i < |vs| && vs[i].port == p
  {
    if p in GroupVisits(vs).m {
      GroupedPortVisited(vs, p);
    }
    if exists i :: 0 <= i < |vs| && vs[i].port == p {
      var i :| 0 <= i < |vs| && vs[i].port == p;
      VisitedPortGrouped(vs, i);
    }
  }

  lemma {:induction false} VisitedNameGrouped<R>(vs: seq<Visit<R>>, i: nat)
    requires i < |vs|
    ensures vs[i].port in GroupVisits(vs).m && vs[i].name in GroupVisits(vs).m[vs[i].port].m
    decreases |vs|
  {
    var prefix := vs[..|vs| - 1];
    if i < |prefix| {
      VisitedNameGrouped(prefix, i);
      assert prefix[i] == vs[i];
    }
  }

  lemma {:induction false} GroupedNameVisited<R>(vs: seq<Visit<R>>, p: nat, n: string)
    requires p in GroupVisits(vs).m && n in GroupVisits(vs).m[p].m
    ensures exists i :: 0 <= i < |vs| && vs[i].port == p && vs[i].name == n
    decreases |vs|
  {
    var prefix, last := vs[..|vs| - 1], vs[|vs| - 1];
    var g := GroupVisits(prefix);
    if p == last.port && n == last.name {
      assert vs[|vs| - 1].port == p && vs[|vs| - 1].name == n;
    } else {
      assert p in g.m && n in g.m[p].m by {
        if p == last.port {
          assert GroupVisits(vs).m[p] == Put(Inner(g, p), last.name, last.route);
        }
      }
      GroupedNameVisited(prefix, p, n);
      var i :| 0 <= i < |prefix| && prefix[i].port == p && prefix[i].name == n;
      assert vs[i] == prefix[i];
    }
  }

  /** A (port, name) pair is bound exactly when some visit was made with that port and name. */
  lemma GroupedNames<R>(vs: seq<Visit<R>>, p: nat, n: string)
    ensures (p in GroupVisits(vs).m && n in GroupVisits(vs).m[p].m)
        <==> exists i :: 0 <= i < |vs| && vs[i].port == p && vs[i].name == n
  {
    if p in GroupVisits(vs).m && n in GroupVisits(vs).m[p].m {
      GroupedNameVisited(vs, p, n);
    }
    if exists i :: 0 <= i < |vs| && vs[i].port == p && vs[i].name == n {
      var i :| 0 <= i < |vs| && vs[i].port == p && vs[i].name == n;
      VisitedNameGrouped(vs, i);
    }
  }

  /** The route bound to a (port, name) pair is the one of the last visit with that pair: later rows replace earlier ones. */
  lemma {:induction false} LastVisitWins<R>(vs: seq<Visit<R>>, i: nat)
    requires i < |vs|
    requires forall j :: i < j < |vs| ==> vs[j].port != vs[i].port || vs[j].name != vs[i].name
    ensures vs[i].port in GroupVisits(vs).m
    ensures vs[i].name in GroupVisits(vs).m[vs[i].port].m
    ensures GroupVisits(vs).m[vs[i].port].m[vs[i].name] == vs[i].route
    decreases |vs|
  {
    var prefix := vs[..|vs| - 1];
    if i < |vs| - 1 {
      forall j | i < j < |prefix|
        ensures prefix[j].port != prefix[i].port || prefix[j].name != prefix[i].name
      {
        assert prefix[j] == vs[j];
      }
      LastVisitWins(prefix, i);
    }
  }

  /** Whatever route a (port, name) pair is bound to came from a visit with that port and name. */
  lemma {:induction false} GroupedRouteVisited<R>(vs: seq<Visit<R>>, p: nat, n: string)
    requires p in GroupVisits(vs).m && n in GroupVisits(vs).m[p].m
    ensures Visit(p, n, GroupVisits(vs).m[p].m[n]) in vs
    decreases |vs|
  {
    var prefix, last := vs[..|vs| - 1], vs[|vs| - 1];
    var g := GroupVisits(prefix);
    if p != last.port || n != last.name {
      assert p in g.m && n in g.m[p].m && GroupVisits(vs).m[p].m[n] == g.m[p].m[n] by {
        if p == last.port {
          assert GroupVisits(vs).m[p] == Put(Inner(g, p), last.name, last.route);
        }
      }
      GroupedRouteVisited(prefix, p, n);
      assert vs == prefix + [last];
    }
  }

  /** Ports are grouped in the order in which they were first visited. */
  lemma {:induction false} GroupedPortOrder<R>(vs: seq<Visit<R>>)
    ensures GroupVisits(vs).keys == FirstOccurrences(Ports(vs))
    decreases |vs|
  {
    if vs != [] {
      var prefix := vs[..|vs| - 1];
      GroupedPortOrder(prefix);
      GroupVisitsValid(prefix);
      assert Ports(vs)[..|vs| - 1] == Ports(prefix);
    }
  }
}
