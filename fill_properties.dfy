/**
 * The shape of the compiled configuration: one SNI map and one stream server
 * per stream port, the map entries of each port, and per http port one server
 * per domain plus exactly one default server.
 */
module FillProperties {
  import opened Options
  import opened OrderedMap
  import opened Entities
  import opened NginxConfig
  import opened RouteCompiler

  // ---------------------------------------------------------------------------
  // The SNI map of one port

  /**
   * The named entries of a port's map after its first `k` domains are exactly
   * the domains among them whose route is not the default one, each keyed by
   * its domain name and pointing at its route's upstream.
   */
  lemma {:induction false} PortEntriesNamed(inner: OMap<string, StreamRoute>, k: nat)
    requires inner.Valid() && k <= |inner.keys|
    ensures forall e :: e in PortEntries(inner, k) <==>
      exists i :: 0 <= i < k && !RouteAt(inner, i).isDefault
        && e == Directive(inner.keys[i], RouteUpstreamName(RouteAt(inner, i)))
  {
    if k > 0 {
      PortEntriesNamed(inner, k - 1);
    }
  }

  /**
   * The `defaultMapDomain` of a port is set exactly when one of its domains has
   * a default route, and it then holds the upstream of the last such domain:
   * a later default route replaces an earlier one.
   */
  lemma {:induction false} PortDefaultLast(inner: OMap<string, StreamRoute>, k: nat)
    requires inner.Valid() && k <= |inner.keys|
    ensures PortDefault(inner, k).None? <==> forall i :: 0 <= i < k ==> !RouteAt(inner, i).isDefault
    ensures PortDefault(inner, k).Some? ==>
      exists i :: 0 <= i < k && RouteAt(inner, i).isDefault
        && PortDefault(inner, k).value == RouteUpstreamName(RouteAt(inner, i))
        && forall i' :: i < i' < k ==> !RouteAt(inner, i').isDefault
  {
    if k > 0 {
      PortDefaultLast(inner, k - 1);
      if !RouteAt(inner, k - 1).isDefault && PortDefault(inner, k).Some? {
        var i :| 0 <= i < k - 1 && RouteAt(inner, i).isDefault
          && PortDefault(inner, k - 1).value == RouteUpstreamName(RouteAt(inner, i))
          && forall i' :: i < i' < k - 1 ==> !RouteAt(inner, i').isDefault;
        assert forall i' :: i < i' < k ==> !RouteAt(inner, i').isDefault;
      }
    }
  }

  /**
   * When no domain of the port is itself named `default`, the port's map has at
   * most one `default` key. It is there exactly when some domain has a default
   * route, it is the map's last entry, and it points at the upstream of the
   * last domain with a default route.
   */
  lemma PortMapDefaultKey(port: nat, inner: OMap<string, StreamRoute>)
    requires inner.Valid() && DEFAULT_KEY !in inner.keys
    ensures var es := PortMap(port, inner).entries;
      forall a :: 0 <= a < |es| && es[a].name == DEFAULT_KEY ==> a == |es| - 1
    ensures var es := PortMap(port, inner).entries;
      (exists a :: 0 <= a < |es| && es[a].name == DEFAULT_KEY)
        <==> exists i :: 0 <= i < |inner.keys| && RouteAt(inner, i).isDefault
    ensures var es := PortMap(port, inner).entries;
      |es| > 0 && es[|es| - 1].name == DEFAULT_KEY ==>
        exists i :: 0 <= i < |inner.keys| && RouteAt(inner, i).isDefault
          && es[|es| - 1].value == RouteUpstreamName(RouteAt(inner, i))
          && forall i' :: i < i' < |inner.keys| ==> !RouteAt(inner, i').isDefault
  {
    var n := |inner.keys|;
    var named := PortEntries(inner, n);
    var es := PortMap(port, inner).entries;
    assert es == named + DefaultEntries(PortDefault(inner, n));
    PortEntriesNamed(inner, n);
    PortDefaultLast(inner, n);
    forall a | 0 <= a < |named|
      ensures named[a].name != DEFAULT_KEY
    {
      assert named[a] in named;
    }
    if PortDefault(inner, n).Some? {
      assert es[|es| - 1] == Directive(DEFAULT_KEY, PortDefault(inner, n).value);
    } else {
      assert es == named;
    }
  }

  /**
   * A domain that is itself named `default` and has no default route still puts
   * a `default` key in the port's map, pointing at its own upstream, whether or
   * not another domain of the port has a default route.
   */
  lemma DomainNamedDefault(port: nat, inner: OMap<string, StreamRoute>, i: nat)
    requires inner.Valid() && i < |inner.keys|
    requires inner.keys[i] == DEFAULT_KEY && !RouteAt(inner, i).isDefault
    ensures Directive(DEFAULT_KEY, RouteUpstreamName(RouteAt(inner, i))) in PortMap(port, inner).entries
  {
    PortEntriesNamed(inner, |inner.keys|);
  }

  // ---------------------------------------------------------------------------
  // The stream context: one map and one server per port, in port order

  /** The `i`-th map is the one of the `i`-th port, once the fill has passed it. */
  lemma {:induction false} StreamMapAt(groups: Groups<StreamRoute>, i: nat, j: nat)
    requires NestedValid(groups) && i < j <= |groups.keys|
    ensures |StreamMaps(groups, j)| == j
    ensures StreamMaps(groups, j)[i] == PortMap(groups.keys[i], groups.m[groups.keys[i]])
    decreases j
  {
    if i < j - 1 {
      StreamMapAt(groups, i, j - 1);
    } else if j > 1 {
      StreamMapAt(groups, 0, j - 1);
    }
  }

  lemma StreamMapsIndexed(groups: Groups<StreamRoute>, j: nat)
    requires NestedValid(groups) && j <= |groups.keys|
    ensures |StreamMaps(groups, j)| == j
    ensures forall i :: 0 <= i < j ==> StreamMaps(groups, j)[i] == PortMap(groups.keys[i], groups.m[groups.keys[i]])
  {
    if j > 0 {
      StreamMapAt(groups, 0, j);
    }
    forall i | 0 <= i < j
      ensures StreamMaps(groups, j)[i] == PortMap(groups.keys[i], groups.m[groups.keys[i]])
    {
      StreamMapAt(groups, i, j);
    }
  }

  lemma {:induction false} StreamServersIndexed(groups: Groups<StreamRoute>, j: nat)
    requires j <= |groups.keys|
    ensures |StreamServers(groups, j)| == j
    ensures forall i :: 0 <= i < j ==> StreamServers(groups, j)[i] == StreamServer(groups.keys[i])
  {
    if j > 0 {
      StreamServersIndexed(groups, j - 1);
    }
  }

  /**
   * The compiled stream context imports the njs module once and has, for the
   * `i`-th grouped port, the `i`-th map and the `i`-th server; the server
   * listens on that port and proxies to the variable that port's map sets,
   * and no two stream servers listen on the same port.
   */
  lemma CompiledStreamPorts(store: Store)
    ensures NestedValid(StreamGroups(store))
    ensures Compile(store).stream.variables == [JS_IMPORT]
    ensures |Compile(store).stream.maps| == |StreamGroups(store).keys|
    ensures |Compile(store).stream.servers| == |StreamGroups(store).keys|
    ensures forall i :: 0 <= i < |StreamGroups(store).keys| ==>
      var port := StreamGroups(store).keys[i];
      && Compile(store).stream.maps[i] == PortMap(port, StreamGroups(store).m[port])
      && Compile(store).stream.servers[i].listenPort == port
      && Directive("proxy_pass", Compile(store).stream.maps[i].variable) in Compile(store).stream.servers[i].variables
    ensures forall i, i' :: 0 <= i < i' < |Compile(store).stream.servers| ==>
      Compile(store).stream.servers[i].listenPort != Compile(store).stream.servers[i'].listenPort
  {
    GroupVisitsValid(StreamVisits(store, store.listens));
    var groups := StreamGroups(store);
    StreamMapsIndexed(groups, |groups.keys|);
    StreamServersIndexed(groups, |groups.keys|);
  }

  // ---------------------------------------------------------------------------
  // The http context: per port, one server per domain, then the default server

  lemma {:induction false} NamedHttpServersIndexed(port: nat, names: seq<string>)
    ensures |NamedHttpServers(port, names)| == |names|
    ensures forall i :: 0 <= i < |names| ==> NamedHttpServers(port, names)[i] == NamedHttpServer(port, names[i])
    decreases |names|
  {
    if names != [] {
      NamedHttpServersIndexed(port, names[..|names| - 1]);
    }
  }

  /** Every server the http fill writes belongs to a grouped port: the default one, or a named one for a grouped domain. */
  lemma {:induction false} HttpServersGrouped(groups: Groups<HttpRoute>, j: nat)
    requires NestedValid(groups) && j <= |groups.keys|
    ensures forall s :: s in HttpFill(groups, j) ==>
      && s.listenPort in groups.keys[..j]
      && (s.defaultServer ==> s == DefaultHttpServer(s.listenPort))
      && (!s.defaultServer ==> s.serverName.Some? && s.serverName.value in groups.m[s.listenPort].m
                               && s == NamedHttpServer(s.listenPort, s.serverName.value))
  {
    if j > 0 {
      HttpServersGrouped(groups, j - 1);
      var port := groups.keys[j - 1];
      NamedHttpServersIndexed(port, groups.m[port].keys);
      assert groups.keys[..j] == groups.keys[..j - 1] + [port];
    }
  }

  /** Every grouped port gets its default server. */
  lemma {:induction false} HttpDefaultComplete(groups: Groups<HttpRoute>, j: nat)
    requires NestedValid(groups) && j <= |groups.keys|
    ensures forall i :: 0 <= i < j ==> DefaultHttpServer(groups.keys[i]) in HttpFill(groups, j)
  {
    if j > 0 {
      HttpDefaultComplete(groups, j - 1);
    }
  }

  /** The servers the `j`-th port adds cover each of its grouped domains; earlier ports keep theirs. */
  lemma HttpNamedStep(groups: Groups<HttpRoute>, j: nat)
    requires NestedValid(groups) && 0 < j <= |groups.keys|
    requires forall i, n :: 0 <= i < j - 1 && n in groups.m[groups.keys[i]].m ==>
      NamedHttpServer(groups.keys[i], n) in HttpFill(groups, j - 1)
    ensures forall i, n :: 0 <= i < j && n in groups.m[groups.keys[i]].m ==>
      NamedHttpServer(groups.keys[i], n) in HttpFill(groups, j)
  {
    var port := groups.keys[j - 1];
    var names := groups.m[port].keys;
    NamedHttpServersIndexed(port, names);
    forall n | n in groups.m[port].m
      ensures NamedHttpServer(port, n) in NamedHttpServers(port, names)
    {
      var i :| 0 <= i < |names| && names[i] == n;
      assert NamedHttpServers(port, names)[i] == NamedHttpServer(port, n);
    }
  }

  /** Every grouped domain of a grouped port gets a server named after it on that port. */
  lemma {:induction false} HttpNamedComplete(groups: Groups<HttpRoute>, j: nat)
    requires NestedValid(groups) && j <= |groups.keys|
    ensures forall i, n :: 0 <= i < j && n in groups.m[groups.keys[i]].m ==>
      NamedHttpServer(groups.keys[i], n) in HttpFill(groups, j)
  {
    if j > 0 {
      HttpNamedComplete(groups, j - 1);
      HttpNamedStep(groups, j);
    }
  }

  /** No two default servers of the http fill listen on the same port. */
  lemma {:induction false} HttpDefaultUnique(groups: Groups<HttpRoute>, j: nat)
    requires NestedValid(groups) && j <= |groups.keys|
    ensures forall a, b ::
      (0 <= a < b < |HttpFill(groups, j)| && HttpFill(groups, j)[a].defaultServer && HttpFill(groups, j)[b].defaultServer)
      ==> HttpFill(groups, j)[a].listenPort != HttpFill(groups, j)[b].listenPort
  {
    if j > 0 {
      var prev, port := HttpFill(groups, j - 1), groups.keys[j - 1];
      var named := NamedHttpServers(port, groups.m[port].keys);
      var all := HttpFill(groups, j);
      HttpDefaultUnique(groups, j - 1);
      HttpServersGrouped(groups, j - 1);
      NamedHttpServersIndexed(port, groups.m[port].keys);
      assert all == prev + named + [DefaultHttpServer(port)];
      forall a, b | 0 <= a < b < |all| && all[a].defaultServer && all[b].defaultServer
        ensures all[a].listenPort != all[b].listenPort
      {
        if b < |prev| {
          assert all[a] == prev[a] && all[b] == prev[b];
        } else {
          assert b == |all| - 1 && a < |prev|;
          assert all[a] == prev[a] && prev[a] in prev;
          assert port !in groups.keys[..j - 1];
        }
      }
    }
  }

  /** Every grouped http port has its default server and a server named after each of its grouped domains. */
  lemma CompiledHttpComplete(store: Store)
    ensures NestedValid(HttpGroups(store))
    ensures forall p :: p in HttpGroups(store).m ==> DefaultHttpServer(p) in Compile(store).http.servers
    ensures forall p, n :: p in HttpGroups(store).m && n in HttpGroups(store).m[p].m ==>
      NamedHttpServer(p, n) in Compile(store).http.servers
  {
    GroupVisitsValid(HttpVisits(store, store.listens));
    var groups := HttpGroups(store);
    var n := |groups.keys|;
    assert Compile(store).http.servers == HttpFill(groups, n);
    HttpDefaultComplete(groups, n);
    HttpNamedComplete(groups, n);
    forall p | p in groups.m ensures exists i :: 0 <= i < n && groups.keys[i] == p {
      assert p in groups.keys;
    }
  }

  /** Every compiled http server is one of those, and no port has two default servers. */
  lemma CompiledHttpSound(store: Store)
    ensures NestedValid(HttpGroups(store))
    ensures forall s :: s in Compile(store).http.servers ==>
      && s.listenPort in HttpGroups(store).m
      && (s.defaultServer ==> s == DefaultHttpServer(s.listenPort))
      && (!s.defaultServer ==> s.serverName.Some? && s.serverName.value in HttpGroups(store).m[s.listenPort].m
                               && s == NamedHttpServer(s.listenPort, s.serverName.value))
    ensures forall a, b ::
      (0 <= a < b < |Compile(store).http.servers| && Compile(store).http.servers[a].defaultServer
        && Compile(store).http.servers[b].defaultServer)
      ==> Compile(store).http.servers[a].listenPort != Compile(store).http.servers[b].listenPort
  {
    GroupVisitsValid(HttpVisits(store, store.listens));
    var groups := HttpGroups(store);
    var n := |groups.keys|;
    assert Compile(store).http.servers == HttpFill(groups, n);
    HttpServersGrouped(groups, n);
    HttpDefaultUnique(groups, n);
    assert groups.keys[..n] == groups.keys;
  }
}
