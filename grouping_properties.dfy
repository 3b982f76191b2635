/**
 * What the read phase groups, in terms of the store: a port is grouped
 * exactly when a listener of the matching kind on that port has a route whose
 * domain is found, a domain name exactly when such a route resolves to it,
 * and the route bound to a (port, domain name) pair is always one of those.
 * Routes whose domain is missing are skipped.
 */
module GroupingProperties {
  import opened Options
  import opened OrderedMap
  import opened Entities
  import opened RouteCompiler

  // ---------------------------------------------------------------------------
  // Stream routes

  /** Stream route `r` is read through stream listener `l`, and its domain row is found. */
  ghost predicate StreamRead(store: Store, l: Listen, r: StreamRoute) {
    && l in store.listens && l.listenType == StreamListen
    && r in store.streams && r.listenId == l.id
    && FindDomain(store.domains, r.domainId).Some?
  }

  lemma {:induction false} StreamRouteVisitsMember(domains: seq<Domain>, port: nat, rs: seq<StreamRoute>, v: Visit<StreamRoute>)
    ensures v in StreamRouteVisits(domains, port, rs) <==>
      exists r :: r in rs && FindDomain(domains, r.domainId).Some?
        && v == Visit(port, FindDomain(domains, r.domainId).value.domainname, r)
    decreases |rs|
  {
    if rs != [] {
      var init, last := rs[..|rs| - 1], rs[|rs| - 1];
      StreamRouteVisitsMember(domains, port, init, v);
      assert rs == init + [last];
    }
  }

  lemma {:induction false} StreamVisitsMember(store: Store, ls: seq<Listen>, v: Visit<StreamRoute>)
    ensures v in StreamVisits(store, ls) <==>
      exists l, r :: l in ls && l.listenType == StreamListen && r in store.streams && r.listenId == l.id
        && FindDomain(store.domains, r.domainId).Some?
        && v == Visit(l.listenPort, FindDomain(store.domains, r.domainId).value.domainname, r)
    decreases |ls|
  {
    if ls != [] {
      var init, last := ls[..|ls| - 1], ls[|ls| - 1];
      StreamVisitsMember(store, init, v);
      StreamRouteVisitsMember(store.domains, last.listenPort, StreamsOfListen(store.streams, last.id), v);
      assert ls == init + [last];
    }
  }

  /** Every stream route read with its domain found is grouped under its listener's port and its domain's name. */
  lemma StreamReadGrouped(store: Store, l: Listen, r: StreamRoute)
    requires StreamRead(store, l, r)
    ensures l.listenPort in StreamGroups(store).m
    ensures FindDomain(store.domains, r.domainId).value.domainname in StreamGroups(store).m[l.listenPort].m
  {
    var vs := StreamVisits(store, store.listens);
    var v := Visit(l.listenPort, FindDomain(store.domains, r.domainId).value.domainname, r);
    StreamVisitsMember(store, store.listens, v);
    var i :| 0 <= i < |vs| && vs[i] == v;
    VisitedNameGrouped(vs, i);
  }

  /** A port is grouped exactly when a stream route read on that port has its domain found. */
  lemma StreamPortGrouped(store: Store, p: nat)
    ensures p in StreamGroups(store).m <==> exists l, r :: StreamRead(store, l, r) && l.listenPort == p
  {
    var vs := StreamVisits(store, store.listens);
    if p in StreamGroups(store).m {
      GroupedPorts(vs, p);
      var i :| 0 <= i < |vs| && vs[i].port == p;
      VisitedNameGrouped(vs, i);
      StreamBoundRoute(store, p, vs[i].name);
    }
    if exists l, r :: StreamRead(store, l, r) && l.listenPort == p {
      var l, r :| StreamRead(store, l, r) && l.listenPort == p;
      StreamReadGrouped(store, l, r);
    }
  }

  /** The route a (port, domain name) pair is bound to is a stream route read on that port that resolves to that name. */
  lemma StreamBoundRoute(store: Store, p: nat, n: string)
    requires p in StreamGroups(store).m && n in StreamGroups(store).m[p].m
    ensures exists l ::
      (StreamRead(store, l, StreamGroups(store).m[p].m[n]) && l.listenPort == p
       && FindDomain(store.domains, StreamGroups(store).m[p].m[n].domainId).value.domainname == n)
  {
    var vs := StreamVisits(store, store.listens);
    GroupedRouteVisited(vs, p, n);
    StreamVisitsMember(store, store.listens, Visit(p, n, StreamGroups(store).m[p].m[n]));
  }

  // ---------------------------------------------------------------------------
  // Http routes

  /** Http route `r` is read through http listener `l`, and its domain row is found. */
  ghost predicate HttpRead(store: Store, l: Listen, r: HttpRoute) {
    && l in store.listens && l.listenType == HttpListen
    && r in store.https && r.listenId == l.id
    && FindDomain(store.domains, r.domainId).Some?
  }

  lemma {:induction false} HttpRouteVisitsMember(domains: seq<Domain>, port: nat, rs: seq<HttpRoute>, v: Visit<HttpRoute>)
    ensures v in HttpRouteVisits(domains, port, rs) <==>
      exists r :: r in rs && FindDomain(domains, r.domainId).Some?
        && v == Visit(port, FindDomain(domains, r.domainId).value.domainname, r)
    decreases |rs|
  {
    if rs != [] {
      var init, last := rs[..|rs| - 1], rs[|rs| - 1];
      HttpRouteVisitsMember(domains, port, init, v);
      assert rs == init + [last];
    }
  }

  lemma {:induction false} HttpVisitsMember(store: Store, ls: seq<Listen>, v: Visit<HttpRoute>)
    ensures v in HttpVisits(store, ls) <==>
      exists l, r :: l in ls && l.listenType == HttpListen && r in store.https && r.listenId == l.id
        && FindDomain(store.domains, r.domainId).Some?
        && v == Visit(l.listenPort, FindDomain(store.domains, r.domainId).value.domainname, r)
    decreases |ls|
  {
    if ls != [] {
      var init, last := ls[..|ls| - 1], ls[|ls| - 1];
      HttpVisitsMember(store, init, v);
      HttpRouteVisitsMember(store.domains, last.listenPort, HttpsOfListen(store.https, last.id), v);
      assert ls == init + [last];
    }
  }

  /** Every http route read with its domain found is grouped under its listener's port and its domain's name. */
  lemma HttpReadGrouped(store: Store, l: Listen, r: HttpRoute)
    requires HttpRead(store, l, r)
    ensures l.listenPort in HttpGroups(store).m
    ensures FindDomain(store.domains, r.domainId).value.domainname in HttpGroups(store).m[l.listenPort].m
  {
    var vs := HttpVisits(store, store.listens);
    var v := Visit(l.listenPort, FindDomain(store.domains, r.domainId).value.domainname, r);
    HttpVisitsMember(store, store.listens, v);
    var i :| 0 <= i < |vs| && vs[i] == v;
    VisitedNameGrouped(vs, i);
  }

  /** A port is grouped exactly when an http route read on that port has its domain found. */
  lemma HttpPortGrouped(store: Store, p: nat)
    ensures p in HttpGroups(store).m <==> exists l, r :: HttpRead(store, l, r) && l.listenPort == p
  {
    var vs := HttpVisits(store, store.listens);
    if p in HttpGroups(store).m {
      GroupedPorts(vs, p);
      var i :| 0 <= i < |vs| && vs[i].port == p;
      VisitedNameGrouped(vs, i);
      HttpBoundRoute(store, p, vs[i].name);
    }
    if exists l, r :: HttpRead(store, l, r) && l.listenPort == p {
      var l, r :| HttpRead(store, l, r) && l.listenPort == p;
      HttpReadGrouped(store, l, r);
    }
  }

  /** The route a (port, domain name) pair is bound to is an http route read on that port that resolves to that name. */
  lemma HttpBoundRoute(store: Store, p: nat, n: string)
    requires p in HttpGroups(store).m && n in HttpGroups(store).m[p].m
    ensures exists l ::
      (HttpRead(store, l, HttpGroups(store).m[p].m[n]) && l.listenPort == p
       && FindDomain(store.domains, HttpGroups(store).m[p].m[n].domainId).value.domainname == n)
  {
    var vs := HttpVisits(store, store.listens);
    GroupedRouteVisited(vs, p, n);
    HttpVisitsMember(store, store.listens, Visit(p, n, HttpGroups(store).m[p].m[n]));
  }
}
