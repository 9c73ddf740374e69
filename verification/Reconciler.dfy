/**
 The reconciler of one Central (fleetshard/pkg/central/reconciler/reconciler.go): the guard against
 concurrent calls, the change cache, the steps that install a Central, and whole histories of calls
 with failures, restarts and moves of the cluster.
 */
module Reconciling {
  import opened Cluster
  import opened Optional
  import opened Credentials
  import opened Deletion
  import opened Revision
  import opened Order

  const StatusReady := "ready"
  const StatusProvisioning := "provisioning"

  datatype Outcome = Ready | Installing | Deleted | Busy | NotChanged | DeletionInProgress | Failure

  predicate IsReady(r: ManagedCentral) { r.requestStatus == StatusReady }

  // ---------------------------------------------------------------------------------------------
  // The steps of an installation
  // ---------------------------------------------------------------------------------------------

  method EnsureNamespaceExists(c: Client) returns (e: Error)
    requires Sound(c.s)
    modifies c`s
    ensures Sound(c.s) && e in {NoError, Failed}
    ensures c.s == old(c.s) || (old(c.s).ns == Absent && c.s == old(c.s).(ns := Active))
    ensures e == NoError ==> c.s.ns != Absent
    ensures c.calm ==> e == NoError
  {
    var get, phase := c.GetNamespace();
    if get == NotFound {
      e := c.CreateNamespace();
      return;
    }
    e := get;
  }

  ghost predicate ChartInPlace(o: Options, s: Store, names: set<string>) {
    forall n :: n in names && n in o.rendered ==> Chart(n) in s.objs && s.objs[Chart(n)].body == Rendered(o.rendered[n])
  }

  /** Only objects of the chart were created or updated. */
  ghost predicate OnlyChart(before: Store, after: Store) {
    && after == before.(objs := after.objs)
    && (forall k :: k in before.objs ==> k in after.objs && after.objs[k].marked == before.objs[k].marked)
    && (forall k: Key :: !k.Chart? ==> (k in before.objs <==> k in after.objs))
    && (forall k: Key :: !k.Chart? && k in before.objs ==> after.objs[k] == before.objs[k])
  }

  method EnsureChartObject(c: Client, n: string, content: string) returns (e: Error)
    requires Sound(c.s)
    modifies c`s
    ensures Sound(c.s) && e in {NoError, Failed}
    ensures c.s == old(c.s) || c.s == Put(old(c.s), Chart(n), Rendered(content))
    ensures e == NoError ==> c.s == Put(old(c.s), Chart(n), Rendered(content))
    ensures c.calm && c.s.ns == Active ==> e == NoError
  {
    var get, found := c.Get(Chart(n));
    if get == NoError {
      e := c.Update(Chart(n), Rendered(content));
      return;
    }
    if get != NotFound { return Failed; }
    e := c.Create(Chart(n), Rendered(content));
    if e == AlreadyExists { e := NoError; }
  }

  lemma ChartGrows(o: Options, start: Store, before: Store, done: set<string>, n: string, after: Store)
    requires OnlyChart(start, before) && ChartInPlace(o, before, done) && n in o.rendered
    requires after == before || after == Put(before, Chart(n), Rendered(o.rendered[n]))
    ensures OnlyChart(start, after)
    ensures Chart(n) in after.objs && after.objs[Chart(n)].body == Rendered(o.rendered[n]) ==>
      ChartInPlace(o, after, done + {n})
  {
  }

  method EnsureChartExists(c: Client, o: Options) returns (e: Error)
    requires Sound(c.s)
    modifies c`s
    ensures Sound(c.s) && e in {NoError, Failed} && OnlyChart(old(c.s), c.s)
    ensures e == NoError ==> ChartInPlace(o, c.s, o.rendered.Keys)
    ensures c.calm && c.s.ns == Active ==> e == NoError
  {
    var names, done: set<string> := o.rendered.Keys, {};
    e := NoError;
    while names != {}
      invariant names + done == o.rendered.Keys && Sound(c.s) && OnlyChart(old(c.s), c.s) && e == NoError
      invariant ChartInPlace(o, c.s, done)
      decreases |names|
    {
      var n :| n in names;
      ghost var before := c.s;
      e := EnsureChartObject(c, n, o.rendered[n]);
      ChartGrows(o, old(c.s), before, done, n, c.s);
      if e != NoError { return; }
      names, done := names - {n}, done + {n};
    }
    assert done == o.rendered.Keys;
  }

  /** The annotations of a new Central. */
  const NewAnnotations: map<string, string> := map[ManagedAnnotation := "true"]

  /** The annotations that the Central has, or is created with. */
  function CentralAnnotations(s: Store): map<string, string> {
    if Central in s.objs && s.objs[Central].body.CentralCR? then s.objs[Central].body.annotations else NewAnnotations
  }

  /** The Central now has `spec`, its revision was a number and went up by one, and its other annotations stayed. */
  ghost predicate CentralApplied(before: Store, after: Store, spec: Spec) {
    && Central in after.objs && after == Put(before, Central, after.objs[Central].body)
    && after.objs[Central].body.CentralCR? && after.objs[Central].body.spec == spec
    && NextRevision(CentralAnnotations(before), CentralAnnotations(after))
  }

  /** The revision of the Central, if there is one, is a number. */
  ghost predicate RevisionReadable(s: Store) { exists n :: HasRevision(CentralAnnotations(s), n) }

  method ApplyCentral(c: Client, spec: Spec) returns (e: Error)
    requires Sound(c.s)
    modifies c`s
    ensures Sound(c.s) && e in {NoError, Failed}
    ensures c.s == old(c.s) || CentralApplied(old(c.s), c.s, spec)
    ensures e == NoError ==> CentralApplied(old(c.s), c.s, spec)
    ensures Central !in old(c.s).objs && Central in c.s.objs ==>
      c.s.objs[Central].body.annotations ==
        map["platform.stackrox.io/managed-services" := "true", "rhacs.redhat.com/revision" := "1"]
    ensures c.calm && c.s.ns == Active ==> (e == NoError <==> RevisionReadable(old(c.s)))
  {
    var get, found := c.Get(Central);
    if get == Failed { return Failed; }
    if get == NotFound {
      assert HasRevision(NewAnnotations, 0);
      var central := new CentralMeta(Some(NewAnnotations));
      assert central.Held() == CentralAnnotations(c.s);
      var ok := IncrementCentralRevision(central);
      if !ok { return Failed; }
      assert central.annotations.value ==
        map["platform.stackrox.io/managed-services" := "true", "rhacs.redhat.com/revision" := "1"];
      e := c.Create(Central, CentralCR(spec, central.annotations.value));
      if e == AlreadyExists { e := Failed; }
    } else {
      var central := new CentralMeta(Some(found.value.body.annotations));
      assert central.Held() == CentralAnnotations(c.s);
      var ok := IncrementCentralRevision(central);
      if !ok { return Failed; }
      e := c.Update(Central, CentralCR(spec, central.annotations.value));
    }
  }

  datatype RouteError = RoutesOk | TLSSecretNotFound | RoutesFailed

  /** The route is there, or what its creation needs: the reencrypt route takes its CA from the TLS secret. */
  predicate RoutePossible(s: Store, k: Key) { k in s.objs || k != ReencryptRoute || s.pods.tlsSecret }

  method EnsureRoute(c: Client, k: Key) returns (e: Error)
    requires Sound(c.s) && (k == ReencryptRoute || k == PassthroughRoute)
    modifies c`s
    ensures Sound(c.s) && e in {NoError, NotFound, Failed} && (e == NotFound ==> k == ReencryptRoute)
    ensures c.s == old(c.s) || (k !in old(c.s).objs && c.s == Put(old(c.s), k, Route))
    ensures e == NoError ==> k in c.s.objs
    ensures c.calm && c.s.ns == Active ==> e == if RoutePossible(old(c.s), k) then NoError else NotFound
  {
    var find, found := c.Get(k);
    if find == NoError { return NoError; }
    if find != NotFound { return Failed; }
    if k == ReencryptRoute {
      e := c.TLSSecretFound();
      if e != NoError { return; }
    }
    e := c.Create(k, Route);
    if e == AlreadyExists { e := Failed; }
  }

  /** Nothing but routes was created. */
  ghost predicate OnlyRoutes(before: Store, after: Store) {
    && after == before.(objs := after.objs)
    && (forall k :: k in before.objs ==> k in after.objs && after.objs[k] == before.objs[k])
    && (forall k :: k in after.objs && k != ReencryptRoute && k != PassthroughRoute ==> k in before.objs)
  }

  lemma RouteAdded(start: Store, before: Store, after: Store, k: Key)
    requires OnlyRoutes(start, before) && (k == ReencryptRoute || k == PassthroughRoute)
    requires after == before || (k !in before.objs && after == Put(before, k, Route))
    ensures OnlyRoutes(start, after)
  {
  }

  lemma RoutesInstall(before: Store, after: Store)
    requires OnlyRoutes(before, after)
    ensures Installs(before, after) && CentralAnnotations(before) == CentralAnnotations(after)
  {
  }

  /** ensureRoutesExist: without the TLS secret of Central the second route is not tried. */
  method EnsureRoutesExist(c: Client) returns (e: RouteError)
    requires Sound(c.s)
    modifies c`s
    ensures Sound(c.s) && OnlyRoutes(old(c.s), c.s)
    ensures e == RoutesOk ==> ReencryptRoute in c.s.objs && PassthroughRoute in c.s.objs
    ensures c.calm && c.s.ns == Active ==>
      e == if RoutePossible(old(c.s), ReencryptRoute) then RoutesOk else TLSSecretNotFound
  {
    var first := EnsureRoute(c, ReencryptRoute);
    RouteAdded(old(c.s), old(c.s), c.s, ReencryptRoute);
    if first == NotFound { return TLSSecretNotFound; }
    if first != NoError { return RoutesFailed; }
    ghost var s1 := c.s;
    var second := EnsureRoute(c, PassthroughRoute);
    RouteAdded(old(c.s), s1, c.s, PassthroughRoute);
    e := if second == NoError then RoutesOk else RoutesFailed;
  }

  // ---------------------------------------------------------------------------------------------
  // The change cache, over all calls on one reconciler
  // ---------------------------------------------------------------------------------------------

  /** The last Central that was carried through to Ready, and whether its auth provider is known. */
  datatype Cache = Cache(last: Option<ManagedCentral>, knowsAuth: bool)

  /** The early exit: nothing changed since the last Ready, and there is nothing left to do. */
  predicate Skips(o: Options, c: Cache, r: ManagedCentral) {
    && c.last == Some(r)
    && o.wantsAuthProvider == c.knowsAuth && IsReady(r) && r.actualVersion == r.desiredVersion
  }

  /** An auth provider is not forgotten, and one becomes known only if it is wanted. */
  predicate Learns(o: Options, before: bool, after: bool) {
    (before ==> after) && (after ==> before || o.wantsAuthProvider)
  }

  /** What one call may do to the cache. */
  ghost predicate CacheStep(o: Options, before: Cache, r: ManagedCentral, out: Outcome, after: Cache) {
    if out == Busy then after == before
    else if Skips(o, before, r) then out == NotChanged && after == before
    else
      && Learns(o, before.knowsAuth, after.knowsAuth)
      && after.last == (if out == Ready then Some(r) else before.last)
      && (r.deletionTimestamp != "" ==> out in {Deleted, DeletionInProgress, Failure})
      && (out == NotChanged ==> before.last == Some(r) && r.requestStatus == StatusProvisioning)
  }

  datatype Call = Call(central: ManagedCentral, outcome: Outcome)

  ghost predicate IsCacheRun(o: Options, caches: seq<Cache>, calls: seq<Call>) {
    && |caches| == |calls| + 1 && caches[0] == Cache(None, false)
    && forall i :: 0 <= i < |calls| ==> CacheStep(o, caches[i], calls[i].central, calls[i].outcome, caches[i + 1])
  }

  lemma {:induction false} CachedWasReady(o: Options, caches: seq<Cache>, calls: seq<Call>, i: nat) returns (j: nat)
    requires IsCacheRun(o, caches, calls) && i < |caches| && caches[i].last.Some?
    ensures j < i && calls[j] == Call(caches[i].last.value, Ready)
  {
    if caches[i].last == caches[i - 1].last {
      j := CachedWasReady(o, caches, calls, i - 1);
    } else {
      j := i - 1;
      assert CacheStep(o, caches[j], calls[j].central, calls[j].outcome, caches[i]);
    }
  }

  /**
   Over every sequence of calls: a call takes the early exit only for a Central that an earlier
   call carried through to Ready, unchanged since, with equal versions and any wanted auth provider
   known; and never for a Central with a deletion timestamp.
   */
  lemma SkippedOnlyAfterReady(o: Options, caches: seq<Cache>, calls: seq<Call>, i: nat)
    requires IsCacheRun(o, caches, calls) && i < |calls| && Skips(o, caches[i], calls[i].central)
    ensures exists j :: 0 <= j < i && calls[j] == Call(calls[i].central, Ready)
    ensures calls[i].central.actualVersion == calls[i].central.desiredVersion
    ensures o.wantsAuthProvider ==> caches[i].knowsAuth
    ensures calls[i].central.deletionTimestamp == ""
  {
    var j := CachedWasReady(o, caches, calls, i);
    assert CacheStep(o, caches[j], calls[j].central, calls[j].outcome, caches[j + 1]);
  }

  /**
   The other way round: a Central that was carried to Ready, and is asked for again, is not touched if its request has
   the status ready and equal versions, and an auth provider is known exactly if one is wanted.
   */
  lemma ReadyIsSkippedNext(o: Options, caches: seq<Cache>, calls: seq<Call>, i: nat)
    requires IsCacheRun(o, caches, calls) && i + 1 < |calls|
    requires calls[i].outcome == Ready && calls[i + 1].central == calls[i].central && calls[i + 1].outcome != Busy
    requires var r := calls[i].central; r.requestStatus == StatusReady && r.actualVersion == r.desiredVersion
    requires o.wantsAuthProvider == caches[i + 1].knowsAuth
    ensures calls[i + 1].outcome == NotChanged && caches[i + 2] == caches[i + 1]
  {
    assert CacheStep(o, caches[i], calls[i].central, calls[i].outcome, caches[i + 1]);
    assert CacheStep(o, caches[i + 1], calls[i + 1].central, calls[i + 1].outcome, caches[i + 2]);
  }

  // ---------------------------------------------------------------------------------------------
  // The reconciler object
  // ---------------------------------------------------------------------------------------------

  /** The namespace, the chart and the database of a Central are in place. */
  ghost predicate Provisioned(o: Options, s: Store) {
    && s.ns != Absent && ChartInPlace(o, s, o.rendered.Keys)
    && (o.managedDB && !s.deprovisioned ==> HandedOver(s))
  }

  lemma ProvisionedKept(o: Options, s: Store, t: Store)
    requires Provisioned(o, s) && t.ns == s.ns && t.db == s.db && t.deprovisioned == s.deprovisioned
    requires forall k: Key :: k in s.objs && (k.Chart? || k == DbSecret) ==> k in t.objs && t.objs[k] == s.objs[k]
    ensures Provisioned(o, t)
  {
  }

  /** An auth provider is known already, or is wanted and found in a ready Central. */
  predicate Knows(o: Options, s: Store, known: bool) {
    known || (o.wantsAuthProvider && s.pods.deploymentReady && s.pods.authProvider)
  }

  /** The admin password is disabled if and only if an auth provider was known before. */
  predicate Wanted(o: Options, dbHost: string, spec: Spec, r: ManagedCentral, knew: bool, ca: bool) {
    && spec.source == r && spec.routes == o.useRoutes && (spec.adminPasswordDisabled <==> knew)
    && (spec.ca <==> o.managedDB && ca)
    && spec.database == if o.managedDB then Some(Connection(dbHost, CentralUserName, true)) else None
  }

  /** What a call that reports Ready has achieved, from the store at its start. */
  ghost predicate Installed(o: Options, dbHost: string, before: Store, after: Store,
    r: ManagedCentral, knew: bool, knowsAuth: bool, ca: bool) {
    && Provisioned(o, after) && after.pods.deploymentReady
    && Central in after.objs && after.objs[Central].body.CentralCR?
    && Wanted(o, dbHost, after.objs[Central].body.spec, r, knew, ca)
    && NextRevision(CentralAnnotations(before), CentralAnnotations(after))
    && (o.useRoutes ==> ReencryptRoute in after.objs && PassthroughRoute in after.objs)
    && (knowsAuth <==> knew || (o.wantsAuthProvider && !IsReady(r)))
  }

  ghost predicate SameCentral(s: Store, t: Store) {
    (Central in s.objs <==> Central in t.objs) && (Central in s.objs ==> t.objs[Central] == s.objs[Central])
  }

  /** What the outcome of the later steps depends on is as before. */
  ghost predicate SameOutlook(s: Store, t: Store) {
    && SameCentral(s, t) && t.deprovisioned == s.deprovisioned && t.pods == s.pods
    && (ReencryptRoute in s.objs <==> ReencryptRoute in t.objs)
  }

  lemma NamespaceInstalls(before: Store, after: Store)
    requires after == before || (before.ns == Absent && after == before.(ns := Active))
    ensures Installs(before, after) && SameOutlook(before, after)
  {
  }

  lemma ChartInstalls(before: Store, after: Store)
    requires OnlyChart(before, after)
    ensures Installs(before, after) && SameOutlook(before, after)
  {
    assert forall k :: k in before.objs ==> k in after.objs;
    assert !DbSecret.Chart? && !Central.Chart? && !ReencryptRoute.Chart?;
  }

  method ProvisionNamespaceAndChart(c: Client, o: Options) returns (e: Error)
    requires World(o, c.s)
    modifies c`s
    ensures World(o, c.s) && SameOutlook(old(c.s), c.s)
    ensures e == NoError ==> c.s.ns != Absent && ChartInPlace(o, c.s, o.rendered.Keys)
    ensures c.calm && old(c.s).ns != Terminating ==> e == NoError && c.s.ns == Active
  {
    e := EnsureNamespaceExists(c);
    NamespaceInstalls(old(c.s), c.s);
    InstallsKeepsWorld(o, old(c.s), c.s);
    if e != NoError { return; }
    ghost var s1 := c.s;
    e := EnsureChartExists(c, o);
    ChartInstalls(s1, c.s);
    InstallsKeepsWorld(o, s1, c.s);
  }

  /** Namespace, chart and database, in this order. */
  method Provision(c: Client, o: Options, masterPassword: string, centralPassword: string)
    returns (e: Error, connection: Option<Connection>)
    requires World(o, c.s)
    modifies c`s
    ensures World(o, c.s) && SameOutlook(old(c.s), c.s)
    ensures e == NoError ==> Provisioned(o, c.s)
    ensures e == NoError ==>
      connection == if o.managedDB then Some(Connection(c.dbHost, CentralUserName, true)) else None
    ensures c.calm && old(c.s).ns != Terminating && (o.managedDB ==> !c.s.deprovisioned) ==>
      e == NoError && c.s.ns == Active
  {
    connection := None;
    e := ProvisionNamespaceAndChart(c, o);
    if e != NoError { return; }
    ghost var before := c.s;
    if o.managedDB {
      var made;
      e, made := GetCentralDBConnectionString(c, masterPassword, centralPassword);
      CredentialsKeepWorld(o, before, c.s);
      connection := Some(made);
    }
  }

  /** The Central has `spec` with the next revision, and the routes exist if they could be created. */
  ghost predicate Applied(o: Options, start: Store, s: Store, spec: Spec, tls: bool) {
    && Central in s.objs && s.objs[Central].body.CentralCR? && s.objs[Central].body.spec == spec
    && NextRevision(CentralAnnotations(start), CentralAnnotations(s))
    && (o.useRoutes && tls ==> ReencryptRoute in s.objs && PassthroughRoute in s.objs)
  }

  lemma AuthKeepsWorld(o: Options, s: Store, t: Store)
    requires World(o, s) && Provisioned(o, s) && (t == s || t == WithAuthProvider(s))
    ensures World(o, t) && Provisioned(o, t)
  {
  }

  lemma AppliedIsInstalled(o: Options, dbHost: string, start: Store, s: Store, t: Store, spec: Spec,
    r: ManagedCentral, knew: bool, knowsAuth: bool, ca: bool)
    requires Applied(o, start, s, spec, true) && (t == s || t == WithAuthProvider(s)) && Provisioned(o, t)
    requires Wanted(o, dbHost, spec, r, knew, ca) && (knowsAuth <==> knew || (o.wantsAuthProvider && !IsReady(r)))
    requires t.pods.deploymentReady
    ensures Installed(o, dbHost, start, t, r, knew, knowsAuth, ca)
  {
  }

  lemma SameAnnotations(s: Store, t: Store)
    requires SameCentral(s, t)
    ensures CentralAnnotations(s) == CentralAnnotations(t) && (RevisionReadable(s) <==> RevisionReadable(t))
  {
  }

  lemma CentralInstalls(before: Store, after: Store, spec: Spec)
    requires after == before || CentralApplied(before, after, spec)
    ensures Installs(before, after)
    ensures forall k :: k in before.objs && k != Central ==> k in after.objs && after.objs[k] == before.objs[k]
    ensures after.pods == before.pods && (ReencryptRoute in before.objs <==> ReencryptRoute in after.objs)
  {
  }

  /** Central can have its routes. */
  predicate TlsFound(o: Options, s: Store) { o.useRoutes ==> RoutePossible(s, ReencryptRoute) }

  /** Nothing stands in the way of an installation but failing calls. */
  ghost predicate Installable(o: Options, s: Store) {
    s.ns != Terminating && (o.managedDB ==> !s.deprovisioned) && RevisionReadable(s)
  }

  /**
   What an installation reports without failures. `possible`: Central can have its routes. It is Ready if and only if
   the deployment is ready, the routes are possible, and they are admitted unless the request is ready already. Short
   of the first two it is Installing, or NotChanged for a request that has not changed since the last Ready.
   */
  ghost predicate Reports(o: Options, pods: Pods, r: ManagedCentral, changed: bool, possible: bool, out: Outcome) {
    var admitted := o.useRoutes ==> r.requestStatus == "ready" || pods.routesAdmitted;
    && (out == Ready <==> pods.deploymentReady && possible && admitted)
    && (out == Failure <==> pods.deploymentReady && possible && !admitted)
    && (out == NotChanged <==> !(pods.deploymentReady && possible) && !changed && r.requestStatus == "provisioning")
    && (out == Installing <==> !(pods.deploymentReady && possible) && (changed || r.requestStatus != "provisioning"))
  }

  /** The outcome that is reported. */
  function Reported(o: Options, pods: Pods, r: ManagedCentral, changed: bool, possible: bool): Outcome {
    if !pods.deploymentReady || !possible then
      if r.requestStatus == StatusProvisioning && !changed then NotChanged else Installing
    else if o.useRoutes && !IsReady(r) && !pods.routesAdmitted then Failure
    else Ready
  }

  lemma ReportsTheReported(o: Options, pods: Pods, r: ManagedCentral, changed: bool, possible: bool, out: Outcome)
    ensures Reports(o, pods, r, changed, possible, out) <==> out == Reported(o, pods, r, changed, possible)
  {
  }

  /**
   What a call without failures brings about: a Central that cannot be converted changes nothing; one to be deleted
   makes a full pass; any other gets its database, and the outcome that the state of the tenant calls for.
   */
  ghost predicate Progress(o: Options, before: Store, after: Store, r: ManagedCentral, changed: bool, out: Outcome) {
    if !r.convertible then out == Failure && after == before
    else if r.deletionTimestamp != "" then
      after == AfterPass(o, before) && out == if PassReports(o, before) then Deleted else DeletionInProgress
    else
      && (o.managedDB && before.ns != Terminating && !before.deprovisioned ==> HandedOver(after))
      && (Installable(o, before) ==>
          var possible := o.useRoutes ==> ReencryptRoute in before.objs || before.pods.tlsSecret;
          Reports(o, before.pods, r, changed, possible, out))
  }

  class CentralReconciler {
    const o: Options
    const client: Client
    var blocked: bool
    var lastCentral: Option<ManagedCentral>
    var hasAuthProvider: bool

    constructor (client: Client, o: Options)
      ensures this.client == client && this.o == o && !blocked && Memory() == Cache(None, false)
    {
      this.client, this.o := client, o;
      blocked, lastCentral, hasAuthProvider := false, None, false;
    }

    function Memory(): Cache
      reads this
    {
      Cache(lastCentral, hasAuthProvider)
    }

    /** Learns about an auth provider that exists although this reconciler did not create it. */
    method LookForAuthProvider() returns (e: Error)
      modifies this`hasAuthProvider
      ensures hasAuthProvider == if e == NoError then Knows(o, client.s, old(hasAuthProvider)) else old(hasAuthProvider)
      ensures client.calm ==> e == NoError
    {
      e := NoError;
      if o.wantsAuthProvider && !hasAuthProvider {
        var found;
        e, found := client.ExistsAuthProvider();
        if e == NoError && found { hasAuthProvider := true; }
      }
    }

    /** The routes, if they are used; `tls` is false when Central has no TLS secret yet. */
    method EnsureRoutes() returns (e: Error, tls: bool)
      requires Sound(client.s)
      modifies client`s
      ensures Sound(client.s) && OnlyRoutes(old(client.s), client.s) && e in {NoError, Failed}
      ensures e == NoError && o.useRoutes && tls ==>
        ReencryptRoute in client.s.objs && PassthroughRoute in client.s.objs
      ensures client.calm && client.s.ns == Active ==> e == NoError && tls == TlsFound(o, old(client.s))
    {
      e, tls := NoError, true;
      if o.useRoutes {
        var routes := EnsureRoutesExist(client);
        if routes == RoutesFailed { return Failed, false; }
        tls := routes == RoutesOk;
      }
    }

    /** The Central resource and its routes. */
    method ApplyCentralAndRoutes(spec: Spec, ghost start: Store) returns (e: Error, tls: bool)
      requires World(o, client.s) && Provisioned(o, client.s) && SameOutlook(start, client.s)
      modifies client`s
      ensures World(o, client.s) && Provisioned(o, client.s)
      ensures client.s.deprovisioned == start.deprovisioned && client.s.pods == start.pods
      ensures e == NoError ==> Applied(o, start, client.s, spec, tls)
      ensures client.calm && old(client.s).ns == Active && RevisionReadable(start) ==>
        e == NoError && tls == TlsFound(o, start)
    {
      tls := true;
      SameAnnotations(start, client.s);
      e := ApplyCentral(client, spec);
      CentralInstalls(old(client.s), client.s, spec);
      InstallsKeepsWorld(o, old(client.s), client.s);
      ProvisionedKept(o, old(client.s), client.s);
      if e != NoError { return; }
      ghost var s1 := client.s;
      e, tls := EnsureRoutes();
      RoutesInstall(s1, client.s);
      InstallsKeepsWorld(o, s1, client.s);
      ProvisionedKept(o, s1, client.s);
    }

    /** From a provisioned tenant to Ready; the cache is set as the very last step. */
    method Finish(r: ManagedCentral, changed: bool, tls: bool) returns (out: Outcome)
      requires World(o, client.s) && Provisioned(o, client.s)
      modifies this`lastCentral, this`hasAuthProvider, client`s
      ensures World(o, client.s) && Provisioned(o, client.s)
      ensures client.s == old(client.s) || client.s == WithAuthProvider(old(client.s))
      ensures client.s != old(client.s) ==> o.wantsAuthProvider && !old(hasAuthProvider) && !IsReady(r)
      ensures hasAuthProvider && !old(hasAuthProvider) ==> client.s.pods.authProvider
      ensures out in {Ready, Installing, NotChanged, Failure}
      ensures Learns(o, old(hasAuthProvider), hasAuthProvider)
      ensures lastCentral == if out == Ready then Some(r) else old(lastCentral)
      ensures out == Ready ==> tls && client.s.pods.deploymentReady
      ensures out == Ready ==> (hasAuthProvider <==> old(hasAuthProvider) || (o.wantsAuthProvider && !IsReady(r)))
      ensures out in {Installing, NotChanged} ==> hasAuthProvider == old(hasAuthProvider)
      ensures out == NotChanged ==> !changed && r.requestStatus == StatusProvisioning
      ensures
        client.calm && (o.useRoutes && tls ==> ReencryptRoute in client.s.objs && PassthroughRoute in client.s.objs) ==>
          Reports(o, old(client.s).pods, r, changed, tls, out)
    {
      var e, ready := client.IsDeploymentReady();
      if e != NoError { return Failure; }
      if !ready || !tls {
        if r.requestStatus == StatusProvisioning && !changed { return NotChanged; }
        return Installing;
      }
      if o.wantsAuthProvider && !hasAuthProvider && !IsReady(r) {
        e := client.CreateAuthProvider();
        AuthKeepsWorld(o, old(client.s), client.s);
        if e != NoError { return Failure; }
        hasAuthProvider := true;
      }
      if o.useRoutes && !IsReady(r) {
        e := client.FindIngress(ReencryptRoute);
        if e != NoError { return Failure; }
        e := client.FindIngress(PassthroughRoute);
        if e != NoError { return Failure; }
      }
      lastCentral := Some(r);
      out := Ready;
    }

    /** The part of Reconcile for a Central that is to be deleted. */
    method Remove() returns (out: Outcome)
      requires World(o, client.s)
      modifies client`s
      ensures World(o, client.s) && out in {Deleted, DeletionInProgress, Failure}
      ensures out == Deleted ==>
        client.s.ns == Absent && client.s.objs == map[] && (o.managedDB ==> client.s.deprovisioned)
      ensures out != Failure ==>
        client.s == AfterPass(o, old(client.s)) && (out == Deleted <==> PassReports(o, old(client.s)))
      ensures client.calm ==> out != Failure
    {
      var e, gone := EnsureCentralDeleted(client, o);
      DeletingKeepsWorld(o, old(client.s), client.s);
      out := if e != NoError then Failure else if gone then Deleted else DeletionInProgress;
    }

    /** From a provisioned tenant to the outcome; `start` is the store at the start of the call. */
    method ApplyAndFinish(r: ManagedCentral, changed: bool, spec: Spec, ghost start: Store, ghost ca: bool)
      returns (out: Outcome)
      requires World(o, client.s) && Provisioned(o, client.s) && SameOutlook(start, client.s)
      requires Wanted(o, client.dbHost, spec, r, hasAuthProvider, ca)
      modifies this`lastCentral, this`hasAuthProvider, client`s
      ensures World(o, client.s) && Provisioned(o, client.s) && out in {Ready, Installing, NotChanged, Failure}
      ensures client.s.deprovisioned == start.deprovisioned
      ensures Learns(o, old(hasAuthProvider), hasAuthProvider)
      ensures lastCentral == if out == Ready then Some(r) else old(lastCentral)
      ensures out == Ready ==>
        Installed(o, client.dbHost, start, client.s, r, old(hasAuthProvider), hasAuthProvider, ca)
      ensures out in {Installing, NotChanged} ==> hasAuthProvider == old(hasAuthProvider)
      ensures out == NotChanged ==> !changed && r.requestStatus == StatusProvisioning
      ensures client.calm && old(client.s).ns == Active && RevisionReadable(start) ==>
        out == Reported(o, start.pods, r, changed, TlsFound(o, start))
    {
      var e, tls := ApplyCentralAndRoutes(spec, start);
      if e != NoError { return Failure; }
      ghost var applied := client.s;
      out := Finish(r, changed, tls);
      ReportsTheReported(o, start.pods, r, changed, tls, out);
      if out == Ready {
        ghost var knew := old(hasAuthProvider);
        AppliedIsInstalled(o, client.dbHost, start, applied, client.s, spec, r, knew, hasAuthProvider, ca);
      }
    }

    /** The part of Reconcile for a Central that is to be installed or updated. */
    method Install(r: ManagedCentral, changed: bool, masterPassword: string, centralPassword: string, ca: bool)
      returns (out: Outcome)
      requires World(o, client.s)
      modifies this`lastCentral, this`hasAuthProvider, client`s
      ensures World(o, client.s) && out in {Ready, Installing, NotChanged, Failure}
      ensures client.s.deprovisioned == old(client.s).deprovisioned
      ensures Learns(o, old(hasAuthProvider), hasAuthProvider)
      ensures lastCentral == if out == Ready then Some(r) else old(lastCentral)
      ensures out == Ready ==>
        Installed(o, client.dbHost, old(client.s), client.s, r, old(hasAuthProvider), hasAuthProvider, ca)
      ensures out in {Installing, NotChanged} ==> hasAuthProvider == old(hasAuthProvider)
      ensures out == NotChanged ==> !changed && r.requestStatus == StatusProvisioning
      ensures client.calm && old(client.s).ns != Terminating && !client.s.deprovisioned && o.managedDB ==>
        HandedOver(client.s)
      ensures client.calm && Installable(o, old(client.s)) ==>
        Reports(o, old(client.s).pods, r, changed, TlsFound(o, old(client.s)), out)
    {
      var e, connection := Provision(client, o, masterPassword, centralPassword);
      if e != NoError { return Failure; }
      var spec := Spec(r, o.useRoutes, hasAuthProvider, connection, o.managedDB && ca);
      out := ApplyAndFinish(r, changed, spec, old(client.s), ca);
      ReportsTheReported(o, old(client.s).pods, r, changed, TlsFound(o, old(client.s)), out);
    }

    /**
     Reconcile. A call during another one changes nothing. Whatever fails, the world stays in
     order. Ready means installed, Deleted means gone, and the cache follows its rules.
     */
    method Reconcile(r: ManagedCentral, masterPassword: string, centralPassword: string, ca: bool)
      returns (out: Outcome)
      requires World(o, client.s)
      modifies this, client`s
      ensures World(o, client.s)
      ensures blocked == old(blocked) && (out == Busy <==> old(blocked))
      ensures CacheStep(o, old(Memory()), r, out, Memory())
      ensures out == Busy || Skips(o, old(Memory()), r) ==> client.s == old(client.s)
      ensures out == Ready ==>
        var knew := Knows(o, old(client.s), old(hasAuthProvider));
        Installed(o, client.dbHost, old(client.s), client.s, r, knew, hasAuthProvider, ca)
      ensures out in {Installing, Deleted, DeletionInProgress} ==>
        hasAuthProvider == Knows(o, old(client.s), old(hasAuthProvider))
      ensures out == Deleted ==>
        client.s.ns == Absent && client.s.objs == map[] && (o.managedDB ==> client.s.deprovisioned)
      ensures out != Busy && !Skips(o, old(Memory()), r) && client.calm ==>
        Progress(o, old(client.s), client.s, r, old(lastCentral) != Some(r), out)
    {
      if blocked { return Busy; }
      blocked := true;
      out := ReconcileAlone(r, masterPassword, centralPassword, ca);
      blocked := false;
    }

    /** The work of a call, which holds the guard all the time. */
    method ReconcileAlone(r: ManagedCentral, masterPassword: string, centralPassword: string, ca: bool)
      returns (out: Outcome)
      requires World(o, client.s) && blocked
      modifies this`lastCentral, this`hasAuthProvider, client`s
      ensures World(o, client.s) && out != Busy
      ensures CacheStep(o, old(Memory()), r, out, Memory())
      ensures Skips(o, old(Memory()), r) ==> client.s == old(client.s)
      ensures out == Ready ==>
        var knew := Knows(o, old(client.s), old(hasAuthProvider));
        Installed(o, client.dbHost, old(client.s), client.s, r, knew, hasAuthProvider, ca)
      ensures out in {Installing, Deleted, DeletionInProgress} ==>
        hasAuthProvider == Knows(o, old(client.s), old(hasAuthProvider))
      ensures out == Deleted ==>
        client.s.ns == Absent && client.s.objs == map[] && (o.managedDB ==> client.s.deprovisioned)
      ensures !Skips(o, old(Memory()), r) && client.calm ==>
        Progress(o, old(client.s), client.s, r, old(lastCentral) != Some(r), out)
    {
      var changed := lastCentral != Some(r);
      if !changed && o.wantsAuthProvider == hasAuthProvider && IsReady(r) && r.actualVersion == r.desiredVersion {
        return NotChanged;
      }
      out := RemoveOrInstall(r, changed, masterPassword, centralPassword, ca);
    }

    /** What a call does that does not take the early exit. */
    method RemoveOrInstall(r: ManagedCentral, changed: bool, masterPassword: string, centralPassword: string, ca: bool)
      returns (out: Outcome)
      requires World(o, client.s)
      modifies this`lastCentral, this`hasAuthProvider, client`s
      ensures World(o, client.s) && out != Busy
      ensures Learns(o, old(hasAuthProvider), hasAuthProvider)
      ensures lastCentral == if out == Ready then Some(r) else old(lastCentral)
      ensures r.deletionTimestamp != "" ==> out in {Deleted, DeletionInProgress, Failure}
      ensures out == NotChanged ==> !changed && r.requestStatus == StatusProvisioning
      ensures out == Ready ==>
        var knew := Knows(o, old(client.s), old(hasAuthProvider));
        Installed(o, client.dbHost, old(client.s), client.s, r, knew, hasAuthProvider, ca)
      ensures out in {Installing, Deleted, DeletionInProgress} ==>
        hasAuthProvider == Knows(o, old(client.s), old(hasAuthProvider))
      ensures out == Deleted ==>
        client.s.ns == Absent && client.s.objs == map[] && (o.managedDB ==> client.s.deprovisioned)
      ensures client.calm ==> Progress(o, old(client.s), client.s, r, changed, out)
    {
      if !r.convertible { return Failure; }
      var e := LookForAuthProvider();
      if e != NoError { return Failure; }
      if r.deletionTimestamp != "" {
        out := Remove();
      } else {
        out := Install(r, changed, masterPassword, centralPassword, ca);
      }
    }
  }

  // ---------------------------------------------------------------------------------------------
  // Whole histories
  // ---------------------------------------------------------------------------------------------

  /** A reconcile call, a restart that forgets the cache, or a move of the cluster; calls may fail or not. */
  datatype Event =
    | Attempt(central: ManagedCentral, masterPassword: string, centralPassword: string, ca: bool, calm: bool)
    | Restart
    | Move(after: Store)

  /**
   Any history of attempts that fail anywhere, restarts and cluster moves: the credentials are in
   order and the database is given up first, at the end and hence at every point.
   */
  method AnyHistory(client: Client, o: Options, history: seq<Event>)
    requires World(o, client.s)
    modifies client
    ensures World(o, client.s)
  {
    var reconciler := new CentralReconciler(client, o);
    for i := 0 to |history|
      invariant World(o, client.s) && fresh(reconciler) && reconciler.client == client && reconciler.o == o
    {
      match history[i]
      case Attempt(r, master, central, ca, calm) =>
        client.calm := calm;
        var out := reconciler.Reconcile(r, master, central, ca);
      case Restart =>
        reconciler := new CentralReconciler(client, o);
      case Move(after) =>
        if ClusterMoves(client.s, after) {
          MovesKeepWorld(o, client.s, after);
          client.s := after;
        }
    }
  }

  /** After any history, one attempt without failures on a new reconciler makes the progress that its state allows. */
  method AttemptAfterAnyHistory(client: Client, o: Options, history: seq<Event>, r: ManagedCentral,
    masterPassword: string, centralPassword: string, ca: bool) returns (out: Outcome, ghost reached: Store)
    requires World(o, client.s)
    modifies client
    ensures World(o, reached) && World(o, client.s) && Progress(o, reached, client.s, r, true, out)
  {
    AnyHistory(client, o, history);
    reached := client.s;
    client.calm := true;
    var reconciler := new CentralReconciler(client, o);
    out := reconciler.Reconcile(r, masterPassword, centralPassword, ca);
  }

  /**
   Calls without failures for a Central to be deleted, with a move of a diligent cluster after each: after as many
   rounds as there are objects the next call reports Deleted, if and only if the Central can be converted.
   */
  method DeleteForGood(reconciler: CentralReconciler, r: ManagedCentral, moves: seq<Store>) returns (out: Outcome)
    requires World(reconciler.o, reconciler.client.s) && reconciler.client.calm && !reconciler.blocked
    requires r.deletionTimestamp != "" && reconciler.lastCentral != Some(r)
    requires Size(reconciler.client.s) <= |moves|
    requires r.convertible ==> IsDeletion(reconciler.o, [reconciler.client.s] + moves)
    requires !r.convertible ==> forall i :: 0 <= i < |moves| ==> World(reconciler.o, moves[i])
    modifies reconciler, reconciler.client
    ensures out == if r.convertible then Deleted else Failure
    ensures out == Deleted ==> reconciler.client.s.ns == Absent && reconciler.client.s.objs == map[]
  {
    var client, o := reconciler.client, reconciler.o;
    ghost var trace := [client.s] + moves;
    for i := 0 to |moves|
      invariant World(o, client.s) && client.calm && !reconciler.blocked && reconciler.lastCentral != Some(r)
      invariant client.s == trace[i]
    {
      out := reconciler.Reconcile(r, "", "", false);
      if r.convertible {
        assert ClusterMoves(client.s, trace[i + 1]);
        MovesKeepWorld(o, client.s, trace[i + 1]);
      }
      client.s := moves[i];
      assert moves[i] == trace[i + 1];
    }
    out := reconciler.Reconcile(r, "", "", false);
    if r.convertible { DeletionConverges(o, trace, |moves|); }
  }

  /**
   Two calls for the same Central. Once the first one has reported Ready, the second one touches nothing and reports
   NotChanged, even if the client fails, for a request with the status ready and equal versions: if and only if an auth
   provider is known in between exactly if it is wanted.
   */
  method ReconcileTwice(reconciler: CentralReconciler, r: ManagedCentral, masterPassword: string,
    centralPassword: string, ca: bool)
    returns (first: Outcome, second: Outcome, ghost between: Store, ghost known: bool)
    requires World(reconciler.o, reconciler.client.s) && !reconciler.blocked
    modifies reconciler, reconciler.client`s
    ensures World(reconciler.o, between) && World(reconciler.o, reconciler.client.s)
    ensures first == Ready && r.requestStatus == StatusReady ==>
      known == Knows(reconciler.o, old(reconciler.client.s), old(reconciler.hasAuthProvider))
    ensures first == Ready && r.requestStatus == StatusReady && r.actualVersion == r.desiredVersion ==>
      && (second == NotChanged <==> reconciler.o.wantsAuthProvider == known)
      && (second == NotChanged ==> reconciler.client.s == between)
  {
    first := reconciler.Reconcile(r, masterPassword, centralPassword, ca);
    between, known := reconciler.client.s, reconciler.hasAuthProvider;
    second := reconciler.Reconcile(r, masterPassword, centralPassword, ca);
  }
}
