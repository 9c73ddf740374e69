/**
 Multi-pass deletion of a Central (fleetshard/pkg/central/reconciler/reconciler.go,
 ensureCentralDeleted and its helpers). Each pass requests deletions and reports whether everything
 was already gone; the cluster finishes the deletions between the passes.
 */
module Deletion {
  import opened Cluster
  import opened Optional

  datatype Options = Options(useRoutes: bool, wantsAuthProvider: bool, managedDB: bool, rendered: map<string, string>)

  // ---------------------------------------------------------------------------------------------
  // One pass, on values
  // ---------------------------------------------------------------------------------------------

  /** The objects a pass asks to delete. */
  predicate Targeted(o: Options, k: Key) {
    match k
    case Central => true
    case DbSecret => o.managedDB
    case ReencryptRoute => o.useRoutes
    case PassthroughRoute => o.useRoutes
    case Chart(name) => name in o.rendered
  }

  /** The body with the pause lifted. */
  function Unpause(b: Body): Body {
    match b
    case CentralCR(spec, annotations) =>
      if PauseAnnotation in annotations && annotations[PauseAnnotation] == "true" then
        CentralCR(spec, annotations[PauseAnnotation := "false"])
      else b
    case _ => b
  }

  /** Everything but the pause annotation is as before. */
  ghost predicate OnlyUnpaused(before: Body, after: Body) {
    if !before.CentralCR? then after == before
    else
      && after.CentralCR? && after.spec == before.spec && after.annotations.Keys == before.annotations.Keys
      && (forall k :: k in before.annotations && k != PauseAnnotation ==> after.annotations[k] == before.annotations[k])
      && (PauseAnnotation in before.annotations ==>
          var value := before.annotations[PauseAnnotation];
          after.annotations[PauseAnnotation] == if value == "true" then "false" else value)
  }

  lemma UnpauseKeepsTheRest(b: Body)
    ensures OnlyUnpaused(b, Unpause(b))
  {
  }

  /** A pass without failures marks every target, lifts the pause and terminates the namespace. */
  function AfterPass(o: Options, s: Store): Store {
    s.(ns := if s.ns == Absent then Absent else Terminating,
       deprovisioned := s.deprovisioned || o.managedDB,
       objs := map k | k in s.objs :: if Targeted(o, k) then Object(true, Unpause(s.objs[k].body)) else s.objs[k])
  }

  /** What a pass without failures reports: nothing to wait for, at the start of the pass. */
  predicate PassReports(o: Options, s: Store) {
    && (o.useRoutes ==> ReencryptRoute !in s.objs && PassthroughRoute !in s.objs)
    && Central !in s.objs
    && (o.managedDB ==> DbSecret !in s.objs)
    && (forall n :: n in o.rendered && Chart(n) in s.objs ==> !s.objs[Chart(n)].marked)
    && s.ns == Absent
  }

  // ---------------------------------------------------------------------------------------------
  // Convergence
  // ---------------------------------------------------------------------------------------------

  /**
   Between passes the cluster removes removable objects, and a terminating namespace that is empty. What the tenant's
   own pods make of their secrets, deployments, routes and auth providers may change at will.
   */
  predicate ClusterMoves(s: Store, s': Store) {
    && s'.objs.Keys <= s.objs.Keys
    && (forall k :: k in s.objs ==> if k in s'.objs then s'.objs[k] == s.objs[k] else Removable(s, k))
    && (s'.ns == s.ns || (s.ns == Terminating && s'.objs == map[] && s'.ns == Absent))
    && s' == s.(ns := s'.ns, objs := s'.objs, db := s'.db, pods := s'.pods)
    && (s'.db == s.db || (s.deprovisioned && s'.db == None))
  }

  /** It removes at least one thing when there is something to remove. */
  ghost predicate Diligent(s: Store, s': Store) {
    && ((exists k :: Removable(s, k)) ==> s'.objs != s.objs)
    && (s.objs == map[] && s.ns == Terminating ==> s'.ns == Absent)
  }

  function Size(s: Store): nat { |s.objs| + (if s.ns == Absent then 0 else 1) }

  /** Failure-free passes, with a move of the cluster after each. */
  ghost predicate IsDeletion(o: Options, trace: seq<Store>) {
    && trace != [] && Sound(trace[0])
    && forall i :: 0 <= i < |trace| - 1 ==>
         ClusterMoves(AfterPass(o, trace[i]), trace[i + 1]) && Diligent(AfterPass(o, trace[i]), trace[i + 1])
  }

  lemma AllRemovableAfterPass(o: Options, s: Store, k: Key)
    requires Sound(s) && k in s.objs
    ensures Removable(AfterPass(o, s), k)
  {
  }

  lemma FewerKeys(m: map<Key, Object>, n: map<Key, Object>)
    requires m.Keys < n.Keys
    ensures |m| < |n|
  {
    assert |n.Keys - m.Keys| > 0 && n.Keys == m.Keys + (n.Keys - m.Keys);
  }

  lemma PassSize(o: Options, s: Store)
    ensures |AfterPass(o, s).objs| == |s.objs|
  {
    assert AfterPass(o, s).objs.Keys == s.objs.Keys;
  }

  lemma RoundShrinks(o: Options, s: Store, s': Store)
    requires Sound(s) && ClusterMoves(AfterPass(o, s), s') && Diligent(AfterPass(o, s), s')
    ensures Sound(s')
    ensures Size(s) > 0 ==> Size(s') < Size(s)
    ensures Size(s) == 0 ==> Size(s') == 0
  {
    var t := AfterPass(o, s);
    PassSize(o, s);
    if s'.objs.Keys == t.objs.Keys {
      assert s'.objs == t.objs;
      if s.objs.Keys != {} {
        var k :| k in s.objs.Keys;
        AllRemovableAfterPass(o, s, k);
      }
    } else {
      FewerKeys(s'.objs, t.objs);
    }
  }

  lemma {:induction false} TraceShrinks(o: Options, trace: seq<Store>, i: nat)
    requires IsDeletion(o, trace) && i < |trace|
    ensures Sound(trace[i]) && Size(trace[i]) <= (if Size(trace[0]) > i then Size(trace[0]) - i else 0)
  {
    if i > 0 {
      TraceShrinks(o, trace, i - 1);
      RoundShrinks(o, trace[i - 1], trace[i]);
    }
  }

  /**
   From every sound state, the pass after as many rounds as there were objects (the namespace
   counts as one) reports that everything is deleted, and so does every later pass.
   */
  lemma DeletionConverges(o: Options, trace: seq<Store>, i: nat)
    requires IsDeletion(o, trace) && Size(trace[0]) <= i < |trace|
    ensures PassReports(o, trace[i]) && trace[i].ns == Absent && trace[i].objs == map[]
  {
    TraceShrinks(o, trace, i);
    assert |trace[i].objs| == 0;
  }

  // ---------------------------------------------------------------------------------------------
  // One pass, step by step, with failures
  // ---------------------------------------------------------------------------------------------

  /** The secret goes, and the namespace goes, only after the database was given up. */
  ghost predicate GivesUpDatabaseFirst(o: Options, s: Store) {
    if o.managedDB then
      (s.ns == Terminating || (DbSecret in s.objs && s.objs[DbSecret].marked)) ==> s.deprovisioned
    else DbSecret !in s.objs && s.db == None
  }

  /** What any part of a pass may do: objects stay, marks stay, and bodies change at most by lifting a pause. */
  ghost predicate Deleting(before: Store, after: Store) {
    && after == before.(ns := after.ns, objs := after.objs, deprovisioned := after.deprovisioned)
    && after.objs.Keys == before.objs.Keys
    && (forall k :: k in before.objs ==>
          && (before.objs[k].marked ==> after.objs[k].marked)
          && (after.objs[k].body == before.objs[k].body || after.objs[k].body == Unpause(before.objs[k].body)))
    && (after.ns == before.ns || (before.ns == Active && after.ns == Terminating))
    && (before.deprovisioned ==> after.deprovisioned)
  }

  /** Nothing that the order of giving up the database depends on has changed. */
  ghost predicate LeavesDatabase(before: Store, after: Store) {
    && after.ns == before.ns && after.deprovisioned == before.deprovisioned && after.db == before.db
    && (DbSecret in before.objs <==> DbSecret in after.objs)
    && (DbSecret in before.objs ==> after.objs[DbSecret] == before.objs[DbSecret])
  }

  lemma DeletingTwice(a: Store, b: Store, c: Store)
    requires Deleting(a, b) && Deleting(b, c)
    ensures Deleting(a, c)
  {
  }

  /** ensureRouteDeleted and ensureCentralDBSecretDeleted. */
  method EnsureObjectDeleted(c: Client, k: Key) returns (e: Error, gone: bool)
    requires Sound(c.s)
    modifies c`s
    ensures Sound(c.s) && e in {NoError, Failed}
    ensures Deleting(old(c.s), c.s) && (k != DbSecret ==> LeavesDatabase(old(c.s), c.s))
    ensures c.s == old(c.s) || c.s == MarkIfThere(old(c.s), k)
    ensures e == NoError ==> c.s == MarkIfThere(old(c.s), k) && gone == (k !in c.s.objs)
    ensures c.calm ==> e == NoError
  {
    var get, found := c.Get(k);
    if get == NotFound { return NoError, true; }
    if get != NoError { return Failed, false; }
    e := c.Delete(k);
    gone := false;
  }

  function MarkIfThere(s: Store, k: Key): Store { if k in s.objs then Mark(s, k) else s }

  function UnpauseCR(s: Store): Store {
    if Central in s.objs then Put(s, Central, Unpause(s.objs[Central].body)) else s
  }

  /** ensureCentralCRDeleted: the pause is lifted first, or the operator would never finish. */
  method EnsureCRDeleted(c: Client) returns (e: Error, gone: bool)
    requires Sound(c.s)
    modifies c`s
    ensures Sound(c.s) && e in {NoError, Failed}
    ensures c.s == old(c.s) || c.s == UnpauseCR(old(c.s)) || c.s == MarkIfThere(UnpauseCR(old(c.s)), Central)
    ensures e == NoError ==> c.s == MarkIfThere(UnpauseCR(old(c.s)), Central) && gone == (Central !in c.s.objs)
    ensures e == NoError && !gone ==> c.s.objs[Central].marked && !Paused(c.s.objs[Central])
    ensures e == NoError && !gone ==> OnlyUnpaused(old(c.s).objs[Central].body, c.s.objs[Central].body)
    ensures c.calm ==> e == NoError
  {
    if Central in c.s.objs { UnpauseKeepsTheRest(c.s.objs[Central].body); }
    var get, found := c.Get(Central);
    if get == NotFound { return NoError, true; }
    if get != NoError { return Failed, false; }
    gone := false;
    var b := found.value.body;
    if Paused(found.value) {
      e := c.Update(Central, Unpause(b));
      if e != NoError { return; }
    } else {
      assert UnpauseCR(c.s).objs == c.s.objs;
    }
    e := c.Delete(Central);
  }

  function MarkCharts(s: Store, names: set<string>): Store {
    s.(objs := map k | k in s.objs :: if k.Chart? && k.name in names then s.objs[k].(marked := true) else s.objs[k])
  }

  lemma MarkChartsNext(s: Store, names: set<string>, n: string)
    ensures MarkCharts(s, names + {n}) == MarkIfThere(MarkCharts(s, names), Chart(n))
    ensures Chart(n) in s.objs && s.objs[Chart(n)].marked ==> MarkCharts(s, names + {n}) == MarkCharts(s, names)
  {
    assert MarkCharts(s, names + {n}).objs == MarkIfThere(MarkCharts(s, names), Chart(n)).objs;
    if Chart(n) in s.objs && s.objs[Chart(n)].marked {
      assert MarkCharts(s, names + {n}).objs == MarkCharts(s, names).objs;
    }
  }

  predicate NoneUnderway(s: Store, names: set<string>) {
    forall n :: n in names && Chart(n) in s.objs ==> !s.objs[Chart(n)].marked
  }

  /** ensureChartResourcesDeleted: it waits only for objects whose deletion was already under way. */
  method EnsureChartDeleted(c: Client, o: Options) returns (e: Error, done: bool, ghost asked: set<string>)
    requires Sound(c.s)
    modifies c`s
    ensures Sound(c.s) && e in {NoError, Failed}
    ensures asked <= o.rendered.Keys && c.s == MarkCharts(old(c.s), asked)
    ensures e == NoError ==> asked == o.rendered.Keys && done == NoneUnderway(old(c.s), asked)
    ensures c.calm ==> e == NoError
  {
    var names := o.rendered.Keys;
    e, done, asked := NoError, true, {};
    assert MarkCharts(c.s, {}).objs == c.s.objs;
    while names != {}
      invariant Sound(c.s) && e == NoError && names <= o.rendered.Keys && asked == o.rendered.Keys - names
      invariant c.s == MarkCharts(old(c.s), asked)
      invariant done == NoneUnderway(old(c.s), asked)
      decreases |names|
    {
      var n :| n in names;
      MarkChartsNext(old(c.s), asked, n);
      var get, found := c.Get(Chart(n));
      if get == Failed {
        return Failed, false, asked;
      }
      if get == NoError {
        if found.value.marked {
          done := false;
        } else {
          e := c.Delete(Chart(n));
          if e != NoError {
            done := false;
            if c.s == MarkCharts(old(c.s), asked + {n}) { asked := asked + {n}; }
            return;
          }
        }
      }
      names, asked := names - {n}, asked + {n};
    }
  }

  lemma MarkChartsDeletes(s: Store, names: set<string>)
    ensures Deleting(s, MarkCharts(s, names)) && LeavesDatabase(s, MarkCharts(s, names))
  {
  }

  lemma CRDeletes(s: Store, t: Store)
    requires Sound(s) && (t == s || t == UnpauseCR(s) || t == MarkIfThere(UnpauseCR(s), Central))
    ensures Deleting(s, t) && LeavesDatabase(s, t)
  {
    if Central in s.objs {
      assert t.objs.Keys == s.objs.Keys;
      assert forall k :: k in s.objs && k != Central ==> t.objs[k] == s.objs[k];
    }
  }

  method EnsureNamespaceDeleted(c: Client) returns (e: Error, gone: bool)
    requires Sound(c.s)
    modifies c`s
    ensures Sound(c.s) && e in {NoError, Failed}
    ensures Deleting(old(c.s), c.s)
    ensures c.s == old(c.s) || c.s == TerminateNamespace(old(c.s))
    ensures e == NoError ==> c.s == TerminateNamespace(old(c.s)) && gone == (c.s.ns == Absent)
    ensures c.calm ==> e == NoError
  {
    var get, phase := c.GetNamespace();
    if get == NotFound { return NoError, true; }
    if get != NoError { return Failed, false; }
    if phase == Terminating { return NoError, false; }
    e := c.DeleteNamespace();
    gone := false;
  }

  function TerminateNamespace(s: Store): Store { if s.ns == Absent then s else s.(ns := Terminating) }

  // The legs of a pass, in the order of the source.

  function RoutesLeg(o: Options, s: Store): Store {
    if o.useRoutes then MarkIfThere(MarkIfThere(s, ReencryptRoute), PassthroughRoute) else s
  }

  function CRLeg(s: Store): Store { MarkIfThere(UnpauseCR(s), Central) }

  function DatabaseLeg(o: Options, s: Store): Store {
    if o.managedDB then MarkIfThere(s.(deprovisioned := true), DbSecret) else s
  }

  lemma MarkedAt(s: Store, k: Key, j: Key)
    requires j in s.objs
    ensures var t := MarkIfThere(s, k);
      t == s.(objs := t.objs) && t.objs.Keys == s.objs.Keys
      && t.objs[j] == if j == k then Object(true, s.objs[j].body) else s.objs[j]
  {
  }

  lemma RoutesLegAt(o: Options, s: Store, j: Key)
    requires j in s.objs
    ensures var t := RoutesLeg(o, s);
      t == s.(objs := t.objs) && t.objs.Keys == s.objs.Keys
      && t.objs[j] ==
          if o.useRoutes && (j == ReencryptRoute || j == PassthroughRoute) then Object(true, s.objs[j].body)
          else s.objs[j]
  {
    MarkedAt(s, ReencryptRoute, j);
    MarkedAt(MarkIfThere(s, ReencryptRoute), PassthroughRoute, j);
  }

  lemma CRLegAt(s: Store, j: Key)
    requires j in s.objs
    ensures var t := CRLeg(s);
      t == s.(objs := t.objs) && t.objs.Keys == s.objs.Keys
      && t.objs[j] == if j == Central then Object(true, Unpause(s.objs[j].body)) else s.objs[j]
  {
    MarkedAt(UnpauseCR(s), Central, j);
  }

  lemma DatabaseLegAt(o: Options, s: Store, j: Key)
    requires j in s.objs
    ensures var t := DatabaseLeg(o, s);
      t == s.(objs := t.objs, deprovisioned := s.deprovisioned || o.managedDB) && t.objs.Keys == s.objs.Keys
      && t.objs[j] == if o.managedDB && j == DbSecret then Object(true, s.objs[j].body) else s.objs[j]
  {
    MarkedAt(s.(deprovisioned := true), DbSecret, j);
  }

  lemma LegsAt(o: Options, s: Store, j: Key)
    requires Sound(s) && j in s.objs
    ensures var t := MarkCharts(DatabaseLeg(o, CRLeg(RoutesLeg(o, s))), o.rendered.Keys);
      j in t.objs && t.objs[j] == AfterPass(o, s).objs[j]
  {
    var s1 := RoutesLeg(o, s);
    RoutesLegAt(o, s, j);
    var s2 := CRLeg(s1);
    CRLegAt(s1, j);
    DatabaseLegAt(o, s2, j);
    assert Fits(j, s.objs[j].body);
  }

  ghost predicate SameShape(s: Store, t: Store) {
    t == s.(objs := t.objs, deprovisioned := t.deprovisioned) && t.objs.Keys == s.objs.Keys
  }

  lemma MarkKeepsShape(s: Store, k: Key)
    ensures SameShape(s, MarkIfThere(s, k)) && MarkIfThere(s, k).deprovisioned == s.deprovisioned
  {
    if k in s.objs { assert MarkIfThere(s, k).objs.Keys == s.objs.Keys; }
  }

  lemma RoutesKeepShape(o: Options, s: Store)
    ensures SameShape(s, RoutesLeg(o, s)) && RoutesLeg(o, s).deprovisioned == s.deprovisioned
  {
    MarkKeepsShape(s, ReencryptRoute);
    MarkKeepsShape(MarkIfThere(s, ReencryptRoute), PassthroughRoute);
  }

  lemma CRKeepsShape(s: Store)
    ensures SameShape(s, CRLeg(s)) && CRLeg(s).deprovisioned == s.deprovisioned
  {
    var t := UnpauseCR(s);
    assert SameShape(s, t) by { if Central in s.objs { assert t.objs.Keys == s.objs.Keys; } }
    MarkKeepsShape(t, Central);
  }

  lemma LegKeys(o: Options, s: Store)
    ensures var t := DatabaseLeg(o, CRLeg(RoutesLeg(o, s)));
      SameShape(s, t) && t.deprovisioned == (s.deprovisioned || o.managedDB)
  {
    RoutesKeepShape(o, s);
    CRKeepsShape(RoutesLeg(o, s));
    MarkKeepsShape(CRLeg(RoutesLeg(o, s)).(deprovisioned := true), DbSecret);
  }

  lemma SamePass(o: Options, s: Store, t: Store)
    requires SameShape(s, t) && t.deprovisioned == (s.deprovisioned || o.managedDB)
    requires forall j :: j in s.objs ==> t.objs[j] == AfterPass(o, s).objs[j]
    ensures TerminateNamespace(t) == AfterPass(o, s)
  {
    assert t.objs == AfterPass(o, s).objs;
  }

  /** The legs together are the pass on values. */
  lemma LegsMakeAPass(o: Options, s: Store)
    requires Sound(s)
    ensures TerminateNamespace(MarkCharts(DatabaseLeg(o, CRLeg(RoutesLeg(o, s))), o.rendered.Keys)) == AfterPass(o, s)
  {
    var t := DatabaseLeg(o, CRLeg(RoutesLeg(o, s)));
    LegKeys(o, s);
    MarkChartsDeletes(t, o.rendered.Keys);
    forall j | j in s.objs ensures MarkCharts(t, o.rendered.Keys).objs[j] == AfterPass(o, s).objs[j]
    { LegsAt(o, s, j); }
    SamePass(o, s, MarkCharts(t, o.rendered.Keys));
  }

  method DeleteRoutes(c: Client, o: Options) returns (e: Error, gone: bool)
    requires Sound(c.s)
    modifies c`s
    ensures Sound(c.s) && e in {NoError, Failed}
    ensures Deleting(old(c.s), c.s) && LeavesDatabase(old(c.s), c.s)
    ensures e == NoError ==> c.s == RoutesLeg(o, old(c.s))
    ensures e == NoError ==> gone == (o.useRoutes ==> ReencryptRoute !in c.s.objs && PassthroughRoute !in c.s.objs)
    ensures c.calm ==> e == NoError
  {
    e, gone := NoError, true;
    if o.useRoutes {
      var reencrypt, passthrough;
      e, reencrypt := EnsureObjectDeleted(c, ReencryptRoute);
      if e != NoError { return; }
      ghost var s1 := c.s;
      e, passthrough := EnsureObjectDeleted(c, PassthroughRoute);
      DeletingTwice(old(c.s), s1, c.s);
      gone := reencrypt && passthrough;
    }
  }

  method DeleteDatabase(c: Client, o: Options) returns (e: Error, gone: bool)
    requires Sound(c.s) && GivesUpDatabaseFirst(o, c.s)
    modifies c`s
    ensures Sound(c.s) && e in {NoError, Failed} && Deleting(old(c.s), c.s) && GivesUpDatabaseFirst(o, c.s)
    ensures e == NoError ==> c.s == DatabaseLeg(o, old(c.s)) && gone == (o.managedDB ==> DbSecret !in c.s.objs)
    ensures c.calm ==> e == NoError
  {
    e, gone := NoError, true;
    if o.managedDB {
      e := c.EnsureDBDeprovisioned();
      if e != NoError { return; }
      e, gone := EnsureObjectDeleted(c, DbSecret);
    }
  }

  predicate NothingWaitsFor(o: Options, s: Store) {
    && (o.useRoutes ==> ReencryptRoute !in s.objs && PassthroughRoute !in s.objs)
    && Central !in s.objs
    && (o.managedDB ==> DbSecret !in s.objs)
  }

  /** The legs up to the database. */
  method DeleteRoutesCRAndDatabase(c: Client, o: Options) returns (e: Error, gone: bool)
    requires Sound(c.s) && GivesUpDatabaseFirst(o, c.s)
    modifies c`s
    ensures Sound(c.s) && e in {NoError, Failed} && Deleting(old(c.s), c.s) && GivesUpDatabaseFirst(o, c.s)
    ensures e == NoError ==> c.s == DatabaseLeg(o, CRLeg(RoutesLeg(o, old(c.s))))
    ensures e == NoError ==> gone == NothingWaitsFor(o, c.s)
    ensures c.calm ==> e == NoError
  {
    var routesGone, crGone, secretGone;
    gone := false;
    e, routesGone := DeleteRoutes(c, o);
    if e != NoError { return; }
    ghost var s1 := c.s;
    e, crGone := EnsureCRDeleted(c);
    CRDeletes(s1, c.s);
    DeletingTwice(old(c.s), s1, c.s);
    if e != NoError { return; }
    ghost var s2 := c.s;
    e, secretGone := DeleteDatabase(c, o);
    DeletingTwice(old(c.s), s2, c.s);
    gone := routesGone && crGone && secretGone;
  }

  /**
   ensureCentralDeleted. Whatever fails: nothing appears, nothing is unmarked, and neither the
   secret nor the namespace goes before the database was given up. A pass that reports success has
   found everything gone. Without failures a pass is exactly the pass on values.
   */
  method EnsureCentralDeleted(c: Client, o: Options) returns (e: Error, gone: bool)
    requires Sound(c.s) && GivesUpDatabaseFirst(o, c.s)
    modifies c`s
    ensures Sound(c.s) && e in {NoError, Failed} && Deleting(old(c.s), c.s) && GivesUpDatabaseFirst(o, c.s)
    ensures e == NoError && gone ==>
      c.s.ns == Absent && c.s.objs == map[] && (o.managedDB ==> c.s.deprovisioned)
    ensures e == NoError ==> c.s == AfterPass(o, old(c.s)) && gone == PassReports(o, old(c.s))
    ensures c.calm ==> e == NoError
  {
    var firstGone, chartDone, nsGone;
    ghost var asked;
    gone := false;
    e, firstGone := DeleteRoutesCRAndDatabase(c, o);
    if e != NoError { return; }
    ghost var s1 := c.s;
    LegKeys(o, old(c.s));
    e, chartDone, asked := EnsureChartDeleted(c, o);
    MarkChartsDeletes(s1, asked);
    DeletingTwice(old(c.s), s1, c.s);
    if e != NoError { return; }
    ghost var s2 := c.s;
    e, nsGone := EnsureNamespaceDeleted(c);
    DeletingTwice(old(c.s), s2, c.s);
    if e != NoError { return; }
    LegsMakeAPass(o, old(c.s));
    gone := firstGone && chartDone && nsGone;
    ChartMarksKept(o, old(c.s), s1);
  }

  lemma ChartMarksKept(o: Options, s: Store, t: Store)
    requires Sound(s) && t == DatabaseLeg(o, CRLeg(RoutesLeg(o, s)))
    ensures t.objs.Keys == s.objs.Keys && NoneUnderway(t, o.rendered.Keys) == NoneUnderway(s, o.rendered.Keys)
  {
    forall j: Key | j in s.objs && j.Chart? ensures j in t.objs && t.objs[j] == s.objs[j] {
      RoutesLegAt(o, s, j);
      CRLegAt(RoutesLeg(o, s), j);
      DatabaseLegAt(o, CRLeg(RoutesLeg(o, s)), j);
    }
    LegKeys(o, s);
  }
}
