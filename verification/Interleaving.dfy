/**
 Attempts of the Central reconciler taken apart at their client calls, with a cluster that may move between any two of
 them (fleetshard/pkg/central/reconciler/reconciler.go, fleetshard/pkg/central/postgres/dbinit.go). An object that was
 found can be gone when it is updated or deleted.
 */
module Interleaving {
  import opened Optional
  import opened Cluster
  import opened Credentials
  import opened Deletion
  import opened Order

  /** The statements on the server, in their order; for a known role AlterRole replaces the rest of the transaction. */
  datatype Statement =
    | BeginTx | CreateRole | GrantSignal | GrantStats | CommitTx | AlterRole
    | GrantRole | CheckDatabase | CreateDatabase | CreateExtensions

  /** The client call that comes next. */
  datatype Point =
    | Resting
    // A deletion
    | Find(k: Key)                                      // a route, the Central or the secret
    | Lift(body: Body)                                  // the Central was found paused
    | Remove(k: Key)                                    // it was found
    | GiveUp                                            // the database
    | FindChart(left: set<string>)
    | RemoveChart(name: string, left: set<string>)
    | FindNamespace
    | RemoveNamespace
    // An installation
    | LookNamespace
    | MakeNamespace
    | Applying(provisioned: bool)                       // the chart before the database, Central and routes after it
    | LookUser
    | LookSecret
    | FindSecret(central: bool)
    | UpdateSecret(central: bool, annotations: map<string, string>)
    | CreateSecret(central: bool)
    | ReadPassword
    | ProvisionDB
    | Connect
    | Execute(q: Statement)
    | ConnectAgain

  datatype Report = NotYet | AllDeleted | InProgress | Erred | Done

  /**
   `gone`: nothing to wait for so far; the passwords are the two generated ones and the one read; `grants`: those of the
   transaction in progress.
   */
  datatype State = State(s: Store, at: Point, gone: bool, report: Report,
                         made: string, central: string, master: string, grants: set<string>)

  /** A call works, or fails before or after its effect. */
  datatype Luck = Works | FailsBefore | FailsAfter

  datatype Step =
    | Move(after: Store)
    | BeginDeletion
    | BeginInstallation(made: string, central: string)
    | Call(luck: Luck, name: string)                    // `name`: the chart object that comes next
    | Touch(k: Key, body: Body, luck: Luck)             // another object is created or updated
    | AddAuthProvider
    | Leave                                             // no more of them
    | Abandon                                           // an error elsewhere, or a restart

  function Fail(st: State): State { st.(at := Resting, gone := false, report := Erred) }

  /** A call that only reads. */
  function Read(st: State, luck: Luck, next: Point): State { if luck == Works then st.(at := next) else Fail(st) }

  function Mutate(st: State, luck: Luck, effect: Store, next: Point): State {
    match luck
    case Works => st.(s := effect, at := next)
    case FailsBefore => Fail(st)
    case FailsAfter => Fail(st.(s := effect))
  }

  // ---------------------------------------------------------------------------------------------
  // A deletion
  // ---------------------------------------------------------------------------------------------

  function FirstLeg(o: Options): Point { Find(if o.useRoutes then ReencryptRoute else Central) }

  function NextChart(left: set<string>): Point { if left == {} then FindNamespace else FindChart(left) }

  function NextLeg(o: Options, k: Key): Point {
    match k
    case ReencryptRoute => Find(PassthroughRoute)
    case PassthroughRoute => Find(Central)
    case Central => if o.managedDB then GiveUp else NextChart(o.rendered.Keys)
    case _ => NextChart(o.rendered.Keys)
  }

  function CallFind(o: Options, st: State, k: Key): State {
    if k !in st.s.objs then st.(at := NextLeg(o, k))
    else if Paused(st.s.objs[k]) then st.(gone := false, at := Lift(Unpause(st.s.objs[k].body)))
    else st.(gone := false, at := Remove(k))
  }

  function CallFindChart(st: State, name: string, left: set<string>): State {
    if Chart(name) !in st.s.objs then st.(at := NextChart(left))
    else if st.s.objs[Chart(name)].marked then st.(gone := false, at := NextChart(left))
    else st.(at := RemoveChart(name, left))
  }

  function Concluded(st: State, gone: bool): State {
    st.(at := Resting, gone := false, report := if gone then AllDeleted else InProgress)
  }

  function CallFindNamespace(st: State): State {
    match st.s.ns
    case Absent => Concluded(st, st.gone)
    case Terminating => Concluded(st, false)
    case Active => st.(at := RemoveNamespace)
  }

  function CallRemoveNamespace(st: State, luck: Luck): State {
    match luck
    case Works => Concluded(st.(s := st.s.(ns := Terminating)), false)
    case FailsBefore => Fail(st)
    case FailsAfter => Fail(st.(s := st.s.(ns := Terminating)))
  }

  predicate IsDeleting(p: Point) {
    p.Find? || p.Lift? || p.Remove? || p.GiveUp? || p.FindChart? || p.RemoveChart? || p.FindNamespace?
    || p.RemoveNamespace?
  }

  /** A missing object is an error, except for one of the chart. */
  function CallDeleting(o: Options, st: State, luck: Luck, name: string): State
    requires IsDeleting(st.at)
  {
    match st.at
    case Find(k) => if luck == Works then CallFind(o, st, k) else Fail(st)
    case Lift(body) =>
      if Central !in st.s.objs then Fail(st) else Mutate(st, luck, Put(st.s, Central, body), Remove(Central))
    case Remove(k) => if k !in st.s.objs then Fail(st) else Mutate(st, luck, Mark(st.s, k), NextLeg(o, k))
    case GiveUp => Mutate(st, luck, st.s.(deprovisioned := true), Find(DbSecret))
    case FindChart(left) => if luck == Works then CallFindChart(st, name, left - {name}) else Fail(st)
    case RemoveChart(n, left) => Mutate(st, luck, MarkIfThere(st.s, Chart(n)), NextChart(left))
    case FindNamespace => if luck == Works then CallFindNamespace(st) else Fail(st)
    case RemoveNamespace => if st.s.ns == Absent then Fail(st) else CallRemoveNamespace(st, luck)
  }

  // ---------------------------------------------------------------------------------------------
  // An installation
  // ---------------------------------------------------------------------------------------------

  function SecretBody(st: State, central: bool, annotations: map<string, string>): Body {
    if central then Secret(Some(st.central), annotations[UserTypeAnnotation := CentralUser])
    else Secret(Some(st.made), annotations[UserTypeAnnotation := MasterUser])
  }

  function AfterSecret(central: bool): Point { if central then ConnectAgain else ReadPassword }

  predicate SecretOfCentral(s: Store) { DbSecret in s.objs && HoldsCentralPassword(s.objs[DbSecret].body) }

  function CallFindSecret(st: State, central: bool): State {
    if DbSecret in st.s.objs && st.s.objs[DbSecret].body.Secret? then
      st.(at := UpdateSecret(central, st.s.objs[DbSecret].body.annotations))
    else st.(at := CreateSecret(central))
  }

  function CallCreateSecret(st: State, central: bool, luck: Luck): State {
    if st.s.ns != Active || DbSecret in st.s.objs then Fail(st)
    else
      Mutate(st, luck, Put(st.s, DbSecret, SecretBody(st, central, map[ManagedAnnotation := "true"])),
        AfterSecret(central))
  }

  function CallReadPassword(st: State): State {
    if DbSecret in st.s.objs && st.s.objs[DbSecret].body.Secret? && st.s.objs[DbSecret].body.password.Some? then
      st.(master := st.s.objs[DbSecret].body.password.value, at := ProvisionDB)
    else Fail(st)
  }

  function Provisioned(st: State): Store {
    if st.s.db.Some? then st.s else st.s.(db := Some(NewDatabase(st.master)))
  }

  predicate IsInstalling(p: Point) { !p.Resting? && !IsDeleting(p) && !p.Applying? && !p.Execute? }

  function CallInstalling(st: State, luck: Luck): State
    requires IsInstalling(st.at)
  {
    match st.at
    case LookNamespace => Read(st, luck, if st.s.ns == Absent then MakeNamespace else Applying(false))
    case MakeNamespace =>
      if st.s.ns != Absent then Fail(st) else Mutate(st, luck, st.s.(ns := Active), Applying(false))
    case LookUser => Read(st, luck, if SecretOfCentral(st.s) then ConnectAgain else LookSecret)
    case LookSecret => Read(st, luck, if DbSecret in st.s.objs then ReadPassword else FindSecret(false))
    case FindSecret(central) => if luck == Works then CallFindSecret(st, central) else Fail(st)
    case UpdateSecret(central, annotations) =>
      if DbSecret !in st.s.objs then Fail(st)
      else Mutate(st, luck, Put(st.s, DbSecret, SecretBody(st, central, annotations)), AfterSecret(central))
    case CreateSecret(central) => CallCreateSecret(st, central, luck)
    case ReadPassword => if luck == Works then CallReadPassword(st) else Fail(st)
    case ProvisionDB => Mutate(st, luck, Provisioned(st), Connect)
    case Connect => if st.s.db.None? then Fail(st) else Read(st, luck, Execute(BeginTx))
    case ConnectAgain => if st.s.db.None? then Fail(st) else Read(st, luck, Applying(true))
  }

  predicate LoggedIn(st: State) { st.s.db.Some? && st.s.db.value.master == st.master }

  /** The error of the commit does not reach the caller. */
  function CallCommit(st: State, luck: Luck): State {
    if LoggedIn(st) && luck != FailsBefore then
      st.(s := st.s.(db := Some(st.s.db.value.(role := Some(Role(st.central, st.grants))))), at := Execute(GrantRole))
    else st.(at := Execute(GrantRole))
  }

  function Granted(st: State, luck: Luck, grants: set<string>, next: Statement): State {
    if luck == Works then st.(grants := grants, at := Execute(next)) else Fail(st)
  }

  function CallStatement(st: State, q: Statement, luck: Luck): State
    requires LoggedIn(st)
  {
    var d := st.s.db.value;
    match q
    case BeginTx => Granted(st, luck, {}, CreateRole)
    case CreateRole => Read(st, luck, Execute(if d.role.Some? then AlterRole else GrantSignal))
    case GrantSignal => Granted(st, luck, st.grants + {SignalBackend}, GrantStats)
    case GrantStats => Granted(st, luck, st.grants + {ReadAllStats}, CommitTx)
    case CommitTx => CallCommit(st, luck)
    case AlterRole =>
      if d.role.None? then Fail(st)
      else
        Mutate(st, luck, st.s.(db := Some(d.(role := Some(d.role.value.(password := st.central))))), Execute(GrantRole))
    case GrantRole =>
      if d.role.None? then Fail(st)
      else Mutate(st, luck, st.s.(db := Some(d.(member := true))), Execute(CheckDatabase))
    case CheckDatabase => Read(st, luck, Execute(if d.created then CreateExtensions else CreateDatabase))
    case CreateDatabase =>
      if !d.member then Fail(st)
      else Mutate(st, luck, st.s.(db := Some(d.(created := true))), Execute(CreateExtensions))
    case CreateExtensions =>
      if !d.created then Fail(st) else Mutate(st, luck, st.s.(db := Some(d.(extensions := true))), FindSecret(true))
  }

  function CallExecute(st: State, q: Statement, luck: Luck): State {
    if LoggedIn(st) then CallStatement(st, q, luck) else if q == CommitTx then CallCommit(st, luck) else Fail(st)
  }

  /** Objects appear only in an active namespace. */
  function CallTouch(st: State, k: Key, body: Body, luck: Luck): State {
    if k !in st.s.objs && st.s.ns != Active then Fail(st) else Mutate(st, luck, Put(st.s, k, body), st.at)
  }

  // ---------------------------------------------------------------------------------------------
  // Runs
  // ---------------------------------------------------------------------------------------------

  predicate Enabled(st: State, step: Step) {
    match step
    case Move(after) => ClusterMoves(st.s, after)
    case BeginDeletion => st.at == Resting
    case BeginInstallation(_, _) => st.at == Resting
    case Call(_, name) => !st.at.Resting? && !st.at.Applying? && (st.at.FindChart? ==> name in st.at.left)
    case Touch(k, body, _) => st.at.Applying? && k != DbSecret && Fits(k, body)
    case AddAuthProvider => st.at.Applying?
    case Leave => st.at.Applying?
    case Abandon => true
  }

  function MakeCall(o: Options, st: State, luck: Luck, name: string): State
    requires Enabled(st, Call(luck, name))
  {
    if IsDeleting(st.at) then CallDeleting(o, st, luck, name)
    else if st.at.Execute? then CallExecute(st, st.at.q, luck)
    else CallInstalling(st, luck)
  }

  function Next(o: Options, st: State, step: Step): State
    requires Enabled(st, step)
  {
    match step
    case Move(after) => st.(s := after)
    case BeginDeletion => st.(at := FirstLeg(o), gone := true, report := NotYet)
    case BeginInstallation(made, central) => State(st.s, LookNamespace, false, NotYet, made, central, "", {})
    case Call(luck, name) => MakeCall(o, st, luck, name)
    case Touch(k, body, luck) => CallTouch(st, k, body, luck)
    case AddAuthProvider => st.(s := WithAuthProvider(st.s))
    case Leave =>
      if st.at.provisioned then st.(at := Resting, report := Done)
      else st.(at := if o.managedDB then LookUser else Applying(true))
    case Abandon => Fail(st)
  }

  ghost predicate IsRun(o: Options, run: seq<State>, steps: seq<Step>) {
    && |run| == |steps| + 1
    && forall i :: 0 <= i < |steps| ==> Enabled(run[i], steps[i]) && run[i + 1] == Next(o, run[i], steps[i])
  }

  // ---------------------------------------------------------------------------------------------
  // What an attempt knows, whatever the cluster does
  // ---------------------------------------------------------------------------------------------

  predicate NoCentralSecret(s: Store) { !SecretOfCentral(s) }

  /** The secret holds the master password that the attempt has read. */
  predicate MasterHeld(st: State) {
    && DbSecret in st.s.objs && !HoldsCentralPassword(st.s.objs[DbSecret].body)
    && st.s.objs[DbSecret].body.Secret? && st.s.objs[DbSecret].body.password == Some(st.master)
  }

  /** What is known of the Central role before a statement. */
  predicate RoleKnown(st: State, q: Statement) {
    st.s.db.Some? ==>
      var role := st.s.db.value.role;
      match q
      case GrantSignal => role == None
      case GrantStats => role == None
      case CommitTx => role == None
      case AlterRole => role.Some?
      case GrantRole => role == None || role.value.password == st.central
      case CheckDatabase => role.Some? && role.value.password == st.central
      case CreateDatabase => role.Some? && role.value.password == st.central
      case CreateExtensions => role.Some? && role.value.password == st.central
      case _ => true
  }

  /** The grants that the transaction has made before a statement. */
  predicate GrantsMade(st: State) {
    st.at.Execute? ==>
      match st.at.q
      case CreateRole => st.grants == {}
      case GrantSignal => st.grants == {}
      case GrantStats => st.grants == {SignalBackend}
      case CommitTx => st.grants == {SignalBackend, ReadAllStats}
      case _ => true
  }

  /** What is known of the credentials, as long as the database has not been given up. */
  ghost predicate Known(st: State) {
    match st.at
    case LookSecret => NoCentralSecret(st.s)
    case FindSecret(central) =>
      if central then MasterHeld(st) && st.s.db.Some? && Initialised(st.s.db.value, st.central)
      else DbSecret !in st.s.objs
    case UpdateSecret(central, _) =>
      central && MasterHeld(st) && st.s.db.Some? && Initialised(st.s.db.value, st.central)
    case CreateSecret(central) => !central && DbSecret !in st.s.objs
    case ReadPassword => DbSecret in st.s.objs && NoCentralSecret(st.s)
    case ProvisionDB => MasterHeld(st)
    case Connect => MasterHeld(st) && st.s.db.Some?
    case Execute(q) => MasterHeld(st) && st.s.db.Some? && RoleKnown(st, q)
    case ConnectAgain => HandedOver(st.s)
    case Applying(provisioned) => provisioned ==> HandedOver(st.s)
    case _ => true
  }

  predicate ForDatabase(p: Point) {
    p.LookUser? || p.LookSecret? || p.FindSecret? || p.UpdateSecret? || p.CreateSecret? || p.ReadPassword?
    || p.ProvisionDB? || p.Connect? || p.Execute? || p.ConnectAgain?
  }

  /** From this point on a deletion has given up the database. */
  predicate HasGivenUp(p: Point) {
    p == Find(DbSecret) || p == Remove(DbSecret) || p.FindChart? || p.RemoveChart? || p.FindNamespace?
    || p.RemoveNamespace?
  }

  /** Nothing is left of the tenant. */
  ghost predicate NothingLeft(o: Options, s: Store) {
    s.ns == Absent && s.objs == map[] && (o.managedDB ==> s.deprovisioned)
  }

  ghost predicate Local(o: Options, st: State) {
    && (st.at.Lift? ==> st.at.body.CentralCR?)
    && (st.at.Find? || st.at.Remove? ==> !st.at.k.Chart?)
    && (ForDatabase(st.at) ==> o.managedDB) && GrantsMade(st)
    && (HasGivenUp(st.at) && o.managedDB ==> st.s.deprovisioned)
    && (o.managedDB && !st.s.deprovisioned ==> Known(st))
    && (st.at == Resting || st.report == NotYet)
    && (st.report == AllDeleted ==> NothingLeft(o, st.s))
  }

  ghost predicate Invariant(o: Options, st: State) { World(o, st.s) && Local(o, st) }

  /** While the database has not been given up, the cluster has no reason to touch secret or database. */
  lemma MovesLeaveCredentials(o: Options, s: Store, t: Store)
    requires World(o, s) && ClusterMoves(s, t) && o.managedDB && !s.deprovisioned
    ensures t.db == s.db && (DbSecret in s.objs <==> DbSecret in t.objs)
    ensures DbSecret in s.objs ==> t.objs[DbSecret] == s.objs[DbSecret]
  {
    assert DbSecret in s.objs && DbSecret !in t.objs ==> Removable(s, DbSecret);
  }

  lemma MoveKeepsInvariant(o: Options, st: State, after: Store)
    requires Invariant(o, st) && ClusterMoves(st.s, after)
    ensures Invariant(o, st.(s := after))
  {
    MovesKeepWorld(o, st.s, after);
    if o.managedDB && !st.s.deprovisioned { MovesLeaveCredentials(o, st.s, after); }
  }

  lemma FailHolds(o: Options, st: State)
    requires World(o, st.s)
    ensures Invariant(o, Fail(st))
  {
  }

  lemma MutateHolds(o: Options, st: State, luck: Luck, effect: Store, next: Point)
    requires World(o, st.s) && World(o, effect) && Local(o, st.(s := effect, at := next))
    ensures Invariant(o, Mutate(st, luck, effect, next))
  {
    FailHolds(o, st);
    FailHolds(o, st.(s := effect));
  }

  lemma ReadHolds(o: Options, st: State, luck: Luck, next: Point)
    requires World(o, st.s) && Local(o, st.(at := next))
    ensures Invariant(o, Read(st, luck, next))
  {
    FailHolds(o, st);
  }

  // ---------------------------------------------------------------------------------------------
  // The steps of a deletion keep it
  // ---------------------------------------------------------------------------------------------

  lemma MarkKeepsWorld(o: Options, s: Store, k: Key)
    requires World(o, s) && k in s.objs && (k == DbSecret && o.managedDB ==> s.deprovisioned)
    ensures World(o, Mark(s, k))
  {
    assert Mark(s, k).objs.Keys == s.objs.Keys;
  }

  lemma PutKeepsWorld(o: Options, s: Store, k: Key, body: Body)
    requires World(o, s) && k != DbSecret && Fits(k, body) && (k in s.objs || s.ns == Active)
    ensures World(o, Put(s, k, body))
  {
  }

  lemma NextLegHolds(o: Options, st: State, k: Key)
    requires Local(o, st) && (k == DbSecret && o.managedDB ==> st.s.deprovisioned)
    requires st.at == Find(k) || st.at == Remove(k)
    ensures Local(o, st.(at := NextLeg(o, k)))
  {
  }

  lemma FindHolds(o: Options, st: State, k: Key)
    requires Invariant(o, st) && st.at == Find(k)
    ensures Invariant(o, CallFind(o, st, k))
  {
    NextLegHolds(o, st, k);
    assert k in st.s.objs ==> Fits(k, st.s.objs[k].body);
  }

  lemma RemoveHolds(o: Options, st: State, k: Key, luck: Luck)
    requires Invariant(o, st) && st.at == Remove(k) && k in st.s.objs
    ensures Invariant(o, Mutate(st, luck, Mark(st.s, k), NextLeg(o, k)))
  {
    MarkKeepsWorld(o, st.s, k);
    NextLegHolds(o, st.(s := Mark(st.s, k)), k);
    MutateHolds(o, st, luck, Mark(st.s, k), NextLeg(o, k));
  }

  lemma LiftHolds(o: Options, st: State, luck: Luck)
    requires Invariant(o, st) && st.at.Lift? && Central in st.s.objs
    ensures Invariant(o, Mutate(st, luck, Put(st.s, Central, st.at.body), Remove(Central)))
  {
    PutKeepsWorld(o, st.s, Central, st.at.body);
    MutateHolds(o, st, luck, Put(st.s, Central, st.at.body), Remove(Central));
  }

  lemma GiveUpHolds(o: Options, st: State, luck: Luck)
    requires Invariant(o, st) && st.at.GiveUp?
    ensures Invariant(o, Mutate(st, luck, st.s.(deprovisioned := true), Find(DbSecret)))
  {
    MutateHolds(o, st, luck, st.s.(deprovisioned := true), Find(DbSecret));
  }

  lemma FindChartHolds(o: Options, st: State, name: string, left: set<string>)
    requires Invariant(o, st) && st.at.FindChart?
    ensures Invariant(o, CallFindChart(st, name, left))
  {
  }

  lemma RemoveChartHolds(o: Options, st: State, luck: Luck)
    requires Invariant(o, st) && st.at.RemoveChart?
    ensures Invariant(o, Mutate(st, luck, MarkIfThere(st.s, Chart(st.at.name)), NextChart(st.at.left)))
  {
    var t := MarkIfThere(st.s, Chart(st.at.name));
    if Chart(st.at.name) in st.s.objs { MarkKeepsWorld(o, st.s, Chart(st.at.name)); }
    MutateHolds(o, st, luck, t, NextChart(st.at.left));
  }

  lemma NamespaceHolds(o: Options, st: State, luck: Luck)
    requires Invariant(o, st)
    ensures st.at.FindNamespace? ==> Invariant(o, CallFindNamespace(st))
    ensures st.at.RemoveNamespace? && st.s.ns != Absent ==> Invariant(o, CallRemoveNamespace(st, luck))
  {
    if st.at.RemoveNamespace? && st.s.ns != Absent { FailHolds(o, st.(s := st.s.(ns := Terminating))); }
  }

  lemma DeletingHolds(o: Options, st: State, luck: Luck, name: string)
    requires Invariant(o, st) && IsDeleting(st.at)
    ensures Invariant(o, CallDeleting(o, st, luck, name))
  {
    FailHolds(o, st);
    match st.at
    case Find(k) => FindHolds(o, st, k);
    case Lift(body) => if Central in st.s.objs { LiftHolds(o, st, luck); }
    case Remove(k) => if k in st.s.objs { RemoveHolds(o, st, k, luck); }
    case GiveUp => GiveUpHolds(o, st, luck);
    case FindChart(left) => FindChartHolds(o, st, name, left - {name});
    case RemoveChart(n, left) => RemoveChartHolds(o, st, luck);
    case FindNamespace => NamespaceHolds(o, st, luck);
    case RemoveNamespace => NamespaceHolds(o, st, luck);
  }

  // ---------------------------------------------------------------------------------------------
  // The steps of an installation keep it
  // ---------------------------------------------------------------------------------------------

  /** Only the database changes, and a server keeps its master password. */
  lemma DatabaseKeepsWorld(o: Options, st: State, d: Database)
    requires World(o, st.s) && o.managedDB && (!st.s.deprovisioned ==> MasterHeld(st))
    requires d.master == st.master && Equipped(d)
    ensures World(o, st.s.(db := Some(d)))
  {
  }

  lemma StatementHolds(o: Options, st: State, q: Statement, luck: Luck, d: Database, next: Point)
    requires Invariant(o, st) && st.at == Execute(q) && LoggedIn(st) && d.master == st.master && Equipped(d)
    requires !st.s.deprovisioned ==> Known(st.(s := st.s.(db := Some(d)), at := next))
    requires (next.Execute? && GrantsMade(st.(at := next))) || next == FindSecret(true)
    ensures Invariant(o, Mutate(st, luck, st.s.(db := Some(d)), next))
    ensures Invariant(o, st.(s := st.s.(db := Some(d)), at := next))
  {
    DatabaseKeepsWorld(o, st, d);
    MutateHolds(o, st, luck, st.s.(db := Some(d)), next);
  }

  lemma AskHolds(o: Options, st: State, q: Statement, luck: Luck, next: Statement)
    requires Invariant(o, st) && st.at == Execute(q)
    requires (!st.s.deprovisioned ==> RoleKnown(st, next)) && GrantsMade(st.(at := Execute(next)))
    ensures Invariant(o, Read(st, luck, Execute(next))) && Invariant(o, st.(at := Execute(next)))
  {
    ReadHolds(o, st, luck, Execute(next));
  }

  lemma GrantHolds(o: Options, st: State, q: Statement, luck: Luck, grants: set<string>, next: Statement)
    requires Invariant(o, st) && st.at == Execute(q)
    requires !st.s.deprovisioned ==> RoleKnown(st, next)
    requires GrantsMade(st.(grants := grants, at := Execute(next)))
    ensures Invariant(o, Granted(st, luck, grants, next))
  {
    FailHolds(o, st);
  }

  lemma TransactionHolds(o: Options, st: State, q: Statement, luck: Luck)
    requires Invariant(o, st) && st.at == Execute(q) && q in {BeginTx, CreateRole, GrantSignal, GrantStats}
    ensures Invariant(o, CallExecute(st, q, luck))
  {
    FailHolds(o, st);
    if LoggedIn(st) {
      var d := st.s.db.value;
      match q
      case BeginTx => GrantHolds(o, st, q, luck, {}, CreateRole);
      case CreateRole => AskHolds(o, st, q, luck, if d.role.Some? then AlterRole else GrantSignal);
      case GrantSignal => GrantHolds(o, st, q, luck, st.grants + {SignalBackend}, GrantStats);
      case GrantStats => GrantHolds(o, st, q, luck, st.grants + {ReadAllStats}, CommitTx);
    }
  }

  lemma AlterHolds(o: Options, st: State, luck: Luck)
    requires Invariant(o, st) && st.at == Execute(AlterRole)
    ensures Invariant(o, CallExecute(st, AlterRole, luck))
  {
    FailHolds(o, st);
    if LoggedIn(st) && st.s.db.value.role.Some? {
      var d := st.s.db.value;
      var role := d.role.value.(password := st.central);
      StatementHolds(o, st, AlterRole, luck, d.(role := Some(role)), Execute(GrantRole));
    }
  }

  lemma CommitHolds(o: Options, st: State, luck: Luck)
    requires Invariant(o, st) && st.at == Execute(CommitTx)
    ensures Invariant(o, CallExecute(st, CommitTx, luck))
  {
    if LoggedIn(st) && luck != FailsBefore {
      var role := Role(st.central, st.grants);
      StatementHolds(o, st, CommitTx, Works, st.s.db.value.(role := Some(role)), Execute(GrantRole));
    } else {
      AskHolds(o, st, CommitTx, Works, GrantRole);
    }
  }

  lemma CreateHolds(o: Options, st: State, luck: Luck)
    requires Invariant(o, st) && st.at == Execute(CreateDatabase) && LoggedIn(st)
    ensures Invariant(o, CallStatement(st, CreateDatabase, luck))
  {
    var d := st.s.db.value;
    FailHolds(o, st);
    if d.member { StatementHolds(o, st, CreateDatabase, luck, d.(created := true), Execute(CreateExtensions)); }
  }

  lemma ExtensionsHold(o: Options, st: State, luck: Luck)
    requires Invariant(o, st) && st.at == Execute(CreateExtensions) && LoggedIn(st)
    ensures Invariant(o, CallStatement(st, CreateExtensions, luck))
  {
    var d := st.s.db.value;
    FailHolds(o, st);
    if d.created { StatementHolds(o, st, CreateExtensions, luck, d.(extensions := true), FindSecret(true)); }
  }

  lemma MembershipHolds(o: Options, st: State, luck: Luck)
    requires Invariant(o, st) && st.at == Execute(GrantRole) && LoggedIn(st)
    ensures Invariant(o, CallStatement(st, GrantRole, luck))
  {
    var d := st.s.db.value;
    FailHolds(o, st);
    if d.role.Some? { StatementHolds(o, st, GrantRole, luck, d.(member := true), Execute(CheckDatabase)); }
  }

  lemma CheckHolds(o: Options, st: State, luck: Luck)
    requires Invariant(o, st) && st.at == Execute(CheckDatabase) && LoggedIn(st)
    ensures Invariant(o, CallStatement(st, CheckDatabase, luck))
  {
    FailHolds(o, st);
    AskHolds(o, st, CheckDatabase, luck, if st.s.db.value.created then CreateExtensions else CreateDatabase);
  }

  lemma ExecuteHolds(o: Options, st: State, q: Statement, luck: Luck)
    requires Invariant(o, st) && st.at == Execute(q)
    ensures Invariant(o, CallExecute(st, q, luck))
  {
    if q == CommitTx {
      CommitHolds(o, st, luck);
    } else if q == AlterRole {
      AlterHolds(o, st, luck);
    } else if q in {GrantRole, CheckDatabase, CreateDatabase, CreateExtensions} {
      FailHolds(o, st);
      if LoggedIn(st) {
        match q
        case GrantRole => MembershipHolds(o, st, luck);
        case CheckDatabase => CheckHolds(o, st, luck);
        case CreateDatabase => CreateHolds(o, st, luck);
        case CreateExtensions => ExtensionsHold(o, st, luck);
      }
    } else {
      TransactionHolds(o, st, q, luck);
    }
  }

  lemma MasterSecretKeepsWorld(o: Options, st: State, annotations: map<string, string>)
    requires World(o, st.s) && o.managedDB && (DbSecret in st.s.objs || st.s.ns == Active)
    requires !st.s.deprovisioned ==> DbSecret !in st.s.objs
    ensures var t := Put(st.s, DbSecret, SecretBody(st, false, annotations));
      World(o, t) && DbSecret in t.objs && NoCentralSecret(t)
  {
    assert MasterUser != CentralUser;
  }

  lemma CentralSecretKeepsWorld(o: Options, st: State, annotations: map<string, string>)
    requires World(o, st.s) && o.managedDB && (DbSecret in st.s.objs || st.s.ns == Active)
    requires !st.s.deprovisioned ==> st.s.db.Some? && Initialised(st.s.db.value, st.central)
    ensures var t := Put(st.s, DbSecret, SecretBody(st, true, annotations));
      World(o, t) && (!t.deprovisioned ==> HandedOver(t))
  {
  }

  lemma PutSecretHolds(o: Options, st: State, central: bool, annotations: map<string, string>, luck: Luck)
    requires Invariant(o, st) && (st.at == UpdateSecret(central, annotations) || st.at == CreateSecret(central))
    requires DbSecret in st.s.objs || st.s.ns == Active
    ensures
      Invariant(o, Mutate(st, luck, Put(st.s, DbSecret, SecretBody(st, central, annotations)), AfterSecret(central)))
  {
    var t := Put(st.s, DbSecret, SecretBody(st, central, annotations));
    if central { CentralSecretKeepsWorld(o, st, annotations); } else { MasterSecretKeepsWorld(o, st, annotations); }
    MutateHolds(o, st, luck, t, AfterSecret(central));
  }

  lemma SecretHolds(o: Options, st: State, luck: Luck)
    requires Invariant(o, st) && (st.at.UpdateSecret? || st.at.CreateSecret?)
    ensures Invariant(o, CallInstalling(st, luck))
  {
    FailHolds(o, st);
    match st.at
    case UpdateSecret(central, annotations) =>
      if DbSecret in st.s.objs { PutSecretHolds(o, st, central, annotations, luck); }
    case CreateSecret(central) =>
      if st.s.ns == Active { PutSecretHolds(o, st, central, map[ManagedAnnotation := "true"], luck); }
  }

  lemma LookHolds(o: Options, st: State, luck: Luck)
    requires Invariant(o, st)
    ensures st.at.LookUser? ==> Invariant(o, CallInstalling(st, luck))
    ensures st.at.LookSecret? ==> Invariant(o, CallInstalling(st, luck))
  {
    if st.at.LookUser? {
      ReadHolds(o, st, luck, if SecretOfCentral(st.s) then ConnectAgain else LookSecret);
    } else if st.at.LookSecret? {
      ReadHolds(o, st, luck, if DbSecret in st.s.objs then ReadPassword else FindSecret(false));
    }
  }

  lemma FindSecretHolds(o: Options, st: State, luck: Luck)
    requires Invariant(o, st) && st.at.FindSecret?
    ensures Invariant(o, CallInstalling(st, luck))
  {
    FailHolds(o, st);
  }

  lemma ReadPasswordHolds(o: Options, st: State, luck: Luck)
    requires Invariant(o, st) && st.at.ReadPassword?
    ensures Invariant(o, CallInstalling(st, luck))
  {
    FailHolds(o, st);
  }

  lemma ProvisionHolds(o: Options, st: State, luck: Luck)
    requires Invariant(o, st) && st.at.ProvisionDB?
    ensures Invariant(o, Mutate(st, luck, Provisioned(st), Connect))
  {
    if st.s.db.None? { DatabaseKeepsWorld(o, st, NewDatabase(st.master)); }
    MutateHolds(o, st, luck, Provisioned(st), Connect);
  }

  lemma ConnectHolds(o: Options, st: State, luck: Luck)
    requires Invariant(o, st) && st.at.Connect?
    ensures Invariant(o, CallInstalling(st, luck))
  {
    FailHolds(o, st);
    if st.s.db.Some? { ReadHolds(o, st, luck, Execute(BeginTx)); }
  }

  lemma ConnectAgainHolds(o: Options, st: State, luck: Luck)
    requires Invariant(o, st) && st.at.ConnectAgain?
    ensures Invariant(o, CallInstalling(st, luck))
  {
    FailHolds(o, st);
    ReadHolds(o, st, luck, Applying(true));
  }

  lemma MakeNamespaceHolds(o: Options, st: State, luck: Luck)
    requires Invariant(o, st) && (st.at.LookNamespace? || st.at.MakeNamespace?)
    ensures Invariant(o, CallInstalling(st, luck))
  {
    FailHolds(o, st);
    if st.at.MakeNamespace? && st.s.ns == Absent {
      MutateHolds(o, st, luck, st.s.(ns := Active), Applying(false));
    }
  }

  lemma InstallingHolds(o: Options, st: State, luck: Luck)
    requires Invariant(o, st) && IsInstalling(st.at)
    ensures Invariant(o, CallInstalling(st, luck))
  {
    if st.at.LookUser? || st.at.LookSecret? {
      LookHolds(o, st, luck);
    } else if st.at.FindSecret? {
      FindSecretHolds(o, st, luck);
    } else if st.at.UpdateSecret? || st.at.CreateSecret? {
      SecretHolds(o, st, luck);
    } else if st.at.ReadPassword? {
      ReadPasswordHolds(o, st, luck);
    } else if st.at.LookNamespace? || st.at.MakeNamespace? {
      MakeNamespaceHolds(o, st, luck);
    } else if st.at.ProvisionDB? {
      ProvisionHolds(o, st, luck);
    } else if st.at.Connect? {
      ConnectHolds(o, st, luck);
    } else {
      ConnectAgainHolds(o, st, luck);
    }
  }

  lemma TouchHolds(o: Options, st: State, k: Key, body: Body, luck: Luck)
    requires Invariant(o, st) && Enabled(st, Touch(k, body, luck))
    ensures Invariant(o, CallTouch(st, k, body, luck))
  {
    FailHolds(o, st);
    if k in st.s.objs || st.s.ns == Active {
      PutKeepsWorld(o, st.s, k, body);
      MutateHolds(o, st, luck, Put(st.s, k, body), st.at);
    }
  }

  lemma CallHolds(o: Options, st: State, luck: Luck, name: string)
    requires Invariant(o, st) && Enabled(st, Call(luck, name))
    ensures Invariant(o, MakeCall(o, st, luck, name))
  {
    if IsDeleting(st.at) {
      DeletingHolds(o, st, luck, name);
    } else if st.at.Execute? {
      ExecuteHolds(o, st, st.at.q, luck);
    } else {
      InstallingHolds(o, st, luck);
    }
  }

  lemma PassHolds(o: Options, st: State, step: Step)
    requires Invariant(o, st) && Enabled(st, step) && (step.AddAuthProvider? || step.Leave?)
    ensures Invariant(o, Next(o, st, step))
  {
  }

  lemma StepHolds(o: Options, st: State, step: Step)
    requires Invariant(o, st) && Enabled(st, step)
    ensures Invariant(o, Next(o, st, step))
  {
    match step
    case Move(after) => MoveKeepsInvariant(o, st, after);
    case Call(luck, name) => CallHolds(o, st, luck, name);
    case Touch(k, body, luck) => TouchHolds(o, st, k, body, luck);
    case AddAuthProvider => PassHolds(o, st, step);
    case Leave => PassHolds(o, st, step);
    case Abandon => FailHolds(o, st);
    case _ =>
  }

  /**
   Over every interleaving of client calls that fail anywhere, abandoned attempts and cluster moves, at every point: the
   credentials are in order and the database is given up before its secret or namespace goes; an attempt past its
   database step has handed over the credentials; and a deletion that has reported success has left nothing.
   */
  lemma {:induction false} AnyInterleaving(o: Options, run: seq<State>, steps: seq<Step>, i: nat)
    requires IsRun(o, run, steps) && i < |run|
    requires World(o, run[0].s) && run[0].at == Resting && run[0].report == NotYet
    ensures Invariant(o, run[i])
    ensures World(o, run[i].s)
    ensures o.managedDB && run[i].at == Applying(true) && !run[i].s.deprovisioned ==> HandedOver(run[i].s)
    ensures run[i].report == AllDeleted ==> NothingLeft(o, run[i].s)
  {
    if i > 0 {
      AnyInterleaving(o, run, steps, i - 1);
      StepHolds(o, run[i - 1], steps[i - 1]);
    }
  }

  // ---------------------------------------------------------------------------------------------
  // A deletion ends, although the cluster moves under it
  // ---------------------------------------------------------------------------------------------

  /** The steps of one deletion from its first call on, without failing calls. */
  ghost predicate IsDeletionRun(o: Options, run: seq<State>, steps: seq<Step>) {
    && IsRun(o, run, steps) && run[0].at == FirstLeg(o) && run[0].gone && run[0].report == NotYet
    && forall i :: 0 <= i < |steps| ==>
         run[i].at != Resting && (steps[i].Move? || (steps[i].Call? && steps[i].luck == Works))
  }

  /** All of them, up to its report. */
  ghost predicate IsDeletionAttempt(o: Options, run: seq<State>, steps: seq<Step>) {
    IsDeletionRun(o, run, steps) && run[|steps|].at == Resting
  }

  /** The operator may let go of the Central. */
  predicate CentralFree(s: Store) { Central in s.objs ==> !Paused(s.objs[Central]) }

  /** The Central has had its turn. */
  predicate PastCentral(p: Point) { p.GiveUp? || HasGivenUp(p) }

  /**
   What is known during a deletion from a store of size `n`: what was found is there, or the tenant has become
   smaller; and the pause is lifted when the Central has had its turn.
   */
  ghost predicate Shrinking(n: nat, st: State) {
    && Sound(st.s) && Size(st.s) <= n && (IsDeleting(st.at) || st.at == Resting)
    && (st.at.Find? || st.at.Remove? ==> !st.at.k.Chart?)
    && (st.at.Lift? ==> (Central in st.s.objs || Size(st.s) < n) && st.at.body.CentralCR?
                        && !Paused(Object(false, st.at.body)))
    && (st.at.Remove? ==> st.at.k in st.s.objs || Size(st.s) < n)
    && (PastCentral(st.at) || st.at == Remove(Central) ==> CentralFree(st.s))
    && (st.at.RemoveNamespace? ==> st.s.ns == Active)
    && (st.at == Resting ==> Size(st.s) < n || (CentralFree(st.s) && st.s.ns != Active))
  }

  lemma MoveSize(s: Store, t: Store)
    requires ClusterMoves(s, t)
    ensures Size(t) <= Size(s) && (s.objs != t.objs ==> Size(t) < Size(s))
  {
    if s.objs.Keys != t.objs.Keys { FewerKeys(t.objs, s.objs); } else { assert s.objs == t.objs; }
  }

  lemma MoveSound(s: Store, t: Store)
    requires Sound(s) && ClusterMoves(s, t)
    ensures Sound(t) && (CentralFree(s) ==> CentralFree(t)) && (s.ns != Active ==> t.ns != Active)
  {
  }

  lemma MoveShrinks(n: nat, st: State, after: Store)
    requires Shrinking(n, st) && ClusterMoves(st.s, after) && st.at != Resting
    ensures Shrinking(n, st.(s := after))
  {
    MoveSize(st.s, after);
    MoveSound(st.s, after);
  }

  lemma MarkSize(s: Store, k: Key)
    requires Sound(s)
    ensures var t := MarkIfThere(s, k);
      && Sound(t) && Size(t) == Size(s) && (CentralFree(s) ==> CentralFree(t))
      && t.ns == s.ns && t.objs.Keys == s.objs.Keys
  {
    assert MarkIfThere(s, k).objs.Keys == s.objs.Keys;
  }

  lemma LiftSize(s: Store, body: Body)
    requires Sound(s) && Central in s.objs && body.CentralCR? && !Paused(Object(false, body))
    ensures var t := Put(s, Central, body); Sound(t) && Size(t) == Size(s) && CentralFree(t) && Central in t.objs
  {
    assert Put(s, Central, body).objs.Keys == s.objs.Keys;
  }

  lemma FindShrinks(o: Options, n: nat, st: State, k: Key)
    requires Shrinking(n, st) && st.at == Find(k)
    ensures Shrinking(n, CallFind(o, st, k))
  {
    assert k in st.s.objs ==> Fits(k, st.s.objs[k].body);
  }

  /** The next leg, with nothing found in it yet. */
  lemma NextLegShrinks(o: Options, n: nat, st: State, k: Key)
    requires Sound(st.s) && Size(st.s) <= n && !k.Chart?
    requires k == Central || k == DbSecret ==> CentralFree(st.s)
    ensures Shrinking(n, st.(at := NextLeg(o, k)))
  {
  }

  lemma RemoveShrinks(o: Options, n: nat, st: State, k: Key)
    requires Shrinking(n, st) && st.at == Remove(k)
    ensures Shrinking(n, CallDeleting(o, st, Works, ""))
  {
    if k in st.s.objs {
      MarkSize(st.s, k);
      NextLegShrinks(o, n, st.(s := Mark(st.s, k)), k);
    }
  }

  lemma LegShrinks(o: Options, n: nat, st: State)
    requires Shrinking(n, st) && (st.at.Lift? || st.at.GiveUp?)
    ensures Shrinking(n, CallDeleting(o, st, Works, ""))
  {
    if st.at.Lift? && Central in st.s.objs { LiftSize(st.s, st.at.body); }
  }

  lemma ChartShrinks(o: Options, n: nat, st: State, name: string)
    requires Shrinking(n, st) && (st.at.FindChart? || st.at.RemoveChart?)
    ensures Shrinking(n, CallDeleting(o, st, Works, name))
  {
    if st.at.RemoveChart? { MarkSize(st.s, Chart(st.at.name)); }
  }

  lemma NamespaceShrinks(o: Options, n: nat, st: State)
    requires Shrinking(n, st) && (st.at.FindNamespace? || st.at.RemoveNamespace?)
    ensures Shrinking(n, CallDeleting(o, st, Works, ""))
  {
  }

  lemma CallShrinks(o: Options, n: nat, st: State, name: string)
    requires Shrinking(n, st) && IsDeleting(st.at)
    ensures Shrinking(n, CallDeleting(o, st, Works, name))
  {
    match st.at
    case Find(k) => FindShrinks(o, n, st, k);
    case Remove(k) => RemoveShrinks(o, n, st, k);
    case Lift(_) => LegShrinks(o, n, st);
    case GiveUp => LegShrinks(o, n, st);
    case FindChart(_) => ChartShrinks(o, n, st, name);
    case RemoveChart(_, _) => ChartShrinks(o, n, st, name);
    case FindNamespace => NamespaceShrinks(o, n, st);
    case RemoveNamespace => NamespaceShrinks(o, n, st);
  }

  lemma {:induction false} AttemptShrinks(o: Options, run: seq<State>, steps: seq<Step>, i: nat)
    requires IsDeletionRun(o, run, steps) && Sound(run[0].s) && i < |run|
    ensures Shrinking(Size(run[0].s), run[i])
  {
    if i > 0 {
      AttemptShrinks(o, run, steps, i - 1);
      var n, st := Size(run[0].s), run[i - 1];
      match steps[i - 1]
      case Move(after) => MoveShrinks(n, st, after);
      case Call(_, name) => CallShrinks(o, n, st, name);
    }
  }

  /** When nothing is left, nothing is found. */
  ghost predicate Vacant(st: State) {
    && st.s.ns == Absent && st.s.objs == map[]
    && if st.at == Resting then st.report == AllDeleted
       else st.gone && (st.at.Find? || st.at.GiveUp? || st.at.FindChart? || st.at.FindNamespace?)
  }

  lemma CallVacant(o: Options, st: State, name: string)
    requires Vacant(st) && st.at != Resting
    ensures Vacant(CallDeleting(o, st, Works, name))
  {
  }

  lemma MoveVacant(st: State, after: Store)
    requires Vacant(st) && ClusterMoves(st.s, after)
    ensures Vacant(st.(s := after))
  {
    assert after.objs == map[];
  }

  lemma {:induction false} AttemptVacant(o: Options, run: seq<State>, steps: seq<Step>, i: nat)
    requires IsDeletionRun(o, run, steps) && run[0].s.ns == Absent && run[0].s.objs == map[] && i < |run|
    ensures Vacant(run[i])
  {
    if i > 0 {
      AttemptVacant(o, run, steps, i - 1);
      match steps[i - 1]
      case Move(after) => MoveVacant(run[i - 1], after);
      case Call(_, name) => CallVacant(o, run[i - 1], name);
    }
  }

  /** An attempt, and a move of a diligent cluster after it. */
  datatype Round = Round(run: seq<State>, steps: seq<Step>, after: Store)

  ghost predicate IsRound(o: Options, r: Round) {
    && IsDeletionAttempt(o, r.run, r.steps)
    && ClusterMoves(r.run[|r.steps|].s, r.after) && Diligent(r.run[|r.steps|].s, r.after)
  }

  ghost predicate AreRounds(o: Options, rounds: seq<Round>) {
    && (forall i :: 0 <= i < |rounds| ==> IsRound(o, rounds[i]))
    && (forall i :: 0 < i < |rounds| ==> rounds[i].run[0].s == rounds[i - 1].after)
  }

  /** What a finished pass leaves is all removable. */
  lemma FreeShrinks(s: Store, t: Store)
    requires Sound(s) && CentralFree(s) && s.ns != Active && ClusterMoves(s, t) && Diligent(s, t)
    ensures Size(s) > 0 ==> Size(t) < Size(s)
  {
    MoveSize(s, t);
    if s.objs.Keys != {} {
      var k :| k in s.objs.Keys;
      assert Fits(k, s.objs[k].body) && Removable(s, k);
    }
  }

  lemma RoundIsSmaller(o: Options, r: Round)
    requires IsRound(o, r) && Sound(r.run[0].s)
    ensures Sound(r.after) && Size(r.after) <= Size(r.run[0].s)
    ensures Size(r.run[0].s) > 0 ==> Size(r.after) < Size(r.run[0].s)
  {
    AttemptShrinks(o, r.run, r.steps, |r.steps|);
    var s := r.run[|r.steps|].s;
    MoveSize(s, r.after);
    MoveSound(s, r.after);
    if CentralFree(s) && s.ns != Active { FreeShrinks(s, r.after); }
  }

  lemma {:induction false} RoundsShrink(o: Options, rounds: seq<Round>, i: nat)
    requires AreRounds(o, rounds) && i < |rounds| && Sound(rounds[0].run[0].s)
    ensures Sound(rounds[i].run[0].s)
    ensures var n := Size(rounds[0].run[0].s); Size(rounds[i].run[0].s) <= if n > i then n - i else 0
  {
    if i > 0 {
      RoundsShrink(o, rounds, i - 1);
      RoundIsSmaller(o, rounds[i - 1]);
    }
  }

  /**
   Deletions without failing calls, with cluster moves between any two calls and a diligent one after each attempt:
   after as many rounds as there are objects every attempt reports that nothing is left, although earlier ones may have
   ended in an error because what they found was gone when they came back to it.
   */
  lemma InterleavedDeletionConverges(o: Options, rounds: seq<Round>, i: nat)
    requires AreRounds(o, rounds) && i < |rounds| && Sound(rounds[0].run[0].s) && Size(rounds[0].run[0].s) <= i
    ensures var last := rounds[i].run[|rounds[i].steps|];
      last.report == AllDeleted && last.s.ns == Absent && last.s.objs == map[]
  {
    RoundsShrink(o, rounds, i);
    var s := rounds[i].run[0].s;
    assert |s.objs| == 0;
    AttemptVacant(o, rounds[i].run, rounds[i].steps, |rounds[i].steps|);
  }

  /** An upper bound for the calls that are still to come. */
  function Remaining(o: Options, p: Point): nat {
    match p
    case Resting => 0
    case RemoveNamespace => 1
    case FindNamespace => 2
    case FindChart(left) => 2 + 2 * |left|
    case RemoveChart(_, left) => 3 + 2 * |left|
    case Remove(k) => RemainingOf(o, k)
    case Lift(_) => RemainingOf(o, Central) + 1
    case Find(k) => RemainingOf(o, k) + if k == Central then 2 else 1
    case GiveUp => RemainingOf(o, DbSecret) + 2
    case _ => 0
  }

  function RemainingOf(o: Options, k: Key): nat {
    var charts := 3 + 2 * |o.rendered.Keys|;
    match k
    case ReencryptRoute => charts + 8
    case PassthroughRoute => charts + 6
    case Central => charts + 3
    case _ => charts
  }

  lemma LegRemains(o: Options, k: Key)
    requires !k.Chart?
    ensures Remaining(o, NextLeg(o, k)) < RemainingOf(o, k)
  {
  }

  lemma FindRunsOut(o: Options, n: nat, st: State, k: Key)
    requires Shrinking(n, st) && st.at == Find(k)
    ensures Remaining(o, CallFind(o, st, k).at) < Remaining(o, st.at)
  {
    LegRemains(o, k);
    assert k in st.s.objs ==> Fits(k, st.s.objs[k].body);
  }

  lemma ChartRunsOut(o: Options, st: State, name: string, left: set<string>)
    requires st.at == FindChart(left) && name in left
    ensures Remaining(o, CallFindChart(st, name, left - {name}).at) < Remaining(o, st.at)
  {
    assert |left - {name}| == |left| - 1;
  }

  lemma CallRunsOut(o: Options, n: nat, st: State, luck: Luck, name: string)
    requires Shrinking(n, st) && IsDeleting(st.at) && Enabled(st, Call(luck, name))
    ensures Remaining(o, CallDeleting(o, st, luck, name).at) < Remaining(o, st.at)
  {
    match st.at
    case Find(k) => FindRunsOut(o, n, st, k);
    case Remove(k) => LegRemains(o, k);
    case FindChart(left) => ChartRunsOut(o, st, name, left);
    case _ =>
  }

  function Calls(steps: seq<Step>): nat {
    if steps == [] then 0 else Calls(steps[..|steps| - 1]) + if steps[|steps| - 1].Call? then 1 else 0
  }

  lemma {:induction false} CallsRemain(o: Options, run: seq<State>, steps: seq<Step>, i: nat)
    requires IsDeletionRun(o, run, steps) && Sound(run[0].s) && i < |run|
    ensures Calls(steps[..i]) + Remaining(o, run[i].at) <= Remaining(o, run[0].at)
  {
    if i > 0 {
      CallsRemain(o, run, steps, i - 1);
      assert steps[..i][..i - 1] == steps[..i - 1];
      if steps[i - 1].Call? {
        AttemptShrinks(o, run, steps, i - 1);
        CallRunsOut(o, Size(run[0].s), run[i - 1], steps[i - 1].luck, steps[i - 1].name);
      }
    }
  }

  /** However the cluster moves, an attempt comes to its end within two calls for each chart object and twelve more. */
  lemma AttemptsAreShort(o: Options, run: seq<State>, steps: seq<Step>)
    requires IsDeletionRun(o, run, steps) && Sound(run[0].s)
    ensures Calls(steps) <= 2 * |o.rendered.Keys| + 12
  {
    CallsRemain(o, run, steps, |steps|);
    assert steps[..|steps|] == steps;
  }

  // ---------------------------------------------------------------------------------------------
  // Without moves an attempt is the pass on values
  // ---------------------------------------------------------------------------------------------

  /** The store when a leg begins, of an attempt that began at `s`. */
  function LegStore(o: Options, s: Store, k: Key): Store {
    match k
    case ReencryptRoute => s
    case PassthroughRoute => MarkIfThere(s, ReencryptRoute)
    case Central => RoutesLeg(o, s)
    case _ => CRLeg(RoutesLeg(o, s)).(deprovisioned := true)
  }

  function ChartStore(o: Options, s: Store, left: set<string>): Store {
    MarkCharts(DatabaseLeg(o, CRLeg(RoutesLeg(o, s))), o.rendered.Keys - left)
  }

  /** Nothing was found in the legs before this one. */
  predicate NoneFound(o: Options, s: Store, k: Key) {
    match k
    case ReencryptRoute => true
    case PassthroughRoute => ReencryptRoute !in s.objs
    case Central => o.useRoutes ==> ReencryptRoute !in s.objs && PassthroughRoute !in s.objs
    case _ => Central !in s.objs && (o.useRoutes ==> ReencryptRoute !in s.objs && PassthroughRoute !in s.objs)
  }

  predicate NoneUnderwaySoFar(o: Options, s: Store, left: set<string>) {
    NothingWaitsFor(o, s) && NoneUnderway(s, o.rendered.Keys - left)
  }

  ghost predicate Quiet(o: Options, s: Store, st: State) {
    match st.at
    case Find(k) =>
      && st.s == LegStore(o, s, k) && st.gone == NoneFound(o, s, k) && !k.Chart?
      && (k == DbSecret ==> o.managedDB) && (k == ReencryptRoute || k == PassthroughRoute ==> o.useRoutes)
    case Remove(k) =>
      && k in st.s.objs && !st.gone && !k.Chart? && k in s.objs
      && st.s == (if k == Central then UnpauseCR(LegStore(o, s, k)) else LegStore(o, s, k))
      && (k == DbSecret ==> o.managedDB) && (k == ReencryptRoute || k == PassthroughRoute ==> o.useRoutes)
    case Lift(body) =>
      && st.s == LegStore(o, s, Central) && Central in st.s.objs && !st.gone && Central in s.objs
      && body == Unpause(st.s.objs[Central].body)
    case GiveUp => o.managedDB && st.s == CRLeg(RoutesLeg(o, s)) && st.gone == NoneFound(o, s, DbSecret)
    case FindChart(left) =>
      left <= o.rendered.Keys && st.s == ChartStore(o, s, left) && st.gone == NoneUnderwaySoFar(o, s, left)
    case RemoveChart(n, left) =>
      && n in o.rendered && n !in left && left <= o.rendered.Keys && st.s == ChartStore(o, s, left + {n})
      && st.gone == NoneUnderwaySoFar(o, s, left)
    case FindNamespace => st.s == ChartStore(o, s, {}) && st.gone == NoneUnderwaySoFar(o, s, {})
    case RemoveNamespace => st.s == ChartStore(o, s, {}) && st.s.ns == Active
    case Resting =>
      st.s == AfterPass(o, s) && st.report == if PassReports(o, s) then AllDeleted else InProgress
    case _ => false
  }

  lemma LegKeysAre(o: Options, s: Store, k: Key)
    ensures LegStore(o, s, k).objs.Keys == s.objs.Keys && UnpauseCR(LegStore(o, s, k)).objs.Keys == s.objs.Keys
  {
    RoutesKeepShape(o, s);
    MarkKeepsShape(s, ReencryptRoute);
    CRKeepsShape(RoutesLeg(o, s));
  }

  lemma NoCharts(s: Store)
    ensures MarkCharts(s, {}) == s
  {
    assert MarkCharts(s, {}).objs == s.objs;
  }

  lemma ChartsBegin(o: Options, s: Store, st: State)
    requires st.s == DatabaseLeg(o, CRLeg(RoutesLeg(o, s))) && st.gone == NothingWaitsFor(o, s)
    ensures Quiet(o, s, st.(at := NextChart(o.rendered.Keys)))
  {
    NoCharts(st.s);
    assert o.rendered.Keys - o.rendered.Keys == {};
  }

  /** What a leg leaves of the store that it began with. */
  function LegDone(o: Options, s: Store, k: Key): Store {
    MarkIfThere(if k == Central then UnpauseCR(LegStore(o, s, k)) else LegStore(o, s, k), k)
  }

  lemma QuietLeg(o: Options, s: Store, st: State, k: Key)
    requires !k.Chart? && st.s == LegDone(o, s, k) && st.gone == (NoneFound(o, s, k) && k !in s.objs)
    requires (k == DbSecret ==> o.managedDB) && (k == ReencryptRoute || k == PassthroughRoute ==> o.useRoutes)
    ensures Quiet(o, s, st.(at := NextLeg(o, k)))
  {
    if k == DbSecret || (k == Central && !o.managedDB) { ChartsBegin(o, s, st); }
  }

  lemma UnpausedAlready(s: Store)
    requires Central in s.objs ==> !Paused(s.objs[Central])
    ensures UnpauseCR(s) == s
  {
    if Central in s.objs { assert UnpauseCR(s).objs == s.objs; }
  }

  lemma QuietFind(o: Options, s: Store, st: State, k: Key)
    requires Sound(st.s) && st.at == Find(k) && Quiet(o, s, st)
    ensures Quiet(o, s, CallFind(o, st, k))
  {
    LegKeysAre(o, s, k);
    if k !in st.s.objs {
      if k == Central { UnpausedAlready(st.s); }
      QuietLeg(o, s, st, k);
    } else {
      assert Fits(k, st.s.objs[k].body);
      if k == Central && !Paused(st.s.objs[k]) { UnpausedAlready(st.s); }
    }
  }

  lemma QuietRemove(o: Options, s: Store, st: State, name: string)
    requires (st.at.Remove? || st.at.Lift? || st.at.GiveUp?) && Quiet(o, s, st)
    ensures Quiet(o, s, CallDeleting(o, st, Works, name))
  {
    match st.at
    case Remove(k) => QuietLeg(o, s, st.(s := Mark(st.s, k)), k);
    case Lift(_) => LegKeysAre(o, s, Central);
    case GiveUp =>
  }

  lemma ChartsGoOn(o: Options, s: Store, st: State, n: string, left: set<string>)
    requires n in o.rendered && n !in left && left <= o.rendered.Keys
    requires st.s == MarkIfThere(ChartStore(o, s, left + {n}), Chart(n)) && st.gone == NoneUnderwaySoFar(o, s, left)
    ensures Quiet(o, s, st.(at := NextChart(left)))
  {
    var keys := o.rendered.Keys;
    assert keys - left == (keys - (left + {n})) + {n};
    MarkChartsNext(DatabaseLeg(o, CRLeg(RoutesLeg(o, s))), keys - (left + {n}), n);
  }

  /** Earlier legs and other chart objects leave a chart object alone. */
  lemma ChartSeen(o: Options, s: Store, n: string, left: set<string>)
    requires Sound(s) && n in left
    ensures Chart(n) in ChartStore(o, s, left).objs <==> Chart(n) in s.objs
    ensures Chart(n) in s.objs ==> ChartStore(o, s, left).objs[Chart(n)].marked == s.objs[Chart(n)].marked
  {
    var k := Chart(n);
    LegKeys(o, s);
    if k in s.objs {
      RoutesLegAt(o, s, k);
      CRLegAt(RoutesLeg(o, s), k);
      DatabaseLegAt(o, CRLeg(RoutesLeg(o, s)), k);
    }
  }

  lemma UnderwayNext(o: Options, s: Store, n: string, left: set<string>)
    requires n in left && left <= o.rendered.Keys
    ensures NoneUnderwaySoFar(o, s, left - {n}) <==>
      NoneUnderwaySoFar(o, s, left) && (Chart(n) in s.objs ==> !s.objs[Chart(n)].marked)
  {
    assert o.rendered.Keys - (left - {n}) == (o.rendered.Keys - left) + {n};
  }

  lemma AlreadyMarked(s: Store, k: Key)
    requires k in s.objs ==> s.objs[k].marked
    ensures MarkIfThere(s, k) == s
  {
    if k in s.objs { assert Mark(s, k).objs == s.objs; }
  }

  lemma QuietFindChart(o: Options, s: Store, st: State, n: string, left: set<string>)
    requires Sound(s) && st.at == FindChart(left) && n in left && Quiet(o, s, st)
    ensures Quiet(o, s, CallFindChart(st, n, left - {n}))
  {
    ChartSeen(o, s, n, left);
    UnderwayNext(o, s, n, left);
    var rest := left - {n};
    assert rest + {n} == left;
    if Chart(n) !in st.s.objs || st.s.objs[Chart(n)].marked {
      AlreadyMarked(st.s, Chart(n));
      ChartsGoOn(o, s, st.(gone := st.gone && Chart(n) !in st.s.objs), n, rest);
    }
  }

  lemma QuietEnd(o: Options, s: Store, st: State, name: string)
    requires Sound(s) && (st.at.FindNamespace? || st.at.RemoveNamespace?) && Quiet(o, s, st)
    ensures Quiet(o, s, CallDeleting(o, st, Works, name))
  {
    LegsMakeAPass(o, s);
    LegKeys(o, s);
    assert o.rendered.Keys - {} == o.rendered.Keys;
  }

  lemma QuietCall(o: Options, s: Store, st: State, name: string)
    requires Sound(s) && Sound(st.s) && Quiet(o, s, st) && st.at != Resting && Enabled(st, Call(Works, name))
    ensures Quiet(o, s, CallDeleting(o, st, Works, name))
  {
    match st.at
    case Find(k) => QuietFind(o, s, st, k);
    case FindChart(left) => QuietFindChart(o, s, st, name, left);
    case RemoveChart(n, left) =>
      ChartsGoOn(o, s, st.(s := MarkIfThere(st.s, Chart(n))), n, left);
    case FindNamespace => QuietEnd(o, s, st, name);
    case RemoveNamespace => QuietEnd(o, s, st, name);
    case _ => QuietRemove(o, s, st, name);
  }

  lemma {:induction false} QuietRun(o: Options, run: seq<State>, steps: seq<Step>, i: nat)
    requires IsDeletionRun(o, run, steps) && Sound(run[0].s) && i < |run|
    requires forall j :: 0 <= j < |steps| ==> !steps[j].Move?
    ensures Quiet(o, run[0].s, run[i])
  {
    if i > 0 {
      QuietRun(o, run, steps, i - 1);
      AttemptShrinks(o, run, steps, i - 1);
      QuietCall(o, run[0].s, run[i - 1], steps[i - 1].name);
    }
  }

  /** Without moves and failures the calls of an attempt make exactly the pass on values, with its report. */
  lemma QuietAttemptIsAPass(o: Options, run: seq<State>, steps: seq<Step>)
    requires IsDeletionAttempt(o, run, steps) && Sound(run[0].s)
    requires forall j :: 0 <= j < |steps| ==> !steps[j].Move?
    ensures run[|steps|].s == AfterPass(o, run[0].s)
    ensures run[|steps|].report == if PassReports(o, run[0].s) then AllDeleted else InProgress
  {
    QuietRun(o, run, steps, |steps|);
  }

  // ---------------------------------------------------------------------------------------------
  // Errors without failing calls
  // ---------------------------------------------------------------------------------------------

  /** The object that was found is gone before it is changed. */
  predicate LostMeanwhile(st: State) {
    (st.at.Remove? && st.at.k !in st.s.objs) || (st.at.Lift? && Central !in st.s.objs)
  }

  lemma CallErrsIff(o: Options, n: nat, st: State, name: string)
    requires Shrinking(n, st) && IsDeleting(st.at) && st.report == NotYet
    ensures CallDeleting(o, st, Works, name).report == Erred <==> LostMeanwhile(st)
    ensures CallDeleting(o, st, Works, name).at != Resting ==> CallDeleting(o, st, Works, name).report == NotYet
  {
  }

  lemma {:induction false} NoReportYet(o: Options, run: seq<State>, steps: seq<Step>, i: nat)
    requires IsDeletionRun(o, run, steps) && Sound(run[0].s) && i < |run| && run[i].at != Resting
    ensures run[i].report == NotYet
  {
    if i > 0 {
      NoReportYet(o, run, steps, i - 1);
      AttemptShrinks(o, run, steps, i - 1);
      if steps[i - 1].Call? { CallErrsIff(o, Size(run[0].s), run[i - 1], steps[i - 1].name); }
    }
  }

  /** Without failing calls an attempt ends in an error if and only if its last call came too late for what it found. */
  lemma DeletionErrsIff(o: Options, run: seq<State>, steps: seq<Step>)
    requires IsDeletionAttempt(o, run, steps) && Sound(run[0].s)
    ensures steps != [] && (run[|steps|].report == Erred <==> LostMeanwhile(run[|steps| - 1]))
  {
    var i := |steps| - 1;
    NoReportYet(o, run, steps, i);
    AttemptShrinks(o, run, steps, i);
    if steps[i].Call? { CallErrsIff(o, Size(run[0].s), run[i], steps[i].name); }
  }

  /** An attempt that asks for the deletion of a Central which the operator removes first. */
  lemma DeletionErrsOnItsOwn() returns (o: Options, run: seq<State>, steps: seq<Step>)
    ensures IsDeletionAttempt(o, run, steps) && Sound(run[0].s) && run[|steps|].report == Erred
  {
    var body := CentralCR(Spec(ManagedCentral("", "", "", "", true, ""), false, false, None, false), map[]);
    var s := Store(Active, map[Central := Object(true, body)], None, false, Pods(false, false, false, false));
    var t := s.(objs := map[]);
    o := Options(false, false, false, map[]);
    var a := State(s, Find(Central), true, NotYet, "", "", "", {});
    var b := a.(at := Remove(Central), gone := false);
    assert Removable(s, Central) && ClusterMoves(s, t);
    run := [a, b, b.(s := t), Fail(b.(s := t))];
    steps := [Call(Works, ""), Move(t), Call(Works, "")];
  }

  // ---------------------------------------------------------------------------------------------
  // A hand-over succeeds, although the cluster moves under it
  // ---------------------------------------------------------------------------------------------

  /** An upper bound for the calls of the database step that are still to come. */
  function ToHandOver(p: Point): nat {
    match p
    case LookUser => 19
    case LookSecret => 18
    case FindSecret(central) => if central then 3 else 17
    case UpdateSecret(_, _) => 2
    case CreateSecret(_) => 16
    case ReadPassword => 15
    case ProvisionDB => 14
    case Connect => 13
    case Execute(q) => ToSetUp(q)
    case ConnectAgain => 1
    case _ => 0
  }

  function ToSetUp(q: Statement): nat {
    match q
    case BeginTx => 12
    case CreateRole => 11
    case GrantSignal => 10
    case GrantStats => 9
    case CommitTx => 8
    case AlterRole => 8
    case GrantRole => 7
    case CheckDatabase => 6
    case CreateDatabase => 5
    case CreateExtensions => 4
  }

  /** What the statements before this one have achieved when none of them failed. */
  predicate SetUpSoFar(st: State) {
    st.at.Execute? && st.s.db.Some? ==>
      && (st.at.q == GrantRole ==> st.s.db.value.role.Some?)
      && (st.at.q == CheckDatabase || st.at.q == CreateDatabase ==> st.s.db.value.member)
      && (st.at.q == CreateExtensions ==> st.s.db.value.created)
  }

  /** An attempt at its database step, in a namespace that stays and with a database that has not been given up. */
  ghost predicate HandingOver(o: Options, st: State) {
    && Invariant(o, st) && o.managedDB && !st.s.deprovisioned && st.s.ns == Active
    && (ForDatabase(st.at) || st.at == Applying(true)) && SetUpSoFar(st)
  }

  /** The call does not fail, and there are fewer to come. */
  ghost predicate Advances(st: State, t: State) {
    && (ForDatabase(t.at) || t.at == Applying(true)) && ToHandOver(t.at) < ToHandOver(st.at)
    && t.s.ns == st.s.ns && t.s.deprovisioned == st.s.deprovisioned && SetUpSoFar(t)
  }

  lemma LookAdvances(o: Options, st: State)
    requires HandingOver(o, st) && (st.at.LookUser? || st.at.LookSecret? || st.at.FindSecret?)
    ensures Advances(st, CallInstalling(st, Works))
  {
  }

  lemma SecretAdvances(o: Options, st: State)
    requires HandingOver(o, st) && (st.at.UpdateSecret? || st.at.CreateSecret?)
    ensures Advances(st, CallInstalling(st, Works))
  {
  }

  lemma ReadAdvances(o: Options, st: State)
    requires HandingOver(o, st) && st.at.ReadPassword?
    ensures Advances(st, CallInstalling(st, Works))
  {
  }

  lemma ConnectAdvances(o: Options, st: State)
    requires HandingOver(o, st) && (st.at.ProvisionDB? || st.at.Connect? || st.at.ConnectAgain?)
    ensures Advances(st, CallInstalling(st, Works))
  {
  }

  /** The password that was read opens the server. */
  lemma LoginWorks(o: Options, st: State)
    requires HandingOver(o, st) && st.at.Execute?
    ensures LoggedIn(st)
  {
  }

  predicate InTransaction(q: Statement) { q.BeginTx? || q.CreateRole? || q.GrantSignal? || q.GrantStats? }

  lemma TransactionAdvances(o: Options, st: State)
    requires HandingOver(o, st) && st.at.Execute? && LoggedIn(st) && InTransaction(st.at.q)
    ensures Advances(st, CallExecute(st, st.at.q, Works))
  {
  }

  predicate OnTheRole(q: Statement) { q.CommitTx? || q.AlterRole? || q.GrantRole? }

  lemma RoleAdvances(o: Options, st: State)
    requires HandingOver(o, st) && st.at.Execute? && LoggedIn(st) && OnTheRole(st.at.q)
    ensures Advances(st, CallExecute(st, st.at.q, Works))
  {
  }

  lemma StatementAdvances(o: Options, st: State)
    requires HandingOver(o, st) && st.at.Execute? && LoggedIn(st) && !InTransaction(st.at.q) && !OnTheRole(st.at.q)
    ensures Advances(st, CallExecute(st, st.at.q, Works))
  {
  }

  lemma HandOverCall(o: Options, st: State, name: string)
    requires HandingOver(o, st) && st.at != Applying(true)
    ensures Advances(st, MakeCall(o, st, Works, name)) && HandingOver(o, MakeCall(o, st, Works, name))
  {
    CallHolds(o, st, Works, name);
    if st.at.Execute? {
      LoginWorks(o, st);
      if InTransaction(st.at.q) {
        TransactionAdvances(o, st);
      } else if OnTheRole(st.at.q) {
        RoleAdvances(o, st);
      } else {
        StatementAdvances(o, st);
      }
    } else if st.at.LookUser? || st.at.LookSecret? || st.at.FindSecret? {
      LookAdvances(o, st);
    } else if st.at.UpdateSecret? || st.at.CreateSecret? {
      SecretAdvances(o, st);
    } else if st.at.ReadPassword? {
      ReadAdvances(o, st);
    } else {
      ConnectAdvances(o, st);
    }
  }

  lemma HandOverMove(o: Options, st: State, after: Store)
    requires HandingOver(o, st) && ClusterMoves(st.s, after)
    ensures HandingOver(o, st.(s := after))
  {
    MoveKeepsInvariant(o, st, after);
    MovesLeaveCredentials(o, st.s, after);
  }

  lemma HandOverStep(o: Options, st: State, step: Step)
    requires HandingOver(o, st) && Enabled(st, step) && st.at != Applying(true)
    requires step.Move? || (step.Call? && step.luck == Works)
    ensures var t := Next(o, st, step);
      HandingOver(o, t) && ToHandOver(t.at) + (if step.Call? then 1 else 0) <= ToHandOver(st.at)
  {
    match step
    case Move(after) => HandOverMove(o, st, after);
    case Call(_, name) => HandOverCall(o, st, name);
  }

  lemma HandingOverMeans(o: Options, st: State)
    requires HandingOver(o, st)
    ensures st.report == NotYet && (st.at == Applying(true) ==> HandedOver(st.s))
  {
  }

  /** The database step of an attempt, without failing calls. */
  ghost predicate IsHandOver(o: Options, run: seq<State>, steps: seq<Step>) {
    && IsRun(o, run, steps) && run[0].at == LookUser
    && forall i :: 0 <= i < |steps| ==>
         run[i].at != Applying(true) && (steps[i].Move? || (steps[i].Call? && steps[i].luck == Works))
  }

  /**
   From every state in order, however far earlier attempts have come and however the cluster moves between the calls:
   the database step does not fail, it ends within nineteen calls, and then the credentials are handed over.
   */
  lemma {:induction false} HandOverSucceeds(o: Options, run: seq<State>, steps: seq<Step>, i: nat)
    requires IsHandOver(o, run, steps) && HandingOver(o, run[0]) && i < |run|
    ensures HandingOver(o, run[i]) && Calls(steps[..i]) + ToHandOver(run[i].at) <= 19
    ensures run[i].report == NotYet && (run[i].at == Applying(true) ==> HandedOver(run[i].s))
  {
    if i == 0 {
      assert steps[..0] == [];
    } else {
      HandOverSucceeds(o, run, steps, i - 1);
      assert steps[..i][..i - 1] == steps[..i - 1];
      HandOverStep(o, run[i - 1], steps[i - 1]);
    }
    HandingOverMeans(o, run[i]);
  }
}
