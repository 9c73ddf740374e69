/**
 The credential hand-over of the managed database (fleetshard/pkg/central/reconciler/reconciler.go
 and fleetshard/pkg/central/postgres/dbinit.go): one secret first holds the master password and,
 once the database is set up, the password of the Central role.
 */
module Credentials {
  import opened Cluster
  import opened Optional

  const UserTypeAnnotation := "platform.stackrox.io/user-type"
  const ManagedAnnotation := "platform.stackrox.io/managed-services"
  const MasterUser := "master"
  const CentralUser := "central"
  const CentralUserName := "rhacs_central"

  predicate HoldsCentralPassword(b: Body) {
    b.Secret? && UserTypeAnnotation in b.annotations && b.annotations[UserTypeAnnotation] == CentralUser
  }

  const SignalBackend := "pg_signal_backend"
  const ReadAllStats := "pg_read_all_stats"

  /** A Central role has both grants. */
  predicate Equipped(d: Database) { d.role.Some? ==> d.role.value.grants == {SignalBackend, ReadAllStats} }

  predicate Initialised(d: Database, password: string) {
    d.role == Some(Role(password, {SignalBackend, ReadAllStats})) && d.created && d.extensions
  }

  /** The secret says "central", and its password opens an initialised database. */
  ghost predicate HandedOver(s: Store) {
    && DbSecret in s.objs && HoldsCentralPassword(s.objs[DbSecret].body)
    && s.objs[DbSecret].body.password.Some?
    && s.db.Some? && Initialised(s.db.value, s.objs[DbSecret].body.password.value)
  }

  /**
   A role has its grants. Until the database is given up: without a secret there is no database; a secret of the
   Central user belongs to an initialised database; any other secret holds the master password.
   */
  ghost predicate CredentialsInOrder(s: Store) {
    && (s.db.Some? ==> Equipped(s.db.value))
    && (!s.deprovisioned ==>
        if DbSecret !in s.objs then s.db == None
        else if HoldsCentralPassword(s.objs[DbSecret].body) then HandedOver(s)
        else
          var b := s.objs[DbSecret].body;
          b.Secret? && b.password.Some? && (s.db.Some? ==> s.db.value.master == b.password.value))
  }

  // ---------------------------------------------------------------------------------------------
  // Setting up the database
  // ---------------------------------------------------------------------------------------------

  /** Only the database may differ, and a server keeps its master password. */
  ghost predicate OnlyDatabase(before: Store, after: Store) {
    && after == before.(db := after.db)
    && (before.db.None? ==> after.db.None?)
    && (before.db.Some? ==> after.db.Some? && after.db.value.master == before.db.value.master)
    && (before.db.Some? && Equipped(before.db.value) ==> Equipped(after.db.value))
  }

  datatype UserError = NoUserError | DuplicateObject | OtherError

  /**
   createNonPrivilegedUser: the role appears with its grants when the transaction commits. The error of the commit
   does not reach the caller, so success does not mean that the role exists.
   */
  method CreateNonPrivilegedUser(c: Client, master: string, userPassword: string) returns (e: UserError)
    modifies c`s
    ensures OnlyDatabase(old(c.s), c.s)
    ensures c.s != old(c.s) ==>
      && old(c.s).db.Some? && old(c.s).db.value.role == None
      && c.s.db.value == old(c.s).db.value.(role := Some(Role(userPassword, {SignalBackend, ReadAllStats})))
    ensures e == DuplicateObject ==> c.s == old(c.s) && c.s.db.Some? && c.s.db.value.role.Some?
    ensures e == NoUserError ==> old(c.s).db.Some? && old(c.s).db.value.role == None
    ensures c.calm && old(c.s).db.Some? && old(c.s).db.value.master == master ==>
      if old(c.s).db.value.role == None then e == NoUserError && c.s.db.value.role.Some? else e == DuplicateObject
  {
    if c.s.db.None? { return OtherError; }
    var d := c.s.db.value;
    var begin := c.Execute(master, d);
    if begin != NoError { return OtherError; }
    var create := c.Execute(master, d);
    if create != NoError { return OtherError; }
    if d.role.Some? { return DuplicateObject; }
    var role := Role(userPassword, {});
    var signal := c.Execute(master, d);
    if signal != NoError { return OtherError; }
    role := role.(grants := role.grants + {SignalBackend});
    var stats := c.Execute(master, d);
    if stats != NoError { return OtherError; }
    role := role.(grants := role.grants + {ReadAllStats});
    var dropped := c.Execute(master, d.(role := Some(role)));
    e := NoUserError;
  }

  /** Creates the role, or gives an existing one the new password. */
  method InitializeCentralDBUser(c: Client, master: string, userPassword: string) returns (e: Error)
    modifies c`s
    ensures OnlyDatabase(old(c.s), c.s)
    ensures e == NoError ==>
      c.s.db.Some? && (c.s.db.value.role == None || c.s.db.value.role.value.password == userPassword)
    ensures c.calm && old(c.s).db.Some? && old(c.s).db.value.master == master ==>
      e == NoError && c.s.db.value.role.Some?
  {
    var create := CreateNonPrivilegedUser(c, master, userPassword);
    if create == NoUserError { return NoError; }
    if create == DuplicateObject {
      var d := c.s.db.value;
      e := c.Execute(master, d.(role := Some(d.role.value.(password := userPassword))));
      return;
    }
    e := Failed;
  }

  /** GRANT needs the role; the database is created only if it is not there yet, by a member of the role. */
  method CreateCentralDB(c: Client, master: string) returns (e: Error)
    modifies c`s
    ensures OnlyDatabase(old(c.s), c.s)
    ensures c.s.db.Some? ==>
      c.s.db.value == old(c.s).db.value.(created := c.s.db.value.created, member := c.s.db.value.member)
    ensures e == NoError ==> c.s.db.Some? && c.s.db.value.role.Some? && c.s.db.value.created
    ensures c.calm && old(c.s).db.Some? && old(c.s).db.value.master == master && old(c.s).db.value.role.Some? ==>
      e == NoError
  {
    if c.s.db.None? || c.s.db.value.role.None? { return Failed; }
    e := c.Execute(master, c.s.db.value.(member := true));
    if e != NoError { return; }
    e := c.Execute(master, c.s.db.value);
    if e != NoError { return; }
    if !c.s.db.value.created {
      if !c.s.db.value.member { return Failed; }
      e := c.Execute(master, c.s.db.value.(created := true));
    }
  }

  method InstallExtensions(c: Client, master: string) returns (e: Error)
    modifies c`s
    ensures OnlyDatabase(old(c.s), c.s)
    ensures c.s.db.Some? ==> c.s.db.value == old(c.s).db.value.(extensions := c.s.db.value.extensions)
    ensures e == NoError ==> c.s.db.Some? && c.s.db.value.extensions
    ensures c.calm && old(c.s).db.Some? && old(c.s).db.value.master == master && old(c.s).db.value.created ==>
      e == NoError
  {
    if c.s.db.None? || !c.s.db.value.created { return Failed; }
    e := c.Execute(master, c.s.db.value.(extensions := true));
  }

  /** On success the role exists with the given password, in spite of the dropped commit error. */
  method InitializeDatabase(c: Client, master: string, userPassword: string) returns (e: Error)
    modifies c`s
    ensures OnlyDatabase(old(c.s), c.s)
    ensures e == NoError && old(c.s).db.Some? && Equipped(old(c.s).db.value) ==>
      Initialised(c.s.db.value, userPassword)
    ensures c.calm && old(c.s).db.Some? && old(c.s).db.value.master == master ==> e == NoError
  {
    e := InitializeCentralDBUser(c, master, userPassword);
    if e != NoError { return; }
    e := CreateCentralDB(c, master);
    if e != NoError { return; }
    e := InstallExtensions(c, master);
  }

  // ---------------------------------------------------------------------------------------------
  // The secret
  // ---------------------------------------------------------------------------------------------

  /**
   The secret now has this password and user type. An existing secret keeps its other annotations, and a new one has
   the mark of the managed service; everything else is as before.
   */
  ghost predicate SecretStored(before: Store, after: Store, userType: string, password: string) {
    && DbSecret in after.objs && after == Put(before, DbSecret, after.objs[DbSecret].body)
    && after.objs[DbSecret].body.Secret? && after.objs[DbSecret].body.password == Some(password)
    && Annotated(before, after.objs[DbSecret].body.annotations, userType)
  }

  ghost predicate Annotated(before: Store, annotations: map<string, string>, userType: string) {
    if DbSecret in before.objs && before.objs[DbSecret].body.Secret? then
      var kept := before.objs[DbSecret].body.annotations;
      && annotations.Keys == kept.Keys + {UserTypeAnnotation} && annotations[UserTypeAnnotation] == userType
      && forall k :: k in kept && k != UserTypeAnnotation ==> annotations[k] == kept[k]
    else annotations == map["platform.stackrox.io/managed-services" := "true", UserTypeAnnotation := userType]
  }

  method EnsureSecret(c: Client, userType: string, password: string) returns (e: Error)
    requires Sound(c.s)
    modifies c`s
    ensures Sound(c.s)
    ensures c.s == old(c.s) || SecretStored(old(c.s), c.s, userType, password)
    ensures e == NoError ==> SecretStored(old(c.s), c.s, userType, password)
    ensures DbSecret !in old(c.s).objs && DbSecret in c.s.objs ==> c.s.ns == Active
    ensures c.calm && (c.s.ns == Active || DbSecret in old(c.s).objs) ==> e == NoError
  {
    var get, o := c.Get(DbSecret);
    if get == NoError {
      e := c.Update(DbSecret, Secret(Some(password), o.value.body.annotations[UserTypeAnnotation := userType]));
      return;
    }
    if get != NotFound { return Failed; }
    var annotations: map<string, string> := map[ManagedAnnotation := "true"];
    e := c.Create(DbSecret, Secret(Some(password), annotations[UserTypeAnnotation := userType]));
  }

  method SecretExists(c: Client) returns (e: Error, found: bool)
    ensures e in {NoError, Failed} && (e == NoError ==> found == (DbSecret in c.s.objs)) && (c.calm ==> e == NoError)
  {
    var get, o := c.Get(DbSecret);
    if get == NotFound { return NoError, false; }
    if get != NoError { return Failed, false; }
    return NoError, true;
  }

  method CentralDBUserExists(c: Client) returns (e: Error, found: bool)
    ensures e in {NoError, Failed} && (c.calm ==> e == NoError)
    ensures e == NoError ==> found == (DbSecret in c.s.objs && HoldsCentralPassword(c.s.objs[DbSecret].body))
    ensures e == NoError ==>
      (found <==> DbSecret in c.s.objs && c.s.objs[DbSecret].body.Secret?
                  && "platform.stackrox.io/user-type" in c.s.objs[DbSecret].body.annotations
                  && c.s.objs[DbSecret].body.annotations["platform.stackrox.io/user-type"] == "central")
  {
    var get, o := c.Get(DbSecret);
    if get == NotFound { return NoError, false; }
    if get != NoError { return Failed, false; }
    return NoError, HoldsCentralPassword(o.value.body);
  }

  method PasswordFromSecret(c: Client) returns (e: Error, password: string)
    requires Sound(c.s)
    ensures e in {NoError, Failed}
    ensures e == NoError ==> DbSecret in c.s.objs && c.s.objs[DbSecret].body.password == Some(password)
    ensures c.calm && DbSecret in c.s.objs && c.s.objs[DbSecret].body.password.Some? ==> e == NoError
  {
    var get, o := c.Get(DbSecret);
    if get != NoError || o.value.body.password == None { return Failed, ""; }
    return NoError, o.value.body.password.value;
  }

  // ---------------------------------------------------------------------------------------------
  // The hand-over
  // ---------------------------------------------------------------------------------------------

  /** Only the secret and the database may differ. */
  ghost predicate OnlyCredentials(before: Store, after: Store) {
    && after == before.(objs := after.objs, db := after.db)
    && (forall k :: k != DbSecret ==> (k in before.objs <==> k in after.objs))
    && (forall k :: k != DbSecret && k in before.objs ==> after.objs[k] == before.objs[k])
    && (DbSecret in before.objs ==>
        DbSecret in after.objs && after.objs[DbSecret].marked == before.objs[DbSecret].marked)
    && (DbSecret !in before.objs && DbSecret in after.objs ==> before.ns == Active && !after.objs[DbSecret].marked)
  }

  /** First phase: there is a secret, and its password is returned. Called when it is not the Central user's. */
  method EnsureMasterSecret(c: Client, generated: string) returns (e: Error, master: string)
    requires Sound(c.s) && CredentialsInOrder(c.s)
    requires !(DbSecret in c.s.objs && HoldsCentralPassword(c.s.objs[DbSecret].body))
    modifies c`s
    ensures Sound(c.s) && CredentialsInOrder(c.s) && OnlyCredentials(old(c.s), c.s) && c.s.db == old(c.s).db
    ensures !(DbSecret in c.s.objs && HoldsCentralPassword(c.s.objs[DbSecret].body))
    ensures e == NoError ==> DbSecret in c.s.objs && c.s.objs[DbSecret].body.password == Some(master)
    ensures DbSecret in old(c.s).objs ==> c.s == old(c.s)
    ensures DbSecret !in old(c.s).objs && DbSecret in c.s.objs ==>
      c.s.objs[DbSecret].body.password == Some(generated) && (e == NoError ==> master == generated)
    ensures c.calm && !c.s.deprovisioned && (c.s.ns == Active || DbSecret in old(c.s).objs) ==> e == NoError
  {
    var found;
    master := "";
    e, found := SecretExists(c);
    if e != NoError { return; }
    if !found {
      e := EnsureSecret(c, MasterUser, generated);
      assert MasterUser != CentralUser;
      if e != NoError { return; }
    }
    e, master := PasswordFromSecret(c);
  }

  /** Second phase: the database exists and is set up, with `password` for the Central role. */
  method ProvisionDatabase(c: Client, master: string, password: string) returns (e: Error)
    requires c.s.db.Some? ==> Equipped(c.s.db.value)
    modifies c`s
    ensures c.s == old(c.s).(db := c.s.db)
    ensures old(c.s).db.Some? ==> c.s.db.Some? && c.s.db.value.master == old(c.s).db.value.master
    ensures old(c.s).db.None? && c.s.db.Some? ==> c.s.db.value.master == master
    ensures c.s.db.Some? ==> Equipped(c.s.db.value)
    ensures e == NoError ==> c.s.db.Some? && Initialised(c.s.db.value, password)
    ensures c.calm && (old(c.s).db.Some? ==> old(c.s).db.value.master == master) ==> e == NoError
  {
    e := c.EnsureDBProvisioned(master);
    if e != NoError { return; }
    var host;
    e, host := c.GetDBConnection();
    if e != NoError { return; }
    e := InitializeDatabase(c, master, password);
  }

  lemma MasterSecretFits(before: Store, after: Store, master: string)
    requires Sound(before) && CredentialsInOrder(before)
    requires DbSecret in before.objs && !HoldsCentralPassword(before.objs[DbSecret].body)
    requires before.objs[DbSecret].body.password == Some(master)
    requires after == before.(db := after.db)
    requires before.db.Some? ==> after.db.Some? && after.db.value.master == before.db.value.master
    requires before.db.None? && after.db.Some? ==> after.db.value.master == master
    requires after.db.Some? ==> Equipped(after.db.value)
    ensures Sound(after) && CredentialsInOrder(after) && OnlyCredentials(before, after)
  {
  }

  lemma CentralSecretFits(before: Store, after: Store, password: string)
    requires Sound(before) && SecretStored(before, after, CentralUser, password) && DbSecret in before.objs
    requires before.db.Some? && Initialised(before.db.value, password)
    ensures HandedOver(after) && CredentialsInOrder(after) && OnlyCredentials(before, after)
  {
  }

  lemma OnlyCredentialsTwice(a: Store, b: Store, c: Store)
    requires OnlyCredentials(a, b) && OnlyCredentials(b, c)
    ensures OnlyCredentials(a, c)
  {
  }

  /** The secret holds `master`: set up the database, then replace the secret. */
  method CompleteHandOver(c: Client, master: string, centralPassword: string) returns (e: Error)
    requires Sound(c.s) && CredentialsInOrder(c.s)
    requires DbSecret in c.s.objs && !HoldsCentralPassword(c.s.objs[DbSecret].body)
    requires c.s.objs[DbSecret].body.password == Some(master)
    modifies c`s
    ensures Sound(c.s) && CredentialsInOrder(c.s) && OnlyCredentials(old(c.s), c.s)
    ensures e == NoError ==> HandedOver(c.s) && c.s.objs[DbSecret].body.password == Some(centralPassword)
    ensures old(c.s).db.None? && c.s.db.Some? ==> c.s.db.value.master == master
    ensures c.calm && !c.s.deprovisioned ==> e == NoError
  {
    e := ProvisionDatabase(c, master, centralPassword);
    MasterSecretFits(old(c.s), c.s, master);
    if e != NoError { return; }
    ghost var ready := c.s;
    e := EnsureSecret(c, CentralUser, centralPassword);
    if SecretStored(ready, c.s, CentralUser, centralPassword) {
      CentralSecretFits(ready, c.s, centralPassword);
      OnlyCredentialsTwice(old(c.s), ready, c.s);
    }
  }

  /** ensureManagedCentralDBInitialized; the two passwords are freshly generated ones. */
  method EnsureManagedDBInitialized(c: Client, masterPassword: string, centralPassword: string) returns (e: Error)
    requires Sound(c.s) && CredentialsInOrder(c.s)
    requires !(DbSecret in c.s.objs && HoldsCentralPassword(c.s.objs[DbSecret].body))
    modifies c`s
    ensures Sound(c.s) && CredentialsInOrder(c.s) && OnlyCredentials(old(c.s), c.s)
    ensures e == NoError ==> HandedOver(c.s) && c.s.objs[DbSecret].body.password == Some(centralPassword)
    ensures old(c.s).db.None? && c.s.db.Some? ==>
      Some(c.s.db.value.master) == if DbSecret in old(c.s).objs then old(c.s).objs[DbSecret].body.password
                                   else Some(masterPassword)
    ensures c.calm && !c.s.deprovisioned && (c.s.ns == Active || DbSecret in old(c.s).objs) ==> e == NoError
  {
    var master;
    e, master := EnsureMasterSecret(c, masterPassword);
    if e != NoError { return; }
    ghost var before := c.s;
    e := CompleteHandOver(c, master, centralPassword);
    OnlyCredentialsTwice(old(c.s), before, c.s);
  }

  /**
   getCentralDBConnectionString. Whatever fails and wherever, the credentials stay in order; on
   success the hand-over is complete, and the connection is that of the Central user to the database;
   and without failures it always succeeds.
   */
  method GetCentralDBConnectionString(c: Client, masterPassword: string, centralPassword: string)
    returns (e: Error, connection: Connection)
    requires Sound(c.s) && CredentialsInOrder(c.s)
    modifies c`s
    ensures Sound(c.s) && CredentialsInOrder(c.s) && OnlyCredentials(old(c.s), c.s)
    ensures e == NoError && !c.s.deprovisioned ==> HandedOver(c.s)
    ensures
      if DbSecret in old(c.s).objs && HoldsCentralPassword(old(c.s).objs[DbSecret].body) then c.s == old(c.s)
      else e == NoError ==> HandedOver(c.s) && c.s.objs[DbSecret].body.password == Some(centralPassword)
    ensures e == NoError ==> c.s.db.Some? && connection == Connection(c.dbHost, CentralUserName, true)
    ensures c.calm && !c.s.deprovisioned && (c.s.ns == Active || DbSecret in old(c.s).objs) ==> e == NoError
  {
    connection := Connection("", "", false);
    var found, host;
    e, found := CentralDBUserExists(c);
    if e != NoError { return; }
    if !found {
      e := EnsureManagedDBInitialized(c, masterPassword, centralPassword);
      if e != NoError { return; }
    }
    e, host := c.GetDBConnection();
    connection := Connection(host, CentralUserName, true);
  }
}
