/**
 The outside world of the Central reconciler: one tenant namespace of a Kubernetes cluster, and the
 managed database of that tenant. Client calls may fail at any time, before or after their effect.
 */
module Cluster {
  import opened Optional

  /** The request sent by fleet-manager; the fields the reconciler branches on, and the rest as `content`. */
  datatype ManagedCentral = ManagedCentral(
    requestStatus: string,
    deletionTimestamp: string,
    actualVersion: string,
    desiredVersion: string,
    convertible: bool,
    content: string)

  /** A database connection; `verified`: with the certificate that the server is checked against. */
  datatype Connection = Connection(host: string, user: string, verified: bool)

  /** The parts of the Central spec that depend on what the reconciler found. */
  datatype Spec = Spec(
    source: ManagedCentral,
    routes: bool,
    adminPasswordDisabled: bool,
    database: Option<Connection>,
    ca: bool)

  datatype Phase = Absent | Active | Terminating

  datatype Key = Central | DbSecret | ReencryptRoute | PassthroughRoute | Chart(name: string)

  datatype Body =
    | CentralCR(spec: Spec, annotations: map<string, string>)
    | Secret(password: Option<string>, annotations: map<string, string>)
    | Route
    | Rendered(content: string)

  /** `marked`: deletion was requested and has not finished. */
  datatype Object = Object(marked: bool, body: Body)

  /** A role of the server and what it was granted. */
  datatype Role = Role(password: string, grants: set<string>)

  /** The server: master password, Central role, whether the master is its member, Central database, extensions. */
  datatype Database = Database(master: string, role: Option<Role>, member: bool, created: bool, extensions: bool)

  function NewDatabase(master: string): Database { Database(master, None, false, false, false) }

  /** What the pods of the tenant have come to. */
  datatype Pods = Pods(tlsSecret: bool, deploymentReady: bool, routesAdmitted: bool, authProvider: bool)

  datatype Store = Store(
    ns: Phase,
    objs: map<Key, Object>,
    db: Option<Database>,
    deprovisioned: bool,
    pods: Pods)

  predicate Fits(k: Key, b: Body) {
    match k
    case Central => b.CentralCR?
    case DbSecret => b.Secret?
    case ReencryptRoute => b.Route?
    case PassthroughRoute => b.Route?
    case Chart(_) => b.Rendered?
  }

  /** Objects have the kind of their key, and none outlives the namespace. */
  ghost predicate Sound(s: Store) {
    && (forall k :: k in s.objs ==> Fits(k, s.objs[k].body))
    && (s.ns == Absent ==> s.objs == map[])
  }

  const PauseAnnotation := "stackrox.io/pause-reconcile"

  predicate Paused(o: Object) {
    o.body.CentralCR? && PauseAnnotation in o.body.annotations && o.body.annotations[PauseAnnotation] == "true"
  }

  /** The cluster may finish deleting an object: it is marked, or the namespace is going; a paused CR stays. */
  predicate Removable(s: Store, k: Key) {
    k in s.objs && (s.objs[k].marked || s.ns == Terminating) && !Paused(s.objs[k])
  }

  function Mark(s: Store, k: Key): Store
    requires k in s.objs
  {
    s.(objs := s.objs[k := s.objs[k].(marked := true)])
  }

  function Put(s: Store, k: Key, b: Body): Store {
    s.(objs := s.objs[k := Object(k in s.objs && s.objs[k].marked, b)])
  }

  function WithAuthProvider(s: Store): Store { s.(pods := s.pods.(authProvider := true)) }

  datatype Error = NoError | NotFound | AlreadyExists | Failed

  /** An effect that either happened or not, when calls may fail; without failures it happened. */
  predicate Attempted(calm: bool, before: Store, after: Store, effect: Store, e: Error) {
    && (after == effect || (after == before && !calm))
    && (e == NoError || (e == Failed && !calm))
    && (e == NoError ==> after == effect)
  }

  class Client {
    var s: Store
    /** No call fails on its own. */
    var calm: bool
    const dbHost: string

    constructor (s: Store, dbHost: string)
      requires Sound(s)
      ensures this.s == s && !calm && this.dbHost == dbHost
    {
      this.s, this.dbHost := s, dbHost;
      calm := false;
    }

    method Get(k: Key) returns (e: Error, o: Option<Object>)
      ensures calm ==> e != Failed
      ensures e == NoError ==> k in s.objs && o == Some(s.objs[k])
      ensures e == NotFound ==> k !in s.objs && o == None
      ensures e != AlreadyExists
    {
      if !calm {
        if * { return Failed, None; }
      }
      if k in s.objs { return NoError, Some(s.objs[k]); }
      return NotFound, None;
    }

    method Create(k: Key, b: Body) returns (e: Error)
      requires Sound(s) && Fits(k, b)
      modifies this`s
      ensures Sound(s)
      ensures
        if old(s).ns != Active then s == old(s) && e == Failed
        else if k in old(s).objs then s == old(s) && e in {AlreadyExists, Failed} && (calm ==> e == AlreadyExists)
        else Attempted(calm, old(s), s, Put(old(s), k, b), e)
    {
      if s.ns != Active { return Failed; }
      if !calm {
        if * { return Failed; }
      }
      if k in s.objs { return AlreadyExists; }
      s := Put(s, k, b);
      e := NoError;
      if !calm {
        if * { e := Failed; }
      }
    }

    method Update(k: Key, b: Body) returns (e: Error)
      requires Sound(s) && Fits(k, b) && k in s.objs
      modifies this`s
      ensures Sound(s) && Attempted(calm, old(s), s, Put(old(s), k, b), e)
    {
      if !calm {
        if * { return Failed; }
      }
      s := Put(s, k, b);
      e := NoError;
      if !calm {
        if * { e := Failed; }
      }
    }

    method Delete(k: Key) returns (e: Error)
      requires Sound(s) && k in s.objs
      modifies this`s
      ensures Sound(s) && Attempted(calm, old(s), s, Mark(old(s), k), e)
    {
      if !calm {
        if * { return Failed; }
      }
      s := Mark(s, k);
      e := NoError;
      if !calm {
        if * { e := Failed; }
      }
    }

    method GetNamespace() returns (e: Error, phase: Phase)
      ensures e in {NoError, NotFound, Failed} && phase == s.ns
      ensures calm ==> e != Failed
      ensures e == NotFound ==> s.ns == Absent
      ensures e == NoError ==> s.ns != Absent
    {
      phase := s.ns;
      e := if s.ns == Absent then NotFound else NoError;
      if !calm {
        if * { e := Failed; }
      }
    }

    method CreateNamespace() returns (e: Error)
      requires Sound(s) && s.ns == Absent
      modifies this`s
      ensures Sound(s) && Attempted(calm, old(s), s, old(s).(ns := Active), e)
    {
      if !calm {
        if * { return Failed; }
      }
      s := s.(ns := Active);
      e := NoError;
      if !calm {
        if * { e := Failed; }
      }
    }

    method DeleteNamespace() returns (e: Error)
      requires Sound(s) && s.ns != Absent
      modifies this`s
      ensures Sound(s) && Attempted(calm, old(s), s, old(s).(ns := Terminating), e)
    {
      if !calm {
        if * { return Failed; }
      }
      s := s.(ns := Terminating);
      e := NoError;
      if !calm {
        if * { e := Failed; }
      }
    }

    /** Creates the database with the given master password, unless there is one already. */
    method EnsureDBProvisioned(master: string) returns (e: Error)
      modifies this`s
      ensures
        var effect := if old(s).db.Some? then old(s) else old(s).(db := Some(NewDatabase(master)));
        Attempted(calm, old(s), s, effect, e)
    {
      if !calm {
        if * { return Failed; }
      }
      if s.db == None {
        s := s.(db := Some(NewDatabase(master)));
      }
      e := NoError;
      if !calm {
        if * { e := Failed; }
      }
    }

    /** Only starts the deprovisioning; the database goes away later. */
    method EnsureDBDeprovisioned() returns (e: Error)
      modifies this`s
      ensures Attempted(calm, old(s), s, old(s).(deprovisioned := true), e)
    {
      if !calm {
        if * { return Failed; }
      }
      s := s.(deprovisioned := true);
      e := NoError;
      if !calm {
        if * { e := Failed; }
      }
    }

    method GetDBConnection() returns (e: Error, host: string)
      ensures e == NoError || e == Failed
      ensures e == NoError ==> s.db.Some? && host == dbHost
      ensures calm && s.db.Some? ==> e == NoError
    {
      host := dbHost;
      e := if s.db.Some? then NoError else Failed;
      if !calm {
        if * { e := Failed; }
      }
    }

    /** One statement on the server that changes the database to `after`; the login needs the master password. */
    method Execute(password: string, after: Database) returns (e: Error)
      requires s.db.Some? ==> after.master == s.db.value.master
      modifies this`s
      ensures
        if old(s).db.None? || old(s).db.value.master != password then s == old(s) && e == Failed
        else Attempted(calm, old(s), s, old(s).(db := Some(after)), e)
    {
      if s.db.None? || s.db.value.master != password { return Failed; }
      if !calm {
        if * { return Failed; }
      }
      s := s.(db := Some(after));
      e := NoError;
      if !calm {
        if * { e := Failed; }
      }
    }

    method TLSSecretFound() returns (e: Error)
      ensures e in {NoError, NotFound, Failed} && (e == NoError ==> s.pods.tlsSecret)
      ensures calm ==> e == if s.pods.tlsSecret then NoError else NotFound
    {
      e := if s.pods.tlsSecret then NoError else NotFound;
      if !calm {
        if * { e := Failed; }
      }
    }

    method IsDeploymentReady() returns (e: Error, ready: bool)
      ensures e in {NoError, Failed} && ready == s.pods.deploymentReady && (calm ==> e == NoError)
    {
      e, ready := NoError, s.pods.deploymentReady;
      if !calm {
        if * { e := Failed; }
      }
    }

    /** Finds the admitted ingress of a route. */
    method FindIngress(k: Key) returns (e: Error)
      ensures e in {NoError, Failed} && (e == NoError ==> k in s.objs && s.pods.routesAdmitted)
      ensures calm && k in s.objs && s.pods.routesAdmitted ==> e == NoError
    {
      e := if k in s.objs && s.pods.routesAdmitted then NoError else Failed;
      if !calm {
        if * { e := Failed; }
      }
    }

    method ExistsAuthProvider() returns (e: Error, found: bool)
      ensures e in {NoError, Failed} && (calm ==> e == NoError)
      ensures found == (s.pods.deploymentReady && s.pods.authProvider)
    {
      e, found := NoError, s.pods.deploymentReady && s.pods.authProvider;
      if !calm {
        if * { e := Failed; }
      }
    }

    method CreateAuthProvider() returns (e: Error)
      modifies this`s
      ensures Attempted(calm, old(s), s, WithAuthProvider(old(s)), e)
    {
      if !calm {
        if * { return Failed; }
      }
      s := WithAuthProvider(s);
      e := NoError;
      if !calm {
        if * { e := Failed; }
      }
    }
  }
}
