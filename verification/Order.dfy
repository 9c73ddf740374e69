/**
 What holds of a tenant at all times, and the changes that keep it (fleetshard/pkg/central/reconciler/reconciler.go).
 */
module Order {
  import opened Cluster
  import opened Credentials
  import opened Deletion

  /** What holds of the world at all times. */
  ghost predicate World(o: Options, s: Store) {
    Sound(s) && GivesUpDatabaseFirst(o, s) && CredentialsInOrder(s)
  }

  /** The secret and the database are as before, and no deletion was requested. */
  ghost predicate Installs(before: Store, after: Store) {
    && after == before.(ns := after.ns, objs := after.objs, pods := after.pods)
    && (after.ns == before.ns || (before.ns == Absent && after.ns == Active))
    && before.objs.Keys <= after.objs.Keys
    && (forall k :: k in before.objs ==> after.objs[k].marked == before.objs[k].marked)
    && (DbSecret in after.objs ==> DbSecret in before.objs && after.objs[DbSecret] == before.objs[DbSecret])
  }

  lemma InstallsKeepsWorld(o: Options, before: Store, after: Store)
    requires World(o, before) && Sound(after) && Installs(before, after)
    ensures World(o, after)
  {
  }

  lemma CredentialsKeepWorld(o: Options, before: Store, after: Store)
    requires World(o, before) && Sound(after) && CredentialsInOrder(after)
      && OnlyCredentials(before, after) && o.managedDB
    ensures World(o, after)
  {
  }

  lemma DeletingKeepsWorld(o: Options, before: Store, after: Store)
    requires World(o, before) && Sound(after) && Deleting(before, after) && GivesUpDatabaseFirst(o, after)
    ensures World(o, after)
  {
  }

  lemma MovesKeepWorld(o: Options, before: Store, after: Store)
    requires World(o, before) && ClusterMoves(before, after)
    ensures World(o, after)
  {
    assert DbSecret in before.objs && DbSecret !in after.objs ==> Removable(before, DbSecret);
  }
}
