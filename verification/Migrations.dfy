/**
 Migrations made of reversible actions (pkg/db/migrations.go). An action changes the database forwards or backwards;
 one that fails may leave a part of its change behind.
 */
module Migrations {

  datatype Outcome<S> = Outcome(db: S, failed: bool)

  type Action<!S> = (S, bool) -> Outcome<S>

  /** The database after all the actions were applied, in order. */
  function Applied<S>(actions: seq<Action<S>>, db: S): S {
    if actions == [] then db
    else actions[|actions| - 1](Applied(actions[..|actions| - 1], db), true).db
  }

  /** Applying the actions in order meets no failure. */
  ghost predicate Applies<S>(actions: seq<Action<S>>, db: S) {
    forall i :: 0 <= i < |actions| ==> !actions[i](Applied(actions[..i], db), true).failed
  }

  /** The database after the actions from `i` on were taken back, the last one first. */
  function TakenBack<S>(actions: seq<Action<S>>, i: nat, db: S): S
    requires i <= |actions|
    decreases |actions| - i
  {
    if i == |actions| then db else actions[i](TakenBack(actions, i + 1, db), false).db
  }

  /** Taking back undoes applying. */
  ghost predicate Reversible<S(!new)>(action: Action<S>) {
    forall db: S :: !action(db, true).failed ==> action(action(db, true).db, false) == Outcome(db, false)
  }

  /** A failing action leaves the database alone. */
  ghost predicate Atomic<S(!new)>(action: Action<S>) {
    forall db: S, apply: bool :: action(db, apply).failed ==> action(db, apply).db == db
  }

  lemma AppliedNext<S>(actions: seq<Action<S>>, i: nat, db: S)
    requires i < |actions|
    ensures Applied(actions[..i + 1], db) == actions[i](Applied(actions[..i], db), true).db
  {
    assert actions[..i + 1][..i] == actions[..i];
  }

  lemma AppliesNext<S>(actions: seq<Action<S>>, i: nat, db: S)
    requires i < |actions| && Applies(actions[..i], db) && !actions[i](Applied(actions[..i], db), true).failed
    ensures Applies(actions[..i + 1], db)
  {
    var before, after := actions[..i], actions[..i + 1];
    forall k | 0 <= k < |after| ensures !after[k](Applied(after[..k], db), true).failed {
      assert after[..k] == actions[..k];
      if k < i { assert before[..k] == actions[..k] && before[k] == after[k]; }
    }
  }

  /** Taking back what was applied leads through the same databases in reverse. */
  lemma {:induction false} TakenBackRetraces<S(!new)>(actions: seq<Action<S>>, i: nat, db: S)
    requires i <= |actions| && Applies(actions, db) && forall k :: 0 <= k < |actions| ==> Reversible(actions[k])
    ensures TakenBack(actions, i, Applied(actions, db)) == Applied(actions[..i], db)
    decreases |actions| - i
  {
    if i == |actions| {
      assert actions[..i] == actions;
    } else {
      TakenBackRetraces(actions, i + 1, db);
      AppliedNext(actions, i, db);
      assert !actions[i](Applied(actions[..i], db), true).failed;
    }
  }

  /** A migration with the database it works on. */
  class Migration<S(!new)> {
    const actions: seq<Action<S>>
    var db: S

    constructor (actions: seq<Action<S>>, db: S)
      ensures this.actions == actions && this.db == db
    {
      this.actions, this.db := actions, db;
    }

    /** Applies the actions until one fails: exactly the first `n` succeeded. */
    method Migrate() returns (failed: bool, ghost n: nat)
      modifies this
      ensures n <= |actions| && Applies(actions[..n], old(db))
      ensures !failed ==> n == |actions| && db == Applied(actions, old(db))
      ensures failed ==> n < |actions| && actions[n](Applied(actions[..n], old(db)), true) == Outcome(db, true)
      ensures failed && Atomic(actions[n]) ==> db == Applied(actions[..n], old(db))
    {
      for i := 0 to |actions|
        invariant db == Applied(actions[..i], old(db)) && Applies(actions[..i], old(db))
      {
        AppliedNext(actions, i, old(db));
        ghost var before := db;
        var r := actions[i](db, true);
        db := r.db;
        if r.failed {
          assert actions[i](before, true) == Outcome(db, true);
          return true, i;
        }
        AppliesNext(actions, i, old(db));
      }
      assert actions[..|actions|] == actions;
      return false, |actions|;
    }

    /** Takes the actions back, the last one first, until one fails: exactly those from `n` on succeeded. */
    method Rollback() returns (failed: bool, ghost n: nat)
      modifies this
      ensures n <= |actions|
      ensures !failed ==> n == 0 && db == TakenBack(actions, 0, old(db))
      ensures failed ==> n > 0 && actions[n - 1](TakenBack(actions, n, old(db)), false) == Outcome(db, true)
      ensures forall k :: n <= k < |actions| ==> !actions[k](TakenBack(actions, k + 1, old(db)), false).failed
    {
      var i := |actions|;
      while i > 0
        invariant 0 <= i <= |actions| && db == TakenBack(actions, i, old(db))
        invariant forall k :: i <= k < |actions| ==> !actions[k](TakenBack(actions, k + 1, old(db)), false).failed
      {
        ghost var before := db;
        var r := actions[i - 1](db, false);
        db := r.db;
        if r.failed {
          assert actions[i - 1](before, false) == Outcome(db, true);
          return true, i;
        }
        i := i - 1;
      }
      return false, 0;
    }

    /**
     Migrates and rolls back again. The migration goes through exactly if every action applies in its turn, the
     rollback of one that went through never fails, and it restores the database.
     */
    method RoundTrip() returns (migrated: bool, rolledBack: bool)
      requires forall k :: 0 <= k < |actions| ==> Reversible(actions[k])
      modifies this
      ensures migrated <==> Applies(actions, old(db))
      ensures rolledBack <==> migrated
      ensures rolledBack ==> db == old(db)
    {
      var failed;
      ghost var n;
      failed, n := Migrate();
      if failed { return false, false; }
      assert actions[..|actions|] == actions;
      ghost var reached := db;
      failed, n := Rollback();
      if failed {
        StepBack(actions, n - 1, old(db));
        assert false;
      }
      TakenBackRetraces(actions, 0, old(db));
      assert reached == Applied(actions, old(db));
      migrated, rolledBack := true, true;
    }
  }

  lemma StepBack<S(!new)>(actions: seq<Action<S>>, i: nat, db: S)
    requires i < |actions| && Applies(actions, db) && forall k :: 0 <= k < |actions| ==> Reversible(actions[k])
    ensures !actions[i](TakenBack(actions, i + 1, Applied(actions, db)), false).failed
  {
    TakenBackRetraces(actions, i + 1, db);
    AppliedNext(actions, i, db);
    assert !actions[i](Applied(actions[..i], db), true).failed;
  }

  // ---------------------------------------------------------------------------------------------
  // All migrations
  // ---------------------------------------------------------------------------------------------

  /** The database after the first `n` migrations went through. */
  function Migrated<S>(migrations: seq<seq<Action<S>>>, n: nat, db: S): S
    requires n <= |migrations|
  {
    if n == 0 then db else Applied(migrations[n - 1], Migrated(migrations, n - 1, db))
  }

  /** The first `n` migrations go through, one after the other. */
  ghost predicate GoThrough<S>(migrations: seq<seq<Action<S>>>, n: nat, db: S)
    requires n <= |migrations|
  {
    forall m :: 0 <= m < n ==> Applies(migrations[m], Migrated(migrations, m, db))
  }

  ghost predicate AllReversible<S(!new)>(actions: seq<Action<S>>) {
    forall k :: 0 <= k < |actions| ==> Reversible(actions[k])
  }

  /** The migrator: the table of migrations done, as the number of those done, and the database. */
  class Migrator<S(!new)> {
    const migrations: seq<seq<Action<S>>>
    var done: nat
    var db: S

    constructor (migrations: seq<seq<Action<S>>>, done: nat, db: S)
      ensures this.migrations == migrations && this.done == done && this.db == db
    {
      this.migrations, this.done, this.db := migrations, done, db;
    }

    /** `start` taken through the migrations done is the database. */
    ghost predicate Reached(start: S)
      reads this
    {
      && done <= |migrations| && GoThrough(migrations, done, start) && db == Migrated(migrations, done, start)
      && forall m :: 0 <= m < |migrations| ==> AllReversible(migrations[m])
    }

    method RollbackLast(ghost start: S) returns (failed: bool)
      requires 0 < done <= |migrations|
      modifies this
      ensures done == if failed then old(done) else old(done) - 1
      ensures old(Reached(start)) ==> !failed && Reached(start)
    {
      var last := new Migration(migrations[done - 1], db);
      ghost var before := Migrated(migrations, done - 1, start);
      ghost var n;
      failed, n := last.Rollback();
      db := last.db;
      if old(Reached(start)) {
        assert Applies(last.actions, before);
        if failed {
          StepBack(last.actions, n - 1, before);
          assert false;
        }
        TakenBackRetraces(last.actions, 0, before);
      }
      if !failed { done := done - 1; }
    }

    /** The loop: one rollback after each query that finds a migration. */
    method RollbackFound(queries: nat -> bool, ghost start: S) returns (failed: bool)
      requires done <= |migrations|
      modifies this
      ensures done <= old(done) && forall i :: 0 <= i < old(done) - done ==> queries(i)
      ensures !failed ==> done == 0 || !queries(old(done) - done)
      ensures old(Reached(start)) ==> !failed && Reached(start)
    {
      ghost var good := Reached(start);
      var asked := 0;
      failed := false;
      while queries(asked) && done > 0
        invariant done == old(done) - asked <= |migrations| && !failed
        invariant forall i :: 0 <= i < asked ==> queries(i)
        invariant good ==> Reached(start)
        decreases done
      {
        failed := RollbackLast(start);
        if failed { return; }
        asked := asked + 1;
      }
    }

    lemma NothingDone(start: S)
      requires Reached(start) && done == 0
      ensures db == start
    {
    }

    /**
     Rolls back until no migration is left. `queries(i)` says whether the i-th query for a migration that is left
     succeeds; one that does not ends the loop without an error. From a database the migrations led to, no rollback
     fails, and the loop gets as far as its first failing query: to the start if and only if no query fails before.
     */
    method RollbackAll(queries: nat -> bool, ghost start: S) returns (failed: bool)
      requires done <= |migrations|
      modifies this
      ensures done <= old(done)
      ensures !failed ==> done == 0 || !queries(old(done) - done)
      ensures forall i :: 0 <= i < old(done) - done ==> queries(i)
      ensures old(Reached(start)) ==> !failed && Reached(start)
      ensures old(Reached(start)) ==> (done == 0 <==> forall i :: 0 <= i < old(done) ==> queries(i))
      ensures old(Reached(start)) && done == 0 ==> db == start
    {
      ghost var good := Reached(start);
      failed := RollbackFound(queries, start);
      if good {
        QueriesDecide(queries, old(done), done);
        if done == 0 { NothingDone(start); }
      }
    }
  }

  lemma QueriesDecide(queries: nat -> bool, total: nat, left: nat)
    requires left <= total && (left == 0 || !queries(total - left))
    requires forall i :: 0 <= i < total - left ==> queries(i)
    ensures left == 0 <==> forall i :: 0 <= i < total ==> queries(i)
  {
  }

  /** A failing query leaves migrations in place without an error: here the only one. */
  method SilentlyIncomplete(db: int) returns (m: Migrator<int>, failed: bool)
    ensures !failed && m.done == 1 && m.db == db + 1
  {
    var increment: Action<int> := (n: int, apply: bool) => Outcome(if apply then n + 1 else n - 1, false);
    var actions := [increment];
    var none: nat -> bool := (i: nat) => false;
    m := new Migrator([actions], 1, db + 1);
    assert actions[..0] == [] && Applied(actions, db) == db + 1;
    assert Migrated(m.migrations, 1, db) == Applied(actions, Migrated(m.migrations, 0, db));
    assert m.Reached(db);
    failed := m.RollbackAll(none, db);
    assert !none(0);
  }
}
