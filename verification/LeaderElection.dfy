/**
 Lease-based leader election (pkg/workers/leader_election_mgr.go): one lease row per lease type, and
 workers that check it in turn. Time is an abstract shared clock in seconds.

 LeaseProtocol treats one check as atomic. LeaseSteps splits it into the statements that reach the
 database and says exactly when the split protocol is still safe.
 */
module LeaseProtocol {

  const LeaseRenewTime := 60
  const RenewalWindow := 30

  /** The lease row; an empty leader means that nobody has held it yet. */
  datatype Lease = Lease(leader: string, expires: int)

  predicate IsExpired(lease: Lease, now: int) { lease.leader == "" || now > lease.expires }

  /** The worker may acquire the lease, or extend it because it is about to expire. */
  predicate MayTake(lease: Lease, w: string, now: int) {
    IsExpired(lease, now) || (lease.leader == w && lease.expires < now + RenewalWindow)
  }

  /**
   The row, and for each worker whose reconcile loop runs the time of the last check that made or kept it leader. A
   worker in `stopping` was told to stop, but the job it is at goes on.
   */
  datatype System = System(now: int, lease: Lease, checked: map<string, int>, stopping: set<string>)

  /** `at` is the time the worker read before its check took effect. */
  datatype Step = Tick(seconds: nat) | Check(worker: string, at: int) | Fail(worker: string) | Finish(worker: string)

  predicate Enabled(s: System, step: Step) {
    match step
    case Tick(_) => true
    case Check(w, at) => w != "" && at <= s.now && w !in s.stopping
    case Fail(w) => w !in s.stopping
    case Finish(w) => w in s.stopping
  }

  /** A running worker is told to stop. */
  function Leave(s: System, w: string): System { if w in s.checked then s.(stopping := s.stopping + {w}) else s }

  /** A check starts or keeps the worker when it is the leader, and tells it to stop otherwise. */
  function Apply(s: System, step: Step): System {
    match step
    case Tick(d) => s.(now := s.now + d)
    case Check(w, at) =>
      if MayTake(s.lease, w, s.now) then s.(lease := Lease(w, at + LeaseRenewTime), checked := s.checked[w := at])
      else if s.lease.leader == w then s.(checked := s.checked[w := at])
      else Leave(s, w)
    case Fail(w) => Leave(s, w)
    case Finish(w) => s.(checked := s.checked - {w}, stopping := s.stopping - {w})
  }

  /** No loop runs for more than `bound` seconds after its worker's last successful check. */
  ghost predicate Timely(s: System, bound: int) {
    forall w :: w in s.checked ==> s.now <= s.checked[w] + bound
  }

  ghost predicate MutualExclusion(s: System) {
    forall v, w :: v in s.checked && w in s.checked ==> v == w
  }

  ghost predicate IsRun(run: seq<System>, steps: seq<Step>, bound: int) {
    && |run| == |steps| + 1
    && run[0].checked == map[] && run[0].stopping == {}
    && (forall i :: 0 <= i < |steps| ==> Enabled(run[i], steps[i]) && run[i + 1] == Apply(run[i], steps[i]))
    && (forall i :: 0 <= i < |run| ==> Timely(run[i], bound))
  }

  /** A worker whose loop runs is the leader of a lease that outlasts its last check by the renewal window. */
  ghost predicate Invariant(s: System) {
    forall w :: w in s.checked ==>
      w != "" && s.lease.leader == w && s.checked[w] + RenewalWindow <= s.lease.expires
  }

  lemma InvariantStep(s: System, step: Step, bound: int)
    requires bound <= RenewalWindow && Timely(s, bound) && Invariant(s) && Enabled(s, step)
    ensures Invariant(Apply(s, step))
  {
    if step.Check? {
      forall w | w in s.checked && w != step.worker ensures !MayTake(s.lease, step.worker, s.now) {
        assert s.now <= s.checked[w] + bound;
      }
    }
  }

  lemma {:induction false} InvariantAlways(run: seq<System>, steps: seq<Step>, bound: int, i: nat)
    requires bound <= RenewalWindow && IsRun(run, steps, bound) && i < |run|
    ensures Invariant(run[i])
  {
    if i > 0 {
      InvariantAlways(run, steps, bound, i - 1);
      InvariantStep(run[i - 1], steps[i - 1], bound);
    }
  }

  /** If no loop outlasts its last successful check by more than thirty seconds, at most one loop runs at any time. */
  lemma TimelyRunsAreExclusive(run: seq<System>, steps: seq<Step>, bound: int, i: nat)
    requires bound <= RenewalWindow && IsRun(run, steps, bound) && i < |run|
    ensures MutualExclusion(run[i])
  {
    InvariantAlways(run, steps, bound, i);
  }

  /** A leader whose checks do not fail stays the leader, whatever the other workers do. */
  lemma {:induction false} LeaderKeepsItsLease(run: seq<System>, steps: seq<Step>,
    bound: int, w: string, i: nat, j: nat)
    requires bound <= RenewalWindow && IsRun(run, steps, bound) && i <= j < |run|
    requires w in run[i].checked && w !in run[i].stopping && forall k :: i <= k < j ==> steps[k] != Fail(w)
    ensures w in run[j].checked && w !in run[j].stopping && run[j].lease.leader == w
    decreases j
  {
    InvariantAlways(run, steps, bound, j);
    if i < j {
      LeaderKeepsItsLease(run, steps, bound, w, i, j - 1);
      InvariantAlways(run, steps, bound, j - 1);
      assert run[j] == Apply(run[j - 1], steps[j - 1]);
      assert Timely(run[j - 1], bound);
    }
  }

  // ---------------------------------------------------------------------------------------------
  // Who goes on and who is told to stop, in every state
  // ---------------------------------------------------------------------------------------------

  /** The loop of the worker runs and nobody has told it to stop. */
  predicate GoesOn(s: System, w: string) { w in s.checked && w !in s.stopping }

  /** Nothing about any other worker changes. */
  ghost predicate OthersStay(s: System, t: System, w: string) {
    forall v :: v != w ==>
      && (v in s.checked <==> v in t.checked) && (v in s.stopping <==> v in t.stopping)
      && (v in s.checked ==> t.checked[v] == s.checked[v])
  }

  /** After a check the worker goes on if and only if the row names it, since that check; it stops otherwise. */
  lemma CheckedIffLeader(s: System, w: string, at: int)
    requires Enabled(s, Check(w, at))
    ensures var t := Apply(s, Check(w, at));
      && (GoesOn(t, w) <==> t.lease.leader == w)
      && (t.lease.leader == w ==> t.checked[w] == at)
      && (t.lease.leader != w ==> (w in t.stopping <==> w in s.checked) && t.checked == s.checked && t.lease == s.lease)
      && t.lease == (if TakesTheRow(s, w) then Lease(w, at + 60) else s.lease)
      && OthersStay(s, t, w)
  {
  }

  /** The row names nobody, has expired, or names the worker and expires in less than thirty seconds. */
  predicate TakesTheRow(s: System, w: string) {
    s.lease.leader == "" || s.now > s.lease.expires || (s.lease.leader == w && s.lease.expires - s.now < 30)
  }

  /** A check that fails tells a running worker to stop; its loop runs until the job in flight has ended. */
  lemma FailedIsToldToStop(s: System, w: string)
    requires Enabled(s, Fail(w))
    ensures var t := Apply(s, Fail(w));
      && !GoesOn(t, w) && (w in t.stopping <==> w in s.checked) && t.checked == s.checked && t.lease == s.lease
      && OthersStay(s, t, w)
  {
  }

  predicate About(step: Step, w: string) {
    match step
    case Tick(_) => false
    case Check(v, _) => v == w
    case Fail(v) => v == w
    case Finish(v) => v == w
  }

  /** The step is the last one before `i` that is about the worker. */
  ghost predicate LastAbout(steps: seq<Step>, k: nat, i: nat, w: string) {
    k < i <= |steps| && About(steps[k], w) && forall m :: k < m < i ==> !About(steps[m], w)
  }

  lemma LastAboutNext(steps: seq<Step>, i: nat, j: nat, w: string)
    requires i < |steps| && j == i + 1
    ensures About(steps[i], w) ==> forall k: nat :: LastAbout(steps, k, j, w) <==> k == i
    ensures !About(steps[i], w) ==> forall k: nat :: LastAbout(steps, k, j, w) <==> LastAbout(steps, k, i, w)
  {
  }

  /** The last step about the worker is a check that has left it the leader. */
  ghost predicate LastCheckLed(run: seq<System>, steps: seq<Step>, i: nat, w: string)
    requires |run| == |steps| + 1
  {
    exists k: nat :: LastAbout(steps, k, i, w) && steps[k].Check? && run[k + 1].lease.leader == w
  }

  lemma OthersNext(s: System, step: Step, w: string)
    requires Enabled(s, step) && !About(step, w)
    ensures GoesOn(Apply(s, step), w) <==> GoesOn(s, w)
  {
  }

  /**
   Over every run, however late its checks are: a worker goes on if and only if the last thing that happened to it was a
   check that left it the leader. One that failed a check, or found another leader, has been told to stop.
   */
  lemma {:induction false} GoesOnIff(run: seq<System>, steps: seq<Step>, bound: int, w: string, i: nat)
    requires IsRun(run, steps, bound) && i < |run|
    ensures GoesOn(run[i], w) <==> LastCheckLed(run, steps, i, w)
  {
    if i > 0 {
      var s, step := run[i - 1], steps[i - 1];
      GoesOnIff(run, steps, bound, w, i - 1);
      LastAboutNext(steps, i - 1, i, w);
      assert run[i] == Apply(s, step);
      if !About(step, w) { OthersNext(s, step, w); }
    }
  }

  /** A worker that was told to stop does not go on until its job has ended. */
  lemma {:induction false} StoppedStaysStopped(run: seq<System>, steps: seq<Step>,
    bound: int, w: string, i: nat, j: nat)
    requires IsRun(run, steps, bound) && i <= j < |run| && w in run[i].stopping
    requires forall k :: i <= k < j ==> steps[k] != Finish(w)
    ensures w in run[j].stopping
    decreases j
  {
    if i < j {
      StoppedStaysStopped(run, steps, bound, w, i, j - 1);
      assert run[j] == Apply(run[j - 1], steps[j - 1]);
    }
  }
}

/** One check, split at the statements that reach the database. */
module LeaseSteps {
  import opened LeaseProtocol
  import opened Optional

  /** A worker inside a check: it holds what its unlocked read returned, and when it read. */
  datatype Attempt = Wants(seen: Lease, at: int, version: nat) | Holds(seen: Lease, at: int, version: nat)

  /** `version` counts the commits to the row. */
  datatype State = State(sys: System, lock: Option<string>, attempts: map<string, Attempt>, version: nat)

  datatype Action =
    | Wait(seconds: nat)
    | Read(worker: string)
    | ReadFails(worker: string)
    | TryLock(worker: string)
    | Commit(worker: string)
    | Abort(worker: string)
    | LoseCommit(worker: string)
    | JobEnds(worker: string)

  /** `recheck`: an empty lock result counts as a failure when the lease that was read has expired. */
  datatype Config = Config(recheck: bool, freshLocks: bool, keptCommits: bool, bound: int)

  predicate Permitted(c: Config, s: State, a: Action) {
    match a
    case Wait(_) => true
    case Read(w) => w != "" && w !in s.attempts && w !in s.sys.stopping
    case ReadFails(w) => w !in s.attempts && w !in s.sys.stopping
    case TryLock(w) => w in s.attempts && s.attempts[w].Wants? && (c.freshLocks ==> s.attempts[w].version == s.version)
    case Commit(w) => w in s.attempts && s.attempts[w].Holds?
    case Abort(w) => w in s.attempts
    case LoseCommit(w) => !c.keptCommits && w in s.attempts && s.attempts[w].Holds?
    case JobEnds(w) => w in s.sys.stopping
  }

  function Runs(s: State, w: string, at: int): State {
    s.(sys := s.sys.(checked := s.sys.checked[w := at]), attempts := s.attempts - {w})
  }

  function Stops(s: State, w: string): State {
    s.(sys := Leave(s.sys, w), attempts := s.attempts - {w})
  }

  function Unlock(s: State, w: string): State { if s.lock == Some(w) then s.(lock := None) else s }

  function Act(c: Config, s: State, a: Action): State
    requires Permitted(c, s, a)
  {
    match a
    case Wait(d) => s.(sys := s.sys.(now := s.sys.now + d))
    case Read(w) =>
      if MayTake(s.sys.lease, w, s.sys.now) then
        s.(attempts := s.attempts[w := Wants(s.sys.lease, s.sys.now, s.version)])
      else if s.sys.lease.leader == w then Runs(s, w, s.sys.now)
      else Stops(s, w)
    case ReadFails(w) => Stops(s, w)
    case TryLock(w) =>
      var t := s.attempts[w];
      if s.lock == None then s.(lock := Some(w), attempts := s.attempts[w := Holds(t.seen, t.at, t.version)])
      else if c.recheck && IsExpired(t.seen, s.sys.now) then Stops(s, w)
      else Runs(s, w, t.at)
    case Commit(w) =>
      var t := s.attempts[w];
      Runs(Unlock(s, w), w, t.at).(
        sys := s.sys.(lease := Lease(w, t.at + LeaseRenewTime), checked := s.sys.checked[w := t.at]),
        version := s.version + 1)
    case Abort(w) => Stops(Unlock(s, w), w)
    case LoseCommit(w) => Runs(Unlock(s, w), w, s.attempts[w].at)
    case JobEnds(w) => s.(sys := s.sys.(checked := s.sys.checked - {w}, stopping := s.sys.stopping - {w}))
  }

  ghost predicate Initial(s: State) {
    s.sys.checked == map[] && s.sys.stopping == {} && s.attempts == map[] && s.lock == None
  }

  ghost predicate IsSplitRun(c: Config, run: seq<State>, actions: seq<Action>) {
    && |run| == |actions| + 1
    && Initial(run[0])
    && (forall i :: 0 <= i < |actions| ==> Permitted(c, run[i], actions[i]) && run[i + 1] == Act(c, run[i], actions[i]))
    && (forall i :: 0 <= i < |run| ==> Timely(run[i].sys, c.bound))
  }

  /**
   What each action of a check does to the worker, in every state. Reading a row that names it keeps it going, and
   reading one that names another tells it to stop. Losing the race for the lock keeps it going only if the lease that
   it read has not expired, or nobody looks. A failure tells it to stop, and only a commit changes the row.
   */
  lemma CheckActions(c: Config, s: State, a: Action)
    requires Permitted(c, s, a) && (a.Read? || a.ReadFails? || a.TryLock? || a.Commit? || a.Abort? || a.LoseCommit?)
    ensures var w, t := a.worker, Act(c, s, a).sys;
      && OthersStay(s.sys, t, w) && t.now == s.sys.now && (!a.Commit? ==> t.lease == s.sys.lease)
      && (a.Read? && w !in Act(c, s, a).attempts ==>
          && (GoesOn(t, w) <==> t.lease.leader == w) && (GoesOn(t, w) ==> t.checked[w] == t.now)
          && (!GoesOn(t, w) ==> (w in t.stopping <==> w in s.sys.checked)))
      && (a.Read? && w in Act(c, s, a).attempts ==> t == s.sys)
      && (a.ReadFails? || a.Abort? ==> !GoesOn(t, w) && (w in s.sys.checked ==> w in t.stopping))
      && (a.TryLock? && s.lock == None ==> t == s.sys)
      && (a.TryLock? && s.lock != None ==>
          var seen := s.attempts[w].seen;
          if c.recheck && (seen.leader == "" || s.sys.now > seen.expires)
          then !GoesOn(t, w) && (w in s.sys.checked ==> w in t.stopping)
          else w in t.checked && t.checked[w] == s.attempts[w].at)
      && (a.Commit? ==> t.lease == Lease(w, s.attempts[w].at + 60))
      && (a.Commit? || a.LoseCommit? ==> w in t.checked && t.checked[w] == s.attempts[w].at)
  {
  }

  ghost predicate Faithful(c: Config) { c.recheck && c.freshLocks && c.keptCommits }

  // ---------------------------------------------------------------------------------------------
  // Refinement: a faithful split run is an atomic run
  // ---------------------------------------------------------------------------------------------

  /** What the worker read was the row then, and still is unless somebody committed since. */
  ghost predicate AttemptFits(s: State, w: string)
    requires w in s.attempts
  {
    var t := s.attempts[w];
    && w != "" && w !in s.sys.stopping && t.at <= s.sys.now && MayTake(t.seen, w, t.at) && t.version <= s.version
    && (t.Holds? ==> t.version == s.version)
    && (t.version == s.version ==> t.seen == s.sys.lease)
  }

  /** The lock holder is the only one between lock and commit, and it still sees the current row. */
  ghost predicate Coherent(s: State) {
    && (forall w :: s.lock == Some(w) <==> w in s.attempts && s.attempts[w].Holds?)
    && (forall w :: w in s.attempts ==> AttemptFits(s, w))
  }

  lemma LockStep(c: Config, s: State, a: Action)
    requires Faithful(c) && Coherent(s) && Permitted(c, s, a)
    ensures var s' := Act(c, s, a);
      forall w :: s'.lock == Some(w) <==> w in s'.attempts && s'.attempts[w].Holds?
  {
  }

  lemma AttemptStep(c: Config, s: State, a: Action, w: string)
    requires Faithful(c) && Coherent(s) && Permitted(c, s, a) && w in Act(c, s, a).attempts
    ensures AttemptFits(Act(c, s, a), w)
  {
  }

  lemma CoherentStep(c: Config, s: State, a: Action)
    requires Faithful(c) && Coherent(s) && Permitted(c, s, a)
    ensures Coherent(Act(c, s, a))
  {
    LockStep(c, s, a);
    var s' := Act(c, s, a);
    forall w | w in s'.attempts ensures AttemptFits(s', w) { AttemptStep(c, s, a, w); }
  }

  /** An empty lock result under an unexpired lease cannot happen when nobody committed since the read. */
  lemma LockIsOnlyTakenWhenExpired(c: Config, s: State, w: string)
    requires Faithful(c) && Coherent(s) && Permitted(c, s, TryLock(w)) && s.lock != None
    ensures IsExpired(s.attempts[w].seen, s.sys.now)
  {
    var u := s.lock.value;
    assert s.lock == Some(u);
    assert u in s.attempts && s.attempts[u].Holds?;
    assert s.attempts[u].seen == s.sys.lease == s.attempts[w].seen;
  }

  /** What a split action does to the atomic system; waiting no time stands for no effect. */
  function Abstract(c: Config, s: State, a: Action): Step
    requires Permitted(c, s, a)
  {
    match a
    case Wait(d) => Tick(d)
    case Read(w) => if MayTake(s.sys.lease, w, s.sys.now) then Tick(0) else Check(w, s.sys.now)
    case ReadFails(w) => Fail(w)
    case TryLock(w) => if s.lock == None then Tick(0) else Fail(w)
    case Commit(w) => Check(w, s.attempts[w].at)
    case Abort(w) => Fail(w)
    case LoseCommit(w) => Fail(w)
    case JobEnds(w) => Finish(w)
  }

  lemma ActRefinesApply(c: Config, s: State, a: Action)
    requires Faithful(c) && Coherent(s) && Permitted(c, s, a)
    ensures Enabled(s.sys, Abstract(c, s, a)) && Act(c, s, a).sys == Apply(s.sys, Abstract(c, s, a))
  {
    if a.TryLock? && s.lock != None {
      LockIsOnlyTakenWhenExpired(c, s, a.worker);
    }
  }

  lemma {:induction false} CoherentAlways(c: Config, run: seq<State>, actions: seq<Action>, i: nat)
    requires Faithful(c) && IsSplitRun(c, run, actions) && i < |run|
    ensures Coherent(run[i])
  {
    if i > 0 {
      CoherentAlways(c, run, actions, i - 1);
      CoherentStep(c, run[i - 1], actions[i - 1]);
    }
  }

  function Systems(run: seq<State>): (r: seq<System>)
    ensures |r| == |run| && forall i :: 0 <= i < |run| ==> r[i] == run[i].sys
  {
    if run == [] then [] else [run[0].sys] + Systems(run[1..])
  }

  /** Every faithful split run, seen at the row and the running workers, is a run of the atomic protocol. */
  lemma SplitRunRefinesAtomicRun(c: Config, run: seq<State>, actions: seq<Action>) returns (steps: seq<Step>)
    requires Faithful(c) && IsSplitRun(c, run, actions)
    ensures IsRun(Systems(run), steps, c.bound)
  {
    steps := seq(|actions|, i requires 0 <= i < |actions| => Abstract(c, run[i], actions[i]));
    forall i | 0 <= i < |actions|
      ensures Enabled(run[i].sys, steps[i]) && run[i + 1].sys == Apply(run[i].sys, steps[i])
    {
      CoherentAlways(c, run, actions, i);
      ActRefinesApply(c, run[i], actions[i]);
    }
  }

  // ---------------------------------------------------------------------------------------------
  // Exactly when the split protocol is safe
  // ---------------------------------------------------------------------------------------------

  ghost predicate Safe(c: Config) {
    forall run: seq<State>, actions: seq<Action>, i: nat :: IsSplitRun(c, run, actions) && i < |run| ==>
      MutualExclusion(run[i].sys)
  }

  lemma FaithfulIsSafe(c: Config)
    requires Faithful(c) && c.bound <= RenewalWindow
    ensures Safe(c)
  {
    forall run: seq<State>, actions: seq<Action>, i: nat | IsSplitRun(c, run, actions) && i < |run|
      ensures MutualExclusion(run[i].sys)
    {
      var steps := SplitRunRefinesAtomicRun(c, run, actions);
      TimelyRunsAreExclusive(Systems(run), steps, c.bound, i);
    }
  }

  ghost predicate Reachable(c: Config, s: State) {
    exists run: seq<State>, actions: seq<Action> :: IsSplitRun(c, run, actions) && run[|run| - 1] == s
  }

  lemma ReachStart(c: Config, s: State)
    requires Initial(s)
    ensures Reachable(c, s)
  {
    assert IsSplitRun(c, [s], []);
  }

  lemma ReachNext(c: Config, s: State, a: Action)
    requires Reachable(c, s) && Permitted(c, s, a) && Timely(Act(c, s, a).sys, c.bound)
    ensures Reachable(c, Act(c, s, a))
  {
    var run: seq<State>, actions: seq<Action> :| IsSplitRun(c, run, actions) && run[|run| - 1] == s;
    var run': seq<State> := run + [Act(c, s, a)];
    var actions': seq<Action> := actions + [a];
    assert IsSplitRun(c, run', actions') by {
      forall i | 0 <= i < |actions'|
        ensures Permitted(c, run'[i], actions'[i]) && run'[i + 1] == Act(c, run'[i], actions'[i])
      {
        if i < |actions| {
          assert run'[i] == run[i] && run'[i + 1] == run[i + 1] && actions'[i] == actions[i];
        }
      }
      forall i | 0 <= i < |run'| ensures Timely(run'[i].sys, c.bound) {
        if i < |run| { assert run'[i] == run[i]; }
      }
    }
    assert run'[|run'| - 1] == Act(c, s, a);
  }

  lemma Refutes(c: Config, s: State)
    requires Reachable(c, s) && !MutualExclusion(s.sys)
    ensures !Safe(c)
  {
    var run: seq<State>, actions: seq<Action> :| IsSplitRun(c, run, actions) && run[|run| - 1] == s;
    assert !MutualExclusion(run[|run| - 1].sys);
  }

  /** Nobody has held the lease yet; time is zero. */
  const Fresh := State(System(0, Lease("", 0), map[], {}), None, map[], 0)

  /** `a` reads and locks a fresh lease. */
  lemma FirstLocks(c: Config)
    requires c.bound >= 0
    ensures Reachable(c, Fresh.(lock := Some("a"), attempts := map["a" := Holds(Lease("", 0), 0, 0)]))
  {
    ReachStart(c, Fresh);
    ReachNext(c, Fresh, Read("a"));
    ReachNext(c, Act(c, Fresh, Read("a")), TryLock("a"));
  }

  /** `a` and `b` read the fresh lease before `a` locks it. */
  lemma BothRead(c: Config) returns (s: State)
    requires c.bound >= 0
    ensures Reachable(c, s)
    ensures s == Fresh.(lock := Some("a"),
                        attempts := map["a" := Holds(Lease("", 0), 0, 0), "b" := Wants(Lease("", 0), 0, 0)])
  {
    var s1 := Act(c, Fresh, Read("a"));
    var s2 := Act(c, s1, Read("b"));
    ReachStart(c, Fresh);
    ReachNext(c, Fresh, Read("a"));
    ReachNext(c, s1, Read("b"));
    ReachNext(c, s2, TryLock("a"));
    s := Act(c, s2, TryLock("a"));
  }

  /** A lock taken after another commit, with the old read still in hand, makes two leaders. */
  lemma StaleLocksBreakExclusion(c: Config)
    requires c.bound >= 0 && !c.freshLocks
    ensures !Safe(c)
  {
    var s := BothRead(c);
    var s1 := Act(c, s, Commit("a"));
    ReachNext(c, s, Commit("a"));
    var s2 := Act(c, s1, TryLock("b"));
    ReachNext(c, s1, TryLock("b"));
    var s3 := Act(c, s2, Commit("b"));
    ReachNext(c, s2, Commit("b"));
    assert "a" in s3.sys.checked && "b" in s3.sys.checked;
    Refutes(c, s3);
  }

  /** The source ignores the commit error: a lost commit leaves a leader that the row does not know. */
  lemma LostCommitsBreakExclusion(c: Config)
    requires c.bound >= 0 && !c.keptCommits
    ensures !Safe(c)
  {
    FirstLocks(c);
    var s := Fresh.(lock := Some("a"), attempts := map["a" := Holds(Lease("", 0), 0, 0)]);
    var s1 := Act(c, s, LoseCommit("a"));
    ReachNext(c, s, LoseCommit("a"));
    var s2 := Act(c, s1, Read("b"));
    ReachNext(c, s1, Read("b"));
    var s3 := Act(c, s2, TryLock("b"));
    ReachNext(c, s2, TryLock("b"));
    var s4 := Act(c, s3, Commit("b"));
    ReachNext(c, s3, Commit("b"));
    assert "a" in s4.sys.checked && "b" in s4.sys.checked;
    Refutes(c, s4);
  }

  /** Without the expiry test after an empty lock result, the loser of the race also leads. */
  lemma RecheckIsNeeded(c: Config)
    requires c.bound >= 0 && !c.recheck
    ensures !Safe(c)
  {
    var s := BothRead(c);
    var s1 := Act(c, s, TryLock("b"));
    ReachNext(c, s, TryLock("b"));
    var s2 := Act(c, s1, Commit("a"));
    ReachNext(c, s1, Commit("a"));
    assert "a" in s2.sys.checked && "b" in s2.sys.checked;
    Refutes(c, s2);
  }

  /** The leader has looked at its lease with thirty seconds left, and then waited longer. */
  const Overdue := State(System(61, Lease("a", 60), map["a" := 30], {}), None, map[], 1)

  lemma OverdueIsReachable(c: Config)
    requires c.bound > RenewalWindow
    ensures Reachable(c, Overdue)
  {
    FirstLocks(c);
    var s := Fresh.(lock := Some("a"), attempts := map["a" := Holds(Lease("", 0), 0, 0)]);
    ReachNext(c, s, Commit("a"));
    var s1 := State(System(0, Lease("a", 60), map["a" := 0], {}), None, map[], 1);
    assert Act(c, s, Commit("a")) == s1;
    ReachNext(c, s1, Wait(30));
    var s2 := State(System(30, Lease("a", 60), map["a" := 0], {}), None, map[], 1);
    ReachNext(c, s2, Read("a"));
    var s3 := State(System(30, Lease("a", 60), map["a" := 30], {}), None, map[], 1);
    assert Act(c, s2, Read("a")) == s3;
    ReachNext(c, s3, Wait(31));
  }

  /** A leader that skips renewal with thirty seconds left and then waits longer is overtaken. */
  lemma LateChecksBreakExclusion(c: Config)
    requires c.bound > RenewalWindow
    ensures !Safe(c)
  {
    OverdueIsReachable(c);
    var s5 := Act(c, Overdue, Read("b"));
    ReachNext(c, Overdue, Read("b"));
    var s6 := Act(c, s5, TryLock("b"));
    ReachNext(c, s5, TryLock("b"));
    var s7 := Act(c, s6, Commit("b"));
    ReachNext(c, s6, Commit("b"));
    assert "a" in s7.sys.checked && "b" in s7.sys.checked;
    Refutes(c, s7);
  }

  /**
   The split protocol keeps mutual exclusion in every reachable state if and only if all of these
   hold: the loser of a lock race re-checks expiry, nobody commits between a worker's read and its
   lock, commits are not lost, and every leader checks again within thirty seconds.
   */
  lemma SafeExactlyWhen(c: Config)
    requires c.bound >= 0
    ensures Safe(c) <==> c.recheck && c.freshLocks && c.keptCommits && c.bound <= RenewalWindow
  {
    if !c.freshLocks {
      StaleLocksBreakExclusion(c);
    } else if !c.keptCommits {
      LostCommitsBreakExclusion(c);
    } else if !c.recheck {
      RecheckIsNeeded(c);
    } else if c.bound > RenewalWindow {
      LateChecksBreakExclusion(c);
    } else {
      FaithfulIsSafe(c);
    }
  }
}
