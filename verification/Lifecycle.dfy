/**
 The goroutine of the leader election manager, a caller of its Stop and the reconcile loops of its workers, taken
 apart at the statements that they may interleave at (pkg/workers/leader_election_mgr.go, pkg/workers/reconciler.go).
 */
module Lifecycle {
  import opened Workers

  datatype WorkerState = WorkerState(isRunning: bool, stop: Channel, group: int, loops: nat)

  /** Where the manager's goroutine is; `down` tells the loop of the teardown from a round of startWorkers. */
  datatype Position =
    | NotStarted
    | Parked                          // waiting at the select, with nothing ready
    | At(i: nat, down: bool)          // before worker `i`
    | Starting(i: nat)                // worker `i` has started and is not counted yet
    | Stopping(i: nat, down: bool)    // the channel of worker `i` is closed, its loop may still run
    | Stopped(i: nat, down: bool)     // worker `i` has stopped and is still counted
    | Ended

  /** Where the caller of Stop is. A wait group that reaches zero releases its waiter, which resumes some time later. */
  datatype Caller =
    | NotCalled
    | Called      // tearDown is closed
    | Waiting     // in workerGrp.Wait, with a positive count
    | Released    // the count has reached zero
    | Returned
    | Crashed     // the count was positive again when the waiter resumed: Wait panics

  datatype State = State(workers: seq<WorkerState>, workerGrp: int, tearDown: Channel, pos: Position, caller: Caller)

  datatype Step =
    | Begin                    // Start is called
    | Check(lead: bool)        // the next worker of a round, and whether it is the leader
    | Look                     // the next worker of the teardown
    | Add                      // workerGrp.Add(1)
    | Waited                   // worker.Stop has waited for the loop
    | Done                     // workerGrp.Done()
    | EndRound(ticked: bool)   // the select after a round; `ticked`: the ticker is ready again
    | Tick                     // the ticker wakes the goroutine up
    | EndTeardown
    | LoopEnds(k: nat)         // the loop of worker `k` finds its channel closed
    | CallStop                 // Stop closes tearDown
    | EnterWait                // Stop enters workerGrp.Wait
    | Resume                   // Stop resumes after it was released
    | CallStopInVain           // Stop before Start, or once more

  predicate InRound(s: State) { s.pos.At? && !s.pos.down }

  /** A panic ends the program, so that nothing happens after it. */
  predicate Enabled(s: State, step: Step) {
    s.caller != Crashed &&
    match step
    case Begin => s.pos == NotStarted
    case Check(_) => InRound(s) && s.pos.i < |s.workers|
    case Look => s.pos.At? && s.pos.down && s.pos.i < |s.workers|
    case Add => s.pos.Starting?
    case Waited => s.pos.Stopping? && s.pos.i < |s.workers| && s.workers[s.pos.i].group == 0
    case Done => s.pos.Stopped?
    case EndRound(_) => InRound(s) && s.pos.i == |s.workers|
    case Tick => s.pos == Parked
    case EndTeardown => s.pos == At(|s.workers|, true)
    case LoopEnds(k) => k < |s.workers| && s.workers[k].stop == Closed && s.workers[k].loops > 0
    case CallStop => s.tearDown == Open && s.caller == NotCalled
    case EnterWait => s.caller == Called
    case Resume => s.caller == Released
    case CallStopInVain => s.tearDown != Open
  }

  /** Reconciler.Start. */
  function Started(w: WorkerState): WorkerState { WorkerState(true, Open, w.group + 1, w.loops + 1) }

  /** The goroutine calls Stop of worker `i`: a closed channel is left alone, any other one is closed. */
  function StopWorker(s: State, i: nat, down: bool): State
    requires i < |s.workers|
  {
    var w := s.workers[i];
    if w.stop == Closed then s.(workers := s.workers[i := w.(isRunning := false)], pos := Stopped(i, down))
    else s.(workers := s.workers[i := w.(stop := Closed)], pos := Stopping(i, down))
  }

  function Next(s: State, step: Step): State
    requires Enabled(s, step)
  {
    match step
    case Begin => s.(tearDown := Open, pos := At(0, false))
    case Check(lead) =>
      var i := s.pos.i;
      if lead && !s.workers[i].isRunning then s.(workers := s.workers[i := Started(s.workers[i])], pos := Starting(i))
      else if !lead && s.workers[i].isRunning then StopWorker(s, i, false)
      else s.(pos := At(i + 1, false))
    case Look =>
      if s.workers[s.pos.i].isRunning then StopWorker(s, s.pos.i, true) else s.(pos := At(s.pos.i + 1, true))
    case Add => s.(workerGrp := s.workerGrp + 1, pos := At(s.pos.i + 1, false))
    case Waited =>
      var i := s.pos.i;
      s.(workers := s.workers[i := s.workers[i].(isRunning := false)], pos := Stopped(i, s.pos.down))
    case Done =>
      s.(workerGrp := s.workerGrp - 1, pos := At(s.pos.i + 1, s.pos.down),
         caller := if s.caller == Waiting && s.workerGrp == 1 then Released else s.caller)
    case EndRound(ticked) =>
      s.(pos := if s.tearDown != Closed then Parked else At(0, !ticked))
    case Tick => s.(pos := At(0, false))
    case EndTeardown => s.(pos := Ended)
    case LoopEnds(k) =>
      var w := s.workers[k];
      s.(workers := s.workers[k := w.(group := w.group - 1, loops := w.loops - 1)])
    case CallStop =>
      // Closing the channel hands it to a goroutine that waits for it.
      s.(tearDown := Closed, caller := Called, pos := if s.pos == Parked then At(0, true) else s.pos)
    case EnterWait => s.(caller := if s.workerGrp == 0 then Returned else Waiting)
    case Resume => s.(caller := if s.workerGrp == 0 then Returned else Crashed)
    case CallStopInVain => s
  }

  /** The step counts below zero, closes a channel that was never made, or resumes a wait on a group in use again. */
  predicate Panics(s: State, step: Step)
    requires Enabled(s, step)
  {
    match step
    case Check(lead) => !lead && s.workers[s.pos.i].isRunning && s.workers[s.pos.i].stop == NoChannel
    case Look => s.workers[s.pos.i].isRunning && s.workers[s.pos.i].stop == NoChannel
    case Done => s.workerGrp <= 0
    case LoopEnds(k) => s.workers[k].group <= 0
    case Resume => s.workerGrp != 0
    case _ => false
  }

  const Idle := WorkerState(false, NoChannel, 0, 0)

  ghost predicate Initial(s: State) {
    && (forall k :: 0 <= k < |s.workers| ==> s.workers[k] == Idle)
    && s.workerGrp == 0 && s.tearDown == NoChannel && s.pos == NotStarted && s.caller == NotCalled
  }

  ghost predicate IsPath(run: seq<State>, steps: seq<Step>) {
    && |run| == |steps| + 1
    && forall i :: 0 <= i < |steps| ==> Enabled(run[i], steps[i]) && run[i + 1] == Next(run[i], steps[i])
  }

  // ---------------------------------------------------------------------------------------------
  // What every step keeps
  // ---------------------------------------------------------------------------------------------

  function Running(workers: seq<WorkerState>): nat {
    if workers == [] then 0
    else Running(workers[..|workers| - 1]) + (if workers[|workers| - 1].isRunning then 1 else 0)
  }

  function Bit(b: bool): int { if b then 1 else 0 }

  /** A running worker has one loop on an open channel, any other worker has none. */
  predicate Healthy(w: WorkerState) {
    w.group == w.loops == Bit(w.isRunning) && (w.isRunning <==> w.stop == Open)
  }

  /** The worker being stopped: its loop may have ended or not. */
  predicate Closing(w: WorkerState) { w.isRunning && w.stop == Closed && w.group == w.loops <= 1 }

  ghost predicate WorkersHealthy(s: State) {
    forall k :: 0 <= k < |s.workers| ==>
      if s.pos.Stopping? && s.pos.i == k then Closing(s.workers[k]) else Healthy(s.workers[k])
  }

  predicate GoingDown(p: Position) {
    p == Ended || ((p.At? || p.Stopping? || p.Stopped?) && p.down)
  }

  /** The goroutine is where its position says, and the channel and the caller agree with it. */
  ghost predicate Placed(s: State) {
    && (s.pos.At? ==> s.pos.i <= |s.workers|)
    && (s.pos.Starting? || s.pos.Stopping? || s.pos.Stopped? ==> s.pos.i < |s.workers|)
    && (s.pos.Starting? ==> s.workers[s.pos.i].isRunning)
    && (s.pos.Stopped? ==> !s.workers[s.pos.i].isRunning)
    && (s.pos == NotStarted <==> s.tearDown == NoChannel)
    && (s.pos == Parked ==> s.tearDown == Open)
    && (GoingDown(s.pos) ==> s.tearDown == Closed)
    && (s.caller == NotCalled <==> s.tearDown != Closed)
    && (s.caller == Waiting ==> s.workerGrp > 0)
  }

  /** The teardown has passed only workers that no longer run. */
  ghost predicate PassedAreStopped(s: State) {
    GoingDown(s.pos) ==>
      forall k :: 0 <= k < (if s.pos == Ended then |s.workers| else s.pos.i) && k < |s.workers| ==>
        !s.workers[k].isRunning
  }

  /** The group counts the running workers, up to the one between its start or stop and its count. */
  ghost predicate Counted(s: State) {
    s.workerGrp == Running(s.workers) + Bit(s.pos.Stopped?) - Bit(s.pos.Starting?)
  }

  ghost predicate Invariant(s: State) { WorkersHealthy(s) && Placed(s) && PassedAreStopped(s) && Counted(s) }

  lemma {:induction false} RunningUpdate(workers: seq<WorkerState>, k: nat, w: WorkerState)
    requires k < |workers|
    ensures Running(workers[k := w]) == Running(workers) - Bit(workers[k].isRunning) + Bit(w.isRunning)
  {
    var n := |workers| - 1;
    if k < n {
      assert workers[k := w][..n] == workers[..n][k := w];
      RunningUpdate(workers[..n], k, w);
    } else {
      assert workers[k := w][..n] == workers[..n];
    }
  }

  lemma {:induction false} RunningZero(workers: seq<WorkerState>)
    ensures Running(workers) == 0 <==> forall k :: 0 <= k < |workers| ==> !workers[k].isRunning
  {
    if workers != [] { RunningZero(workers[..|workers| - 1]); }
  }

  lemma {:induction false} RunningHasOne(workers: seq<WorkerState>, k: nat)
    requires k < |workers| && workers[k].isRunning
    ensures Running(workers) >= 1
  {
    RunningZero(workers);
  }

  lemma CountIsNeverNegative(s: State)
    requires Invariant(s)
    ensures s.workerGrp >= 0
  {
    if s.pos.Starting? { RunningHasOne(s.workers, s.pos.i); }
  }

  lemma StepKeepsHealth(s: State, step: Step)
    requires Invariant(s) && Enabled(s, step)
    ensures WorkersHealthy(Next(s, step))
  {
  }

  lemma StepKeepsPlace(s: State, step: Step)
    requires Invariant(s) && Enabled(s, step)
    ensures Placed(Next(s, step)) && PassedAreStopped(Next(s, step))
  {
    CountIsNeverNegative(s);
  }

  lemma StepKeepsCount(s: State, step: Step)
    requires Invariant(s) && Enabled(s, step)
    ensures Counted(Next(s, step))
  {
    var t := Next(s, step);
    match step
    case Check(_) => RunningUpdate(s.workers, s.pos.i, t.workers[s.pos.i]);
    case Look => RunningUpdate(s.workers, s.pos.i, t.workers[s.pos.i]);
    case Waited => RunningUpdate(s.workers, s.pos.i, t.workers[s.pos.i]);
    case LoopEnds(k) => RunningUpdate(s.workers, k, t.workers[k]);
    case _ =>
  }

  lemma StepKeeps(s: State, step: Step)
    requires Invariant(s) && Enabled(s, step)
    ensures Invariant(Next(s, step)) && |Next(s, step).workers| == |s.workers|
  {
    StepKeepsHealth(s, step);
    StepKeepsPlace(s, step);
    StepKeepsCount(s, step);
  }

  lemma {:induction false} InvariantAlways(run: seq<State>, steps: seq<Step>, i: nat)
    requires IsPath(run, steps) && Initial(run[0]) && i < |run|
    ensures Invariant(run[i])
  {
    if i == 0 {
      RunningZero(run[0].workers);
    } else {
      InvariantAlways(run, steps, i - 1);
      StepKeeps(run[i - 1], steps[i - 1]);
    }
  }

  /** Over every interleaving: the only step that panics is a Stop that resumes when the group is in use again. */
  lemma OnlyAReusedGroupPanics(run: seq<State>, steps: seq<Step>, i: nat)
    requires IsPath(run, steps) && Initial(run[0]) && i < |steps|
    ensures Panics(run[i], steps[i]) <==> steps[i] == Resume && run[i].workerGrp > 0
  {
    InvariantAlways(run, steps, i);
    CountIsNeverNegative(run[i]);
  }

  /**
   Over every interleaving: the group never goes below zero and differs from the number of running workers only for
   the one worker between its start or stop and its count, and no worker has two loops.
   */
  lemma GroupCountsTheRunning(run: seq<State>, steps: seq<Step>, i: nat)
    requires IsPath(run, steps) && Initial(run[0]) && i < |run|
    ensures var s := run[i];
      && s.workerGrp == Running(s.workers) + Bit(s.pos.Stopped?) - Bit(s.pos.Starting?) >= 0
      && (forall k :: 0 <= k < |s.workers| ==> s.workers[k].group == s.workers[k].loops <= 1)
      && (forall k :: 0 <= k < |s.workers| && s.workers[k].loops == 1 ==> s.workers[k].isRunning)
  {
    InvariantAlways(run, steps, i);
    CountIsNeverNegative(run[i]);
  }

  ghost predicate NobodyRuns(s: State) {
    forall k :: 0 <= k < |s.workers| ==> !s.workers[k].isRunning && s.workers[k].loops == 0
  }

  /** When the goroutine has ended, no worker, no loop and no count is left, and nobody waits for it any more. */
  lemma TeardownLeavesNothing(run: seq<State>, steps: seq<Step>, i: nat)
    requires IsPath(run, steps) && Initial(run[0]) && i < |run| && run[i].pos == Ended
    ensures NobodyRuns(run[i]) && run[i].workerGrp == 0 && run[i].caller != Waiting
  {
    InvariantAlways(run, steps, i);
    RunningZero(run[i].workers);
  }

  // ---------------------------------------------------------------------------------------------
  // What Stop promises, and when
  // ---------------------------------------------------------------------------------------------

  /** From `s`, where Stop is called, no continuation has a worker run once Stop has returned. */
  ghost predicate StopIsFinal(s: State)
    requires Enabled(s, CallStop)
  {
    forall run: seq<State>, steps: seq<Step>, i: nat ::
      IsPath(run, steps) && run[0] == Next(s, CallStop) && i < |run| && run[i].caller == Returned ==> NobodyRuns(run[i])
  }

  /** From `s`, where Stop is called, no continuation has Stop panic. */
  ghost predicate StopIsSafe(s: State)
    requires Enabled(s, CallStop)
  {
    forall run: seq<State>, steps: seq<Step>, i: nat ::
      IsPath(run, steps) && run[0] == Next(s, CallStop) && i < |run| ==> run[i].caller != Crashed
  }

  /** In the teardown nobody starts any more, so a count that has reached zero stays there. */
  ghost predicate Finishing(s: State) {
    && Invariant(s) && GoingDown(s.pos) && s.caller != Crashed
    && (s.caller == Released || s.caller == Returned ==> NobodyRuns(s) && s.workerGrp == 0)
  }

  lemma ZeroMeansNobody(s: State)
    requires Invariant(s) && GoingDown(s.pos) && s.workerGrp == 0
    ensures NobodyRuns(s)
  {
    RunningZero(s.workers);
  }

  lemma FinishingStep(s: State, step: Step)
    requires Finishing(s) && Enabled(s, step)
    ensures Finishing(Next(s, step))
  {
    StepKeeps(s, step);
    RunningZero(s.workers);
    if Next(s, step).workerGrp == 0 { ZeroMeansNobody(Next(s, step)); }
  }

  lemma {:induction false} FinishingAlways(run: seq<State>, steps: seq<Step>, i: nat)
    requires IsPath(run, steps) && Finishing(run[0]) && i < |run|
    ensures Finishing(run[i])
  {
    if i > 0 {
      FinishingAlways(run, steps, i - 1);
      FinishingStep(run[i - 1], steps[i - 1]);
    }
  }

  /** Without workers there is nothing to count, and Stop never waits. */
  ghost predicate Empty(s: State) { Invariant(s) && s.workers == [] && (s.caller == Called || s.caller == Returned) }

  lemma {:induction false} EmptyAlways(run: seq<State>, steps: seq<Step>, i: nat)
    requires IsPath(run, steps) && Empty(run[0]) && i < |run|
    ensures Empty(run[i])
  {
    if i > 0 {
      EmptyAlways(run, steps, i - 1);
      StepKeeps(run[i - 1], steps[i - 1]);
      assert run[i - 1].workerGrp == 0;
    }
  }

  ghost predicate Reaches(s: State, t: State) {
    exists run: seq<State>, steps: seq<Step> :: IsPath(run, steps) && run[0] == s && run[|run| - 1] == t
  }

  lemma ReachesItself(s: State)
    ensures Reaches(s, s)
  {
    assert IsPath([s], []);
  }

  lemma ReachesNext(s: State, t: State, step: Step)
    requires Reaches(s, t) && Enabled(t, step)
    ensures Reaches(s, Next(t, step))
  {
    var run: seq<State>, steps: seq<Step> :| IsPath(run, steps) && run[0] == s && run[|run| - 1] == t;
    var run', steps' := run + [Next(t, step)], steps + [step];
    forall i | 0 <= i < |steps'| ensures Enabled(run'[i], steps'[i]) && run'[i + 1] == Next(run'[i], steps'[i]) {
      if i < |steps| { assert run'[i] == run[i] && run'[i + 1] == run[i + 1] && steps'[i] == steps[i]; }
    }
    assert IsPath(run', steps');
  }

  /** `t` follows `s` with the goroutine in a round and the caller of Stop where no count can move it. */
  ghost predicate StillAt(s: State, t: State, i: nat, caller: Caller) {
    && Reaches(s, t) && Invariant(t) && t.pos == At(i, false) && t.tearDown == Closed
    && t.caller == caller && (caller == Called || caller == Released)
  }

  lemma Follow(s: State, t: State, step: Step) returns (t': State)
    requires Reaches(s, t) && Invariant(t) && Enabled(t, step)
    ensures t' == Next(t, step) && Reaches(s, t') && Invariant(t') && |t'.workers| == |t.workers|
  {
    ReachesNext(s, t, step);
    StepKeeps(t, step);
    t' := Next(t, step);
  }

  /** From the middle of a stop in a round to the moment before its count. */
  lemma StopTheWorker(s: State, t: State) returns (t': State)
    requires Reaches(s, t) && Invariant(t) && t.caller != Crashed && t.pos.Stopping?
    ensures Reaches(s, t') && Invariant(t') && |t'.workers| == |t.workers| && !t'.workers[t.pos.i].isRunning
    ensures t'.pos == Stopped(t.pos.i, t.pos.down) && t'.caller == t.caller && t'.tearDown == t.tearDown
    ensures t'.workerGrp == t.workerGrp
    ensures forall k :: 0 <= k < |t.workers| && k != t.pos.i ==> t'.workers[k] == t.workers[k]
  {
    var i := t.pos.i;
    assert Closing(t.workers[i]);
    t' := t;
    if t.workers[i].loops == 1 { t' := Follow(s, t', LoopEnds(i)); }
    t' := Follow(s, t', Waited);
  }

  lemma CompleteStop(s: State, t: State) returns (t': State)
    requires Reaches(s, t) && Invariant(t) && t.tearDown == Closed && (t.caller == Called || t.caller == Released)
    requires t.pos.Stopping? && !t.pos.down
    ensures StillAt(s, t', t.pos.i + 1, t.caller) && |t'.workers| == |t.workers| && !t'.workers[t.pos.i].isRunning
    ensures forall k :: 0 <= k < |t.workers| && k != t.pos.i ==> t'.workers[k] == t.workers[k]
  {
    t' := StopTheWorker(s, t);
    t' := Follow(s, t', Done);
  }

  /** A round in which this manager leads nothing any more, from worker `i` on. */
  lemma {:induction false} LoseTheRest(s: State, t: State, i: nat) returns (t': State)
    requires StillAt(s, t, i, t.caller)
    ensures StillAt(s, t', |t.workers|, t.caller) && |t'.workers| == |t.workers|
    ensures forall k :: 0 <= k < i ==> t'.workers[k] == t.workers[k]
    ensures forall k :: i <= k < |t'.workers| ==> !t'.workers[k].isRunning
    decreases |t.workers| - i
  {
    t' := t;
    if i < |t.workers| {
      var u := Follow(s, t, Check(false));
      if t.workers[i].isRunning { u := CompleteStop(s, u); }
      t' := LoseTheRest(s, u, i + 1);
    }
  }

  /** From anywhere in a round to a point between two workers. */
  lemma ToTheNextWorker(s: State, t: State) returns (t': State)
    requires Reaches(s, t) && Invariant(t) && t.tearDown == Closed && t.caller == Called && !GoingDown(t.pos)
    ensures t'.pos.At? && StillAt(s, t', t'.pos.i, Called) && |t'.workers| == |t.workers|
  {
    t' := t;
    match t.pos
    case Starting(_) => t' := Follow(s, t, Add);
    case Stopping(_, _) => t' := CompleteStop(s, t);
    case Stopped(_, _) => t' := Follow(s, t, Done);
    case _ =>
  }

  /** From anywhere in a round to the end of one that has lost everything. */
  lemma LoseEverything(s: State) returns (t: State)
    requires Invariant(s) && s.tearDown == Closed && s.caller == Called && !GoingDown(s.pos)
    ensures StillAt(s, t, |s.workers|, Called) && |t.workers| == |s.workers|
    ensures Running(t.workers) == 0 && t.workerGrp == 0
  {
    ReachesItself(s);
    t := ToTheNextWorker(s, s);
    t := LoseTheRest(s, t, t.pos.i);
    t := Follow(s, t, EndRound(true));
    t := LoseTheRest(s, t, 0);
    RunningZero(t.workers);
  }

  /** From anywhere in a round: two rounds lose everything, Stop returns, and the next round wins a worker. */
  lemma StopReturnsTooEarly(s: State) returns (t: State)
    requires Invariant(s) && s.tearDown == Closed && s.caller == Called && !GoingDown(s.pos) && s.workers != []
    ensures Reaches(s, t) && t.caller == Returned && !NobodyRuns(t)
  {
    t := LoseEverything(s);
    t := Follow(s, t, EnterWait);
    t := Follow(s, t, EndRound(true));
    t := Follow(s, t, Check(true));
    assert t.workers[0].isRunning;
  }

  /** A round that wins the first worker and nothing else. */
  lemma WinTheFirst(s: State, t: State) returns (t': State)
    requires StillAt(s, t, |t.workers|, t.caller) && Running(t.workers) == 0 && t.workers != []
    ensures StillAt(s, t', 1, t.caller) && |t'.workers| == |t.workers|
    ensures t'.workers[0].isRunning && forall k :: 1 <= k < |t'.workers| ==> !t'.workers[k].isRunning
    ensures Running(t'.workers) == 1 && t'.workerGrp == 1
  {
    RunningZero(t.workers);
    t' := Follow(s, t, EndRound(true));
    RunningUpdate(t.workers, 0, Started(t.workers[0]));
    t' := Follow(s, t', Check(true));
    t' := Follow(s, t', Add);
  }

  /** Stop waits for the first worker alone, which is lost again. */
  lemma ReleaseStop(s: State, t: State) returns (t': State)
    requires StillAt(s, t, |t.workers|, Called) && t.workers != [] && t.workers[0].isRunning
    requires Running(t.workers) == 1 && t.workerGrp == 1
    ensures StillAt(s, t', 1, Released) && |t'.workers| == |t.workers| && !t'.workers[0].isRunning
  {
    t' := Follow(s, t, EndRound(true));
    t' := Follow(s, t', EnterWait);
    t' := Follow(s, t', Check(false));
    t' := StopTheWorker(s, t');
    t' := Follow(s, t', Done);
  }

  lemma FirstAlone(s: State, t: State) returns (t': State)
    requires StillAt(s, t, 1, t.caller) && t.workers != [] && t.workers[0].isRunning
    requires forall k :: 1 <= k < |t.workers| ==> !t.workers[k].isRunning
    ensures StillAt(s, t', |t.workers|, t.caller) && |t'.workers| == |t.workers| && t'.workers[0].isRunning
    ensures Running(t'.workers) == 1 && t'.workerGrp == 1
  {
    t' := LoseTheRest(s, t, 1);
    var w := t'.workers[0].(isRunning := false);
    RunningUpdate(t'.workers, 0, w);
    RunningZero(t'.workers[0 := w]);
  }

  lemma NobodyLeft(s: State, t: State) returns (t': State)
    requires StillAt(s, t, 1, t.caller) && t.workers != [] && !t.workers[0].isRunning
    ensures StillAt(s, t', |t.workers|, t.caller) && |t'.workers| == |t.workers| && Running(t'.workers) == 0
  {
    t' := LoseTheRest(s, t, 1);
    RunningZero(t'.workers);
  }

  /**
   From anywhere in a round: Stop waits for the only worker left, a round loses it, and the next round wins it back
   before Stop has resumed.
   */
  lemma StopFindsTheGroupInUse(s: State) returns (t: State)
    requires Invariant(s) && s.tearDown == Closed && s.caller == Called && !GoingDown(s.pos) && s.workers != []
    ensures Reaches(s, t) && t.caller == Crashed
  {
    t := LoseEverything(s);
    t := WinTheFirst(s, t);
    t := FirstAlone(s, t);
    t := ReleaseStop(s, t);
    t := NobodyLeft(s, t);
    t := WinTheFirst(s, t);
    ReachesNext(s, t, Resume);
    t := Next(t, Resume);
  }

  /** What the two questions about Stop have in common: the goroutine must be at its select. */
  lemma AfterTheCall(s: State)
    requires Invariant(s) && Enabled(s, CallStop)
    ensures var t := Next(s, CallStop);
      && Invariant(t) && t.caller == Called && t.tearDown == Closed && |t.workers| == |s.workers|
      && (s.pos == Parked ==> Finishing(t)) && (s.pos != Parked ==> !GoingDown(t.pos)) && (s.workers == [] ==> Empty(t))
  {
    StepKeeps(s, CallStop);
  }

  /**
   Nobody runs once Stop has returned, whatever happens from the call on, if and only if the goroutine was waiting at
   its select when Stop was called, or there are no workers at all.
   */
  lemma StopIsFinalIff(s: State)
    requires Invariant(s) && Enabled(s, CallStop)
    ensures StopIsFinal(s) <==> s.pos == Parked || s.workers == []
  {
    var t := Next(s, CallStop);
    AfterTheCall(s);
    if s.pos == Parked || s.workers == [] {
      forall run: seq<State>, steps: seq<Step>, i: nat
        | IsPath(run, steps) && run[0] == t && i < |run| && run[i].caller == Returned
        ensures NobodyRuns(run[i])
      {
        if s.pos == Parked { FinishingAlways(run, steps, i); } else { EmptyAlways(run, steps, i); }
      }
    } else {
      var u := StopReturnsTooEarly(t);
      var run: seq<State>, steps: seq<Step> :| IsPath(run, steps) && run[0] == t && run[|run| - 1] == u;
      assert run[|run| - 1].caller == Returned;
    }
  }

  /** Stop cannot panic, whatever happens from the call on, if and only if the same condition holds. */
  lemma StopIsSafeIff(s: State)
    requires Invariant(s) && Enabled(s, CallStop)
    ensures StopIsSafe(s) <==> s.pos == Parked || s.workers == []
  {
    var t := Next(s, CallStop);
    AfterTheCall(s);
    if s.pos == Parked || s.workers == [] {
      forall run: seq<State>, steps: seq<Step>, i: nat | IsPath(run, steps) && run[0] == t && i < |run|
        ensures run[i].caller != Crashed
      {
        if s.pos == Parked { FinishingAlways(run, steps, i); } else { EmptyAlways(run, steps, i); }
      }
    } else {
      var u := StopFindsTheGroupInUse(t);
      var run: seq<State>, steps: seq<Step> :| IsPath(run, steps) && run[0] == t && run[|run| - 1] == u;
      assert run[|run| - 1].caller == Crashed;
    }
  }

  /** The shortest way: Stop is called during the first round, returns at once, and the round then wins the lease. */
  lemma WorkerStartsAfterStop() returns (run: seq<State>, steps: seq<Step>)
    ensures IsPath(run, steps) && Initial(run[0])
    ensures steps == [Begin, CallStop, EnterWait, Check(true)]
    ensures run[3].caller == Returned && NobodyRuns(run[3]) && !NobodyRuns(run[4])
  {
    steps := [Begin, CallStop, EnterWait, Check(true)];
    var s0 := State([Idle], 0, NoChannel, NotStarted, NotCalled);
    var s1 := State([Idle], 0, Open, At(0, false), NotCalled);
    var s2 := State([Idle], 0, Closed, At(0, false), Called);
    var s3 := s2.(caller := Returned);
    var s4 := s3.(workers := [WorkerState(true, Open, 1, 1)], pos := Starting(0));
    run := [s0, s1, s2, s3, s4];
    assert Next(s3, Check(true)).workers == s4.workers;
    assert s4.workers[0].isRunning;
  }

  const On := WorkerState(true, Open, 1, 1)
  const Off := WorkerState(false, Closed, 0, 0)

  /** Worker 0 loses its lease, and the count reaches zero. */
  lemma LoseTheFirst(run: seq<State>)
    requires run == [
      State([On, Idle], 1, Closed, At(0, false), Waiting),
      State([On.(stop := Closed), Idle], 1, Closed, Stopping(0, false), Waiting),
      State([WorkerState(true, Closed, 0, 0), Idle], 1, Closed, Stopping(0, false), Waiting),
      State([Off, Idle], 1, Closed, Stopped(0, false), Waiting),
      State([Off, Idle], 0, Closed, At(1, false), Released)]
    ensures IsPath(run, [Check(false), LoopEnds(0), Waited, Done])
  {
    assert Next(run[0], Check(false)).workers == run[1].workers;
    assert Next(run[1], LoopEnds(0)).workers == run[2].workers;
    assert Next(run[2], Waited).workers == run[3].workers;
  }

  /** Worker 1 wins its own lease, and Stop resumes. */
  lemma WinTheSecond(run: seq<State>)
    requires run == [
      State([Off, Idle], 0, Closed, At(1, false), Released),
      State([Off, On], 0, Closed, Starting(1), Released),
      State([Off, On], 1, Closed, At(2, false), Released),
      State([Off, On], 1, Closed, At(2, false), Crashed)]
    ensures IsPath(run, [Check(true), Add, Resume])
  {
    assert Next(run[0], Check(true)).workers == run[1].workers;
  }

  lemma PathsJoin(a: seq<State>, x: seq<Step>, b: seq<State>, y: seq<Step>)
    requires IsPath(a, x) && IsPath(b, y) && a[|a| - 1] == b[0]
    ensures IsPath(a + b[1..], x + y)
  {
    var run, steps := a + b[1..], x + y;
    forall i | 0 <= i < |steps| ensures Enabled(run[i], steps[i]) && run[i + 1] == Next(run[i], steps[i]) {
      if i < |x| {
        assert run[i] == a[i] && run[i + 1] == a[i + 1] && steps[i] == x[i];
      } else {
        assert run[i] == b[i - |x|] && run[i + 1] == b[i - |x| + 1] && steps[i] == y[i - |x|];
      }
    }
  }

  /**
   One round: Stop waits for worker 0, which loses its lease, and worker 1 wins its own before Stop has resumed. The
   state before the round is reached from the start.
   */
  lemma StopPanicsInOneRound() returns (run: seq<State>, steps: seq<Step>)
    ensures IsPath(run, steps) && Reaches(State([Idle, Idle], 0, NoChannel, NotStarted, NotCalled), run[0])
    ensures steps == [Check(false), LoopEnds(0), Waited, Done] + [Check(true), Add, Resume]
    ensures run[0].caller == Waiting && run[|run| - 1].caller == Crashed
  {
    var s := WaitingForTheFirst();
    var a := [s, s.(workers := [On.(stop := Closed), Idle], pos := Stopping(0, false)),
      s.(workers := [WorkerState(true, Closed, 0, 0), Idle], pos := Stopping(0, false)),
      s.(workers := [Off, Idle], pos := Stopped(0, false)), State([Off, Idle], 0, Closed, At(1, false), Released)];
    var b := [a[4], a[4].(workers := [Off, On], pos := Starting(1)),
      State([Off, On], 1, Closed, At(2, false), Released),
      State([Off, On], 1, Closed, At(2, false), Crashed)];
    LoseTheFirst(a);
    WinTheSecond(b);
    steps := [Check(false), LoopEnds(0), Waited, Done] + [Check(true), Add, Resume];
    PathsJoin(a, [Check(false), LoopEnds(0), Waited, Done], b, [Check(true), Add, Resume]);
    run := a + b[1..];
  }

  /** The first round of two workers, of which worker 0 wins its lease. */
  lemma FirstRound(s0: State) returns (s: State)
    requires s0 == State([Idle, Idle], 0, NoChannel, NotStarted, NotCalled)
    ensures s == State([On, Idle], 1, Open, Parked, NotCalled) && Reaches(s0, s) && Invariant(s)
  {
    RunningZero(s0.workers);
    ReachesItself(s0);
    s := Follow(s0, s0, Begin);
    s := Follow(s0, s, Check(true));
    s := Follow(s0, s, Add);
    s := Follow(s0, s, Check(false));
    s := Follow(s0, s, EndRound(false));
    assert s.workers == [On, Idle];
  }

  /** The next round has begun, and Stop waits. */
  lemma WaitingForTheFirst() returns (s: State)
    ensures s == State([On, Idle], 1, Closed, At(0, false), Waiting)
    ensures Reaches(State([Idle, Idle], 0, NoChannel, NotStarted, NotCalled), s)
  {
    var s0 := State([Idle, Idle], 0, NoChannel, NotStarted, NotCalled);
    s := FirstRound(s0);
    ReachesNext(s0, s, Tick);
    s := Next(s, Tick);
    ReachesNext(s0, s, CallStop);
    s := Next(s, CallStop);
    ReachesNext(s0, s, EnterWait);
    s := Next(s, EnterWait);
  }
}
