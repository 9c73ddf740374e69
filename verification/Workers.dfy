/**
 Worker lifecycle (pkg/workers/reconciler.go, worker_interface.go) and the manager that starts and
 stops workers as they win and lose their lease (pkg/workers/leader_election_mgr.go), each run without
 interruption. Lifecycle takes the same code apart at the statements that goroutines interleave at.

 A wait group is its counter. A reconcile loop is a unit of `loops`; it ends when it finds the stop
 channel closed. Closing a nil or closed channel, or counting a wait group below zero, would panic:
 that it cannot happen is part of what is proved.
 */
module Workers {
  import opened LeaseProtocol

  datatype Channel = NoChannel | Open | Closed

  class Worker {
    const id: string
    var isRunning: bool
    var stop: Channel
    var syncGroup: nat
    var loops: nat

    constructor (id: string)
      ensures this.id == id && Healthy() && !isRunning
    {
      this.id := id;
      isRunning, stop, syncGroup, loops := false, NoChannel, 0, 0;
    }

    /** A running worker has one loop on an open channel; a stopped one has none. */
    ghost predicate Healthy()
      reads this
    {
      && syncGroup == loops == (if isRunning then 1 else 0)
      && (isRunning <==> stop == Open)
    }

    method Start()
      modifies this
      ensures stop == Open && isRunning
      ensures syncGroup == old(syncGroup) + 1 && loops == old(loops) + 1
    {
      stop := Open;
      syncGroup := syncGroup + 1;
      isRunning := true;
      loops := loops + 1;
    }

    /** A loop that sees the closed channel: it leaves the group and ends. */
    method LoopEnds()
      requires stop == Closed && loops > 0 && syncGroup > 0
      modifies this`loops, this`syncGroup
      ensures loops == old(loops) - 1 && syncGroup == old(syncGroup) - 1
    {
      loops := loops - 1;
      syncGroup := syncGroup - 1;
    }

    /** Closes the channel once and waits for every loop. A worker that never started has no channel. */
    method Stop()
      requires stop != NoChannel && syncGroup == loops
      modifies this
      ensures !isRunning && stop == Closed
      ensures old(stop) == Open ==> syncGroup == 0 && loops == 0
      ensures old(stop) == Closed ==> syncGroup == old(syncGroup) && loops == old(loops)
    {
      if stop == Closed {
        isRunning := false;
        return;
      }
      stop := Closed;
      while syncGroup > 0
        invariant syncGroup == loops && stop == Closed
      {
        LoopEnds();
      }
      isRunning := false;
    }
  }

  class LeaderElectionManager {
    const workers: seq<Worker>
    var workerGrp: nat

    constructor (workers: seq<Worker>)
      requires forall w :: w in workers ==> w.Healthy() && !w.isRunning
      ensures this.workers == workers && Valid()
    {
      this.workers := workers;
      workerGrp := 0;
      new;
      assert RunningWorkers() == {};
    }

    ghost function RunningWorkers(): set<Worker>
      reads workers
    {
      set w | w in workers && w.isRunning
    }

    /** The wait group counts exactly the running workers. */
    ghost predicate Valid()
      reads this, workers
    {
      && (forall w :: w in workers ==> w.Healthy())
      && workerGrp == |RunningWorkers()|
    }

    ghost predicate Distinct() {
      forall i, j :: 0 <= i < j < |workers| ==> workers[i] != workers[j]
    }

    method StartOne(w: Worker)
      requires Valid() && w in workers && !w.isRunning
      modifies this`workerGrp, w
      ensures Valid() && w.isRunning
    {
      ghost var before := RunningWorkers();
      w.Start();
      assert RunningWorkers() == before + {w};
      workerGrp := workerGrp + 1;
    }

    method StopOne(w: Worker)
      requires Valid() && w in workers && w.isRunning
      modifies this`workerGrp, w
      ensures Valid() && !w.isRunning
    {
      ghost var before := RunningWorkers();
      assert w in before;
      w.Stop();
      assert RunningWorkers() == before - {w};
      workerGrp := workerGrp - 1;
    }

    /** One round: `leads[i]` says whether worker `i` is the leader now. */
    method StartWorkers(leads: seq<bool>)
      requires Valid() && |leads| == |workers|
      modifies this`workerGrp, workers
      ensures Valid()
      ensures Distinct() ==> forall i :: 0 <= i < |workers| ==> workers[i].isRunning == leads[i]
    {
      for i := 0 to |workers|
        invariant Valid()
        invariant Distinct() ==> forall k :: 0 <= k < i ==> workers[k].isRunning == leads[k]
      {
        var w := workers[i];
        if leads[i] && !w.isRunning {
          StartOne(w);
        } else if !leads[i] && w.isRunning {
          StopOne(w);
        }
      }
    }

    /** The loop that the manager's goroutine runs when it finds the teardown channel closed. */
    method TearDown()
      requires Valid()
      modifies this`workerGrp, workers
      ensures Valid() && RunningWorkers() == {} && workerGrp == 0
    {
      for i := 0 to |workers|
        invariant Valid()
        invariant forall k :: 0 <= k < i ==> !workers[k].isRunning
      {
        if workers[i].isRunning {
          StopOne(workers[i]);
        }
      }
      assert RunningWorkers() == {};
    }
  }

  // ---------------------------------------------------------------------------------------------
  // One check, run without interruption
  // ---------------------------------------------------------------------------------------------

  datatype Outcome = Error | Acquired(leader: bool)

  /** The rows of one lease type that are not deleted, and whether another transaction locks them. */
  class LeaseTable {
    var rows: seq<Lease>
    var locked: bool

    /** acquireLeaderLease; the flags say which database statements fail. A failing commit goes unnoticed. */
    method AcquireLeaderLease(workerID: string, now: int, readFails: bool,
      lockFails: bool, updateFails: bool, commitFails: bool)
      returns (r: Outcome)
      requires workerID != ""
      modifies this`rows
      ensures old(rows) == [] || readFails ==> r == Error && rows == old(rows)
      ensures old(rows) != [] ==>
        var before := System(now, old(rows)[0], map[], {});
        var check := Apply(before, Check(workerID, now));
        var fails := readFails || (MayTake(old(rows)[0], workerID, now) && (lockFails || (!locked && updateFails)));
        var loses := locked && IsExpired(old(rows)[0], now);
        if fails then r == Error && rows == old(rows)
        else if loses then r == Acquired(false) && rows == old(rows)
        else
          && r == Acquired(workerID in check.checked)
          && rows == (if locked || commitFails then old(rows) else old(rows)[0 := check.lease])
    {
      if readFails || |rows| == 0 {
        return Error;
      }
      var lease := rows[0];
      var newExpiryTime := now + LeaseRenewTime;
      var isLeader := false;
      if IsExpired(lease, now) || (lease.leader == workerID && lease.expires < now + RenewalWindow) {
        var updated := rows;
        if lockFails {
          return Error;
        }
        if locked && IsExpired(lease, now) {
          return Acquired(false);
        }
        if !locked {
          if updateFails {
            return Error;
          }
          updated := rows[0 := Lease(workerID, newExpiryTime)];
        }
        isLeader := true;
        if !commitFails {
          rows := updated;
        }
      } else if lease.leader == workerID {
        isLeader := true;
      }
      r := Acquired(isLeader);
      assert rows == old(rows) ==> rows == rows[0 := rows[0]];
    }
  }
}
