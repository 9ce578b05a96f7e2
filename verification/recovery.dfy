/** Startup recovery: runs a stopped daemon left open are closed, and what they were working on is failed. */
module Recovery {
  import opened Wrappers
  import opened IssueState

  datatype IssueRun = IssueRun(issue: int, statusBefore: Option<Status>, isOpen: bool, statusAfter: Option<Status>)

  datatype JobStatus = JobQueued | JobRunning | JobDone | JobFailed

  datatype JobRun = JobRun(job: int, isOpen: bool, statusAfter: Option<JobStatus>)

  // ---------------------------------------------------------------- issue runs

  /** An open run was interrupted in the phase its issue is still in. */
  ghost predicate IsInterrupted(runs: map<int, IssueRun>, id: int, status: Status) {
    && IsActionable(status)
    && exists r <- runs :: runs[r].isOpen && runs[r].issue == id && runs[r].statusBefore == Some(status)
  }

  class IssueRecovery {
    var issues: map<int, Status>
    var runs: map<int, IssueRun>

    constructor (issues: map<int, Status>, runs: map<int, IssueRun>)
      ensures this.issues == issues && this.runs == runs
    {
      this.issues, this.runs := issues, runs;
    }

    /** Fails the issue of one open run if it is still where the run found it, and closes the run. */
    method RecoverRun(r: int)
      requires r in runs
      modifies this
      ensures issues.Keys == old(issues).Keys && runs.Keys == old(runs).Keys
      ensures forall id <- issues :: issues[id]
                == if id == old(runs)[r].issue && IsActionable(old(issues)[id])
                      && old(runs)[r].statusBefore == Some(old(issues)[id])
                   then Failed else old(issues)[id]
      ensures forall k <- runs :: k != r ==> runs[k] == old(runs)[k]
      ensures !runs[r].isOpen
      ensures runs[r].issue == old(runs)[r].issue && runs[r].statusBefore == old(runs)[r].statusBefore
      ensures runs[r].statusAfter == if runs[r].issue in issues then Some(issues[runs[r].issue]) else None
    {
      var run := runs[r];
      var statusAfter := None;
      if run.issue in issues {
        var status := issues[run.issue];
        if IsActionable(status) && run.statusBefore == Some(status) && IsLegalTransition(status, Failed) {
          issues := issues[run.issue := Failed];
          status := Failed;
        }
        statusAfter := Some(status);
      }
      runs := runs[r := run.(isOpen := false, statusAfter := statusAfter)];
    }

    /**
      Afterwards no run is open, and exactly the interrupted issues are FAILED: an issue that had moved
      on, or that no run had open, keeps its status. A second recovery finds nothing to do.
     */
    method RecoverOpenIssueRuns() returns (recovered: nat)
      modifies this
      ensures issues.Keys == old(issues).Keys && runs.Keys == old(runs).Keys
      ensures forall r <- runs :: !runs[r].isOpen
      ensures forall id <- issues ::
                  issues[id] == if IsInterrupted(old(runs), id, old(issues)[id]) then Failed else old(issues)[id]
      ensures recovered == |set r <- old(runs) | old(runs)[r].isOpen|
      ensures recovered == 0 ==> issues == old(issues) && runs == old(runs)
    {
      var open := set r <- runs | runs[r].isOpen;
      var ids := InOrder(open);
      SameLength(ids, open);
      assert forall r :: r in ids <==> r in open by { assert forall r :: r in ids <==> r in ToSet(ids); }
      for k := 0 to |ids|
        invariant issues.Keys == old(issues).Keys && runs.Keys == old(runs).Keys
        invariant k == 0 ==> issues == old(issues) && runs == old(runs)
        invariant forall r <- runs :: runs[r].isOpen <==> old(runs)[r].isOpen && r !in ids[..k]
        invariant forall r <- runs :: r !in ids[..k] ==> runs[r] == old(runs)[r]
        invariant forall id <- issues ::
                    issues[id] == FailedIf(InterruptedBefore(old(runs), ids[..k], id, old(issues)[id]), old(issues)[id])
      {
        assert ids[k] in ids;
        NotAgain(ids, k);
        assert ids[..k + 1] == ids[..k] + [ids[k]];
        RecoverRun(ids[k]);
        forall id <- issues
          ensures issues[id]
                  == FailedIf(InterruptedBefore(old(runs), ids[..k + 1], id, old(issues)[id]), old(issues)[id])
        {
          OneMoreRun(old(runs), ids, k, id, old(issues)[id]);
        }
      }
      assert ids[..|ids|] == ids;
      forall id <- issues
        ensures InterruptedBefore(old(runs), ids, id, old(issues)[id]) == IsInterrupted(old(runs), id, old(issues)[id])
      {
        AllOpenRuns(old(runs), ids, id, old(issues)[id]);
      }
      return |ids|;
    }
  }

  function FailedIf(interrupted: bool, status: Status): Status {
    if interrupted then Failed else status
  }

  /** Interrupted by one of the listed runs. */
  ghost predicate InterruptedBefore(runs: map<int, IssueRun>, ids: seq<int>, id: int, status: Status) {
    && IsActionable(status)
    && exists r <- ids :: r in runs && runs[r].issue == id && runs[r].statusBefore == Some(status)
  }

  lemma OneMoreRun(runs: map<int, IssueRun>, ids: seq<int>, k: nat, id: int, status: Status)
    requires k < |ids| && ids[k] in runs
    ensures InterruptedBefore(runs, ids[..k + 1], id, status)
            <==> InterruptedBefore(runs, ids[..k], id, status)
                 || (IsActionable(status) && runs[ids[k]].issue == id && runs[ids[k]].statusBefore == Some(status))
  {
    assert ids[..k + 1] == ids[..k] + [ids[k]];
    assert ids[k] in ids[..k + 1];
    assert forall r :: r in ids[..k + 1] <==> r in ids[..k] || r == ids[k];
  }

  lemma AllOpenRuns(runs: map<int, IssueRun>, ids: seq<int>, id: int, status: Status)
    requires forall r :: r in ids <==> r in runs && runs[r].isOpen
    ensures InterruptedBefore(runs, ids, id, status) <==> IsInterrupted(runs, id, status)
  {
  }

  lemma NotAgain(ids: seq<int>, k: nat)
    requires IsIncreasing(ids) && k < |ids|
    ensures ids[k] !in ids[..k]
  {
  }

  lemma {:induction false} SameLength(ids: seq<int>, s: set<int>)
    requires IsIncreasing(ids) && ToSet(ids) == s
    ensures |ids| == |s|
  {
    if ids != [] {
      var n := |ids| - 1;
      var rest := ToSet(ids[..n]);
      NotAgain(ids, n);
      SameLength(ids[..n], rest);
      assert ids == ids[..n] + [ids[n]];
      forall x ensures x in s <==> x in rest || x == ids[n] {
        assert x in s <==> x in ids;
      }
      SameSet(s, rest + {ids[n]});
    }
  }

  // ---------------------------------------------------------------- main jobs

  predicate HasOpenRun(runs: map<int, JobRun>, job: int) {
    exists r <- runs :: runs[r].isOpen && runs[r].job == job
  }

  predicate HasListedRun(runs: map<int, JobRun>, ids: seq<int>, job: int) {
    exists r <- ids :: r in runs && runs[r].job == job
  }

  function AfterRuns(runs: map<int, JobRun>, ids: seq<int>, job: int, status: JobStatus): JobStatus {
    if status == JobRunning && HasListedRun(runs, ids, job) then JobFailed else status
  }

  lemma OneMoreListed(runs: map<int, JobRun>, ids: seq<int>, k: nat, job: int)
    requires k < |ids| && ids[k] in runs
    ensures HasListedRun(runs, ids[..k + 1], job) <==> HasListedRun(runs, ids[..k], job) || runs[ids[k]].job == job
  {
    assert ids[..k + 1] == ids[..k] + [ids[k]];
    assert ids[k] in ids[..k + 1];
    assert forall r :: r in ids[..k + 1] <==> r in ids[..k] || r == ids[k];
  }

  lemma AllListed(runs: map<int, JobRun>, ids: seq<int>, job: int)
    requires forall r :: r in ids <==> r in runs && runs[r].isOpen
    ensures HasListedRun(runs, ids, job) <==> HasOpenRun(runs, job)
  {
  }

  class JobRecovery {
    var jobs: map<int, JobStatus>
    var runs: map<int, JobRun>

    constructor (jobs: map<int, JobStatus>, runs: map<int, JobRun>)
      ensures this.jobs == jobs && this.runs == runs
    {
      this.jobs, this.runs := jobs, runs;
    }

    method CloseRun(r: int)
      requires r in runs
      modifies this
      ensures jobs.Keys == old(jobs).Keys
      ensures forall j <- jobs :: jobs[j]
                  == if j == old(runs)[r].job && old(jobs)[j] == JobRunning then JobFailed else old(jobs)[j]
      ensures runs == old(runs)[r := old(runs)[r].(isOpen := false, statusAfter :=
                if old(runs)[r].job in jobs then Some(jobs[old(runs)[r].job]) else None)]
    {
      var run := runs[r];
      var statusAfter := None;
      if run.job in jobs {
        if jobs[run.job] == JobRunning {
          jobs := jobs[run.job := JobFailed];
        }
        statusAfter := Some(jobs[run.job]);
      }
      runs := runs[r := run.(isOpen := false, statusAfter := statusAfter)];
    }

    /** Closes the listed runs, failing the running jobs they belong to. */
    method CloseRuns(ids: seq<int>)
      requires forall k :: 0 <= k < |ids| ==> ids[k] in runs
      modifies this
      ensures jobs.Keys == old(jobs).Keys && runs.Keys == old(runs).Keys
      ensures forall r <- runs :: r in ids ==> !runs[r].isOpen
      ensures forall r <- runs :: r !in ids ==> runs[r] == old(runs)[r]
      ensures forall j <- jobs :: jobs[j] == AfterRuns(old(runs), ids, j, old(jobs)[j])
    {
      for k := 0 to |ids|
        invariant jobs.Keys == old(jobs).Keys && runs.Keys == old(runs).Keys
        invariant forall r <- runs :: runs[r].job == old(runs)[r].job
        invariant forall r <- runs :: r in ids[..k] ==> !runs[r].isOpen
        invariant forall r <- runs :: r !in ids[..k] ==> runs[r] == old(runs)[r]
        invariant forall j <- jobs :: jobs[j] == AfterRuns(old(runs), ids[..k], j, old(jobs)[j])
      {
        assert ids[k] in ids;
        assert ids[..k + 1] == ids[..k] + [ids[k]];
        forall j ensures HasListedRun(old(runs), ids[..k + 1], j)
                         <==> HasListedRun(old(runs), ids[..k], j) || old(runs)[ids[k]].job == j {
          OneMoreListed(old(runs), ids, k, j);
        }
        hide HasListedRun;
        CloseRun(ids[k]);
      }
      assert ids[..|ids|] == ids;
    }

    /** Closes the open runs, and fails every running job, with or without one; queued jobs stay queued. */
    method RecoverOpenMainJobs() returns (recovered: nat)
      modifies this
      ensures jobs.Keys == old(jobs).Keys && runs.Keys == old(runs).Keys
      ensures forall r <- runs :: !runs[r].isOpen
      ensures forall j <- jobs :: jobs[j] == if old(jobs)[j] == JobRunning then JobFailed else old(jobs)[j]
      ensures recovered == |set r <- old(runs) | old(runs)[r].isOpen|
                + |set j <- old(jobs) | old(jobs)[j] == JobRunning && !HasOpenRun(old(runs), j)|
    {
      var open := set r <- runs | runs[r].isOpen;
      var ids := InOrder(open);
      SameLength(ids, open);
      assert forall r :: r in ids <==> r in open by { assert forall r :: r in ids <==> r in ToSet(ids); }
      forall j ensures HasListedRun(runs, ids, j) <==> HasOpenRun(runs, j) {
        AllListed(runs, ids, j);
      }
      hide HasListedRun, HasOpenRun;
      forall k | 0 <= k < |ids| ensures ids[k] in runs {
        assert ids[k] in ids;
      }
      CloseRuns(ids);
      var left := set j <- jobs | jobs[j] == JobRunning;
      SameSet(left, set j <- old(jobs) | old(jobs)[j] == JobRunning && !HasOpenRun(old(runs), j));
      jobs := map j <- jobs :: if j in left then JobFailed else jobs[j];
      return |ids| + |left|;
    }
  }
}
