/** When each schedule was computed and dispatched, and why no occurrence falls between. */
module ScheduleHistory {
  import opened Base
  import opened ScheduleModel

  /** The cron library: the first occurrence of a plan after a time, if there is one. */
  type Next = (Plan, Time) -> Option<Time>

  /** A job was written to the file with a next occurrence computed at this time, by a
      definition or by the claim of a run. It is kept unless the write failed late, so
      that only the file has it. */
  datatype Moment = Moment(id: Id, plan: Plan, at: Time, run: Option<Dispatch>, kept: bool)

  /** A claim that only the file has: its run is never dispatched. */
  predicate Lost(m: Moment) { m.run.Some? && !m.kept }

  predicate Automatic(m: Moment) { m.run.Some? && m.run.value.automatic }

  /** The runs dispatched at these moments. */
  function Dispatches(history: seq<Moment>): seq<Dispatch> {
    if history == [] then []
    else
      var last := history[|history| - 1];
      Dispatches(history[..|history| - 1]) + (if last.run.Some? && last.kept then [last.run.value] else [])
  }

  lemma DispatchesGrow(history: seq<Moment>, m: Moment)
    ensures Dispatches(history + [m]) == Dispatches(history) + (if m.run.Some? && m.kept then [m.run.value] else [])
  {
    assert (history + [m])[..|history|] == history;
  }

  /** Nothing that took effect happened to the schedule between the two. */
  predicate Quiet(history: seq<Moment>, id: Id, i: int, j: int) {
    forall k | 0 <= k < |history| && i < k < j && history[k].id == id :: !history[k].kept
  }

  /** What the job says comes next was computed at that moment, the last that took effect.
      A lost claim leaves its schedule paused. */
  ghost predicate Basis(next: Next, job: Job, id: Id, history: seq<Moment>, i: nat) {
    && i < |history| && history[i].id == id && history[i].plan == job.plan
    && next(job.plan, history[i].at) == Some(job.nextRun)
    && (Lost(history[i]) ==> job.paused)
    && Quiet(history, id, i, |history|)
  }

  ghost predicate Based(next: Next, jobs: map<Id, Job>, history: seq<Moment>) {
    forall id <- jobs :: exists i: nat :: Basis(next, jobs[id], id, history, i)
  }

  /** The automatic run claimed at the later moment is for the occurrence that was
      computed at the earlier one, and nothing took effect in between. */
  ghost predicate Answers(next: Next, history: seq<Moment>, i: nat, j: nat) {
    && i < j < |history| && Automatic(history[j])
    && history[i].id == history[j].id && history[i].plan == history[j].plan && !Lost(history[i])
    && next(history[i].plan, history[i].at) == Some(history[j].run.value.occurrence)
    && history[j].run.value.occurrence <= history[j].at
    && Quiet(history, history[j].id, i, j)
  }

  ghost predicate AllAnswered(next: Next, history: seq<Moment>) {
    forall j: nat | j < |history| && Automatic(history[j]) :: exists i: nat :: Answers(next, history, i, j)
  }

  /** What the scheduler keeps: in memory and in the file a new process would read. */
  ghost predicate Timed(next: Next, jobs: map<Id, Job>, stored: map<Id, Job>, history: seq<Moment>) {
    Based(next, jobs, history) && Based(next, ReconciledAll(stored), history) && AllAnswered(next, history)
  }

  // ------------------------------------------------------------------
  // Every step keeps it
  // ------------------------------------------------------------------

  lemma BasisStays(next: Next, job: Job, id: Id, history: seq<Moment>, i: nat, m: Moment)
    requires Basis(next, job, id, history, i) && (m.id != id || !m.kept)
    ensures Basis(next, job, id, history + [m], i)
  {
  }

  lemma BasisOfLike(next: Next, job: Job, other: Job, id: Id, history: seq<Moment>, i: nat)
    requires Basis(next, job, id, history, i)
    requires other.plan == job.plan && other.nextRun == job.nextRun && (job.paused ==> other.paused)
    ensures Basis(next, other, id, history, i)
  {
  }

  lemma AnswersStay(next: Next, history: seq<Moment>, m: Moment, i: nat, j: nat)
    requires Answers(next, history, i, j)
    ensures Answers(next, history + [m], i, j)
  {
  }

  /** Reading a file back pauses schedules and changes nothing else that matters here. */
  lemma ReconciledIsBased(next: Next, jobs: map<Id, Job>, history: seq<Moment>)
    requires Based(next, jobs, history)
    ensures Based(next, ReconciledAll(jobs), history)
  {
    hide Basis;
    forall id | id in jobs
      ensures exists i: nat :: Basis(next, ReconciledAll(jobs)[id], id, history, i)
    {
      var i: nat :| Basis(next, jobs[id], id, history, i);
      BasisOfLike(next, jobs[id], ReconciledAll(jobs)[id], id, history, i);
    }
  }

  /** The job was computed at this moment. */
  predicate Computed(next: Next, job: Job, m: Moment) {
    m.plan == job.plan && next(m.plan, m.at) == Some(job.nextRun)
  }

  lemma BasedAfter(next: Next, jobs: map<Id, Job>, history: seq<Moment>, m: Moment, job: Job)
    requires Based(next, jobs, history) && Computed(next, job, m)
    ensures !m.kept ==> Based(next, jobs, history + [m])
    ensures !Lost(m) || job.paused ==> Based(next, jobs[m.id := job], history + [m])
    ensures Lost(m) && HasRunning(job) ==> Based(next, ReconciledAll(jobs[m.id := job]), history + [m])
  {
    hide HasRunning;
    var after := history + [m];
    forall id | id in jobs && (id != m.id || !m.kept)
      ensures exists i: nat :: Basis(next, jobs[id], id, after, i)
      ensures exists i: nat :: Basis(next, Reconciled(jobs[id]), id, after, i)
    {
      var i: nat :| Basis(next, jobs[id], id, history, i);
      BasisStays(next, jobs[id], id, history, i, m);
      BasisOfLike(next, jobs[id], Reconciled(jobs[id]), id, after, i);
    }
    assert after[|history|] == m;
    if !Lost(m) || job.paused {
      assert Basis(next, job, m.id, after, |history|);
    }
    if Lost(m) && HasRunning(job) {
      assert Basis(next, Reconciled(job), m.id, after, |history|);
    }
  }

  /** The claim of an automatic run answers the moment its job was computed at. */
  lemma ClaimAnswers(next: Next, jobs: map<Id, Job>, history: seq<Moment>, m: Moment)
    requires Based(next, jobs, history) && AllAnswered(next, history)
    requires Automatic(m) ==>
               && m.id in jobs && !jobs[m.id].paused && m.plan == jobs[m.id].plan
               && m.run.value.occurrence == jobs[m.id].nextRun <= m.at
    ensures AllAnswered(next, history + [m])
  {
    var after := history + [m];
    forall j: nat | j < |after| && Automatic(after[j])
      ensures exists i: nat :: Answers(next, after, i, j)
    {
      if j < |history| {
        var i: nat :| Answers(next, history, i, j);
        AnswersStay(next, history, m, i, j);
      } else {
        var i: nat :| Basis(next, jobs[m.id], m.id, history, i);
        assert Answers(next, after, i, j);
      }
    }
  }

  /** A job computed now is written: it is in both places, or its write failed late. */
  lemma {:induction false} ComputingKeepsTimed(next: Next, jobs: map<Id, Job>, stored: map<Id, Job>, history: seq<Moment>, m: Moment, job: Job)
    requires Timed(next, jobs, stored, history) && Computed(next, job, m)
    requires Automatic(m) ==>
               && m.id in jobs && !jobs[m.id].paused && m.plan == jobs[m.id].plan
               && m.run.value.occurrence == jobs[m.id].nextRun <= m.at
    requires Lost(m) ==> HasRunning(job)
    ensures m.kept ==> Timed(next, jobs[m.id := job], jobs[m.id := job], history + [m])
    ensures !m.kept ==> Timed(next, jobs, jobs[m.id := job], history + [m])
  {
    hide Based, AllAnswered, HasRunning;
    ClaimAnswers(next, jobs, history, m);
    BasedAfter(next, jobs, history, m, job);
    if !Lost(m) {
      ReconciledIsBased(next, jobs[m.id := job], history + [m]);
    }
  }

  /** A job written again with the same times. */
  lemma {:induction false} RewritingKeepsTimed(next: Next, jobs: map<Id, Job>, stored: map<Id, Job>, history: seq<Moment>, id: Id, job: Job)
    requires Timed(next, jobs, stored, history) && id in jobs
    requires job.plan == jobs[id].plan && job.nextRun == jobs[id].nextRun && job.paused == jobs[id].paused
    ensures Timed(next, jobs[id := job], jobs[id := job], history)
    ensures Timed(next, jobs, jobs[id := job], history)
  {
    hide AllAnswered, Basis;
    var i: nat :| Basis(next, jobs[id], id, history, i);
    BasisOfLike(next, jobs[id], job, id, history, i);
    ReconciledIsBased(next, jobs[id := job], history);
  }

  lemma DeletingKeepsTimed(next: Next, jobs: map<Id, Job>, stored: map<Id, Job>, history: seq<Moment>, id: Id)
    requires Timed(next, jobs, stored, history)
    ensures Timed(next, jobs - {id}, jobs - {id}, history) && Timed(next, jobs, jobs - {id}, history)
    ensures Timed(next, jobs, jobs, history)
  {
    hide AllAnswered, Basis, Reconciled;
    ReconciledIsBased(next, jobs, history);
    forall other | other in jobs - {id}
      ensures exists i: nat :: Basis(next, (jobs - {id})[other], other, history, i)
    {
      var i: nat :| Basis(next, jobs[other], other, history, i);
      assert Basis(next, (jobs - {id})[other], other, history, i);
    }
    ReconciledIsBased(next, jobs - {id}, history);
  }

  lemma RestartKeepsTimed(next: Next, jobs: map<Id, Job>, stored: map<Id, Job>, history: seq<Moment>)
    requires Timed(next, jobs, stored, history)
    ensures Timed(next, ReconciledAll(stored), stored, history)
    ensures Timed(next, ReconciledAll(stored), ReconciledAll(stored), history)
  {
    hide AllAnswered, Basis, Reconciled;
    ReconciledIsBased(next, ReconciledAll(stored), history);
  }

  // ------------------------------------------------------------------
  // What it means
  // ------------------------------------------------------------------

  /** The library gives the first occurrence after a time: later times before it give the
      same one, and where it finds none, later times find none either. */
  ghost predicate FirstAfter(next: Next) {
    && (forall plan, t: Time :: next(plan, t).Some? ==> next(plan, t).value > t)
    && (forall plan, t: Time, u: Time | next(plan, t).Some? && t <= u < next(plan, t).value :: next(plan, u) == next(plan, t))
    && (forall plan, t: Time, u: Time | t <= u && next(plan, u).Some? :: next(plan, t).Some?)
  }

  ghost predicate Occurs(next: Next, plan: Plan, u: Time) {
    exists t: Time :: next(plan, t) == Some(u)
  }

  lemma DispatchedOccurs(next: Next, history: seq<Moment>, i: nat, j: nat)
    requires FirstAfter(next) && Answers(next, history, i, j)
    ensures Occurs(next, history[j].plan, history[j].run.value.occurrence)
    ensures history[i].at < history[j].run.value.occurrence <= history[j].at
  {
  }

  /** No occurrence of a schedule is skipped: those after the moment its next run was
      computed at are the dispatched one or later. */
  lemma NothingBetween(next: Next, history: seq<Moment>, i: nat, j: nat, u: Time)
    requires FirstAfter(next) && Answers(next, history, i, j)
    requires Occurs(next, history[j].plan, u) && u > history[i].at
    ensures history[j].run.value.occurrence <= u
  {
    var t: Time :| next(history[j].plan, t) == Some(u);
  }

  /** After an automatic run the next one is for the very next occurrence if and only if
      that had not come yet when the run was claimed; otherwise one run stands for all
      occurrences that had. */
  lemma {:induction false} NextOneFollows(next: Next, history: seq<Moment>, i: nat, j: nat)
    requires FirstAfter(next) && Answers(next, history, i, j)
    requires Automatic(history[i]) && history[i].run.value.occurrence <= history[i].at
    ensures var following := next(history[i].plan, history[i].run.value.occurrence);
            && following.Some?
            && (history[j].run.value.occurrence == following.value <==> history[i].at < following.value)
  {
  }
}
