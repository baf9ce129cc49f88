/** The scheduler: claims a run in its file before dispatching it, keeps what it cannot
    save for later, and reconciles after a restart. */
module ScheduleController {
  import opened Base
  import opened ScheduleModel
  import opened ScheduleHistory

  /** Where the scheduler's state stands, for the parts that every step keeps. */
  ghost predicate Consistent(jobs: map<Id, Job>, stored: map<Id, Job>, running: map<Id, Run>, pending: map<Id, Run>) {
    && |running| <= MAX_RUNNING && pending.Keys <= running.Keys
    && (forall id <- pending :: pending[id].id == running[id].id && pending[id].status != Running)
    && RecordsMatch(jobs, running) && Sized(jobs)
    && Records(stored, running) && Sized(stored)
  }

  ghost predicate Punctual(jobs: map<Id, Job>, stored: map<Id, Job>, dispatched: seq<Dispatch>, clock: Time) {
    Increasing(dispatched) && Past(dispatched, clock) && Ahead(jobs, dispatched) && Ahead(stored, dispatched)
  }

  ghost predicate Remembering(operations: seq<Operation>, disk: Disk) {
    && |operations| <= MAX_OPERATIONS && |disk.operations| <= MAX_OPERATIONS
    && DistinctKeys(operations) && DistinctKeys(disk.operations)
  }

  predicate Unremembered(operations: seq<Operation>, operation: Option<Operation>) {
    operation.Some? ==> forall o <- operations :: o.key != operation.value.key
  }

  /** The remembered mutations once the one being handled is among them. */
  function Extended(operations: seq<Operation>, operation: Option<Operation>, reply: Reply): seq<Operation> {
    if operation.Some? then Remember(operations, operation.value.(reply := reply)) else operations
  }

  lemma ExtendingKeepsRemembering(operations: seq<Operation>, disk: Disk, operation: Option<Operation>, reply: Reply,
          jobs: map<Id, Job>)
    requires Remembering(operations, disk) && Unremembered(operations, operation)
    ensures Remembering(Extended(operations, operation, reply), Disk(jobs, Extended(operations, operation, reply)))
    ensures Remembering(operations, Disk(jobs, Extended(operations, operation, reply)))
    ensures Remembering(Extended(operations, operation, reply), disk)
  {
    if operation.Some? {
      RememberKeepsDistinct(operations, operation.value.(reply := reply));
    }
  }

  /** One job written over another, in memory and perhaps in the file. */
  lemma WritingKeepsConsistent(jobs: map<Id, Job>, stored: map<Id, Job>, running: map<Id, Run>, pending: map<Id,
          Run>, id: Id, job: Job)
    requires Consistent(jobs, stored, running, pending)
    requires RecordMatches(job, Under(running, id)) && |job.runs| <= MAX_RUNS && |jobs[id := job]| <= MAX_JOBS
    ensures Consistent(jobs[id := job], jobs[id := job], running, pending)
    ensures Consistent(jobs, jobs[id := job], running, pending)
  {
    hide RecordMatches, Records;
    MatchedIsRecorded(jobs[id := job], running);
  }

  lemma MatchedIsRecorded(jobs: map<Id, Job>, running: map<Id, Run>)
    requires RecordsMatch(jobs, running)
    ensures Records(jobs, running)
  {
    hide RecordMatches, HasRun;
    forall id | id in running
      ensures HasRun(jobs[id], running[id].id)
    {
      assert RecordMatches(jobs[id], Under(running, id));
      MatchedHasRun(jobs[id], running[id]);
    }
  }

  /** The run heads the history, which keeps the newest records up to its limit; nothing
      else of the job changes but its next occurrence. */
  predicate OneMoreRun(before: Job, after: Job, run: Run) {
    && after == before.(nextRun := after.nextRun, runs := after.runs)
    && |after.runs| == (if |before.runs| < MAX_RUNS then |before.runs| + 1 else MAX_RUNS)
    && after.runs[0] == run && (forall k :: 1 <= k < |after.runs| ==> after.runs[k] == before.runs[k - 1])
  }

  lemma ClaimedChangesTimes(job: Job, run: Run, following: Time)
    ensures OneMoreRun(job, Claimed(job, run, following), run) && Claimed(job, run, following).nextRun == following
    ensures Claimed(job, run, following).plan == job.plan
  {
  }

  /** A claim is computed at its moment, and while it is only in the file a new process
      finds its run unfinished. */
  lemma ClaimKeepsTimed(next: Next, jobs: map<Id, Job>, stored: map<Id, Job>, history: seq<Moment>, m: Moment, run: Run, following: Time)
    requires Timed(next, jobs, stored, history) && m.id in jobs && m.run.Some? && m.plan == jobs[m.id].plan
    requires next(m.plan, m.at) == Some(following) && run.status == Running
    requires Automatic(m) ==> !jobs[m.id].paused && m.run.value.occurrence == jobs[m.id].nextRun <= m.at
    ensures var job := Claimed(jobs[m.id], run, following);
            && (m.kept ==> Timed(next, jobs[m.id := job], jobs[m.id := job], history + [m]))
            && (!m.kept ==> Timed(next, jobs, jobs[m.id := job], history + [m]))
  {
    hide Timed;
    ClaimedHasTheRun(jobs[m.id], run, following);
    ComputingKeepsTimed(next, jobs, stored, history, m, Claimed(jobs[m.id], run, following));
  }

  lemma SizedAt(jobs: map<Id, Job>, id: Id)
    requires Sized(jobs) && id in jobs
    ensures |jobs[id].runs| <= MAX_RUNS
  {
  }

  lemma PutKeepsSized(jobs: map<Id, Job>, id: Id, job: Job)
    requires Sized(jobs) && id in jobs && |job.runs| <= MAX_RUNS
    ensures Sized(jobs[id := job])
  {
    assert jobs[id := job].Keys == jobs.Keys;
  }

  lemma MatchedHasRun(job: Job, run: Run)
    requires RecordMatches(job, Some(run))
    ensures HasRun(job, run.id)
  {
    var r :| r in job.runs && r.status == Running && r.id == run.id;
  }

  /** What can happen to the scheduler: a tick, the steps of a run, a request, and the end
      of the process or the start of the next one. */
  datatype Command =
    | TickAt(now: Time, save: Id -> Outcome, names: Id -> string)
    | EndRun(id: Id, status: Status, at: Time, outcome: Outcome)
    | AdmitRun(id: Id, session: string, outcome: Outcome)
    | Mutate(key: string, fingerprint: string, project: string, id: Id, action: Action, now: Time, freshId: Id,
             name: string, outcome: Outcome)
    | ShutDown
    | NewProcess(readable: bool, outcome: Outcome)

  function After(c: Command, clock: Time): Time {
    if c.TickAt? || c.Mutate? then c.now else clock
  }

  /** The clock does not go back. */
  predicate Timely(commands: seq<Command>, clock: Time) {
    commands != [] ==> clock <= After(commands[0], clock) && Timely(commands[1..], After(commands[0], clock))
  }

  /** No two automatic dispatches of one schedule are for the same occurrence. */
  ghost predicate NeverTwice(dispatched: seq<Dispatch>) {
    forall i, j | 0 <= i < j < |dispatched| && SameSchedule(dispatched[i], dispatched[j]) ::
      dispatched[i].occurrence != dispatched[j].occurrence
  }

  /** These runs are automatic, of schedules that are due, and their claims were saved. */
  ghost predicate StartedFor(started: seq<Dispatch>, jobs: map<Id, Job>, due: set<Id>, save: Id -> Outcome, names: Id -> string) {
    forall d <- started ::
      && d.id in due && d.id in jobs && save(d.id).Saved?
      && d == Dispatch(d.id, names(d.id), true, jobs[d.id].nextRun)
  }

  lemma NothingStarted(jobs: map<Id, Job>, save: Id -> Outcome, names: Id -> string)
    ensures forall due :: StartedFor([], jobs, due, save, names)
  {
  }

  lemma OneMoreStarted(started: seq<Dispatch>, jobs: map<Id, Job>, due: set<Id>, save: Id -> Outcome, names: Id -> string, id: Id)
    requires StartedFor(started, jobs, due, save, names) && id in due && id in jobs && save(id).Saved?
    ensures StartedFor(started + [Dispatch(id, names(id), true, jobs[id].nextRun)], jobs, due, save, names)
  {
  }

  lemma EachWasStarted(started: seq<Dispatch>, jobs: map<Id, Job>, due: set<Id>, save: Id -> Outcome, names: Id -> string)
    requires StartedFor(started, jobs, due, save, names)
    ensures forall i :: 0 <= i < |started| ==>
              && started[i].id in due && started[i].id in jobs && save(started[i].id).Saved?
              && started[i] == Dispatch(started[i].id, names(started[i].id), true, jobs[started[i].id].nextRun)
  {
  }

  /** The same jobs, up to the records of their runs. */
  predicate SameTimes(jobs: map<Id, Job>, next: map<Id, Job>) {
    next.Keys == jobs.Keys && forall id <- jobs :: next[id] == jobs[id].(runs := next[id].runs)
  }

  class Schedules {
    var jobs: map<Id, Job>
    var operations: seq<Operation>
    // The mutation being handled, if it has an identity.
    var operation: Option<Operation>
    var failures: map<Id, Time>
    var running: map<Id, Run>
    var pending: map<Id, Run>
    var closed: bool
    var disk: Disk
    const next: (Plan, Time) -> Option<Time>
    ghost var dispatched: seq<Dispatch>
    ghost var history: seq<Moment>
    ghost var clock: Time

    constructor (next: (Plan, Time) -> Option<Time>)
      requires forall plan, t :: next(plan, t).Some? ==> next(plan, t).value > t
      ensures Valid() && operation.None? && jobs == map[] && operations == [] && disk == Disk(map[], [])
      ensures this.next == next && dispatched == [] && clock == 0
      ensures running == map[] && pending == map[] && failures == map[] && !closed
    {
      jobs, operations, operation, failures, running, pending, closed := map[], [], None, map[], map[], map[], false;
      disk := Disk(map[], []);
      this.next := next;
      dispatched, history, clock := [], [], 0;
    }

    /** The cron library's promise. */
    ghost predicate NextIsLater()
      reads {}
    {
      forall plan, t :: next(plan, t).Some? ==> next(plan, t).value > t
    }

    ghost predicate Valid()
      reads this
    {
      && NextIsLater()
      && Consistent(jobs, disk.jobs, running, pending)
      && Punctual(jobs, disk.jobs, dispatched, clock)
      && Remembering(operations, disk)
      && Timed(next, jobs, disk.jobs, history) && dispatched == Dispatches(history)
    }

    /** Writes the whole file, the mutation being handled among the remembered ones. */
    method Write(reply: Reply, outcome: Outcome) returns (ok: bool)
      requires Remembering(operations, disk) && Unremembered(operations, operation)
      modifies this`disk, this`operations
      ensures ok <==> |jobs| <= MAX_JOBS && outcome.Saved?
      ensures operations == if ok then Extended(old(operations), operation, reply) else old(operations)
      ensures disk == if |jobs| > MAX_JOBS then old(disk) else Landed(old(disk), Disk(jobs, Extended(old(operations), operation, reply)), outcome)
      ensures Remembering(operations, disk)
    {
      if |jobs| > MAX_JOBS {
        return false;
      }
      ExtendingKeepsRemembering(operations, disk, operation, reply, jobs);
      var all := operations;
      if operation.Some? {
        all := Remember(operations, operation.value.(reply := reply));
      }
      disk := Landed(disk, Disk(jobs, all), outcome);
      ok := outcome.Saved?;
      if ok {
        operations := all;
      }
    }

    /** Saves one job; a failed write takes it back out of memory. */
    method Save(id: Id, job: Job, reply: Reply, outcome: Outcome) returns (ok: bool)
      requires Remembering(operations, disk) && Unremembered(operations, operation)
      modifies this`jobs, this`disk, this`operations
      ensures ok <==> |old(jobs)[id := job]| <= MAX_JOBS && outcome.Saved?
      ensures jobs == if ok then old(jobs)[id := job] else old(jobs)
      ensures operations == if ok then Extended(old(operations), operation, reply) else old(operations)
      ensures disk ==
              if |old(jobs)[id := job]| > MAX_JOBS then old(disk)
              else Landed(old(disk), Disk(old(jobs)[id := job], Extended(old(operations), operation, reply)), outcome)
      ensures ok ==> disk == Disk(jobs, operations)
      ensures Remembering(operations, disk)
    {
      hide Remembering, Unremembered, Extended;
      var previous := jobs;
      jobs := jobs[id := job];
      ok := Write(reply, outcome);
      if !ok {
        jobs := if id in previous then jobs[id := previous[id]] else jobs - {id};
        assert jobs == previous;
      }
    }

    /** Claims the next run in the file and then dispatches it. */
    method StartLocked(id: Id, now: Time, run: Run, automatic: bool, outcome: Outcome) returns (ok: bool)
      requires Valid() && Unremembered(operations, operation) && now >= clock && run.status == Running
      requires automatic ==> id in jobs && jobs[id].nextRun <= now && !jobs[id].paused
      modifies this`jobs, this`disk, this`operations, this`running, this`dispatched, this`history, this`clock
      ensures Valid() && clock == now
      ensures ok ==>
              && !closed && |old(running)| < MAX_RUNNING && id !in old(running) && id in old(jobs)
              && running == old(running)[id := run]
              && dispatched == old(dispatched) + [Dispatch(id, run.id, automatic, if automatic then old(jobs)[id].nextRun else now)]
              && jobs.Keys == old(jobs).Keys && jobs == old(jobs)[id := jobs[id]]
              && next(old(jobs)[id].plan, now) == Some(jobs[id].nextRun) && jobs[id].nextRun > now
              && OneMoreRun(old(jobs)[id], jobs[id], run)
              && disk == Disk(jobs, operations)
              && operations == Extended(old(operations), operation, Acknowledged)
      ensures !ok ==> dispatched == old(dispatched) && running == old(running) && jobs == old(jobs) && operations == old(operations)
      ensures old(history) <= history
      ensures var free := !closed && |old(running)| < MAX_RUNNING && id !in old(running) && id in old(jobs);
              ok <==> free && next(old(jobs)[id].plan, now).Some? && outcome.Saved?
    {
      hide Consistent, Punctual, Timed, Dispatches, Remembering, Unremembered, Extended, RecordMatches, Claimed, OneMoreRun;
      ClockAdvances(jobs, disk.jobs, dispatched, clock, now);
      clock := now;
      SizeOf(jobs, disk.jobs, running, pending);
      if closed || |running| >= MAX_RUNNING || id in running || id !in jobs {
        return false;
      }
      var following := next(jobs[id].plan, now);
      if following.None? {
        return false;
      }
      var job := Claimed(jobs[id], run, following.value);
      assert jobs[id := job].Keys == jobs.Keys;
      var d := Dispatch(id, run.id, automatic, if automatic then jobs[id].nextRun else now);
      ghost var claim := Moment(id, jobs[id].plan, now, Some(d), outcome.Saved?);
      ClaimedChangesTimes(jobs[id], run, following.value);
      ClaimKeepsConsistent(jobs, disk.jobs, running, pending, id, run, following.value);
      ClaimKeepsPunctual(jobs, disk.jobs, dispatched, d, job, now);
      ClaimKeepsTimed(next, jobs, disk.jobs, history, claim, run, following.value);
      DispatchesGrow(history, claim);
      var saved := Save(id, job, Acknowledged, outcome);
      if !outcome.FailedBefore? {
        history := history + [claim];
      }
      if !saved {
        return false;
      }
      running := running[id := run];
      dispatched := dispatched + [d];
      return true;
    }

    /** Records the session a run was given, before its prompt is sent. */
    method Admit(id: Id, session: string, outcome: Outcome) returns (ok: bool)
      requires Valid() && operation.None? && id in running && id !in pending && running[id].status == Running
      modifies this
      ensures Valid() && operation.None? && dispatched == old(dispatched) && clock == old(clock)
      ensures ok ==> running == old(running)[id := old(running)[id].(session := session)] && disk == Disk(jobs, operations)
      ensures !ok ==> running == old(running) && jobs == old(jobs)
    {
      hide Consistent, Punctual, Timed, Dispatches, Remembering, Extended;
      SizeOf(jobs, disk.jobs, running, pending);
      var run := running[id].(session := session);
      var job := WithRun(jobs[id], run);
      assert jobs[id := job].Keys == jobs.Keys;
      AdmitKeepsConsistent(jobs, disk.jobs, running, pending, id, run);
      RewritingKeepsPunctual(jobs, disk.jobs, dispatched, id, job, clock);
      RewritingKeepsTimed(next, jobs, disk.jobs, history, id, job);
      ok := Save(id, job, Acknowledged, outcome);
      if ok {
        running := running[id := run];
      }
    }

    method FinishLocked(id: Id, run: Run, outcome: Outcome) returns (ok: bool)
      requires Valid() && operation.None? && id in running && run.id == running[id].id && run.status != Running
      modifies this
      ensures Valid() && operation.None? && dispatched == old(dispatched) && clock == old(clock) && closed == old(closed)
      ensures ok == outcome.Saved? && failures == old(failures)
      ensures id in old(jobs)
      ensures ok ==> running == old(running) - {id} && pending == old(pending) - {id} && jobs == old(jobs)[id := WithRun(old(jobs)[id], run)]
      ensures !ok ==> running == old(running) && pending == old(pending) && jobs == old(jobs)
    {
      hide Consistent, Punctual, Timed, Dispatches, Remembering, Extended;
      SizeOf(jobs, disk.jobs, running, pending);
      var job := WithRun(jobs[id], run);
      assert jobs[id := job].Keys == jobs.Keys;
      FinishKeepsConsistent(jobs, disk.jobs, running, pending, id, run);
      RewritingKeepsPunctual(jobs, disk.jobs, dispatched, id, job, clock);
      RewritingKeepsTimed(next, jobs, disk.jobs, history, id, job);
      ok := Save(id, job, Acknowledged, outcome);
      if ok {
        running := running - {id};
        pending := pending - {id};
      }
    }

    method Failed(id: Id, now: Time, ok: bool)
      modifies this`failures
      ensures failures == if ok then old(failures) - {id} else old(failures)[id := now + 30]
    {
      failures := if ok then failures - {id} else failures[id := now + 30];
    }

    /** A run ended. A record that cannot be saved stays pending, and the schedule counts
        as running until it can. */
    method RunEnds(id: Id, status: Status, now: Time, outcome: Outcome)
      requires Valid() && operation.None? && id in running && id !in pending && status != Running
      modifies this
      ensures Valid() && operation.None? && dispatched == old(dispatched) && clock == old(clock)
      ensures closed == old(closed)
      ensures outcome.Saved? ==>
              && running == old(running) - {id} && pending == old(pending)
              && id in old(jobs) && jobs == old(jobs)[id := WithRun(old(jobs)[id], old(running)[id].(status := status))]
      ensures !outcome.Saved? ==>
              running == old(running) && jobs == old(jobs) && pending == old(pending)[id := old(running)[id].(status := status)]
      ensures failures == if outcome.Saved? then old(failures) else old(failures)[id := now + 30]
    {
      hide Consistent, Punctual, Timed, Dispatches, Remembering;
      var run := running[id].(status := status);
      var ok := FinishLocked(id, run, outcome);
      if !ok {
        PendingKeepsConsistent(jobs, disk.jobs, running, pending, id, run);
        pending := pending[id := run];
        Failed(id, now, false);
      }
    }

    predicate Rested(id: Id, now: Time)
      reads this
    {
      id !in failures || now >= failures[id]
    }

    /** A schedule whose time has come, that does not run and is not waiting after a failure. */
    predicate Due(id: Id, now: Time)
      reads this
    {
      id in jobs && !jobs[id].paused && jobs[id].nextRun <= now && id !in running && Rested(id, now) && next(jobs[id].plan, now).Some?
    }

    /** One waiting record of a tick. */
    method FinishIfRested(id: Id, now: Time, outcome: Outcome)
      requires Valid() && operation.None? && !closed && id in pending
      modifies this
      ensures Valid() && operation.None? && !closed && clock == old(clock) && dispatched == old(dispatched)
      ensures forall other | other != id :: Due(other, now) == old(Due(other, now))
      ensures forall other | other != id ::
                (other in pending <==> other in old(pending)) && Rested(other, now) == old(Rested(other, now))
                && (other in running <==> other in old(running))
      ensures if old(Rested(id, now)) && outcome.Saved? then id !in running && id !in pending else id in pending
      ensures SameTimes(old(jobs), jobs)
      ensures var rested := id !in old(failures) || now >= old(failures)[id];
              failures == if !rested then old(failures) else if outcome.Saved? then old(failures) - {id} else old(failures)[id := now + 30]
      ensures id in old(failures) && now < old(failures)[id] ==>
                jobs == old(jobs) && running == old(running) && pending == old(pending) && disk == old(disk)
    {
      hide Consistent, Punctual, Timed, Dispatches, Remembering;
      if Rested(id, now) {
        PendingIsFinished(jobs, disk.jobs, running, pending, id);
        SizeOf(jobs, disk.jobs, running, pending);
        var ok := FinishLocked(id, pending[id], outcome);
        Failed(id, now, ok);
      }
    }

    /** Tries again to save the records of ended runs. */
    method FinishWaiting(now: Time, save: Id -> Outcome)
      requires Valid() && operation.None? && !closed
      modifies this
      ensures Valid() && operation.None? && clock == old(clock) && dispatched == old(dispatched) && !closed
      ensures forall id <- old(pending) | old(Rested(id, now)) && save(id).Saved? :: id !in running && id !in pending
      ensures forall id <- old(pending) | !old(Rested(id, now)) || !save(id).Saved? :: id in pending
      ensures forall id | id !in old(pending) :: Due(id, now) == old(Due(id, now))
      ensures SameTimes(old(jobs), jobs)
    {
      hide Valid, Due, Rested;
      var waiting := pending.Keys;
      while waiting != {}
        invariant Valid() && operation.None? && clock == old(clock) && dispatched == old(dispatched) && waiting <= pending.Keys && !closed
        invariant waiting <= old(pending).Keys
        invariant forall id <- waiting :: Rested(id, now) == old(Rested(id, now))
        invariant forall id <- old(pending).Keys - waiting | old(Rested(id, now)) && save(id).Saved? :: id !in running && id !in pending
        invariant forall id <- old(pending).Keys - waiting | !old(Rested(id, now)) || !save(id).Saved? :: id in pending
        invariant forall id | id !in old(pending) :: Due(id, now) == old(Due(id, now))
        invariant SameTimes(old(jobs), jobs)
        decreases |waiting|
      {
        var id: Id :| id in waiting;
        FinishIfRested(id, now, save(id));
        waiting := waiting - {id};
      }
    }

    /** One schedule of a tick. */
    method StartIfDue(id: Id, now: Time, outcome: Outcome, name: string)
      requires Valid() && operation.None? && now >= clock && !closed && id in jobs && |running| < MAX_RUNNING
      modifies this
      ensures Valid() && operation.None? && !closed && clock <= now && pending == old(pending)
      ensures jobs.Keys == old(jobs).Keys && forall other <- jobs | other != id :: jobs[other] == old(jobs)[other]
      ensures forall other | other != id ::
                Due(other, now) == old(Due(other, now)) && (other in running <==> other in old(running))
      ensures dispatched == old(dispatched)
              || (old(Due(id, now)) && outcome.Saved? && dispatched == old(dispatched) + [Dispatch(id, name, true, old(jobs)[id].nextRun)])
      ensures old(running).Keys <= running.Keys
      ensures old(Due(id, now)) && outcome.Saved? ==> id in running
      ensures var rested := id !in old(failures) || now >= old(failures)[id];
              var tried := !old(jobs)[id].paused && old(jobs)[id].nextRun <= now && id !in old(running) && rested;
              failures == if !tried then old(failures) else if id in running then old(failures) - {id} else old(failures)[id := now + 30]
    {
      hide Consistent, Punctual, Timed, Dispatches, Remembering, Extended;
      if !jobs[id].paused && jobs[id].nextRun <= now && id !in running && Rested(id, now) {
        var ok := StartLocked(id, now, Run(name, "", now, Running), true, outcome);
        Failed(id, now, ok);
      }
    }

    /** Starts the schedules that are due while fewer than eight run. */
    method StartDue(now: Time, save: Id -> Outcome, names: Id -> string)
      requires Valid() && operation.None? && now >= clock && !closed
      modifies this
      ensures Valid() && operation.None? && old(dispatched) <= dispatched && clock <= now
      ensures forall i :: |old(dispatched)| <= i < |dispatched| ==>
                var d := dispatched[i];
                old(Due(d.id, now)) && save(d.id).Saved? && d == Dispatch(d.id, names(d.id), true, old(jobs)[d.id].nextRun)
      ensures |running| < MAX_RUNNING ==> forall id <- old(jobs) | old(Due(id, now)) && save(id).Saved? :: id in running
      ensures pending == old(pending) && jobs.Keys == old(jobs).Keys
    {
      hide Valid, Due, StartedFor;
      ghost var started: seq<Dispatch> := [];
      NothingStarted(jobs, save, names);
      ghost var due := set id | id in jobs && Due(id, now);
      var rest := jobs.Keys;
      while rest != {} && |running| < MAX_RUNNING
        invariant Valid() && operation.None? && clock <= now && rest <= jobs.Keys && !closed
        invariant dispatched == old(dispatched) + started && StartedFor(started, old(jobs), due, save, names)
        invariant forall id <- rest :: id in old(jobs) && jobs[id] == old(jobs)[id]
        invariant jobs.Keys == old(jobs).Keys && pending == old(pending)
        invariant forall id <- rest :: Due(id, now) == (id in due)
        invariant forall id <- due - rest | save(id).Saved? :: id in running
        decreases |rest|
      {
        var id: Id :| id in rest;
        ghost var before := dispatched;
        StartIfDue(id, now, save(id), names(id));
        if dispatched != before {
          OneMoreStarted(started, old(jobs), due, save, names, id);
          started := started + [Dispatch(id, names(id), true, old(jobs)[id].nextRun)];
        }
        rest := rest - {id};
      }
      EachWasStarted(started, old(jobs), due, save, names);
    }

    /** Every second: first the records that could not be saved, then what is due, while
        fewer than eight run. */
    method Tick(now: Time, save: Id -> Outcome, names: Id -> string)
      requires Valid() && operation.None? && now >= clock
      modifies this
      ensures Valid() && operation.None? && old(dispatched) <= dispatched && clock <= now
      ensures forall i :: |old(dispatched)| <= i < |dispatched| ==>
                var d := dispatched[i];
                && d.id in old(jobs) && !old(jobs)[d.id].paused && (d.id !in old(pending) ==> old(Due(d.id, now)))
                && save(d.id).Saved? && d == Dispatch(d.id, names(d.id), true, old(jobs)[d.id].nextRun) && d.occurrence <= now
      ensures old(closed) ==> dispatched == old(dispatched) && pending == old(pending)
      ensures !old(closed) ==> forall id <- old(pending) | old(Rested(id, now)) && save(id).Saved? :: id !in pending
      ensures !old(closed) && |running| < MAX_RUNNING ==>
              forall id | id !in old(pending) && old(Due(id, now)) && save(id).Saved? :: id in running
    {
      hide Valid, Rested;
      if !closed {
        FinishWaiting(now, save);
        StartDue(now, save, names);
      }
    }

    method Close()
      requires Valid()
      modifies this`closed
      ensures Valid() && closed
    {
      closed := true;
    }

    /** A new process reads the file. Claimed runs that did not finish are interrupted and
        their schedules paused; a process that cannot write that down does not start. */
    method Restart(readable: bool, outcome: Outcome) returns (ok: bool)
      requires Valid()
      modifies this
      ensures Valid() && operation.None? && running == map[] && pending == map[]
      ensures dispatched == old(dispatched) && clock == old(clock) && closed == !ok && failures == map[]
      ensures jobs == ReconciledAll(old(disk).jobs) && operations == old(disk).operations
      ensures forall id <- jobs :: !HasRunning(jobs[id])
      ensures jobs.Keys == old(disk).jobs.Keys && forall id <- jobs :: Interrupts(old(disk).jobs[id], jobs[id])
      ensures ok ==> readable && disk == Disk(jobs, operations)
      ensures ok <==> readable && (jobs == old(disk).jobs || outcome.Saved?)
    {
      hide Consistent, Punctual, Timed, Dispatches, HasRunning, ReconciledAll, Interrupts;
      RestartKeepsConsistent(jobs, disk.jobs, running, pending);
      RestartKeepsPunctual(jobs, disk.jobs, dispatched, clock);
      RestartKeepsTimed(next, jobs, disk.jobs, history);
      AllAtRest(disk.jobs);
      var read, changed := Reconcile(disk.jobs);
      operation, failures, running, pending, closed := None, map[], map[], map[], true;
      jobs, operations := read, disk.operations;
      if !readable {
        return false;
      }
      if changed {
        SizeOf(jobs, disk.jobs, running, pending);
        var written := Write(Acknowledged, outcome);
        if !written {
          return false;
        }
      }
      closed := false;
      return true;
    }

    method Reconcile(stored: map<Id, Job>) returns (next: map<Id, Job>, changed: bool)
      ensures next == ReconciledAll(stored)
      ensures !changed <==> next == stored
    {
      hide HasRunning, Reconciled;
      changed := false;
      var rest := stored.Keys;
      next := map[];
      while rest != {}
        invariant rest <= stored.Keys && next.Keys == stored.Keys - rest
        invariant forall id <- next :: next[id] == Reconciled(stored[id])
        invariant !changed <==> forall id <- next :: next[id] == stored[id]
        decreases |rest|
      {
        var id :| id in rest;
        rest := rest - {id};
        next := next[id := Reconciled(stored[id])];
        ReconciledIsAtRest(stored[id]);
        if HasRunning(stored[id]) {
          ReconcilingChanges(stored[id]);
          changed := true;
        }
      }
    }

    /** A new or changed schedule: the next occurrence is computed afresh. */
    method SaveDefinition(id: Id, job: Job, now: Time, outcome: Outcome) returns (reply: Reply)
      requires Valid() && Unremembered(operations, operation) && now >= clock
      requires RecordMatches(job, Under(running, id)) && |job.runs| <= MAX_RUNS
      modifies this
      ensures Valid() && operation == old(operation) && closed == old(closed) && clock == now
      ensures running == old(running) && pending == old(pending) && dispatched == old(dispatched)
      ensures reply.Refused? ==> jobs == old(jobs) && operations == old(operations)
      ensures !reply.Refused? <==>
              ValidPrompt(job.prompt) && next(job.plan, now).Some? && |old(jobs)[id := job]| <= MAX_JOBS && outcome.Saved?
      ensures !reply.Refused? ==>
              && reply.Result? && ValidPrompt(job.prompt) && reply.job == job.(nextRun := reply.job.nextRun)
              && next(job.plan, now) == Some(reply.job.nextRun) && reply.job.nextRun > now
              && jobs == old(jobs)[id := reply.job]
              && operations == Extended(old(operations), operation, reply) && disk == Disk(jobs, operations)
    {
      hide Consistent, Punctual, Timed, Dispatches, Remembering, Unremembered, Extended, RecordMatches, ValidPrompt;
      ClockAdvances(jobs, disk.jobs, dispatched, clock, now);
      clock := now;
      if !ValidPrompt(job.prompt) {
        return Refused;
      }
      var following := next(job.plan, now);
      if following.None? {
        return Refused;
      }
      var saved := job.(nextRun := following.value);
      assert jobs[id := saved].Keys == jobs.Keys + {id};
      SameRunsMatch(job, saved, Under(running, id));
      if |jobs[id := saved]| <= MAX_JOBS {
        WritingKeepsConsistent(jobs, disk.jobs, running, pending, id, saved);
        RewritingKeepsPunctual(jobs, disk.jobs, dispatched, id, saved, now);
        ghost var definition := Moment(id, saved.plan, now, None, outcome.Saved?);
        ComputingKeepsTimed(next, jobs, disk.jobs, history, definition, saved);
        DispatchesGrow(history, definition);
        if !outcome.FailedBefore? {
          history := history + [definition];
        }
      }
      var ok := Save(id, saved, Result(saved), outcome);
      reply := if ok then Result(saved) else Refused;
    }

    /** Takes a job out of the file; a failed write puts it back into memory. */
    method Unsave(id: Id, outcome: Outcome) returns (ok: bool)
      requires Remembering(operations, disk) && Unremembered(operations, operation) && id in jobs && |jobs - {id}| <= MAX_JOBS
      modifies this`jobs, this`disk, this`operations
      ensures ok <==> outcome.Saved?
      ensures jobs == if ok then old(jobs) - {id} else old(jobs)
      ensures operations == if ok then Extended(old(operations), operation, Acknowledged) else old(operations)
      ensures disk == old(disk) || disk == Disk(old(jobs) - {id}, Extended(old(operations), operation, Acknowledged))
      ensures ok ==> disk == Disk(jobs, operations)
      ensures Remembering(operations, disk)
    {
      hide Remembering, Unremembered, Extended;
      var previous := jobs;
      jobs := jobs - {id};
      ok := Write(Acknowledged, outcome);
      if !ok {
        jobs := jobs[id := previous[id]];
        assert jobs == previous;
      }
    }

    method DeleteSchedule(id: Id, outcome: Outcome) returns (reply: Reply)
      requires Valid() && Unremembered(operations, operation) && id in jobs
      modifies this
      ensures Valid() && operation == old(operation) && closed == old(closed) && clock == old(clock)
      ensures running == old(running) && pending == old(pending) && dispatched == old(dispatched)
      ensures reply.Refused? ==> jobs == old(jobs) && operations == old(operations)
      ensures reply.Refused? <==> id in running || !outcome.Saved?
      ensures failures == if reply.Refused? then old(failures) else old(failures) - {id}
      ensures !reply.Refused? ==>
              && reply == Acknowledged && id !in running
              && jobs == old(jobs) - {id}
              && operations == Extended(old(operations), operation, reply) && disk == Disk(jobs, operations)
    {
      hide Consistent, Punctual, Timed, Dispatches, Remembering, Unremembered, Extended, NextIsLater;
      if id in running {
        return Refused;
      }
      DeletingKeepsInvariants(jobs, disk.jobs, running, pending, dispatched, clock, id);
      DeletingKeepsTimed(next, jobs, disk.jobs, history, id);
      var ok := Unsave(id, outcome);
      if !ok {
        return Refused;
      }
      failures := failures - {id};
      return Acknowledged;
    }

    /** Handles a mutation under its identity, if it has one. A repeated one changes
        nothing and gets the first reply; a reused identity with another fingerprint is
        refused; a new one is saved together with its effect in one write. */
    method Handle(key: string, fingerprint: string, project: string, id: Id, action: Action, now: Time, freshId: Id,
            name: string, outcome: Outcome)
        returns (reply: Reply)
      requires Valid() && operation.None? && now >= clock && freshId !in jobs
      modifies this
      ensures Valid() && operation.None? && old(dispatched) <= dispatched && clock <= now
      ensures closed == old(closed) && pending == old(pending)
      ensures closed || (key != "" && Lookup(old(operations), key).Some?) ==>
              && jobs == old(jobs) && disk == old(disk) && operations == old(operations)
              && running == old(running) && dispatched == old(dispatched)
      ensures !closed && key != "" && Lookup(old(operations), key).Some? ==>
              var op := Lookup(old(operations), key).value;
              reply == if op.fingerprint != fingerprint then Refused else op.reply
      ensures var unknown := key == "" || Lookup(old(operations), key).None?;
              !old(closed) && unknown ==> (!reply.Refused? <==> old(Doable(project, id, action, now, outcome)))
      ensures reply.Refused? ==>
              jobs == old(jobs) && operations == old(operations) && running == old(running) && dispatched == old(dispatched)
      ensures !reply.Refused? && key != "" && Lookup(old(operations), key).None? ==>
              operations == Remember(old(operations), Operation(key, fingerprint, reply)) && disk == Disk(jobs, operations)
      ensures !reply.Refused? && (key == "" || Lookup(old(operations), key).None?) ==>
              match action
              case Create(root, prompt, plan) =>
                reply.Result? && jobs == old(jobs)[freshId := reply.job]
                && reply.job == Job(project, root, prompt, plan, false, reply.job.nextRun, [])
                && next(plan, now) == Some(reply.job.nextRun) && running == old(running) && dispatched == old(dispatched)
              case Update(prompt, plan, paused) =>
                && reply.Result? && id in old(jobs) && old(jobs)[id].project == project && jobs == old(jobs)[id := reply.job]
                && (id in running ==> prompt.None? && plan.None?)
                && reply.job == old(jobs)[id].(prompt := if prompt.Some? then prompt.value else old(jobs)[id].prompt,
                                               plan := if plan.Some? then plan.value else old(jobs)[id].plan,
                                               paused := if paused.Some? then paused.value else old(jobs)[id].paused,
                                               nextRun := reply.job.nextRun)
                && next(reply.job.plan, now) == Some(reply.job.nextRun)
                && running == old(running) && dispatched == old(dispatched)
              case Delete =>
                && reply == Acknowledged && id in old(jobs) && old(jobs)[id].project == project && id !in running
                && jobs == old(jobs) - {id} && running == old(running) && dispatched == old(dispatched)
              case RunNow =>
                && reply == Acknowledged && id in old(jobs) && old(jobs)[id].project == project && id !in old(running)
                && running == old(running)[id := Run(name, "", now, Running)]
                && dispatched == old(dispatched) + [Dispatch(id, name, false, now)]
                && jobs == old(jobs)[id := jobs[id]] && OneMoreRun(old(jobs)[id], jobs[id], running[id])
                && next(old(jobs)[id].plan, now) == Some(jobs[id].nextRun)
              case Stop => reply == Acknowledged && jobs == old(jobs) && running == old(running) && dispatched == old(dispatched)
    {
      hide Consistent, Punctual, Timed, Dispatches, Remembering, RecordMatches, ValidPrompt, Sized, RecordsMatch;
      if closed {
        return Refused;
      }
      if key != "" {
        var known := Lookup(operations, key);
        if known.Some? {
          return if known.value.fingerprint != fingerprint then Refused else known.value.reply;
        }
        LookupMisses(operations, key);
        operation := Some(Operation(key, fingerprint, Refused));
      }
      reply := Perform(project, id, action, now, freshId, name, outcome);
      operation := None;
    }

    /** Nothing stands in the way of the request, and its write succeeds. */
    predicate Doable(project: string, id: Id, action: Action, now: Time, outcome: Outcome)
      reads this
    {
      && outcome.Saved?
      && (!action.Create? ==> id in jobs && jobs[id].project == project)
      && match action
         case Create(_, prompt, plan) => |jobs| < MAX_JOBS && ValidPrompt(prompt) && next(plan, now).Some?
         case Update(prompt, plan, _) =>
           && (id in running ==> prompt.None? && plan.None?)
           && ValidPrompt(Or(prompt, jobs[id].prompt)) && next(Or(plan, jobs[id].plan), now).Some?
         case Delete => id !in running
         case RunNow => id !in running && |running| < MAX_RUNNING && next(jobs[id].plan, now).Some?
         case Stop => true
    }

    method Perform(project: string, id: Id, action: Action, now: Time, freshId: Id, name: string,
            outcome: Outcome) returns (reply: Reply)
      requires Valid() && Unremembered(operations, operation) && now >= clock && freshId !in jobs && !closed
      modifies this
      ensures Valid() && operation == old(operation) && old(dispatched) <= dispatched && !closed && clock <= now
      ensures pending == old(pending)
      ensures !reply.Refused? <==> old(Doable(project, id, action, now, outcome))
      ensures reply.Refused? ==>
              jobs == old(jobs) && operations == old(operations) && running == old(running) && dispatched == old(dispatched)
      ensures !reply.Refused? ==> operations == Extended(old(operations), operation, reply) && disk == Disk(jobs, operations)
      ensures !reply.Refused? ==>
              match action
              case Create(root, prompt, plan) =>
                reply.Result? && jobs == old(jobs)[freshId := reply.job]
                && reply.job == Job(project, root, prompt, plan, false, reply.job.nextRun, [])
                && next(plan, now) == Some(reply.job.nextRun) && running == old(running) && dispatched == old(dispatched)
              case Update(prompt, plan, paused) =>
                && reply.Result? && id in old(jobs) && old(jobs)[id].project == project && jobs == old(jobs)[id := reply.job]
                && (id in running ==> prompt.None? && plan.None?)
                && reply.job == old(jobs)[id].(prompt := if prompt.Some? then prompt.value else old(jobs)[id].prompt,
                                               plan := if plan.Some? then plan.value else old(jobs)[id].plan,
                                               paused := if paused.Some? then paused.value else old(jobs)[id].paused,
                                               nextRun := reply.job.nextRun)
                && next(reply.job.plan, now) == Some(reply.job.nextRun)
                && running == old(running) && dispatched == old(dispatched)
              case Delete =>
                && reply == Acknowledged && id in old(jobs) && old(jobs)[id].project == project && id !in running
                && jobs == old(jobs) - {id} && running == old(running) && dispatched == old(dispatched)
              case RunNow =>
                && reply == Acknowledged && id in old(jobs) && old(jobs)[id].project == project && id !in old(running)
                && running == old(running)[id := Run(name, "", now, Running)]
                && dispatched == old(dispatched) + [Dispatch(id, name, false, now)]
                && jobs == old(jobs)[id := jobs[id]] && OneMoreRun(old(jobs)[id], jobs[id], running[id])
                && next(old(jobs)[id].plan, now) == Some(jobs[id].nextRun)
              case Stop => reply == Acknowledged && jobs == old(jobs) && running == old(running) && dispatched == old(dispatched)
    {
      hide Consistent, Punctual, Timed, Dispatches, Remembering, RecordMatches, ValidPrompt, Sized, RecordsMatch, Unremembered, Extended;
      SizeOf(jobs, disk.jobs, running, pending);
      if action.Create? {
        NewJobMatches(project, action.root, action.newPrompt, action.newPlan);
        reply := SaveDefinition(freshId, Job(project, action.root, action.newPrompt, action.newPlan, false, 0, []), now, outcome);
        return;
      }
      if id !in jobs || jobs[id].project != project {
        return Refused;
      }
      match action {
        case Create(_, _, _) =>
        case Update(prompt, plan, paused) =>
          if id in running && (prompt.Some? || plan.Some?) {
            return Refused;
          }
          var job := jobs[id];
          var edited := job.(prompt := Or(prompt, job.prompt), plan := Or(plan, job.plan), paused := Or(paused, job.paused));
          StoredJobMatches(jobs, disk.jobs, running, pending, id);
          SameRunsMatch(job, edited, Under(running, id));
          reply := SaveDefinition(id, edited, now, outcome);
        case Delete =>
          reply := DeleteSchedule(id, outcome);
        case RunNow =>
          var ok := StartLocked(id, now, Run(name, "", now, Running), false, outcome);
          reply := if ok then Acknowledged else Refused;
        case Stop =>
          RewritingAll(jobs, disk.jobs, running, pending, dispatched, clock);
          DeletingKeepsTimed(next, jobs, disk.jobs, history, id);
          var ok := Write(Acknowledged, outcome);
          reply := if ok then Acknowledged else Refused;
      }
    }

    /** No occurrence was dispatched twice, and none that was dispatched can come again:
        what is scheduled next in memory, and in the file a new process would read, is
        later. */
    lemma NoOccurrenceTwice()
      requires Valid()
      ensures NeverTwice(dispatched)
      ensures forall id <- jobs, d <- dispatched | d.id == id && d.automatic :: d.occurrence < jobs[id].nextRun
      ensures forall id <- disk.jobs, d <- dispatched | d.id == id && d.automatic ::
                d.occurrence < ReconciledAll(disk.jobs)[id].nextRun
    {
      hide Consistent, Remembering, Timed, Dispatches, NextIsLater;
      RestartKeepsPunctual(jobs, disk.jobs, dispatched, clock);
    }

    /** No occurrence is skipped: an automatic run is for the first occurrence after the
        last moment at which its next run was computed, by the run before it or by a
        definition. */
    lemma NothingSkipped(j: nat) returns (i: nat)
      requires Valid() && FirstAfter(next) && j < |history| && Automatic(history[j])
      ensures Answers(next, history, i, j)
      ensures Occurs(next, history[j].plan, history[j].run.value.occurrence)
      ensures history[i].at < history[j].run.value.occurrence <= history[j].at
      ensures forall u: Time | Occurs(next, history[j].plan, u) && u > history[i].at :: history[j].run.value.occurrence <= u
    {
      hide Consistent, Punctual, Remembering, Based, FirstAfter, Occurs;
      i :| Answers(next, history, i, j);
      DispatchedOccurs(next, history, i, j);
      forall u: Time | Occurs(next, history[j].plan, u) && u > history[i].at
        ensures history[j].run.value.occurrence <= u
      {
        NothingBetween(next, history, i, j, u);
      }
    }

    /** One command, where it applies. */
    method Do(c: Command)
      requires Valid() && operation.None? && clock <= After(c, clock)
      modifies this
      ensures Valid() && operation.None? && old(dispatched) <= dispatched
      ensures clock <= After(c, old(clock))
    {
      hide Valid;
      match c {
        case TickAt(now, save, names) => Tick(now, save, names);
        case EndRun(id, status, at, outcome) =>
          if id in running && id !in pending && status != Running {
            RunEnds(id, status, at, outcome);
          }
        case AdmitRun(id, session, outcome) =>
          if id in running && id !in pending && running[id].status == Running {
            var ok := Admit(id, session, outcome);
          }
        case Mutate(key, fingerprint, project, id, action, now, freshId, name, outcome) =>
          if freshId !in jobs {
            var reply := Handle(key, fingerprint, project, id, action, now, freshId, name, outcome);
          }
        case ShutDown => Close();
        case NewProcess(readable, outcome) => var ok := Restart(readable, outcome);
      }
    }

    /** Through any sequence of ticks, ends of runs, requests, failed writes and new
        processes, no occurrence of a schedule is dispatched twice automatically. */
    method Live(commands: seq<Command>)
      requires Valid() && operation.None? && Timely(commands, clock)
      modifies this
      ensures Valid() && operation.None? && old(dispatched) <= dispatched
      ensures NeverTwice(dispatched)
    {
      hide Valid, NeverTwice, After;
      ghost var time := clock;
      for i := 0 to |commands|
        invariant Valid() && operation.None? && old(dispatched) <= dispatched
        invariant clock <= time && Timely(commands[i..], time)
      {
        TimelyEarlier(commands[i..], clock, time);
        Do(commands[i]);
        time := After(commands[i], time);
      }
      NoOccurrenceTwice();
    }
  }

  /** An hourly plan, in minutes. */
  function Hourly(plan: Plan, t: Time): Option<Time> { Some((t / 60 + 1) * 60) }

  lemma HourlyIsFirstAfter()
    ensures FirstAfter(Hourly)
    ensures forall plan, t :: Hourly(plan, t).value > t
  {
  }

  /** One run can stand for several occurrences: a job that is due at 540 and claimed only
      at 670 runs for 540, and next for 720. What came in between, 600 and 660, is not
      dispatched by itself. */
  method LateClaim() returns (s: Schedules)
    ensures s.Valid() && s.next == Hourly && "j" in s.jobs && s.jobs["j"].nextRun == 720
    ensures s.dispatched == [Dispatch("j", "r", true, 540)]
    ensures Occurs(Hourly, "h", 600) && Occurs(Hourly, "h", 660)
  {
    hide Schedules.Valid, FirstAfter, OneMoreRun, Occurs, ValidPrompt, WithRun, Lookup, Extended, Unremembered;
    HourlyIsFirstAfter();
    HourlyOccurs(600);
    HourlyOccurs(660);
    s := new Schedules(Hourly);
    LetterIsAPrompt();
    var created := s.Handle("", "", "project", "", Create("root", "p", "h"), 500, "j", "", Saved);
    assert s.jobs["j"].nextRun == 540 && !s.jobs["j"].paused && s.running == map[];
    NothingAskedIsUnremembered(s.operations);
    var first := s.StartLocked("j", 670, Run("r", "", 670, Running), true, Saved);
  }

  lemma LetterIsAPrompt()
    ensures ValidPrompt("p")
  {
    assert "p"[0] in "p" && !QueueModel.IsSpace('p');
  }

  lemma NothingAskedIsUnremembered(operations: seq<Operation>)
    ensures Unremembered(operations, None)
  {
  }

  lemma HourlyOccurs(u: Time)
    requires u > 0 && u % 60 == 0
    ensures Occurs(Hourly, "h", u)
  {
    assert Hourly("h", u - 1) == Some(u);
  }

  /** A clock that is behind is in time as well. */
  lemma TimelyEarlier(commands: seq<Command>, earlier: Time, clock: Time)
    requires commands != [] && Timely(commands, clock) && earlier <= clock
    ensures earlier <= After(commands[0], earlier) <= After(commands[0], clock)
    ensures Timely(commands[1..], After(commands[0], clock))
  {
  }

  lemma AllAtRest(jobs: map<Id, Job>)
    ensures forall id <- ReconciledAll(jobs) :: !HasRunning(ReconciledAll(jobs)[id])
    ensures forall id <- jobs :: Interrupts(jobs[id], ReconciledAll(jobs)[id])
    ensures ReconciledAll(jobs).Keys == jobs.Keys
  {
    hide HasRunning, Reconciled;
    forall id | id in jobs
      ensures !HasRunning(Reconciled(jobs[id])) && Interrupts(jobs[id], Reconciled(jobs[id]))
    {
      ReconciledIsAtRest(jobs[id]);
    }
  }

  /** Runs recorded as running are interrupted, and pause their schedule; the other records
      and everything else stay. */
  predicate Interrupts(before: Job, after: Job) {
    && after == before.(paused := before.paused || HasRunning(before), runs := after.runs)
    && |after.runs| == |before.runs|
    && forall i :: 0 <= i < |before.runs| ==>
         after.runs[i] == if before.runs[i].status == Running then before.runs[i].(status := Interrupted) else before.runs[i]
  }

  lemma ReconcilingChanges(job: Job)
    requires HasRunning(job)
    ensures Reconciled(job) != job
  {
    var i :| 0 <= i < |job.runs| && job.runs[i].status == Running;
    assert Reconciled(job).runs[i] != job.runs[i];
  }

  lemma {:induction false} RestartKeepsConsistent(jobs: map<Id, Job>, stored: map<Id, Job>, running: map<Id, Run>,
          pending: map<Id, Run>)
    requires Consistent(jobs, stored, running, pending)
    ensures Consistent(ReconciledAll(stored), stored, map[], map[])
    ensures Consistent(ReconciledAll(stored), ReconciledAll(stored), map[], map[])
  {
    var next := ReconciledAll(stored);
    assert next.Keys == stored.Keys;
    AllAtRest(stored);
    forall id | id in next
      ensures RecordMatches(next[id], Under(map[], id)) && |next[id].runs| <= MAX_RUNS
    {
      assert !HasRunning(next[id]);
    }
  }

  lemma RestartKeepsPunctual(jobs: map<Id, Job>, stored: map<Id, Job>, dispatched: seq<Dispatch>, clock: Time)
    requires Punctual(jobs, stored, dispatched, clock)
    ensures Punctual(ReconciledAll(stored), stored, dispatched, clock)
    ensures Punctual(ReconciledAll(stored), ReconciledAll(stored), dispatched, clock)
  {
  }

  lemma SizeOf(jobs: map<Id, Job>, stored: map<Id, Job>, running: map<Id, Run>, pending: map<Id, Run>)
    requires Consistent(jobs, stored, running, pending)
    ensures |jobs| <= MAX_JOBS && |running| <= MAX_RUNNING && running.Keys <= jobs.Keys && pending.Keys <= running.Keys
  {
  }

  lemma ClockAdvances(jobs: map<Id, Job>, stored: map<Id, Job>, dispatched: seq<Dispatch>, clock: Time, now: Time)
    requires Punctual(jobs, stored, dispatched, clock) && now >= clock
    ensures Punctual(jobs, stored, dispatched, now)
  {
  }

  /** A claim whose write failed late is only in the file. */
  lemma LateClaimKeepsConsistent(jobs: map<Id, Job>, stored: map<Id, Job>, running: map<Id, Run>, pending: map<Id,
          Run>, id: Id, job: Job)
    requires Consistent(jobs, stored, running, pending)
    requires id in jobs && id !in running && |job.runs| <= MAX_RUNS
    ensures Consistent(jobs, jobs[id := job], running, pending)
  {
    PutKeepsSized(jobs, id, job);
    MatchedIsRecorded(jobs, running);
    hide RecordsMatch, Sized, HasRun;
  }

  /** A claim that is saved is under way, and one that is not is at most in the file. */
  lemma {:induction false} ClaimKeepsConsistent(jobs: map<Id, Job>, stored: map<Id, Job>, running: map<Id, Run>,
          pending: map<Id, Run>, id: Id, run: Run, following: Time)
    requires Consistent(jobs, stored, running, pending)
    requires id in jobs && id !in running && |running| < MAX_RUNNING && run.status == Running
    ensures var job := Claimed(jobs[id], run, following);
            && Consistent(jobs[id := job], jobs[id := job], running[id := run], pending)
            && Consistent(jobs, jobs[id := job], running, pending)
  {
    hide RecordsMatch, Sized, Records, RecordMatches, HasRun, Claimed;
    var job := Claimed(jobs[id], run, following);
    ClaimedHasTheRun(jobs[id], run, following);
    ClaimMatches(jobs, stored, running, pending, id, run, following);
    LateClaimKeepsConsistent(jobs, stored, running, pending, id, job);
    PutKeepsSized(jobs, id, job);
    ClaimMatchesRecords(jobs, running, id, job, run);
    var next, more := jobs[id := job], running[id := run];
    MatchedIsRecorded(next, more);
    assert more.Keys == running.Keys + {id};
  }

  lemma ClaimMatchesRecords(jobs: map<Id, Job>, running: map<Id, Run>, id: Id, job: Job, run: Run)
    requires RecordsMatch(jobs, running) && id in jobs && id !in running && RecordMatches(job, Some(run))
    ensures RecordsMatch(jobs[id := job], running[id := run])
  {
    hide RecordMatches;
    var next, more := jobs[id := job], running[id := run];
    forall other | other in next
      ensures RecordMatches(next[other], Under(more, other))
    {
      assert other != id ==> RecordMatches(jobs[other], Under(running, other));
    }
  }

  lemma ClaimMatches(jobs: map<Id, Job>, stored: map<Id, Job>, running: map<Id, Run>, pending: map<Id, Run>, id: Id,
          run: Run, following: Time)
    requires Consistent(jobs, stored, running, pending) && id in jobs && id !in running && run.status == Running
    ensures RecordMatches(Claimed(jobs[id], run, following), Some(run))
  {
    assert RecordMatches(jobs[id], Under(running, id));
    ClaimedHasTheRun(jobs[id], run, following);
  }

  lemma ClaimKeepsPunctual(jobs: map<Id, Job>, stored: map<Id, Job>, dispatched: seq<Dispatch>, d: Dispatch,
          job: Job, clock: Time)
    requires Punctual(jobs, stored, dispatched, clock) && d.id in jobs && job.nextRun > clock
    requires d.automatic ==> d.occurrence == jobs[d.id].nextRun && d.occurrence <= clock
    ensures Punctual(jobs, jobs[d.id := job], dispatched, clock)
    ensures Punctual(jobs[d.id := job], jobs[d.id := job], dispatched + [d], clock)
  {
    DispatchKeepsOrder(jobs, dispatched, d, clock);
    ClaimStaysAhead(jobs, dispatched, d, job, clock);
    LaterStaysAhead(jobs, dispatched, d.id, job, clock);
  }

  lemma RewritingKeepsPunctual(jobs: map<Id, Job>, stored: map<Id, Job>, dispatched: seq<Dispatch>, id: Id, job: Job, clock: Time)
    requires Punctual(jobs, stored, dispatched, clock)
    requires job.nextRun > clock || (id in jobs && job.nextRun == jobs[id].nextRun)
    ensures Punctual(jobs[id := job], jobs[id := job], dispatched, clock)
    ensures Punctual(jobs, jobs[id := job], dispatched, clock)
  {
    LaterStaysAhead(jobs, dispatched, id, job, clock);
  }

  lemma PutMatches(jobs: map<Id, Job>, running: map<Id, Run>, id: Id, job: Job, fewer: map<Id, Run>)
    requires RecordsMatch(jobs, running) && id in jobs && RecordMatches(job, Under(fewer, id))
    requires fewer.Keys <= running.Keys && forall other | other != id :: Under(fewer, other) == Under(running, other)
    ensures RecordsMatch(jobs[id := job], fewer)
  {
    hide RecordMatches;
    var next := jobs[id := job];
    forall other | other in next
      ensures RecordMatches(next[other], Under(fewer, other))
    {
      assert other != id ==> RecordMatches(jobs[other], Under(running, other));
    }
  }

  lemma FinishedMatches(job: Job, run: Run, before: Run)
    requires RecordMatches(job, Some(before)) && before.id == run.id && run.status != Running
    ensures RecordMatches(WithRun(job, run), None)
    ensures HasRun(WithRun(job, run), run.id)
  {
    WithRunReplaces(job, run);
    MatchedHasRun(job, before);
  }

  lemma AdmittedMatches(job: Job, run: Run, before: Run)
    requires RecordMatches(job, Some(before)) && before.id == run.id && run.status == Running
    ensures RecordMatches(WithRun(job, run), Some(run))
  {
    WithRunReplaces(job, run);
    MatchedHasRun(job, before);
  }

  lemma MatchOf(jobs: map<Id, Job>, running: map<Id, Run>, id: Id)
    requires RecordsMatch(jobs, running) && id in running
    ensures id in jobs && RecordMatches(jobs[id], Some(running[id]))
  {
    assert RecordMatches(jobs[id], Under(running, id));
  }

  lemma PutIsRecorded(jobs: map<Id, Job>, running: map<Id, Run>, id: Id, job: Job)
    requires RecordsMatch(jobs, running) && (id in running ==> HasRun(job, running[id].id))
    ensures Records(jobs[id := job], running)
  {
    MatchedIsRecorded(jobs, running);
    hide RecordsMatch, HasRun;
  }

  /** A finished record, saved or only in the file. */
  lemma {:induction false} FinishKeepsConsistent(jobs: map<Id, Job>, stored: map<Id, Job>, running: map<Id, Run>,
          pending: map<Id, Run>, id: Id, run: Run)
    requires Consistent(jobs, stored, running, pending) && id in running && id in jobs && run.id == running[id].id && run.status != Running
    ensures var next := jobs[id := WithRun(jobs[id], run)];
            && Consistent(next, next, running - {id}, pending - {id})
            && Consistent(jobs, next, running, pending)
  {
    hide RecordsMatch, Sized, Records, RecordMatches, HasRun, WithRun;
    MatchOf(jobs, running, id);
    FinishedMatches(jobs[id], run, running[id]);
    var job, fewer := WithRun(jobs[id], run), running - {id};
    SizedAt(jobs, id);
    PutKeepsSized(jobs, id, job);
    PutMatches(jobs, running, id, job, fewer);
    MatchedIsRecorded(jobs[id := job], fewer);
    PutIsRecorded(jobs, running, id, job);
    assert fewer.Keys == running.Keys - {id};
  }

  lemma AdmitKeepsConsistent(jobs: map<Id, Job>, stored: map<Id, Job>, running: map<Id, Run>, pending: map<Id, Run>,
          id: Id, run: Run)
    requires Consistent(jobs, stored, running, pending) && id in running && id in jobs && id !in pending
    requires run.id == running[id].id && run.status == Running
    ensures var next := jobs[id := WithRun(jobs[id], run)];
            && Consistent(next, next, running[id := run], pending)
            && Consistent(jobs, next, running, pending)
  {
    hide RecordsMatch, Sized, Records, RecordMatches, HasRun, WithRun;
    MatchOf(jobs, running, id);
    AdmittedMatches(jobs[id], run, running[id]);
    var job, same := WithRun(jobs[id], run), running[id := run];
    SizedAt(jobs, id);
    PutKeepsSized(jobs, id, job);
    PutMatches(jobs, running, id, job, same);
    MatchedIsRecorded(jobs[id := job], same);
    MatchedHasRun(job, run);
    PutIsRecorded(jobs, running, id, job);
    assert same.Keys == running.Keys;
  }

  lemma PendingKeepsConsistent(jobs: map<Id, Job>, stored: map<Id, Job>, running: map<Id, Run>, pending: map<Id,
          Run>, id: Id, run: Run)
    requires Consistent(jobs, stored, running, pending) && id in running && run.id == running[id].id && run.status != Running
    ensures Consistent(jobs, stored, running, pending[id := run])
  {
    hide RecordsMatch, Sized, Records;
  }

  lemma PendingIsFinished(jobs: map<Id, Job>, stored: map<Id, Job>, running: map<Id, Run>, pending: map<Id, Run>, id: Id)
    requires Consistent(jobs, stored, running, pending) && id in pending
    ensures id in running && pending[id].id == running[id].id && pending[id].status != Running
  {
  }

  lemma SameRunsMatch(job: Job, other: Job, run: Option<Run>)
    requires RecordMatches(job, run) && job.runs == other.runs
    ensures RecordMatches(other, run)
  {
  }

  lemma NewJobMatches(project: string, root: string, prompt: string, plan: Plan)
    ensures RecordMatches(Job(project, root, prompt, plan, false, 0, []), None)
  {
  }

  lemma StoredJobMatches(jobs: map<Id, Job>, stored: map<Id, Job>, running: map<Id, Run>, pending: map<Id, Run>, id: Id)
    requires Consistent(jobs, stored, running, pending) && id in jobs
    ensures RecordMatches(jobs[id], Under(running, id)) && |jobs[id].runs| <= MAX_RUNS
  {
  }

  lemma DeletingKeepsInvariants(jobs: map<Id, Job>, stored: map<Id, Job>, running: map<Id, Run>, pending: map<Id, Run>,
                                dispatched: seq<Dispatch>, clock: Time, id: Id)
    requires Consistent(jobs, stored, running, pending) && Punctual(jobs, stored, dispatched, clock)
    requires id in jobs && id !in running
    ensures var next := jobs - {id};
            && Consistent(next, next, running, pending) && Punctual(next, next, dispatched, clock)
            && Consistent(jobs, next, running, pending) && Punctual(jobs, next, dispatched, clock)
            && |next| <= MAX_JOBS
  {
    hide RecordMatches, HasRun;
    var next := jobs - {id};
    assert next.Keys == jobs.Keys - {id};
    assert RecordsMatch(next, running) by {
      forall other | other in next
        ensures RecordMatches(next[other], Under(running, other))
      {
        assert RecordMatches(jobs[other], Under(running, other));
      }
    }
    MatchedIsRecorded(next, running);
  }

  lemma RewritingAll(jobs: map<Id, Job>, stored: map<Id, Job>, running: map<Id, Run>, pending: map<Id, Run>,
          dispatched: seq<Dispatch>, clock: Time)
    requires Consistent(jobs, stored, running, pending) && Punctual(jobs, stored, dispatched, clock)
    ensures Consistent(jobs, jobs, running, pending) && Punctual(jobs, jobs, dispatched, clock)
  {
    hide RecordMatches, HasRun;
    MatchedIsRecorded(jobs, running);
  }
}
