/** Scheduled prompts: the durable file of jobs and remembered mutations, and what holds
    between it, the jobs in memory and the runs under way. */
module ScheduleModel {
  import opened Base
  import QueueModel

  const MAX_RUNNING := 8
  const MAX_JOBS := 1000
  const MAX_RUNS := 100
  const MAX_OPERATIONS := 512
  const MAX_PROMPT := 64 * 1024

  type Id = string
  type Time = nat
  type Plan = string

  datatype Status = Running | Completed | Failed | Interrupted
  datatype Run = Run(id: string, session: string, started: Time, status: Status)
  datatype Job = Job(project: string, root: string, prompt: string, plan: Plan, paused: bool, nextRun: Time, runs: seq<Run>)

  /** What a caller gets, also when it repeats a remembered mutation. */
  datatype Reply = Refused | Acknowledged | Result(job: Job)

  datatype Operation = Operation(key: string, fingerprint: string, reply: Reply)
  datatype Disk = Disk(jobs: map<Id, Job>, operations: seq<Operation>)

  /** One run handed to the session manager; an automatic one for an occurrence. */
  datatype Dispatch = Dispatch(id: Id, run: string, automatic: bool, occurrence: Time)

  predicate ValidPrompt(prompt: string) {
    && |prompt| <= MAX_PROMPT && '\0' !in prompt
    && exists c <- prompt :: !QueueModel.IsSpace(c)
  }

  /** At most 64 KiB, without a NUL, and not all white space. */
  lemma PromptRule(prompt: string)
    ensures ValidPrompt(prompt) <==>
              |prompt| <= 65536 && (forall i :: 0 <= i < |prompt| ==> prompt[i] != '\0')
              && exists i :: 0 <= i < |prompt| && !QueueModel.IsSpace(prompt[i])
  {
    hide QueueModel.IsSpace;
    if i :| 0 <= i < |prompt| && !QueueModel.IsSpace(prompt[i]) {
      assert prompt[i] in prompt;
    }
  }

  /** What a user may ask of a schedule; absent fields stay as they are. */
  datatype Action =
    | Create(root: string, newPrompt: string, newPlan: Plan)
    | Update(prompt: Option<string>, plan: Option<Plan>, paused: Option<bool>)
    | Delete
    | RunNow
    | Stop

  function Or<T>(value: Option<T>, default: T): T {
    if value.Some? then value.value else default
  }

  // ------------------------------------------------------------------
  // Remembered mutations
  // ------------------------------------------------------------------

  function Remember(operations: seq<Operation>, op: Operation): (r: seq<Operation>)
    ensures |operations| <= MAX_OPERATIONS ==> |r| <= MAX_OPERATIONS
  {
    var next := operations + [op];
    if |next| > MAX_OPERATIONS then next[|next| - MAX_OPERATIONS..] else next
  }

  function Lookup(operations: seq<Operation>, key: string): Option<Operation> {
    if operations == [] then None
    else if operations[0].key == key then Some(operations[0])
    else Lookup(operations[1..], key)
  }

  function RememberAll(operations: seq<Operation>, later: seq<Operation>): seq<Operation> {
    if later == [] then operations
    else Remember(RememberAll(operations, later[..|later| - 1]), later[|later| - 1])
  }

  lemma {:induction false} LookupFinds(operations: seq<Operation>, i: nat)
    requires i < |operations|
    requires forall j :: 0 <= j < |operations| && j != i ==> operations[j].key != operations[i].key
    ensures Lookup(operations, operations[i].key) == Some(operations[i])
  {
    if i > 0 {
      LookupFinds(operations[1..], i - 1);
    }
  }

  lemma {:induction false} LookupMisses(operations: seq<Operation>, key: string)
    requires Lookup(operations, key).None?
    ensures forall o <- operations :: o.key != key
  {
    if operations != [] {
      LookupMisses(operations[1..], key);
      assert operations == [operations[0]] + operations[1..];
    }
  }

  predicate DistinctKeys(operations: seq<Operation>) {
    forall i, j :: 0 <= i < j < |operations| ==> operations[i].key != operations[j].key
  }

  lemma RememberKeepsDistinct(operations: seq<Operation>, op: Operation)
    requires DistinctKeys(operations) && forall o <- operations :: o.key != op.key
    ensures DistinctKeys(Remember(operations, op))
  {
  }

  /** A mutation stays remembered for the next 511 remembered ones. */
  lemma {:induction false} RememberedForLong(operations: seq<Operation>, op: Operation, later: seq<Operation>)
    requires |operations| <= MAX_OPERATIONS && |later| < MAX_OPERATIONS
    ensures |RememberAll(Remember(operations, op), later)| >= |later| + 1
    ensures var all := RememberAll(Remember(operations, op), later);
            all[|all| - 1 - |later|] == op && |all| <= MAX_OPERATIONS
  {
    if later != [] {
      RememberedForLong(operations, op, later[..|later| - 1]);
    }
  }

  // ------------------------------------------------------------------
  // Records and runs
  // ------------------------------------------------------------------

  predicate HasRun(job: Job, run: string) {
    exists r <- job.runs :: r.id == run
  }

  predicate HasRunning(job: Job) {
    exists r <- job.runs :: r.status == Running
  }

  /** A finished or annotated run replaces its record. */
  function WithRun(job: Job, run: Run): (r: Job)
    ensures |r.runs| == |job.runs| && r.(runs := job.runs) == job
  {
    job.(runs := seq(|job.runs|, i requires 0 <= i < |job.runs| => if job.runs[i].id == run.id then run else job.runs[i]))
  }

  lemma WithRunReplaces(job: Job, run: Run)
    ensures forall r <- WithRun(job, run).runs :: r == run || (r in job.runs && r.id != run.id)
    ensures forall id | HasRun(job, id) :: HasRun(WithRun(job, run), id)
    ensures HasRun(job, run.id) ==> run in WithRun(job, run).runs
  {
    var next := WithRun(job, run);
    forall id | HasRun(job, id) ensures HasRun(next, id) {
      var i :| 0 <= i < |job.runs| && job.runs[i].id == id;
      assert next.runs[i] in next.runs;
    }
    if HasRun(job, run.id) {
      var i :| 0 <= i < |job.runs| && job.runs[i].id == run.id;
      assert next.runs[i] == run;
    }
  }

  /** The job with one more run claimed and its next occurrence advanced. */
  function Claimed(job: Job, run: Run, next: Time): Job {
    var runs := [run] + job.runs;
    job.(nextRun := next, runs := if |runs| > MAX_RUNS then runs[..MAX_RUNS] else runs)
  }

  lemma ClaimedHasTheRun(job: Job, run: Run, next: Time)
    ensures run in Claimed(job, run, next).runs && |Claimed(job, run, next).runs| <= MAX_RUNS
    ensures forall r <- Claimed(job, run, next).runs :: r == run || r in job.runs
  {
    assert Claimed(job, run, next).runs[0] == run;
  }

  /** What a restart makes of a job: runs it cannot account for are interrupted, and a
      schedule that had one is paused. */
  function Reconciled(job: Job): (r: Job)
    ensures |r.runs| == |job.runs|
  {
    job.(paused := job.paused || HasRunning(job),
         runs := seq(|job.runs|, i requires 0 <= i < |job.runs| =>
           if job.runs[i].status == Running then job.runs[i].(status := Interrupted) else job.runs[i]))
  }

  function ReconciledAll(jobs: map<Id, Job>): map<Id, Job> {
    map id | id in jobs :: Reconciled(jobs[id])
  }

  lemma ReconciledIsAtRest(job: Job)
    ensures !HasRunning(Reconciled(job))
    ensures HasRunning(job) ==> Reconciled(job).paused
    ensures !HasRunning(job) ==> Reconciled(job) == job
    ensures forall id :: HasRun(job, id) <==> HasRun(Reconciled(job), id)
    ensures Reconciled(job) == job.(paused := Reconciled(job).paused, runs := Reconciled(job).runs)
    ensures forall i :: 0 <= i < |job.runs| ==>
              Reconciled(job).runs[i] == if job.runs[i].status == Running then job.runs[i].(status := Interrupted) else job.runs[i]
  {
    var next := Reconciled(job);
    forall id ensures HasRun(job, id) <==> HasRun(next, id) {
      forall i | 0 <= i < |job.runs| ensures next.runs[i].id == job.runs[i].id {}
      if HasRun(job, id) {
        var i :| 0 <= i < |job.runs| && job.runs[i].id == id;
        assert next.runs[i] in next.runs;
      }
      if HasRun(next, id) {
        var i :| 0 <= i < |next.runs| && next.runs[i].id == id;
        assert job.runs[i] in job.runs;
      }
    }
    if !HasRunning(job) {
      forall i | 0 <= i < |job.runs| ensures next.runs[i] == job.runs[i] {
        assert job.runs[i] in job.runs;
      }
      assert next.runs == job.runs;
    }
  }

  // ------------------------------------------------------------------
  // What always holds
  // ------------------------------------------------------------------

  /** A job has a running record exactly when one of its runs is under way, and it is
      that run's. */
  predicate RecordMatches(job: Job, running: Option<Run>) {
    && (forall r <- job.runs | r.status == Running :: running.Some? && r.id == running.value.id)
    && (running.Some? ==> exists r <- job.runs :: r.status == Running && r.id == running.value.id)
  }

  function Under(running: map<Id, Run>, id: Id): Option<Run> {
    if id in running then Some(running[id]) else None
  }

  predicate RecordsMatch(jobs: map<Id, Job>, running: map<Id, Run>) {
    running.Keys <= jobs.Keys && forall id <- jobs :: RecordMatches(jobs[id], Under(running, id))
  }

  predicate Sized(jobs: map<Id, Job>) {
    |jobs| <= MAX_JOBS && forall id <- jobs :: |jobs[id].runs| <= MAX_RUNS
  }

  /** Every run under way is recorded in this file. */
  predicate Records(jobs: map<Id, Job>, running: map<Id, Run>) {
    forall id <- running :: id in jobs && HasRun(jobs[id], running[id].id)
  }

  /** No stored next occurrence is one that was already dispatched automatically. */
  ghost predicate Ahead(jobs: map<Id, Job>, dispatched: seq<Dispatch>) {
    forall id <- jobs, d <- dispatched | d.id == id && d.automatic :: d.occurrence < jobs[id].nextRun
  }

  predicate SameSchedule(a: Dispatch, b: Dispatch) {
    a.id == b.id && a.automatic && b.automatic
  }

  /** For each schedule the occurrences dispatched automatically strictly increase. */
  ghost predicate Increasing(dispatched: seq<Dispatch>) {
    forall i, j | 0 <= i < j < |dispatched| && SameSchedule(dispatched[i], dispatched[j]) ::
      dispatched[i].occurrence < dispatched[j].occurrence
  }

  ghost predicate Past(dispatched: seq<Dispatch>, clock: Time) {
    forall d <- dispatched | d.automatic :: d.occurrence <= clock
  }

  lemma DispatchKeepsOrder(jobs: map<Id, Job>, dispatched: seq<Dispatch>, d: Dispatch, clock: Time)
    requires Increasing(dispatched) && Past(dispatched, clock) && Ahead(jobs, dispatched) && d.id in jobs
    requires d.automatic ==> d.occurrence == jobs[d.id].nextRun && d.occurrence <= clock
    ensures Increasing(dispatched + [d]) && Past(dispatched + [d], clock)
  {
    var next := dispatched + [d];
    forall i | 0 <= i < |dispatched| && dispatched[i].id == d.id && dispatched[i].automatic && d.automatic
      ensures dispatched[i].occurrence < d.occurrence
    {
      assert dispatched[i] in dispatched;
    }
  }

  lemma ClaimStaysAhead(jobs: map<Id, Job>, dispatched: seq<Dispatch>, d: Dispatch, job: Job, clock: Time)
    requires Ahead(jobs, dispatched) && Past(dispatched, clock) && d.id in jobs
    requires job.nextRun > clock && (d.automatic ==> d.occurrence <= clock)
    ensures Ahead(jobs[d.id := job], dispatched + [d])
  {
  }

  lemma LaterStaysAhead(jobs: map<Id, Job>, dispatched: seq<Dispatch>, id: Id, job: Job, clock: Time)
    requires Ahead(jobs, dispatched) && Past(dispatched, clock)
    requires job.nextRun > clock || (id in jobs && job.nextRun == jobs[id].nextRun)
    ensures Ahead(jobs[id := job], dispatched)
  {
  }
}
