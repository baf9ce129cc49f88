/** The main results about the follow-up queue, stated over every run. */
module QueueRuns {
  import opened Base
  import opened QueueModel
  import opened QueueSafety
  import opened QueueSteps

  /** The state before the i-th event of a run. */
  function StateAt(run: seq<Event>, i: nat): State
    requires i <= |run|
  {
    Exec(run[..i])
  }

  lemma StateAtPrefix(run: seq<Event>, i: nat)
    requires run != [] && i < |run|
    ensures StateAt(run[..|run| - 1], i) == StateAt(run, i)
  {
    assert run[..|run| - 1][..i] == run[..i];
  }

  // ------------------------------------------------------------------
  // What holds in every run
  // ------------------------------------------------------------------

  /** Everything that has been read and not installed is a record that was stored. */
  predicate CapturedInv(s: State) {
    forall request :: request in s.captured && s.captured[request].Some? ==>
      WellFormed(s.captured[request].value) && Ids(s.captured[request].value) <= s.created
  }

  predicate BaseInv(s: State) { StorageInv(s) && MarkInv(s) && CapturedInv(s) }

  /** The state with everything acknowledged given up, and with retries to spare. */
  function Freed(s: State): State {
    s.(acked := {}, adds := map[], released := s.created, retried := s.submitted + multiset(s.created))
  }

  lemma FreedHasTheInvariant(s: State)
    requires BaseInv(s)
    ensures Inv(Freed(s)) && Alike(s, Freed(s))
  {
  }

  lemma AlikeHasStorage(s: State, t: State)
    requires Alike(s, t) && StorageInv(t) && MarkInv(t)
    ensures StorageInv(s) && MarkInv(s)
  {
    hide WellFormed;
  }

  lemma StepKeepsCaptured(s: State, e: Event)
    requires StorageInv(s) && CapturedInv(s)
    ensures CapturedInv(Step(s, e))
  {
    CreatedGrows(s, e);
    ReadsStay(s, e);
    hide Step, WellFormed;
  }

  lemma InstallKeepsStorage(s: State, e: Event)
    requires BaseInv(s) && e.Install?
    ensures StorageInv(Step(s, e)) && MarkInv(Step(s, e))
  {
    assert Flat(EmptyQueue(e.revision)) == [];
  }

  lemma {:induction false} StepKeepsBase(s: State, e: Event)
    requires BaseInv(s)
    ensures BaseInv(Step(s, e))
  {
    StepKeepsCaptured(s, e);
    if e.Install? {
      InstallKeepsStorage(s, e);
    } else {
      FreedHasTheInvariant(s);
      StepsCommute(s, Freed(s), e);
      QuietStepKeepsInv(Freed(s), e);
      AlikeHasStorage(Step(s, e), Step(Freed(s), e));
    }
  }

  lemma {:induction false} RunsKeepBase(run: seq<Event>)
    ensures BaseInv(Exec(run))
  {
    if run != [] {
      RunsKeepBase(run[..|run| - 1]);
      StepKeepsBase(Exec(run[..|run| - 1]), run[|run| - 1]);
    }
  }

  /** Every record the controller tries to store in a run, and every one it has read,
      passes the validator that guards the file, so no write is ever refused for its
      shape. */
  lemma {:induction false} EveryStoredRecordIsValid(run: seq<Event>)
    ensures Exec(run).disk.Some? ==> WellFormed(Exec(run).disk.value)
    ensures Exec(run).mem.Some? ==> WellFormed(Exec(run).mem.value.queue)
    ensures forall request :: request in Exec(run).captured && Exec(run).captured[request].Some? ==>
              WellFormed(Exec(run).captured[request].value)
  {
    RunsKeepBase(run);
  }

  predicate MarkedAt(run: seq<Event>, i: nat, id: Id)
    requires i <= |run|
  {
    id in AttemptedOn(StateAt(run, i).disk)
  }

  lemma {:induction false} MarksAreOnDisk(run: seq<Event>, id: Id)
    requires id in Exec(run).marked
    ensures exists i :: 0 <= i <= |run| && MarkedAt(run, i, id)
  {
    assert run[..|run|] == run;
    if run != [] {
      var before := run[..|run| - 1];
      if id in Exec(before).marked {
        MarksAreOnDisk(before, id);
        var i :| 0 <= i <= |before| && MarkedAt(before, i, id);
        StateAtPrefix(run, i);
        assert MarkedAt(run, i, id);
      } else {
        StepAddsAccounting(Exec(before), run[|run| - 1]);
        assert MarkedAt(run, |run|, id);
      }
    }
  }

  lemma SubmittedItemIsMarked(s: State, id: Id)
    requires MarkInv(s) && Submits(s, Submit, id)
    ensures id in s.marked
  {
    assert id in Unsent(s);
  }

  /** Before an item is sent, the record on disk has shown it as attempted: the run up
      to the submission has a state with that mark. */
  lemma {:induction false} SubmissionFollowsADurableMark(run: seq<Event>, id: Id)
    requires Submits(Exec(run), Submit, id)
    ensures exists i :: 0 <= i <= |run| && MarkedAt(run, i, id)
  {
    RunsKeepBase(run);
    SubmittedItemIsMarked(Exec(run), id);
    MarksAreOnDisk(run, id);
  }

  // ------------------------------------------------------------------
  // What a request installs
  // ------------------------------------------------------------------

  /** The code reads the record before it takes the manager's lock, so what a request
      installs may be old. These are conditions on the interleaving, not facts about
      the code. */
  predicate Fresh(s: State, request: nat) {
    request in s.captured ==> s.captured[request] == s.disk
  }

  function Stored(record: Option<Queue>): Queue { Loaded(record, 0).queue }

  /** The record read offers for sending only what the stored one offers. */
  predicate Offered(s: State, request: nat) {
    request in s.captured ==> RunnableIds(Stored(s.captured[request])) <= RunnableIds(Stored(s.disk))
  }

  /** The record read holds every item of the stored one, and remembers no request that
      the stored one has not remembered. */
  predicate Covers(s: State, request: nat) {
    request in s.captured ==>
      && Ids(Stored(s.disk)) <= Ids(Stored(s.captured[request]))
      && forall op :: op in Stored(s.captured[request]).handled ==> op in Stored(s.disk).handled
  }

  /** Every item the record read offers for sending has a submission to spare. */
  predicate Spendable(s: State, request: nat) {
    request in s.captured ==>
      forall id <- RunnableIds(Stored(s.captured[request])) :: s.submitted[id] <= s.retried[id]
  }

  /** The record read holds every item that must be kept, and remembers no addition
      whose item it, or the disk, would have to keep and does not. */
  predicate Complete(s: State, request: nat) {
    request in s.captured ==>
      var q := Stored(s.captured[request]);
      && s.acked - s.released <= Ids(q)
      && forall op :: op in q.handled && op in s.adds ==>
           s.adds[op] in s.released || (s.adds[op] in Ids(q) && s.adds[op] in DiskIds(s))
  }

  predicate Safe(s: State, request: nat) { Spendable(s, request) && Complete(s, request) }

  /** The event installs a record that was read before. */
  predicate Installs(s: State, e: Event) { e.Install? && s.mem.None? && e.request in s.captured }

  /** Every install of the run meets the condition where it happens. */
  ghost predicate InstallsMeet(run: seq<Event>, condition: (State, nat) -> bool) {
    run != [] ==>
      var before, last := run[..|run| - 1], run[|run| - 1];
      InstallsMeet(before, condition) && (Installs(Exec(before), last) ==> condition(Exec(before), last.request))
  }

  // ------------------------------------------------------------------
  // Delivery
  // ------------------------------------------------------------------

  predicate Submits(s: State, e: Event, id: Id) {
    && e.Submit? && s.mem.Some? && s.mem.value.call.Some?
    && !s.mem.value.call.value.sent && s.mem.value.call.value.queueId == Some(id)
  }

  /** A user's retry request that reaches the item. */
  predicate Retries(s: State, e: Event, id: Id) {
    e.Retry? && s.mem.Some? && e.identity.fingerprint.action.RetryAction? &&
    var m := s.mem.value;
    && Lookup(m.queue.handled, e.identity).New?
    && !(e.expected != m.queue.revision && (m.queue.blocked.None? || m.queue.blocked.value.id != e.retryId))
    && RetryTarget(m.queue, m.promptActive) == Some(id)
  }

  function SubmissionCount(run: seq<Event>, id: Id): nat {
    if run == [] then 0
    else SubmissionCount(run[..|run| - 1], id) + Indicator(Submits(Exec(run[..|run| - 1]), run[|run| - 1], id))
  }

  function RetryCount(run: seq<Event>, id: Id): nat {
    if run == [] then 0
    else RetryCount(run[..|run| - 1], id) + Indicator(Retries(Exec(run[..|run| - 1]), run[|run| - 1], id))
  }

  lemma OthersCountNothing(s: State, e: Event)
    ensures !e.Submit? ==> Step(s, e).submitted == s.submitted
    ensures !e.Retry? ==> Step(s, e).retried == s.retried
  {
    hide Enabled, Flat, Lookup, Edited, Without, PlaceOf, Remember, Stamped, Requeued, Retried, Prepared, Marked, Settled;
    hide Recovered, Replayed, QueuedText, Prompting, Reattached, Loaded, Added, Exists, RetryTarget, ReleasedBy;
  }

  lemma StepCounts(s: State, e: Event, id: Id)
    ensures Step(s, e).submitted[id] == s.submitted[id] + Indicator(Submits(s, e, id))
    ensures Step(s, e).retried[id] == s.retried[id] + Indicator(Retries(s, e, id))
  {
    OthersCountNothing(s, e);
    hide Flat, Lookup, Remember, Stamped, Retried, ReleasedBy, RetryTarget;
    if !(e.Submit? || e.Retry?) {
      hide Step;
    }
  }

  lemma {:induction false} CountersAreEventCounts(run: seq<Event>, id: Id)
    ensures Exec(run).submitted[id] == SubmissionCount(run, id)
    ensures Exec(run).retried[id] == RetryCount(run, id)
  {
    if run != [] {
      CountersAreEventCounts(run[..|run| - 1], id);
      StepCounts(Exec(run[..|run| - 1]), run[|run| - 1], id);
    }
  }

  /** An install that offers an item whose submissions its user's retries have already
      used up. */
  predicate Overdraws(s: State, e: Event, id: Id) {
    Installs(s, e) && id in RunnableIds(Stored(s.captured[e.request])) && s.retried[id] < s.submitted[id]
  }

  function OverdrawCount(run: seq<Event>, id: Id): nat {
    if run == [] then 0
    else OverdrawCount(run[..|run| - 1], id) + Indicator(Overdraws(Exec(run[..|run| - 1]), run[|run| - 1], id))
  }

  /** The budget of one item, with what installs have added to it. */
  ghost predicate Budget(s: State, id: Id, extra: nat) {
    s.submitted[id] + Indicator(id in Runnable(s)) + Indicator(id in Unsent(s)) <= 1 + s.retried[id] + extra
  }

  /** The state seen from one item: its budget is exact, all others have plenty. */
  function Focused(s: State, id: Id, extra: nat): State {
    Freed(s).(retried := (s.submitted + multiset(s.created))[id := s.retried[id] + extra])
  }

  lemma FocusedHasTheInvariant(s: State, id: Id, extra: nat)
    requires BaseInv(s) && Budget(s, id, extra)
    ensures Inv(Focused(s, id, extra)) && Alike(s, Focused(s, id, extra))
  {
  }

  lemma InstallSpendsBudget(s: State, e: Event, id: Id, extra: nat)
    requires Budget(s, id, extra) && e.Install?
    ensures Budget(Step(s, e), id, extra + Indicator(Overdraws(s, e, id)))
  {
    if Installs(s, e) {
      assert RunnableIds(Loaded(s.captured[e.request], e.revision).queue) == RunnableIds(Stored(s.captured[e.request]));
    }
  }

  lemma AlikeInBudget(s: State, t: State, id: Id, extra: nat)
    requires Alike(s, t) && Budget(t, id, 0) && t.retried[id] == s.retried[id] + extra
    ensures Budget(s, id, extra)
  {
  }

  lemma {:induction false} StepKeepsBudget(s: State, e: Event, id: Id, extra: nat)
    requires BaseInv(s) && Budget(s, id, extra)
    ensures Budget(Step(s, e), id, extra + Indicator(Overdraws(s, e, id)))
  {
    if e.Install? {
      InstallSpendsBudget(s, e, id, extra);
    } else {
      var t := Focused(s, id, extra);
      FocusedHasTheInvariant(s, id, extra);
      StepsCommute(s, t, e);
      QuietStepKeepsInv(t, e);
      StepCounts(s, e, id);
      StepCounts(t, e, id);
      assert Budget(Step(t, e), id, 0);
      AlikeInBudget(Step(s, e), Step(t, e), id, extra);
    }
  }

  lemma {:induction false} RunsKeepBudget(run: seq<Event>, id: Id)
    ensures Budget(Exec(run), id, OverdrawCount(run, id))
  {
    if run != [] {
      var before := run[..|run| - 1];
      RunsKeepBase(before);
      RunsKeepBudget(before, id);
      StepKeepsBudget(Exec(before), run[|run| - 1], id, OverdrawCount(before, id));
    }
  }

  /** Through crashes, evictions, reconnects, failed and ambiguous writes and any user
      edits, an item is sent to the agent at most once more often than its user asked
      for a retry and an old record that still offered it was installed. */
  lemma {:induction false} AtMostOneSubmissionPerRequest(run: seq<Event>, id: Id)
    ensures SubmissionCount(run, id) <= 1 + RetryCount(run, id) + OverdrawCount(run, id)
    ensures InstallsMeet(run, Spendable) ==> SubmissionCount(run, id) <= 1 + RetryCount(run, id)
  {
    RunsKeepBudget(run, id);
    CountersAreEventCounts(run, id);
    if InstallsMeet(run, Spendable) {
      SpendableNeverOverdraws(run, id);
    }
  }

  lemma {:induction false} SpendableNeverOverdraws(run: seq<Event>, id: Id)
    requires InstallsMeet(run, Spendable)
    ensures OverdrawCount(run, id) == 0
  {
    if run != [] {
      SpendableNeverOverdraws(run[..|run| - 1], id);
    }
  }

  // ------------------------------------------------------------------
  // Conservation
  // ------------------------------------------------------------------

  predicate InExactlyOnePlace(q: Queue, id: Id) {
    exists k :: 0 <= k < |Flat(q)| && Flat(q)[k].id == id
      && forall j :: 0 <= j < |Flat(q)| && Flat(q)[j].id == id ==> j == k
  }

  lemma DistinctMeansOnePlace(q: Queue, id: Id)
    requires WellFormed(q) && id in Ids(q)
    ensures InExactlyOnePlace(q, id)
  {
    var item :| item in Flat(q) && item.id == id;
    var k :| 0 <= k < |Flat(q)| && Flat(q)[k] == item;
    forall j | 0 <= j < |Flat(q)| && Flat(q)[j].id == id ensures j == k {
      assert !(j < k) && !(k < j);
    }
  }

  predicate ReleasedAt(run: seq<Event>, i: nat, id: Id)
    requires i < |run|
  {
    Enabled(StateAt(run, i), run[i]) && Releases(StateAt(run, i), run[i], id)
  }

  lemma {:induction false} ReleasesHaveACause(run: seq<Event>, id: Id)
    requires id in Exec(run).released
    ensures exists i :: 0 <= i < |run| && ReleasedAt(run, i, id)
  {
    if run != [] {
      var before := run[..|run| - 1];
      if id in Exec(before).released {
        ReleasesHaveACause(before, id);
        var i :| 0 <= i < |before| && ReleasedAt(before, i, id);
        StateAtPrefix(run, i);
        assert ReleasedAt(run, i, id);
      } else {
        StepAddsAccounting(Exec(before), run[|run| - 1]);
        assert ReleasedAt(run, |run| - 1, id);
      }
    }
  }

  /** The state with retries to spare. */
  function Rich(s: State): State { s.(retried := s.submitted + multiset(s.created)) }

  lemma RichHasTheInvariant(s: State)
    requires BaseInv(s) && ConservationInv(s)
    ensures Inv(Rich(s)) && Alike(s, Rich(s)) && SamePromises(s, Rich(s))
  {
  }

  lemma AlikeConserves(s: State, t: State)
    requires Alike(s, t) && SamePromises(s, t) && ConservationInv(t)
    ensures ConservationInv(s)
  {
    hide Flat;
  }

  lemma InstallConserves(s: State, e: Event)
    requires ConservationInv(s) && e.Install? && (Installs(s, e) ==> Complete(s, e.request))
    ensures ConservationInv(Step(s, e))
  {
    if Installs(s, e) {
      var q := Loaded(s.captured[e.request], e.revision).queue;
      assert Ids(q) == Ids(Stored(s.captured[e.request])) && q.handled == Stored(s.captured[e.request]).handled by {
        assert Flat(q) == Flat(Stored(s.captured[e.request]));
      }
    }
  }

  lemma {:induction false} StepConserves(s: State, e: Event)
    requires BaseInv(s) && ConservationInv(s)
    requires Installs(s, e) ==> Complete(s, e.request)
    ensures ConservationInv(Step(s, e))
  {
    if e.Install? {
      InstallConserves(s, e);
    } else {
      RichHasTheInvariant(s);
      StepsCommute(s, Rich(s), e);
      QuietStepKeepsInv(Rich(s), e);
      AlikeConserves(Step(s, e), Step(Rich(s), e));
    }
  }

  lemma {:induction false} RunsConserve(run: seq<Event>)
    requires InstallsMeet(run, Complete)
    ensures ConservationInv(Exec(run))
  {
    if run != [] {
      RunsKeepBase(run[..|run| - 1]);
      RunsConserve(run[..|run| - 1]);
      StepConserves(Exec(run[..|run| - 1]), run[|run| - 1]);
    }
  }

  /** Once its addition was acknowledged, an item is on disk in exactly one place, and
      in exactly one place of the projection when there is one, until a step whose
      write landed released it: the user removed it, its prompt was accepted or echoed
      in full, a reloaded transcript held it at the recorded position, or its chat was
      deleted. */
  lemma {:induction false} AcknowledgedItemsAreKept(run: seq<Event>, id: Id)
    requires InstallsMeet(run, Complete) && id in Exec(run).acked
    ensures var s := Exec(run);
            || (&& s.disk.Some? && InExactlyOnePlace(s.disk.value, id)
                && (s.mem.Some? ==> InExactlyOnePlace(s.mem.value.queue, id)))
            || (exists i :: 0 <= i < |run| && ReleasedAt(run, i, id))
  {
    var s := Exec(run);
    RunsKeepBase(run);
    RunsConserve(run);
    if id in s.released {
      ReleasesHaveACause(run, id);
    } else {
      assert id in s.acked - s.released;
      DistinctMeansOnePlace(s.disk.value, id);
      if s.mem.Some? {
        DistinctMeansOnePlace(s.mem.value.queue, id);
      }
    }
  }

  // ------------------------------------------------------------------
  // The whole invariant
  // ------------------------------------------------------------------

  /** A step keeps the whole invariant, an install among them when what it installs has
      submissions to spare and misses nothing that must be kept. */
  lemma {:induction false} StepKeepsInv(s: State, e: Event)
    requires Inv(s) && CapturedInv(s) && (Installs(s, e) ==> Safe(s, e.request))
    ensures Inv(Step(s, e)) && CapturedInv(Step(s, e))
  {
    StepKeepsBase(s, e);
    StepConserves(s, e);
    forall id
      ensures var s' := Step(s, e);
              s'.submitted[id] + Indicator(id in Runnable(s')) + Indicator(id in Unsent(s')) <= 1 + s'.retried[id]
    {
      hide Step, StorageInv, MarkInv, CapturedInv, ConservationInv, Runnable, Unsent, Stored;
      assert Budget(s, id, 0);
      StepKeepsBudget(s, e, id, 0);
    }
  }

  lemma {:induction false} RunsKeepInv(run: seq<Event>)
    requires InstallsMeet(run, Safe)
    ensures Inv(Exec(run)) && CapturedInv(Exec(run))
  {
    if run != [] {
      RunsKeepInv(run[..|run| - 1]);
      StepKeepsInv(Exec(run[..|run| - 1]), run[|run| - 1]);
    }
  }

  // ------------------------------------------------------------------
  // Conditions on the stored records alone
  // ------------------------------------------------------------------

  lemma {:induction false} OfferedIsSpendable(s: State, request: nat)
    requires forall id :: Budget(s, id, 0)
    ensures Offered(s, request) ==> Spendable(s, request)
  {
    if request in s.captured && Offered(s, request) {
      assert Flat(EmptyQueue(0)) == [];
      forall id | id in RunnableIds(Stored(s.captured[request])) ensures s.submitted[id] <= s.retried[id] {
        assert id in Runnable(s) && Budget(s, id, 0);
      }
    }
  }

  lemma CoveringIsComplete(s: State, request: nat)
    requires ConservationInv(s)
    ensures Covers(s, request) ==> Complete(s, request)
  {
    assert Flat(EmptyQueue(0)) == [];
  }

  /** Two conditions that compare the record read with the one that is stored: it
      offers nothing else for sending, and misses nothing. */
  lemma {:induction false} OfferedInstallsAreSpendable(run: seq<Event>)
    requires InstallsMeet(run, Offered)
    ensures InstallsMeet(run, Spendable)
  {
    if run != [] {
      var before, last := run[..|run| - 1], run[|run| - 1];
      OfferedInstallsAreSpendable(before);
      forall id ensures Budget(Exec(before), id, 0) {
        RunsKeepBudget(before, id);
        SpendableNeverOverdraws(before, id);
      }
      if Installs(Exec(before), last) {
        OfferedIsSpendable(Exec(before), last.request);
      }
    }
  }

  lemma {:induction false} CoveringInstallsAreComplete(run: seq<Event>)
    requires InstallsMeet(run, Covers)
    ensures InstallsMeet(run, Complete)
  {
    if run != [] {
      var before, last := run[..|run| - 1], run[|run| - 1];
      CoveringInstallsAreComplete(before);
      RunsConserve(before);
      if Installs(Exec(before), last) {
        CoveringIsComplete(Exec(before), last.request);
      }
    }
  }

  /** A run whose installs are of the record still stored meets every condition. */
  lemma {:induction false} FreshInstallsAreSafe(run: seq<Event>)
    requires InstallsMeet(run, Fresh)
    ensures InstallsMeet(run, Offered) && InstallsMeet(run, Covers)
    ensures InstallsMeet(run, Spendable) && InstallsMeet(run, Complete) && InstallsMeet(run, Safe)
  {
    if run != [] {
      FreshInstallsAreSafe(run[..|run| - 1]);
    }
    OfferedInstallsAreSpendable(run);
    CoveringInstallsAreComplete(run);
  }
}
