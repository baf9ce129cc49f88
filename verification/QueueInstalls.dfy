/** Exactly which records a request may install. The code reads the record before it
    takes the manager's lock, so what it installs can be old. For each of the three
    promises about the queue, an install breaks it in some continuation exactly when the
    record it installs fails a condition that can be stated before the install. */
module QueueInstalls {
  import opened Base
  import opened QueueModel
  import opened QueueOrder
  import opened QueueSafety
  import opened QueueSteps
  import opened QueueRuns
  import opened QueueRequests

  // ------------------------------------------------------------------
  // Continuations without another install
  // ------------------------------------------------------------------

  /** A run continued without another install. */
  predicate Continues(run: seq<Event>, longer: seq<Event>) {
    run <= longer && forall i :: |run| <= i < |longer| ==> !longer[i].Install?
  }

  lemma {:induction false} Extend(start: seq<Event>, run: seq<Event>, e: Event, id: Id)
    requires Continues(start, run) && !e.Install?
    ensures Exec(run + [e]) == Step(Exec(run), e) && Continues(start, run + [e])
    ensures SubmissionCount(run + [e], id) == SubmissionCount(run, id) + Indicator(Submits(Exec(run), e, id))
    ensures RetryCount(run + [e], id) == RetryCount(run, id) + Indicator(Retries(Exec(run), e, id))
  {
    assert (run + [e])[..|run + [e]| - 1] == run;
    hide Step;
  }

  /** A loaded chat at rest. */
  predicate AtRest(s: State) {
    s.mem.Some? && !s.mem.value.promptActive && !s.mem.value.streaming && s.mem.value.call.None?
  }

  const NOBODY := Operation("", Fingerprint(RemoveAction, ""))

  /** The user removes the first item shown. */
  lemma FirstRemoved(s: State, id: Id)
    requires AtRest(s) && Flat(s.mem.value.queue) != []
    ensures var q := s.mem.value.queue;
            var e := Remove(0, NOBODY, q.revision, q.revision + 1, Saved);
            && Exists(q, PlaceOf(q, true, 0))
            && !Submits(s, e, id) && !Retries(s, e, id)
            && AtRest(Step(s, e))
            && Step(s, e).mem.value.queue == Without(q, PlaceOf(q, true, 0)).(revision := q.revision + 1)
            && Step(s, e).disk == Some(Step(s, e).mem.value.queue) && Step(s, e).acked == s.acked
            && Step(s, e).released == s.released + ReleasedBy(s, e)
  {
  }

  /** The chat is attached to a transcript that does not show the prepared dispatch. */
  lemma AttachedBack(s: State, id: Id)
    requires AtRest(s) && s.mem.value.queue.dispatch.Some? && !s.mem.value.queue.dispatch.value.attempted
    ensures var q := s.mem.value.queue;
            var e := Attach(1, seq(q.dispatch.value.previousUsers, _ => ""), q.revision + 1, Saved);
            && !Submits(s, e, id) && !Retries(s, e, id)
            && AtRest(Step(s, e)) && Step(s, e).mem.value.queue == Requeued(q, q.revision + 1)
  {
  }

  lemma Attached(s: State, id: Id)
    requires AtRest(s) && s.mem.value.queue.dispatch.None?
    ensures var e := Attach(1, [], 0, Saved);
            && !Submits(s, e, id) && !Retries(s, e, id)
            && AtRest(Step(s, e)) && Step(s, e).mem.value.queue == s.mem.value.queue
  {
  }

  lemma HeadPrepared(s: State, id: Id)
    requires AtRest(s)
    requires var q := s.mem.value.queue; q.dispatch.None? && q.blocked.None? && q.followUp != [] && q.followUp[0].id == id
    ensures var e := Prepare(0, Saved);
            && !Submits(s, e, id) && !Retries(s, e, id) && AtRest(Step(s, e))
            && var d := Step(s, e).mem.value.queue.dispatch; d.Some? && !d.value.attempted && d.value.id == id
  {
  }

  lemma HeadStarted(s: State, id: Id)
    requires AtRest(s)
    requires var d := s.mem.value.queue.dispatch; d.Some? && !d.value.attempted && d.value.id == id
    ensures var e := Start(Saved);
            && !Submits(s, e, id) && !Retries(s, e, id)
            && Step(s, e).mem.Some? && Step(s, e).mem.value.call == Some(Call(Some(id), false))
  {
  }

  lemma HeadSubmitted(s: State, id: Id)
    requires s.mem.Some? && s.mem.value.call == Some(Call(Some(id), false))
    ensures Submits(s, Submit, id) && !Retries(s, Submit, id)
  {
  }

  // ------------------------------------------------------------------
  // A continuation that sends an offered item
  // ------------------------------------------------------------------

  /** The head of the follow-ups is attached, prepared, marked and sent. */
  lemma {:induction false} HeadIsSent(start: seq<Event>, run: seq<Event>, id: Id) returns (longer: seq<Event>)
    requires Continues(start, run) && AtRest(Exec(run))
    requires var q := Exec(run).mem.value.queue; q.dispatch.None? && q.blocked.None? && q.followUp != [] && q.followUp[0].id == id
    ensures Continues(start, longer)
    ensures SubmissionCount(longer, id) == SubmissionCount(run, id) + 1 && RetryCount(longer, id) == RetryCount(run, id)
  {
    hide Step, Submits, Retries, AtRest, Exec, SubmissionCount, RetryCount, Continues;
    Attached(Exec(run), id);
    Extend(start, run, Attach(1, [], 0, Saved), id);
    longer := run + [Attach(1, [], 0, Saved)];
    HeadPrepared(Exec(longer), id);
    Extend(start, longer, Prepare(0, Saved), id);
    longer := longer + [Prepare(0, Saved)];
    HeadStarted(Exec(longer), id);
    Extend(start, longer, Start(Saved), id);
    longer := longer + [Start(Saved)];
    HeadSubmitted(Exec(longer), id);
    Extend(start, longer, Submit, id);
    longer := longer + [Submit];
  }

  lemma RestHasTheItem(q: Queue, id: Id)
    requires id in IdSet(q.followUp) && Flat(q) != [] && Exists(q, PlaceOf(q, true, 0))
    requires q.dispatch.None? && q.blocked.None? ==> q.followUp[0].id != id
    ensures var rest := Without(q, PlaceOf(q, true, 0));
            |Flat(rest)| < |Flat(q)| && id in IdSet(rest.followUp) && (rest.dispatch.Some? ==> q.dispatch.Some?)
  {
    var item :| item in q.followUp && item.id == id;
    if q.dispatch.None? && q.blocked.None? {
      assert q.followUp == [q.followUp[0]] + q.followUp[1..];
      assert Without(q, PlaceOf(q, true, 0)).followUp == q.followUp[1..];
      assert item in q.followUp[1..];
    }
  }

  /** An item among the follow-ups of a chat at rest can be brought to the head and sent. */
  lemma {:induction false} FollowUpIsSent(start: seq<Event>, run: seq<Event>, id: Id) returns (longer: seq<Event>)
    requires Continues(start, run) && AtRest(Exec(run)) && id in IdSet(Exec(run).mem.value.queue.followUp)
    ensures Continues(start, longer)
    ensures SubmissionCount(longer, id) == SubmissionCount(run, id) + 1 && RetryCount(longer, id) == RetryCount(run, id)
    decreases |Flat(Exec(run).mem.value.queue)|
  {
    var s := Exec(run);
    var q := s.mem.value.queue;
    if q.dispatch.None? && q.blocked.None? && q.followUp[0].id == id {
      longer := HeadIsSent(start, run, id);
    } else {
      FirstRemoved(s, id);
      RestHasTheItem(q, id);
      hide Step, Submits, Retries, AtRest, Exec, SubmissionCount, RetryCount, Continues, Without, PlaceOf;
      var e := Remove(0, NOBODY, q.revision, q.revision + 1, Saved);
      Extend(start, run, e, id);
      longer := FollowUpIsSent(start, run + [e], id);
    }
  }

  lemma RequeuedIsFollowUp(q: Queue)
    requires q.dispatch.Some?
    ensures !q.dispatch.value.attempted ==> RunnableIds(q) == IdSet(Requeued(q, q.revision + 1).followUp)
  {
    IdSetPrepend(Item(q.dispatch.value.id, q.dispatch.value.text), q.followUp);
  }

  /** A prepared dispatch is put back by an attachment and sent as a follow-up. */
  lemma {:induction false} PreparedIsSent(start: seq<Event>, run: seq<Event>, id: Id) returns (longer: seq<Event>)
    requires Continues(start, run) && AtRest(Exec(run)) && id in RunnableIds(Exec(run).mem.value.queue)
    requires var d := Exec(run).mem.value.queue.dispatch; d.Some? && !d.value.attempted
    ensures Continues(start, longer)
    ensures SubmissionCount(longer, id) == SubmissionCount(run, id) + 1 && RetryCount(longer, id) == RetryCount(run, id)
  {
    var q := Exec(run).mem.value.queue;
    hide Step, Core, Submits, Retries, AtRest, Exec, SubmissionCount, RetryCount, Continues, Requeued, RunnableIds, Flat;
    AttachedBack(Exec(run), id);
    RequeuedIsFollowUp(q);
    var e := Attach(1, seq(q.dispatch.value.previousUsers, _ => ""), q.revision + 1, Saved);
    Extend(start, run, e, id);
    longer := FollowUpIsSent(start, run + [e], id);
  }

  lemma OnlyFollowUpsRunnable(q: Queue, id: Id)
    requires id in RunnableIds(q) && !(q.dispatch.Some? && !q.dispatch.value.attempted)
    ensures id in IdSet(q.followUp)
  {
  }

  /** Whatever a chat at rest may send, some continuation sends. */
  lemma {:induction false} RunnableIsSent(start: seq<Event>, run: seq<Event>, id: Id) returns (longer: seq<Event>)
    requires Continues(start, run) && AtRest(Exec(run)) && id in RunnableIds(Exec(run).mem.value.queue)
    ensures Continues(start, longer)
    ensures SubmissionCount(longer, id) == SubmissionCount(run, id) + 1 && RetryCount(longer, id) == RetryCount(run, id)
  {
    var q := Exec(run).mem.value.queue;
    hide AtRest, Exec, SubmissionCount, RetryCount, Continues, RunnableIds;
    if q.dispatch.Some? && !q.dispatch.value.attempted {
      longer := PreparedIsSent(start, run, id);
    } else {
      OnlyFollowUpsRunnable(q, id);
      longer := FollowUpIsSent(start, run, id);
    }
  }

  // ------------------------------------------------------------------
  // The exact condition for the delivery bound
  // ------------------------------------------------------------------

  lemma {:induction false} ContinuationsMeet(start: seq<Event>, longer: seq<Event>, condition: (State, nat) -> bool)
    requires InstallsMeet(start, condition) && Continues(start, longer)
    ensures InstallsMeet(longer, condition)
    decreases |longer|
  {
    if longer == start {
    } else {
      var before := longer[..|longer| - 1];
      assert start <= before && !longer[|longer| - 1].Install?;
      ContinuationsMeet(start, before, condition);
    }
  }

  lemma Installed(run: seq<Event>, e: Event)
    requires Installs(Exec(run), e)
    ensures Exec(run + [e]) == Step(Exec(run), e)
    ensures Continues(run + [e], run + [e])
  {
    assert (run + [e])[..|run + [e]| - 1] == run;
  }

  lemma InstalledMeets(run: seq<Event>, e: Event, condition: (State, nat) -> bool)
    requires Installs(Exec(run), e) && InstallsMeet(run, condition)
    requires condition(Exec(run), e.request)
    ensures InstallsMeet(run + [e], condition)
  {
    assert (run + [e])[..|run + [e]| - 1] == run;
  }

  /** What an install leads to: a loaded chat at rest that holds the record read. */
  lemma InstallRests(s: State, e: Event)
    requires Installs(s, e)
    ensures AtRest(Step(s, e))
    ensures var q := Step(s, e).mem.value.queue;
            q == Stored(s.captured[e.request]).(revision := q.revision)
            && Ids(q) == Ids(Stored(s.captured[e.request])) && RunnableIds(q) == RunnableIds(Stored(s.captured[e.request]))
    ensures Step(s, e).disk == s.disk && SamePromises(s, Step(s, e)) && Step(s, e).created == s.created
    ensures forall id :: Step(s, e).submitted[id] == s.submitted[id] && Step(s, e).retried[id] == s.retried[id]
  {
    assert Flat(Step(s, e).mem.value.queue) == Flat(Stored(s.captured[e.request]));
  }

  ghost predicate WithinBound(longer: seq<Event>) {
    forall id :: SubmissionCount(longer, id) <= 1 + RetryCount(longer, id)
  }

  /** Every continuation of an install keeps the delivery bound if and only if the
      installed record offers no item whose submissions are used up. */
  lemma {:induction false} InstallIsSafeExactlyWhenSpendable(run: seq<Event>, e: Event)
    requires InstallsMeet(run, Spendable) && Installs(Exec(run), e)
    ensures Spendable(Exec(run), e.request) <==>
            forall longer: seq<Event> | Continues(run + [e], longer) :: WithinBound(longer)
  {
    var installed := run + [e];
    Installed(run, e);
    InstallRests(Exec(run), e);
    hide Step, Core, Submits, Retries, Exec, SubmissionCount, RetryCount, Continues, InstallsMeet, AtRest;
    if Spendable(Exec(run), e.request) {
      InstalledMeets(run, e, Spendable);
      forall longer: seq<Event> | Continues(installed, longer) ensures WithinBound(longer) {
        ContinuationsMeet(installed, longer, Spendable);
        forall id ensures SubmissionCount(longer, id) <= 1 + RetryCount(longer, id) {
          AtMostOneSubmissionPerRequest(longer, id);
        }
      }
    } else {
      var id :| id in RunnableIds(Stored(Exec(run).captured[e.request])) && Exec(run).submitted[id] > Exec(run).retried[id];
      CountersAreEventCounts(installed, id);
      var longer := RunnableIsSent(installed, installed, id);
      assert !WithinBound(longer);
    }
  }

  // ------------------------------------------------------------------
  // The exact condition for conservation
  // ------------------------------------------------------------------

  /** No acknowledged item has left the disk without a reason to. */
  predicate Conserved(s: State) { s.acked - s.released <= DiskIds(s) }

  lemma {:induction false} UnusedId(used: set<Id>) returns (id: Id)
    ensures forall x :: x in used ==> x < id
  {
    if used == {} {
      id := 0;
    } else {
      var x :| x in used;
      var above := UnusedId(used - {x});
      id := if x < above then above else x + 1;
      assert forall y :: y in used ==> y == x || y in used - {x};
    }
  }

  const ADDER := Operation("", Fingerprint(AddAction, ""))

  /** A chat that does not hold the item loses it by its next removal. */
  lemma {:induction false} RemovalForgets(s: State, id: Id)
    requires AtRest(s) && Flat(s.mem.value.queue) != [] && WellFormed(s.mem.value.queue)
    requires id in s.acked - s.released && id !in MemIds(s)
    ensures var q := s.mem.value.queue;
            var e := Remove(0, NOBODY, q.revision, q.revision + 1, Saved);
            !Conserved(Step(s, e))
  {
    var q := s.mem.value.queue;
    var place := PlaceOf(q, true, 0);
    var e := Remove(0, NOBODY, q.revision, q.revision + 1, Saved);
    hide Step, Core, AtRest, Flat, WellFormed, PlaceOf, Without, Exists, ReleasedBy, Position, Ids;
    FirstRemoved(s, id);
    RemoveKeepsTheRecordValid(q, place);
    RevisionHasNoItems(Without(q, place), q.revision + 1);
    ReleasesAreHeld(s, e);
    var s' := Step(s, e);
    assert DiskIds(s') <= MemIds(s);
    assert id in s'.acked - s'.released;
  }

  lemma RevisionHasNoItems(q: Queue, revision: Revision)
    ensures Ids(q.(revision := revision)) == Ids(q)
  {
    assert Flat(q.(revision := revision)) == Flat(q);
  }

  lemma ReleasesAreHeld(s: State, e: Event)
    requires s.mem.Some?
    ensures ReleasedBy(s, e) <= MemIds(s)
  {
    hide Releases, Flat;
  }

  /** An empty one loses it by its next addition. */
  lemma LetterIsAText()
    ensures QueuedText("a") == Some("a")
  {
  }

  lemma {:induction false} AdditionForgets(s: State, id: Id, added: Id)
    requires AtRest(s) && Flat(s.mem.value.queue) == []
    requires id in s.acked - s.released && id in s.created && added !in s.created
    ensures var e := Add("a", ADDER, added, 0, Saved);
            !Conserved(Step(s, e))
  {
    var e := Add("a", ADDER, added, 0, Saved);
    LetterIsAText();
    hide QueuedText;
    var next := Added(s.mem.value.queue, Item(added, "a"), ADDER, 0);
    assert Flat(next) == [Item(added, "a")];
    assert Step(s, e).disk == Some(next) && Ids(next) == {added};
    ReleasesAreHeld(s, e);
  }

  lemma {:induction false} MissingIsLost(start: seq<Event>, run: seq<Event>, id: Id) returns (longer: seq<Event>)
    requires Continues(start, run) && AtRest(Exec(run))
    requires var s := Exec(run); id in s.acked - s.released && id in s.created && id !in MemIds(s)
    ensures Continues(start, longer) && !Conserved(Exec(longer))
  {
    var s := Exec(run);
    var q := s.mem.value.queue;
    RunsKeepBase(run);
    var e;
    if Flat(q) != [] {
      RemovalForgets(s, id);
      e := Remove(0, NOBODY, q.revision, q.revision + 1, Saved);
    } else {
      var added := UnusedId(s.created);
      AdditionForgets(s, id, added);
      e := Add("a", ADDER, added, 0, Saved);
    }
    Extend(start, run, e, id);
    longer := run + [e];
  }

  predicate KeyedAdds(s: State) { forall op :: op in s.adds ==> op.key != "" }

  lemma StepKeepsKeyedAdds(s: State, e: Event)
    requires KeyedAdds(s)
    ensures KeyedAdds(Step(s, e))
  {
    hide Flat, Lookup, Edited, Without, PlaceOf, Remember, Stamped, Requeued, Retried, Prepared, Marked, Settled;
    hide Recovered, Replayed, QueuedText, RetryTarget, Prompting, Reattached, Loaded, Added, Exists, ReleasedBy;
  }

  lemma {:induction false} RunsKeepKeyedAdds(run: seq<Event>)
    ensures KeyedAdds(Exec(run))
  {
    if run != [] {
      RunsKeepKeyedAdds(run[..|run| - 1]);
      StepKeepsKeyedAdds(Exec(run[..|run| - 1]), run[|run| - 1]);
    }
  }

  /** A repeated addition that is remembered is acknowledged, whether its item is kept
      or not. */
  lemma {:induction false} RepeatAcknowledges(s: State, op: Operation, added: Id)
    requires AtRest(s) && op in s.mem.value.queue.handled && DistinctKeys(s.mem.value.queue.handled)
    requires op in s.adds && op.key != "" && op.fingerprint.action.AddAction? && added !in s.created
    ensures var e := Add("a", op, added, 0, Saved);
            && AtRest(Step(s, e)) && Step(s, e).mem == s.mem && Step(s, e).disk == s.disk
            && Step(s, e).acked == s.acked + {s.adds[op]} && Step(s, e).released == s.released
            && Step(s, e).created == s.created
  {
    var handled := s.mem.value.queue.handled;
    assert QueuedText("a") == Some("a");
    var i :| 0 <= i < |handled| && handled[i] == op;
    LookupAt(handled, op, i);
  }

  lemma {:induction false} WrongAnswerLoses(start: seq<Event>, run: seq<Event>, op: Operation) returns (longer: seq<Event>)
    requires Continues(start, run) && AtRest(Exec(run))
    requires var s := Exec(run);
             && op in s.mem.value.queue.handled && op in s.adds && s.adds[op] !in s.released
             && op.fingerprint.action.AddAction? && s.adds[op] in s.created
             && (s.adds[op] !in MemIds(s) || s.adds[op] !in DiskIds(s))
    ensures Continues(start, longer) && !Conserved(Exec(longer))
  {
    var s := Exec(run);
    RunsKeepKeysDistinct(run);
    RunsKeepKeyedAdds(run);
    var added := UnusedId(s.created);
    var e := Add("a", op, added, 0, Saved);
    RepeatAcknowledges(s, op, added);
    Extend(start, run, e, 0);
    hide Step, Exec, Continues, KeysInv, SubmissionCount, RetryCount, Submits, Retries, AtRest;
    longer := run + [e];
    if s.adds[op] in DiskIds(s) {
      longer := MissingIsLost(start, longer, s.adds[op]);
    }
  }

  lemma {:induction false} IncompleteInstallLoses(run: seq<Event>, e: Event) returns (longer: seq<Event>)
    requires InstallsMeet(run, Complete) && Installs(Exec(run), e)
    requires !Complete(Exec(run), e.request)
    ensures Continues(run + [e], longer) && !Conserved(Exec(longer))
  {
    var s, installed := Exec(run), run + [e];
    var q := Stored(s.captured[e.request]);
    Installed(run, e);
    InstallRests(s, e);
    RunsConserve(run);
    hide Step, Core, Exec, Continues, InstallsMeet, AtRest, Flat, WellFormed, Stored;
    if id :| id in s.acked - s.released && id !in Ids(q) {
      longer := MissingIsLost(installed, installed, id);
    } else {
      var op :| op in q.handled && op in s.adds && s.adds[op] !in s.released
                && (s.adds[op] !in Ids(q) || s.adds[op] !in DiskIds(s));
      longer := WrongAnswerLoses(installed, installed, op);
    }
  }

  /** Every continuation of an install keeps every acknowledged item on disk if and only
      if the installed record holds what must be kept and remembers no addition whose
      item is not kept. */
  lemma {:induction false} InstallIsSafeExactlyWhenComplete(run: seq<Event>, e: Event)
    requires InstallsMeet(run, Complete) && Installs(Exec(run), e)
    ensures Complete(Exec(run), e.request) <==>
            forall longer: seq<Event> | Continues(run + [e], longer) :: Conserved(Exec(longer))
  {
    var installed := run + [e];
    hide Complete, Exec, Continues, InstallsMeet;
    if Complete(Exec(run), e.request) {
      InstalledMeets(run, e, Complete);
      forall longer: seq<Event> | Continues(installed, longer) ensures Conserved(Exec(longer)) {
        ContinuationsMeet(installed, longer, Complete);
        RunsConserve(longer);
      }
    } else {
      var longer := IncompleteInstallLoses(run, e);
    }
  }

  // ------------------------------------------------------------------
  // The exact condition for repeated requests
  // ------------------------------------------------------------------

  lemma {:induction false} UnusedKey(handled: seq<Operation>) returns (key: string)
    ensures key != "" && forall op :: op in handled ==> |op.key| < |key|
  {
    if handled == [] {
      key := "k";
    } else {
      var shorter := UnusedKey(handled[1..]);
      key := shorter + handled[0].key;
      assert handled == [handled[0]] + handled[1..];
    }
  }

  /** What one more request that counts does to the remembered ones. */
  ghost predicate Counted(s: State, e: Event) {
    && !e.Install? && !Deletes(e) && Counts(s, e) && AtRest(Step(s, e))
    && Step(s, e).mem.value.queue.handled == Remember(s.mem.value.queue.handled, IdentityOf(e))
  }

  lemma {:induction false} RemovalCounts(s: State, identity: Operation)
    requires AtRest(s) && Flat(s.mem.value.queue) != [] && identity.fingerprint.action.RemoveAction?
    requires Lookup(s.mem.value.queue.handled, identity).New?
    ensures Counted(s, Remove(0, identity, s.mem.value.queue.revision, 0, Saved))
  {
    ShownIndexesHavePlaces(s.mem.value.queue, true, 0);
    hide Lookup, Remember;
  }

  lemma {:induction false} AdditionCounts(s: State, identity: Operation, added: Id)
    requires AtRest(s) && Flat(s.mem.value.queue) == [] && identity.fingerprint.action.AddAction? && added !in s.created
    requires Lookup(s.mem.value.queue.handled, identity).New?
    ensures Counted(s, Add("a", identity, added, 0, Saved))
  {
    assert QueuedText("a") == Some("a");
    hide Lookup, Remember, Flat, QueuedText;
  }

  /** A chat at rest can always take another request that counts. */
  lemma {:induction false} AnotherRequest(s: State) returns (e: Event)
    requires AtRest(s)
    ensures Counted(s, e) && IdentityOf(e).key != "" && IdentityOf(e) !in s.mem.value.queue.handled
  {
    hide Counted, Flat;
    var q := s.mem.value.queue;
    var key := UnusedKey(q.handled);
    if Flat(q) != [] {
      var identity := Operation(key, Fingerprint(RemoveAction, ""));
      LookupUnused(q.handled, identity);
      RemovalCounts(s, identity);
      e := Remove(0, identity, q.revision, 0, Saved);
    } else {
      var identity := Operation(key, Fingerprint(AddAction, ""));
      var added := UnusedId(s.created);
      LookupUnused(q.handled, identity);
      AdditionCounts(s, identity, added);
      e := Add("a", identity, added, 0, Saved);
    }
  }

  lemma LookupUnused(handled: seq<Operation>, identity: Operation)
    requires forall op :: op in handled ==> op.key != identity.key
    ensures Lookup(handled, identity).New?
  {
    if handled != [] && identity.key != "" {
      assert handled == [handled[0]] + handled[1..];
      LookupUnused(handled[1..], identity);
    }
  }

  /** The operation is remembered, as the one that `age` others followed. */
  predicate Aged(handled: seq<Operation>, op: Operation, age: nat) {
    age < |handled| && handled[|handled| - 1 - age] == op
    && forall i :: 0 <= i < |handled| && handled[i] == op ==> i == |handled| - 1 - age
  }

  /** Remembering one more moves each of the others by one place when the list is full. */
  lemma RememberShifts(handled: seq<Operation>, identity: Operation)
    requires identity.key != "" && |handled| <= MAX_QUEUE_OPERATIONS
    ensures var next, cut := Remember(handled, identity), Indicator(|handled| == MAX_QUEUE_OPERATIONS);
            && |next| == |handled| + 1 - cut && next[|next| - 1] == identity
            && forall i :: 0 <= i < |next| - 1 ==> next[i] == handled[i + cut]
  {
    var all := handled + [identity];
    assert |handled| < MAX_QUEUE_OPERATIONS ==> Remember(handled, identity) == all;
    assert |handled| == MAX_QUEUE_OPERATIONS ==> Remember(handled, identity) == all[1..];
  }

  lemma RememberPushes(handled: seq<Operation>, op: Operation, identity: Operation, age: nat)
    requires Aged(handled, op, age) && identity.key != "" && identity != op && |handled| <= MAX_QUEUE_OPERATIONS
    ensures var next := Remember(handled, identity);
            if age + 1 < MAX_QUEUE_OPERATIONS then Aged(next, op, age + 1) else op !in next
  {
    hide Remember;
    RememberShifts(handled, identity);
    var next, last := Remember(handled, identity), |handled| - 1;
    forall i | 0 <= i < |next| && next[i] == op
      ensures i == |next| - 2 - age
    {
    }
  }

  lemma CountsOneMore(run: seq<Event>, e: Event, i: nat)
    requires i < |run|
    ensures CountedSince(run + [e], i) == CountedSince(run, i) + Indicator(Counts(Exec(run), e))
  {
    assert (run + [e])[..|run + [e]| - 1] == run;
  }

  /** One more request that counts makes the operation one older, or pushes it out. */
  lemma {:induction false} OnePushed(start: seq<Event>, run: seq<Event>, op: Operation, age: nat) returns (longer: seq<Event>)
    requires Continues(start, run) && start != [] && AtRest(Exec(run)) && Undeleted(run, |start| - 1)
    requires Aged(Exec(run).mem.value.queue.handled, op, age) && age < MAX_QUEUE_OPERATIONS
    ensures Continues(start, longer) && AtRest(Exec(longer)) && Undeleted(longer, |start| - 1)
    ensures var handled := Exec(longer).mem.value.queue.handled;
            if age + 1 < MAX_QUEUE_OPERATIONS then Aged(handled, op, age + 1) else op !in handled
    ensures CountedSince(longer, |start| - 1) == CountedSince(run, |start| - 1) + 1
  {
    var s := Exec(run);
    RunsKeepBase(run);
    QueueIsBounded(s);
    hide Step, Core, Exec, Counts, Remember, SubmissionCount, RetryCount, Submits, Retries, CountedSince;
    hide Aged, WellFormed, BaseInv, Flat;
    var e := AnotherRequest(s);
    Extend(start, run, e, 0);
    CountsOneMore(run, e, |start| - 1);
    RememberPushes(s.mem.value.queue.handled, op, IdentityOf(e), age) by {
      var handled := s.mem.value.queue.handled;
      AgedIsRemembered(handled, op, age);
    }
    longer := run + [e];
  }

  lemma AgedIsRemembered(handled: seq<Operation>, op: Operation, age: nat)
    requires Aged(handled, op, age)
    ensures op in handled
  {
  }

  lemma QueueIsBounded(s: State)
    requires StorageInv(s) && s.mem.Some?
    ensures WellFormed(s.mem.value.queue) && |s.mem.value.queue.handled| <= MAX_QUEUE_OPERATIONS
  {
  }

  /** As many requests as are missing to the limit push an operation out. */
  lemma {:induction false} PushedOut(start: seq<Event>, run: seq<Event>, op: Operation, age: nat) returns (longer: seq<Event>)
    requires Continues(start, run) && start != [] && AtRest(Exec(run)) && Undeleted(run, |start| - 1)
    requires Aged(Exec(run).mem.value.queue.handled, op, age) && age < MAX_QUEUE_OPERATIONS
    ensures Continues(start, longer) && Exec(longer).mem.Some? && Undeleted(longer, |start| - 1)
    ensures op !in Exec(longer).mem.value.queue.handled
    ensures CountedSince(longer, |start| - 1) == CountedSince(run, |start| - 1) + MAX_QUEUE_OPERATIONS - age
    decreases MAX_QUEUE_OPERATIONS - age
  {
    hide Exec, Aged, CountedSince, Continues, Undeleted;
    longer := OnePushed(start, run, op, age);
    if age + 1 < MAX_QUEUE_OPERATIONS {
      longer := PushedOut(start, longer, op, age + 1);
    }
  }

  /** In every continuation with few enough later requests, a repeat is recognised. */
  ghost predicate StaysAnswered(longer: seq<Event>, i: nat, op: Operation, n: nat) {
    n + CountedSince(longer, i) < MAX_QUEUE_OPERATIONS && Exec(longer).mem.Some? ==>
      Lookup(Exec(longer).mem.value.queue.handled, op).Duplicate?
  }

  lemma {:induction false} ContinuationsRemember(run: seq<Event>, e: Event, longer: seq<Event>, op: Operation, n: nat)
    requires Installs(Exec(run), e) && Continues(run + [e], longer)
    requires RemembersBoth(Exec(run), op, n) && Recent(Stored(Exec(run).captured[e.request]).handled, op, n)
    requires n + CountedSince(longer, |run|) < MAX_QUEUE_OPERATIONS && Undeleted(longer, |run|)
    ensures RemembersBoth(Exec(longer), op, n + CountedSince(longer, |run|))
    decreases |longer|
  {
    var before, last := longer[..|longer| - 1], longer[|longer| - 1];
    RunsKeepBase(before);
    if longer == run + [e] {
      assert before == run;
      StepRemembers(Exec(run), e, op, n);
    } else {
      assert run + [e] <= before && !last.Install?;
      ContinuationsRemember(run, e, before, op, n);
      StepRemembers(Exec(before), last, op, n + CountedSince(before, |run|));
    }
  }

  lemma OlderIsAged(handled: seq<Operation>, op: Operation, n: nat) returns (age: nat)
    requires op in handled && !Recent(handled, op, n) && DistinctKeys(handled)
    ensures Aged(handled, op, age) && n < age
  {
    var i :| 0 <= i < |handled| && handled[i] == op;
    age := |handled| - 1 - i;
  }

  lemma {:induction false} RecentStaysAnswered(run: seq<Event>, e: Event, longer: seq<Event>, op: Operation, n: nat)
    requires Installs(Exec(run), e)
    requires op.key != "" && n < MAX_QUEUE_OPERATIONS && RemembersBoth(Exec(run), op, n)
    requires Recent(Stored(Exec(run).captured[e.request]).handled, op, n)
    requires Continues(run + [e], longer) && Undeleted(longer, |run|)
    ensures StaysAnswered(longer, |run|, op, n)
  {
    hide Exec, Recent, RemembersBoth, Continues, Undeleted, DistinctKeys, CountedSince;
    if n + CountedSince(longer, |run|) < MAX_QUEUE_OPERATIONS {
      ContinuationsRemember(run, e, longer, op, n);
      RunsKeepKeysDistinct(longer);
      RecentAnswersRepeats(Exec(longer), op, n + CountedSince(longer, |run|));
    }
  }

  lemma {:induction false} OlderIsForgotten(run: seq<Event>, e: Event, op: Operation, n: nat) returns (longer: seq<Event>)
    requires Installs(Exec(run), e)
    requires op.key != "" && n < MAX_QUEUE_OPERATIONS && RemembersBoth(Exec(run), op, n)
    requires !Recent(Stored(Exec(run).captured[e.request]).handled, op, n)
    ensures Continues(run + [e], longer) && Undeleted(longer, |run|) && !StaysAnswered(longer, |run|, op, n)
  {
    var s, installed := Exec(run), run + [e];
    var handled := Stored(s.captured[e.request]).handled;
    Installed(run, e);
    InstallRests(s, e);
    RunsKeepKeysDistinct(run);
    RunsKeepBase(run);
    longer := installed;
    assert CountedSince(installed, |run|) == 0;
    if op in handled {
      var age := OlderIsAged(handled, op, n);
      longer := PushedOut(installed, installed, op, age);
    }
    LookupFinds(Exec(longer).mem.value.queue.handled, op);
  }

  /** Let the stored record remember an operation that n requests may have followed. In
      every continuation of an install with at most 511 - n further requests, and without
      the chat's deletion, a repeat is answered as a duplicate, if and only if the
      installed record remembers the operation as one that at most n others followed. */
  lemma {:induction false} InstallRemembersExactlyWhenRecent(run: seq<Event>, e: Event, op: Operation, n: nat)
    requires Installs(Exec(run), e)
    requires op.key != "" && n < MAX_QUEUE_OPERATIONS && RemembersBoth(Exec(run), op, n)
    ensures Recent(Stored(Exec(run).captured[e.request]).handled, op, n) <==>
            forall longer: seq<Event> | Continues(run + [e], longer) && Undeleted(longer, |run|) ::
              StaysAnswered(longer, |run|, op, n)
  {
    hide Exec, Recent, RemembersBoth, Continues, Undeleted, StaysAnswered;
    if Recent(Stored(Exec(run).captured[e.request]).handled, op, n) {
      forall longer: seq<Event> | Continues(run + [e], longer) && Undeleted(longer, |run|)
        ensures StaysAnswered(longer, |run|, op, n)
      {
        RecentStaysAnswered(run, e, longer, op, n);
      }
    } else {
      var longer := OlderIsForgotten(run, e, op, n);
    }
  }
}
