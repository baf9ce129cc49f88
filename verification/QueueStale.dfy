/** What old installs cost. A request reads the stored queue, is overtaken by whole
    other requests and an eviction, and then installs what it had read: three runs in
    which that sends an item twice without any retry, loses an acknowledged item, and
    executes one request twice. */
module QueueStale {
  import opened Base
  import opened QueueModel
  import opened QueueSafety
  import opened QueueRuns
  import opened QueueRequests

  const ANONYMOUS := Operation("", Fingerprint(AddAction, ""))

  const STORED := Queue(1, [Item(0, "hi")], None, None, [])

  function Prepared0(users: nat, attempted: bool): Queue {
    Queue(3, [], Some(Dispatch(0, "hi", users, attempted)), None, [])
  }

  lemma Extend(run: seq<Event>, e: Event)
    ensures Exec(run + [e]) == Step(Exec(run), e)
    ensures SubmissionCount(run + [e], 0) == SubmissionCount(run, 0) + Indicator(Submits(Exec(run), e, 0))
    ensures RetryCount(run + [e], 0) == RetryCount(run, 0) + Indicator(Retries(Exec(run), e, 0))
  {
    assert (run + [e])[..|run + [e]| - 1] == run;
  }

  lemma NothingYet()
    ensures Exec([]) == INITIAL && SubmissionCount([], 0) == 0 && RetryCount([], 0) == 0
  {
  }

  lemma StepAdd(s: State)
    requires s.mem == Some(Loaded(None, 0)) && 0 !in s.created
    ensures var e := Add("hi", ANONYMOUS, 0, 1, Saved);
            && Step(s, e).disk == Some(STORED) && Step(s, e).mem == Some(Loaded(Some(STORED), 0))
            && Step(s, e).captured == s.captured && !Submits(s, e, 0) && !Retries(s, e, 0)
  {
    assert QueuedText("hi") == Some("hi");
    assert Added(EmptyQueue(0), Item(0, "hi"), ANONYMOUS, 1) == STORED;
  }

  lemma StepAttach(s: State, revision: Revision, turns: seq<string>)
    requires s.mem == Some(Loaded(Some(STORED), revision))
    ensures var e := Attach(1, turns, 2, Saved);
            && Step(s, e).mem == Some(Mem(STORED, false, false, 1, turns, false, false, None))
            && Step(s, e).captured == s.captured && !Submits(s, e, 0) && !Retries(s, e, 0)
  {
  }

  lemma StepPrepare(s: State, turns: seq<string>)
    requires s.mem == Some(Mem(STORED, false, false, 1, turns, false, false, None))
    ensures var e := Prepare(3, Saved);
            && Step(s, e).mem == Some(Mem(Prepared0(|turns|, false), false, false, 1, turns, false, false, None))
            && Step(s, e).captured == s.captured && !Submits(s, e, 0) && !Retries(s, e, 0)
  {
    assert Prepared(STORED, |turns|, 3) == Prepared0(|turns|, false) by {
      assert STORED.followUp[1..] == [];
    }
  }

  lemma StepStart(s: State, turns: seq<string>)
    requires s.mem == Some(Mem(Prepared0(|turns|, false), false, false, 1, turns, false, false, None))
    ensures var e := Start(Saved);
            && Step(s, e).mem == Some(Mem(Prepared0(|turns|, true), true, true, 1, turns + ["hi"], true, false, Some(Call(Some(0), false))))
            && Step(s, e).captured == s.captured && !Submits(s, e, 0) && !Retries(s, e, 0)
  {
  }

  lemma StepLoadAny(s: State, revision: Revision)
    requires s.mem == None
    ensures var e := LoadNow(revision);
            && Step(s, e).mem == Some(Loaded(s.disk, revision)) && Step(s, e).created == s.created
            && Step(s, e).captured == s.captured && !Submits(s, e, 0) && !Retries(s, e, 0)
  {
  }

  lemma StepRead(s: State)
    requires s.captured == map[] && s.mem == None
    ensures var e := Capture(0);
            && Step(s, e).mem == None && Step(s, e).disk == s.disk
            && Step(s, e).captured == map[0 := s.disk] && !Submits(s, e, 0) && !Retries(s, e, 0)
  {
  }

  lemma StepInstall(s: State, record: Queue)
    requires s.mem == None && s.captured == map[0 := Some(record)]
    ensures var e := Install(0, 5);
            && Step(s, e).mem == Some(Loaded(Some(record), 5))
            && !Submits(s, e, 0) && !Retries(s, e, 0)
  {
  }

  /** One request adds an item; it is evicted; a second request reads the record. */
  lemma {:induction false} AddedEvictedCaptured() returns (run: seq<Event>)
    ensures Exec(run).disk == Some(STORED) && Exec(run).mem == None && Exec(run).captured == map[0 := Some(STORED)]
    ensures SubmissionCount(run, 0) == 0 && RetryCount(run, 0) == 0
  {
    run := [];
    hide Step, Core, Submits, Retries, Exec, SubmissionCount, RetryCount, Loaded;
    NothingYet();
    StepLoadAny(Exec(run), 0);
    Extend(run, LoadNow(0));
    run := run + [LoadNow(0)];
    StepAdd(Exec(run));
    Extend(run, Add("hi", ANONYMOUS, 0, 1, Saved));
    run := run + [Add("hi", ANONYMOUS, 0, 1, Saved)];
    LoadedRests(Some(STORED), 0);
    StepEvict(Exec(run));
    Extend(run, Evict);
    run := run + [Evict];
    StepRead(Exec(run));
    Extend(run, Capture(0));
    run := run + [Capture(0)];
  }

  /** From a loaded projection with one follow-up, the drain attaches and marks it. */
  lemma {:induction false} Started(start: seq<Event>, revision: Revision, turns: seq<string>) returns (run: seq<Event>)
    requires Exec(start).mem == Some(Loaded(Some(STORED), revision))
    ensures Exec(run).mem.Some? && Exec(run).captured == Exec(start).captured
    ensures Exec(run).mem.value.queue == Prepared0(|turns|, true) && Exec(run).mem.value.call == Some(Call(Some(0), false))
    ensures SubmissionCount(run, 0) == SubmissionCount(start, 0) && RetryCount(run, 0) == RetryCount(start, 0)
  {
    hide Step, Core, Submits, Retries, Exec, SubmissionCount, RetryCount, Prepared0, Loaded;
    StepAttach(Exec(start), revision, turns);
    Extend(start, Attach(1, turns, 2, Saved));
    run := start + [Attach(1, turns, 2, Saved)];
    StepPrepare(Exec(run), turns);
    Extend(run, Prepare(3, Saved));
    run := run + [Prepare(3, Saved)];
    StepStart(Exec(run), turns);
    Extend(run, Start(Saved));
    run := run + [Start(Saved)];
  }

  lemma StepSubmit(s: State)
    requires s.mem.Some? && s.mem.value.call == Some(Call(Some(0), false))
    ensures Submits(s, Submit, 0) && !Retries(s, Submit, 0)
    ensures Step(s, Submit).mem == Some(s.mem.value.(call := Some(Call(Some(0), true)))) && Step(s, Submit).captured == s.captured
  {
  }

  lemma StepEvict(s: State)
    requires s.mem.Some? && !s.mem.value.promptActive && !s.mem.value.streaming
    ensures !Submits(s, Evict, 0) && !Retries(s, Evict, 0)
    ensures Step(s, Evict).mem == None && Step(s, Evict).captured == s.captured && Step(s, Evict).disk == s.disk
  {
  }

  lemma StepSettle(s: State)
    requires s.mem.Some? && s.mem.value.queue.dispatch.Some? && s.mem.value.call == Some(Call(Some(0), true))
    ensures var e := Settle(false, 4, Saved);
            && !Submits(s, e, 0) && !Retries(s, e, 0)
            && Step(s, e).mem.Some? && Step(s, e).captured == s.captured
            && !Step(s, e).mem.value.promptActive && !Step(s, e).mem.value.streaming
  {
  }

  lemma PreparedIsADispatch(turns: seq<string>)
    ensures var q := Prepared0(|turns|, true); q.dispatch.Some? && q.dispatch.value.id == 0
  {
  }

  /** It is sent and accepted, and the chat is evicted again. */
  lemma {:induction false} Delivered(start: seq<Event>) returns (run: seq<Event>)
    requires Exec(start).mem.Some?
    requires var m := Exec(start).mem.value;
             && m.queue.dispatch.Some? && m.queue.dispatch.value.id == 0 && m.call == Some(Call(Some(0), false))
    ensures Exec(run).mem == None && Exec(run).captured == Exec(start).captured
    ensures SubmissionCount(run, 0) == SubmissionCount(start, 0) + 1 && RetryCount(run, 0) == RetryCount(start, 0)
  {
    hide Step, Core, Submits, Retries, Exec;
    StepSubmit(Exec(start));
    Extend(start, Submit);
    run := start + [Submit];
    StepSettle(Exec(run));
    Extend(run, Settle(false, 4, Saved));
    run := run + [Settle(false, 4, Saved)];
    StepEvict(Exec(run));
    Extend(run, Evict);
    run := run + [Evict];
  }

  /** The run that breaks the bound when stale records may be installed. */
  lemma {:induction false} StaleInstallSubmitsTwice() returns (run: seq<Event>)
    ensures !InstallsMeet(run, Spendable)
    ensures SubmissionCount(run, 0) == 2 && RetryCount(run, 0) == 0
  {
    hide Step, Core, Submits, Retries, Exec, SubmissionCount, RetryCount, InstallsMeet, Prepared0, Loaded;
    run := AddedEvictedCaptured();
    StepLoadAny(Exec(run), 1);
    Extend(run, LoadNow(1));
    run := run + [LoadNow(1)];
    run := Started(run, 1, []);
    PreparedIsADispatch([]);
    run := Delivered(run);
    StepInstall(Exec(run), STORED);
    Extend(run, Install(0, 5));
    run := run + [Install(0, 5)];
    run := Started(run, 5, ["hi"]);
    PreparedIsADispatch(["hi"]);
    run := Delivered(run);
    AtMostOneSubmissionPerRequest(run, 0);
  }

  /** What the losing run is about. */
  predicate Stands(s: State, captured: map<nat, Option<Queue>>, created: set<Id>, acked: set<Id>) {
    s.captured == captured && s.created == created && s.acked == acked && s.released == {}
  }

  lemma StepCapture(s: State)
    requires s == INITIAL
    ensures Step(s, Capture(0)).mem == None && Step(s, Capture(0)).disk == None
    ensures Stands(Step(s, Capture(0)), map[0 := None], {}, {})
  {
  }

  lemma StepLoad(s: State)
    requires s.mem == None && s.disk == None && s.released == {}
    ensures Step(s, LoadNow(0)).mem == Some(Loaded(None, 0))
    ensures Stands(Step(s, LoadNow(0)), s.captured, s.created, s.acked)
  {
  }

  /** The record after the first addition under the given identity. */
  function FirstAdded(identity: Operation): Queue {
    Queue(1, [Item(0, "hi")], None, None, Remember([], identity))
  }

  lemma StepAddFirst(s: State, identity: Operation)
    requires s.mem == Some(Loaded(None, 0)) && 0 !in s.created && s.released == {} && identity.fingerprint.action.AddAction?
    ensures var e := Add("hi", identity, 0, 1, Saved);
            && Counts(s, e) && Step(s, e).mem == Some(Loaded(Some(FirstAdded(identity)), 0))
            && Stands(Step(s, e), s.captured, s.created + {0}, s.acked + {0})
  {
    assert QueuedText("hi") == Some("hi");
    assert Added(EmptyQueue(0), Item(0, "hi"), identity, 1) == FirstAdded(identity);
  }

  lemma StepEvictStored(s: State)
    requires s.mem.Some? && !s.mem.value.promptActive && !s.mem.value.streaming && s.released == {}
    ensures Step(s, Evict).mem == None && Stands(Step(s, Evict), s.captured, s.created, s.acked)
  {
  }

  lemma StepInstallNothing(s: State)
    requires s.mem == None && s.captured == map[0 := None] && s.released == {}
    ensures Step(s, Install(0, 3)).mem == Some(Loaded(None, 3))
    ensures Stands(Step(s, Install(0, 3)), map[], s.created, s.acked)
  {
  }

  lemma StepAddAgain(s: State, identity: Operation)
    requires s.mem == Some(Loaded(None, 3)) && 1 !in s.created && s.released == {} && identity.fingerprint.action.AddAction?
    ensures var e := Add("hi", identity, 1, 4, Saved);
            && Counts(s, e)
            && Step(s, e).disk == Some(Queue(4, [Item(1, "hi")], None, None, Remember([], identity)))
            && Stands(Step(s, e), s.captured, s.created + {1}, s.acked + {1})
  {
    assert QueuedText("hi") == Some("hi");
    assert Added(EmptyQueue(3), Item(1, "hi"), identity, 4) == Queue(4, [Item(1, "hi")], None, None, Remember([], identity));
  }

  /** The i-th step is a request that is executed, not recognised as a repeat. */
  predicate CountsAt(run: seq<Event>, i: nat)
    requires i < |run|
  {
    Counts(StateAt(run, i), run[i])
  }

  lemma CountsNow(run: seq<Event>, e: Event)
    requires Counts(Exec(run), e)
    ensures CountsAt(run + [e], |run|)
  {
    assert (run + [e])[..|run|] == run;
  }

  lemma CountsEarlier(run: seq<Event>, e: Event, i: nat)
    requires i < |run| && CountsAt(run, i)
    ensures CountsAt(run + [e], i)
  {
    assert (run + [e])[..i] == run[..i];
  }

  /** A request reads the empty record, and another one adds an item. */
  lemma {:induction false} EmptyReadThenAdded(identity: Operation) returns (run: seq<Event>)
    requires identity.fingerprint.action.AddAction?
    ensures |run| == 3 && run[2] == Add("hi", identity, 0, 1, Saved) && CountsAt(run, 2)
    ensures Exec(run).mem == Some(Loaded(Some(FirstAdded(identity)), 0)) && Stands(Exec(run), map[0 := None], {0}, {0})
  {
    run := [];
    hide Step, Core, Submits, Retries, Exec, SubmissionCount, RetryCount, Counts, CountsAt, Loaded, FirstAdded;
    NothingYet();
    StepCapture(Exec(run));
    Extend(run, Capture(0));
    run := run + [Capture(0)];
    StepLoad(Exec(run));
    Extend(run, LoadNow(0));
    run := run + [LoadNow(0)];
    var e := Add("hi", identity, 0, 1, Saved);
    StepAddFirst(Exec(run), identity);
    Extend(run, e);
    CountsNow(run, e);
    run := run + [e];
  }

  lemma LoadedRests(record: Option<Queue>, revision: Revision)
    ensures !Loaded(record, revision).promptActive && !Loaded(record, revision).streaming
  {
  }

  /** The chat is evicted, and the first request installs what it had read. */
  lemma {:induction false} EmptyInstalledOverAdded(identity: Operation) returns (run: seq<Event>)
    requires identity.fingerprint.action.AddAction?
    ensures |run| == 5 && run[2] == Add("hi", identity, 0, 1, Saved) && CountsAt(run, 2)
    ensures Exec(run).mem == Some(Loaded(None, 3)) && Stands(Exec(run), map[], {0}, {0})
  {
    hide Step, Core, Submits, Retries, Exec, SubmissionCount, RetryCount, Counts, CountsAt, Loaded, FirstAdded;
    run := EmptyReadThenAdded(identity);
    LoadedRests(Some(FirstAdded(identity)), 0);
    StepEvictStored(Exec(run));
    Extend(run, Evict);
    CountsEarlier(run, Evict, 2);
    run := run + [Evict];
    StepInstallNothing(Exec(run));
    Extend(run, Install(0, 3));
    CountsEarlier(run, Install(0, 3), 2);
    run := run + [Install(0, 3)];
  }

  lemma {:induction false} BothAdded(identity: Operation) returns (run: seq<Event>)
    requires identity.fingerprint.action.AddAction?
    ensures |run| == 6 && CountsAt(run, 2) && CountsAt(run, 5)
    ensures run[2] == Add("hi", identity, 0, 1, Saved) && run[5] == Add("hi", identity, 1, 4, Saved)
    ensures Exec(run).acked == {0, 1} && Exec(run).released == {}
    ensures Exec(run).disk.Some? && Ids(Exec(run).disk.value) == {1}
  {
    hide Step, Core, Submits, Retries, Exec, SubmissionCount, RetryCount, Counts, CountsAt, Ids, Remember;
    run := EmptyInstalledOverAdded(identity);
    var e := Add("hi", identity, 1, 4, Saved);
    StepAddAgain(Exec(run), identity);
    Extend(run, e);
    CountsNow(run, e);
    CountsEarlier(run, e, 2);
    run := run + [e];
    OnlyTheSecond(Remember([], identity));
  }

  /** The run that loses an acknowledged item: the install is overwritten by an addition,
      and the file with it. */
  lemma {:induction false} StaleInstallLosesAnItem() returns (run: seq<Event>)
    ensures !InstallsMeet(run, Complete)
    ensures 0 in Exec(run).acked && 0 !in Exec(run).released
    ensures Exec(run).disk.Some? && 0 !in Ids(Exec(run).disk.value)
  {
    hide Step, Core, Exec, InstallsMeet, CountsAt;
    run := BothAdded(ANONYMOUS);
    if InstallsMeet(run, Complete) {
      RunsConserve(run);
      AcknowledgedIsStored(Exec(run));
    }
  }

  const KEYED := Operation("key", Fingerprint(AddAction, ""))

  /** The run that executes one request twice: its repeat finds an installed record that
      does not remember it, and both additions are acknowledged. */
  lemma {:induction false} StaleInstallForgetsARequest() returns (run: seq<Event>)
    ensures |run| == 6 && IsMutation(run[2]) && IsMutation(run[5])
    ensures IdentityOf(run[2]) == IdentityOf(run[5]) == KEYED && CountsAt(run, 2) && CountsAt(run, 5)
    ensures Exec(run).acked == {0, 1}
  {
    hide Step, Core, Exec, CountsAt;
    run := BothAdded(KEYED);
  }

  lemma OnlyTheSecond(handled: seq<Operation>)
    ensures Ids(Queue(4, [Item(1, "hi")], None, None, handled)) == {1}
  {
    assert Flat(Queue(4, [Item(1, "hi")], None, None, handled)) == [Item(1, "hi")];
  }

  lemma AcknowledgedIsStored(s: State)
    requires ConservationInv(s)
    ensures s.acked - s.released <= DiskIds(s)
  {
  }

  // ------------------------------------------------------------------
  // Between fresh and spendable
  // ------------------------------------------------------------------

  const EDITOR := Operation("", Fingerprint(EditAction, ""))
  const REMOVER := Operation("", Fingerprint(RemoveAction, ""))

  /** The stored record after a user's edit, and after a removal. */
  const EDITED := Queue(2, [Item(0, "yo")], None, None, [])
  const EMPTIED := Queue(2, [], None, None, [])

  lemma StepEdit(s: State)
    requires s.mem == Some(Loaded(Some(STORED), 1))
    ensures var e := Edit(0, "yo", EDITOR, 1, 2, Saved);
            && Step(s, e).disk == Some(EDITED) && Step(s, e).captured == s.captured
            && Step(s, e).mem.Some? && !Step(s, e).mem.value.promptActive && !Step(s, e).mem.value.streaming
            && !Submits(s, e, 0) && !Retries(s, e, 0)
  {
    assert QueuedText("yo") == Some("yo");
    assert PlaceOf(STORED, true, 0) == AtFollowUp(0);
    assert Stamped(Edited(STORED, AtFollowUp(0), "yo"), EDITOR, 2) == EDITED;
  }

  lemma StepRemove(s: State)
    requires s.mem == Some(Loaded(Some(STORED), 1))
    ensures var e := Remove(0, REMOVER, 1, 2, Saved);
            && Step(s, e).disk == Some(EMPTIED) && Step(s, e).captured == s.captured
            && Step(s, e).mem.Some? && !Step(s, e).mem.value.promptActive && !Step(s, e).mem.value.streaming
            && !Submits(s, e, 0) && !Retries(s, e, 0)
  {
    assert PlaceOf(STORED, true, 0) == AtFollowUp(0);
    assert Stamped(Without(STORED, AtFollowUp(0)), REMOVER, 2) == EMPTIED;
  }

  /** What the three records offer for sending. */
  lemma RecordsOffer()
    ensures RunnableIds(Stored(Some(STORED))) == {0} == RunnableIds(Stored(Some(EDITED)))
    ensures RunnableIds(Stored(Some(EMPTIED))) == {}
  {
    assert STORED.followUp[0] in STORED.followUp && EDITED.followUp[0] in EDITED.followUp;
  }

  /** The stored record was edited or emptied, by a step that is neither a submission nor a
      retry, after another request had read it. */
  lemma {:induction false} ReadThenChanged(e: Event, changed: Queue) returns (run: seq<Event>)
    requires (e == Edit(0, "yo", EDITOR, 1, 2, Saved) && changed == EDITED)
             || (e == Remove(0, REMOVER, 1, 2, Saved) && changed == EMPTIED)
    ensures Exec(run).mem == None && Exec(run).disk == Some(changed)
    ensures Exec(run).captured == map[0 := Some(STORED)] && Exec(run).submitted[0] == 0
  {
    hide Step, Core, Submits, Retries, Exec, SubmissionCount, RetryCount, Loaded;
    run := AddedEvictedCaptured();
    StepLoadAny(Exec(run), 1);
    Extend(run, LoadNow(1));
    run := run + [LoadNow(1)];
    if e.Edit? {
      StepEdit(Exec(run));
    } else {
      StepRemove(Exec(run));
    }
    Extend(run, e);
    run := run + [e];
    StepEvict(Exec(run));
    Extend(run, Evict);
    run := run + [Evict];
    CountersAreEventCounts(run, 0);
  }

  /** A record that was edited since it was read is not fresh, and offers nothing new. */
  lemma {:induction false} OfferedIsWiderThanFresh() returns (run: seq<Event>)
    ensures Installs(Exec(run), Install(0, 9))
    ensures Offered(Exec(run), 0) && Covers(Exec(run), 0) && !Fresh(Exec(run), 0)
  {
    hide Exec;
    run := ReadThenChanged(Edit(0, "yo", EDITOR, 1, 2, Saved), EDITED);
    RecordsOffer();
  }

  /** A record whose only item was removed unsent since it was read offers that item, once
      more than the stored one, and within its budget. */
  lemma {:induction false} SpendableIsWiderThanOffered() returns (run: seq<Event>)
    ensures Installs(Exec(run), Install(0, 9))
    ensures Spendable(Exec(run), 0) && !Offered(Exec(run), 0)
  {
    hide Exec;
    run := ReadThenChanged(Remove(0, REMOVER, 1, 2, Saved), EMPTIED);
    RecordsOffer();
  }
}
