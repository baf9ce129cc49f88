/** Every step of the queue but an install keeps the whole invariant, and no step's
    effect on the records depends on what the accounts promise. */
module QueueSteps {
  import opened Base
  import opened QueueModel
  import opened QueueOrder
  import opened QueueSafety

  // ------------------------------------------------------------------
  // The invariant over one step
  // ------------------------------------------------------------------

  lemma ReleasedItems(s: State, e: Event)
    requires s.mem.Some?
    ensures forall item :: item in Flat(s.mem.value.queue) && Enabled(s, e) && Releases(s, e, item.id) ==>
              item.id in ReleasedBy(s, e)
  {
  }

  lemma RemoveGuards(s: State, e: Event)
    requires e.Remove? && Core(s, e) != s
    ensures s.mem.Some? && e.expected == s.mem.value.queue.revision && Lookup(s.mem.value.queue.handled, e.identity).New?
    ensures !PlaceOf(s.mem.value.queue, !s.mem.value.promptActive, e.index).Nowhere?
  {
  }

  lemma ShownItem(q: Queue, shown: bool, index: int)
    requires !PlaceOf(q, shown, index).Nowhere?
    ensures var at := Position(q, PlaceOf(q, shown, index));
            && at < |Flat(q)| && 0 <= index < |Visible(q, shown)|
            && Flat(q)[at] == Visible(q, shown)[index] && Flat(q)[at] in Flat(q)
  {
    hide Flat, Visible, PlaceOf, Position, Hidden, Wire, Texts;
    ShownIndexesHavePlaces(q, shown, index);
    VisibleIsTheListWithoutTheHidden(q, shown);
  }

  lemma RemovedItemIsReleased(s: State, e: Event)
    requires e.Remove? && Core(s, e) != s && !e.outcome.FailedBefore?
    ensures s.mem.Some? && RemovedId(s.mem.value, e.index) <= ReleasedBy(s, e)
  {
    RemoveGuards(s, e);
    ShownItem(s.mem.value.queue, !s.mem.value.promptActive, e.index);
    ReleasedItems(s, e);
  }

  lemma DispatchHeadsTheList(q: Queue)
    requires q.dispatch.Some?
    ensures Item(q.dispatch.value.id, q.dispatch.value.text) in Flat(q)
  {
    assert Flat(q)[0] == Item(q.dispatch.value.id, q.dispatch.value.text);
  }

  /** The invariant after the step proper, before or after its accounting. */
  ghost predicate Kept(s: State, e: Event) {
    var c := Core(s, e);
    || Inv(c)
    || Inv(c.(released := s.released + ReleasedBy(s, e)))
    || Inv(c.(marked := s.marked + AttemptedOn(c.disk)))
  }

  lemma {:induction false} LoadsKeep(s: State, e: Event)
    requires Inv(s) && !e.Install? && (Unloaded(e) || e.Evict?)
    ensures Kept(s, e)
  {
    if Enabled(s, e) {
      match e {
        case Capture(request) => ReadsKeepInv(s, s.captured[request := s.disk]);
        case Discard(request) => ReadsKeepInv(s, s.captured - {request});
        case LoadNow(revision) => LoadKeepsInv(s, revision);
        case Evict => DropKeepsInv(s);
        case Crash =>
          DropKeepsInv(s);
          ReadsKeepInv(s.(mem := None), map[]);
        case Forget(outcome) => ForgetKeepsInv(s, outcome, s.released + ReleasedBy(s, e));
      }
    }
  }

  lemma MutationsKeep(s: State, e: Event)
    requires Inv(s) && (e.Add? || e.Edit? || e.Retry?)
    ensures Kept(s, e)
  {
    if Enabled(s, e) {
      match e {
        case Add(text, identity, id, revision, outcome) => AddKeepsInv(s, text, identity, id, revision, outcome);
        case Edit(index, text, identity, expected, revision, outcome) =>
          EditKeepsInv(s, index, text, identity, expected, revision, outcome);
        case Retry(retryId, identity, expected, revision, outcome) =>
          RetryKeepsInv(s, retryId, identity, expected, revision, outcome);
      }
    }
  }

  lemma RemovalsKeep(s: State, e: Event)
    requires Inv(s) && e.Remove?
    ensures Kept(s, e)
  {
    if Enabled(s, e) {
      if Core(s, e) != s && !e.outcome.FailedBefore? {
        RemovedItemIsReleased(s, e);
      }
      RemoveKeepsInv(s, e.index, e.identity, e.expected, e.revision, e.outcome, s.released + ReleasedBy(s, e));
    }
  }

  lemma {:induction false} MovesKeep(s: State, e: Event)
    requires Inv(s) && (e.Restore? || e.Prepare?)
    ensures Kept(s, e)
  {
    if Enabled(s, e) {
      var q := s.mem.value.queue;
      match e {
        case Restore(revision, outcome) =>
          RequeueFollows(q, revision);
          InternalWriteKeepsInv(s, Commit(s, Requeued(q, revision), outcome), Requeued(q, revision), outcome, {});
        case Prepare(revision, outcome) =>
          PrepareFollows(q, |s.mem.value.turns|, revision);
          InternalWriteKeepsInv(s, Commit(s, Prepared(q, |s.mem.value.turns|, revision), outcome),
                                Prepared(q, |s.mem.value.turns|, revision), outcome, {});
      }
      hide Inv, Commit, Requeued, Prepared;
    }
  }

  lemma {:induction false} DrainKeeps(s: State, e: Event)
    requires Inv(s) && (e.Start? || e.Submit?)
    ensures Kept(s, e)
  {
    if Enabled(s, e) {
      match e {
        case Start(outcome) => StartKeepsInv(s, outcome, s.marked + AttemptedOn(Core(s, e).disk));
        case Submit => SubmitKeepsInv(s);
      }
      hide Inv;
    }
  }

  lemma {:induction false} DeliveriesKeep(s: State, e: Event)
    requires Inv(s) && (e.Attach? || e.Settle?)
    ensures Kept(s, e)
  {
    if Enabled(s, e) {
      if s.mem.value.queue.dispatch.Some? {
        DispatchHeadsTheList(s.mem.value.queue);
        ReleasedItems(s, e);
      }
      var released := s.released + ReleasedBy(s, e);
      match e {
        case Attach(generation, turns, revision, outcome) =>
          AttachKeepsInv(s, generation, turns, revision, outcome, released);
        case Settle(failed, revision, outcome) => SettleKeepsInv(s, failed, revision, outcome, released);
      }
    }
  }

  lemma {:induction false} ProjectionsKeep(s: State, e: Event)
    requires Inv(s)
    requires e.Detach? || e.StartDirect? || e.Abandon? || e.Notify? || e.Echo?
    ensures Kept(s, e)
  {
    if Enabled(s, e) {
      ProjectionChangeKeepsInv(s, Core(s, e).mem.value);
    }
  }

  lemma StepAddsAccounting(s: State, e: Event)
    ensures Core(s, e).released == s.released && Core(s, e).marked == s.marked
  {
  }

  lemma {:induction false} AccountingKeeps(s: State, e: Event)
    requires Inv(s) && Kept(s, e)
    ensures Inv(Step(s, e))
  {
    if Enabled(s, e) {
      StepAddsAccounting(s, e);
      var c := Core(s, e);
      var released := s.released + ReleasedBy(s, e);
      var marked := s.marked + AttemptedOn(c.disk);
      if Inv(c) {
        MoreAccounting(c, released, marked);
      } else if Inv(c.(released := released)) {
        MoreAccounting(c.(released := released), released, marked);
      } else {
        MoreAccounting(c.(marked := marked), released, marked);
      }
    }
  }

  /** Every step but an install keeps the invariant. */
  lemma {:induction false} QuietStepKeepsInv(s: State, e: Event)
    requires Inv(s) && !e.Install?
    ensures Inv(Step(s, e))
  {
    if Unloaded(e) || e.Evict? {
      LoadsKeep(s, e);
    } else if e.Add? || e.Edit? || e.Retry? {
      MutationsKeep(s, e);
    } else if e.Remove? {
      RemovalsKeep(s, e);
    } else if e.Restore? || e.Prepare? {
      MovesKeep(s, e);
    } else if e.Start? || e.Submit? {
      DrainKeeps(s, e);
    } else if e.Attach? || e.Settle? {
      DeliveriesKeep(s, e);
    } else {
      ProjectionsKeep(s, e);
    }
    AccountingKeeps(s, e);
  }

  // ------------------------------------------------------------------
  // What a step depends on
  // ------------------------------------------------------------------

  /** Two states that differ at most in what their accounts promise. */
  predicate Alike(s: State, t: State) {
    && s.disk == t.disk && s.mem == t.mem && s.captured == t.captured && s.submitted == t.submitted
    && s.marked == t.marked && s.created == t.created
  }

  predicate SamePromises(s: State, t: State) {
    s.acked == t.acked && s.adds == t.adds && s.released == t.released
  }

  /** The step leads from states that are alike to states that are alike. */
  predicate Commutes(s: State, t: State, e: Event) {
    && Alike(Core(s, e), Core(t, e))
    && (SamePromises(s, t) ==> SamePromises(Core(s, e), Core(t, e)))
  }

  lemma AlikeEnables(s: State, t: State, e: Event)
    requires Alike(s, t)
    ensures Enabled(s, e) == Enabled(t, e)
  {
    hide EnabledOn;
  }

  lemma {:induction false} AddCommutes(s: State, t: State, e: Event)
    requires Alike(s, t) && e.Add?
    ensures Commutes(s, t, e)
  {
    AlikeEnables(s, t, e);
    hide Enabled, Flat, Lookup, Added, QueuedText;
  }

  lemma {:induction false} EditCommutes(s: State, t: State, e: Event)
    requires Alike(s, t) && e.Edit?
    ensures Commutes(s, t, e)
  {
    AlikeEnables(s, t, e);
    hide Enabled, Flat, Lookup, Edited, PlaceOf, Stamped, QueuedText, Exists;
  }

  lemma {:induction false} RemoveCommutes(s: State, t: State, e: Event)
    requires Alike(s, t) && e.Remove?
    ensures Commutes(s, t, e)
  {
    AlikeEnables(s, t, e);
    hide Enabled, Flat, Lookup, Without, PlaceOf, Stamped, Exists;
  }

  lemma CommitCommutes(s: State, t: State, next: Queue, outcome: Outcome)
    requires Alike(s, t) && s.mem.Some?
    ensures Alike(Commit(s, next, outcome), Commit(t, next, outcome))
    ensures SamePromises(s, Commit(s, next, outcome)) && SamePromises(t, Commit(t, next, outcome))
  {
  }

  lemma {:induction false} RetryCommutes(s: State, t: State, e: Event)
    requires Alike(s, t) && e.Retry?
    ensures Commutes(s, t, e)
  {
    AlikeEnables(s, t, e);
    hide Enabled, Flat, Lookup, Remember, Stamped, Retried, RetryTarget, Commit;
    if s.mem.Some? {
      var q := s.mem.value.queue;
      CommitCommutes(s, t, q.(handled := Remember(q.handled, e.identity)), e.outcome);
      if RetryTarget(q, s.mem.value.promptActive).Some? {
        CommitCommutes(s, t, Stamped(Retried(q, s.mem.value.promptActive), e.identity, e.revision), e.outcome);
      }
    }
  }

  lemma {:induction false} AttachCommutes(s: State, t: State, e: Event)
    requires Alike(s, t) && e.Attach?
    ensures Commutes(s, t, e)
  {
    AlikeEnables(s, t, e);
    hide Enabled, Flat, Recovered, Reattached;
  }

  lemma {:induction false} SettleCommutes(s: State, t: State, e: Event)
    requires Alike(s, t) && e.Settle?
    ensures Commutes(s, t, e)
  {
    AlikeEnables(s, t, e);
    hide Enabled, Flat, Settled;
  }

  lemma {:induction false} StartCommutes(s: State, t: State, e: Event)
    requires Alike(s, t) && e.Start?
    ensures Commutes(s, t, e)
  {
    AlikeEnables(s, t, e);
    hide Enabled, Flat, Prompting;
  }

  lemma {:induction false} OtherStepsCommute(s: State, t: State, e: Event)
    requires Alike(s, t)
    requires !(e.Add? || e.Edit? || e.Remove? || e.Retry? || e.Attach? || e.Settle? || e.Start?)
    ensures Commutes(s, t, e)
  {
    AlikeEnables(s, t, e);
    hide AddStep, EditStep, RemoveStep, RetryStep, AttachStep, SettleStep, StartStep;
    hide Flat, Requeued, Prepared, Prompting, Loaded;
  }

  /** What a step does to the records, the projection and the submissions does not
      depend on what was promised or asked for, so an invariant of one of those can be
      kept apart from the others. */
  lemma {:induction false} StepsCommute(s: State, t: State, e: Event)
    requires Alike(s, t)
    ensures Alike(Step(s, e), Step(t, e))
    ensures SamePromises(s, t) ==> SamePromises(Step(s, e), Step(t, e))
  {
    AlikeEnables(s, t, e);
    if e.Add? {
      AddCommutes(s, t, e);
    } else if e.Edit? {
      EditCommutes(s, t, e);
    } else if e.Remove? {
      RemoveCommutes(s, t, e);
    } else if e.Retry? {
      RetryCommutes(s, t, e);
    } else if e.Attach? {
      AttachCommutes(s, t, e);
    } else if e.Settle? {
      SettleCommutes(s, t, e);
    } else if e.Start? {
      StartCommutes(s, t, e);
    } else {
      OtherStepsCommute(s, t, e);
    }
    SameReleases(s, t, e);
    hide Core, Enabled, Releases, ReleasedBy;
  }

  lemma SameReleases(s: State, t: State, e: Event)
    requires Alike(s, t)
    ensures ReleasedBy(s, e) == ReleasedBy(t, e)
  {
    AlikeEnables(s, t, e);
    hide Flat, Visible, Lookup, Replayed, Enabled;
  }

  lemma CreatedGrows(s: State, e: Event)
    ensures s.created <= Step(s, e).created
  {
    hide Enabled, Flat, Lookup, Edited, Without, PlaceOf, Remember, Stamped, Requeued, Retried, Prepared, Marked, Settled;
    hide Recovered, Replayed, QueuedText, RetryTarget, Prompting, Reattached, Loaded, Added, Exists, ReleasedBy;
  }

  /** What has been read changes only by a read, an install, a refusal or a crash. */
  lemma ReadsStay(s: State, e: Event)
    ensures e.Capture? && Enabled(s, e) ==> Step(s, e).captured == s.captured[e.request := s.disk]
    ensures !e.Capture? || !Enabled(s, e) ==> forall request :: request in Step(s, e).captured ==>
              request in s.captured && Step(s, e).captured[request] == s.captured[request]
  {
    hide Enabled, Flat, Lookup, Edited, Without, PlaceOf, Remember, Stamped, Requeued, Retried, Prepared, Marked, Settled;
    hide Recovered, Replayed, QueuedText, RetryTarget, Prompting, Reattached, Loaded, Added, Exists, ReleasedBy;
  }
}
