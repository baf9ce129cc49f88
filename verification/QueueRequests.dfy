/** Repeated requests: a mutation and the identity of its request are stored by one
    write, so a repeat changes nothing for as long as the identity is remembered. */
module QueueRequests {
  import opened Base
  import opened QueueModel
  import opened QueueSafety
  import opened QueueSteps
  import opened QueueRuns

  predicate IsMutation(e: Event) { e.Add? || e.Edit? || e.Remove? || e.Retry? }

  function IdentityOf(e: Event): Operation
    requires IsMutation(e)
  {
    match e
    case Add(_, identity, _, _, _) => identity
    case Edit(_, _, identity, _, _, _) => identity
    case Remove(_, identity, _, _, _) => identity
    case Retry(_, identity, _, _, _) => identity
  }

  function OutcomeOf(e: Event): Outcome
    requires IsMutation(e)
  {
    match e
    case Add(_, _, _, _, outcome) => outcome
    case Edit(_, _, _, _, _, outcome) => outcome
    case Remove(_, _, _, _, outcome) => outcome
    case Retry(_, _, _, _, outcome) => outcome
  }

  /** A request that is not a repeat and whose write may have landed: the only steps
      that can push an older identity out of the remembered ones. */
  predicate Counts(s: State, e: Event) {
    && IsMutation(e) && !OutcomeOf(e).FailedBefore? && s.mem.Some? && Enabled(s, e)
    && Lookup(s.mem.value.queue.handled, IdentityOf(e)).New?
  }

  /** A repeat of a remembered request, with its own fingerprint or another one under
      the same key, leaves disk and memory as they are. */
  lemma RepeatChangesNothing(s: State, e: Event)
    requires IsMutation(e)
    requires s.mem.Some? && Lookup(s.mem.value.queue.handled, IdentityOf(e)) != New
    ensures Step(s, e).disk == s.disk && Step(s, e).mem == s.mem
    ensures Step(s, e).submitted == s.submitted && Step(s, e).retried == s.retried
  {
  }

  predicate KeysInv(s: State) {
    && (s.disk.Some? ==> DistinctKeys(s.disk.value.handled))
    && (s.mem.Some? ==> DistinctKeys(s.mem.value.queue.handled))
    && (forall request :: request in s.captured ==> DistinctKeys(Stored(s.captured[request]).handled))
  }

  /** The record goes with its chat, or may have. */
  predicate Deletes(e: Event) { e.Forget? && !e.outcome.FailedBefore? }

  /** The chat is not deleted after step i. */
  predicate Undeleted(run: seq<Event>, i: nat) {
    forall k | i < k < |run| :: !Deletes(run[k])
  }

  /** The remembered requests of the records after a step come from those in memory,
      with the identity of the request when the step counts, or from the record that
      was loaded or installed. */
  ghost predicate HandledStep(s: State, e: Event) {
    var s' := Core(s, e);
    && (s'.disk == s.disk || (Deletes(e) && s'.disk.None?)
        || (s.mem.Some? && s'.disk.Some? && HandledFrom(s, e, s'.disk.value.handled)))
    && (s'.mem.Some? ==>
          || (s.mem.Some? && HandledFrom(s, e, s'.mem.value.queue.handled))
          || (e.LoadNow? && s'.mem.value.queue.handled == Stored(s.disk).handled)
          || (e.Install? && e.request in s.captured && s'.mem.value.queue.handled == Stored(s.captured[e.request]).handled))
  }

  /** A mutation that changes the queue in memory, or the record on disk, stores its
      identity in the same record. */
  predicate EffectCarriesIdentity(s: State, e: Event)
    requires IsMutation(e)
  {
    if s.mem.None? then Core(s, e) == s
    else
      var handled := Remember(s.mem.value.queue.handled, IdentityOf(e));
      var s' := Core(s, e);
      && (s'.mem == s.mem || (s'.mem.Some? && s'.mem.value.queue.handled == handled))
      && (s'.disk == s.disk || (s'.disk.Some? && s'.disk.value.handled == handled))
  }

  /** Only a request that is no repeat, and whose write may have landed, has an effect. */
  predicate EffectCounts(s: State, e: Event) {
    Core(s, e).disk != s.disk || Core(s, e).mem != s.mem ==> Counts(s, e)
  }

  lemma EffectIsAStep(s: State, e: Event)
    requires IsMutation(e) && EffectCarriesIdentity(s, e) && EffectCounts(s, e)
    ensures HandledStep(s, e)
  {
    hide Core, Enabled, Counts, Remember;
  }

  lemma AddHandled(s: State, e: Event)
    requires e.Add?
    ensures EffectCarriesIdentity(s, e) && EffectCounts(s, e)
  {
    hide Flat, Lookup, Remember, QueuedText, WellFormed;
  }

  lemma EditHandled(s: State, e: Event)
    requires e.Edit?
    ensures EffectCarriesIdentity(s, e) && EffectCounts(s, e)
  {
    if s.mem.Some? {
      var m := s.mem.value;
      var place := PlaceOf(m.queue, !m.promptActive, e.index);
      QueueOrder.ShownIndexesHavePlaces(m.queue, !m.promptActive, e.index);
      if !place.Nowhere? && QueuedText(e.text).Some? {
        assert Stamped(Edited(m.queue, place, QueuedText(e.text).value), e.identity, e.revision).handled
            == Remember(m.queue.handled, e.identity);
      }
    }
    hide Enabled, Flat, Visible, Lookup, Remember, QueuedText, WellFormed, Stamped, Edited, PlaceOf, Exists;
  }

  lemma RemoveHandled(s: State, e: Event)
    requires e.Remove?
    ensures EffectCarriesIdentity(s, e) && EffectCounts(s, e)
  {
    if s.mem.Some? {
      var m := s.mem.value;
      var place := PlaceOf(m.queue, !m.promptActive, e.index);
      QueueOrder.ShownIndexesHavePlaces(m.queue, !m.promptActive, e.index);
      if !place.Nowhere? {
        assert Stamped(Without(m.queue, place), e.identity, e.revision).handled == Remember(m.queue.handled, e.identity);
      }
    }
    hide Enabled, Flat, Visible, Lookup, Remember, WellFormed, Stamped, Without, PlaceOf, Exists;
  }

  lemma RetryHandled(s: State, e: Event)
    requires e.Retry?
    ensures EffectCarriesIdentity(s, e) && EffectCounts(s, e)
  {
    if s.mem.Some? && RetryTarget(s.mem.value.queue, s.mem.value.promptActive).Some? {
      var m := s.mem.value;
      assert Stamped(Retried(m.queue, m.promptActive), e.identity, e.revision).handled == Remember(m.queue.handled, e.identity);
    }
    hide Enabled, Flat, Lookup, Remember, Stamped, Retried, RetryTarget;
  }

  lemma MovesHandled(s: State, e: Event)
    requires e.Restore? || e.Prepare? || e.Start?
    ensures HandledStep(s, e)
  {
    hide Flat, Lookup, Remember, Counts;
  }

  lemma DeliveriesHandled(s: State, e: Event)
    requires e.Attach? || e.Settle?
    ensures HandledStep(s, e)
  {
    hide Flat, Lookup, Remember, Counts, Replayed;
  }

  lemma OthersHandled(s: State, e: Event)
    requires !IsMutation(e)
    requires !(e.Restore? || e.Prepare? || e.Start? || e.Attach? || e.Settle?)
    ensures HandledStep(s, e)
  {
  }

  lemma {:induction false} HandledAfter(s: State, e: Event)
    ensures HandledStep(s, e)
    ensures Step(s, e).disk == Core(s, e).disk && Step(s, e).mem == Core(s, e).mem
    ensures IsMutation(e) ==> EffectCarriesIdentity(s, e)
  {
    if IsMutation(e) {
      match e {
        case Add(_, _, _, _, _) => AddHandled(s, e);
        case Edit(_, _, _, _, _, _) => EditHandled(s, e);
        case Remove(_, _, _, _, _) => RemoveHandled(s, e);
        case Retry(_, _, _, _, _) => RetryHandled(s, e);
      }
      EffectIsAStep(s, e);
    } else if e.Restore? || e.Prepare? || e.Start? {
      MovesHandled(s, e);
    } else if e.Attach? || e.Settle? {
      DeliveriesHandled(s, e);
    } else {
      OthersHandled(s, e);
    }
  }

  predicate HandledFrom(s: State, e: Event, handled: seq<Operation>)
    requires s.mem.Some?
  {
    || handled == s.mem.value.queue.handled
    || (Counts(s, e) && handled == Remember(s.mem.value.queue.handled, IdentityOf(e)))
  }

  lemma RememberKeepsKeysDistinct(handled: seq<Operation>, identity: Operation)
    requires DistinctKeys(handled) && Lookup(handled, identity).New?
    ensures DistinctKeys(Remember(handled, identity))
  {
    LookupFinds(handled, identity);
  }

  lemma {:induction false} StepKeepsKeysDistinct(s: State, e: Event)
    requires KeysInv(s)
    ensures KeysInv(Step(s, e))
  {
    HandledAfter(s, e);
    ReadsStay(s, e);
    if s.mem.Some? && Counts(s, e) {
      RememberKeepsKeysDistinct(s.mem.value.queue.handled, IdentityOf(e));
    }
    hide Step, Core, Enabled, DistinctKeys, Remember;
  }

  lemma {:induction false} RunsKeepKeysDistinct(run: seq<Event>)
    ensures KeysInv(Exec(run))
  {
    if run != [] {
      RunsKeepKeysDistinct(run[..|run| - 1]);
      StepKeepsKeysDistinct(Exec(run[..|run| - 1]), run[|run| - 1]);
    }
  }

  /** The operation is among the last n + 1 remembered ones. */
  predicate Recent(handled: seq<Operation>, op: Operation, n: nat) {
    exists i :: 0 <= i < |handled| && |handled| - 1 - n <= i && handled[i] == op
  }

  lemma RememberAges(handled: seq<Operation>, op: Operation, identity: Operation, n: nat)
    requires Recent(handled, op, n) && n + 1 < MAX_QUEUE_OPERATIONS && |handled| <= MAX_QUEUE_OPERATIONS
    ensures Recent(Remember(handled, identity), op, n + 1)
  {
    var i :| 0 <= i < |handled| && |handled| - 1 - n <= i && handled[i] == op;
    var next := Remember(handled, identity);
    assert next[i - (|handled| + Indicator(identity.key != "") - |next|)] == op;
  }

  lemma RecentIsADuplicate(handled: seq<Operation>, op: Operation, other: Operation, n: nat)
    requires Recent(handled, op, n) && DistinctKeys(handled) && op.key != "" && other.key == op.key
    ensures Lookup(handled, other) == if other.fingerprint == op.fingerprint then Duplicate else Conflict
  {
    var i :| 0 <= i < |handled| && |handled| - 1 - n <= i && handled[i] == op;
    LookupAt(handled, other, i);
  }

  lemma LookupAt(handled: seq<Operation>, other: Operation, i: nat)
    requires i < |handled| && handled[i].key == other.key && other.key != "" && DistinctKeys(handled)
    ensures Lookup(handled, other) == if handled[i].fingerprint == other.fingerprint then Duplicate else Conflict
  {
    if i > 0 {
      assert handled[0].key != handled[i].key;
      LookupAt(handled[1..], other, i - 1);
    }
  }

  /** The steps after position i that count against the remembered identities. */
  function CountedSince(run: seq<Event>, i: nat): nat {
    if |run| <= i + 1 then 0
    else CountedSince(run[..|run| - 1], i) + Indicator(Counts(Exec(run[..|run| - 1]), run[|run| - 1]))
  }

  ghost predicate RemembersBoth(s: State, op: Operation, n: nat) {
    && s.disk.Some? && Recent(s.disk.value.handled, op, n)
    && (s.mem.Some? ==> Recent(s.mem.value.queue.handled, op, n))
  }

  lemma {:induction false} StepRemembers(s: State, e: Event, op: Operation, n: nat)
    requires StorageInv(s)
    requires !Deletes(e)
    requires Installs(s, e) ==> Recent(Stored(s.captured[e.request]).handled, op, n)
    requires RemembersBoth(s, op, n) && n + Indicator(Counts(s, e)) < MAX_QUEUE_OPERATIONS
    ensures RemembersBoth(Step(s, e), op, n + Indicator(Counts(s, e)))
  {
    HandledAfter(s, e);
    if s.mem.Some? && Counts(s, e) {
      RememberAges(s.mem.value.queue.handled, op, IdentityOf(e), n);
    }
    RecentWeakens(s, op, n, n + Indicator(Counts(s, e)));
    hide Step, Core, Enabled, Recent, Remember, WellFormed;
  }

  lemma RecentWeakens(s: State, op: Operation, n: nat, m: nat)
    requires RemembersBoth(s, op, n) && n <= m
    ensures RemembersBoth(s, op, m)
  {
  }

  lemma SavedIsBoth(s: State, e: Event)
    requires IsMutation(e) && OutcomeOf(e).Saved?
    ensures Core(s, e).mem == s.mem || Core(s, e).disk == Some(Core(s, e).mem.value.queue)
  {
    hide Flat, Lookup, Remember, QueuedText, PlaceOf, Retried, Edited, Without, RetryTarget, Exists;
  }

  lemma FirstStepRemembers(s: State, e: Event)
    requires IsMutation(e) && OutcomeOf(e).Saved? && IdentityOf(e).key != ""
    requires s.mem.Some? && Lookup(s.mem.value.queue.handled, IdentityOf(e)).New?
    requires Step(s, e).mem.value.queue != s.mem.value.queue
    ensures RemembersBoth(Step(s, e), IdentityOf(e), 0)
  {
    HandledAfter(s, e);
    SavedIsBoth(s, e);
    var handled := Remember(s.mem.value.queue.handled, IdentityOf(e));
    assert handled[|handled| - 1] == IdentityOf(e);
  }

  /** Every install after step i is of a record that remembers the operation, and not
      as an older one than the requests counted since can explain. */
  ghost predicate InstallsRemember(run: seq<Event>, i: nat, op: Operation) {
    i + 1 < |run| ==>
      var before, last := run[..|run| - 1], run[|run| - 1];
      && InstallsRemember(before, i, op)
      && (Installs(Exec(before), last) ==> Recent(Stored(Exec(before).captured[last.request]).handled, op, CountedSince(before, i)))
  }

  /** The i-th step is a mutation that changed the queue and was acknowledged. */
  ghost predicate Acknowledges(run: seq<Event>, i: nat)
    requires i < |run|
  {
    var s, e := StateAt(run, i), run[i];
    && s.mem.Some? && IsMutation(e) && OutcomeOf(e).Saved?
    && IdentityOf(e).key != "" && Lookup(s.mem.value.queue.handled, IdentityOf(e)).New?
    && Step(s, e).mem.value.queue != s.mem.value.queue
  }

  ghost predicate AnswersRepeats(s: State, op: Operation) {
    s.mem.Some? ==> forall other: Operation :: other.key == op.key ==>
      Lookup(s.mem.value.queue.handled, other) == if other.fingerprint == op.fingerprint then Duplicate else Conflict
  }

  lemma RecentAnswersRepeats(s: State, op: Operation, n: nat)
    requires KeysInv(s) && op.key != "" && RemembersBoth(s, op, n)
    ensures AnswersRepeats(s, op)
  {
    if s.mem.Some? {
      forall other: Operation | other.key == op.key
        ensures Lookup(s.mem.value.queue.handled, other) == if other.fingerprint == op.fingerprint then Duplicate else Conflict
      {
        RecentIsADuplicate(s.mem.value.queue.handled, op, other, n);
      }
    }
  }

  /** After a mutation that changed the queue was acknowledged, and through anything
      that follows until the chat is deleted, restarts included, as long as at most 511
      later requests may have been stored and no install forgets it: the identity is still remembered on disk
      and in memory, a repeat is answered as a duplicate, and the same key with other
      parameters is refused. */
  lemma {:induction false} AcknowledgedRequestsAreRemembered(run: seq<Event>, i: nat)
    requires i < |run| && Acknowledges(run, i)
    requires InstallsRemember(run, i, IdentityOf(run[i])) && CountedSince(run, i) < MAX_QUEUE_OPERATIONS
    requires Undeleted(run, i)
    ensures RemembersBoth(Exec(run), IdentityOf(run[i]), CountedSince(run, i))
    ensures AnswersRepeats(Exec(run), IdentityOf(run[i]))
    decreases |run|
  {
    var before, op := run[..|run| - 1], IdentityOf(run[i]);
    RunsKeepKeysDistinct(run);
    if i == |run| - 1 {
      FirstStepRemembers(Exec(before), run[i]);
    } else {
      StateAtPrefix(run, i);
      AcknowledgedRequestsAreRemembered(before, i);
      RunsKeepBase(before);
      StepRemembers(Exec(before), run[|run| - 1], op, CountedSince(before, i));
    }
    RecentAnswersRepeats(Exec(run), op, CountedSince(run, i));
  }

  /** The record read remembers the requests the stored one remembers. */
  predicate SameMemory(s: State, request: nat) {
    request in s.captured ==> Stored(s.captured[request]).handled == Stored(s.disk).handled
  }

  /** That, which can be read off the two records and holds of a fresh one, is enough. */
  lemma {:induction false} SameMemoryRemembers(run: seq<Event>, i: nat)
    requires i < |run| && Acknowledges(run, i)
    requires InstallsMeet(run, SameMemory) && CountedSince(run, i) < MAX_QUEUE_OPERATIONS
    requires Undeleted(run, i)
    ensures InstallsRemember(run, i, IdentityOf(run[i]))
    decreases |run|
  {
    if i + 1 < |run| {
      var before := run[..|run| - 1];
      StateAtPrefix(run, i);
      SameMemoryRemembers(before, i);
      AcknowledgedRequestsAreRemembered(before, i);
    }
  }
}
