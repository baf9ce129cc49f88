/** The controller's side of the queue, in the form the controller has it: an entry
    whose fields the operations replace under the operation lock, writing the stored
    record first. Every operation is shown to be the steps of the run model. */
module QueueController {
  import opened Base
  import opened QueueModel
  import opened QueueOrder
  import opened QueueSafety
  import opened QueueRuns

  // ------------------------------------------------------------------
  // Loops that only read
  // ------------------------------------------------------------------

  /** The remembered operation with the request's key decides the answer. */
  method FindOperation(handled: seq<Operation>, identity: Operation) returns (verdict: Verdict)
    ensures verdict == Lookup(handled, identity)
    ensures verdict.Duplicate? ==> identity in handled
  {
    LookupFinds(handled, identity);
    if identity.key == "" {
      return New;
    }
    for i := 0 to |handled|
      invariant Lookup(handled, identity) == Lookup(handled[i..], identity)
    {
      if handled[i].key == identity.key {
        return if handled[i].fingerprint == identity.fingerprint then Duplicate else Conflict;
      }
      assert handled[i..][1..] == handled[i + 1..];
    }
    return New;
  }

  /** The check every stored record passes through: a loop over the places with the
      set of ids seen so far. */
  method ValidateRecord(q: Queue) returns (ok: bool)
    ensures ok <==> WellFormed(q)
  {
    if |q.handled| > MAX_QUEUE_OPERATIONS || (q.dispatch.Some? && q.blocked.Some?) {
      return false;
    }
    // The stored follow-ups come first, then the dispatch or the blocked item.
    hide QueuedText;
    var items := q.followUp + DispatchItem(q) + BlockedItem(q);
    var seen: set<Id> := {};
    for i := 0 to |items|
      invariant AllNew(items, i, seen)
    {
      SeenTwice(items, i);
      if QueuedText(items[i].text) != Some(items[i].text) || items[i].id in seen {
        RotatedList(q);
        return false;
      }
      OneMoreSeen(items, i, seen);
      seen := seen + {items[i].id};
    }
    RotatedList(q);
    assert items[..|items|] == items;
    return |seen| <= MAX_QUEUED_MESSAGES;
  }

  /** The first i items have been seen, all valid and different. */
  predicate AllNew(items: seq<Item>, i: nat, seen: set<Id>) {
    && i <= |items| && seen == IdSet(items[..i]) && |seen| == i
    && Distinct(items[..i]) && ValidTexts(items[..i])
  }

  lemma {:induction false} OneMoreSeen(items: seq<Item>, i: nat, seen: set<Id>)
    requires i < |items| && AllNew(items, i, seen) && ValidText(items[i].text) && items[i].id !in seen
    ensures AllNew(items, i + 1, seen + {items[i].id})
  {
    hide QueuedText, ValidText;
    assert items[..i + 1] == items[..i] + [items[i]];
    IdSetAppend(items[..i], items[i]);
    forall k | 0 <= k < i ensures items[k].id != items[i].id {
      assert items[..i][k] in items[..i];
    }
  }

  lemma SeenTwice(items: seq<Item>, i: nat)
    requires i < |items|
    ensures items[i].id in IdSet(items[..i]) ==> !Distinct(items)
    ensures !ValidText(items[i].text) ==> !ValidTexts(items)
  {
    if items[i].id in IdSet(items[..i]) {
      var item :| item in items[..i] && item.id == items[i].id;
      var k :| 0 <= k < i && items[k] == item;
    }
  }

  /** The order in which the places are checked does not matter. */
  lemma RotatedList(q: Queue)
    requires q.dispatch.None? || q.blocked.None?
    ensures var items := q.followUp + DispatchItem(q) + BlockedItem(q);
            && |items| == |Flat(q)|
            && (Distinct(items) <==> Distinct(Flat(q)))
            && (ValidTexts(items) <==> ValidTexts(Flat(q)))
  {
    var head := DispatchItem(q) + BlockedItem(q);
    assert q.followUp + DispatchItem(q) + BlockedItem(q) == q.followUp + head && Flat(q) == head + q.followUp;
    hide Flat, Distinct, ValidTexts, DispatchItem, BlockedItem;
    Rotates(q.followUp, head);
    Rotates(head, q.followUp);
  }

  lemma Rotates(a: seq<Item>, b: seq<Item>)
    ensures Distinct(a + b) ==> Distinct(b + a)
    ensures ValidTexts(a + b) ==> ValidTexts(b + a)
  {
    hide ValidText;
    forall i | 0 <= i < |b + a| ensures (b + a)[i] == (a + b)[if i < |b| then |a| + i else i - |b|] {}
  }

  // ------------------------------------------------------------------
  // The transcript, as far as the queue looks at it
  // ------------------------------------------------------------------

  datatype Role = User | Assistant
  datatype Message = Message(role: Role, text: string)

  function UserTurns(messages: seq<Message>): seq<string> {
    if messages == [] then []
    else
      var last := messages[|messages| - 1];
      UserTurns(messages[..|messages| - 1]) + (if last.role.User? then [last.text] else [])
  }

  lemma {:induction false} UserTurnsOfPrefix(messages: seq<Message>, i: nat)
    requires i < |messages|
    ensures UserTurns(messages[..i + 1]) == UserTurns(messages[..i]) + (if messages[i].role.User? then [messages[i].text] else [])
    ensures UserTurns(messages[..i + 1]) <= UserTurns(messages)
    decreases |messages| - i
  {
    assert messages[..i + 1][..i] == messages[..i];
    if i + 1 < |messages| {
      UserTurnsOfPrefix(messages, i + 1);
    } else {
      assert messages[..i + 1] == messages;
    }
  }

  method UserMessageCount(messages: seq<Message>) returns (count: nat)
    ensures count == |UserTurns(messages)|
  {
    count := 0;
    for i := 0 to |messages|
      invariant count == |UserTurns(messages[..i])|
    {
      UserTurnsOfPrefix(messages, i);
      if messages[i].role.User? {
        count := count + 1;
      }
    }
    assert messages[..|messages|] == messages;
  }

  method UserMessageAt(messages: seq<Message>, wanted: nat) returns (text: Option<string>)
    ensures text == if wanted < |UserTurns(messages)| then Some(UserTurns(messages)[wanted]) else None
  {
    var seen := 0;
    for i := 0 to |messages|
      invariant seen == |UserTurns(messages[..i])| && seen <= wanted
    {
      UserTurnsOfPrefix(messages, i);
      if messages[i].role.User? {
        if seen == wanted {
          return Some(messages[i].text);
        }
        seen := seen + 1;
      }
    }
    assert messages[..|messages|] == messages;
    return None;
  }

  function UsersIn(messages: seq<Message>, end: nat): set<nat> {
    set k: nat | k < end && k < |messages| && messages[k].role.User?
  }

  lemma UsersOfFront(messages: seq<Message>, end: nat)
    requires end < |messages|
    ensures UsersIn(messages[..|messages| - 1], end) == UsersIn(messages, end)
    ensures UsersIn(messages, end + 1) == UsersIn(messages, end) + (if messages[end].role.User? then {end} else {})
  {
  }

  lemma {:induction false} UserTurnsAreCounted(messages: seq<Message>)
    ensures |UserTurns(messages)| == |UsersIn(messages, |messages|)|
  {
    if messages == [] {
      assert UsersIn(messages, 0) == {};
    } else {
      UserTurnsAreCounted(messages[..|messages| - 1]);
      UsersOfFront(messages, |messages| - 1);
    }
  }

  /** This message is the user's, and has that many user messages before it. */
  predicate IsTurn(messages: seq<Message>, m: nat, position: nat, text: string) {
    m < |messages| && messages[m] == Message(User, text) && |UsersIn(messages, m)| == position
  }

  lemma {:induction false} MessageOfTurn(messages: seq<Message>, position: nat) returns (m: nat)
    requires position < |UserTurns(messages)|
    ensures IsTurn(messages, m, position, UserTurns(messages)[position])
  {
    var n := |messages| - 1;
    UsersOfFront(messages, n);
    UserTurnsAreCounted(messages[..n]);
    if position < |UserTurns(messages[..n])| {
      m := MessageOfTurn(messages[..n], position);
      UsersOfFront(messages, m);
    } else {
      m := n;
    }
    hide UsersIn;
  }

  lemma {:induction false} TurnOfMessage(messages: seq<Message>, m: nat)
    requires m < |messages| && messages[m].role.User?
    ensures |UsersIn(messages, m)| < |UserTurns(messages)|
    ensures UserTurns(messages)[|UsersIn(messages, m)|] == messages[m].text
  {
    var n := |messages| - 1;
    UsersOfFront(messages, m);
    UserTurnsAreCounted(messages[..n]);
    if m < n {
      TurnOfMessage(messages[..n], m);
    }
    hide UsersIn;
  }

  /** The user turn at a position is the user message with that many before it. */
  lemma {:induction false} UserTurnIsAMessage(messages: seq<Message>, position: nat, text: string)
    ensures position < |UserTurns(messages)| && UserTurns(messages)[position] == text <==>
            exists m: nat :: IsTurn(messages, m, position, text)
  {
    hide UsersIn, UserTurns;
    if position < |UserTurns(messages)| && UserTurns(messages)[position] == text {
      var m := MessageOfTurn(messages, position);
    }
    if m: nat :| IsTurn(messages, m, position, text) {
      TurnOfMessage(messages, m);
    }
  }

  /** The replayed transcript decides about a stored dispatch. */
  method RecoverDispatch(q: Queue, replay: seq<Message>, revision: Revision) returns (next: Queue)
    requires q.dispatch.Some?
    ensures next == Recovered(q, UserTurns(replay), revision)
  {
    hide UserTurns;
    var d := q.dispatch.value;
    var users := UserMessageCount(replay);
    var text := UserMessageAt(replay, d.previousUsers);
    next := q.(dispatch := None, revision := revision);
    if text == Some(d.text) {
      // The agent replayed the exact next user turn: the attempt was admitted.
    } else if !d.attempted && users == d.previousUsers {
      next := next.(followUp := [Item(d.id, d.text)] + next.followUp);
    } else {
      next := next.(blocked := Some(Item(d.id, d.text)));
    }
  }

  /** A finished prompt leaves the dispatch. */
  method SettleRecord(q: Queue, delivered: bool, failed: bool, revision: Revision) returns (next: Queue)
    requires q.dispatch.Some?
    ensures next == Settled(q, delivered, failed, revision)
  {
    var item := Item(q.dispatch.value.id, q.dispatch.value.text);
    next := q.(dispatch := None);
    if failed && !delivered {
      next := next.(blocked := Some(item), revision := revision);
    }
  }

  // ------------------------------------------------------------------
  // Reachable states, and one lemma for each kind of step
  // ------------------------------------------------------------------

  /** The states that runs of the given length end in. */
  ghost predicate Reachable(s: State, steps: nat)
    decreases steps
  {
    if steps == 0 then s == INITIAL
    else exists before: State, e: Event ::
      Reachable(before, steps - 1) && s == Step(before, e)
  }

  lemma {:induction false} ReachableByARun(s: State, steps: nat) returns (run: seq<Event>)
    requires Reachable(s, steps)
    ensures Exec(run) == s && |run| == steps
    decreases steps
  {
    hide Step, Core;
    if steps == 0 {
      run := [];
    } else {
      var before: State, e: Event :|
        Reachable(before, steps - 1) && s == Step(before, e);
      var earlier := ReachableByARun(before, steps - 1);
      run := earlier + [e];
      assert run[..|run| - 1] == earlier;
    }
  }

  lemma {:induction false} Advance(s: State, steps: nat, e: Event)
    requires Reachable(s, steps)
    ensures Reachable(Step(s, e), steps + 1)
    ensures Step(s, e).disk == Core(s, e).disk && Step(s, e).mem == Core(s, e).mem
    ensures Step(s, e).disk.Some? ==> WellFormed(Step(s, e).disk.value)
  {
    var run := ReachableByARun(s, steps);
    RunsKeepBase(run);
    StepKeepsBase(s, e);
  }

  lemma AdvanceLoad(s: State, steps: nat, revision: Revision)
    requires Reachable(s, steps) && s.mem.None?
    ensures Reachable(Step(s, LoadNow(revision)), steps + 1)
    ensures Step(s, LoadNow(revision)).disk == s.disk
    ensures Step(s, LoadNow(revision)).mem == Some(Loaded(s.disk, revision))
  {
    Advance(s, steps, LoadNow(revision));
  }

  lemma AdvanceEvict(s: State, steps: nat)
    requires Reachable(s, steps) && s.mem.Some? && !s.mem.value.promptActive && !s.mem.value.streaming
    ensures Reachable(Step(s, Event.Evict), steps + 1)
    ensures Step(s, Event.Evict).disk == s.disk && Step(s, Event.Evict).mem == None
  {
    Advance(s, steps, Event.Evict);
  }

  lemma AdvanceForget(s: State, steps: nat, outcome: Outcome)
    requires Reachable(s, steps) && s.mem.None?
    ensures Reachable(Step(s, Event.Forget(outcome)), steps + 1)
    ensures Step(s, Event.Forget(outcome)).disk == Landed(s.disk, None, outcome) && Step(s, Event.Forget(outcome)).mem == None
  {
    Advance(s, steps, Event.Forget(outcome));
  }

  lemma AdvanceEcho(s: State, steps: nat, complete: bool)
    requires Reachable(s, steps) && s.mem.Some? && s.mem.value.echoPending
    ensures var m, s' := s.mem.value, Step(s, Event.Echo(complete));
            && Reachable(s', steps + 1) && s'.disk == s.disk
            && s'.mem == Some(m.(echoPending := false, acknowledged := m.acknowledged || complete))
  {
    Advance(s, steps, Event.Echo(complete));
  }

  lemma AdvanceNotify(s: State, steps: nat, turns: seq<string>, streaming: bool)
    requires Reachable(s, steps) && s.mem.Some?
    ensures var m, s' := s.mem.value, Step(s, Event.Notify(turns, streaming));
            && Reachable(s', steps + 1) && s'.disk == s.disk
            && s'.mem == Some(m.(turns := turns, streaming := streaming))
  {
    Advance(s, steps, Event.Notify(turns, streaming));
  }

  lemma AdvanceDirect(s: State, steps: nat, text: string)
    requires Reachable(s, steps) && s.mem.Some? && !s.mem.value.promptActive && !s.mem.value.streaming
    requires Flat(s.mem.value.queue) == []
    ensures var s' := Step(s, Event.StartDirect(text));
            Reachable(s', steps + 1) && s'.disk == s.disk && s'.mem == Some(Prompting(s.mem.value, text, None))
  {
    Advance(s, steps, Event.StartDirect(text));
    hide Prompting, Flat, Reachable;
  }

  lemma AdvanceAbandon(s: State, steps: nat)
    requires Reachable(s, steps) && s.mem.Some? && s.mem.value.call.Some?
    ensures var s' := Step(s, Event.Abandon);
            Reachable(s', steps + 1) && s'.disk == s.disk && s'.mem == Some(s.mem.value.(call := None))
  {
    Advance(s, steps, Event.Abandon);
  }

  lemma AdvanceRead(s: State, steps: nat, request: nat)
    requires Reachable(s, steps) && request !in s.captured
    ensures Reachable(Step(s, Capture(request)), steps + 1)
    ensures Step(s, Capture(request)).disk == s.disk && Step(s, Capture(request)).mem == s.mem
    ensures Step(s, Capture(request)).captured == s.captured[request := s.disk]
  {
    Advance(s, steps, Capture(request));
  }

  lemma AdvanceCandidate(s: State, steps: nat, request: nat, revision: Revision)
    requires Reachable(s, steps) && request in s.captured
    ensures s.mem.None? ==>
              && Reachable(Step(s, Install(request, revision)), steps + 1)
              && Step(s, Install(request, revision)).disk == s.disk
              && Step(s, Install(request, revision)).mem == Some(Loaded(s.captured[request], revision))
    ensures s.mem.Some? ==>
              && Reachable(Step(s, Discard(request)), steps + 1)
              && Step(s, Discard(request)).disk == s.disk && Step(s, Discard(request)).mem == s.mem
  {
    if s.mem.None? {
      Advance(s, steps, Install(request, revision));
    } else {
      Advance(s, steps, Discard(request));
    }
  }

  lemma AdvanceCrash(s: State, steps: nat)
    requires Reachable(s, steps)
    ensures Reachable(Step(s, Crash), steps + 1)
    ensures Step(s, Crash).disk == s.disk && Step(s, Crash).mem == None
  {
    Advance(s, steps, Crash);
  }

  lemma UserRequests(s: State)
    requires s.mem.Some?
    ensures forall e: Event | e.Add? && e.id !in s.created && e.identity.fingerprint.action.AddAction? ::
              Core(s, e) == AddStep(s, e.text, e.identity, e.id, e.revision, e.outcome)
    ensures forall e: Event | e.Edit? && e.identity.fingerprint.action.EditAction? ::
              Core(s, e) == EditStep(s, e.index, e.text, e.identity, e.expected, e.revision, e.outcome)
    ensures forall e: Event | e.Remove? && e.identity.fingerprint.action.RemoveAction? ::
              Core(s, e) == RemoveStep(s, e.index, e.identity, e.expected, e.revision, e.outcome)
  {
    hide AddStep, EditStep, RemoveStep, Flat;
  }

  lemma {:induction false} AdvanceAdd(s: State, steps: nat, text: string, identity: Operation, id: Id,
          revision: Revision, outcome: Outcome)
    requires Reachable(s, steps) && s.mem.Some? && id !in s.created && identity.fingerprint.action.AddAction?
    ensures var s' := Step(s, Event.Add(text, identity, id, revision, outcome));
            && Reachable(s', steps + 1)
            && s'.disk == AddStep(s, text, identity, id, revision, outcome).disk
            && s'.mem == AddStep(s, text, identity, id, revision, outcome).mem
    ensures var saved := AddStep(s, text, identity, id, revision, Saved).disk;
            saved.Some? ==> WellFormed(saved.value)
  {
    UserRequests(s);
    Advance(s, steps, Event.Add(text, identity, id, revision, outcome));
    Advance(s, steps, Event.Add(text, identity, id, revision, Saved));
    hide Step, Core, Reachable, WellFormed, AddStep;
  }

  lemma {:induction false} AdvanceEdit(s: State, steps: nat, index: int, text: string, identity: Operation,
          expected: Revision, revision: Revision, outcome: Outcome)
    requires Reachable(s, steps) && s.mem.Some? && identity.fingerprint.action.EditAction?
    ensures var s' := Step(s, Event.Edit(index, text, identity, expected, revision, outcome));
            && Reachable(s', steps + 1)
            && s'.disk == EditStep(s, index, text, identity, expected, revision, outcome).disk
            && s'.mem == EditStep(s, index, text, identity, expected, revision, outcome).mem
    ensures var saved := EditStep(s, index, text, identity, expected, revision, Saved).disk;
            saved.Some? ==> WellFormed(saved.value)
  {
    UserRequests(s);
    Advance(s, steps, Event.Edit(index, text, identity, expected, revision, outcome));
    Advance(s, steps, Event.Edit(index, text, identity, expected, revision, Saved));
    hide Step, Core, Reachable, WellFormed, EditStep;
  }

  lemma {:induction false} AdvanceRemove(s: State, steps: nat, index: int, identity: Operation, expected: Revision,
          revision: Revision, outcome: Outcome)
    requires Reachable(s, steps) && s.mem.Some? && identity.fingerprint.action.RemoveAction?
    ensures var s' := Step(s, Event.Remove(index, identity, expected, revision, outcome));
            && Reachable(s', steps + 1)
            && s'.disk == RemoveStep(s, index, identity, expected, revision, outcome).disk
            && s'.mem == RemoveStep(s, index, identity, expected, revision, outcome).mem
    ensures var saved := RemoveStep(s, index, identity, expected, revision, Saved).disk;
            saved.Some? ==> WellFormed(saved.value)
  {
    UserRequests(s);
    Advance(s, steps, Event.Remove(index, identity, expected, revision, outcome));
    Advance(s, steps, Event.Remove(index, identity, expected, revision, Saved));
    hide Step, Core, Reachable, WellFormed, RemoveStep;
  }

  lemma {:induction false} AdvanceRetry(s: State, steps: nat, retryId: Id, identity: Operation, expected: Revision,
          revision: Revision, outcome: Outcome)
    requires Reachable(s, steps) && s.mem.Some? && identity.fingerprint.action.RetryAction?
    requires Lookup(s.mem.value.queue.handled, identity).New?
    ensures var m, s' := s.mem.value, Step(s, Event.Retry(retryId, identity, expected, revision, outcome));
            var next := FinishedQueue(m.queue, m.promptActive, retryId, identity, expected, revision);
            && Reachable(s', steps + 1)
            && (next.None? ==> s'.disk == s.disk && s'.mem == s.mem)
            && (next.Some? ==>
                  && WellFormed(next.value) && s'.disk == Landed(s.disk, next, outcome)
                  && s'.mem == if outcome.Saved? then Some(m.(queue := next.value)) else s.mem)
  {
    var m := s.mem.value;
    Advance(s, steps, Event.Retry(retryId, identity, expected, revision, outcome));
    StateIsWellFormed(s, steps);
    FinishedFacts(m.queue, m.promptActive, retryId, identity, expected, revision);
    RetryStores(s, retryId, identity, expected, revision, outcome);
    hide WellFormed, Step, Reachable, Flat, FinishedQueue, RetryStep, Lookup;
  }

  lemma RetryStores(s: State, retryId: Id, identity: Operation, expected: Revision, revision: Revision, outcome: Outcome)
    requires s.mem.Some? && Lookup(s.mem.value.queue.handled, identity).New?
    ensures var m, s' := s.mem.value, RetryStep(s, retryId, identity, expected, revision, outcome);
            var next := FinishedQueue(m.queue, m.promptActive, retryId, identity, expected, revision);
            && (next.None? ==> s'.disk == s.disk && s'.mem == s.mem)
            && (next.Some? ==>
                  && s'.disk == Landed(s.disk, next, outcome)
                  && s'.mem == if outcome.Saved? then Some(m.(queue := next.value)) else s.mem)
  {
    var m := s.mem.value;
    assert m.queue.(handled := Remember(m.queue.handled, identity)) == Stamped(m.queue, identity, m.queue.revision);
    hide Stamped, Retried, RetryTarget, Remember, Lookup;
  }

  lemma AdvanceDetach(s: State, steps: nat)
    requires Reachable(s, steps) && s.mem.Some?
    ensures Reachable(Step(s, Detach), steps + 1)
    ensures Step(s, Detach).disk == s.disk && Step(s, Detach).mem == Some(s.mem.value.(attached := 0))
  {
    Advance(s, steps, Detach);
  }

  lemma AttachWrites(s: State, generation: nat, turns: seq<string>, revision: Revision, outcome: Outcome)
    requires s.mem.Some? && generation != 0
    ensures var m, s' := s.mem.value, Core(s, Event.Attach(generation, turns, revision, outcome));
            && (m.queue.dispatch.None? ==>
                  s'.disk == s.disk && s'.mem == Some(Reattached(m, m.queue, generation, turns)))
            && (m.queue.dispatch.Some? ==>
                  var next := Recovered(m.queue, turns, revision);
                  && s'.disk == Landed(s.disk, Some(next), outcome)
                  && s'.mem == if outcome.Saved? then Some(Reattached(m, next, generation, turns)) else s.mem)
  {
    hide Recovered, Reattached, Flat;
  }

  lemma {:induction false} AdvanceAttach(s: State, steps: nat, generation: nat, turns: seq<string>,
          revision: Revision, outcome: Outcome)
    requires Reachable(s, steps) && s.mem.Some? && generation != 0
    ensures var m, s' := s.mem.value, Step(s, Event.Attach(generation, turns, revision, outcome));
            && Reachable(s', steps + 1)
            && (m.queue.dispatch.None? ==>
                  s'.disk == s.disk && s'.mem == Some(Reattached(m, m.queue, generation, turns)))
            && (m.queue.dispatch.Some? ==>
                  var next := Recovered(m.queue, turns, revision);
                  && WellFormed(next) && s'.disk == Landed(s.disk, Some(next), outcome)
                  && s'.mem == if outcome.Saved? then Some(Reattached(m, next, generation, turns)) else s.mem)
  {
    hide Core, Step, Reachable, WellFormed, Flat, RunnableIds, Recovered, Reattached;
    Advance(s, steps, Event.Attach(generation, turns, revision, outcome));
    AttachWrites(s, generation, turns, revision, outcome);
    StateIsWellFormed(s, steps);
    if s.mem.value.queue.dispatch.Some? {
      RecoverFollows(s.mem.value.queue, turns, revision);
    }
  }

  lemma MovesWrite(s: State, revision: Revision, outcome: Outcome)
    requires s.mem.Some? && !s.mem.value.promptActive
    ensures var m := s.mem.value;
            var restored, prepared := Core(s, Event.Restore(revision, outcome)), Core(s, Event.Prepare(revision, outcome));
            && (m.queue.dispatch.Some? && !m.queue.dispatch.value.attempted ==>
                  var next := Commit(s, Requeued(m.queue, revision), outcome);
                  restored.disk == next.disk && restored.mem == next.mem)
            && (!m.streaming && m.queue.dispatch.None? && m.queue.blocked.None? && m.queue.followUp != [] ==>
                  var next := Commit(s, Prepared(m.queue, |m.turns|, revision), outcome);
                  prepared.disk == next.disk && prepared.mem == next.mem)
  {
    hide Requeued, Prepared, Commit, Flat;
  }

  lemma {:induction false} AdvanceRestore(s: State, steps: nat, revision: Revision, outcome: Outcome)
    requires Reachable(s, steps) && s.mem.Some? && !s.mem.value.promptActive
    requires s.mem.value.queue.dispatch.Some? && !s.mem.value.queue.dispatch.value.attempted
    ensures var s' := Step(s, Event.Restore(revision, outcome));
            var next := Requeued(s.mem.value.queue, revision);
            && Reachable(s', steps + 1)
            && s'.disk == Commit(s, next, outcome).disk && s'.mem == Commit(s, next, outcome).mem
            && WellFormed(next) && Flat(next) == Flat(s.mem.value.queue)
  {
    hide Core, Step, Reachable, WellFormed, Flat, RunnableIds, Requeued, Commit;
    Advance(s, steps, Event.Restore(revision, outcome));
    MovesWrite(s, revision, outcome);
    StateIsWellFormed(s, steps);
    RequeueFollows(s.mem.value.queue, revision);
    MovesKeepTheList(s.mem.value.queue, 0, false, revision);
  }

  lemma {:induction false} AdvancePrepare(s: State, steps: nat, revision: Revision, outcome: Outcome)
    requires Reachable(s, steps) && s.mem.Some? && !s.mem.value.promptActive && !s.mem.value.streaming
    requires s.mem.value.queue.dispatch.None? && s.mem.value.queue.blocked.None? && s.mem.value.queue.followUp != []
    ensures var s' := Step(s, Event.Prepare(revision, outcome));
            var next := Prepared(s.mem.value.queue, |s.mem.value.turns|, revision);
            && Reachable(s', steps + 1)
            && s'.disk == Commit(s, next, outcome).disk && s'.mem == Commit(s, next, outcome).mem
            && WellFormed(next) && Flat(next) == Flat(s.mem.value.queue)
  {
    hide Core, Step, Reachable, WellFormed, Flat, RunnableIds, Prepared, Commit;
    Advance(s, steps, Event.Prepare(revision, outcome));
    MovesWrite(s, revision, outcome);
    StateIsWellFormed(s, steps);
    PrepareFollows(s.mem.value.queue, |s.mem.value.turns|, revision);
    MovesKeepTheList(s.mem.value.queue, |s.mem.value.turns|, false, revision);
  }

  lemma StartWrites(s: State, outcome: Outcome)
    requires s.mem.Some? && !s.mem.value.promptActive
    requires s.mem.value.queue.dispatch.Some? && !s.mem.value.queue.dispatch.value.attempted
    ensures var m, s' := s.mem.value, Core(s, Event.Start(outcome));
            var next, d := Marked(m.queue), m.queue.dispatch.value;
            && s'.disk == Landed(s.disk, Some(next), outcome)
            && s'.mem == (if outcome.Saved? then Some(Prompting(m.(queue := next), d.text, Some(d.id))) else s.mem)
  {
    hide Prompting, Flat;
  }

  lemma {:induction false} AdvanceStart(s: State, steps: nat, outcome: Outcome)
    requires Reachable(s, steps) && s.mem.Some? && !s.mem.value.promptActive
    requires s.mem.value.queue.dispatch.Some? && !s.mem.value.queue.dispatch.value.attempted
    ensures var m, s' := s.mem.value, Step(s, Event.Start(outcome));
            var next, d := Marked(m.queue), m.queue.dispatch.value;
            && Reachable(s', steps + 1) && s'.disk == Landed(s.disk, Some(next), outcome)
            && s'.mem == (if outcome.Saved? then Some(Prompting(m.(queue := next), d.text, Some(d.id))) else s.mem)
            && WellFormed(next) && Flat(next) == Flat(m.queue)
  {
    hide Core, Step, Reachable, WellFormed, Flat, RunnableIds, Prompting, Marked;
    Advance(s, steps, Event.Start(outcome));
    StartWrites(s, outcome);
    StateIsWellFormed(s, steps);
    MarkFollows(s.mem.value.queue);
    MovesKeepTheList(s.mem.value.queue, 0, false, 0);
  }

  lemma {:induction false} AdvanceSubmit(s: State, steps: nat)
    requires Reachable(s, steps) && s.mem.Some? && s.mem.value.call.Some? && !s.mem.value.call.value.sent
    ensures Reachable(Step(s, Submit), steps + 1) && Step(s, Submit).disk == s.disk
    ensures Step(s, Submit).mem == Some(s.mem.value.(call := Some(s.mem.value.call.value.(sent := true))))
  {
    Advance(s, steps, Submit);
  }

  /** The prompt call that ended is the one of the queue's dispatch. */
  predicate IsMine(q: Queue, call: Option<Call>) {
    q.dispatch.Some? && call.Some? && call.value.queueId == Some(q.dispatch.value.id)
  }

  lemma MineIsDispatched(q: Queue, call: Option<Call>)
    requires IsMine(q, call)
    ensures q.dispatch.Some?
  {
  }

  /** The dispatch is empty, its item blocked or gone, and all else as it was. */
  predicate DispatchLeft(q: Queue, next: Queue, undelivered: bool)
    requires q.dispatch.Some?
  {
    && next.dispatch.None? && next.followUp == q.followUp && next.handled == q.handled
    && next.blocked == if undelivered then Some(Item(q.dispatch.value.id, q.dispatch.value.text)) else q.blocked
  }

  lemma SettlingLeaves(q: Queue, delivered: bool, failed: bool, revision: Revision)
    requires q.dispatch.Some?
    ensures DispatchLeft(q, Settled(q, delivered, failed, revision), failed && !delivered)
  {
  }

  lemma SettleWrites(s: State, failed: bool, revision: Revision, outcome: Outcome)
    requires s.mem.Some? && s.mem.value.call.Some? && (s.mem.value.call.value.sent || failed)
    ensures var m, s' := s.mem.value, Core(s, Event.Settle(failed, revision, outcome));
            var idle := m.(promptActive := false, streaming := false, acknowledged := false, call := None);
            && (!IsMine(m.queue, m.call) ==> s'.disk == s.disk && s'.mem == Some(idle))
            && (IsMine(m.queue, m.call) ==>
                  var next := Settled(m.queue, !failed || m.acknowledged, failed, revision);
                  && s'.disk == Landed(s.disk, Some(next), outcome)
                  && s'.mem == Some(if outcome.Saved? then idle.(queue := next) else idle))
  {
    hide Settled, Flat;
  }

  lemma {:induction false} AdvanceSettle(s: State, steps: nat, failed: bool, revision: Revision, outcome: Outcome)
    requires Reachable(s, steps) && s.mem.Some? && s.mem.value.call.Some?
    requires s.mem.value.call.value.sent || failed
    ensures var m, s' := s.mem.value, Step(s, Event.Settle(failed, revision, outcome));
            var idle := m.(promptActive := false, streaming := false, acknowledged := false, call := None);
            && Reachable(s', steps + 1)
            && (!IsMine(m.queue, m.call) ==> s'.disk == s.disk && s'.mem == Some(idle))
            && (IsMine(m.queue, m.call) ==>
                  var next := Settled(m.queue, !failed || m.acknowledged, failed, revision);
                  && WellFormed(next) && s'.disk == Landed(s.disk, Some(next), outcome)
                  && s'.mem == Some(if outcome.Saved? then idle.(queue := next) else idle))
  {
    hide Core, Step, Reachable, WellFormed, Flat, RunnableIds, Settled;
    Advance(s, steps, Event.Settle(failed, revision, outcome));
    SettleWrites(s, failed, revision, outcome);
    StateIsWellFormed(s, steps);
    if s.mem.value.queue.dispatch.Some? {
      SettleFollows(s.mem.value.queue, !failed || s.mem.value.acknowledged, failed, revision);
    }
  }

  lemma StateIsWellFormed(s: State, steps: nat)
    requires Reachable(s, steps)
    ensures s.mem.Some? ==> WellFormed(s.mem.value.queue)
  {
    var run := ReachableByARun(s, steps);
    RunsKeepBase(run);
  }

  /** The list of items is the same, or has lost its head. */
  predicate ListKept(q: Queue, next: Queue) {
    Flat(next) == Flat(q) || (Flat(q) != [] && Flat(next) == Flat(q)[1..])
  }

  ghost predicate RecoveredFrom(q: Queue, next: Queue) {
    q.dispatch.Some? && exists turns: seq<string>, revision: Revision :: next == Recovered(q, turns, revision)
  }

  /** What a replayed transcript says about a dispatch. The item was delivered, and leaves
      the list, exactly when the user turn at the recorded position has its text. Otherwise
      it stays the head: to be sent when it was never attempted and no turn has come since,
      blocked in every other case. */
  predicate Decided(q: Queue, next: Queue, turns: seq<string>)
    requires q.dispatch.Some?
  {
    var d := q.dispatch.value;
    var item := Item(d.id, d.text);
    var delivered := d.previousUsers < |turns| && turns[d.previousUsers] == d.text;
    var untouched := !d.attempted && |turns| == d.previousUsers;
    && next.dispatch.None? && next.handled == q.handled
    && (delivered <==> item !in Flat(next))
    && Flat(q) == (if delivered then [item] else []) + Flat(next)
    && (!delivered ==>
          && Flat(next) != [] && Flat(next)[0] == item
          && (untouched <==> next.followUp == [item] + q.followUp)
          && (!untouched <==> next.blocked == Some(item)))
  }

  lemma RecoveryDecides(q: Queue, turns: seq<string>, revision: Revision)
    requires WellFormed(q) && q.dispatch.Some?
    ensures Decided(q, Recovered(q, turns, revision), turns) && Recovered(q, turns, revision).revision == revision
  {
    hide ValidTexts;
    var item := Item(q.dispatch.value.id, q.dispatch.value.text);
    assert Flat(q) == [item] + q.followUp;
    forall k | 0 <= k < |q.followUp| ensures q.followUp[k] != item {
      assert Flat(q)[0].id != Flat(q)[k + 1].id;
    }
  }

  lemma RecoveryClears(q: Queue, turns: seq<string>, revision: Revision)
    requires q.dispatch.Some?
    ensures Recovered(q, turns, revision).dispatch.None?
  {
  }

  lemma RecoveryIsOne(q: Queue, turns: seq<string>, revision: Revision)
    requires q.dispatch.Some?
    ensures RecoveredFrom(q, Recovered(q, turns, revision))
  {
  }

  /** What a reload can do to a record: nothing, or decide about its dispatch, which
      leaves the list or drops its head and makes nothing newly sendable. */
  lemma RecoveryFacts(q: Queue, next: Queue)
    requires WellFormed(q) && (next == q || RecoveredFrom(q, next))
    ensures ListKept(q, next)
    ensures RunnableIds(next) <= RunnableIds(q) && next.handled == q.handled
    ensures q.dispatch.None? ==> next == q
  {
    if RecoveredFrom(q, next) {
      var turns: seq<string>, revision: Revision :| next == Recovered(q, turns, revision);
      OnlyDeliveryDropsTheHead(q, false, false, turns, revision);
      RecoverFollows(q, turns, revision);
    }
  }

  lemma RecoveryKeepsTheTarget(q: Queue, next: Queue, promptActive: bool)
    requires WellFormed(q) && (next == q || RecoveredFrom(q, next))
    requires RetryTarget(q, promptActive).Some?
    ensures RetryTarget(next, promptActive) == RetryTarget(q, promptActive) || RetryTarget(next, promptActive).None?
    ensures ListKept(q, next)
    ensures RunnableIds(next) <= RunnableIds(q) && next.handled == q.handled
  {
    RecoveryFacts(q, next);
  }

  lemma RetryAddsItsTarget(q: Queue, promptActive: bool)
    requires WellFormed(q) && RetryTarget(q, promptActive).Some?
    ensures Flat(Retried(q, promptActive)) == Flat(q) && WellFormed(Retried(q, promptActive))
    ensures RunnableIds(Retried(q, promptActive)) <= RunnableIds(q) + {RetryTarget(q, promptActive).value}
  {
    MovesKeepTheList(q, 0, promptActive, 0);
    RetryFollows(q, promptActive);
  }

  lemma StampingChangesNoItem(q: Queue, identity: Operation, revision: Revision)
    ensures Flat(Stamped(q, identity, revision)) == Flat(q)
    ensures RunnableIds(Stamped(q, identity, revision)) == RunnableIds(q)
    ensures WellFormed(q) ==> WellFormed(Stamped(q, identity, revision))
  {
    if WellFormed(q) {
      RememberIsBounded(q.handled, identity);
    }
  }

  lemma StampingChangesNoText(q: Queue, includeDispatch: bool, identity: Operation, revision: Revision)
    ensures Wire(Stamped(q, identity, revision), includeDispatch) == Wire(q, includeDispatch)
  {
  }

  lemma ChangesForgetNothing(q: Queue, place: Place, text: string)
    requires Exists(q, place)
    ensures Edited(q, place, text).handled == Without(q, place).handled == q.handled
  {
  }

  /** The record a retry stores after its reload: resolved when the item is no longer
      there, put back otherwise, and none when there is nothing to put back. */
  function FinishedQueue(q: Queue, promptActive: bool, target: Id, identity: Operation, expected: Revision,
          revision: Revision): Option<Queue> {
    if expected != q.revision && (q.blocked.None? || q.blocked.value.id != target) then
      Some(Stamped(q, identity, q.revision))
    else if RetryTarget(q, promptActive).Some? then Some(Stamped(Retried(q, promptActive), identity, revision))
    else None
  }

  method FinishRecord(q: Queue, promptActive: bool, target: Id, identity: Operation, expected: Revision,
          revision: Revision) returns (next: Option<Queue>)
    ensures next == FinishedQueue(q, promptActive, target, identity, expected, revision)
  {
    hide Remember;
    if expected != q.revision && (q.blocked.None? || q.blocked.value.id != target) {
      // The reload proved that the agent already has this turn.
      return Some(q.(handled := Remember(q.handled, identity)));
    }
    var record := q;
    if q.dispatch.Some? && q.dispatch.value.attempted && !promptActive {
      var item := Item(q.dispatch.value.id, q.dispatch.value.text);
      record := q.(dispatch := None, followUp := [item] + q.followUp);
    } else if q.blocked.Some? {
      record := q.(blocked := None, followUp := [q.blocked.value] + q.followUp);
    } else {
      return None;
    }
    return Some(record.(handled := Remember(q.handled, identity), revision := revision));
  }

  lemma FinishedFacts(q: Queue, promptActive: bool, target: Id, identity: Operation, expected: Revision, revision: Revision)
    requires WellFormed(q)
    ensures var next := FinishedQueue(q, promptActive, target, identity, expected, revision);
            next.Some? ==>
              && WellFormed(next.value) && Flat(next.value) == Flat(q)
              && RunnableIds(next.value) <= RunnableIds(q) + TargetIds(q, promptActive)
  {
    StampingChangesNoItem(q, identity, q.revision);
    if RetryTarget(q, promptActive).Some? {
      RetryAddsItsTarget(q, promptActive);
      StampingChangesNoItem(Retried(q, promptActive), identity, revision);
    }
  }

  lemma KeptAsItIs(q: Queue)
    ensures ListKept(q, q)
  {
  }

  /** The item of a retry is the attempted dispatch, or there is no dispatch. */
  lemma TargetsInPlace(q: Queue, promptActive: bool)
    requires WellFormed(q) && RetryTarget(q, promptActive).Some?
    ensures q.dispatch.Some? <==> q.dispatch.Some? && q.dispatch.value.attempted && !promptActive
  {
  }

  /** What a whole retry does to the record, whatever its reload decided. */
  lemma {:induction false} RetryFacts(q: Queue, reloaded: Queue, promptActive: bool, target: Id, identity: Operation,
          expected: Revision, revision: Revision)
    requires WellFormed(q) && WellFormed(reloaded) && (reloaded == q || RecoveredFrom(q, reloaded))
    requires RetryTarget(q, promptActive).Some?
    ensures ListKept(q, reloaded) && RunnableIds(reloaded) <= RunnableIds(q) && reloaded.handled == q.handled
    ensures var next := FinishedQueue(reloaded, promptActive, target, identity, expected, revision);
            next.Some? ==>
              && ListKept(q, next.value)
              && RunnableIds(next.value) <= RunnableIds(q) + TargetIds(q, promptActive)
  {
    RecoveryKeepsTheTarget(q, reloaded, promptActive);
    FinishedFacts(reloaded, promptActive, target, identity, expected, revision);
    hide Flat, WellFormed, RunnableIds, RecoveredFrom, FinishedQueue, RetryTarget;
  }

  /** The item is the next one to be sent again, or the reload found it delivered. */
  predicate RetriedTo(q: Queue, next: Queue, target: Id, delivered: bool) {
    if delivered then Flat(q) != [] && Flat(q)[0].id == target && Flat(next) == Flat(q)[1..]
    else
      && next.dispatch.None? && next.blocked.None? && Flat(next) == Flat(q)
      && next.followUp != [] && next.followUp[0].id == target
  }

  /** After a reload that gave the record a new revision there is always something to
      store. */
  lemma {:induction false} RetryResolves(q: Queue, promptActive: bool, turns: seq<string>, reloadedTo: Revision,
          identity: Operation, revision: Revision)
    requires WellFormed(q) && RetryTarget(q, promptActive).Some? && reloadedTo != q.revision
    ensures var target := RetryTarget(q, promptActive).value;
            var reloaded := if q.dispatch.Some? then Recovered(q, turns, reloadedTo) else q;
            var next := FinishedQueue(reloaded, promptActive, target, identity, q.revision, revision);
            next.Some? && RetriedTo(q, next.value, target, q.dispatch.Some? && Replayed(q.dispatch.value, turns))
  {
    var target := RetryTarget(q, promptActive).value;
    var reloaded := if q.dispatch.Some? then Recovered(q, turns, reloadedTo) else q;
    TargetsInPlace(q, promptActive);
    if q.dispatch.Some? {
      OnlyDeliveryDropsTheHead(q, false, false, turns, reloadedTo);
      TargetIsTheHead(q);
    }
    if q.dispatch.Some? && Replayed(q.dispatch.value, turns) {
      StampingChangesNoItem(reloaded, identity, reloadedTo);
      hide Flat, WellFormed, Stamped, Retried;
    } else {
      assert reloaded.dispatch.None? && reloaded.blocked.Some? && reloaded.blocked.value.id == target;
      hide WellFormed, Recovered, RetryTarget;
      BlockedIsPutBack(reloaded, promptActive, identity, revision);
    }
  }

  lemma TargetIsTheHead(q: Queue)
    requires q.dispatch.Some?
    ensures Flat(q) != [] && Flat(q)[0].id == q.dispatch.value.id
  {
  }

  lemma BlockedIsPutBack(q: Queue, promptActive: bool, identity: Operation, revision: Revision)
    requires WellFormed(q) && q.dispatch.None? && q.blocked.Some?
    ensures RetryTarget(q, promptActive).Some?
    ensures var next := Stamped(Retried(q, promptActive), identity, revision);
            && next.dispatch.None? && next.blocked.None? && Flat(next) == Flat(q)
            && next.followUp != [] && next.followUp[0].id == q.blocked.value.id
  {
    MovesKeepTheList(q, 0, promptActive, 0);
    StampingChangesNoItem(Retried(q, promptActive), identity, revision);
    hide Flat;
  }

  function TargetIds(q: Queue, promptActive: bool): set<Id> {
    if RetryTarget(q, promptActive).Some? then {RetryTarget(q, promptActive).value} else {}
  }

  lemma RequeueAddsNothingRunnable(q: Queue, revision: Revision)
    requires q.dispatch.Some? && !q.dispatch.value.attempted
    ensures RunnableIds(Requeued(q, revision)) == RunnableIds(q)
  {
    IdSetPrepend(DispatchItem(q)[0], q.followUp);
  }

  lemma ListLength(q: Queue)
    ensures |Flat(q)| == |q.followUp| + Indicator(q.dispatch.Some?) + Indicator(q.blocked.Some?)
  {
  }

  lemma AddedList(q: Queue, item: Item, identity: Operation, revision: Revision)
    ensures Flat(Added(q, item, identity, revision)) == Flat(q) + [item]
  {
  }

  lemma UserTurnsAppend(messages: seq<Message>, text: string)
    ensures UserTurns(messages + [Message(User, text)]) == UserTurns(messages) + [text]
  {
    assert (messages + [Message(User, text)])[..|messages|] == messages;
  }

  // ------------------------------------------------------------------
  // One pass of the worker
  // ------------------------------------------------------------------

  /** The generation of a connection; zero stands for none. */
  type Connected = g: nat | g > 0 witness 1

  /** What one attach meets: the connection, what its load replays, if it works, and how
      the write of a recovery ends. */
  datatype Attachment = Attachment(
    generation: Connected, loaded: Option<seq<Message>>, revision: Revision, outcome: Outcome)

  /** What one pass of the worker meets: its two attaches, its writes with the revisions
      they draw, and whether the manager still admits work. */
  datatype Surroundings = Surroundings(
    first: Attachment, second: Attachment, restoreRevision: Revision, restore: Outcome,
    prepareRevision: Revision, prepare: Outcome, startable: bool, start: Outcome,
    putBackRevision: Revision, putBack: Outcome)

  /** Nothing fails: both loads work, work is admitted and every write succeeds. */
  predicate Untroubled(env: Surroundings) {
    && env.first.loaded.Some? && env.second.loaded.Some? && env.startable
    && env.first.outcome.Saved? && env.restore.Saved? && env.prepare.Saved? && env.start.Saved?
  }

  /** What the worker asks before anything else. An attempted dispatch is looked at again
      only over a new connection. */
  predicate HasWork(q: Queue, attached: nat) {
    && q.blocked.None?
    && (if q.dispatch.Some? then !q.dispatch.value.attempted || attached == 0 else q.followUp != [])
  }

  /** The item to be sent next, if any: a prepared dispatch comes first; an attempted one
      holds the queue until a reload shows that it was delivered. */
  function NextItem(q: Queue, attached: nat, turns: seq<string>): Option<Item> {
    var first := if q.followUp == [] then None else Some(q.followUp[0]);
    if q.blocked.Some? then None
    else if q.dispatch.None? then first
    else
      var d := q.dispatch.value;
      if !d.attempted then Some(Item(d.id, d.text))
      else if attached == 0 && Replayed(d, turns) then first else None
  }

  /** The item a record without dispatch and blocked item would send. */
  function Head(q: Queue): Option<Item> {
    if q.dispatch.None? && q.blocked.None? && q.followUp != [] then Some(q.followUp[0]) else None
  }

  lemma NothingToSend(q: Queue, attached: nat)
    requires q.dispatch.None? && (q.blocked.Some? || q.followUp == [])
    ensures !HasWork(q, attached)
  {
  }

  lemma AttemptedHolds(q: Queue, attached: nat)
    requires q.dispatch.Some? && q.dispatch.value.attempted && attached > 0
    ensures !HasWork(q, attached)
  {
  }

  lemma IdleHasNoNext(q: Queue, attached: nat, turns: seq<string>)
    ensures !HasWork(q, attached) ==> NextItem(q, attached, turns).None?
  {
  }

  lemma FreeAlready(q: Queue)
    requires q.dispatch.None? && q.blocked.None?
    ensures forall attached: nat, turns: seq<string> :: Head(q) == NextItem(q, attached, turns)
  {
  }

  lemma KeptFurther(q: Queue, reloaded: Queue, next: Queue)
    requires ListKept(q, reloaded) && Flat(next) == Flat(reloaded)
    ensures ListKept(q, next)
  {
  }

  lemma FreedByRestore(q: Queue, revision: Revision)
    requires q.dispatch.Some? && q.blocked.None? && !q.dispatch.value.attempted
    ensures forall attached: nat, turns: seq<string> ::
              Head(Requeued(q, revision)) == NextItem(q, attached, turns)
  {
  }

  lemma FreedByReload(q: Queue, turns: seq<string>, revision: Revision)
    requires WellFormed(q) && q.dispatch.Some? && q.blocked.None? && q.dispatch.value.attempted
    ensures var next := Recovered(q, turns, revision);
            && Head(next) == NextItem(q, 0, turns)
            && ListKept(q, next) && RunnableIds(next) <= RunnableIds(q)
  {
    RecoveryIsOne(q, turns, revision);
    RecoveryFacts(q, Recovered(q, turns, revision));
    hide WellFormed, Flat, RunnableIds, RecoveredFrom, ListKept;
  }

  lemma HeadIsRunnable(q: Queue)
    requires q.followUp != []
    ensures q.followUp[0].id in RunnableIds(q)
  {
    assert q.followUp[0] in q.followUp;
  }

  // ------------------------------------------------------------------
  // The entry of one chat
  // ------------------------------------------------------------------

  datatype Reply = Done | Repeated | Refused

  class Entry {
    var disk: Option<Queue>  // this chat's record in the stored file
    var live: bool           // whether the manager holds a projection of the chat
    var queue: Queue
    var promptActive: bool
    var streaming: bool
    var attached: nat
    var messages: seq<Message>
    var echoPending: bool
    var acknowledged: bool
    var call: Option<Call>
    ghost var state: State   // the same, with the accounting of the run model
    ghost var steps: nat     // how many steps led to it

    ghost function Projection(): Mem
      reads this
    {
      Mem(queue, promptActive, streaming, attached, UserTurns(messages), echoPending, acknowledged, call)
    }

    /** The fields are the state some run of the model ends in. */
    ghost predicate Valid()
      reads this
    {
      && Reachable(state, steps)
      && state.disk == disk
      && state.mem == (if live then Some(Projection()) else None)
    }

    constructor ()
      ensures Valid() && state == INITIAL && !live && disk == None
    {
      disk, live, queue := None, false, EmptyQueue(0);
      promptActive, streaming, attached, messages := false, false, 0, [];
      echoPending, acknowledged, call := false, false, None;
      state, steps := INITIAL, 0;
    }

    /** A new projection of a record. */
    method Show(record: Option<Queue>, revision: Revision)
      modifies this`live, this`queue, this`promptActive, this`streaming, this`attached, this`messages
      modifies this`echoPending, this`acknowledged, this`call
      ensures live && Projection() == Loaded(record, revision)
    {
      live := true;
      queue := if record.Some? then record.value else EmptyQueue(revision);
      promptActive, streaming, attached, messages := false, false, 0, [];
      echoPending, acknowledged, call := false, false, None;
    }

    /** The prompt is shown, its echo awaited and its call made. */
    method ShowPrompt(text: string, queueId: Option<Id>)
      modifies this`promptActive, this`streaming, this`messages, this`echoPending, this`acknowledged, this`call
      ensures Projection() == Prompting(old(Projection()), text, queueId)
      ensures messages == old(messages) + [Message(User, text)] && call == Some(Call(queueId, false))
      ensures promptActive && streaming && echoPending && !acknowledged
    {
      hide UserTurns;
      UserTurnsAppend(messages, text);
      messages := messages + [Message(User, text)];
      echoPending, acknowledged, streaming, promptActive := true, false, true, true;
      call := Some(Call(queueId, false));
    }

    /** Opening a lease loads the stored record under the manager's lock. */
    method Load(revision: Revision)
      requires Valid() && !live
      modifies this
      ensures Valid() && live && state == Step(old(state), LoadNow(revision))
      ensures disk == old(disk) && queue == (if disk.Some? then disk.value else EmptyQueue(revision))
      ensures call == None && !promptActive
    {
      hide Step, Reachable, Core;
      AdvanceLoad(state, steps, revision);
      Show(disk, revision);
      state, steps := Step(state, LoadNow(revision)), steps + 1;
    }

    /** A request that did not find the chat reads the stored queue, outside the
        manager's lock and whoever may load the chat meanwhile. */
    method ReadQueue(request: nat) returns (candidate: Option<Queue>)
      requires Valid() && request !in state.captured
      modifies this`state, this`steps
      ensures Valid() && state == Step(old(state), Capture(request))
      ensures candidate == disk && request in state.captured && state.captured[request] == candidate
    {
      hide Step, Reachable, Core;
      AdvanceRead(state, steps, request);
      state, steps := Step(state, Capture(request)), steps + 1;
      candidate := disk;
    }

    /** Under the manager's lock the request uses the entry that is there by now, and
        installs what it has read only when there is still none. */
    method QueueEntry(request: nat, candidate: Option<Queue>, revision: Revision) returns (installed: bool)
      requires Valid() && request in state.captured && state.captured[request] == candidate
      modifies this
      ensures Valid() && live && disk == old(disk) && installed == !old(live)
      ensures installed ==>
                && state == Step(old(state), Install(request, revision))
                && queue == (if candidate.Some? then candidate.value else EmptyQueue(revision))
                && call == None && !promptActive
      ensures !installed ==>
                && state == Step(old(state), Discard(request))
                && queue == old(queue) && call == old(call) && promptActive == old(promptActive)
    {
      hide Step, Reachable, Core;
      AdvanceCandidate(state, steps, request, revision);
      if live {
        state, steps := Step(state, Discard(request)), steps + 1;
        return false;
      }
      Show(candidate, revision);
      state, steps := Step(state, Install(request, revision)), steps + 1;
      return true;
    }

    /** A crash loses the projection and nothing else. */
    method Lose()
      requires Valid()
      modifies this
      ensures Valid() && !live && disk == old(disk) && state == Step(old(state), Crash)
    {
      hide Step, Reachable;
      AdvanceCrash(state, steps);
      live := false;
      state, steps := Step(state, Crash), steps + 1;
    }

    /** A chat that nothing works in leaves memory. */
    method Evict() returns (gone: bool)
      requires Valid() && live
      modifies this`live, this`state, this`steps
      ensures Valid() && gone == (!promptActive && !streaming) && live == !gone
      ensures state == if gone then Step(old(state), Event.Evict) else old(state)
    {
      hide Step, Reachable, UserTurns;
      if promptActive || streaming {
        return false;
      }
      AdvanceEvict(state, steps);
      live := false;
      state, steps := Step(state, Event.Evict), steps + 1;
      return true;
    }

    /** The record of a deleted chat goes, once the chat is not loaded any more. */
    method Forget(outcome: Outcome) returns (ok: bool)
      requires Valid() && !live
      modifies this`disk, this`state, this`steps
      ensures Valid() && !live && state == Step(old(state), Event.Forget(outcome))
      ensures ok == outcome.Saved? && (ok ==> disk == None)
    {
      hide Step, Reachable, UserTurns;
      AdvanceForget(state, steps, outcome);
      disk := Landed(disk, None, outcome);
      state, steps := Step(state, Event.Forget(outcome)), steps + 1;
      return outcome.Saved?;
    }

    /** The awaited echo ends: complete, or broken off by something else. */
    method EndEcho(complete: bool)
      requires Valid() && live && echoPending
      modifies this`echoPending, this`acknowledged, this`state, this`steps
      ensures Valid() && live && state == Step(old(state), Event.Echo(complete))
      ensures !echoPending && acknowledged == (old(acknowledged) || complete)
    {
      hide Step, Reachable, UserTurns;
      AdvanceEcho(state, steps, complete);
      echoPending, acknowledged := false, acknowledged || complete;
      state, steps := Step(state, Event.Echo(complete)), steps + 1;
    }

    /** A notification changes the transcript, and whether the agent is at work. */
    method Notified(transcript: seq<Message>, working: bool)
      requires Valid() && live
      modifies this`messages, this`streaming, this`state, this`steps
      ensures Valid() && live && state == Step(old(state), Event.Notify(UserTurns(transcript), working))
      ensures messages == transcript && streaming == working
    {
      hide Step, Reachable, UserTurns;
      AdvanceNotify(state, steps, UserTurns(transcript), working);
      messages, streaming := transcript, working;
      state, steps := Step(state, Event.Notify(UserTurns(transcript), working)), steps + 1;
    }

    /** A prompt that is not queued starts only when nothing runs and nothing is queued. */
    method PromptDirect(text: string) returns (started: bool)
      requires Valid() && live
      modifies this
      ensures Valid() && live && queue == old(queue) && disk == old(disk)
      ensures started == (!old(streaming) && !old(promptActive) && Flat(old(queue)) == [])
      ensures state == if started then Step(old(state), Event.StartDirect(text)) else old(state)
      ensures started ==>
              && call == Some(Call(None, false)) && messages == old(messages) + [Message(User, text)]
              && promptActive && streaming && echoPending && !acknowledged
      ensures !started ==> call == old(call) && promptActive == old(promptActive)
    {
      hide Step, Reachable, UserTurns, Flat;
      ListLength(queue);
      if streaming || promptActive
         || |queue.followUp| + Indicator(queue.dispatch.Some?) + Indicator(queue.blocked.Some?) > 0 {
        return false;
      }
      AdvanceDirect(state, steps, text);
      state, steps := Step(state, Event.StartDirect(text)), steps + 1;
      ShowPrompt(text, None);
      return true;
    }

    /** The reply to a prompt finds the chat reserved or gone, and settles nothing. */
    method AbandonCall()
      requires Valid() && live && call.Some?
      modifies this`call, this`state, this`steps
      ensures Valid() && live && call == None && state == Step(old(state), Event.Abandon)
    {
      hide Step, Reachable, UserTurns;
      AdvanceAbandon(state, steps);
      call := None;
      state, steps := Step(state, Event.Abandon), steps + 1;
    }

    /** Writes the record, and lets memory follow only when the write succeeded. */
    method Save(next: Queue, outcome: Outcome) returns (ok: bool)
      modifies this`disk, this`queue
      ensures ok == (WellFormed(next) && outcome.Saved?)
      ensures disk == if WellFormed(next) then Landed(old(disk), Some(next), outcome) else old(disk)
      ensures queue == if ok then next else old(queue)
    {
      var valid := ValidateRecord(next);
      if !valid || outcome.FailedBefore? {
        return false;
      }
      disk := Some(next);
      if outcome.FailedAfter? {
        return false;
      }
      queue := next;
      return true;
    }

    method Add(text: string, identity: Operation, id: Id, revision: Revision, outcome: Outcome) returns (reply: Reply)
      requires Valid() && live && id !in state.created && identity.fingerprint.action.AddAction?
      modifies this`disk, this`queue, this`state, this`steps
      ensures Valid() && live && state == Step(old(state), Event.Add(text, identity, id, revision, outcome))
      ensures reply.Repeated? <==> QueuedText(text).Some? && old(Lookup(queue.handled, identity)).Duplicate?
      ensures reply.Done? <==>
              && QueuedText(text).Some? && old(Lookup(queue.handled, identity)).New?
              && |Flat(old(queue))| < MAX_QUEUED_MESSAGES && outcome.Saved?
      ensures reply.Done? ==>
              Flat(queue) == Flat(old(queue)) + [Item(id, QueuedText(text).value)] && disk == Some(queue)
      ensures reply.Done? ==> queue.revision == revision && queue.handled == Remember(old(queue).handled, identity)
      ensures !reply.Done? ==> queue == old(queue)
    {
      hide Step, Reachable, Core, QueuedText, WellFormed, Flat, Lookup, Remember;
      ListLength(queue);
      ghost var e := Event.Add(text, identity, id, revision, outcome);
      AdvanceAdd(state, steps, text, identity, id, revision, outcome);
      state, steps := Step(state, e), steps + 1;
      var parsed := QueuedText(text);
      if parsed.None? {
        return Refused;
      }
      var verdict := FindOperation(queue.handled, identity);
      if verdict != New {
        return if verdict.Duplicate? then Repeated else Refused;
      }
      if |queue.followUp| + Indicator(queue.dispatch.Some?) + Indicator(queue.blocked.Some?) >= MAX_QUEUED_MESSAGES {
        return Refused;
      }
      var item := Item(id, parsed.value);
      var next := queue.(followUp := queue.followUp + [item], handled := Remember(queue.handled, identity),
                         revision := revision);
      AddedList(queue, item, identity, revision);
      var ok := Save(next, outcome);
      return if ok then Done else Refused;
    }

    method Edit(index: int, text: string, identity: Operation, expected: Revision, revision: Revision, outcome: Outcome)
      returns (reply: Reply)
      requires Valid() && live && identity.fingerprint.action.EditAction?
      modifies this`disk, this`queue, this`state, this`steps
      ensures Valid() && live && state == Step(old(state), Event.Edit(index, text, identity, expected, revision, outcome))
      ensures reply.Repeated? <==> old(Lookup(queue.handled, identity)).Duplicate?
      ensures reply.Done? <==>
              && old(Lookup(queue.handled, identity)).New? && expected == old(queue.revision) && QueuedText(text).Some?
              && 0 <= index < |old(Wire(queue, !promptActive))| && outcome.Saved?
      ensures reply.Done? ==>
              var shown := old(Wire(queue, !promptActive));
              && 0 <= index < |shown| && QueuedText(text).Some?
              && Wire(queue, !promptActive) == shown[index := QueuedText(text).value] && disk == Some(queue)
      ensures reply.Done? ==> queue.revision == revision && queue.handled == Remember(old(queue).handled, identity)
      ensures !reply.Done? ==> queue == old(queue)
    {
      hide Step, Reachable, Core, Wire, WellFormed, QueuedText, Flat, PlaceOf, Edited;
      ghost var e := Event.Edit(index, text, identity, expected, revision, outcome);
      AdvanceEdit(state, steps, index, text, identity, expected, revision, outcome);
      state, steps := Step(state, e), steps + 1;
      var verdict := FindOperation(queue.handled, identity);
      if verdict != New {
        return if verdict.Duplicate? then Repeated else Refused;
      }
      if expected != queue.revision {
        return Refused;
      }
      var parsed := QueuedText(text);
      if parsed.None? {
        return Refused;
      }
      var place := PlaceOf(queue, !promptActive, index);
      ShownIndexes(queue, !promptActive, index);
      if place.Nowhere? {
        return Refused;
      }
      EditTouchesTheShownElement(queue, !promptActive, index, parsed.value);
      StampingChangesNoText(Edited(queue, place, parsed.value), !promptActive, identity, revision);
      ChangesForgetNothing(queue, place, parsed.value);
      var next := Stamped(Edited(queue, place, parsed.value), identity, revision);
      var ok := Save(next, outcome);
      return if ok then Done else Refused;
    }

    method Remove(index: int, identity: Operation, expected: Revision, revision: Revision, outcome: Outcome)
      returns (reply: Reply)
      requires Valid() && live && identity.fingerprint.action.RemoveAction?
      modifies this`disk, this`queue, this`state, this`steps
      ensures Valid() && live && state == Step(old(state), Event.Remove(index, identity, expected, revision, outcome))
      ensures reply.Repeated? <==> old(Lookup(queue.handled, identity)).Duplicate?
      ensures reply.Done? <==>
              && old(Lookup(queue.handled, identity)).New? && expected == old(queue.revision)
              && 0 <= index < |old(Wire(queue, !promptActive))| && outcome.Saved?
      ensures reply.Done? ==>
              var shown := old(Wire(queue, !promptActive));
              && 0 <= index < |shown|
              && Wire(queue, !promptActive) == shown[..index] + shown[index + 1..] && disk == Some(queue)
      ensures reply.Done? ==> queue.revision == revision && queue.handled == Remember(old(queue).handled, identity)
      ensures !reply.Done? ==> queue == old(queue)
    {
      hide Step, Reachable, Core, Wire, WellFormed, Flat, PlaceOf, Without;
      ghost var e := Event.Remove(index, identity, expected, revision, outcome);
      AdvanceRemove(state, steps, index, identity, expected, revision, outcome);
      state, steps := Step(state, e), steps + 1;
      var verdict := FindOperation(queue.handled, identity);
      if verdict != New {
        return if verdict.Duplicate? then Repeated else Refused;
      }
      if expected != queue.revision {
        return Refused;
      }
      var place := PlaceOf(queue, !promptActive, index);
      ShownIndexes(queue, !promptActive, index);
      if place.Nowhere? {
        return Refused;
      }
      RemoveTakesTheShownElement(queue, !promptActive, index);
      StampingChangesNoText(Without(queue, place), !promptActive, identity, revision);
      ChangesForgetNothing(queue, place, "");
      var next := Stamped(Without(queue, place), identity, revision);
      var ok := Save(next, outcome);
      return if ok then Done else Refused;
    }

    /** Attaches to the agent's connection. On an unchanged generation nothing is
        loaded; otherwise the replayed transcript decides about a stored dispatch, and
        the projection is replaced only if that decision could be stored. */
    method AttachLocked(generation: nat, loaded: Option<seq<Message>>, revision: Revision, outcome: Outcome)
      returns (ok: bool)
      requires Valid() && live && generation != 0
      modifies this
      ensures Valid() && live && call == old(call) && promptActive == old(promptActive)
      ensures old(attached) == generation ==> ok && state == old(state) && queue == old(queue)
      ensures old(attached) != generation && loaded.None? ==> !ok && state == old(state) && queue == old(queue)
      ensures old(attached) != generation && loaded.Some? ==>
              && state == Step(old(state), Event.Attach(generation, UserTurns(loaded.value), revision, outcome))
              && ok == (old(queue).dispatch.None? || outcome.Saved?)
      ensures ok ==> attached == generation && (old(attached) != generation ==> queue.dispatch.None?)
      ensures streaming == (old(streaming) && (!ok || old(attached) == generation))
      ensures queue ==
              if ok && old(attached) != generation && loaded.Some? && old(queue).dispatch.Some?
              then Recovered(old(queue), UserTurns(loaded.value), revision) else old(queue)
      ensures ok && old(attached) != generation && loaded.Some? && old(queue).dispatch.Some? ==>
                Decided(old(queue), queue, UserTurns(loaded.value)) && queue.revision == revision && disk == Some(queue)
      ensures messages == if ok && old(attached) != generation && loaded.Some? then loaded.value else old(messages)
      ensures acknowledged == old(acknowledged) && echoPending == (old(echoPending) && (!ok || old(attached) == generation))
    {
      hide Step, Reachable, Flat, WellFormed, UserTurns, Recovered, Decided;
      StateIsWellFormed(state, steps);
      if loaded.Some? && queue.dispatch.Some? {
        RecoveryDecides(queue, UserTurns(loaded.value), revision);
      }
      if attached == generation {
        return true;
      }
      if loaded.None? {
        return false;
      }
      ok := Replace(generation, loaded.value, revision, outcome);
    }

    method Replace(generation: nat, replay: seq<Message>, revision: Revision, outcome: Outcome) returns (ok: bool)
      requires Valid() && live && generation != 0
      modifies this`disk, this`queue, this`messages, this`streaming, this`attached, this`echoPending, this`state, this`steps
      ensures Valid() && live
      ensures state == Step(old(state), Event.Attach(generation, UserTurns(replay), revision, outcome))
      ensures ok == (old(queue).dispatch.None? || outcome.Saved?)
      ensures ok ==> attached == generation && queue.dispatch.None?
      ensures streaming == (old(streaming) && !ok) && echoPending == (old(echoPending) && !ok)
      ensures messages == if ok then replay else old(messages)
      ensures ok && old(queue).dispatch.Some? ==> disk == Some(queue)
      ensures queue == if ok && old(queue).dispatch.Some? then Recovered(old(queue), UserTurns(replay), revision) else old(queue)
    {
      hide Step, Reachable, Flat, WellFormed, UserTurns, Recovered, RunnableIds;
      AdvanceAttach(state, steps, generation, UserTurns(replay), revision, outcome);
      state, steps := Step(state, Event.Attach(generation, UserTurns(replay), revision, outcome)), steps + 1;
      ok := true;
      if queue.dispatch.Some? {
        RecoveryClears(queue, UserTurns(replay), revision);
        var next := RecoverDispatch(queue, replay, revision);
        ok := Save(next, outcome);
      }
      if ok {
        messages, streaming, attached, echoPending := replay, false, generation, false;
      }
    }

    /** Marks the prepared dispatch as attempted and, only when that is stored, hands
        its prompt to the agent call. */
    method StartPrompt(outcome: Outcome) returns (ok: bool)
      requires Valid() && live && !promptActive
      requires queue.dispatch.Some? && !queue.dispatch.value.attempted
      modifies this
      ensures Valid() && live && state == Step(old(state), Event.Start(outcome))
      ensures ok == outcome.Saved? && attached == old(attached)
      ensures ok ==>
              && queue == old(queue).(dispatch := Some(old(queue).dispatch.value.(attempted := true))) && disk == Some(queue)
              && call == Some(Call(Some(queue.dispatch.value.id), false))
              && messages == old(messages) + [Message(User, queue.dispatch.value.text)]
              && promptActive && streaming && echoPending && !acknowledged
      ensures !ok ==> queue == old(queue) && call == old(call) && promptActive == old(promptActive)
      ensures Flat(queue) == Flat(old(queue))
    {
      hide Step, Reachable, Flat, WellFormed, UserTurns;
      AdvanceStart(state, steps, outcome);
      state, steps := Step(state, Event.Start(outcome)), steps + 1;
      var next := queue.(dispatch := Some(queue.dispatch.value.(attempted := true)));
      var saved := Save(next, outcome);
      if !saved {
        return false;
      }
      ShowPrompt(queue.dispatch.value.text, Some(queue.dispatch.value.id));
      return true;
    }

    /** A dispatch whose prompt was never started goes back to the queue. */
    method RestoreQueuedDispatch(id: Id, revision: Revision, outcome: Outcome) returns (ok: bool)
      requires Valid() && live && !promptActive
      requires queue.dispatch.Some? ==> !queue.dispatch.value.attempted
      modifies this`disk, this`queue, this`state, this`steps
      ensures Valid() && live
      ensures Flat(queue) == Flat(old(queue)) && RunnableIds(queue) <= RunnableIds(old(queue))
      ensures old(queue).dispatch.Some? && old(queue).dispatch.value.id == id ==>
              && state == Step(old(state), Event.Restore(revision, outcome)) && ok == outcome.Saved?
              && (ok ==> disk == Some(queue) && queue == Requeued(old(queue), revision))
              && (ok ==> queue.dispatch.None? && queue.revision == revision
                         && queue.followUp == [Item(id, old(queue).dispatch.value.text)] + old(queue).followUp)
      ensures old(queue).dispatch.None? || old(queue).dispatch.value.id != id ==> ok && queue == old(queue) && state == old(state)
      ensures !ok ==> queue == old(queue)
    {
      hide Step, Reachable, Flat, WellFormed, RunnableIds;
      if queue.dispatch.None? || queue.dispatch.value.id != id {
        return true;
      }
      AdvanceRestore(state, steps, revision, outcome);
      RequeueAddsNothingRunnable(queue, revision);
      state, steps := Step(state, Event.Restore(revision, outcome)), steps + 1;
      var item := Item(queue.dispatch.value.id, queue.dispatch.value.text);
      var next := queue.(dispatch := None, followUp := [item] + queue.followUp, revision := revision);
      ok := Save(next, outcome);
    }

    /** One pass of the queue worker. It may deliver a found item, restore a prepared one
        and start at most one prompt, and what it starts was sendable without being asked
        again and is stored as attempted before the call exists. When nothing fails it
        starts exactly the next item, if there is one. */
    method DrainFollowUp(env: Surroundings) returns (failed: bool)
      requires Valid() && live
      modifies this
      ensures Valid() && live
      ensures ListKept(old(queue), queue)
      ensures call != old(call) ==>
              && call.Some? && call.value.queueId.Some? && !call.value.sent
              && call.value.queueId.value in RunnableIds(old(queue))
              && disk == Some(queue) && queue.dispatch.Some? && queue.dispatch.value.attempted
              && queue.dispatch.value.id == call.value.queueId.value
      ensures call != old(call) ==> !failed && attached == env.second.generation
      ensures !failed && call == old(call) && !old(streaming) && !old(promptActive) ==> !HasWork(queue, attached)
      ensures Untroubled(env) && !old(streaming) && !old(promptActive) ==>
              match NextItem(old(queue), old(attached), UserTurns(env.first.loaded.value))
              case None => !failed && call == old(call)
              case Some(item) =>
                && !failed && promptActive && call == Some(Call(Some(item.id), false)) && disk == Some(queue)
                && queue.dispatch.Some? && queue.dispatch.value.attempted
                && Item(queue.dispatch.value.id, queue.dispatch.value.text) == item
    {
      hide Step, Reachable, Flat, WellFormed, RunnableIds, UserTurns, NextItem, ListKept, HasWork;
      ghost var before := queue;
      KeptAsItIs(queue);
      StateIsWellFormed(state, steps);
      if streaming || promptActive || !WorkWaits() {
        IdleHasNoNext(queue, attached, if env.first.loaded.Some? then UserTurns(env.first.loaded.value) else []);
        return false;
      }
      var ready := FreeHead(env);
      if !ready {
        return true;
      }
      if queue.dispatch.Some? || queue.blocked.Some? || queue.followUp == [] {
        NothingToSend(queue, attached);
        return false;
      }
      var attachedNow := AttachWithAgent(env.second);
      if !attachedNow {
        return true;
      }
      HeadIsRunnable(queue);
      ghost var freed := queue;
      failed := StartHead(env);
      KeptFurther(before, freed, queue);
      if !failed {
        AttemptedHolds(queue, attached);
      }
    }

    /** Whether there is anything for the worker to look at. */
    predicate WorkWaits()
      reads this
    {
      HasWork(queue, attached)
    }

    /** An attempted dispatch is decided about by a reload, and a prepared one goes back
        to the follow-ups. */
    method FreeHead(env: Surroundings) returns (ok: bool)
      requires Valid() && live && !streaming && !promptActive && WellFormed(queue) && HasWork(queue, attached)
      modifies this
      ensures Valid() && live && call == old(call) && !promptActive && !streaming
      ensures ListKept(old(queue), queue) && RunnableIds(queue) <= RunnableIds(old(queue))
      ensures !ok ==> call == old(call)
      ensures ok ==> queue.dispatch.None?
      ensures Untroubled(env) ==>
              ok && Head(queue) == NextItem(old(queue), old(attached), UserTurns(env.first.loaded.value))
    {
      hide Step, Reachable, Flat, WellFormed, RunnableIds, UserTurns, ListKept, NextItem, Recovered, Head, Requeued, RecoveredFrom;
      ghost var before := queue;
      KeptAsItIs(queue);
      if queue.dispatch.Some? && queue.dispatch.value.attempted {
        ok := AttachWithAgent(env.first);
        if !ok {
          return false;
        }
        FreedByReload(before, UserTurns(env.first.loaded.value), env.first.revision);
        return true;
      }
      if queue.dispatch.Some? {
        ok := RestoreQueuedDispatch(queue.dispatch.value.id, env.restoreRevision, env.restore);
        KeptFurther(before, before, queue);
        if ok {
          FreedByRestore(before, env.restoreRevision);
        }
        return ok;
      }
      FreeAlready(before);
      return true;
    }

    method AttachWithAgent(agent: Attachment) returns (ok: bool)
      requires Valid() && live
      modifies this
      ensures Valid() && live && call == old(call) && promptActive == old(promptActive)
      ensures ok && old(attached) != agent.generation ==> agent.loaded.Some? && queue.dispatch.None?
      ensures ok ==> attached == agent.generation
      ensures queue == if ok && old(attached) != agent.generation && old(queue).dispatch.Some?
                       then Recovered(old(queue), UserTurns(agent.loaded.value), agent.revision) else old(queue)
      ensures streaming == (old(streaming) && (!ok || old(attached) == agent.generation))
      ensures agent.loaded.Some? && (old(queue).dispatch.None? || agent.outcome.Saved?) ==> ok
    {
      hide Step, Reachable, UserTurns, Recovered;
      ok := AttachLocked(agent.generation, agent.loaded, agent.revision, agent.outcome);
    }

    /** Prepares the first follow-up and starts its prompt; a prompt that could not be
        started puts it back. */
    method StartHead(env: Surroundings) returns (failed: bool)
      requires Valid() && live && !promptActive && !streaming
      requires queue.dispatch.None? && queue.blocked.None? && queue.followUp != []
      modifies this
      ensures Valid() && live && Flat(queue) == Flat(old(queue))
      ensures var item := old(queue).followUp[0];
              && (call != old(call) ==> call == Some(Call(Some(item.id), false)))
              && (call != old(call) || !failed ==>
                    && call == Some(Call(Some(item.id), false)) && promptActive && disk == Some(queue)
                    && queue.dispatch.Some? && queue.dispatch.value.attempted
                    && Item(queue.dispatch.value.id, queue.dispatch.value.text) == item
                    && queue.dispatch.value.previousUsers == |UserTurns(old(messages))| && queue.revision == env.prepareRevision
                    && queue.followUp == old(queue).followUp[1..] && messages == old(messages) + [Message(User, item.text)])
      ensures !failed <==> env.prepare.Saved? && env.startable && env.start.Saved?
      ensures failed ==> call == old(call)
      ensures attached == old(attached)
    {
      hide Step, Reachable, Flat, WellFormed, UserTurns;
      var item := queue.followUp[0];
      var users := UserMessageCount(messages);
      AdvancePrepare(state, steps, env.prepareRevision, env.prepare);
      state, steps := Step(state, Event.Prepare(env.prepareRevision, env.prepare)), steps + 1;
      var next := queue.(followUp := queue.followUp[1..],
                         dispatch := Some(Dispatch(item.id, item.text, users, false)), revision := env.prepareRevision);
      var saved := Save(next, env.prepare);
      if !saved {
        return true;
      }
      var started := false;
      // The manager may refuse the work before anything is written.
      if env.startable {
        started := StartPrompt(env.start);
      }
      if started {
        return false;
      }
      var ok := RestoreQueuedDispatch(item.id, env.putBackRevision, env.putBack);
      return true;
    }

    /** The call leaves for the agent. */
    method SendPrompt()
      requires Valid() && live && call.Some? && !call.value.sent
      modifies this
      ensures Valid() && live && state == Step(old(state), Submit)
      ensures call == Some(old(call).value.(sent := true)) && queue == old(queue) && disk == old(disk)
    {
      hide Step, Reachable;
      AdvanceSubmit(state, steps);
      state, steps := Step(state, Submit), steps + 1;
      call := Some(call.value.(sent := true));
    }

    /** The end of a prompt call. A queued item leaves the dispatch: gone when it was
        accepted or its echo was complete, blocked when neither is known. */
    method FinishPrompt(failed: bool, revision: Revision, outcome: Outcome) returns (ok: bool)
      requires Valid() && live && call.Some? && (call.value.sent || failed)
      modifies this`disk, this`queue, this`promptActive, this`streaming, this`acknowledged, this`call, this`state, this`steps
      ensures Valid() && live && state == Step(old(state), Event.Settle(failed, revision, outcome))
      ensures !promptActive && !streaming && call == None
      ensures ok == (!IsMine(old(queue), old(call)) || outcome.Saved?)
      ensures queue == if IsMine(old(queue), old(call)) && outcome.Saved?
                       then Settled(old(queue), !failed || old(acknowledged), failed, revision) else old(queue)
      ensures ok && IsMine(old(queue), old(call)) ==>
                disk == Some(queue) && DispatchLeft(old(queue), queue, failed && !old(acknowledged))
    {
      hide Step, Reachable, WellFormed, Flat, UserTurns, Settled, IsMine, DispatchLeft;
      var mine, delivered := IsMine(queue, call), !failed || acknowledged;
      ghost var e := Event.Settle(failed, revision, outcome);
      promptActive, streaming, acknowledged, call := false, false, false, None;
      if !mine {
        AdvanceSettle(state, steps, failed, revision, outcome);
        state, steps := Step(state, e), steps + 1;
        return true;
      }
      AdvanceSettle(state, steps, failed, revision, outcome);
      state, steps := Step(state, e), steps + 1;
      MineIsDispatched(queue, old(call));
      SettlingLeaves(queue, delivered, failed, revision);
      var next := SettleRecord(queue, delivered, failed, revision);
      ok := Save(next, outcome);
    }

    /** A user's retry. It reloads the transcript first whenever an attempted dispatch
        is at stake, and puts back exactly the item it named. With a revision that is
        new, it succeeds exactly when the request is new and names the blocked message,
        the reload it needs works and both writes do. */
    method RetryQueue(index: int, identity: Operation, expected: Revision, generation: nat,
        loaded: Option<seq<Message>>, attachRevision: Revision, attachOutcome: Outcome, revision: Revision, outcome: Outcome)
      returns (reply: Reply)
      requires Valid() && live && identity.fingerprint.action.RetryAction? && generation != 0
      modifies this
      ensures Valid() && live && call == old(call) && promptActive == old(promptActive)
      ensures reply.Repeated? <==> old(Lookup(queue.handled, identity)).Duplicate?
      ensures reply.Repeated? ==> state == old(state) && queue == old(queue)
      ensures ListKept(old(queue), queue)
      ensures RunnableIds(queue) <= RunnableIds(old(queue)) + TargetIds(old(queue), promptActive)
      ensures reply.Done? ==> RetryTarget(old(queue), promptActive).Some?
      ensures attachRevision != expected ==>
                (reply.Done? <==>
                   && old(Lookup(queue.handled, identity)).New? && expected == old(queue.revision) && index == 0
                   && RetryTarget(old(queue), promptActive).Some? && outcome.Saved?
                   && (loaded.Some? || (old(attached) == generation && old(queue).dispatch.None?))
                   && (attachOutcome.Saved? || old(queue).dispatch.None?))
      ensures reply.Done? && attachRevision != expected ==>
                var q := old(queue);
                && disk == Some(queue)
                && RetriedTo(q, queue, RetryTarget(q, promptActive).value,
                             q.dispatch.Some? && loaded.Some? && Replayed(q.dispatch.value, UserTurns(loaded.value)))
    {
      hide Step, Reachable, Flat, WellFormed, RunnableIds, Lookup, Recovered, RetryTarget, UserTurns, Replayed;
      hide FinishedQueue, RetriedTo, ListKept;
      KeptAsItIs(queue);
      var verdict := FindOperation(queue.handled, identity);
      if verdict != New {
        return if verdict.Duplicate? then Repeated else Refused;
      }
      if expected != queue.revision || index != 0 {
        return Refused;
      }
      ghost var before := queue;
      StateIsWellFormed(state, steps);
      var target := RetryTarget(queue, promptActive);
      if target.None? {
        return Refused;
      }
      TargetsInPlace(queue, promptActive);
      if queue.dispatch.Some? && queue.dispatch.value.attempted && !promptActive {
        AdvanceDetach(state, steps);
        state, steps := Step(state, Detach), steps + 1;
        attached := 0;
      }
      var ok := AttachLocked(generation, loaded, attachRevision, attachOutcome);
      if !ok {
        return Refused;
      }
      StateIsWellFormed(state, steps);
      RetryFacts(before, queue, promptActive, target.value, identity, expected, revision);
      if attachRevision != expected {
        RetryResolves(before, promptActive, if loaded.Some? then UserTurns(loaded.value) else [], attachRevision,
                      identity, revision);
      }
      reply := FinishRetry(target.value, identity, expected, revision, outcome);
    }

    /** The part of a retry after the reload: the request is resolved when the item is
        no longer there, and otherwise the item goes back to the head of the queue. */
    method FinishRetry(target: Id, identity: Operation, expected: Revision, revision: Revision, outcome: Outcome)
      returns (reply: Reply)
      requires Valid() && live && identity.fingerprint.action.RetryAction?
      requires WellFormed(queue) && Lookup(queue.handled, identity).New?
      modifies this`disk, this`queue, this`state, this`steps
      ensures Valid() && live && call == old(call) && promptActive == old(promptActive)
      ensures state == Step(old(state), Event.Retry(target, identity, expected, revision, outcome))
      ensures var next := FinishedQueue(old(queue), old(promptActive), target, identity, expected, revision);
              && (reply.Done? <==> next.Some? && outcome.Saved?) && !reply.Repeated?
              && (reply.Done? ==> queue == next.value && disk == Some(queue))
              && (!reply.Done? ==> queue == old(queue))
    {
      hide Step, Reachable, Flat, WellFormed, FinishedQueue, Lookup, UserTurns;
      AdvanceRetry(state, steps, target, identity, expected, revision, outcome);
      var next := FinishRecord(queue, promptActive, target, identity, expected, revision);
      state, steps := Step(state, Event.Retry(target, identity, expected, revision, outcome)), steps + 1;
      if next.None? {
        return Refused;
      }
      var saved := Save(next.value, outcome);
      return if saved then Done else Refused;
    }
  }
}
