/** Safety of the follow-up queue over every run: at most one submission per request,
    each after a durable mark, and no acknowledged item lost. */
module QueueSafety {
  import opened Base
  import opened QueueModel
  import opened QueueOrder

  // ------------------------------------------------------------------
  // What each mutation does to the ids of a record
  // ------------------------------------------------------------------

  /** `next` is a storable record whose ids are those of `q` with some gained and some
      lost, and which makes at most `runnable` newly sendable. */
  predicate Follows(q: Queue, next: Queue, gained: set<Id>, lost: set<Id>, runnable: set<Id>) {
    && WellFormed(next)
    && Ids(next) == Ids(q) + gained - lost
    && RunnableIds(next) <= RunnableIds(q) + runnable
  }

  lemma RememberIsBounded(handled: seq<Operation>, identity: Operation)
    requires |handled| <= MAX_QUEUE_OPERATIONS
    ensures |Remember(handled, identity)| <= MAX_QUEUE_OPERATIONS
    ensures forall op :: op in Remember(handled, identity) ==> op in handled || op == identity
  {
  }

  lemma StampingFollows(q: Queue, identity: Operation, revision: Revision)
    requires WellFormed(q)
    ensures Follows(q, Stamped(q, identity, revision), {}, {}, {})
  {
    RememberIsBounded(q.handled, identity);
    assert Flat(Stamped(q, identity, revision)) == Flat(q);
  }

  lemma TrimmedOnce(value: string)
    ensures QueuedText(value).Some? ==> ValidText(QueuedText(value).value)
  {
    if QueuedText(value).Some? {
      var left := TrimLeft(value);
      var text := TrimRight(left);
      TrimLeftStops(value);
      TrimRightStops(left);
      assert text[0] == left[0];
      assert TrimLeft(text) == text && TrimRight(text) == text;
    }
  }

  lemma TrimLeftStops(s: string)
    ensures var t := TrimLeft(s); t == [] || !IsSpace(t[0])
  {
  }

  lemma TrimRightStops(s: string)
    ensures var t := TrimRight(s); t <= s && (t == [] || !IsSpace(t[|t| - 1]))
  {
  }

  /** The code points with Unicode's White_Space property. */
  const SPACES := "\t\n\U{B}\U{C}\r \U{85}\U{A0}\U{1680}\U{2000}\U{2001}\U{2002}\U{2003}\U{2004}\U{2005}\U{2006}\U{2007}\U{2008}\U{2009}\U{200A}\U{2028}\U{2029}\U{202F}\U{205F}\U{3000}"

  lemma SpacesAreWhiteSpace(c: char)
    ensures IsSpace(c) <==> c in SPACES
  {
  }

  predicate Blank(s: string) { forall i :: 0 <= i < |s| ==> IsSpace(s[i]) }

  /** Nothing but white space is cut, on both sides and all of it. */
  predicate Trims(value: string, text: string, left: string, right: string) {
    && value == left + text + right && Blank(left) && Blank(right)
    && text != [] && !IsSpace(text[0]) && !IsSpace(text[|text| - 1])
  }

  lemma {:induction false} LeftIsCut(left: string, rest: string)
    requires Blank(left) && (rest == [] || !IsSpace(rest[0]))
    ensures TrimLeft(left + rest) == rest
  {
    if left == [] {
      assert left + rest == rest;
    } else {
      assert (left + rest)[1..] == left[1..] + rest;
      LeftIsCut(left[1..], rest);
    }
  }

  lemma {:induction false} RightIsCut(rest: string, right: string)
    requires Blank(right) && (rest == [] || !IsSpace(rest[|rest| - 1]))
    ensures TrimRight(rest + right) == rest
  {
    if right == [] {
      assert rest + right == rest;
    } else {
      var n := |right| - 1;
      assert (rest + right)[..|rest| + n] == rest + right[..n];
      RightIsCut(rest, right[..n]);
    }
  }

  lemma {:induction false} CutFromTheLeft(s: string) returns (left: string)
    ensures s == left + TrimLeft(s) && Blank(left)
  {
    left := [];
    if s != [] && IsSpace(s[0]) {
      left := CutFromTheLeft(s[1..]);
      left := [s[0]] + left;
    }
  }

  lemma {:induction false} CutFromTheRight(s: string) returns (right: string)
    ensures s == TrimRight(s) + right && Blank(right)
  {
    right := [];
    if s != [] && IsSpace(s[|s| - 1]) {
      right := CutFromTheRight(s[..|s| - 1]);
      right := right + [s[|s| - 1]];
    }
  }

  /** A text is accepted exactly when something without a NUL is left between the white
      space around it, and what is stored is that. */
  lemma {:induction false} QueuedTextIsTrimmed(value: string, text: string)
    ensures QueuedText(value) == Some(text) <==> '\0' !in text && exists left, right :: Trims(value, text, left, right)
  {
    hide IsSpace;
    if QueuedText(value) == Some(text) {
      var rest := TrimLeft(value);
      TrimLeftStops(value);
      TrimRightStops(rest);
      var left := CutFromTheLeft(value);
      var right := CutFromTheRight(rest);
      assert value == left + text + right && text[0] == rest[0];
      assert Trims(value, text, left, right);
    }
    if left, right :| Trims(value, text, left, right) {
      assert value == left + (text + right);
      LeftIsCut(left, text + right);
      RightIsCut(text, right);
    }
  }

  lemma AddingFollows(q: Queue, item: Item, identity: Operation, revision: Revision)
    requires WellFormed(q) && item.id !in Ids(q) && ValidText(item.text) && |Flat(q)| < MAX_QUEUED_MESSAGES
    ensures Follows(q, Added(q, item, identity, revision), {item.id}, {}, {item.id})
  {
    hide QueuedText, ValidText, Remember;
    var next := Added(q, item, identity, revision);
    RememberIsBounded(q.handled, identity);
    assert Flat(next) == Flat(q) + [item];
    IdSetAppend(Flat(q), item);
    IdSetAppend(q.followUp, item);
    forall i | 0 <= i < |Flat(q)| ensures Flat(q)[i].id != item.id {
      assert Flat(q)[i] in Flat(q);
    }
  }

  lemma SameListFollows(q: Queue, next: Queue, runnable: set<Id>)
    requires WellFormed(q) && Flat(next) == Flat(q) && next.handled == q.handled
    requires next.dispatch.None? || next.blocked.None?
    requires RunnableIds(next) <= RunnableIds(q) + runnable
    ensures Follows(q, next, {}, {}, runnable)
  {
  }

  lemma HeadDropFollows(q: Queue, next: Queue)
    requires WellFormed(q) && Flat(q) != [] && Flat(next) == Flat(q)[1..] && next.handled == q.handled
    requires next.dispatch.None? || next.blocked.None?
    requires RunnableIds(next) <= RunnableIds(q)
    ensures Follows(q, next, {}, {Flat(q)[0].id}, {})
  {
    IdSetDropHead(Flat(q));
  }

  lemma IdSetDropHead(items: seq<Item>)
    requires items != [] && Distinct(items)
    ensures Distinct(items[1..]) && IdSet(items[1..]) == IdSet(items) - {items[0].id}
  {
    IdSetDropAt(items, 0);
    assert items[..0] + items[1..] == items[1..];
  }

  lemma IdSetPrepend(item: Item, items: seq<Item>)
    ensures IdSet([item] + items) == {item.id} + IdSet(items)
  {
    assert item in [item] + items;
    assert forall x :: x in items ==> x in [item] + items;
  }

  lemma RequeueFollows(q: Queue, revision: Revision)
    requires WellFormed(q) && q.dispatch.Some? && !q.dispatch.value.attempted
    ensures Follows(q, Requeued(q, revision), {}, {}, {})
  {
    MovesKeepTheList(q, 0, false, revision);
    IdSetPrepend(DispatchItem(q)[0], q.followUp);
    SameListFollows(q, Requeued(q, revision), {});
  }

  lemma PrepareFollows(q: Queue, users: nat, revision: Revision)
    requires WellFormed(q) && q.dispatch.None? && q.blocked.None? && q.followUp != []
    ensures Follows(q, Prepared(q, users, revision), {}, {}, {})
  {
    MovesKeepTheList(q, users, false, revision);
    IdSetPrepend(q.followUp[0], q.followUp[1..]);
    assert q.followUp == [q.followUp[0]] + q.followUp[1..];
    SameListFollows(q, Prepared(q, users, revision), {});
  }

  lemma RetryFollows(q: Queue, promptActive: bool)
    requires WellFormed(q) && RetryTarget(q, promptActive).Some?
    ensures Follows(q, Retried(q, promptActive), {}, {}, {RetryTarget(q, promptActive).value})
  {
    MovesKeepTheList(q, 0, promptActive, 0);
    IdSetPrepend(Flat(q)[0], q.followUp);
    SameListFollows(q, Retried(q, promptActive), {RetryTarget(q, promptActive).value});
  }

  lemma MarkFollows(q: Queue)
    requires WellFormed(q) && q.dispatch.Some? && !q.dispatch.value.attempted
    ensures Follows(q, Marked(q), {}, {}, {})
    ensures RunnableIds(Marked(q)) == RunnableIds(q) - {q.dispatch.value.id}
  {
    MovesKeepTheList(q, 0, false, 0);
    SameListFollows(q, Marked(q), {});
    HeadIsNotAFollowUp(q);
  }

  lemma HeadIsNotAFollowUp(q: Queue)
    requires WellFormed(q) && q.dispatch.Some?
    ensures q.dispatch.value.id !in IdSet(q.followUp)
  {
    forall item | item in q.followUp ensures item.id != q.dispatch.value.id {
      var k :| 0 <= k < |q.followUp| && q.followUp[k] == item;
      assert Flat(q)[1 + k] == item && Flat(q)[0].id == q.dispatch.value.id;
    }
  }

  lemma SettleFollows(q: Queue, delivered: bool, failed: bool, revision: Revision)
    requires WellFormed(q) && q.dispatch.Some?
    ensures Follows(q, Settled(q, delivered, failed, revision), {},
                    if failed && !delivered then {} else {q.dispatch.value.id}, {})
  {
    OnlyDeliveryDropsTheHead(q, delivered, failed, [], revision);
    if failed && !delivered {
      SameListFollows(q, Settled(q, delivered, failed, revision), {});
    } else {
      HeadDropFollows(q, Settled(q, delivered, failed, revision));
    }
  }

  lemma RecoverFollows(q: Queue, turns: seq<string>, revision: Revision)
    requires WellFormed(q) && q.dispatch.Some?
    ensures Follows(q, Recovered(q, turns, revision), {},
                    if Replayed(q.dispatch.value, turns) then {q.dispatch.value.id} else {}, {})
  {
    OnlyDeliveryDropsTheHead(q, false, false, turns, revision);
    if Replayed(q.dispatch.value, turns) {
      HeadDropFollows(q, Recovered(q, turns, revision));
    } else if !q.dispatch.value.attempted && |turns| == q.dispatch.value.previousUsers {
      RequeueFollows(q, revision);
    } else {
      SameListFollows(q, Recovered(q, turns, revision), {});
    }
  }

  // ------------------------------------------------------------------
  // The invariant
  // ------------------------------------------------------------------

  function DiskIds(s: State): set<Id> { if s.disk.Some? then Ids(s.disk.value) else {} }

  function MemIds(s: State): set<Id> { if s.mem.Some? then Ids(s.mem.value.queue) else {} }

  function Runnable(s: State): set<Id> {
    (if s.disk.Some? then RunnableIds(s.disk.value) else {})
    + (if s.mem.Some? then RunnableIds(s.mem.value.queue) else {})
  }

  /** The item whose prompt call has been started but not sent. */
  function Unsent(s: State): set<Id> {
    if s.mem.Some? && s.mem.value.call.Some? && !s.mem.value.call.value.sent && s.mem.value.call.value.queueId.Some?
    then {s.mem.value.call.value.queueId.value} else {}
  }

  predicate StorageInv(s: State) {
    && (s.disk.Some? ==> WellFormed(s.disk.value))
    && (s.mem.Some? ==> WellFormed(s.mem.value.queue))
    && DiskIds(s) <= s.created && MemIds(s) <= s.created
    && (s.mem.Some? && s.mem.value.call.Some? ==> s.mem.value.promptActive)
  }

  /** What was sent, and what is about to be, was stored as attempted before. */
  predicate MarkInv(s: State) {
    && (forall id :: id in s.submitted ==> id in s.marked && id in s.created)
    && Unsent(s) <= s.marked && Unsent(s) <= s.created
  }

  /** The budget of one item: its submissions, plus one for each way it can still be
      submitted, never exceed one plus the retries its user asked for. */
  ghost predicate DeliveryInv(s: State) {
    && (forall id :: s.submitted[id] + Indicator(id in Runnable(s)) + Indicator(id in Unsent(s)) <= 1 + s.retried[id])
    && MarkInv(s)
  }

  predicate AnswersFor(q: Queue, s: State) {
    forall op :: op in q.handled && op in s.adds ==> s.adds[op] in Ids(q) || s.adds[op] in s.released
  }

  /** An addition the record remembers, and would acknowledge again, is on disk. */
  predicate AnswersOnDisk(q: Queue, s: State) {
    forall op :: op in q.handled && op in s.adds ==> s.adds[op] in DiskIds(s) || s.adds[op] in s.released
  }

  predicate ConservationInv(s: State) {
    && s.acked - s.released <= DiskIds(s)
    && (s.mem.Some? ==> s.acked - s.released <= MemIds(s))
    && (forall op :: op in s.adds ==> op.fingerprint.action.AddAction? && s.adds[op] in s.created)
    && s.acked <= s.created
    && (s.disk.Some? ==> AnswersFor(s.disk.value, s))
    && (s.mem.Some? ==> AnswersFor(s.mem.value.queue, s) && AnswersOnDisk(s.mem.value.queue, s))
  }

  ghost predicate Inv(s: State) {
    StorageInv(s) && DeliveryInv(s) && ConservationInv(s)
  }

  /** A write of `next` whose outcome is `outcome`, everything else being as in `s`
      except for the given call. */
  ghost predicate Wrote(s: State, s': State, next: Queue, outcome: Outcome) {
    && s.mem.Some? && s'.mem.Some?
    && s'.disk == Landed(s.disk, Some(next), outcome)
    && s'.mem.value.queue == (if outcome.Saved? then next else s.mem.value.queue)
  }

  lemma WriteKeepsStorage(s: State, s': State, next: Queue, outcome: Outcome, gained: set<Id>, lost: set<Id>, runnable: set<Id>)
    requires StorageInv(s) && Wrote(s, s', next, outcome)
    requires Follows(s.mem.value.queue, next, gained, lost, runnable)
    requires s.created + gained <= s'.created
    requires s'.mem.value.call.Some? ==> s'.mem.value.promptActive
    ensures StorageInv(s')
    ensures Runnable(s') <= Runnable(s) + runnable
  {
  }

  lemma WriteKeepsConservation(s: State, s': State, next: Queue, outcome: Outcome, lost: set<Id>, runnable: set<Id>)
    requires ConservationInv(s) && StorageInv(s) && Wrote(s, s', next, outcome)
    requires Follows(s.mem.value.queue, next, {}, lost, runnable)
    requires s.created <= s'.created && s'.acked == s.acked && s'.adds == s.adds
    requires s.released <= s'.released && (!outcome.FailedBefore? ==> lost <= s'.released)
    requires forall op :: op in next.handled ==> op in s.mem.value.queue.handled || !op.fingerprint.action.AddAction?
    ensures ConservationInv(s')
  {
  }

  /** Delivery accounting of a write that submits nothing: only a retry lets an item be
      sent again, and it is counted. */
  lemma WriteKeepsDelivery(s: State, s': State, runnable: set<Id>)
    requires DeliveryInv(s)
    requires Runnable(s') <= Runnable(s) + runnable && Unsent(s') <= Unsent(s)
    requires s'.submitted == s.submitted && s.created <= s'.created && s.marked <= s'.marked
    requires forall id :: s.retried[id] <= s'.retried[id]
    requires forall id :: id in runnable ==>
               s.retried[id] < s'.retried[id] || (id !in s.submitted && id !in Unsent(s))
    ensures DeliveryInv(s')
  {
    forall id
      ensures s'.submitted[id] + Indicator(id in Runnable(s')) + Indicator(id in Unsent(s')) <= 1 + s'.retried[id]
    {
      assert s.submitted[id] + Indicator(id in Runnable(s)) + Indicator(id in Unsent(s)) <= 1 + s.retried[id];
    }
  }

  // ------------------------------------------------------------------
  // Every step keeps it
  // ------------------------------------------------------------------

  /** The operation that decides is the first one under the request's key. */
  lemma {:induction false} LookupDecides(handled: seq<Operation>, identity: Operation, i: nat)
    requires identity.key != "" && i < |handled| && handled[i].key == identity.key
    requires forall k :: 0 <= k < i ==> handled[k].key != identity.key
    ensures Lookup(handled, identity) == if handled[i].fingerprint == identity.fingerprint then Duplicate else Conflict
  {
    if i > 0 {
      LookupDecides(handled[1..], identity, i - 1);
    }
  }

  lemma LookupFinds(handled: seq<Operation>, identity: Operation)
    ensures Lookup(handled, identity).Duplicate? ==> identity in handled
    ensures Lookup(handled, identity).New? && identity.key != "" ==>
              forall op :: op in handled ==> op.key != identity.key
  {
    if handled != [] && identity.key != "" && handled[0].key != identity.key {
      LookupFinds(handled[1..], identity);
      assert handled == [handled[0]] + handled[1..];
    }
  }

  /** Releasing or marking more never breaks the invariant. */
  lemma MoreAccounting(s: State, released: set<Id>, marked: set<Id>)
    requires Inv(s) && s.released <= released && s.marked <= marked
    ensures Inv(s.(released := released, marked := marked))
  {
    var s' := s.(released := released, marked := marked);
    WriteKeepsDelivery(s, s', {});
  }

  lemma AddKeepsInv(s: State, text: string, identity: Operation, id: Id, revision: Revision, outcome: Outcome)
    requires Inv(s) && s.mem.Some? && id !in s.created && identity.fingerprint.action.AddAction?
    ensures Inv(AddStep(s, text, identity, id, revision, outcome))
  {
    var q := s.mem.value.queue;
    var s' := AddStep(s, text, identity, id, revision, outcome);
    var parsed := QueuedText(text);
    LookupFinds(q.handled, identity);
    if parsed.Some? && Lookup(q.handled, identity).New? && |Flat(q)| < MAX_QUEUED_MESSAGES {
      TrimmedOnce(text);
      var item := Item(id, parsed.value);
      AddingFollows(q, item, identity, revision);
      AddWriteKeepsInv(s, s', Added(q, item, identity, revision), identity, id, outcome);
    }
  }

  lemma {:induction false} AddWriteKeepsInv(s: State, s': State, next: Queue, identity: Operation, id: Id, outcome: Outcome)
    requires Inv(s) && s.mem.Some? && id !in s.created && identity.fingerprint.action.AddAction?
    requires Follows(s.mem.value.queue, next, {id}, {}, {id})
    requires next.handled == Remember(s.mem.value.queue.handled, identity)
    requires identity.key != "" ==> identity !in s.mem.value.queue.handled
    requires s' == Commit(s, next, outcome).(created := s.created + {id},
                     adds := if outcome.FailedBefore? || identity.key == "" then s.adds else s.adds[identity := id],
                     acked := if outcome.Saved? then s.acked + {id} else s.acked)
    ensures Inv(s')
  {
    RememberIsBounded(s.mem.value.queue.handled, identity);
    WriteKeepsStorage(s, s', next, outcome, {id}, {}, {id});
    WriteKeepsDelivery(s, s', {id});
    AddWriteConserves(s, s', next, identity, id, outcome);
  }

  lemma {:induction false} AddWriteConserves(s: State, s': State, next: Queue, identity: Operation, id: Id, outcome: Outcome)
    requires StorageInv(s) && ConservationInv(s) && Wrote(s, s', next, outcome)
    requires id !in s.created && identity.fingerprint.action.AddAction?
    requires Ids(next) == Ids(s.mem.value.queue) + {id}
    requires forall op :: op in next.handled ==> op in s.mem.value.queue.handled || (op == identity && op.key != "")
    requires identity.key != "" ==> identity !in s.mem.value.queue.handled
    requires s'.created == s.created + {id} && s'.released == s.released
    requires s'.adds == if outcome.FailedBefore? || identity.key == "" then s.adds else s.adds[identity := id]
    requires s'.acked == if outcome.Saved? then s.acked + {id} else s.acked
    ensures ConservationInv(s')
  {
    hide WellFormed, Flat;
  }

  lemma {:induction false} EditKeepsInv(s: State, index: int, text: string, identity: Operation, expected: Revision,
          revision: Revision, outcome: Outcome)
    requires Inv(s) && s.mem.Some? && identity.fingerprint.action.EditAction?
    ensures Inv(EditStep(s, index, text, identity, expected, revision, outcome))
  {
    var m := s.mem.value;
    var s' := EditStep(s, index, text, identity, expected, revision, outcome);
    var place := PlaceOf(m.queue, !m.promptActive, index);
    var parsed := QueuedText(text);
    if s' != s {
      ShownIndexesHavePlaces(m.queue, !m.promptActive, index);
      TrimmedOnce(text);
      EditKeepsTheRecordValid(m.queue, place, parsed.value);
      EditsAndRemovalsAddNothingRunnable(m.queue, place, parsed.value);
      StampedWriteKeepsInv(s, s', Edited(m.queue, place, parsed.value), identity, revision, outcome, {});
    }
  }

  lemma StampedWriteKeepsInv(s: State, s': State, next: Queue, identity: Operation, revision: Revision,
          outcome: Outcome, lost: set<Id>)
    requires Inv(s) && s.mem.Some? && Follows(s.mem.value.queue, next, {}, lost, {})
    requires next.handled == s.mem.value.queue.handled && !identity.fingerprint.action.AddAction?
    requires s' == Commit(s, Stamped(next, identity, revision), outcome).(released := s'.released)
    requires s.released <= s'.released && (!outcome.FailedBefore? ==> lost <= s'.released)
    ensures Inv(s')
  {
    StampingFollows(next, identity, revision);
    RememberIsBounded(next.handled, identity);
    WriteKeepsStorage(s, s', Stamped(next, identity, revision), outcome, {}, lost, {});
    WriteKeepsConservation(s, s', Stamped(next, identity, revision), outcome, lost, {});
    WriteKeepsDelivery(s, s', {});
  }

  lemma {:induction false} RemoveKeepsInv(s: State, index: int, identity: Operation, expected: Revision,
          revision: Revision, outcome: Outcome, released: set<Id>)
    requires Inv(s) && s.mem.Some? && identity.fingerprint.action.RemoveAction?
    requires s.released <= released
    requires RemoveStep(s, index, identity, expected, revision, outcome) != s && !outcome.FailedBefore? ==>
               RemovedId(s.mem.value, index) <= released
    ensures Inv(RemoveStep(s, index, identity, expected, revision, outcome).(released := released))
  {
    var m := s.mem.value;
    var s' := RemoveStep(s, index, identity, expected, revision, outcome);
    if s' == s {
      MoreAccounting(s, released, s.marked);
    } else {
      var place := PlaceOf(m.queue, !m.promptActive, index);
      RemovalFollows(m, index);
      hide Inv, Flat, Follows, Exists, PlaceOf, WellFormed;
      StampedWriteKeepsInv(s, s'.(released := released), Without(m.queue, place), identity, revision, outcome,
                           RemovedId(m, index));
    }
  }

  lemma {:induction false} RemovalFollows(m: Mem, index: int)
    requires WellFormed(m.queue)
    ensures var place := PlaceOf(m.queue, !m.promptActive, index);
            !place.Nowhere? ==> Exists(m.queue, place) && Follows(m.queue, Without(m.queue, place), {}, RemovedId(m, index), {})
  {
    var place := PlaceOf(m.queue, !m.promptActive, index);
    if !place.Nowhere? {
      ShownIndexesHavePlaces(m.queue, !m.promptActive, index);
      ShorteningFollows(m.queue, place);
      hide Flat, Without, PlaceOf, Follows, WellFormed;
    }
  }

  lemma ShorteningFollows(q: Queue, place: Place)
    requires WellFormed(q) && Exists(q, place)
    ensures Position(q, place) < |Flat(q)|
    ensures Follows(q, Without(q, place), {}, {Flat(q)[Position(q, place)].id}, {})
  {
    RemoveKeepsTheRecordValid(q, place);
    EditsAndRemovalsAddNothingRunnable(q, place, "");
    hide Flat, Without, Position, WellFormed, RunnableIds;
  }

  function RemovedId(m: Mem, index: int): set<Id> {
    var at := Position(m.queue, PlaceOf(m.queue, !m.promptActive, index));
    if at < |Flat(m.queue)| then {Flat(m.queue)[at].id} else {}
  }

  lemma {:induction false} RetryKeepsInv(s: State, retryId: Id, identity: Operation, expected: Revision,
          revision: Revision, outcome: Outcome)
    requires Inv(s) && s.mem.Some? && identity.fingerprint.action.RetryAction?
    ensures Inv(RetryStep(s, retryId, identity, expected, revision, outcome))
  {
    var m := s.mem.value;
    var q := m.queue;
    hide Inv, Commit, Remember, Lookup, Flat;
    if Lookup(q.handled, identity) != New {
    } else if expected != q.revision && (q.blocked.None? || q.blocked.value.id != retryId) {
      ResolvedRetryKeepsInv(s, identity, outcome);
    } else if RetryTarget(q, m.promptActive).Some? {
      PutBackKeepsInv(s, identity, revision, outcome);
    }
  }

  lemma {:induction false} ResolvedRetryKeepsInv(s: State, identity: Operation, outcome: Outcome)
    requires Inv(s) && s.mem.Some? && identity.fingerprint.action.RetryAction?
    ensures var q := s.mem.value.queue;
            Inv(Commit(s, q.(handled := Remember(q.handled, identity)), outcome))
  {
    var q := s.mem.value.queue;
    assert q.(handled := Remember(q.handled, identity)) == Stamped(q, identity, q.revision);
    assert Follows(q, q, {}, {}, {});
    hide Inv, Follows, Flat;
    StampedWriteKeepsInv(s, Commit(s, Stamped(q, identity, q.revision), outcome), q, identity, q.revision, outcome, {});
  }

  lemma {:induction false} PutBackKeepsInv(s: State, identity: Operation, revision: Revision, outcome: Outcome)
    requires Inv(s) && s.mem.Some? && identity.fingerprint.action.RetryAction?
    requires RetryTarget(s.mem.value.queue, s.mem.value.promptActive).Some?
    ensures var m := s.mem.value;
            var target := RetryTarget(m.queue, m.promptActive).value;
            Inv(Commit(s, Stamped(Retried(m.queue, m.promptActive), identity, revision), outcome)
                .(retried := s.retried + multiset{target}))
  {
    var m := s.mem.value;
    var q := m.queue;
    var target := RetryTarget(q, m.promptActive).value;
    var next := Stamped(Retried(q, m.promptActive), identity, revision);
    var s' := Commit(s, next, outcome).(retried := s.retried + multiset{target});
    RetryFollows(q, m.promptActive);
    StampingFollows(Retried(q, m.promptActive), identity, revision);
    RememberIsBounded(q.handled, identity);
    assert next.handled == Remember(q.handled, identity);
    assert Follows(q, next, {}, {}, {target});
    hide Flat, WellFormed, Retried, Stamped, RetryTarget, Remember, Follows;
    WriteKeepsStorage(s, s', next, outcome, {}, {}, {target});
    WriteKeepsConservation(s, s', next, outcome, {}, {target});
    WriteKeepsDelivery(s, s', {target});
  }

  /** A write of the drain, of a settlement or of a recovery: it remembers no request,
      makes nothing newly sendable, and may drop items that were released. */
  lemma InternalWriteKeepsInv(s: State, s': State, next: Queue, outcome: Outcome, lost: set<Id>)
    requires Inv(s) && Wrote(s, s', next, outcome)
    requires Follows(s.mem.value.queue, next, {}, lost, {})
    requires next.handled == s.mem.value.queue.handled
    requires s'.mem.value.call.Some? ==> s'.mem.value.promptActive
    requires Unsent(s') <= Unsent(s)
    requires s'.submitted == s.submitted && s'.retried == s.retried && s'.acked == s.acked
    requires s'.created == s.created && s'.adds == s.adds && s.marked <= s'.marked
    requires s.released <= s'.released && (!outcome.FailedBefore? ==> lost <= s'.released)
    ensures Inv(s')
  {
    WriteKeepsStorage(s, s', next, outcome, {}, lost, {});
    WriteKeepsConservation(s, s', next, outcome, lost, {});
    WriteKeepsDelivery(s, s', {});
  }

  /** A change of the projection that leaves its queue alone. */
  lemma ProjectionChangeKeepsInv(s: State, m: Mem)
    requires Inv(s) && s.mem.Some? && m.queue == s.mem.value.queue
    requires m.call.Some? ==> m.promptActive
    requires Unsent(s.(mem := Some(m))) <= Unsent(s)
    ensures Inv(s.(mem := Some(m)))
  {
    WriteKeepsDelivery(s, s.(mem := Some(m)), {});
  }

  lemma AttachKeepsInv(s: State, generation: nat, turns: seq<string>, revision: Revision, outcome: Outcome, released: set<Id>)
    requires Inv(s) && s.mem.Some? && s.released <= released
    requires var d := s.mem.value.queue.dispatch;
             !outcome.FailedBefore? && d.Some? && Replayed(d.value, turns) ==> d.value.id in released
    ensures Inv(AttachStep(s, generation, turns, revision, outcome).(released := released))
  {
    var m := s.mem.value;
    var s' := AttachStep(s, generation, turns, revision, outcome);
    if m.queue.dispatch.None? {
      ProjectionChangeKeepsInv(s, Reattached(m, m.queue, generation, turns));
      MoreAccounting(s', released, s.marked);
    } else {
      RecoverFollows(m.queue, turns, revision);
      InternalWriteKeepsInv(s, s'.(released := released), Recovered(m.queue, turns, revision), outcome,
                            if Replayed(m.queue.dispatch.value, turns) then {m.queue.dispatch.value.id} else {});
    }
  }

  lemma {:induction false} StartKeepsInv(s: State, outcome: Outcome, marked: set<Id>)
    requires Inv(s) && Enabled(s, Start(outcome))
    requires s.marked + AttemptedOn(StartStep(s, outcome).disk) <= marked
    ensures Inv(StartStep(s, outcome).(marked := marked))
  {
    var s' := StartStep(s, outcome).(marked := marked);
    var next := Marked(s.mem.value.queue);
    MarkFollows(s.mem.value.queue);
    StartWrites(s, outcome, marked);
    hide Marked, StartStep, Follows, Flat, WellFormed;
    WriteKeepsStorage(s, s', next, outcome, {}, {}, {});
    WriteKeepsConservation(s, s', next, outcome, {}, {});
    if outcome.Saved? {
      StartSpendsItsBudget(s, marked);
    } else {
      WriteKeepsDelivery(s, s', {});
    }
  }

  lemma StartWrites(s: State, outcome: Outcome, marked: set<Id>)
    requires Enabled(s, Start(outcome)) && s.marked + AttemptedOn(StartStep(s, outcome).disk) <= marked
    ensures var s' := StartStep(s, outcome).(marked := marked);
            && Wrote(s, s', Marked(s.mem.value.queue), outcome)
            && Marked(s.mem.value.queue).handled == s.mem.value.queue.handled
            && s'.created == s.created && s'.acked == s.acked && s'.adds == s.adds && s'.released == s.released
            && s'.submitted == s.submitted && s'.retried == s.retried && s.marked <= s'.marked
            && (s'.mem.value.call.Some? ==> s'.mem.value.promptActive || s'.mem == s.mem)
            && (!outcome.Saved? ==> s'.mem == s.mem)
  {
    hide Flat;
  }

  /** The started item moves from what may be sent to what is about to be. */
  lemma {:induction false} StartSpendsItsBudget(s: State, marked: set<Id>)
    requires Inv(s) && Enabled(s, Start(Saved))
    requires s.marked + AttemptedOn(StartStep(s, Saved).disk) <= marked
    ensures DeliveryInv(StartStep(s, Saved).(marked := marked))
  {
    var q := s.mem.value.queue;
    var s' := StartStep(s, Saved).(marked := marked);
    MarkFollows(q);
    assert Flat(q)[0].id == q.dispatch.value.id && Flat(q)[0] in Flat(q);
    hide Flat, WellFormed, ConservationInv;
    ItemAboutToBeSent(s, s', q.dispatch.value.id);
  }

  lemma {:induction false} ItemAboutToBeSent(s: State, s': State, id: Id)
    requires DeliveryInv(s) && id in Runnable(s) && Runnable(s') <= Runnable(s) - {id} && Unsent(s') == {id}
    requires s'.submitted == s.submitted && s'.retried == s.retried && s'.created == s.created
    requires s.marked <= s'.marked && id in s'.marked && id in s'.created
    ensures DeliveryInv(s')
  {
    hide Runnable, Unsent;
    forall x
      ensures s'.submitted[x] + Indicator(x in Runnable(s')) + Indicator(x in Unsent(s')) <= 1 + s'.retried[x]
    {
      assert s.submitted[x] + Indicator(x in Runnable(s)) + Indicator(x in Unsent(s)) <= 1 + s.retried[x];
    }
  }

  lemma SubmitKeepsInv(s: State)
    requires Inv(s) && Enabled(s, Submit)
    ensures Inv(Core(s, Submit))
  {
    var s' := Core(s, Submit);
    forall x
      ensures s'.submitted[x] + Indicator(x in Runnable(s')) + Indicator(x in Unsent(s')) <= 1 + s'.retried[x]
    {
      assert s.submitted[x] + Indicator(x in Runnable(s)) + Indicator(x in Unsent(s)) <= 1 + s.retried[x];
    }
  }

  lemma SettleKeepsInv(s: State, failed: bool, revision: Revision, outcome: Outcome, released: set<Id>)
    requires Inv(s) && s.mem.Some? && s.mem.value.call.Some? && s.released <= released
    requires var m := s.mem.value;
             (!outcome.FailedBefore? && m.queue.dispatch.Some?
              && m.call.value.queueId == Some(m.queue.dispatch.value.id)
              && (!failed || m.acknowledged)) ==> m.queue.dispatch.value.id in released
    ensures Inv(SettleStep(s, failed, revision, outcome).(released := released))
  {
    var m := s.mem.value;
    var s' := SettleStep(s, failed, revision, outcome).(released := released);
    var idle := m.(promptActive := false, streaming := false, acknowledged := false, call := None);
    if m.queue.dispatch.Some? && m.call.value.queueId == Some(m.queue.dispatch.value.id) {
      var delivered := !failed || m.acknowledged;
      SettleFollows(m.queue, delivered, failed, revision);
      InternalWriteKeepsInv(s, s', Settled(m.queue, delivered, failed, revision), outcome,
                            if failed && !delivered then {} else {m.queue.dispatch.value.id});
    } else {
      ProjectionChangeKeepsInv(s, idle);
      MoreAccounting(s.(mem := Some(idle)), released, s.marked);
    }
  }

  /** A projection loaded from the record on disk. */
  lemma LoadKeepsInv(s: State, revision: Revision)
    requires Inv(s) && s.mem.None?
    ensures Inv(s.(mem := Some(Loaded(s.disk, revision))))
  {
    var s' := s.(mem := Some(Loaded(s.disk, revision)));
    assert Flat(EmptyQueue(revision)) == [];
    WriteKeepsDelivery(s, s', {});
  }

  lemma DropKeepsInv(s: State)
    requires Inv(s)
    ensures Inv(s.(mem := None))
  {
    WriteKeepsDelivery(s, s.(mem := None), {});
  }

  /** The record of a deleted chat goes, and every item with it. */
  lemma {:induction false} ForgetKeepsInv(s: State, outcome: Outcome, released: set<Id>)
    requires Inv(s) && s.mem.None? && s.released <= released
    requires !outcome.FailedBefore? ==> DiskIds(s) <= released
    ensures Inv(s.(disk := Landed(s.disk, None, outcome), released := released))
  {
    WriteKeepsDelivery(s, s.(disk := Landed(s.disk, None, outcome), released := released), {});
    hide WellFormed, Flat;
  }

  /** What other requests have read does not matter until it is installed. */
  lemma ReadsKeepInv(s: State, captured: map<nat, Option<Queue>>)
    requires Inv(s)
    ensures Inv(s.(captured := captured))
  {
    WriteKeepsDelivery(s, s.(captured := captured), {});
  }
}
