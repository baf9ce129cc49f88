/** The durable follow-up queue of one chat: its records, the pure operations on
    them, and the labelled steps in which the controller, a crash, an eviction, the
    Pi agent and the user can move it. */
module QueueModel {
  import opened Base

  const MAX_QUEUED_MESSAGES := 20
  const MAX_QUEUE_OPERATIONS := 512

  type Id = nat
  type Revision = nat

  datatype Item = Item(id: Id, text: string)
  datatype Dispatch = Dispatch(id: Id, text: string, previousUsers: nat, attempted: bool)

  /** A fingerprint is a digest over the method and its parameters, so equal
      fingerprints are requests for the same kind of mutation. */
  datatype Action = AddAction | EditAction | RemoveAction | RetryAction
  datatype Fingerprint = Fingerprint(action: Action, payload: string)
  datatype Operation = Operation(key: string, fingerprint: Fingerprint)

  datatype Queue = Queue(
    revision: Revision,
    followUp: seq<Item>,
    dispatch: Option<Dispatch>,
    blocked: Option<Item>,
    handled: seq<Operation>)

  function EmptyQueue(revision: Revision): Queue {
    Queue(revision, [], None, None, [])
  }

  // ------------------------------------------------------------------
  // Texts
  // ------------------------------------------------------------------

  predicate IsSpace(c: char) {
    '\t' <= c <= '\r' || c == ' ' || c == '\U{85}' || c == '\U{A0}' || c == '\U{1680}'
    || '\U{2000}' <= c <= '\U{200A}' || c == '\U{2028}' || c == '\U{2029}'
    || c == '\U{202F}' || c == '\U{205F}' || c == '\U{3000}'
  }

  function TrimLeft(s: string): string {
    if s != [] && IsSpace(s[0]) then TrimLeft(s[1..]) else s
  }

  function TrimRight(s: string): string {
    if s != [] && IsSpace(s[|s| - 1]) then TrimRight(s[..|s| - 1]) else s
  }

  /** A queued text is stored trimmed; an empty one or one with a NUL is refused. */
  function QueuedText(value: string): Option<string> {
    var text := TrimRight(TrimLeft(value));
    if text == [] || '\0' in text then None else Some(text)
  }

  predicate ValidText(text: string) { QueuedText(text) == Some(text) }

  // ------------------------------------------------------------------
  // The three places an item can be, read as one list
  // ------------------------------------------------------------------

  function DispatchItem(q: Queue): seq<Item> {
    if q.dispatch.Some? then [Item(q.dispatch.value.id, q.dispatch.value.text)] else []
  }

  function BlockedItem(q: Queue): seq<Item> {
    if q.blocked.Some? then [q.blocked.value] else []
  }

  function Flat(q: Queue): seq<Item> { DispatchItem(q) + BlockedItem(q) + q.followUp }

  /** The list a browser is shown and indexes: the dispatch is hidden while its
      prompt is active. */
  function Visible(q: Queue, includeDispatch: bool): seq<Item> {
    (if includeDispatch then DispatchItem(q) else []) + BlockedItem(q) + q.followUp
  }

  /** The texts of that list, built place by place as the wire projection builds it. */
  function Wire(q: Queue, includeDispatch: bool): seq<string> {
    (if q.dispatch.Some? && includeDispatch then [q.dispatch.value.text] else [])
    + (if q.blocked.Some? then [q.blocked.value.text] else [])
    + Texts(q.followUp)
  }

  function Texts(items: seq<Item>): seq<string> {
    seq(|items|, i requires 0 <= i < |items| => items[i].text)
  }

  function IdSet(items: seq<Item>): set<Id> { set item | item in items :: item.id }

  function Ids(q: Queue): set<Id> { IdSet(Flat(q)) }

  /** The ids the controller may still send without being asked again. */
  function RunnableIds(q: Queue): set<Id> {
    IdSet(q.followUp)
    + (if q.dispatch.Some? && !q.dispatch.value.attempted then {q.dispatch.value.id} else {})
  }

  predicate Distinct(items: seq<Item>) {
    forall i, j :: 0 <= i < j < |items| ==> items[i].id != items[j].id
  }

  predicate ValidTexts(items: seq<Item>) {
    forall i :: 0 <= i < |items| ==> ValidText(items[i].text)
  }

  predicate DistinctKeys(handled: seq<Operation>) {
    forall i, j :: 0 <= i < j < |handled| ==> handled[i].key != handled[j].key
  }

  /** What every stored record must satisfy. */
  predicate WellFormed(q: Queue) {
    && !(q.dispatch.Some? && q.blocked.Some?)
    && Distinct(Flat(q))
    && |Flat(q)| <= MAX_QUEUED_MESSAGES
    && ValidTexts(Flat(q))
    && |q.handled| <= MAX_QUEUE_OPERATIONS
  }

  // ------------------------------------------------------------------
  // Request identities
  // ------------------------------------------------------------------

  datatype Verdict = New | Duplicate | Conflict

  /** The first remembered operation with the request's key decides. */
  function Lookup(handled: seq<Operation>, identity: Operation): Verdict {
    if identity.key == "" || handled == [] then New
    else if handled[0].key == identity.key then
      if handled[0].fingerprint == identity.fingerprint then Duplicate else Conflict
    else Lookup(handled[1..], identity)
  }

  function Remember(handled: seq<Operation>, identity: Operation): seq<Operation> {
    if identity.key == "" then handled
    else
      var all := handled + [identity];
      if |all| > MAX_QUEUE_OPERATIONS then all[|all| - MAX_QUEUE_OPERATIONS..] else all
  }

  // ------------------------------------------------------------------
  // The next queue of each mutation
  // ------------------------------------------------------------------

  function Added(q: Queue, item: Item, identity: Operation, revision: Revision): Queue {
    q.(followUp := q.followUp + [item], handled := Remember(q.handled, identity), revision := revision)
  }

  /** Where an index of the shown list points: each place that is shown takes one
      index before the follow-ups. */
  datatype Place = AtDispatch | AtBlocked | AtFollowUp(k: nat) | Nowhere

  function PlaceOf(q: Queue, includeDispatch: bool, index: int): Place {
    var first := q.dispatch.Some? && includeDispatch;
    if first && index == 0 then AtDispatch
    else
      var i := if first then index - 1 else index;
      if q.blocked.Some? && i == 0 then AtBlocked
      else
        var k := if q.blocked.Some? then i - 1 else i;
        if 0 <= k < |q.followUp| then AtFollowUp(k) else Nowhere
  }

  predicate Exists(q: Queue, place: Place) {
    match place
    case AtDispatch => q.dispatch.Some?
    case AtBlocked => q.blocked.Some?
    case AtFollowUp(k) => k < |q.followUp|
    case Nowhere => false
  }

  function Edited(q: Queue, place: Place, text: string): Queue
    requires Exists(q, place)
  {
    match place
    case AtDispatch => q.(dispatch := Some(q.dispatch.value.(text := text)))
    case AtBlocked => q.(blocked := Some(q.blocked.value.(text := text)))
    case AtFollowUp(k) => q.(followUp := q.followUp[k := q.followUp[k].(text := text)])
  }

  function Without(q: Queue, place: Place): Queue
    requires Exists(q, place)
  {
    match place
    case AtDispatch => q.(dispatch := None)
    case AtBlocked => q.(blocked := None)
    case AtFollowUp(k) => q.(followUp := q.followUp[..k] + q.followUp[k + 1..])
  }

  function Stamped(q: Queue, identity: Operation, revision: Revision): Queue {
    q.(handled := Remember(q.handled, identity), revision := revision)
  }

  /** The dispatch goes back to the head of the follow-ups. */
  function Requeued(q: Queue, revision: Revision): Queue
    requires q.dispatch.Some?
  {
    q.(dispatch := None, followUp := DispatchItem(q) + q.followUp, revision := revision)
  }

  /** The item a retry takes: an attempted dispatch no prompt is running, or the
      blocked item. */
  function RetryTarget(q: Queue, promptActive: bool): Option<Id> {
    if q.dispatch.Some? && q.dispatch.value.attempted && !promptActive then Some(q.dispatch.value.id)
    else if q.blocked.Some? then Some(q.blocked.value.id)
    else None
  }

  function Retried(q: Queue, promptActive: bool): Queue
    requires RetryTarget(q, promptActive).Some?
  {
    if q.dispatch.Some? && q.dispatch.value.attempted && !promptActive then
      q.(dispatch := None, followUp := DispatchItem(q) + q.followUp)
    else
      q.(blocked := None, followUp := [q.blocked.value] + q.followUp)
  }

  function Prepared(q: Queue, users: nat, revision: Revision): Queue
    requires q.followUp != []
  {
    var item := q.followUp[0];
    q.(followUp := q.followUp[1..],
       dispatch := Some(Dispatch(item.id, item.text, users, false)),
       revision := revision)
  }

  function Marked(q: Queue): Queue
    requires q.dispatch.Some?
  {
    q.(dispatch := Some(q.dispatch.value.(attempted := true)))
  }

  /** A finished prompt leaves the dispatch: delivered it is gone, failed without
      an acknowledgement it is blocked. */
  function Settled(q: Queue, delivered: bool, failed: bool, revision: Revision): Queue
    requires q.dispatch.Some?
  {
    if failed && !delivered then
      q.(dispatch := None,
         blocked := Some(Item(q.dispatch.value.id, q.dispatch.value.text)),
         revision := revision)
    else q.(dispatch := None)
  }

  /** The transcript holds exactly the dispatched text as the user turn that
      follows the turns counted when it was prepared. */
  predicate Replayed(d: Dispatch, turns: seq<string>) {
    d.previousUsers < |turns| && turns[d.previousUsers] == d.text
  }

  function Recovered(q: Queue, turns: seq<string>, revision: Revision): Queue
    requires q.dispatch.Some?
  {
    var d := q.dispatch.value;
    if Replayed(d, turns) then q.(dispatch := None, revision := revision)
    else if !d.attempted && |turns| == d.previousUsers then Requeued(q, revision)
    else q.(dispatch := None, blocked := Some(Item(d.id, d.text)), revision := revision)
  }

  // ------------------------------------------------------------------
  // States and steps
  // ------------------------------------------------------------------

  /** One call of the agent's prompt operation: `sent` once the request left. */
  datatype Call = Call(queueId: Option<Id>, sent: bool)

  /** The in-memory projection of the chat. `turns` are the user turns it shows. */
  datatype Mem = Mem(
    queue: Queue,
    promptActive: bool,
    streaming: bool,
    attached: nat,
    turns: seq<string>,
    echoPending: bool,
    acknowledged: bool,
    call: Option<Call>)

  /** `disk` and `mem` are what the controller holds. `captured` holds, request by
      request, what was read from the store and not installed or dropped yet. The rest
      is accounting: what has been submitted to the agent, retried, durably marked as
      attempted, acknowledged to a user, or released from the promise to keep it. */
  datatype State = State(
    disk: Option<Queue>,
    mem: Option<Mem>,
    captured: map<nat, Option<Queue>>,
    submitted: multiset<Id>,
    retried: multiset<Id>,
    marked: set<Id>,
    acked: set<Id>,
    released: set<Id>,
    created: set<Id>,
    adds: map<Operation, Id>)

  const INITIAL := State(None, None, map[], multiset{}, multiset{}, {}, {}, {}, {}, map[])

  datatype Event =
    | Capture(request: nat)
    | Discard(request: nat)
    | Install(request: nat, revision: Revision)
    | LoadNow(revision: Revision)
    | Evict
    | Crash
    | Forget(outcome: Outcome)
    | Add(text: string, identity: Operation, id: Id, revision: Revision, outcome: Outcome)
    | Edit(index: int, text: string, identity: Operation, expected: Revision, revision: Revision, outcome: Outcome)
    | Remove(index: int, identity: Operation, expected: Revision, revision: Revision, outcome: Outcome)
    | Retry(retryId: Id, identity: Operation, expected: Revision, revision: Revision, outcome: Outcome)
    | Detach
    | Attach(generation: nat, turns: seq<string>, revision: Revision, outcome: Outcome)
    | Restore(revision: Revision, outcome: Outcome)
    | Prepare(revision: Revision, outcome: Outcome)
    | Start(outcome: Outcome)
    | StartDirect(text: string)
    | Submit
    | Settle(failed: bool, revision: Revision, outcome: Outcome)
    | Abandon
    | Notify(turns: seq<string>, streaming: bool)
    | Echo(complete: bool)

  function Loaded(disk: Option<Queue>, revision: Revision): Mem {
    var queue := if disk.Some? then disk.value else EmptyQueue(revision);
    Mem(queue, false, false, 0, [], false, false, None)
  }

  /** Steps that need no projection in memory. */
  predicate Unloaded(e: Event) {
    e.Capture? || e.Discard? || e.Install? || e.LoadNow? || e.Crash? || e.Forget?
  }

  /** When the code takes the step: its guards, and what the operation lock excludes. A
      request that did not find the chat reads the store outside the manager's lock, so
      a read can happen at any time; under the lock its candidate is installed when the
      chat is still not there, and dropped otherwise. A chat that is deleted is unloaded
      first, and then its record is removed. */
  predicate Enabled(s: State, e: Event) {
    match e
    case Crash => true
    case Capture(request) => request !in s.captured
    case Discard(request) => request in s.captured
    case Install(request, _) => s.mem.None? && request in s.captured
    case LoadNow(_) => s.mem.None?
    case Forget(_) => s.mem.None?
    case _ => s.mem.Some? && EnabledOn(s.mem.value, s.created, e)
  }

  predicate EnabledOn(m: Mem, created: set<Id>, e: Event) {
    match e
    case Evict => !m.promptActive && !m.streaming
    case Add(_, identity, id, _, _) => id !in created && identity.fingerprint.action.AddAction?
    case Edit(_, _, identity, _, _, _) => identity.fingerprint.action.EditAction?
    case Remove(_, identity, _, _, _) => identity.fingerprint.action.RemoveAction?
    case Retry(_, identity, _, _, _) => identity.fingerprint.action.RetryAction?
    case Attach(generation, _, _, _) => generation != 0
    case Restore(_, _) => m.queue.dispatch.Some? && !m.queue.dispatch.value.attempted && !m.promptActive
    case Prepare(_, _) =>
      !m.promptActive && !m.streaming && m.queue.dispatch.None? && m.queue.blocked.None? && m.queue.followUp != []
    case Start(_) => !m.promptActive && m.queue.dispatch.Some? && !m.queue.dispatch.value.attempted
    case StartDirect(_) => !m.promptActive && !m.streaming && Flat(m.queue) == []
    case Submit => m.call.Some? && !m.call.value.sent
    case Settle(failed, _, _) => m.call.Some? && (m.call.value.sent || failed)
    case Abandon => m.call.Some?
    case Echo(_) => m.echoPending
    case _ => true
  }

  /** One write of the queue: memory follows the disk only when the write succeeded. */
  function Commit(s: State, next: Queue, outcome: Outcome): State
    requires s.mem.Some?
  {
    s.(disk := Landed(s.disk, Some(next), outcome),
       mem := if outcome.Saved? then Some(s.mem.value.(queue := next)) else s.mem)
  }

  function AddStep(s: State, text: string, identity: Operation, id: Id, revision: Revision, outcome: Outcome): State
    requires s.mem.Some?
  {
    var q := s.mem.value.queue;
    var parsed := QueuedText(text);
    if parsed.None? then s
    else if Lookup(q.handled, identity) != New then
      if Lookup(q.handled, identity).Duplicate? && identity in s.adds
      then s.(acked := s.acked + {s.adds[identity]}) else s
    else if |Flat(q)| >= MAX_QUEUED_MESSAGES then s
    else
      var s' := Commit(s, Added(q, Item(id, parsed.value), identity, revision), outcome);
      s'.(created := s.created + {id},
          adds := if outcome.FailedBefore? || identity.key == "" then s.adds else s.adds[identity := id],
          acked := if outcome.Saved? then s.acked + {id} else s.acked)
  }

  function EditStep(s: State, index: int, text: string, identity: Operation, expected: Revision, revision: Revision,
          outcome: Outcome): State
    requires s.mem.Some?
  {
    var m := s.mem.value;
    var parsed := QueuedText(text);
    if Lookup(m.queue.handled, identity) != New || expected != m.queue.revision || parsed.None? then s
    else
      var place := PlaceOf(m.queue, !m.promptActive, index);
      if place.Nowhere? then s
      else Commit(s, Stamped(Edited(m.queue, place, parsed.value), identity, revision), outcome)
  }

  function RemoveStep(s: State, index: int, identity: Operation, expected: Revision, revision: Revision, outcome: Outcome): State
    requires s.mem.Some?
  {
    var m := s.mem.value;
    if Lookup(m.queue.handled, identity) != New || expected != m.queue.revision then s
    else
      var place := PlaceOf(m.queue, !m.promptActive, index);
      if place.Nowhere? then s
      else Commit(s, Stamped(Without(m.queue, place), identity, revision), outcome)
  }

  /** The part of a retry that follows its authoritative reload: a reload that
      changed the queue and no longer shows the item resolves the request. */
  function RetryStep(s: State, retryId: Id, identity: Operation, expected: Revision, revision: Revision, outcome: Outcome): State
    requires s.mem.Some?
  {
    var m := s.mem.value;
    var q := m.queue;
    if Lookup(q.handled, identity) != New then s
    else if expected != q.revision && (q.blocked.None? || q.blocked.value.id != retryId) then
      Commit(s, q.(handled := Remember(q.handled, identity)), outcome)
    else if RetryTarget(q, m.promptActive).None? then s
    else
      var s' := Commit(s, Stamped(Retried(q, m.promptActive), identity, revision), outcome);
      s'.(retried := s.retried + multiset{RetryTarget(q, m.promptActive).value})
  }

  function AttachStep(s: State, generation: nat, turns: seq<string>, revision: Revision, outcome: Outcome): State
    requires s.mem.Some?
  {
    var m := s.mem.value;
    if m.queue.dispatch.None? then
      s.(mem := Some(Reattached(m, m.queue, generation, turns)))
    else
      var next := Recovered(m.queue, turns, revision);
      s.(disk := Landed(s.disk, Some(next), outcome),
         mem := if outcome.Saved? then Some(Reattached(m, next, generation, turns)) else s.mem)
  }

  function Reattached(m: Mem, queue: Queue, generation: nat, turns: seq<string>): Mem {
    m.(queue := queue, turns := turns, streaming := false, attached := generation, echoPending := false)
  }

  function StartStep(s: State, outcome: Outcome): State
    requires s.mem.Some? && s.mem.value.queue.dispatch.Some?
  {
    var m := s.mem.value;
    var next := Marked(m.queue);
    var s' := Commit(s, next, outcome);
    if outcome.Saved? then
      s'.(mem := Some(Prompting(m.(queue := next), next.dispatch.value.text, Some(next.dispatch.value.id))))
    else s'
  }

  function Prompting(m: Mem, text: string, queueId: Option<Id>): Mem {
    m.(turns := m.turns + [text], echoPending := true, acknowledged := false,
       streaming := true, promptActive := true, call := Some(Call(queueId, false)))
  }

  function SettleStep(s: State, failed: bool, revision: Revision, outcome: Outcome): State
    requires s.mem.Some? && s.mem.value.call.Some?
  {
    var m := s.mem.value;
    var idle := m.(promptActive := false, streaming := false, acknowledged := false, call := None);
    var s' := s.(mem := Some(idle));
    if m.queue.dispatch.Some? && m.call.value.queueId == Some(m.queue.dispatch.value.id) then
      Commit(s', Settled(m.queue, !failed || m.acknowledged, failed, revision), outcome)
    else s'
  }

  /** The step proper, where it is enabled; nothing otherwise. */
  function Core(s: State, e: Event): State {
    if !Enabled(s, e) then s
    else
      match e
    case Capture(request) => s.(captured := s.captured[request := s.disk])
    case Discard(request) => s.(captured := s.captured - {request})
    case Install(request, revision) =>
      s.(mem := Some(Loaded(s.captured[request], revision)), captured := s.captured - {request})
    case LoadNow(revision) => s.(mem := Some(Loaded(s.disk, revision)))
    case Evict => s.(mem := None)
    case Crash => s.(mem := None, captured := map[])
    case Forget(outcome) => s.(disk := Landed(s.disk, None, outcome))
    case Add(text, identity, id, revision, outcome) => AddStep(s, text, identity, id, revision, outcome)
    case Edit(index, text, identity, expected, revision, outcome) =>
      EditStep(s, index, text, identity, expected, revision, outcome)
    case Remove(index, identity, expected, revision, outcome) =>
      RemoveStep(s, index, identity, expected, revision, outcome)
    case Retry(retryId, identity, expected, revision, outcome) =>
      RetryStep(s, retryId, identity, expected, revision, outcome)
    case Detach => s.(mem := Some(s.mem.value.(attached := 0)))
    case Attach(generation, turns, revision, outcome) => AttachStep(s, generation, turns, revision, outcome)
    case Restore(revision, outcome) => Commit(s, Requeued(s.mem.value.queue, revision), outcome)
    case Prepare(revision, outcome) =>
      Commit(s, Prepared(s.mem.value.queue, |s.mem.value.turns|, revision), outcome)
    case Start(outcome) => StartStep(s, outcome)
    case StartDirect(text) => s.(mem := Some(Prompting(s.mem.value, text, None)))
    case Submit =>
      var call := s.mem.value.call.value;
      s.(mem := Some(s.mem.value.(call := Some(call.(sent := true)))),
         submitted := if call.queueId.Some? then s.submitted + multiset{call.queueId.value} else s.submitted)
    case Settle(failed, revision, outcome) => SettleStep(s, failed, revision, outcome)
    case Abandon => s.(mem := Some(s.mem.value.(call := None)))
    case Notify(turns, streaming) => s.(mem := Some(s.mem.value.(turns := turns, streaming := streaming)))
    case Echo(complete) =>
      s.(mem := Some(s.mem.value.(echoPending := false, acknowledged := s.mem.value.acknowledged || complete)))
  }

  /** The only four reasons for which a write may drop an item: the user asked for its
      removal, its prompt was accepted or echoed in full, the reloaded transcript already
      holds it at the recorded position, or its chat is deleted. */
  predicate Releases(s: State, e: Event, id: Id) {
    match e
    case Forget(outcome) => !outcome.FailedBefore? && s.disk.Some? && id in Ids(s.disk.value)
    case Remove(index, identity, expected, _, outcome) =>
      s.mem.Some? &&
      var m := s.mem.value;
      var visible := Visible(m.queue, !m.promptActive);
      && !outcome.FailedBefore?
      && expected == m.queue.revision
      && Lookup(m.queue.handled, identity).New?
      && 0 <= index < |visible| && visible[index].id == id
    case Settle(failed, _, outcome) =>
      s.mem.Some? &&
      var m := s.mem.value;
      && !outcome.FailedBefore?
      && m.call.Some? && m.call.value.queueId == Some(id)
      && (!failed || m.acknowledged)
      && m.queue.dispatch.Some? && m.queue.dispatch.value.id == id
    case Attach(_, turns, _, outcome) =>
      s.mem.Some? &&
      var q := s.mem.value.queue;
      && !outcome.FailedBefore?
      && q.dispatch.Some? && q.dispatch.value.id == id
      && var at := q.dispatch.value.previousUsers; at < |turns| && turns[at] == q.dispatch.value.text
    case _ => false
  }

  function AttemptedOn(disk: Option<Queue>): set<Id> {
    if disk.Some? && disk.value.dispatch.Some? && disk.value.dispatch.value.attempted
    then {disk.value.dispatch.value.id} else {}
  }

  function ReleasedBy(s: State, e: Event): set<Id> {
    if !Enabled(s, e) then {}
    else if e.Forget? then (if e.outcome.FailedBefore? || s.disk.None? then {} else Ids(s.disk.value))
    else if s.mem.None? then {}
    else set item | item in Flat(s.mem.value.queue) && Releases(s, e, item.id) :: item.id
  }

  function Step(s: State, e: Event): State {
    if !Enabled(s, e) then s
    else
      var s' := Core(s, e);
      s'.(released := s.released + ReleasedBy(s, e), marked := s.marked + AttemptedOn(s'.disk))
  }

  /** A run is any finite sequence of events: an event that is not enabled where it comes
      changes nothing. */
  function Exec(run: seq<Event>): State {
    if run == [] then INITIAL else Step(Exec(run[..|run| - 1]), run[|run| - 1])
  }
}
