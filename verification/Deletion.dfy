/** Deleting a chat: the durable requested/confirmed journal, the Pi agent's own
    deletion, the three local stores that may only forget the chat afterwards, and the
    requests that found the chat before it was deleted and use it later. */
module Deletion {
  type Text = string
  datatype Key = Key(project: Text, session: Text)
  datatype Phase = Requested | Confirmed

  /** One journal record. The binding is a digest of the agent's identity and endpoint. */
  datatype Record = Record(key: Key, binding: Text, phase: Phase)

  datatype Place = Associations | Objectives | Queues

  /** What survives a crash of the controller is its four stores and the sessions alive
      at each agent. What does not is the chats it has loaded, and the lookups under way:
      each is a request that found the chat's association, does not hold the manager's
      lock, and will load the chat under it. `used` is every identifier ever handed out. */
  datatype World = World(
    journal: seq<Record>,
    associations: set<Key>,
    objectives: set<Key>,
    queues: set<Key>,
    alive: set<(Text, Text)>,
    used: set<Text>,
    lookups: multiset<Key>,
    loaded: set<Key>)

  function Store(w: World, place: Place): set<Key> {
    match place
    case Associations => w.associations
    case Objectives => w.objectives
    case Queues => w.queues
  }

  function WithStore(w: World, place: Place, keys: set<Key>): World {
    match place
    case Associations => w.(associations := keys)
    case Objectives => w.(objectives := keys)
    case Queues => w.(queues := keys)
  }

  predicate Gone(w: World, key: Key) {
    key !in w.associations && key !in w.objectives && key !in w.queues
  }

  // ------------------------------------------------------------------
  // The journal
  // ------------------------------------------------------------------

  predicate Distinct(journal: seq<Record>) {
    forall i, j :: 0 <= i < j < |journal| ==> journal[i].key.session != journal[j].key.session
  }

  function WithConfirmed(journal: seq<Record>, key: Key): (r: seq<Record>)
    ensures |r| == |journal|
  {
    seq(|journal|, i requires 0 <= i < |journal| =>
      if journal[i].key == key then journal[i].(phase := Confirmed) else journal[i])
  }

  function WithoutRecord(journal: seq<Record>, key: Key): seq<Record> {
    if journal == [] then []
    else
      WithoutRecord(journal[..|journal| - 1], key)
      + (if journal[|journal| - 1].key == key then [] else [journal[|journal| - 1]])
  }

  lemma {:induction false} WithoutRecordIsTheRest(journal: seq<Record>, key: Key)
    ensures forall r <- WithoutRecord(journal, key) :: r in journal && r.key != key
    ensures forall r <- journal | r.key != key :: r in WithoutRecord(journal, key)
    ensures Distinct(journal) ==> Distinct(WithoutRecord(journal, key))
  {
    if journal != [] {
      WithoutRecordIsTheRest(journal[..|journal| - 1], key);
      assert journal == journal[..|journal| - 1] + [journal[|journal| - 1]];
    }
  }

  lemma WithConfirmedIsTheSameChats(journal: seq<Record>, key: Key)
    ensures forall r <- WithConfirmed(journal, key) ::
              || (r.key != key && r in journal)
              || (r.key == key && r.phase == Confirmed && (r in journal || r.(phase := Requested) in journal))
    ensures forall r <- journal :: (if r.key == key then r.(phase := Confirmed) else r) in WithConfirmed(journal, key)
    ensures Distinct(journal) ==> Distinct(WithConfirmed(journal, key))
  {
    var next := WithConfirmed(journal, key);
    forall r | r in next
      ensures || (r.key != key && r in journal)
              || (r.key == key && r.phase == Confirmed && (r in journal || r.(phase := Requested) in journal))
    {
      var i :| 0 <= i < |next| && next[i] == r;
      assert journal[i] in journal;
      if journal[i].key == key && journal[i].phase == Requested {
        assert r.(phase := Requested) == journal[i];
      }
    }
    forall r | r in journal
      ensures (if r.key == key then r.(phase := Confirmed) else r) in next
    {
      var i :| 0 <= i < |journal| && journal[i] == r;
      assert next[i] in next;
    }
  }

  // ------------------------------------------------------------------
  // Events
  // ------------------------------------------------------------------

  datatype Event =
    | Created(key: Key, binding: Text)            // a new chat at an agent, with its association
    | Looked(key: Key)                            // a request found the association of a chat
    | Admitted(key: Key)                          // it loads the chat, or uses it as loaded by now
    | Dismissed(key: Key)                         // or is turned away
    | Evicted(key: Key)                           // the chat is unloaded
    | Kept(place: Place, key: Key)                // a title, objective or queue of a loaded chat is stored
    | Cleared(key: Key)                           // a user clears the goal of a chat that has no tasks
    | Asked(record: Record)                       // the deletion is written to the journal
    | AgentDeleted(binding: Text, session: Text)  // the agent commits Pixie's delete
    | Vanished(binding: Text, session: Text)      // the agent loses a session by itself
    | Settled(key: Key)                           // the journal record becomes confirmed
    | Dropped(place: Place, key: Key)             // a local store forgets the chat
    | Finished(key: Key)                          // the journal forgets the deletion
    | Crashed                                     // the controller stops

  function Apply(w: World, e: Event): World {
    match e
    case Created(key, binding) =>
      w.(associations := w.associations + {key}, alive := w.alive + {(binding, key.session)},
         used := w.used + {key.session}, loaded := w.loaded + {key})
    case Looked(key) => w.(lookups := w.lookups + multiset{key})
    case Admitted(key) => w.(lookups := w.lookups - multiset{key}, loaded := w.loaded + {key})
    case Dismissed(key) => w.(lookups := w.lookups - multiset{key})
    case Evicted(key) => w.(loaded := w.loaded - {key})
    case Kept(place, key) => WithStore(w, place, Store(w, place) + {key})
    case Cleared(key) => w.(objectives := w.objectives - {key})
    case Asked(record) => w.(journal := w.journal + [record])
    case AgentDeleted(binding, session) => w.(alive := w.alive - {(binding, session)})
    case Vanished(binding, session) => w.(alive := w.alive - {(binding, session)})
    case Settled(key) => w.(journal := WithConfirmed(w.journal, key))
    case Dropped(place, key) => WithStore(w, place, Store(w, place) - {key})
    case Finished(key) => w.(journal := WithoutRecord(w.journal, key))
    case Crashed => w.(lookups := multiset{}, loaded := {})
  }

  predicate Pending(w: World, session: Text) {
    exists r <- w.journal :: r.key.session == session
  }

  /** What may happen, and when. A request that did not find its chat loaded reads the
      association store outside the manager's lock; under the lock it is admitted when
      the chat is not reserved, whether or not the association is still there. */
  predicate Allowed(w: World, e: Event) {
    match e
    case Created(key, binding) => key.session !in w.used
    case Looked(key) => key in w.associations
    case Admitted(key) => key in w.lookups && !Pending(w, key.session)
    case Dismissed(key) => key in w.lookups
    case Evicted(key) => key in w.loaded
    case Kept(place, key) =>
      key in w.loaded && !Pending(w, key.session) && (place.Associations? ==> key in w.associations)
    case Cleared(key) => key in w.loaded && !Pending(w, key.session)
    case Asked(record) =>
      && record.phase == Requested && record.key in w.associations && record.key in w.loaded
      && !Pending(w, record.key.session)
    case AgentDeleted(binding, session) =>
      exists r <- w.journal :: r.key.session == session && r.binding == binding
    case Vanished(_, _) => true
    case Settled(key) =>
      forall r <- w.journal | r.key == key :: (r.binding, key.session) !in w.alive
    case Dropped(_, key) =>
      && key !in w.loaded
      && exists r <- w.journal :: r.key == key && (r.binding, key.session) !in w.alive
    case Finished(key) =>
      (exists r <- w.journal :: r.key == key && r.phase == Confirmed) && Gone(w, key) && key !in w.loaded
    case Crashed => true
  }

  // ------------------------------------------------------------------
  // What every run keeps
  // ------------------------------------------------------------------

  /** The keys of chats named by any store, by the journal or by a request. */
  predicate Names(w: World, key: Key) {
    || key in w.associations || key in w.objectives || key in w.queues
    || key in w.lookups || key in w.loaded
    || exists r <- w.journal :: r.key == key
  }

  ghost predicate Sound(w: World) {
    && Distinct(w.journal)
    && (forall r <- w.journal | r.phase == Confirmed :: (r.binding, r.key.session) !in w.alive)
    && (forall key | Names(w, key) :: key.session in w.used)
    && (forall key, other | Names(w, key) && Names(w, other) && key.session == other.session :: key == other)
    && (forall a <- w.alive :: a.1 in w.used)
  }

  /** Only a creation gives a name to a chat that had none. */
  lemma NamesComeFromCreation(w: World, e: Event, key: Key)
    requires Allowed(w, e) && Names(Apply(w, e), key)
    ensures Names(w, key) || (e.Created? && key == e.key)
  {
    match e {
      case Settled(k) => WithConfirmedIsTheSameChats(w.journal, k);
      case Finished(k) => WithoutRecordIsTheRest(w.journal, k);
      case Kept(_, k) => assert Names(w, k);
      case _ =>
    }
  }

  /** The journal after a step: one record per chat, and confirmed means gone. */
  predicate SoundJournal(w: World) {
    && Distinct(w.journal)
    && (forall r <- w.journal | r.phase == Confirmed :: (r.binding, r.key.session) !in w.alive)
    && (forall a <- w.alive :: a.1 in w.used)
    && (forall r <- w.journal :: r.key.session in w.used)
  }

  lemma StepKeepsJournal(w: World, e: Event)
    requires SoundJournal(w) && Allowed(w, e)
    requires e.Asked? ==> e.record.key.session in w.used
    ensures SoundJournal(Apply(w, e))
  {
    match e {
      case Settled(key) => WithConfirmedIsTheSameChats(w.journal, key);
      case Finished(key) => WithoutRecordIsTheRest(w.journal, key);
      case Asked(record) => forall r | r in w.journal ensures r.key.session != record.key.session {}
      case _ =>
    }
  }

  lemma {:induction false} StepKeepsSound(w: World, e: Event)
    requires Sound(w) && Allowed(w, e)
    ensures Sound(Apply(w, e))
  {
    var next := Apply(w, e);
    forall r | r in w.journal ensures r.key.session in w.used { assert Names(w, r.key); }
    if e.Asked? {
      assert Names(w, e.record.key);
    }
    StepKeepsJournal(w, e);
    assert w.used <= next.used && (e.Created? ==> e.key.session in next.used && e.key.session !in w.used);
    forall key | Names(next, key) ensures Names(w, key) || (e.Created? && key == e.key) {
      NamesComeFromCreation(w, e, key);
    }
    hide Names, Apply, Allowed, Distinct;
  }

  function Replay(w: World, events: seq<Event>): World {
    if events == [] then w else Apply(Replay(w, events[..|events| - 1]), events[|events| - 1])
  }

  /** A run in which every event was allowed when it happened, crashes of the
      controller among them. */
  predicate Legal(w: World, events: seq<Event>) {
    events == []
    || (Legal(w, events[..|events| - 1]) && Allowed(Replay(w, events[..|events| - 1]), events[|events| - 1]))
  }

  lemma LegalExtends(w: World, events: seq<Event>, e: Event)
    requires Legal(w, events) && Allowed(Replay(w, events), e)
    ensures Legal(w, events + [e]) && Replay(w, events + [e]) == Apply(Replay(w, events), e)
  {
    assert (events + [e])[..|events|] == events;
  }

  lemma {:induction false} RunKeepsSound(w: World, events: seq<Event>)
    requires Sound(w) && Legal(w, events)
    ensures Sound(Replay(w, events))
  {
    if events != [] {
      RunKeepsSound(w, events[..|events| - 1]);
      StepKeepsSound(Replay(w, events[..|events| - 1]), events[|events| - 1]);
    }
  }

  lemma {:induction false} PrefixIsLegal(w: World, events: seq<Event>, n: nat)
    requires Legal(w, events) && n <= |events|
    ensures Legal(w, events[..n])
  {
    if n < |events| {
      PrefixIsLegal(w, events[..|events| - 1], n);
      assert events[..|events| - 1][..n] == events[..n];
    } else {
      assert events[..n] == events;
    }
  }

  /** The state after the first n events. */
  function At(w: World, events: seq<Event>, n: nat): World
    requires n <= |events|
  {
    Replay(w, events[..n])
  }

  lemma AtNext(w: World, events: seq<Event>, n: nat)
    requires Sound(w) && Legal(w, events) && n < |events|
    ensures At(w, events, n + 1) == Apply(At(w, events, n), events[n])
    ensures Allowed(At(w, events, n), events[n]) && Sound(At(w, events, n))
  {
    PrefixIsLegal(w, events, n);
    PrefixIsLegal(w, events, n + 1);
    RunKeepsSound(w, events[..n]);
    assert events[..n + 1][..n] == events[..n];
  }

  /** An agent never regains a session it lost. */
  lemma {:induction false} LostStaysLost(w: World, events: seq<Event>, i: nat, j: nat, binding: Text, session: Text)
    requires Sound(w) && Legal(w, events) && i <= j <= |events|
    requires session in At(w, events, i).used && (binding, session) !in At(w, events, i).alive
    ensures session in At(w, events, j).used && (binding, session) !in At(w, events, j).alive
    decreases j
  {
    hide Sound, Legal, Replay;
    if i < j {
      LostStaysLost(w, events, i, j - 1, binding, session);
      AtNext(w, events, j - 1);
    }
  }

  /** The event takes the chat out of the store: behind a recorded deletion whose agent
      no longer has the session, or, of the objectives alone, by its user's clear. */
  ghost predicate Takes(w: World, e: Event, place: Place, key: Key) {
    || (&& e == Dropped(place, key)
        && exists r <- w.journal :: r.key == key && (r.binding, key.session) !in w.alive)
    || (e == Cleared(key) && place == Objectives && key in w.loaded && !Pending(w, key.session))
  }

  /** An event takes a chat out of a store that holds it exactly when it is one of those
      two. */
  lemma {:induction false} StoresLoseExactlyByDeletionOrClear(w: World, e: Event, place: Place, key: Key)
    requires Allowed(w, e) && key in Store(w, place)
    ensures key !in Store(Apply(w, e), place) <==> Takes(w, e, place, key)
  {
    if e.Dropped? || e.Kept? {
      match e.place {
        case Associations =>
        case Objectives =>
        case Queues =>
      }
    }
  }

  /** Whenever a store held a chat and no longer does, some event in between took it out
      in one of the two ways. */
  lemma {:induction false} WhatWentWasTaken(w: World, events: seq<Event>, i: nat, j: nat, place: Place, key: Key)
      returns (m: nat)
    requires Sound(w) && Legal(w, events) && i <= j <= |events|
    requires key in Store(At(w, events, i), place) && key !in Store(At(w, events, j), place)
    ensures i <= m < j && key in Store(At(w, events, m), place) && Takes(At(w, events, m), events[m], place, key)
    decreases j
  {
    hide Sound, Legal, Replay, Takes, Allowed, Apply;
    AtNext(w, events, j - 1);
    if key !in Store(At(w, events, j - 1), place) {
      m := WhatWentWasTaken(w, events, i, j - 1, place, key);
    } else {
      m := j - 1;
      StoresLoseExactlyByDeletionOrClear(At(w, events, m), events[m], place, key);
    }
  }

  /** Local state goes last: whenever a store held a chat and no longer does, and the store
      is not the objectives or no user cleared that chat's goal in between, there was a
      moment when the journal recorded its deletion, the recorded agent no longer had the
      session, and that agent has not had it since. */
  lemma {:induction false} LocalStateGoesAfterTheAgent(w: World, events: seq<Event>, i: nat, j: nat, place: Place, key: Key)
      returns (m: nat, r: Record)
    requires Sound(w) && Legal(w, events) && i <= j <= |events|
    requires key in Store(At(w, events, i), place) && key !in Store(At(w, events, j), place)
    requires place != Objectives || Cleared(key) !in events[i..j]
    ensures i <= m < j && r in At(w, events, m).journal && r.key == key
    ensures (r.binding, key.session) !in At(w, events, m).alive
    ensures (r.binding, key.session) !in At(w, events, j).alive
  {
    hide Sound, Legal, Replay;
    m := WhatWentWasTaken(w, events, i, j, place, key);
    assert events[i..j][m - i] == events[m] && events[m] in events[i..j];
    r :| r in At(w, events, m).journal && r.key == key && (r.binding, key.session) !in At(w, events, m).alive;
    AtNext(w, events, m);
    assert Names(At(w, events, m), key);
    LostStaysLost(w, events, m, j, r.binding, key.session);
  }

  /** No store, no journal record and no request names the chat, and its agent does not
      have it: there is nothing left that could bring it back. */
  ghost predicate Buried(w: World, binding: Text, session: Text) {
    && session in w.used
    && (binding, session) !in w.alive
    && (forall key | Names(w, key) :: key.session != session)
  }

  /** The chat is in no store, not at its agent and not being deleted. */
  predicate Absent(w: World, binding: Text, key: Key) {
    Gone(w, key) && (binding, key.session) !in w.alive && !Pending(w, key.session)
  }

  /** The part of it that lasts: no association, nothing at the agent, no deletion. */
  ghost predicate Forgotten(w: World, binding: Text, session: Text) {
    && session in w.used
    && (binding, session) !in w.alive
    && (forall key <- w.associations :: key.session != session)
    && !Pending(w, session)
  }

  lemma StepKeepsBuried(w: World, e: Event, binding: Text, session: Text)
    requires Sound(w) && Allowed(w, e) && Buried(w, binding, session)
    ensures Buried(Apply(w, e), binding, session)
  {
    forall key | Names(Apply(w, e), key) ensures key.session != session {
      NamesComeFromCreation(w, e, key);
    }
    hide Names, Sound;
  }

  lemma OtherEventsKeepPending(w: World, e: Event, r: Record)
    requires Sound(w) && r in w.journal && e != Finished(r.key)
    ensures Pending(Apply(w, e), r.key.session)
  {
    match e {
      case Settled(key) =>
        WithConfirmedIsTheSameChats(w.journal, key);
        assert (if r.key == key then r.(phase := Confirmed) else r) in Apply(w, e).journal;
      case Finished(key) =>
        WithoutRecordIsTheRest(w.journal, key);
        assert r in Apply(w, e).journal;
      case _ =>
        assert r in Apply(w, e).journal;
    }
  }

  lemma FinishingEndsPending(w: World, r: Record)
    requires Sound(w) && r in w.journal
    ensures !Pending(Apply(w, Finished(r.key)), r.key.session)
    ensures forall key <- Apply(w, Finished(r.key)).associations | Gone(w, r.key) :: key.session != r.key.session
  {
    WithoutRecordIsTheRest(w.journal, r.key);
    var next := Apply(w, Finished(r.key));
    assert Names(w, r.key);
    forall other | other in next.journal
      ensures other.key.session != r.key.session
    {
      assert Names(w, other.key);
    }
    forall key | key in next.associations && Gone(w, r.key)
      ensures key.session != r.key.session
    {
      assert Names(w, key);
    }
  }

  lemma StepKeepsForgotten(w: World, e: Event, binding: Text, session: Text)
    requires Sound(w) && Allowed(w, e) && Forgotten(w, binding, session)
    ensures Forgotten(Apply(w, e), binding, session)
  {
    match e {
      case Settled(k) => WithConfirmedIsTheSameChats(w.journal, k);
      case Finished(k) => WithoutRecordIsTheRest(w.journal, k);
      case _ =>
    }
  }

  lemma OnlyFinishingEndsPending(w: World, e: Event, r: Record)
    requires Sound(w) && Allowed(w, e) && r in w.journal && !Pending(Apply(w, e), r.key.session)
    ensures e == Finished(r.key) && Absent(Apply(w, e), r.binding, r.key)
    ensures Forgotten(Apply(w, e), r.binding, r.key.session)
  {
    if e != Finished(r.key) {
      OtherEventsKeepPending(w, e, r);
    }
    FinishingEndsPending(w, r);
    assert Names(w, r.key);
    var done :| done in w.journal && done.key == r.key && done.phase == Confirmed;
    assert done == r;
  }

  /** The journal goes last: when a recorded deletion is no longer in the journal, some
      event between ended it. At that moment the chat was in no local store and the
      recorded agent did not have it; and from then on, through any run, its association
      is not back, its agent does not have it and no deletion of it begins. */
  lemma {:induction false} JournalGoesLast(w: World, events: seq<Event>, i: nat, j: nat, r: Record) returns (m: nat)
    requires Sound(w) && Legal(w, events) && i <= j <= |events|
    requires r in At(w, events, i).journal && !Pending(At(w, events, j), r.key.session)
    ensures i <= m < j && events[m] == Finished(r.key) && Absent(At(w, events, m + 1), r.binding, r.key)
    ensures Forgotten(At(w, events, j), r.binding, r.key.session)
    decreases j
  {
    hide Sound, Allowed, Apply, Legal, Replay, Forgotten, Absent;
    assert Pending(At(w, events, i), r.key.session);
    AtNext(w, events, j - 1);
    var before := At(w, events, j - 1);
    if !Pending(before, r.key.session) {
      m := JournalGoesLast(w, events, i, j - 1, r);
      StepKeepsForgotten(before, events[j - 1], r.binding, r.key.session);
    } else {
      var kept := RecordStays(w, events, i, j - 1, r);
      OnlyFinishingEndsPending(before, events[j - 1], kept);
      m := j - 1;
    }
  }

  lemma ForgottenIsNotPending(w: World, e: Event, binding: Text, session: Text)
    requires Sound(w) && Allowed(w, e) && Forgotten(w, binding, session)
    ensures !Pending(Apply(w, e), session)
  {
    StepKeepsForgotten(w, e, binding, session);
  }

  /** While a deletion is pending its record keeps its chat and its agent. */
  lemma {:induction false} RecordStays(w: World, events: seq<Event>, i: nat, j: nat, r: Record) returns (kept: Record)
    requires Sound(w) && Legal(w, events) && i <= j <= |events|
    requires r in At(w, events, i).journal && Pending(At(w, events, j), r.key.session)
    ensures kept in At(w, events, j).journal && kept.key == r.key && kept.binding == r.binding
    decreases j
  {
    hide Sound, Allowed, Apply, Legal, Replay, Forgotten, Absent;
    kept := r;
    if i < j {
      AtNext(w, events, j - 1);
      var before, e := At(w, events, j - 1), events[j - 1];
      if !Pending(before, r.key.session) {
        var m := JournalGoesLast(w, events, i, j - 1, r);
        ForgottenIsNotPending(before, e, r.binding, r.key.session);
      } else {
        var last := RecordStays(w, events, i, j - 1, r);
        kept := PendingRecordSurvives(before, e, last);
      }
    }
  }

  lemma PendingRecordSurvives(w: World, e: Event, r: Record) returns (kept: Record)
    requires Sound(w) && Allowed(w, e) && r in w.journal && Pending(Apply(w, e), r.key.session)
    ensures kept in Apply(w, e).journal && kept.key == r.key && kept.binding == r.binding
  {
    kept := r;
    if e.Settled? {
      WithConfirmedIsTheSameChats(w.journal, e.key);
      kept := if r.key == e.key then r.(phase := Confirmed) else r;
    } else if e.Finished? {
      WithoutRecordIsTheRest(w.journal, e.key);
      FinishingEndsPending(w, r);
    }
  }

  // ------------------------------------------------------------------
  // What a finished deletion cannot prevent
  // ------------------------------------------------------------------

  lemma {:induction false} BuriedStays(w: World, events: seq<Event>, binding: Text, session: Text)
    requires Sound(w) && Legal(w, events) && Buried(w, binding, session)
    ensures Buried(Replay(w, events), binding, session)
  {
    if events != [] {
      BuriedStays(w, events[..|events| - 1], binding, session);
      RunKeepsSound(w, events[..|events| - 1]);
      StepKeepsBuried(Replay(w, events[..|events| - 1]), events[|events| - 1], binding, session);
    }
  }

  lemma BuriedIsAbsent(w: World, binding: Text, key: Key)
    requires Buried(w, binding, key.session)
    ensures Absent(w, binding, key)
  {
    forall other | other in w.journal
      ensures other.key.session != key.session
    {
      assert Names(w, other.key);
    }
  }

  lemma FinishingWithoutLookupsBuries(w: World, r: Record)
    requires Sound(w) && r in w.journal && Allowed(w, Finished(r.key)) && r.key !in w.lookups
    ensures Buried(Apply(w, Finished(r.key)), r.binding, r.key.session)
  {
    var next := Apply(w, Finished(r.key));
    OnlyFinishingEndsPendingNow(w, r);
    assert Names(w, r.key);
    forall key | Names(next, key) ensures key.session != r.key.session {
      WithoutRecordIsTheRest(w.journal, r.key);
      assert Names(w, key);
    }
  }

  lemma OnlyFinishingEndsPendingNow(w: World, r: Record)
    requires Sound(w) && r in w.journal && Allowed(w, Finished(r.key))
    ensures !Pending(Apply(w, Finished(r.key)), r.key.session)
    ensures Absent(Apply(w, Finished(r.key)), r.binding, r.key)
  {
    FinishingEndsPending(w, r);
    OnlyFinishingEndsPending(w, Finished(r.key), r);
  }

  /** A request that found the chat earlier loads it and stores its queue. */
  lemma {:induction false} LookupBringsBack(w: World, key: Key) returns (more: seq<Event>)
    requires key in w.lookups && !Pending(w, key.session)
    ensures Legal(w, more) && key in Replay(w, more).queues
  {
    var first, second := Admitted(key), Kept(Queues, key);
    more := [first, second];
    assert more[..1] == [first] && [first][..0] == [];
    assert Replay(w, [first]) == Apply(w, first);
    assert Allowed(Apply(w, first), second);
  }

  /** A deletion that ends leaves its chat absent in every continuation if and only if
      no request that looked the chat up before its association went is still to be
      admitted. */
  lemma {:induction false} AbsentForGoodExactlyWithoutLookups(w: World, r: Record)
    requires Sound(w) && r in w.journal && Allowed(w, Finished(r.key))
    ensures r.key !in w.lookups <==>
            forall more: seq<Event> | Legal(Apply(w, Finished(r.key)), more) ::
              Absent(Replay(Apply(w, Finished(r.key)), more), r.binding, r.key)
  {
    var done := Apply(w, Finished(r.key));
    StepKeepsSound(w, Finished(r.key));
    if r.key !in w.lookups {
      FinishingWithoutLookupsBuries(w, r);
      forall more: seq<Event> | Legal(done, more) ensures Absent(Replay(done, more), r.binding, r.key) {
        BuriedStays(done, more, r.binding, r.key.session);
        BuriedIsAbsent(Replay(done, more), r.binding, r.key);
      }
    } else {
      OnlyFinishingEndsPendingNow(w, r);
      var more := LookupBringsBack(done, r.key);
      assert !Absent(Replay(done, more), r.binding, r.key);
    }
  }

  /** Every lookup under way began while the chat still had its association. */
  lemma {:induction false} LookupsBeganEarlier(w: World, events: seq<Event>, j: nat, key: Key) returns (m: nat)
    requires Sound(w) && Legal(w, events) && j <= |events|
    requires key !in w.lookups && key in At(w, events, j).lookups
    ensures m < j && events[m] == Looked(key) && key in At(w, events, m).associations
    decreases j
  {
    hide Sound, Legal, Replay;
    if j == 0 {
      assert events[..0] == [];
      StartIsNow(w, events);
    } else {
      AtNext(w, events, j - 1);
      if key in At(w, events, j - 1).lookups {
        m := LookupsBeganEarlier(w, events, j - 1, key);
      } else {
        m := j - 1;
      }
    }
  }

  lemma StartIsNow(w: World, events: seq<Event>)
    ensures At(w, events, 0) == w
  {
    assert events[..0] == [];
  }

  /** Pixie's delete is sent only to the agent the journal names: if a session alive at an
      agent is gone later and the agent did not lose it by itself, the journal held a
      record of its deletion at that very agent. */
  lemma {:induction false} DeletesGoToTheRecordedAgent(w: World, events: seq<Event>, i: nat, j: nat, binding: Text, session: Text)
      returns (m: nat, r: Record)
    requires Sound(w) && Legal(w, events) && i <= j <= |events|
    requires (binding, session) in At(w, events, i).alive && (binding, session) !in At(w, events, j).alive
    requires Vanished(binding, session) !in events[i..j]
    ensures i <= m < j && r in At(w, events, m).journal && r.key.session == session && r.binding == binding
    decreases j
  {
    hide Sound, Legal, Replay;
    AtNext(w, events, j - 1);
    if (binding, session) !in At(w, events, j - 1).alive {
      assert forall e <- events[i..j - 1] :: e in events[i..j] by {
        assert events[i..j] == events[i..j - 1] + [events[j - 1]];
      }
      m, r := DeletesGoToTheRecordedAgent(w, events, i, j - 1, binding, session);
    } else {
      m := j - 1;
      assert events[j - 1] in events[i..j] by { assert events[i..j][j - 1 - i] == events[j - 1]; }
      r :| r in At(w, events, m).journal && r.key.session == session && r.binding == binding;
    }
  }

  // ------------------------------------------------------------------
  // The run that brings a deleted chat back
  // ------------------------------------------------------------------

  const NOTHING := World([], {}, {}, {}, {}, {}, multiset{}, {})
  const CHAT := Key("p", "s")
  const ASKED := Record(CHAT, "a", Requested)

  /** The chat of the run, unloaded, after two requests have found it. */
  const FOUND := World([], {CHAT}, {}, {}, {("a", "s")}, {"s"}, multiset{CHAT, CHAT}, {})

  /** The chat loaded by the first of them. */
  const FIRST := FOUND.(lookups := multiset{CHAT}, loaded := {CHAT})

  /** The deletion confirmed, the chat unloaded again. */
  const CONFIRMED := World([ASKED.(phase := Confirmed)], {CHAT}, {}, {}, {}, {"s"}, multiset{CHAT}, {})

  /** The deletion finished, with the second request still on its way. */
  const ENDED := World([], {}, {}, {}, {}, {"s"}, multiset{CHAT}, {})

  /** Without the condition on the objectives the result above fails: a user's clear takes
      the objective of a loaded chat, no deletion was ever recorded, and the agent still
      has the session. */
  lemma {:induction false} ClearGoesBeforeTheAgent() returns (run: seq<Event>)
    ensures Sound(NOTHING) && Legal(NOTHING, run) && |run| == 3 && run[2] == Cleared(CHAT)
    ensures CHAT in At(NOTHING, run, 2).objectives && CHAT !in At(NOTHING, run, 3).objectives
    ensures forall m | 0 <= m <= 3 :: At(NOTHING, run, m).journal == []
    ensures ("a", "s") in At(NOTHING, run, 3).alive
  {
    run := [Created(CHAT, "a"), Kept(Objectives, CHAT), Cleared(CHAT)];
    var w1, w2 := Apply(NOTHING, run[0]), Apply(Apply(NOTHING, run[0]), run[1]);
    assert run[..0] == [] && run[..1] == [run[0]] && run[..2] == [run[0], run[1]] && run[..3] == run;
    assert [run[0]][..0] == [] && [run[0], run[1]][..1] == [run[0]];
    assert Replay(NOTHING, [run[0]]) == w1;
    assert Replay(NOTHING, [run[0], run[1]]) == w2;
    assert Legal(NOTHING, [run[0]]);
    assert Legal(NOTHING, [run[0], run[1]]);
  }

  lemma {:induction false} TwoFind() returns (run: seq<Event>)
    ensures Legal(NOTHING, run) && Replay(NOTHING, run) == FOUND
  {
    run := [Created(CHAT, "a")];
    assert run[..0] == [];
    assert Legal(NOTHING, run);
    hide Legal, Replay;
    LegalExtends(NOTHING, run, Evicted(CHAT));
    run := run + [Evicted(CHAT)];
    LegalExtends(NOTHING, run, Looked(CHAT));
    run := run + [Looked(CHAT)];
    LegalExtends(NOTHING, run, Looked(CHAT));
    run := run + [Looked(CHAT)];
  }

  lemma {:induction false} FirstAsks(start: seq<Event>) returns (run: seq<Event>)
    requires Legal(NOTHING, start) && Replay(NOTHING, start) == FOUND
    ensures Legal(NOTHING, run) && Replay(NOTHING, run) == FIRST.(journal := [ASKED])
  {
    hide Legal, Replay;
    LegalExtends(NOTHING, start, Admitted(CHAT));
    run := start + [Admitted(CHAT)];
    LegalExtends(NOTHING, run, Asked(ASKED));
    run := run + [Asked(ASKED)];
  }

  lemma {:induction false} FirstConfirms(start: seq<Event>) returns (run: seq<Event>)
    requires Legal(NOTHING, start) && Replay(NOTHING, start) == FIRST.(journal := [ASKED])
    ensures Legal(NOTHING, run) && Replay(NOTHING, run) == CONFIRMED
  {
    hide Legal, Replay;
    assert ASKED in [ASKED];
    LegalExtends(NOTHING, start, AgentDeleted("a", "s"));
    run := start + [AgentDeleted("a", "s")];
    LegalExtends(NOTHING, run, Settled(CHAT));
    assert WithConfirmed([ASKED], CHAT) == [ASKED.(phase := Confirmed)];
    run := run + [Settled(CHAT)];
    LegalExtends(NOTHING, run, Evicted(CHAT));
    run := run + [Evicted(CHAT)];
  }

  lemma {:induction false} FirstDeletes(start: seq<Event>) returns (run: seq<Event>)
    requires Legal(NOTHING, start) && Replay(NOTHING, start) == CONFIRMED
    ensures Legal(NOTHING, run) && Replay(NOTHING, run) == ENDED && Finished(CHAT) in run
  {
    hide Legal, Replay;
    var r := ASKED.(phase := Confirmed);
    assert r in CONFIRMED.journal;
    LegalExtends(NOTHING, start, Dropped(Associations, CHAT));
    run := start + [Dropped(Associations, CHAT)];
    LegalExtends(NOTHING, run, Dropped(Objectives, CHAT));
    run := run + [Dropped(Objectives, CHAT)];
    LegalExtends(NOTHING, run, Dropped(Queues, CHAT));
    run := run + [Dropped(Queues, CHAT)];
    LegalExtends(NOTHING, run, Finished(CHAT));
    assert WithoutRecord([r], CHAT) == [];
    run := run + [Finished(CHAT)];
  }

  /** Two requests find the same unloaded chat. The first deletes it, completely; then
      the second, which the lock had kept waiting, loads it and stores its queue: the
      chat is in a store again, and no record says that it should go. */
  lemma {:induction false} StaleLookupRevivesADeletedChat() returns (run: seq<Event>)
    ensures Sound(NOTHING) && Legal(NOTHING, run) && Finished(CHAT) in run
    ensures CHAT in Replay(NOTHING, run).queues && Replay(NOTHING, run).journal == []
  {
    hide Legal, Replay;
    run := TwoFind();
    run := FirstAsks(run);
    run := FirstConfirms(run);
    run := FirstDeletes(run);
    LegalExtends(NOTHING, run, Admitted(CHAT));
    run := run + [Admitted(CHAT)];
    LegalExtends(NOTHING, run, Kept(Queues, CHAT));
    run := run + [Kept(Queues, CHAT)];
  }
}
