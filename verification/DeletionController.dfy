/** The controller's side of a chat deletion, step by step: the journal's methods, the
    deletion itself, and the recovery a restart runs before it serves anybody. Every
    durable change is entered in a ghost log, and every method keeps that log a legal
    run of the `Deletion` module. */
module DeletionController {
  import opened Base
  import opened Deletion

  /** How one load-change-save of a store file ends. */
  datatype Save = Save(readable: bool, outcome: Outcome)

  predicate Fine(save: Save) { save.readable && save.outcome.Saved? }

  ghost predicate Listed(journal: seq<Record>, session: Text) {
    exists r <- journal :: r.key.session == session
  }

  class Journal {
    var records: seq<Record>

    constructor (records: seq<Record>)
      ensures this.records == records
    {
      this.records := records;
    }

    /** Records the intent to delete. A record of the same chat and agent is accepted as
        it stands; one of another project or agent is an error. */
    method Request(key: Key, binding: Text, save: Save) returns (ok: bool)
      modifies this
      ensures Listed(old(records), key.session) ==> records == old(records)
      ensures !Listed(old(records), key.session) ==>
              && ok == Fine(save)
              && records == (if save.readable then Landed(old(records), old(records) + [Record(key, binding, Requested)], save.outcome) else old(records))
      ensures ok ==> exists r <- records :: r.key == key && r.binding == binding
      ensures Distinct(old(records)) && Listed(old(records), key.session) ==>
              (ok <==> save.readable && exists r <- records :: r.key == key && r.binding == binding)
    {
      if !save.readable {
        return false;
      }
      for i := 0 to |records|
        invariant records == old(records)
        invariant forall k :: 0 <= k < i ==> records[k].key.session != key.session
      {
        if records[i].key.session == key.session {
          return records[i].key.project == key.project && records[i].binding == binding;
        }
      }
      var next := records + [Record(key, binding, Requested)];
      assert next[|records|] in next;
      records := Landed(records, next, save.outcome);
      return save.outcome.Saved?;
    }

    /** Marks the deletion as committed by the agent. */
    method Confirm(key: Key, save: Save) returns (ok: bool)
      requires Distinct(records)
      modifies this
      ensures var known := save.readable && exists r <- old(records) :: r.key == key;
              && records == (if known then Landed(old(records), WithConfirmed(old(records), key), save.outcome) else old(records))
              && (ok <==> known && (save.outcome.Saved? || WithConfirmed(old(records), key) == old(records)))
      ensures ok ==> exists r <- records :: r.key == key && r.phase == Confirmed
    {
      if !save.readable {
        return false;
      }
      for i := 0 to |records|
        invariant records == old(records)
        invariant forall k :: 0 <= k < i ==> records[k].key != key
      {
        if records[i].key == key {
          var next := records[i := records[i].(phase := Confirmed)];
          assert next == WithConfirmed(records, key);
          assert next[i] in next;
          assert records[i] in records;
          if records[i].phase == Confirmed {
            assert next == records;
            return true;
          }
          assert next[i] != records[i];
          records := Landed(records, next, save.outcome);
          return save.outcome.Saved?;
        }
      }
      return false;
    }

    /** Ends the deletion. Nothing is written when there is nothing to remove. */
    method Forget(key: Key, save: Save) returns (ok: bool)
      modifies this
      ensures records == if save.readable then Landed(old(records), WithoutRecord(old(records), key), save.outcome) else old(records)
      ensures ok <==> save.readable && (save.outcome.Saved? || WithoutRecord(old(records), key) == old(records))
    {
      if !save.readable {
        return false;
      }
      var filtered := [];
      for i := 0 to |records|
        invariant records == old(records)
        invariant filtered == WithoutRecord(records[..i], key) && |filtered| <= i
        invariant |filtered| == i <==> filtered == records[..i]
      {
        assert records[..i + 1][..i] == records[..i];
        if records[i].key != key {
          filtered := filtered + [records[i]];
        }
      }
      assert records[..|records|] == records;
      if |filtered| == |records| {
        return true;
      }
      records := Landed(records, filtered, save.outcome);
      return save.outcome.Saved?;
    }
  }

  lemma EmptyOrHasARecord(journal: seq<Record>)
    ensures journal == [] || exists r :: r in journal
  {
    if journal != [] {
      assert journal[0] in journal;
    }
  }

  /** Only the records of one chat differ. */
  ghost predicate OthersKept(before: seq<Record>, after: seq<Record>, session: Text) {
    forall r: Record | r.key.session != session :: r in before <==> r in after
  }

  lemma ConfirmingKeepsOthers(journal: seq<Record>, key: Key)
    ensures OthersKept(journal, WithConfirmed(journal, key), key.session)
    ensures forall r <- journal | r.key == key :: exists after <- WithConfirmed(journal, key) :: after.key == key && after.binding == r.binding
  {
    WithConfirmedIsTheSameChats(journal, key);
  }

  lemma EndingKeepsOthers(journal: seq<Record>, key: Key)
    ensures OthersKept(journal, WithoutRecord(journal, key), key.session)
  {
    WithoutRecordIsTheRest(journal, key);
  }

  lemma RecordGoes(journal: seq<Record>, r: Record)
    requires r in journal
    ensures WithoutRecord(journal, r.key) != journal
  {
    WithoutRecordIsTheRest(journal, r.key);
  }

  /** The connected agent's profile; no binding when its identity is not stable. */
  datatype Profile = Profile(binding: Option<Text>, canDelete: bool)

  /** An agent that answers normally deletes the session or reports it missing. Any other
      error says nothing about whether the deletion was committed. */
  datatype Answer = Normal | Broken(committed: bool)

  /** What the surroundings do while one deletion or one recovery runs. */
  datatype Surroundings = Surroundings(
    listing: bool,
    profile: Text -> Option<Profile>,
    answer: Text -> Answer,
    request: Save,
    confirm: Text -> Save,
    drop: (Place, Text) -> Outcome,
    finish: Text -> Save)

  /** No failure for this record: the recorded agent is connected and everything works. */
  ghost predicate Smooth(env: Surroundings, r: Record) {
    && (r.phase == Requested ==>
          && env.profile(r.key.session) == Some(Profile(Some(r.binding), true))
          && env.answer(r.key.session) == Normal
          && Fine(env.confirm(r.key.session)))
    && (forall place :: env.drop(place, r.key.session) == Saved)
    && Fine(env.finish(r.key.session))
  }

  /** Nothing fails while the chat's deletion runs. */
  ghost predicate Unhindered(env: Surroundings, session: Text) {
    && env.profile(session).Some? && env.profile(session).value.canDelete && env.profile(session).value.binding.Some?
    && env.answer(session) == Normal && Fine(env.request) && Fine(env.confirm(session))
    && (forall place :: env.drop(place, session) == Saved) && Fine(env.finish(session))
  }

  function AfterDrop(keys: set<Key>, key: Key, outcome: Outcome): set<Key> {
    if outcome.FailedBefore? then keys else keys - {key}
  }

  /** The part of the world that survives a crash. */
  function Durable(w: World): World { w.(lookups := multiset{}, loaded := {}) }

  /** A step that touches another chat only, and brings nothing into a store. */
  ghost predicate OnlyOther(before: World, after: World, other: Text) {
    && OthersKept(before.journal, after.journal, other)
    && after.associations <= before.associations && after.objectives <= before.objectives
    && after.queues <= before.queues && after.alive <= before.alive && after.used == before.used
    && after.lookups == before.lookups && after.loaded == before.loaded
  }

  lemma NamedBefore(before: World, after: World, other: Text, key: Key)
    requires OnlyOther(before, after, other) && key.session != other && Names(after, key)
    ensures Names(before, key)
  {
  }

  lemma BuriedByOthers(before: World, after: World, other: Text, binding: Text, session: Text)
    requires Buried(before, binding, session) && session != other && OnlyOther(before, after, other)
    ensures Buried(after, binding, session)
  {
    forall key | Names(after, key) ensures key.session != session {
      if key.session != other {
        NamedBefore(before, after, other, key);
      }
    }
  }

  lemma BuriedIsNotListed(w: World, r: Record, session: Text)
    requires r in w.journal && (exists binding :: Buried(w, binding, session))
    ensures r.key.session != session
  {
    assert Names(w, r.key);
  }

  ghost predicate Named(journal: seq<Record>, key: Key, binding: Text) {
    exists r <- journal :: r.key == key && r.binding == binding
  }

  class Manager {
    const journal: Journal
    var associations: set<Key>
    var objectives: set<Key>
    var queues: set<Key>
    var lifecycle: set<Text>
    var loaded: set<Key>              // the chats in the manager's session table
    ghost var lookups: multiset<Key>  // requests that have found a chat and not entered it yet
    var serving: bool
    // The world outside: which sessions each agent has, and every identifier ever used.
    var alive: set<(Text, Text)>
    ghost var used: set<Text>
    ghost const origin: World
    ghost var log: seq<Event>

    ghost function Now(): World
      reads `associations, `objectives, `queues, `alive, `used, `loaded, `lookups, journal
    {
      World(journal.records, associations, objectives, queues, alive, used, lookups, loaded)
    }

    /** The log is a legal run from the origin to the present durable state. */
    ghost predicate Recorded()
      reads `associations, `objectives, `queues, `alive, `used, `loaded, `lookups, `log, journal
    {
      Sound(origin) && Legal(origin, log) && Replay(origin, log) == Now()
    }

    /** While the controller serves, every unfinished deletion keeps its chat reserved. */
    ghost predicate Valid()
      reads this, journal
    {
      Recorded() && (serving ==> forall r <- journal.records :: r.key.session in lifecycle)
    }

    constructor ()
      ensures Valid() && fresh(this) && fresh(journal) && !serving && log == []
    {
      journal := new Journal([]);
      associations, objectives, queues, lifecycle, serving := {}, {}, {}, {}, false;
      loaded, lookups := {}, multiset{};
      alive, used, log := {}, {}, [];
      origin := NOTHING;
    }

    ghost method Note(e: Event)
      requires Sound(origin) && Legal(origin, log) && Allowed(Replay(origin, log), e)
      requires Apply(Replay(origin, log), e) == Now()
      modifies this`log
      ensures Recorded() && log == old(log) + [e]
    {
      hide Sound, Legal, Allowed, Replay, Apply;
      LegalExtends(origin, log, e);
      log := log + [e];
    }

    lemma PresentIsSound()
      requires Recorded()
      ensures Sound(Now()) && Distinct(journal.records)
      ensures forall r, other | r in journal.records && other in journal.records && r.key.session == other.key.session :: r == other
    {
      RunKeepsSound(origin, log);
    }

    method DropFrom(place: Place, key: Key, outcome: Outcome) returns (ok: bool)
      requires Recorded() && Allowed(Now(), Dropped(place, key))
      modifies this`associations, this`objectives, this`queues, this`log
      ensures Recorded() && old(log) <= log
      ensures Now() == if outcome.FailedBefore? then old(Now()) else Apply(old(Now()), Dropped(place, key))
      ensures ok == outcome.Saved?
    {
      hide Sound, Legal, Allowed, Replay;
      ok := outcome.Saved?;
      if outcome.FailedBefore? {
        return;
      }
      match place {
        case Associations => associations := associations - {key};
        case Objectives => objectives := objectives - {key};
        case Queues => queues := queues - {key};
      }
      Note(Dropped(place, key));
    }

    /** Attempts all three stores, whichever of them fail. */
    method Cleanup(key: Key, env: Surroundings) returns (ok: bool)
      requires Recorded()
      requires key !in loaded && exists r <- journal.records :: r.key == key && (r.binding, key.session) !in alive
      modifies this`associations, this`objectives, this`queues, this`log
      ensures Recorded() && old(log) <= log
      ensures forall place :: Store(Now(), place) == AfterDrop(Store(old(Now()), place), key, env.drop(place, key.session))
      ensures ok <==> forall place :: env.drop(place, key.session).Saved?
      ensures associations <= old(associations) && objectives <= old(objectives) && queues <= old(queues)
      ensures ok ==> Gone(Now(), key)
    {
      hide Sound, Legal, Replay, Recorded;
      var first := DropFrom(Associations, key, env.drop(Associations, key.session));
      var second := DropFrom(Objectives, key, env.drop(Objectives, key.session));
      var third := DropFrom(Queues, key, env.drop(Queues, key.session));
      forall place: Place
        ensures Store(Now(), place) == AfterDrop(Store(old(Now()), place), key, env.drop(place, key.session))
      {
        match place case Associations => case Objectives => case Queues =>
      }
      ok := first && second && third;
    }

    /** Sends the deletion to the connected agent. */
    method Send(binding: Text, session: Text, answer: Answer) returns (deleted: bool)
      requires Recorded() && Allowed(Now(), AgentDeleted(binding, session))
      modifies this`alive, this`log
      ensures Recorded() && old(log) <= log
      ensures deleted == answer.Normal?
      ensures alive == if answer == Broken(false) then old(alive) else old(alive) - {(binding, session)}
    {
      hide Sound, Legal, Allowed, Replay;
      deleted := answer.Normal?;
      if answer != Broken(false) {
        alive := alive - {(binding, session)};
        Note(AgentDeleted(binding, session));
      }
    }
  
    method RecordRequest(key: Key, binding: Text, save: Save) returns (ok: bool)
      requires Recorded() && key in associations && key in loaded
      modifies journal, this`log
      ensures Recorded() && old(log) <= log
      ensures OthersKept(old(journal.records), journal.records, key.session)
      ensures ok ==> Named(journal.records, key, binding)
      ensures !Listed(old(journal.records), key.session) ==> ok == Fine(save)
    {
      hide Sound, Legal, Replay;
      ok := journal.Request(key, binding, save);
      if journal.records != old(journal.records) {
        Note(Asked(Record(key, binding, Requested)));
      }
    }

    method RecordConfirmation(key: Key, ghost binding: Text, save: Save) returns (ok: bool)
      requires Recorded() && Named(journal.records, key, binding) && (binding, key.session) !in alive
      modifies journal, this`log
      ensures Recorded() && old(log) <= log
      ensures OthersKept(old(journal.records), journal.records, key.session)
      ensures Named(journal.records, key, binding)
      ensures ok ==> Record(key, binding, Confirmed) in journal.records
      ensures Fine(save) ==> ok
    {
      hide Sound, Legal, Replay;
      PresentIsSound();
      ConfirmingKeepsOthers(journal.records, key);
      ghost var r :| r in journal.records && r.key == key && r.binding == binding;
      ok := journal.Confirm(key, save);
      if journal.records != old(journal.records) {
        Note(Settled(key));
      }
      PresentIsSound();
    }

    method RecordEnd(key: Key, ghost r: Record, save: Save) returns (ok: bool)
      requires Recorded() && r in journal.records && r.key == key && Allowed(Now(), Finished(key))
      modifies journal, this`log
      ensures Recorded() && old(log) <= log
      ensures OthersKept(old(journal.records), journal.records, r.key.session)
      ensures ok ==> !Pending(Now(), r.key.session)
      ensures ok && r.key !in lookups ==> Buried(Now(), r.binding, r.key.session)
      ensures Fine(save) ==> ok
    {
      hide Sound, Legal, Replay, Buried;
      PresentIsSound();
      EndingKeepsOthers(journal.records, r.key);
      FinishingEndsPending(Now(), r);
      if r.key !in lookups {
        FinishingWithoutLookupsBuries(Now(), r);
      }
      RecordGoes(journal.records, r);
      ok := journal.Forget(key, save);
      if journal.records != old(journal.records) {
        Note(Finished(key));
      }
    }

    /** What follows the agent's deletion: the chat is unloaded, and the stores are
        cleaned even when the confirmation was not written; the journal only ends once
        both succeeded. Unless another request has found the chat meanwhile, nothing is
        left that could bring it back. */
    method Complete(key: Key, binding: Text, env: Surroundings) returns (ok: bool)
      requires Recorded() && (binding, key.session) !in alive
      requires Named(journal.records, key, binding)
      modifies this`associations, this`objectives, this`queues, this`loaded, this`log, journal
      ensures Recorded() && old(log) <= log
      ensures OthersKept(old(journal.records), journal.records, key.session)
      ensures ok ==> Gone(Now(), key) && !Pending(Now(), key.session)
      ensures ok && key !in lookups ==> Buried(Now(), binding, key.session)
      ensures Unhindered(env, key.session) ==> ok
    {
      hide Sound, Legal, Replay, Recorded, AfterDrop, Distinct, Buried;
      PresentIsSound();
      var confirmed := RecordConfirmation(key, binding, env.confirm(key.session));
      Unload(key);
      var cleaned := Cleanup(key, env);
      ok := false;
      if confirmed && cleaned {
        ok := RecordEnd(key, Record(key, binding, Confirmed), env.finish(key.session));
      }
    }

    /** The chat leaves the session table: evicted, or deleted. */
    method Unload(key: Key)
      requires Recorded()
      modifies this`loaded, this`log
      ensures Recorded() && old(log) <= log && loaded == old(loaded) - {key}
    {
      hide Sound, Legal, Replay;
      if key in loaded {
        loaded := loaded - {key};
        Note(Evicted(key));
      }
    }

    /** A request that does not find its chat loaded reads the association store, and
        does not hold the manager's lock while it does. */
    method Look(key: Key) returns (found: bool)
      requires Recorded()
      modifies this`lookups, this`log
      ensures Recorded() && old(log) <= log && found == (key in associations)
      ensures lookups == if found then old(lookups) + multiset{key} else old(lookups)
    {
      hide Sound, Legal, Replay;
      found := key in associations;
      if found {
        lookups := lookups + multiset{key};
        Note(Looked(key));
      }
    }

    /** Under the lock it is turned away while the chat is reserved, and otherwise uses
        the loaded chat or loads it, without another look at the association. */
    method Admit(key: Key) returns (ok: bool)
      requires Valid() && serving && key in lookups
      modifies this`lookups, this`loaded, this`log
      ensures Valid() && old(log) <= log && ok == (key.session !in lifecycle)
      ensures lookups == old(lookups) - multiset{key}
      ensures loaded == if ok then old(loaded) + {key} else old(loaded)
    {
      hide Sound, Legal, Replay;
      lookups := lookups - multiset{key};
      ok := key.session !in lifecycle;
      if ok {
        loaded := loaded + {key};
        Note(Admitted(key));
      } else {
        Note(Dismissed(key));
      }
    }

    /** The chat as one request gets it: the loaded one, or the one it looks up. */
    method Enter(key: Key) returns (ok: bool)
      requires Valid() && serving
      modifies this`lookups, this`loaded, this`log
      ensures Valid() && old(log) <= log && lookups == old(lookups)
      ensures ok ==> key in loaded && key.session !in lifecycle
      ensures !ok ==> loaded == old(loaded)
      ensures key.session !in lifecycle && (key in old(loaded) || key in associations) ==> ok
    {
      hide Sound, Legal, Replay, Recorded;
      if key.session in lifecycle {
        return false;
      }
      if key in loaded {
        return true;
      }
      var found := Look(key);
      if !found {
        return false;
      }
      ok := Admit(key);
    }

    /** The deletion of a chat that is loaded and reserved. */
    method DeleteReserved(key: Key, binding: Text, overtaken: bool, env: Surroundings) returns (ok: bool)
      requires Recorded() && key in associations && key in loaded
      modifies this`associations, this`objectives, this`queues, this`alive, this`loaded, this`lookups, this`log, journal
      ensures Recorded() && old(log) <= log
      ensures OthersKept(old(journal.records), journal.records, key.session)
      ensures ok ==> Gone(Now(), key) && !Pending(Now(), key.session) && (binding, key.session) !in alive
      ensures ok && key !in lookups ==> Buried(Now(), binding, key.session)
      ensures lookups == old(lookups) || (overtaken && lookups == old(lookups) + multiset{key})
      ensures !Listed(old(journal.records), key.session) && Unhindered(env, key.session) ==> ok
    {
      hide Sound, Legal, Replay, Recorded, AfterDrop, Buried, Gone, Pending, Listed;
      var recorded := RecordRequest(key, binding, env.request);
      if !recorded {
        return false;
      }
      var deleted := Send(binding, key.session, env.answer(key.session));
      if !deleted {
        return false;
      }
      if overtaken {
        // Another request is looking for the chat and still finds its association.
        var found := Look(key);
      }
      ok := Complete(key, binding, env);
    }

    /** Deletes a chat on a user's request. Success means it is nowhere any more, and
        that nothing can bring it back unless another request found it while the
        deletion ran; an error that leaves the outcome open keeps the chat reserved until
        a restart reconciles it; any other error has changed nothing durable. */
    method Delete(key: Key, busy: bool, attached: bool, overtaken: bool, env: Surroundings) returns (ok: bool)
      requires Valid() && serving
      modifies this, journal
      ensures Valid() && serving && old(log) <= log
      ensures ok ==> Gone(Now(), key) && !Pending(Now(), key.session) && key.session !in lifecycle
      ensures ok ==>
                && env.profile(key.session).Some? && env.profile(key.session).value.binding.Some?
                && var binding := env.profile(key.session).value.binding.value;
                   && (binding, key.session) !in alive
                   && (key !in lookups ==> Buried(Now(), binding, key.session))
      ensures lookups == old(lookups) || (overtaken && lookups == old(lookups) + multiset{key})
      ensures !ok && key.session !in lifecycle ==> Durable(Now()) == Durable(old(Now())) && lifecycle == old(lifecycle)
      ensures key in old(associations) && key.session !in old(lifecycle) && !busy && attached && Unhindered(env, key.session) ==> ok
      ensures var profile := env.profile(key.session);
              var tried := key.session !in old(lifecycle) && !busy && attached && key in old(associations)
                           && profile.Some? && profile.value.canDelete && profile.value.binding.Some?;
              && lifecycle == (if tried && !ok then old(lifecycle) + {key.session} else old(lifecycle))
              && (!tried ==> !ok)
    {
      hide Sound, Legal, Replay, Recorded, AfterDrop, Buried, Gone;
      var entered := Enter(key);
      if !entered || busy {
        return false;
      }
      lifecycle := lifecycle + {key.session};
      var profile := env.profile(key.session);
      if profile.None? || !profile.value.canDelete || !attached || key !in associations || profile.value.binding.None? {
        lifecycle := lifecycle - {key.session};
        return false;
      }
      var binding := profile.value.binding.value;
      ok := DeleteReserved(key, binding, overtaken, env);
      if ok {
        lifecycle := lifecycle - {key.session};
      }
    }

    /** One record of a recovery, which runs before any request is served. */
    method RecoverOne(r: Record, env: Surroundings) returns (ok: bool)
      requires Recorded() && r in journal.records && loaded == {} && lookups == multiset{}
      modifies this`associations, this`objectives, this`queues, this`alive, this`log, journal
      ensures Recorded() && old(log) <= log
      ensures alive <= old(alive)
      ensures associations <= old(associations) && objectives <= old(objectives) && queues <= old(queues)
      ensures OthersKept(old(journal.records), journal.records, r.key.session)
      ensures ok ==> Over(r)
      ensures Smooth(env, r) ==> ok
      ensures alive != old(alive) ==> r.phase == Requested && exists profile: Profile ::
                env.profile(r.key.session) == Some(profile) && profile.binding == Some(r.binding) && profile.canDelete
    {
      hide Sound, Legal, Replay, Recorded, AfterDrop, Buried;
      PresentIsSound();
      ok := false;
      if r.phase == Requested {
        var profile := env.profile(r.key.session);
        if profile.None? || profile.value.binding.None? || profile.value.binding.value != r.binding || !profile.value.canDelete {
          return;
        }
        var deleted := Send(r.binding, r.key.session, env.answer(r.key.session));
        if !deleted {
          return;
        }
        var confirmed := RecordConfirmation(r.key, r.binding, env.confirm(r.key.session));
        if !confirmed {
          return;
        }
      }
      var cleaned := Cleanup(r.key, env);
      if !cleaned {
        return;
      }
      ok := RecordEnd(r.key, r.(phase := Confirmed), env.finish(r.key.session));
    }

    /** Nothing of the deleted chat is left, and nothing that could bring it back. */
    ghost predicate Over(r: Record)
      reads `associations, `objectives, `queues, `alive, `used, `loaded, `lookups, journal
    {
      Buried(Now(), r.binding, r.key.session)
    }

    /** Works through every unfinished deletion, whichever of them fail: each one around
        which nothing fails is over, whatever the others meet. Without a failure they are
        all over, and without a failure in the surroundings none fails. */
    method Recover(env: Surroundings) returns (ok: bool)
      requires Recorded() && loaded == {} && lookups == multiset{}
      modifies this`associations, this`objectives, this`queues, this`alive, this`log, journal
      ensures Recorded() && old(log) <= log
      ensures ok ==> journal.records == [] && forall r <- old(journal.records) :: Over(r)
      ensures env.listing ==> forall r <- old(journal.records) | Smooth(env, r) :: Over(r)
      ensures env.listing && (forall r <- old(journal.records) :: Smooth(env, r)) ==> ok
      ensures !env.listing ==> !ok && Now() == old(Now())
    {
      hide Sound, Legal, Replay, Recorded, Smooth, Buried;
      if !env.listing {
        return false;
      }
      PresentIsSound();
      var records, failures := journal.records, 0;
      for i := 0 to |records|
        invariant Recorded() && old(log) <= log && alive <= old(alive)
        invariant forall k :: i <= k < |records| ==> records[k] in journal.records
        invariant forall r <- journal.records :: Listed(records, r.key.session)
        invariant forall k | 0 <= k < i && (failures == 0 || Smooth(env, records[k])) :: Over(records[k])
        invariant (forall r <- records :: Smooth(env, r)) ==> failures == 0
      {
        ghost var before := Now();
        var recovered := RecoverOne(records[i], env);
        if !recovered {
          failures := failures + 1;
        }
        forall r | r in journal.records
          ensures Listed(records, r.key.session)
        {
          if r.key.session != records[i].key.session { assert r in before.journal; }
        }
        forall k | 0 <= k < i && (failures == 0 || Smooth(env, records[k]))
          ensures Over(records[k])
        {
          assert records[k].key.session != records[i].key.session;
          BuriedByOthers(before, Now(), records[i].key.session, records[k].binding, records[k].key.session);
        }
      }
      ok := failures == 0;
      if ok {
        forall r: Record
          ensures r !in journal.records
        {
          if r in journal.records {
            var k :| 0 <= k < |records| && records[k].key.session == r.key.session;
            BuriedIsNotListed(Now(), r, records[k].key.session);
          }
        }
        EmptyOrHasARecord(journal.records);
      }
    }

    /** A crash loses the reservations, the loaded chats and every request under way;
        nothing is served before the recovery succeeded, and then no deleted chat can
        come back. */
    method Restart(env: Surroundings) returns (ok: bool)
      requires Recorded()
      modifies this, journal
      ensures Valid() && old(log) <= log && serving == ok
      ensures ok ==> journal.records == [] && forall r <- old(journal.records) :: Over(r)
      ensures env.listing ==> forall r <- old(journal.records) | Smooth(env, r) :: Over(r)
      ensures env.listing && (forall r <- old(journal.records) :: Smooth(env, r)) ==> ok
    {
      hide Sound, Legal, Replay, Recorded, Smooth, Buried;
      Stop();
      ok := Recover(env);
      serving := ok;
    }

    method Stop()
      requires Recorded()
      modifies this`lifecycle, this`serving, this`loaded, this`lookups, this`log
      ensures Recorded() && old(log) <= log && !serving
      ensures loaded == {} && lookups == multiset{} && lifecycle == {}
    {
      hide Sound, Legal, Replay;
      lifecycle, serving, loaded, lookups := {}, false, {}, multiset{};
      Note(Crashed);
    }

    /** A request that holds a loaded chat stores a title, an objective or its queue. */
    method Keep(place: Place, key: Key, outcome: Outcome) returns (ok: bool)
      requires Valid() && serving
      modifies this`objectives, this`queues, this`associations, this`log
      ensures Valid() && old(log) <= log
      ensures var admitted := key in loaded && key.session !in lifecycle && (place.Associations? ==> key in old(associations));
              Now() == if admitted && !outcome.FailedBefore? then Apply(old(Now()), Kept(place, key)) else old(Now())
      ensures ok <==>
                && key in loaded && key.session !in lifecycle && outcome.Saved?
                && (place.Associations? ==> key in old(associations))
    {
      hide Sound, Legal, Replay;
      if key !in loaded || key.session in lifecycle || (place.Associations? && key !in associations) {
        return false;
      }
      ok := outcome.Saved?;
      if !outcome.FailedBefore? {
        match place {
          case Associations => associations := associations + {key};
          case Objectives => objectives := objectives + {key};
          case Queues => queues := queues + {key};
        }
        Note(Kept(place, key));
      }
    }

    /** A user clears the goal of a loaded chat. Tasks that the objective also holds are
        kept, by a write; without any its file goes, and with it the chat's place in the
        objective store, while the chat itself stays. */
    method Clear(key: Key, tasks: bool, save: Save) returns (ok: bool)
      requires Valid() && serving
      modifies this`objectives, this`log
      ensures Valid() && old(log) <= log
      ensures ok <==>
                && key in loaded && key.session !in lifecycle
                && save.readable && (key in old(objectives) ==> save.outcome.Saved?)
      ensures var goes := key in loaded && key.session !in lifecycle && save.readable && key in old(objectives)
                          && !tasks && !save.outcome.FailedBefore?;
              Now() == if goes then Apply(old(Now()), Cleared(key)) else old(Now())
    {
      hide Sound, Legal, Replay;
      if key !in loaded || key.session in lifecycle || !save.readable {
        return false;
      }
      if key !in objectives {
        return true;
      }
      ok := save.outcome.Saved?;
      if !tasks && !save.outcome.FailedBefore? {
        objectives := objectives - {key};
        Note(Cleared(key));
      }
    }

    /** Associates a chat the agent has just created under a new identifier. */
    method Create(key: Key, binding: Text)
      requires Valid() && serving && key.session !in used
      modifies this`associations, this`alive, this`used, this`loaded, this`log
      ensures Valid() && old(log) <= log
      ensures Now() == Apply(old(Now()), Created(key, binding))
    {
      hide Sound, Legal, Replay;
      associations, alive, used := associations + {key}, alive + {(binding, key.session)}, used + {key.session};
      loaded := loaded + {key};
      Note(Created(key, binding));
    }
  }
}
