/** The single-flight connection to the Pi agent host. Every critical section is one
    method; whatever other goroutines do in between is a list of such sections. */
module PiConnection {
  import opened Base

  type Generation = nat
  type Profile = string

  /** A connection is known by the generation its attempt dialled with; all its
      notifications carry that generation. */
  datatype Connection = Connection(generation: Generation, profile: Profile)

  /** A finished attempt either installed its connection or has an error. */
  datatype Attempt = Attempt(generation: Generation, done: bool, failed: bool)

  datatype Verdict = Refused | Have(connection: Connection, generation: Generation) | Wait(attempt: nat)

  /** One critical section of some other goroutine, or a connection dying by itself. */
  datatype Action =
    | Probe(expected: Option<Generation>, waited: bool)
    | Finish(attempt: nat, outcome: Option<Profile>)
    | Publish(generation: Generation)
    | Disconnect(shutdown: bool)
    | Drop(dropped: Connection)
    | Die(dead: Connection)

  /** The action neither ends this attempt nor closes the connection it dials. */
  predicate Spares(action: Action, attempt: nat) {
    match action
    case Probe(_, _) => true
    case Finish(other, _) => other != attempt
    case Publish(_) => true
    case Disconnect(_) => false
    case Drop(dropped) => dropped.generation != attempt + 1
    case Die(dead) => dead.generation != attempt + 1
  }

  /** The k-th of the actions ends this attempt, with this outcome, and the others spare it. */
  predicate Ends(actions: seq<Action>, k: nat, attempt: nat, outcome: Option<Profile>) {
    && k < |actions| && actions[k] == Finish(attempt, outcome)
    && forall i :: 0 <= i < |actions| && i != k ==> Spares(actions[i], attempt)
  }

  /** The attempt has ended so, and what it dialled is connected unless it was dead. */
  ghost predicate Ended(attempts: seq<Attempt>, connection: Option<Connection>, done: set<Connection>,
                        attempt: nat, outcome: Option<Profile>, before: set<Connection>) {
    && attempt < |attempts| && attempts[attempt].done && attempts[attempt].failed == outcome.None?
    && (outcome.Some? && Connection(attempt + 1, outcome.value) !in before ==>
          && connection == Some(Connection(attempt + 1, outcome.value)) && connection.value !in done)
  }

  /** The actions leave this connection alone. */
  predicate Leave(actions: seq<Action>, generation: Generation) {
    generation > 0 && forall action <- actions :: Spares(action, generation - 1)
  }

  predicate Increasing(s: seq<nat>) {
    forall i, j :: 0 <= i < j < |s| ==> s[i] < s[j]
  }

  lemma IncreasingExtends(s: seq<nat>, x: nat)
    requires Increasing(s) && forall y <- s :: y < x
    ensures Increasing(s + [x])
  {
    assert forall i :: 0 <= i < |s| ==> s[i] in s;
  }

  lemma IncreasingIsBounded(s: seq<nat>, x: nat)
    requires Increasing(s) && (if s == [] then 0 else s[|s| - 1]) < x
    ensures forall y <- s :: y < x
  {
  }

  class PiClient {
    var connection: Option<Connection>
    var connecting: Option<nat>
    var attempts: seq<Attempt>
    var closed: bool
    var generation: Generation
    var notified: Generation
    // Connections whose channel is done, and profiles installed but not yet announced.
    var done: set<Connection>
    var publishing: set<Generation>
    ghost var installed: seq<Generation>
    ghost var published: seq<Generation>

    ghost predicate Valid()
      reads this
    {
      // An attempt's generation is never used twice.
      && generation == |attempts|
      && (forall a :: 0 <= a < |attempts| ==> attempts[a].generation == a + 1)
      // Single flight: the newest attempt is the only one that can be unfinished.
      && (forall a :: 0 <= a < |attempts| && !attempts[a].done ==> connecting == Some(a) && a == |attempts| - 1)
      && (connecting.Some? ==> connecting.value < |attempts| && !attempts[connecting.value].done)
      // A connection is current, and there is never one beside an attempt.
      && (connection.Some? ==> connecting.None? && connection.value.generation == generation && generation > 0)
      // Only attempts that ended without an error were installed, each once.
      && Increasing(installed)
      && (forall g <- installed :: 0 < g <= |attempts| && attempts[g - 1].done && !attempts[g - 1].failed)
      && (connection.Some? ==> connection.value.generation in installed)
      // Announced profiles are of installed connections, newest last.
      && (forall g <- publishing :: g in installed)
      && (forall g <- published :: g in installed)
      && Increasing(published)
      && notified == (if published == [] then 0 else published[|published| - 1])
    }

    /** What no critical section can undo. */
    twostate predicate Advanced()
      reads this
    {
      && old(generation) <= generation
      && old(installed) <= installed
      && old(published) <= published
      && |old(attempts)| <= |attempts|
      && (forall a :: 0 <= a < |old(attempts)| && old(attempts)[a].done ==> attempts[a] == old(attempts)[a])
      && old(done) <= done
      && (old(closed) ==> closed)
    }

    /** A caller with this expectation can be served at once. */
    predicate Serves(expected: Option<Generation>)
      reads this
    {
      !closed && connection.Some? && connection.value !in done && (expected.Some? ==> expected.value == generation)
    }

    /** A caller gets a connection: it can be served at once, or the attempt it waits for
        succeeds and what that dialled does not die. */
    ghost predicate Reaches(expected: Option<Generation>, meanwhile: seq<Action>)
      reads this
    {
      Serves(expected)
      || (!closed && expected.None? && exists k: nat, profile :: Arrives(meanwhile, k, profile))
    }

    ghost predicate Arrives(meanwhile: seq<Action>, k: nat, profile: Profile)
      reads this
    {
      Ends(meanwhile, k, Awaited(), Some(profile)) && Connection(Awaited() + 1, profile) !in done
    }

    /** The generation of the connection that a caller gets, if it gets one. */
    function Coming(): Generation
      reads this
    {
      if Serves(None) then generation else Awaited() + 1
    }

    /** The attempt a caller has to wait for: the one under way, or a new one. */
    function Awaited(): nat
      reads this
    {
      if connecting.Some? then connecting.value else |attempts|
    }

    constructor ()
      ensures Valid() && connection.None? && published == []
    {
      connection, connecting, attempts, closed, generation, notified := None, None, [], false, 0, 0;
      done, publishing, installed, published := {}, {}, [], [];
    }

    /** One pass of the readiness loop: a usable connection, an error, or an attempt to
        wait for, which is started when there is none. */
    method Check(expected: Option<Generation>, waited: bool) returns (verdict: Verdict)
      requires Valid()
      modifies this
      ensures Valid() && Advanced()
      ensures verdict.Have? ==>
              && connection == Some(verdict.connection) && verdict.connection !in done
              && verdict.generation == verdict.connection.generation == generation
              && (expected.Some? ==> expected.value == generation)
              && attempts == old(attempts)
      ensures verdict.Have? <==> old(Serves(expected))
      ensures old(Serves(expected)) ==> connection == old(connection) && done == old(done) && generation == old(generation)
      ensures closed == old(closed)
      ensures verdict.Wait? <==> !old(Serves(expected)) && !closed && expected.None? && !waited
      ensures verdict.Wait? ==>
              && connecting == Some(verdict.attempt) && verdict.attempt == old(Awaited()) && connection.None?
              && done == old(done) + (if old(connection).Some? then {old(connection).value} else {})
              && attempts == if old(connecting).Some? then old(attempts) else old(attempts) + [Attempt(verdict.attempt + 1, false, false)]
      ensures verdict.Refused? ==> attempts == old(attempts) && connecting == old(connecting) && done == old(done)
      ensures verdict.Refused? ==> connection == if closed || expected.Some? then old(connection) else None
    {
      hide Increasing;
      if closed {
        return Refused;
      }
      if expected.Some? {
        if expected.value == 0 || connection.None? || generation != expected.value || connection.value in done {
          return Refused;
        }
      }
      var previous := connection;
      if previous.Some? && previous.value !in done {
        return Have(previous.value, generation);
      }
      if waited {
        connection := None;
        return Refused;
      }
      connection := None;
      if connecting.None? {
        generation := generation + 1;
        attempts := attempts + [Attempt(generation, false, false)];
        connecting := Some(|attempts| - 1);
      }
      if previous.Some? {
        done := done + {previous.value};
      }
      return Wait(connecting.value);
    }

    /** An attempt's network work is over. It is installed only if it is still the
        current attempt; a retired one closes what it dialled. */
    method FinishConnect(attempt: nat, outcome: Option<Profile>)
      requires Valid()
      modifies this
      ensures Valid() && Advanced()
      ensures closed == old(closed) && generation == old(generation) && published == old(published)
      ensures old(connecting) == Some(attempt) ==>
              && connecting.None? && attempts == old(attempts)[attempt := Attempt(attempt + 1, true, outcome.None?)]
              && done == old(done)
      ensures old(connecting) == Some(attempt) && outcome.Some? ==>
              && connection == Some(Connection(attempt + 1, outcome.value)) && installed == old(installed) + [attempt + 1]
              && publishing == old(publishing) + {attempt + 1}
      ensures old(connecting) == Some(attempt) && outcome.None? ==>
              connection.None? && installed == old(installed) && publishing == old(publishing)
      ensures old(connecting) != Some(attempt) ==>
              && connection == old(connection) && connecting == old(connecting) && installed == old(installed)
              && attempts == old(attempts) && publishing == old(publishing)
              && done == if outcome.Some? && attempt < |attempts| then old(done) + {Connection(attempt + 1, outcome.value)} else old(done)
    {
      hide Increasing;
      if connecting == Some(attempt) {
        connecting := None;
        attempts := attempts[attempt := attempts[attempt].(done := true, failed := outcome.None?)];
        if outcome.Some? {
          IncreasingExtends(installed, attempt + 1);
          connection := Some(Connection(attempts[attempt].generation, outcome.value));
          publishing := publishing + {attempt + 1};
          installed := installed + [attempt + 1];
        }
      } else if outcome.Some? && attempt < |attempts| {
        done := done + {Connection(attempts[attempt].generation, outcome.value)};
      }
    }

    /** Announces a profile unless a newer one was announced already. */
    method PublishProfile(announced: Generation)
      requires Valid()
      modifies this
      ensures Valid() && Advanced()
      ensures published == if announced in old(publishing) && announced > old(notified) then old(published) + [announced] else old(published)
      ensures publishing == old(publishing) - {announced}
      ensures connection == old(connection) && attempts == old(attempts) && connecting == old(connecting)
      ensures done == old(done) && closed == old(closed) && installed == old(installed)
    {
      hide Increasing;
      if announced !in publishing {
        return;
      }
      publishing := publishing - {announced};
      if announced <= notified {
        return;
      }
      IncreasingIsBounded(published, announced);
      IncreasingExtends(published, announced);
      notified := announced;
      published := published + [announced];
    }

    /** Reset or shutdown: retires the current attempt and closes the connection. */
    method DisconnectAll(shutdown: bool)
      requires Valid()
      modifies this
      ensures Valid() && Advanced()
      ensures connection.None? && connecting.None? && closed == (old(closed) || shutdown)
      ensures |attempts| == |old(attempts)| && installed == old(installed)
      ensures done == old(done) + (if old(connection).Some? then {old(connection).value} else {})
      ensures forall a :: 0 <= a < |attempts| && !old(attempts)[a].done ==> attempts[a].done && attempts[a].failed
    {
      hide Increasing;
      closed := closed || shutdown;
      var previous := connection;
      connection := None;
      var attempt := connecting;
      connecting := None;
      if attempt.Some? {
        attempts := attempts[attempt.value := attempts[attempt.value].(done := true, failed := true)];
      }
      if previous.Some? {
        done := done + {previous.value};
      }
    }

    method DropConnection(dropped: Connection)
      requires Valid()
      modifies this
      ensures Valid() && Advanced()
      ensures connection == if old(connection) == Some(dropped) then None else old(connection)
      ensures attempts == old(attempts) && connecting == old(connecting)
      ensures done == old(done) + {dropped} && closed == old(closed)
    {
      if connection == Some(dropped) {
        connection := None;
      }
      done := done + {dropped};
    }

    /** Any interleaving of other goroutines' critical sections. */
    method Interfere(actions: seq<Action>)
      requires Valid()
      modifies this
      ensures Valid() && Advanced()
      ensures actions == [] ==> connection == old(connection) && done == old(done) && generation == old(generation) && closed == old(closed)
      ensures old(Serves(None)) && Leave(actions, old(generation)) ==> Serves(Some(old(generation)))
      ensures old(connecting).Some? ==>
                forall k: nat, outcome | Ends(actions, k, old(connecting).value, outcome) ::
                  closed == old(closed) && Ended(attempts, connection, done, old(connecting).value, outcome, old(done))
    {
      hide Increasing;
      ghost var profile := if connection.Some? then connection.value.profile else "";
      if Serves(None) {
        CurrentHasEnded();
      }
      for i := 0 to |actions|
        invariant Valid() && Advanced()
        invariant i == 0 ==> connection == old(connection) && done == old(done) && generation == old(generation) && closed == old(closed)
        invariant old(Serves(None)) && Leave(actions, old(generation)) ==>
                    !closed && Ended(attempts, connection, done, old(generation) - 1, Some(profile), {})
        invariant old(connecting).Some? ==>
                    forall k: nat, outcome | Ends(actions, k, old(connecting).value, outcome) ::
                      && closed == old(closed)
                      && if i <= k then Underway(old(connecting).value, old(done)) else Ended(attempts, connection, done, old(connecting).value, outcome, old(done))
      {
        if old(Serves(None)) && Leave(actions, old(generation)) {
          assert actions[i] in actions;
          assert Spares(actions[i], old(generation) - 1);
        }
        Act(actions[i]);
      }
    }

    lemma CurrentHasEnded()
      requires Valid() && connection.Some? && connection.value !in done
      ensures generation > 0 && Ended(attempts, connection, done, generation - 1, Some(connection.value.profile), {})
    {
      hide Increasing;
    }

    /** One of them. What spares an attempt leaves it, and the connection it dials, alone. */
    method Act(action: Action)
      requires Valid()
      modifies this
      ensures Valid() && Advanced()
      ensures !action.Disconnect? ==> closed == old(closed)
      ensures action.Die? ==> done == old(done) + {action.dead} && connection == old(connection) && attempts == old(attempts)
      ensures forall attempt, before | Spares(action, attempt) && old(Underway(attempt, before)) :: Underway(attempt, before)
      ensures forall attempt, before, outcome: Option<Profile> | Spares(action, attempt) && Ended(old(attempts), old(connection), old(done), attempt, outcome, before) ::
                Ended(attempts, connection, done, attempt, outcome, before)
      ensures action.Finish? ==> forall before | old(Underway(action.attempt, before)) :: Ended(attempts, connection, done, action.attempt, action.outcome, before)
    {
      hide Increasing;
      match action {
        case Probe(expected, waited) => var verdict := Check(expected, waited);
        case Finish(attempt, outcome) => FinishConnect(attempt, outcome);
        case Publish(announced) => PublishProfile(announced);
        case Disconnect(shutdown) => DisconnectAll(shutdown);
        case Drop(dropped) => DropConnection(dropped);
        case Die(dead) => done := done + {dead};
      }
    }

    /** The attempt still runs, and nothing of it has died that was not dead before. */
    ghost predicate Underway(attempt: nat, before: set<Connection>)
      reads this
    {
      && connecting == Some(attempt) && connection.None? && attempt < |attempts| && !attempts[attempt].done
      && forall c <- done :: c.generation == attempt + 1 ==> c in before
    }

    /** Waits until the host is connected. Whatever happens meanwhile, what is returned
        was current at that moment, alive, and carries its own generation; a caller that
        expects a generation never gets another, and an attempt retired meanwhile is
        reported as an error. */
    method Ready(expected: Option<Generation>, meanwhile: seq<Action>) returns (result: Option<Connection>, paired: Generation)
      requires Valid()
      modifies this
      ensures Valid() && Advanced()
      ensures result.Some? ==>
              && connection == result && Serves(Some(paired))
              && paired == result.value.generation == generation
              && (expected.Some? ==> expected.value == paired)
      ensures old(Serves(expected)) ==> result == old(connection)
      ensures result.Some? && !old(Serves(expected)) ==>
                expected.None? && old(Awaited()) < |attempts| && attempts[old(Awaited())].done && !attempts[old(Awaited())].failed
      ensures old(Reaches(expected, meanwhile)) ==> result.Some? && paired == old(Coming())
      ensures !old(Serves(expected)) && !old(closed) && expected.None? ==>
              forall k: nat, outcome | Ends(meanwhile, k, old(Awaited()), outcome) ::
                match outcome
                case None => result.None?
                case Some(profile) =>
                  Connection(old(Awaited()) + 1, profile) !in old(done) ==>
                    result == Some(Connection(old(Awaited()) + 1, profile)) && paired == old(Awaited()) + 1
    {
      var waited := false;
      while true
        invariant Valid() && Advanced()
        invariant old(Serves(expected)) ==> !waited && Serves(expected) && connection == old(connection) && generation == old(generation)
        invariant !waited ==> Awaited() == old(Awaited()) && closed == old(closed) && Serves(expected) == old(Serves(expected))
        invariant !waited ==> attempts == old(attempts) && done == old(done)
        invariant waited ==>
                    && !old(Serves(expected)) && !old(closed) && expected.None?
                    && old(Awaited()) < |attempts| && attempts[old(Awaited())].done && !attempts[old(Awaited())].failed
                    && forall k: nat, outcome | Ends(meanwhile, k, old(Awaited()), outcome) ::
                         !closed && Ended(attempts, connection, done, old(Awaited()), outcome, old(done))
        decreases if waited then 0 else 1
      {
        var verdict := Check(expected, waited);
        match verdict {
          case Refused => return None, 0;
          case Have(ready, current) => return Some(ready), current;
          case Wait(attempt) =>
            Interfere(meanwhile);
            if !attempts[attempt].done || attempts[attempt].failed {
              return None, 0;
            }
            waited := true;
        }
      }
    }
  }
}
