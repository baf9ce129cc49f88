/** A chat's projection of the Pi transcript: it is rebuilt aside while a session is
    loaded, swapped in when the load is known to belong to one connection, and fenced
    against notifications of any other connection. */
module SessionProjection {
  import opened Base
  import opened PiConnection

  /** Connections are numbered from one; zero stands for no attachment. */
  type Tag = g: Generation | g > 0 witness 1

  /** A notification; those that came over a connection carry its generation. */
  datatype Update = Update(tag: Option<Tag>, content: nat)

  predicate Admitted(update: Update, attached: Generation) {
    update.tag.None? || update.tag.value == attached
  }

  /** The notifications a projection of that generation takes, in order of arrival. */
  function Fenced(updates: seq<Update>, attached: Generation): seq<Update> {
    if updates == [] then []
    else
      Fenced(updates[..|updates| - 1], attached)
      + (if Admitted(updates[|updates| - 1], attached) then [updates[|updates| - 1]] else [])
  }

  lemma {:induction false} FencedIsExact(updates: seq<Update>, attached: Generation)
    ensures forall u <- Fenced(updates, attached) :: u in updates && Admitted(u, attached)
    ensures multiset(Fenced(updates, attached)) <= multiset(updates)
    ensures forall u: Update | Admitted(u, attached) :: multiset(Fenced(updates, attached))[u] == multiset(updates)[u]
  {
    if updates != [] {
      var front, last := updates[..|updates| - 1], updates[|updates| - 1];
      FencedIsExact(front, attached);
      assert updates == front + [last];
      var taken := if Admitted(last, attached) then multiset{last} else multiset{};
      assert multiset(Fenced(updates, attached)) == multiset(Fenced(front, attached)) + taken;
      assert multiset(updates) == multiset(front) + multiset{last};
      hide Fenced, Admitted;
    }
  }

  /** What is kept keeps its order. */
  lemma {:induction false} FencedInOrder(first: seq<Update>, second: seq<Update>, attached: Generation)
    ensures Fenced(first + second, attached) == Fenced(first, attached) + Fenced(second, attached)
  {
    if second == [] {
      assert first + second == first;
    } else {
      var n := |second| - 1;
      assert (first + second)[..|first + second| - 1] == first + second[..n];
      FencedInOrder(first, second[..n], attached);
    }
  }

  datatype Replay = Replay(attached: Generation, messages: seq<Update>)

  /** What the surroundings do during one attachment. */
  datatype Load = Load(
    pinned: Option<Generation>,
    identity: string,
    compatible: bool,
    beforeProfile: seq<Action>,
    beforeLoad: seq<Action>,
    duringLoad: seq<Action>,
    updates: seq<Update>,
    loaded: bool,
    afterLoad: seq<Action>,
    queueRecovered: bool)

  /** Nothing happens to this connection during the load, and the agent loads the session. */
  predicate Untroubled(load: Load, generation: Generation) {
    load.compatible && load.loaded && load.queueRecovered && Leave(load.duringLoad, generation)
  }

  lemma ConnectionsCountFromOne(client: PiClient)
    requires client.Valid() && client.connection.Some?
    ensures client.connection.value.generation > 0
  {
  }

  class Session {
    var attached: Generation
    var identity: string
    var messages: seq<Update>
    var replay: Option<Replay>
    ghost var fence: Generation  // the connection of the last attachment

    /** Every tagged notification in a projection came over the connection of its last
        attachment, which it may have been detached from since. */
    ghost predicate Valid()
      reads this
    {
      && (attached == 0 || attached == fence)
      && (forall u <- messages :: Admitted(u, fence))
      && (replay.Some? ==> forall u <- replay.value.messages :: Admitted(u, replay.value.attached))
    }

    constructor ()
      ensures Valid() && attached == 0 && messages == [] && replay.None?
    {
      attached, identity, messages, replay, fence := 0, "", [], None, 0;
    }

    /** A notification goes to the transcript being rebuilt, if there is one, and is
        dropped when it belongs to another connection, or to any while detached. */
    method Notify(update: Update)
      requires Valid()
      modifies this
      ensures Valid() && attached == old(attached) && identity == old(identity) && fence == old(fence)
      ensures replay.Some? == old(replay).Some?
      ensures match old(replay)
              case None => messages == old(messages) + Fenced([update], attached)
              case Some(before) =>
                messages == old(messages) && replay.value == Replay(before.attached, before.messages + Fenced([update], before.attached))
    {
      var target := if replay.Some? then replay.value.attached else attached;
      assert [update][..0] == [];
      if update.tag.Some? && update.tag.value != target {
        return;
      }
      if replay.Some? {
        replay := Some(replay.value.(messages := replay.value.messages + [update]));
      } else {
        messages := messages + [update];
      }
    }

    method DeliverWhileLoading(updates: seq<Update>)
      requires Valid() && replay.Some? && replay.value.messages == []
      modifies this
      ensures Valid() && attached == old(attached) && identity == old(identity) && messages == old(messages) && fence == old(fence)
      ensures replay == Some(Replay(old(replay).value.attached, Fenced(updates, old(replay).value.attached)))
    {
      ghost var generation := replay.value.attached;
      for i := 0 to |updates|
        invariant Valid() && attached == old(attached) && messages == old(messages) && identity == old(identity)
        invariant fence == old(fence)
        invariant replay == Some(Replay(generation, Fenced(updates[..i], generation)))
      {
        assert updates[..i + 1][..i] == updates[..i];
        assert [updates[i]][..0] == [];
        assert Fenced([updates[i]], generation) == if Admitted(updates[i], generation) then [updates[i]] else [];
        Notify(updates[i]);
      }
      assert updates[..|updates|] == updates;
    }

    /** Attaches the chat to the current connection. A success leaves exactly the
        notifications of one connection, which was still the current one after the load;
        a failure leaves the projection as it was. */
    method Attach(client: PiClient, load: Load) returns (ok: bool)
      requires Valid() && replay.None? && client.Valid()
      modifies this, client
      ensures Valid() && replay.None? && client.Valid()
      ensures ok ==> client.connection.Some? && attached == client.connection.value.generation == client.generation
      ensures ok && load.pinned.Some? ==> attached == load.pinned.value
      ensures ok ==> messages == if attached == old(attached) then old(messages) else Fenced(load.updates, attached)
      ensures ok ==> attached > 0 && fence == attached
      ensures ok && old(identity) != "" ==> load.identity == old(identity)
      ensures (&& old(client.Reaches(load.pinned, load.beforeProfile)) && Untroubled(load, old(client.Coming()))
               && (old(identity) == "" || old(identity) == load.identity)) ==> ok
      ensures !ok ==> attached == old(attached) && messages == old(messages) && identity == old(identity) && fence == old(fence)
    {
      hide PiClient.Valid, PiClient.Advanced, PiClient.Reaches, PiClient.Coming, Leave, Fenced;
      var connection, generation := client.Ready(load.pinned, load.beforeProfile);
      if connection.None? || !load.compatible || (identity != "" && identity != load.identity) {
        return false;
      }
      ConnectionsCountFromOne(client);
      if attached == generation {
        return true;
      }
      ok := Rebuild(client, load, generation);
    }

    /** Rebuilds the transcript aside and swaps it in when the load is known to belong to
        that one connection. */
    method Rebuild(client: PiClient, load: Load, generation: Generation) returns (ok: bool)
      requires Valid() && replay.None? && client.Valid() && generation > 0
      modifies this, client
      ensures Valid() && replay.None? && client.Valid()
      ensures ok ==>
                && client.connection.Some? && attached == client.connection.value.generation == client.generation == generation
                && fence == attached && messages == Fenced(load.updates, attached) && identity == load.identity
      ensures !ok ==> attached == old(attached) && messages == old(messages) && identity == old(identity) && fence == old(fence)
      ensures old(client.Serves(Some(generation))) && Untroubled(load, generation) ==> ok
    {
      hide PiClient.Valid, PiClient.Advanced, PiClient.Reaches, PiClient.Coming, Leave, Fenced;
      replay := Some(Replay(generation, []));
      var loading, _ := client.Ready(Some(generation), load.beforeLoad);
      if loading.Some? {
        client.Interfere(load.duringLoad);
        DeliverWhileLoading(load.updates);
      }
      var confirmed: Option<Connection>, current := None, 0;
      if loading.Some? && load.loaded {
        confirmed, current := client.Ready(Some(generation), load.afterLoad);
      }
      if confirmed.None? || current != generation || !load.queueRecovered {
        replay := None;
        return false;
      }
      messages, identity, attached, fence := replay.value.messages, load.identity, generation, generation;
      replay := None;
      return true;
    }

    /** What was shown is not authoritative any more: the next attachment loads the
        session even over the same connection. */
    method Detach()
      requires Valid()
      modifies this`attached
      ensures Valid() && attached == 0
    {
      attached := 0;
    }

    /** A forced reload shows what the agent replays now. When it fails the chat stays
        detached, and takes no notification of any connection. */
    method Reload(client: PiClient, load: Load) returns (ok: bool)
      requires Valid() && replay.None? && client.Valid()
      modifies this, client
      ensures Valid() && replay.None? && client.Valid()
      ensures ok ==> messages == Fenced(load.updates, attached) && fence == attached == client.generation
      ensures !ok ==> attached == 0 && messages == old(messages) && identity == old(identity)
      ensures (&& old(client.Reaches(load.pinned, load.beforeProfile)) && Untroubled(load, old(client.Coming()))
               && (old(identity) == "" || old(identity) == load.identity)) ==> ok
    {
      hide PiClient.Valid, PiClient.Advanced, PiClient.Reaches, PiClient.Coming, Leave, Fenced;
      Detach();
      ok := Attach(client, load);
    }
  }
}
