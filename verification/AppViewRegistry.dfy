/** The operations on the registry of open App views. */
module AppViewRegistry {
  import opened Base
  import opened AppViewModel

  datatype Registration = Registered | ShutDown | TooManyViews | NoCapacity | Reused

  datatype Chunk = Chunk(offset: nat, data: seq<nat>, nextOffset: nat) | NoChunk

  datatype Started = Begun(operation: Operation) | Canceled | Rejected

  /** Reservations that still have to be registered leave room for their views. */
  ghost predicate Roomy(views: Views, waiting: set<nat>, registered: set<nat>, opening: int) {
    && |views| + |waiting| <= MAX_VIEWS
    && waiting !! registered && opening == |waiting| + |registered|
  }

  lemma WithoutKeyStep(order: seq<Key>, key: Key, i: nat)
    requires i < |order| && WithoutKey(order, key) == order[..i] + WithoutKey(order[i..], key)
    ensures WithoutKey(order, key) ==
            if order[i] == key then order[..i] + order[i + 1..] else order[..i + 1] + WithoutKey(order[i + 1..], key)
  {
    assert order[i..][1..] == order[i + 1..];
  }

  lemma WithoutKeyEnds(order: seq<Key>, key: Key)
    ensures order[..|order|] + WithoutKey(order[|order|..], key) == order
    ensures order[..0] + WithoutKey(order[0..], key) == WithoutKey(order, key)
  {
    assert order[0..] == order;
  }

  lemma Reserving(views: Views, waiting: set<nat>, registered: set<nat>, opening: int, ticket: nat)
    requires Roomy(views, waiting, registered, opening) && ticket !in waiting && ticket !in registered
    ensures |views| + opening < MAX_VIEWS ==> Roomy(views, waiting + {ticket}, registered, opening + 1)
  {
  }

  lemma Releasing(views: Views, waiting: set<nat>, registered: set<nat>, opening: int, ticket: nat)
    requires Roomy(views, waiting, registered, opening) && (ticket in waiting || ticket in registered)
    ensures opening > 0 && Roomy(views, waiting - {ticket}, registered - {ticket}, opening - 1)
  {
    if ticket in waiting {
      assert registered - {ticket} == registered;
      assert |waiting - {ticket}| == |waiting| - 1;
    } else {
      assert waiting - {ticket} == waiting;
      assert |registered - {ticket}| == |registered| - 1;
    }
  }

  lemma Registering(views: Views, waiting: set<nat>, registered: set<nat>, opening: int, ticket: nat, id: ViewId, view: View)
    requires Roomy(views, waiting, registered, opening) && ticket in waiting
    ensures |views| < MAX_VIEWS
    ensures id !in views ==> Roomy(views[id := view], waiting - {ticket}, registered + {ticket}, opening)
  {
    assert |waiting - {ticket}| == |waiting| - 1;
    if id !in views {
      assert views[id := view].Keys == views.Keys + {id};
      assert |views[id := view]| == |views[id := view].Keys| && |views| == |views.Keys|;
    }
  }

  /** No view more than before. */
  lemma StaysRoomy(views: Views, next: Views, waiting: set<nat>, registered: set<nat>, opening: int)
    requires Roomy(views, waiting, registered, opening) && |next| <= |views|
    ensures Roomy(next, waiting, registered, opening)
  {
  }

  lemma OneMoreBegun(unfinished: set<Operation>, begun: Begun, op: Operation)
    requires Known(unfinished, begun) && op.token == |begun|
    ensures Known(unfinished + {op}, begun + [op]) && op !in unfinished
  {
  }

  lemma OneLessUnfinished(unfinished: set<Operation>, begun: Begun, op: Operation)
    requires Known(unfinished, begun)
    ensures Known(unfinished - {op}, begun)
  {
  }

  lemma FewerViews(views: Views, id: ViewId)
    requires id in views
    ensures |views - {id}| == |views| - 1
  {
    assert (views - {id}).Keys == views.Keys - {id};
  }

  lemma SameViews(views: Views, id: ViewId, view: View)
    requires id in views
    ensures views[id := view].Keys == views.Keys && |views[id := view]| == |views|
  {
    assert views[id := view].Keys == views.Keys;
    assert |views[id := view]| == |views[id := view].Keys|;
  }

  class AppViews {
    var views: Views
    var revoked: Revoked
    var earlyCancels: set<Key>
    var earlyCancelOrder: seq<Key>
    var activeOperations: nat
    var openingViews: nat
    var contentBytes: nat
    const maxContentBytes: nat
    const viewLease: int
    var closed: bool
    // Stand for pointer identity.
    var nextRef: Ref
    // Operations ever begun, and those of them that have not finished.
    var begun: Begun
    ghost var unfinished: set<Operation>
    // Reservations held, before and after their view was registered.
    ghost var waiting: set<nat>
    ghost var registered: set<nat>

    ghost predicate Valid()
      reads this
    {
      && Referenced(views, revoked, nextRef) && Listed(views, revoked, unfinished)
      && Known(unfinished, begun)
      && activeOperations == |unfinished| <= MAX_OPERATIONS
      && contentBytes == Content(views) <= maxContentBytes
      && Cancels(earlyCancelOrder, earlyCancels, views)
      && Roomy(views, waiting, registered, openingViews)
    }

    /** How long a view lives without a sign of life. */
    function Lease(): (lease: int)
      ensures lease > 0 && lease == if viewLease > 0 then viewLease else VIEW_LEASE
    {
      if viewLease <= 0 then VIEW_LEASE else viewLease
    }

    constructor (maxContentBytes: nat, viewLease: int)
      ensures Valid() && views == map[] && unfinished == {} && !closed
    {
      this.maxContentBytes, this.viewLease := maxContentBytes, viewLease;
      views, revoked, earlyCancels, earlyCancelOrder := map[], map[], {}, [];
      activeOperations, openingViews, contentBytes, closed, nextRef := 0, 0, 0, false, 0;
      begun := [];
      unfinished, waiting, registered := {}, {}, {};
    }

    /** Reserves room for a view that is still to be resolved and registered. */
    method ReserveView(ghost ticket: nat) returns (ok: bool)
      requires Valid() && ticket !in waiting && ticket !in registered
      modifies this`openingViews, this`waiting
      ensures ok <==> !closed && |views| + old(openingViews) < MAX_VIEWS
      ensures waiting == if ok then old(waiting) + {ticket} else old(waiting)
      ensures Valid()
    {
      hide Referenced, Listed, Known, Cancels, Content, Roomy;
      Reserving(views, waiting, registered, openingViews, ticket);
      ok := !closed && |views| + openingViews < MAX_VIEWS;
      if ok {
        openingViews, waiting := openingViews + 1, waiting + {ticket};
      }
    }

    method ReleaseViewReservation(ghost ticket: nat)
      requires Valid() && (ticket in waiting || ticket in registered)
      modifies this`openingViews, this`waiting, this`registered
      ensures Valid() && waiting == old(waiting) - {ticket} && registered == old(registered) - {ticket}
    {
      hide Referenced, Listed, Known, Cancels, Content, Roomy;
      assert openingViews > 0 && Roomy(views, waiting - {ticket}, registered - {ticket}, openingViews - 1) by {
        Releasing(views, waiting, registered, openingViews, ticket);
      }
      if openingViews > 0 {
        openingViews := openingViews - 1;
      }
      waiting, registered := waiting - {ticket}, registered - {ticket};
    }

    /** Registers a view under its reservation. The limit on views is never what stops it. */
    method RegisterView(id: ViewId, owner: Owner, html: seq<nat>, now: int, ghost ticket: nat) returns (result: Registration)
      requires Valid() && ticket in waiting
      modifies this
      ensures Valid() && result != TooManyViews
      ensures result.Registered? <==> !old(closed) && |html| <= maxContentBytes - old(contentBytes) && id !in old(views)
      ensures result.Registered? ==>
              && views == old(views)[id := View(old(nextRef), owner, html, |html| > 0, map[], now + Lease())]
              && contentBytes == old(contentBytes) + |html| && registered == old(registered) + {ticket}
      ensures !result.Registered? ==> views == old(views) && contentBytes == old(contentBytes)
      ensures unfinished == old(unfinished) && earlyCancels == old(earlyCancels)
    {
      hide Referenced, Listed, Known, Cancels, Content, Roomy;
      Registering(views, waiting, registered, openingViews, ticket, id, View(nextRef, owner, html, |html| > 0, map[], now + Lease()));
      if closed {
        return ShutDown;
      }
      if |views| >= MAX_VIEWS {
        return TooManyViews;
      }
      if |html| > maxContentBytes - contentBytes {
        return NoCapacity;
      }
      if id in views {
        return Reused;
      }
      InsertView(id, View(nextRef, owner, html, |html| > 0, map[], now + Lease()), ticket);
      return Registered;
    }

    method InsertView(id: ViewId, view: View, ghost ticket: nat)
      requires Valid() && ticket in waiting && id !in views
      requires view.ref == nextRef && view.operations == map[] && Unread(view) <= maxContentBytes - contentBytes
      modifies this`views, this`nextRef, this`contentBytes, this`waiting, this`registered
      ensures Valid()
      ensures views == old(views)[id := view] && contentBytes == old(contentBytes) + Unread(view)
      ensures registered == old(registered) + {ticket}
    {
      hide Referenced, Listed, Known, Cancels, Content, Roomy, Unread;
      Registering(views, waiting, registered, openingViews, ticket, id, view);
      RegisteringKeeps(views, revoked, unfinished, nextRef, id, view);
      ContentOfNew(views, id, view);
      MoreViewsKeepCancels(earlyCancelOrder, earlyCancels, views, id, view);
      views := views[id := view];
      nextRef := nextRef + 1;
      contentBytes := contentBytes + Unread(view);
      waiting := waiting - {ticket};
      registered := registered + {ticket};
    }

    predicate Matches(id: ViewId, owner: Owner)
      reads this
    {
      id in views && views[id].owner == owner
    }

    /** Reads the unread content in order, at most a chunk at a time. The last chunk gives
        its space back. */
    method ReadContent(id: ViewId, owner: Owner, offset: nat) returns (chunk: Chunk)
      requires Valid()
      modifies this`views, this`contentBytes
      ensures Valid()
      ensures chunk.Chunk? <==> id in old(views) && old(views)[id].owner == owner && old(views)[id].pending && offset < |old(views)[id].html|
      ensures chunk.NoChunk? ==> views == old(views) && contentBytes == old(contentBytes)
      ensures chunk.Chunk? ==>
              var html := old(views)[id].html;
              && chunk.offset == offset && offset < chunk.nextOffset <= |html| && chunk.nextOffset <= offset + MAX_CHUNK
              && chunk.data == html[offset..chunk.nextOffset]
              && (chunk.nextOffset == |html| || chunk.nextOffset == offset + MAX_CHUNK)
              && id in views && views[id].pending == (chunk.nextOffset < |html|)
              && views == old(views)[id := views[id]]
              && views[id] == (if views[id].pending then old(views)[id] else old(views)[id].(html := [], pending := false))
              && contentBytes == (if views[id].pending then old(contentBytes) else old(contentBytes) - |html|)
    {
      hide Referenced, Listed, Known, Cancels, Content, Roomy;
      if !Matches(id, owner) || !views[id].pending || offset >= |views[id].html| {
        return NoChunk;
      }
      var view := views[id];
      var end := Min(offset + MAX_CHUNK, |view.html|);
      var data := view.html[offset..end];
      var read := view.(html := [], pending := false);
      RewritingKeeps(views, revoked, unfinished, nextRef, id, read);
      ContentOfChanged(views, id, read);
      SameOperationsKeepCancels(earlyCancelOrder, earlyCancels, views, id, read);
      SameViews(views, id, read);
      StaysRoomy(views, views[id := read], waiting, registered, openingViews);
      if end == |view.html| {
        contentBytes := contentBytes - |view.html|;
        views := views[id := read];
      }
      return Chunk(offset, data, end);
    }

    /** Starts an operation, unless its cancellation came first or a limit is reached. */
    method BeginOperation(id: ViewId, operationId: OperationId, owner: Owner) returns (started: Started)
      requires Valid()
      modifies this
      ensures Valid() && contentBytes == old(contentBytes) && openingViews == old(openingViews)
      ensures started.Canceled? <==> id in old(views) && old(views)[id].owner == owner && Key(id, operationId) in old(earlyCancels)
      ensures earlyCancels == if started.Canceled? then old(earlyCancels) - {Key(id, operationId)} else old(earlyCancels)
      ensures started.Begun? <==>
              && id in old(views) && old(views)[id].owner == owner && Key(id, operationId) !in old(earlyCancels)
              && operationId !in old(views)[id].operations
              && |old(views)[id].operations| < MAX_VIEW_OPERATIONS && old(activeOperations) < MAX_OPERATIONS
      ensures started.Begun? ==>
              var op := started.operation;
              && op.view == id && op.id == operationId && op !in old(unfinished) && unfinished == old(unfinished) + {op}
              && id in views && Holds(views[id], op) && views == old(views)[id := Starting(old(views)[id], op)]
              && activeOperations == old(activeOperations) + 1
      ensures !started.Begun? ==> unfinished == old(unfinished) && views == old(views) && activeOperations == old(activeOperations)
    {
      hide Referenced, Listed, Known, Cancels, Content, Roomy;
      if !Matches(id, owner) {
        return Rejected;
      }
      var key := Key(id, operationId);
      var consumed := ConsumeEarlyCancel(key);
      if consumed {
        return Canceled;
      }
      var view := views[id];
      if operationId in view.operations || |view.operations| >= MAX_VIEW_OPERATIONS || activeOperations >= MAX_OPERATIONS {
        return Rejected;
      }
      var op := Start(id, operationId);
      return Begun(op);
    }

    method Start(id: ViewId, operationId: OperationId) returns (op: Operation)
      requires Valid() && id in views && Key(id, operationId) !in earlyCancels && operationId !in views[id].operations
      requires |views[id].operations| < MAX_VIEW_OPERATIONS && activeOperations < MAX_OPERATIONS
      modifies this`views, this`activeOperations, this`unfinished, this`begun
      ensures Valid()
      ensures op.view == id && op.id == operationId && op !in old(unfinished) && unfinished == old(unfinished) + {op}
      ensures op.ref == old(views)[id].ref && views == old(views)[id := Starting(old(views)[id], op)]
      ensures activeOperations == old(activeOperations) + 1
    {
      hide Referenced, Listed, Known, Cancels, Content, Roomy, Holds, Starting;
      op := Operation(id, views[id].ref, operationId, |begun|);
      StartIsCounted(views, revoked, unfinished, begun, nextRef, op);
      StartTakesNoRoom(views, earlyCancelOrder, earlyCancels, waiting, registered, openingViews, op);
      begun, unfinished := begun + [op], unfinished + {op};
      views := views[id := Starting(views[id], op)];
      activeOperations := activeOperations + 1;
    }

    /** Ends an operation once, wherever its view is by then. */
    method FinishOperation(op: Operation)
      requires Valid() && Began(begun, op)
      modifies this
      ensures Valid() && unfinished == old(unfinished) - {op} && contentBytes == old(contentBytes)
      ensures activeOperations == old(activeOperations) - Indicator(op in old(unfinished))
      ensures earlyCancels == old(earlyCancels)
      ensures var live := op.view in old(views) && old(views)[op.view].ref == op.ref;
              && views == (if op in old(unfinished) && live
                           then old(views)[op.view := old(views)[op.view].(operations := old(views)[op.view].operations - {op.id})]
                           else old(views))
              && (op in old(unfinished) && !live ==> op.ref in old(revoked))
              && revoked == (if op in old(unfinished) && !live && op.ref in old(revoked)
                             then old(revoked)[op.ref := old(revoked)[op.ref].(operations := old(revoked)[op.ref].operations - {op.id})]
                             else old(revoked))
    {
      hide Referenced, Listed, Known, Cancels, Content, Roomy, Holds;
      UnfinishedIsListed(views, revoked, unfinished, begun, nextRef, op);
      OneLessUnfinished(unfinished, begun, op);
      if op.view in views && views[op.view].ref == op.ref {
        if Lists(views[op.view], op) {
          var view := views[op.view];
          EndingLiveKeeps(views, revoked, unfinished, nextRef, op, begun);
          ContentOfChanged(views, op.view, Ending(view, op));
          EndingKeepsCancels(earlyCancelOrder, earlyCancels, views, op);
          SameViews(views, op.view, Ending(view, op));
          StaysRoomy(views, views[op.view := Ending(view, op)], waiting, registered, openingViews);
          views := views[op.view := view.(operations := view.operations - {op.id})];
          activeOperations := activeOperations - 1;
          unfinished := unfinished - {op};
        }
      } else if op.ref in revoked && Lists(revoked[op.ref], op) {
        var view := revoked[op.ref];
        EndingRevokedKeeps(views, revoked, unfinished, nextRef, op, begun);
        revoked := revoked[op.ref := view.(operations := view.operations - {op.id})];
        activeOperations := activeOperations - 1;
        unfinished := unfinished - {op};
      }
    }

    // ----------------------------------------------------------------
    // Early cancellations
    // ----------------------------------------------------------------

    method AddEarlyCancel(key: Key)
      requires Cancels(earlyCancelOrder, earlyCancels, views)
      requires key.view in views && key.operation !in views[key.view].operations
      modifies this`earlyCancels, this`earlyCancelOrder
      ensures Cancels(earlyCancelOrder, earlyCancels, views)
      ensures earlyCancelOrder == Noted(old(earlyCancelOrder), key) && key in earlyCancels
      ensures key in old(earlyCancels) ==> earlyCancels == old(earlyCancels) && earlyCancelOrder == old(earlyCancelOrder)
      ensures key !in old(earlyCancels) ==>
                var order := old(earlyCancelOrder);
                && earlyCancelOrder == (if |order| >= MAX_EARLY_CANCELS then order[1..] else order) + [key]
                && forall k :: k in earlyCancels <==> k in earlyCancelOrder
    {
      if key in earlyCancels {
        return;
      }
      NotingKeepsCancels(earlyCancelOrder, earlyCancels, views, key);
      if |earlyCancelOrder| >= MAX_EARLY_CANCELS {
        var oldest := earlyCancelOrder[0];
        earlyCancelOrder := earlyCancelOrder[1..];
        earlyCancels := earlyCancels - {oldest};
      }
      earlyCancels := earlyCancels + {key};
      earlyCancelOrder := earlyCancelOrder + [key];
    }

    method ConsumeEarlyCancel(key: Key) returns (consumed: bool)
      requires Cancels(earlyCancelOrder, earlyCancels, views)
      modifies this`earlyCancels, this`earlyCancelOrder
      ensures Cancels(earlyCancelOrder, earlyCancels, views)
      ensures consumed <==> key in old(earlyCancels)
      ensures earlyCancels == old(earlyCancels) - {key}
      ensures earlyCancelOrder == if consumed then WithoutKey(old(earlyCancelOrder), key) else old(earlyCancelOrder)
    {
      hide Cancels, Distinct, WithoutKey;
      if key !in earlyCancels {
        assert earlyCancels - {key} == earlyCancels;
        return false;
      }
      ConsumingKeepsCancels(earlyCancelOrder, earlyCancels, views, key);
      earlyCancels := earlyCancels - {key};
      WithoutKeyEnds(earlyCancelOrder, key);
      for index := 0 to |earlyCancelOrder|
        invariant earlyCancelOrder == old(earlyCancelOrder) && earlyCancels == old(earlyCancels) - {key}
        invariant WithoutKey(earlyCancelOrder, key) == earlyCancelOrder[..index] + WithoutKey(earlyCancelOrder[index..], key)
      {
        WithoutKeyStep(earlyCancelOrder, key, index);
        if earlyCancelOrder[index] == key {
          earlyCancelOrder := earlyCancelOrder[..index] + earlyCancelOrder[index + 1..];
          return true;
        }
      }
      WithoutKeyEnds(earlyCancelOrder, key);
      return true;
    }

    method RemoveEarlyCancelsForView(id: ViewId)
      requires Cancels(earlyCancelOrder, earlyCancels, views)
      modifies this`earlyCancels, this`earlyCancelOrder
      ensures Cancels(earlyCancelOrder, earlyCancels, views)
      ensures forall key :: key in earlyCancels <==> key in old(earlyCancels) && key.view != id
      ensures earlyCancelOrder == WithoutView(old(earlyCancelOrder), id)
    {
      hide Cancels;
      var kept := [];
      var early := earlyCancels;
      for i := 0 to |earlyCancelOrder|
        invariant kept == WithoutView(earlyCancelOrder[..i], id)
        invariant early == earlyCancels - KeysOf(earlyCancelOrder[..i], id)
      {
        assert earlyCancelOrder[..i + 1][..i] == earlyCancelOrder[..i];
        assert earlyCancelOrder[..i + 1] == earlyCancelOrder[..i] + [earlyCancelOrder[i]];
        if earlyCancelOrder[i].view == id {
          early := early - {earlyCancelOrder[i]};
        } else {
          kept := kept + [earlyCancelOrder[i]];
        }
      }
      assert earlyCancelOrder[..|earlyCancelOrder|] == earlyCancelOrder;
      RemovingKeepsCancels(earlyCancelOrder, earlyCancels, views, id);
      earlyCancelOrder, earlyCancels := kept, early;
    }

    /** Cancels a running operation, or remembers that it must not start. */
    method CancelOperation(id: ViewId, operationId: OperationId, client: string) returns (ok: bool)
      requires Valid()
      modifies this`earlyCancels, this`earlyCancelOrder
      ensures Valid()
      ensures ok <==> id in views && views[id].owner.client == client
      ensures ok && operationId !in views[id].operations ==> Key(id, operationId) in earlyCancels
      ensures !ok || operationId in views[id].operations || Key(id, operationId) in old(earlyCancels) ==>
                earlyCancels == old(earlyCancels) && earlyCancelOrder == old(earlyCancelOrder)
      ensures ok && operationId !in views[id].operations && Key(id, operationId) !in old(earlyCancels) ==>
                var order := old(earlyCancelOrder);
                && earlyCancelOrder == (if |order| >= MAX_EARLY_CANCELS then order[1..] else order) + [Key(id, operationId)]
                && forall key :: key in earlyCancels <==> key in earlyCancelOrder
    {
      hide Referenced, Listed, Known, Cancels, Content, Roomy;
      if id !in views || views[id].owner.client != client {
        return false;
      }
      if operationId !in views[id].operations {
        AddEarlyCancel(Key(id, operationId));
      }
      return true;
    }

    // ----------------------------------------------------------------
    // Revocation
    // ----------------------------------------------------------------

    /** Closes a view: its content and early cancellations go at once, its operations stay
        counted until each of them ends. */
    method RevokeViewLocked(id: ViewId)
      requires Valid() && id in views
      modifies this
      ensures Valid() && views == old(views) - {id} && unfinished == old(unfinished) && activeOperations == old(activeOperations)
      ensures contentBytes == old(contentBytes) - Unread(old(views)[id])
      ensures revoked == old(revoked)[old(views)[id].ref := old(views)[id].(html := [], pending := false)]
      ensures forall key :: key in earlyCancels <==> key in old(earlyCancels) && key.view != id
      ensures closed == old(closed) && openingViews == old(openingViews) 
      ensures waiting == old(waiting) && registered == old(registered)
    {
      hide Referenced, Listed, Known, Cancels, Content, Roomy;
      var view := views[id];
      var emptied := view.(html := [], pending := false);
      RevokingKeeps(views, revoked, unfinished, nextRef, id, emptied);
      ContentOfChanged(views, id, emptied);
      FewerViews(views, id);
      StaysRoomy(views, views - {id}, waiting, registered, openingViews);
      RemoveEarlyCancelsForView(id);
      FewerViewsKeepCancels(earlyCancelOrder, earlyCancels, views, id);
      views := views - {id};
      if view.pending {
        contentBytes := contentBytes - |view.html|;
      }
      revoked := revoked[view.ref := emptied];
    }

    /** A lease runs out; a timer of a view that was replaced does nothing. */
    method ExpireView(id: ViewId, expected: Ref, now: int) returns (again: int)
      requires Valid()
      modifies this
      ensures Valid() && unfinished == old(unfinished)
      ensures var mine := id in old(views) && old(views)[id].ref == expected;
              && views == (if mine && old(views)[id].leaseUntil <= now then old(views) - {id} else old(views))
              && again == (if mine && now < old(views)[id].leaseUntil then old(views)[id].leaseUntil - now else 0)
    {
      hide Referenced, Listed, Known, Cancels, Content, Roomy;
      again := 0;
      if id in views && views[id].ref == expected {
        if views[id].leaseUntil > now {
          return views[id].leaseUntil - now;
        }
        RevokeViewLocked(id);
      }
    }

    /** A sign of life of the owner renews a lease that has not run out. */
    method KeepAlive(id: ViewId, owner: Owner, now: int) returns (ok: bool)
      requires Valid()
      modifies this`views
      ensures Valid()
      ensures ok <==> id in old(views) && old(views)[id].owner == owner && now < old(views)[id].leaseUntil
      ensures views == if ok then old(views)[id := old(views)[id].(leaseUntil := now + Lease())] else old(views)
    {
      hide Referenced, Listed, Known, Cancels, Content, Roomy;
      if !Matches(id, owner) || now >= views[id].leaseUntil {
        return false;
      }
      var view := views[id].(leaseUntil := now + Lease());
      RewritingKeeps(views, revoked, unfinished, nextRef, id, view);
      ContentOfChanged(views, id, view);
      SameOperationsKeepCancels(earlyCancelOrder, earlyCancels, views, id, view);
      SameViews(views, id, view);
      StaysRoomy(views, views[id := view], waiting, registered, openingViews);
      views := views[id := view];
      return true;
    }

    /** Closes every matching view, and the registry itself on shutdown. */
    method RevokeMatching(matches: View -> bool, closeRegistry: bool)
      requires Valid()
      modifies this
      ensures Valid() && unfinished == old(unfinished) && closed == (old(closed) || closeRegistry)
      ensures forall id :: id in views <==> id in old(views) && !matches(old(views)[id])
      ensures forall id <- views :: views[id] == old(views)[id]
    {
      hide Referenced, Listed, Known, Cancels, Content, Roomy;
      closed := closed || closeRegistry;
      var rest := views.Keys;
      while rest != {}
        invariant Valid() && unfinished == old(unfinished) && closed == (old(closed) || closeRegistry)
        invariant rest <= views.Keys
        invariant forall id :: id in views <==> id in old(views) && (id in rest || !matches(old(views)[id]))
        invariant forall id <- views :: views[id] == old(views)[id]
        decreases |rest|
      {
        var id :| id in rest;
        rest := rest - {id};
        if matches(views[id]) {
          RevokeViewLocked(id);
        }
      }
    }
  }

  lemma {:induction false} StartIsCounted(views: Views, revoked: Revoked, unfinished: set<Operation>, begun: Begun,
          next: Ref, op: Operation)
    requires Referenced(views, revoked, next) && Listed(views, revoked, unfinished) && Known(unfinished, begun)
    requires op.view in views && op.ref == views[op.view].ref && op.id !in views[op.view].operations && op.token == |begun|
    requires |views[op.view].operations| < MAX_VIEW_OPERATIONS
    ensures var started := views[op.view := Starting(views[op.view], op)];
            Referenced(started, revoked, next) && Listed(started, revoked, unfinished + {op})
    ensures Known(unfinished + {op}, begun + [op])
    ensures op !in unfinished && |unfinished + {op}| == |unfinished| + 1
  {
    hide Referenced, Listed, Known, Starting;
    StartingKeeps(views, revoked, unfinished, next, op);
    OneMoreBegun(unfinished, begun, op);
  }

  lemma StartTakesNoRoom(views: Views, order: seq<Key>, early: set<Key>, waiting: set<nat>, registered: set<nat>,
          opening: int, op: Operation)
    requires Cancels(order, early, views) && Roomy(views, waiting, registered, opening)
    requires op.view in views && Key(op.view, op.id) !in early
    ensures var started := views[op.view := Starting(views[op.view], op)];
            && Content(started) == Content(views) && Cancels(order, early, started) && Roomy(started, waiting, registered, opening)
  {
    StartingReadsNothing(views, op.view, op);
    StartingKeepsCancels(order, early, views, op);
    SameViews(views, op.view, Starting(views[op.view], op));
    StaysRoomy(views, views[op.view := Starting(views[op.view], op)], waiting, registered, opening);
  }

  lemma StartingReadsNothing(views: Views, id: ViewId, op: Operation)
    requires id in views
    ensures Content(views[id := Starting(views[id], op)]) == Content(views)
  {
    ContentOfChanged(views, id, Starting(views[id], op));
  }

  function KeysOf(order: seq<Key>, view: ViewId): set<Key> {
    set key <- order | key.view == view
  }

  lemma RemovingKeepsCancels(order: seq<Key>, early: set<Key>, views: Views, id: ViewId)
    requires Cancels(order, early, views)
    ensures Cancels(WithoutView(order, id), early - KeysOf(order, id), views)
    ensures forall key :: key in early - KeysOf(order, id) <==> key in early && key.view != id
  {
    WithoutViewIsTheRest(order, id);
    hide Distinct, WithoutView;
  }

  lemma ConsumingKeepsCancels(order: seq<Key>, early: set<Key>, views: Views, key: Key)
    requires Cancels(order, early, views)
    ensures Cancels(WithoutKey(order, key), early - {key}, views)
  {
    WithoutKeyIsTheRest(order, key);
    hide Distinct, WithoutKey;
  }

  lemma FewerViewsKeepCancels(order: seq<Key>, early: set<Key>, views: Views, id: ViewId)
    requires Cancels(order, early, views) && forall key <- early :: key.view != id
    ensures Cancels(order, early, views - {id})
  {
    hide Distinct;
  }

  lemma MoreViewsKeepCancels(order: seq<Key>, early: set<Key>, views: Views, id: ViewId, view: View)
    requires Cancels(order, early, views) && id !in views
    ensures Cancels(order, early, views[id := view])
  {
    hide Distinct;
  }

  /** Whether the view still has this very operation under its identifier. */
  predicate Lists(view: View, op: Operation) {
    op.id in view.operations && view.operations[op.id] == op.token
  }

  lemma SameOperationsKeepCancels(order: seq<Key>, early: set<Key>, views: Views, id: ViewId, view: View)
    requires Cancels(order, early, views) && id in views && view.operations == views[id].operations
    ensures Cancels(order, early, views[id := view])
  {
    hide Distinct;
  }

  lemma StartingKeepsCancels(order: seq<Key>, early: set<Key>, views: Views, op: Operation)
    requires Cancels(order, early, views) && op.view in views && Key(op.view, op.id) !in early
    ensures Cancels(order, early, views[op.view := Starting(views[op.view], op)])
  {
    hide Distinct;
    var next := views[op.view := Starting(views[op.view], op)];
    forall key | key in early
      ensures key.view in next && key.operation !in next[key.view].operations
    {
      assert key == Key(key.view, key.operation);
    }
  }

  lemma EndingKeepsCancels(order: seq<Key>, early: set<Key>, views: Views, op: Operation)
    requires Cancels(order, early, views) && op.view in views
    ensures Cancels(order, early, views[op.view := Ending(views[op.view], op)])
  {
    hide Distinct;
  }

  /** An unfinished operation is found where its closure looks for it. */
  lemma UnfinishedIsListed(views: Views, revoked: Revoked, unfinished: set<Operation>, begun: Begun, next: Ref, op: Operation)
    requires Referenced(views, revoked, next) && Listed(views, revoked, unfinished)
    requires Known(unfinished, begun) && Began(begun, op)
    ensures op in unfinished && op.view in views && views[op.view].ref == op.ref ==> Lists(views[op.view], op)
    ensures op in unfinished && !(op.view in views && views[op.view].ref == op.ref) ==> op.ref in revoked && Lists(revoked[op.ref], op)
    ensures op !in unfinished && op.view in views && views[op.view].ref == op.ref ==> !Lists(views[op.view], op)
    ensures op !in unfinished && op.ref in revoked ==> !Lists(revoked[op.ref], op)
  {
    Parts(views, revoked, unfinished);
    if op in unfinished {
      OwnerIsUnique(views, revoked, next, op);
    } else {
      hide Referenced, Listed, Held;
      if op.view in views && views[op.view].ref == op.ref {
        OnlyUnfinishedAreListed(views[op.view], unfinished, begun, op);
      }
      if op.ref in revoked {
        OnlyUnfinishedAreListed(revoked[op.ref], unfinished, begun, op);
      }
    }
  }

  lemma OnlyUnfinishedAreListed(view: View, unfinished: set<Operation>, begun: Begun, op: Operation)
    requires ListsOnly(view, unfinished) && Known(unfinished, begun) && Began(begun, op) && op !in unfinished
    ensures !Lists(view, op)
  {
    if op.id in view.operations {
      var x :| x in unfinished && x.id == op.id && Holds(view, x);
    }
  }
}
