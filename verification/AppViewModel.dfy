/** The registry of open App views: what its counters count. */
module AppViewModel {
  const MAX_VIEWS := 64
  const MAX_VIEW_OPERATIONS := 4
  const MAX_OPERATIONS := 16
  const MAX_EARLY_CANCELS := 256
  const MAX_CHUNK := 128 * 1024

  /** Seconds a view lives without a sign of life. */
  const VIEW_LEASE := 90

  type ViewId = string
  type OperationId = string
  type Ref = nat
  type Token = nat

  datatype Owner = Owner(project: string, session: string, toolCall: string, client: string)

  /** One binding. Its reference stands for the pointer its operations hold; the map
      gives the token of the operation under each identifier. */
  datatype View = View(
    ref: Ref, owner: Owner, html: seq<nat>, pending: bool, operations: map<OperationId, Token>, leaseUntil: int)

  /** A started operation, as the closure that will finish it knows it. */
  datatype Operation = Operation(view: ViewId, ref: Ref, id: OperationId, token: Token)

  datatype Key = Key(view: ViewId, operation: OperationId)

  type Views = map<ViewId, View>
  type Revoked = map<Ref, View>

  // ------------------------------------------------------------------
  // Unread content
  // ------------------------------------------------------------------

  function Unread(view: View): nat { if view.pending then |view.html| else 0 }

  ghost function Content(views: Views): nat {
    if views == map[] then 0
    else
      var id :| id in views;
      Unread(views[id]) + Content(views - {id})
  }

  lemma {:induction false} ContentWithout(views: Views, id: ViewId)
    requires id in views
    ensures Content(views) == Unread(views[id]) + Content(views - {id})
    decreases |views|
  {
    var first :| first in views && Content(views) == Unread(views[first]) + Content(views - {first});
    if first != id {
      ContentWithout(views - {first}, id);
      ContentWithout(views - {id}, first);
      assert views - {first} - {id} == views - {id} - {first};
    }
  }

  lemma ContentWith(views: Views, id: ViewId, view: View)
    ensures Content(views[id := view]) == Unread(view) + Content(views - {id})
  {
    ContentWithout(views[id := view], id);
    assert views[id := view] - {id} == views - {id};
  }

  lemma ContentOfNew(views: Views, id: ViewId, view: View)
    requires id !in views
    ensures Content(views[id := view]) == Content(views) + Unread(view)
  {
    ContentWith(views, id, view);
    assert views - {id} == views;
  }

  lemma ContentOfChanged(views: Views, id: ViewId, view: View)
    requires id in views
    ensures Content(views[id := view]) == Content(views) - Unread(views[id]) + Unread(view)
    ensures Content(views - {id}) == Content(views) - Unread(views[id])
  {
    ContentWith(views, id, view);
    ContentWithout(views, id);
  }

  // ------------------------------------------------------------------
  // Operations
  // ------------------------------------------------------------------

  /** Live views have references of their own, none of a revoked view. */
  predicate Referenced(views: Views, revoked: Revoked, next: Ref) {
    && (forall id <- views :: views[id].ref < next && views[id].ref !in revoked)
    && (forall id, other | id in views && other in views && id != other :: views[id].ref != views[other].ref)
    && (forall r <- revoked :: revoked[r].ref == r && r < next)
  }

  predicate Holds(view: View, op: Operation) {
    view.ref == op.ref && op.id in view.operations && view.operations[op.id] == op.token
  }

  /** The view an unfinished operation belongs to, live or revoked, lists it. */
  predicate Held(views: Views, revoked: Revoked, op: Operation) {
    || (op.view in views && Holds(views[op.view], op))
    || (op.ref in revoked && Holds(revoked[op.ref], op))
  }

  /** Exactly the unfinished operations are listed, at most four by a view. */
  ghost predicate Listed(views: Views, revoked: Revoked, unfinished: set<Operation>) {
    && (forall op <- unfinished :: Held(views, revoked, op))
    && (forall id <- views :: ListsOnly(views[id], unfinished))
    && (forall r <- revoked :: ListsOnly(revoked[r], unfinished))
  }

  ghost predicate ListsOnly(view: View, unfinished: set<Operation>) {
    |view.operations| <= MAX_VIEW_OPERATIONS
    && forall o <- view.operations :: exists op <- unfinished :: op.id == o && Holds(view, op)
  }

  // ------------------------------------------------------------------
  // Cancellations that arrive before their operation
  // ------------------------------------------------------------------

  predicate Distinct(order: seq<Key>) {
    forall i, j :: 0 <= i < j < |order| ==> order[i] != order[j]
  }

  /** The list and the set hold the same keys, all of live views, none of an operation
      that has started. */
  ghost predicate Cancels(order: seq<Key>, early: set<Key>, views: Views) {
    && Distinct(order) && |order| <= MAX_EARLY_CANCELS
    && (forall key :: key in early <==> key in order)
    && (forall key <- early :: key.view in views && key.operation !in views[key.view].operations)
  }

  function WithoutKey(order: seq<Key>, key: Key): seq<Key> {
    if order == [] then []
    else if order[0] == key then order[1..]
    else [order[0]] + WithoutKey(order[1..], key)
  }

  lemma {:induction false} WithoutKeyIsTheRest(order: seq<Key>, key: Key)
    requires Distinct(order)
    ensures Distinct(WithoutKey(order, key)) && |WithoutKey(order, key)| <= |order|
    ensures forall k :: k in WithoutKey(order, key) <==> k in order && k != key
  {
    if order != [] {
      WithoutKeyIsTheRest(order[1..], key);
      assert order == [order[0]] + order[1..];
      var rest := WithoutKey(order[1..], key);
      forall j | 0 <= j < |rest| ensures rest[j] != order[0] {
        assert rest[j] in rest;
      }
    }
  }

  function WithoutView(order: seq<Key>, view: ViewId): seq<Key> {
    if order == [] then []
    else
      WithoutView(order[..|order| - 1], view)
      + (if order[|order| - 1].view == view then [] else [order[|order| - 1]])
  }

  lemma {:induction false} WithoutViewIsTheRest(order: seq<Key>, view: ViewId)
    requires Distinct(order)
    ensures Distinct(WithoutView(order, view)) && |WithoutView(order, view)| <= |order|
    ensures forall k :: k in WithoutView(order, view) <==> k in order && k.view != view
  {
    if order != [] {
      WithoutViewIsTheRest(order[..|order| - 1], view);
      assert order == order[..|order| - 1] + [order[|order| - 1]];
    }
  }

  /** One more early cancellation; the oldest makes room. */
  function Noted(order: seq<Key>, key: Key): seq<Key> {
    if key in order then order
    else (if |order| >= MAX_EARLY_CANCELS then order[1..] else order) + [key]
  }

  lemma NotingKeepsCancels(order: seq<Key>, early: set<Key>, views: Views, key: Key)
    requires Cancels(order, early, views) && key.view in views && key.operation !in views[key.view].operations && key !in early
    ensures var dropped := if |order| >= MAX_EARLY_CANCELS then {order[0]} else {};
            Cancels(Noted(order, key), early - dropped + {key}, views)
  {
    if |order| >= MAX_EARLY_CANCELS {
      assert order == [order[0]] + order[1..];
      assert order[0] !in order[1..];
    }
  }

  // ------------------------------------------------------------------
  // Steps
  // ------------------------------------------------------------------

  lemma HoldsAlike(view: View, other: View, op: Operation)
    requires view.ref == other.ref && view.operations == other.operations
    ensures Holds(view, op) == Holds(other, op)
  {
  }

  lemma ListsAlike(view: View, other: View, unfinished: set<Operation>)
    requires view.ref == other.ref && view.operations == other.operations && ListsOnly(view, unfinished)
    ensures ListsOnly(other, unfinished)
  {
    forall o | o in other.operations
      ensures exists op <- unfinished :: op.id == o && Holds(other, op)
    {
      var op :| op in unfinished && op.id == o && Holds(view, op);
      assert Holds(other, op);
    }
  }

  lemma NothingListed(view: View, unfinished: set<Operation>)
    requires view.operations == map[]
    ensures ListsOnly(view, unfinished)
  {
  }

  lemma Assembled(views: Views, revoked: Revoked, unfinished: set<Operation>)
    requires forall op <- unfinished :: Held(views, revoked, op)
    requires forall id <- views :: ListsOnly(views[id], unfinished)
    requires forall r <- revoked :: ListsOnly(revoked[r], unfinished)
    ensures Listed(views, revoked, unfinished)
  {
    hide Held, ListsOnly;
  }

  lemma Parts(views: Views, revoked: Revoked, unfinished: set<Operation>)
    requires Listed(views, revoked, unfinished)
    ensures forall op <- unfinished :: Held(views, revoked, op)
    ensures forall id <- views :: ListsOnly(views[id], unfinished)
    ensures forall r <- revoked :: ListsOnly(revoked[r], unfinished)
  {
    hide Held, ListsOnly;
  }

  lemma ReferencesWith(views: Views, revoked: Revoked, next: Ref, id: ViewId, view: View)
    requires Referenced(views, revoked, next)
    ensures id !in views && view.ref == next ==> Referenced(views[id := view], revoked, next + 1)
    ensures id in views && view.ref == views[id].ref ==>
              Referenced(views[id := view], revoked, next) && Referenced(views - {id}, revoked[view.ref := view], next)
  {
  }

  lemma MoreKeepsHeld(views: Views, revoked: Revoked, id: ViewId, view: View, op: Operation)
    requires Held(views, revoked, op) && id !in views
    ensures Held(views[id := view], revoked, op)
  {
    hide Holds;
  }

  lemma {:induction false} RegisteringKeeps(views: Views, revoked: Revoked, unfinished: set<Operation>, next: Ref,
          id: ViewId, view: View)
    requires Referenced(views, revoked, next) && Listed(views, revoked, unfinished)
    requires id !in views && view.ref == next && view.operations == map[]
    ensures Referenced(views[id := view], revoked, next + 1) && Listed(views[id := view], revoked, unfinished)
  {
    hide Referenced, Listed, Held, ListsOnly;
    ReferencesWith(views, revoked, next, id, view);
    NothingListed(view, unfinished);
    Parts(views, revoked, unfinished);
    var more := views[id := view];
    forall op | op in unfinished ensures Held(more, revoked, op) {
      MoreKeepsHeld(views, revoked, id, view, op);
    }
    Assembled(more, revoked, unfinished);
  }

  lemma RewritingKeepsHeld(views: Views, revoked: Revoked, id: ViewId, view: View, op: Operation)
    requires Held(views, revoked, op) && id in views && view.ref == views[id].ref && view.operations == views[id].operations
    ensures Held(views[id := view], revoked, op)
  {
    HoldsAlike(views[id], view, op);
    hide Holds;
  }

  /** Content read or dropped, operations untouched. */
  lemma {:induction false} RewritingKeeps(views: Views, revoked: Revoked, unfinished: set<Operation>, next: Ref,
          id: ViewId, view: View)
    requires Referenced(views, revoked, next) && Listed(views, revoked, unfinished)
    requires id in views && view.ref == views[id].ref && view.operations == views[id].operations
    ensures Referenced(views[id := view], revoked, next) && Listed(views[id := view], revoked, unfinished)
  {
    hide Referenced, Listed, Held, ListsOnly;
    ReferencesWith(views, revoked, next, id, view);
    Parts(views, revoked, unfinished);
    ListsAlike(views[id], view, unfinished);
    var same := views[id := view];
    forall op | op in unfinished ensures Held(same, revoked, op) {
      RewritingKeepsHeld(views, revoked, id, view, op);
    }
    Assembled(same, revoked, unfinished);
  }

  lemma RevokingKeepsHeld(views: Views, revoked: Revoked, next: Ref, id: ViewId, view: View, op: Operation)
    requires Referenced(views, revoked, next) && Held(views, revoked, op)
    requires id in views && view.ref == views[id].ref && view.operations == views[id].operations
    ensures Held(views - {id}, revoked[view.ref := view], op)
  {
    if op.view == id && Holds(views[id], op) {
      HoldsAlike(views[id], view, op);
    }
  }

  lemma {:induction false} RevokingKeeps(views: Views, revoked: Revoked, unfinished: set<Operation>, next: Ref,
          id: ViewId, view: View)
    requires Referenced(views, revoked, next) && Listed(views, revoked, unfinished)
    requires id in views && view.ref == views[id].ref && view.operations == views[id].operations
    ensures Referenced(views - {id}, revoked[view.ref := view], next) && Listed(views - {id}, revoked[view.ref := view], unfinished)
  {
    hide Referenced, Listed, Held, ListsOnly;
    ReferencesWith(views, revoked, next, id, view);
    Parts(views, revoked, unfinished);
    ListsAlike(views[id], view, unfinished);
    var fewer, more := views - {id}, revoked[view.ref := view];
    forall op | op in unfinished ensures Held(fewer, more, op) {
      RevokingKeepsHeld(views, revoked, next, id, view, op);
    }
    Assembled(fewer, more, unfinished);
  }

  lemma ListsOnlyMore(view: View, unfinished: set<Operation>, more: set<Operation>)
    requires ListsOnly(view, unfinished) && unfinished <= more
    ensures ListsOnly(view, more)
  {
    forall o | o in view.operations
      ensures exists op <- more :: op.id == o && Holds(view, op)
    {
      var op :| op in unfinished && op.id == o && Holds(view, op);
      assert op in more;
    }
  }

  function Starting(view: View, op: Operation): View {
    view.(operations := view.operations[op.id := op.token])
  }

  lemma StartedIsListed(view: View, unfinished: set<Operation>, op: Operation)
    requires ListsOnly(view, unfinished) && op.ref == view.ref && op.id !in view.operations && |view.operations| < MAX_VIEW_OPERATIONS
    ensures ListsOnly(Starting(view, op), unfinished + {op}) && Holds(Starting(view, op), op)
    ensures forall o | Holds(view, o) :: Holds(Starting(view, op), o)
  {
    var next, more := Starting(view, op), unfinished + {op};
    assert next.operations.Keys == view.operations.Keys + {op.id};
    forall o | o in next.operations
      ensures exists x <- more :: x.id == o && Holds(next, x)
    {
      if o == op.id {
        assert op in more && Holds(next, op);
      } else {
        var x :| x in unfinished && x.id == o && Holds(view, x);
        assert x in more && Holds(next, x);
      }
    }
  }

  lemma StartingKeepsHeld(views: Views, revoked: Revoked, op: Operation, other: Operation)
    requires op.view in views && op.ref == views[op.view].ref && op.id !in views[op.view].operations
    requires other == op || Held(views, revoked, other)
    ensures Held(views[op.view := Starting(views[op.view], op)], revoked, other)
  {
  }

  lemma {:induction false} StartingKeeps(views: Views, revoked: Revoked, unfinished: set<Operation>, next: Ref, op: Operation)
    requires Referenced(views, revoked, next) && Listed(views, revoked, unfinished)
    requires op.view in views && op.ref == views[op.view].ref && op.id !in views[op.view].operations
    requires |views[op.view].operations| < MAX_VIEW_OPERATIONS
    ensures Referenced(views[op.view := Starting(views[op.view], op)], revoked, next)
    ensures Listed(views[op.view := Starting(views[op.view], op)], revoked, unfinished + {op})
  {
    hide Referenced, Listed, Held, Holds, ListsOnly;
    ReferencesWith(views, revoked, next, op.view, Starting(views[op.view], op));
    Parts(views, revoked, unfinished);
    StartedIsListed(views[op.view], unfinished, op);
    var same, more := views[op.view := Starting(views[op.view], op)], unfinished + {op};
    forall id | id in same ensures ListsOnly(same[id], more) {
      ListsOnlyMore(views[id], unfinished, more);
    }
    forall r | r in revoked ensures ListsOnly(revoked[r], more) {
      ListsOnlyMore(revoked[r], unfinished, more);
    }
    forall o | o in more ensures Held(same, revoked, o) {
      StartingKeepsHeld(views, revoked, op, o);
    }
    Assembled(same, revoked, more);
  }

  /** Other views list nothing of an operation that ends. */
  lemma ListsOnlyFewer(view: View, unfinished: set<Operation>, op: Operation)
    requires ListsOnly(view, unfinished) && !Holds(view, op)
    ensures ListsOnly(view, unfinished - {op})
  {
    forall o | o in view.operations
      ensures exists x <- unfinished - {op} :: x.id == o && Holds(view, x)
    {
      var x :| x in unfinished && x.id == o && Holds(view, x);
      assert x in unfinished - {op};
    }
  }

  lemma EndedListsOnly(view: View, unfinished: set<Operation>, op: Operation)
    requires ListsOnly(view, unfinished) && Holds(view, op)
    ensures ListsOnly(Ending(view, op), unfinished - {op})
  {
    var next := Ending(view, op);
    assert next.operations.Keys == view.operations.Keys - {op.id};
    forall o | o in next.operations
      ensures exists x <- unfinished - {op} :: x.id == o && Holds(next, x)
    {
      var x :| x in unfinished && x.id == o && Holds(view, x);
      assert x in unfinished - {op} && Holds(next, x);
    }
  }

  function Ending(view: View, op: Operation): View {
    view.(operations := view.operations - {op.id})
  }

  /** The view an unfinished operation belongs to is still open. */
  predicate IsLive(views: Views, op: Operation) {
    op.view in views && views[op.view].ref == op.ref
  }

  /** Whose operation it is: no other view lists it. */
  lemma OwnerIsUnique(views: Views, revoked: Revoked, next: Ref, op: Operation)
    requires Referenced(views, revoked, next) && Held(views, revoked, op)
    ensures IsLive(views, op) ==> Holds(views[op.view], op) && op.ref !in revoked
    ensures !IsLive(views, op) ==> op.ref in revoked && Holds(revoked[op.ref], op)
    ensures forall id <- views | Holds(views[id], op) :: IsLive(views, op) && id == op.view
    ensures forall r <- revoked | Holds(revoked[r], op) :: !IsLive(views, op) && r == op.ref
  {
    hide Listed;
  }

  lemma EndingKeepsHeld(view: View, op: Operation, other: Operation)
    requires Holds(view, op) && Holds(view, other) && other.token != op.token
    ensures Holds(Ending(view, op), other)
  {
  }

  /** Every operation ever begun, at the place its token says; the unfinished ones are
      among them. */
  type Begun = seq<Operation>

  predicate Began(begun: Begun, op: Operation) {
    op.token < |begun| && begun[op.token] == op
  }

  ghost predicate Known(unfinished: set<Operation>, begun: Begun) {
    forall op <- unfinished :: Began(begun, op)
  }

  lemma ReferencesFollow(views: Views, revoked: Revoked, next: Ref, op: Operation)
    requires Referenced(views, revoked, next)
    ensures op.view in views ==> Referenced(views[op.view := Ending(views[op.view], op)], revoked, next)
    ensures op.ref in revoked ==> Referenced(views, revoked[op.ref := Ending(revoked[op.ref], op)], next)
  {
  }

  lemma ElsewhereListedWithout(views: Views, revoked: Revoked, unfinished: set<Operation>, next: Ref, op: Operation)
    requires Referenced(views, revoked, next) && Listed(views, revoked, unfinished) && Held(views, revoked, op)
    ensures forall id <- views | !(IsLive(views, op) && id == op.view) :: ListsOnly(views[id], unfinished - {op})
    ensures forall r <- revoked | !(!IsLive(views, op) && r == op.ref) :: ListsOnly(revoked[r], unfinished - {op})
  {
    OwnerIsUnique(views, revoked, next, op);
    hide Referenced, Holds, Held, IsLive, ListsOnly;
    forall id | id in views && !(IsLive(views, op) && id == op.view)
      ensures ListsOnly(views[id], unfinished - {op})
    {
      ListsOnlyFewer(views[id], unfinished, op);
    }
    forall r | r in revoked && !(!IsLive(views, op) && r == op.ref)
      ensures ListsOnly(revoked[r], unfinished - {op})
    {
      ListsOnlyFewer(revoked[r], unfinished, op);
    }
  }

  lemma StillHeldLive(views: Views, revoked: Revoked, op: Operation, x: Operation)
    requires op.view in views && Holds(views[op.view], op) && Held(views, revoked, x) && x.token != op.token
    ensures Held(views[op.view := Ending(views[op.view], op)], revoked, x)
  {
    if x.view == op.view && Holds(views[op.view], x) {
      EndingKeepsHeld(views[op.view], op, x);
    }
    hide Holds, Ending;
  }

  lemma StillHeldRevoked(views: Views, revoked: Revoked, op: Operation, x: Operation)
    requires op.ref in revoked && Holds(revoked[op.ref], op) && Held(views, revoked, x) && x.token != op.token
    ensures Held(views, revoked[op.ref := Ending(revoked[op.ref], op)], x)
  {
    if x.ref == op.ref && Holds(revoked[op.ref], x) {
      EndingKeepsHeld(revoked[op.ref], op, x);
    }
    hide Holds, Ending;
  }

  lemma {:induction false} HeldAndUnlike(views: Views, revoked: Revoked, unfinished: set<Operation>, op: Operation, begun: Begun)
    requires Listed(views, revoked, unfinished) && Known(unfinished, begun) && op in unfinished
    ensures Held(views, revoked, op)
    ensures forall x <- unfinished - {op} :: Held(views, revoked, x) && x.token != op.token
    ensures forall id <- views :: ListsOnly(views[id], unfinished)
    ensures forall r <- revoked :: ListsOnly(revoked[r], unfinished)
  {
    hide Held, ListsOnly;
  }

  /** An operation of a live view ends. */
  lemma {:induction false} EndingLiveKeeps(views: Views, revoked: Revoked, unfinished: set<Operation>, next: Ref,
          op: Operation, begun: Begun)
    requires Referenced(views, revoked, next) && Listed(views, revoked, unfinished) && Known(unfinished, begun)
    requires op in unfinished && op.view in views && views[op.view].ref == op.ref
    ensures Holds(views[op.view], op)
    ensures Referenced(views[op.view := Ending(views[op.view], op)], revoked, next)
    ensures Listed(views[op.view := Ending(views[op.view], op)], revoked, unfinished - {op})
  {
    hide Referenced, Listed, Known, Held, Holds, ListsOnly, Ending;
    HeldAndUnlike(views, revoked, unfinished, op, begun);
    OwnerIsUnique(views, revoked, next, op);
    ReferencesFollow(views, revoked, next, op);
    ElsewhereListedWithout(views, revoked, unfinished, next, op);
    EndedListsOnly(views[op.view], unfinished, op);
    var same, fewer := views[op.view := Ending(views[op.view], op)], unfinished - {op};
    forall x | x in fewer ensures Held(same, revoked, x) {
      StillHeldLive(views, revoked, op, x);
    }
    Assembled(same, revoked, fewer);
  }

  /** An operation outlives its view. */
  lemma {:induction false} EndingRevokedKeeps(views: Views, revoked: Revoked, unfinished: set<Operation>, next: Ref,
          op: Operation, begun: Begun)
    requires Referenced(views, revoked, next) && Listed(views, revoked, unfinished) && Known(unfinished, begun)
    requires op in unfinished && !IsLive(views, op)
    ensures op.ref in revoked && Holds(revoked[op.ref], op)
    ensures Referenced(views, revoked[op.ref := Ending(revoked[op.ref], op)], next)
    ensures Listed(views, revoked[op.ref := Ending(revoked[op.ref], op)], unfinished - {op})
  {
    hide Referenced, Listed, Known, Held, Holds, ListsOnly, Ending, IsLive;
    HeldAndUnlike(views, revoked, unfinished, op, begun);
    OwnerIsUnique(views, revoked, next, op);
    ReferencesFollow(views, revoked, next, op);
    ElsewhereListedWithout(views, revoked, unfinished, next, op);
    EndedListsOnly(revoked[op.ref], unfinished, op);
    var same, fewer := revoked[op.ref := Ending(revoked[op.ref], op)], unfinished - {op};
    forall x | x in fewer ensures Held(views, same, x) {
      StillHeldRevoked(views, revoked, op, x);
    }
    Assembled(views, same, fewer);
  }
}
