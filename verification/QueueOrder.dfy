/** Order and indexing of the follow-up queue: which moves keep the list of items as
    it is, which one drops its head, and which element an index reaches. */
module QueueOrder {
  import opened Base
  import opened QueueModel

  lemma IdSetAppend(items: seq<Item>, item: Item)
    ensures IdSet(items + [item]) == IdSet(items) + {item.id}
  {
    assert item in items + [item];
    assert forall x :: x in items ==> x in items + [item];
  }

  lemma IdSetDropAt(items: seq<Item>, i: nat)
    requires i < |items| && Distinct(items)
    ensures Distinct(items[..i] + items[i + 1..])
    ensures IdSet(items[..i] + items[i + 1..]) == IdSet(items) - {items[i].id}
  {
    var rest := items[..i] + items[i + 1..];
    forall k | 0 <= k < |rest| ensures rest[k] == items[if k < i then k else k + 1] {}
    forall item | item in items && item.id != items[i].id ensures item in rest {
      var k :| 0 <= k < |items| && items[k] == item;
      assert rest[if k < i then k else k - 1] == item;
    }
  }

  lemma SameTexts(items: seq<Item>, i: nat, item: Item)
    requires i < |items| && item.id == items[i].id && Distinct(items)
    ensures Distinct(items[i := item]) && IdSet(items[i := item]) == IdSet(items)
  {
    var next := items[i := item];
    forall x | x in items ensures x.id in IdSet(next) {
      var k :| 0 <= k < |items| && items[k] == x;
      assert next[k].id == x.id && next[k] in next;
    }
    forall x | x in next ensures x.id in IdSet(items) {
      var k :| 0 <= k < |next| && next[k] == x;
      assert items[k].id == x.id && items[k] in items;
    }
  }

  // ------------------------------------------------------------------
  // Moves
  // ------------------------------------------------------------------

  /** Preparing, restoring and retrying move an item between the three places
      without changing the list the places make up. */
  lemma MovesKeepTheList(q: Queue, users: nat, promptActive: bool, revision: Revision)
    requires WellFormed(q)
    ensures q.dispatch.Some? ==> Flat(Requeued(q, revision)) == Flat(q)
    ensures q.dispatch.None? && q.blocked.None? && q.followUp != [] ==>
              Flat(Prepared(q, users, revision)) == Flat(q)
    ensures RetryTarget(q, promptActive).Some? ==>
              && Flat(Retried(q, promptActive)) == Flat(q)
              && Flat(q)[0].id == RetryTarget(q, promptActive).value
    ensures q.dispatch.Some? ==> Flat(Marked(q)) == Flat(q)
  {
    if q.dispatch.None? && q.blocked.None? && q.followUp != [] {
      assert q.followUp == [q.followUp[0]] + q.followUp[1..];
    }
  }

  /** Settling and recovering drop the head of the list exactly when the prompt was
      delivered, and otherwise leave the list as it is. */
  lemma {:induction false} OnlyDeliveryDropsTheHead(q: Queue, delivered: bool, failed: bool, turns: seq<string>,
          revision: Revision)
    requires WellFormed(q) && q.dispatch.Some?
    ensures Flat(Settled(q, delivered, failed, revision)) == if failed && !delivered then Flat(q) else Flat(q)[1..]
    ensures Flat(Recovered(q, turns, revision)) ==
            (var at := q.dispatch.value.previousUsers;
             if at < |turns| && turns[at] == q.dispatch.value.text then Flat(q)[1..] else Flat(q))
    ensures Flat(q)[0].id == q.dispatch.value.id
    ensures Recovered(q, turns, revision).dispatch.None?
    ensures q.dispatch.value.attempted ==> Recovered(q, turns, revision).followUp == q.followUp
  {
    assert DispatchItem(q) + BlockedItem(q) + q.followUp == [Flat(q)[0]] + q.followUp;
    assert Flat(q)[1..] == q.followUp;
  }

  /** An item that was prepared and sent is recognised: when the agent replays its prompt
      as the next user turn, whatever follows, it leaves the list. Without any new turn a
      dispatch that was never attempted goes back to its place, and an attempted one
      waits for the user. */
  lemma {:induction false} DispatchedIsRecognised(q: Queue, turns: seq<string>, later: seq<string>, revision: Revision, recovered: Revision)
    requires WellFormed(q) && q.dispatch.None? && q.blocked.None? && q.followUp != []
    ensures var prepared, item := Prepared(q, |turns|, revision), q.followUp[0];
            && Recovered(prepared, turns, recovered).followUp == q.followUp
            && Flat(Recovered(Marked(prepared), turns + [item.text] + later, recovered)) == Flat(q)[1..]
            && Recovered(Marked(prepared), turns, recovered).blocked == Some(item)
  {
    var prepared, item := Prepared(q, |turns|, revision), q.followUp[0];
    assert (turns + [item.text] + later)[|turns|] == item.text;
    assert Flat(q) == q.followUp && [item] + q.followUp[1..] == q.followUp;
    assert DispatchItem(prepared) + prepared.followUp == q.followUp;
  }

  // ------------------------------------------------------------------
  // Indexes
  // ------------------------------------------------------------------

  /** How many items of the full list come before the shown ones: the dispatch, when
      its prompt is active. */
  function Hidden(q: Queue, includeDispatch: bool): nat {
    Indicator(q.dispatch.Some? && !includeDispatch)
  }

  /** The shown list is the full list without its hidden head, and the wire projection
      carries its texts. */
  lemma VisibleIsTheListWithoutTheHidden(q: Queue, includeDispatch: bool)
    ensures Hidden(q, includeDispatch) <= |Flat(q)|
    ensures Visible(q, includeDispatch) == Flat(q)[Hidden(q, includeDispatch)..]
    ensures Texts(Flat(q)[Hidden(q, includeDispatch)..]) == Wire(q, includeDispatch)
  {
    if q.dispatch.Some? && !includeDispatch {
      assert Flat(q) == DispatchItem(q) + (BlockedItem(q) + q.followUp);
    }
    WireCarriesTheTexts(q, includeDispatch);
  }

  lemma WireCarriesTheTexts(q: Queue, includeDispatch: bool)
    ensures Texts(Visible(q, includeDispatch)) == Wire(q, includeDispatch)
  {
  }

  /** The position in the full list of an existing place. */
  function Position(q: Queue, place: Place): nat {
    match place
    case AtDispatch => 0
    case AtBlocked => Indicator(q.dispatch.Some?)
    case AtFollowUp(k) => Indicator(q.dispatch.Some?) + Indicator(q.blocked.Some?) + k
    case Nowhere => 0
  }

  lemma ShownIndexesHavePlaces(q: Queue, includeDispatch: bool, index: int)
    ensures !PlaceOf(q, includeDispatch, index).Nowhere? <==> 0 <= index < |Visible(q, includeDispatch)|
    ensures !PlaceOf(q, includeDispatch, index).Nowhere? ==>
              && Exists(q, PlaceOf(q, includeDispatch, index))
              && Position(q, PlaceOf(q, includeDispatch, index)) == Hidden(q, includeDispatch) + index
              && (PlaceOf(q, includeDispatch, index).AtDispatch? ==> includeDispatch)
  {
  }

  lemma EditedList(q: Queue, place: Place, text: string)
    requires Exists(q, place)
    ensures var at := Position(q, place);
            at < |Flat(q)| && Flat(Edited(q, place, text)) == Flat(q)[at := Flat(q)[at].(text := text)]
  {
    var at := Position(q, place);
    var before, after := Flat(q), Flat(Edited(q, place, text));
    forall i | 0 <= i < |before| ensures after[i] == if i == at then before[at].(text := text) else before[i] {}
  }

  lemma ShortenedList(q: Queue, place: Place)
    requires Exists(q, place)
    ensures var at := Position(q, place);
            at < |Flat(q)| && Flat(Without(q, place)) == Flat(q)[..at] + Flat(q)[at + 1..]
  {
    hide Flat;
    match place
    case AtDispatch => DispatchTaken(q);
    case AtBlocked => BlockedTaken(q);
    case AtFollowUp(k) => FollowUpTaken(q, k);
  }

  lemma DispatchTaken(q: Queue)
    requires q.dispatch.Some?
    ensures |Flat(q)| > 0 && Flat(q.(dispatch := None)) == Flat(q)[..0] + Flat(q)[1..]
  {
    var rest := BlockedItem(q) + q.followUp;
    assert Flat(q) == [DispatchItem(q)[0]] + rest && Flat(q.(dispatch := None)) == rest;
    hide Flat, BlockedItem, DispatchItem;
    DropsFirst(DispatchItem(q)[0], rest);
  }

  lemma BlockedTaken(q: Queue)
    requires q.blocked.Some?
    ensures var at := |DispatchItem(q)|;
            at < |Flat(q)| && Flat(q.(blocked := None)) == Flat(q)[..at] + Flat(q)[at + 1..]
  {
    DropsMiddle(DispatchItem(q), q.blocked.value, q.followUp);
    assert Flat(q) == DispatchItem(q) + [q.blocked.value] + q.followUp;
    assert Flat(q.(blocked := None)) == DispatchItem(q) + q.followUp;
  }

  lemma FollowUpTaken(q: Queue, k: nat)
    requires k < |q.followUp|
    ensures var at := |DispatchItem(q)| + |BlockedItem(q)| + k;
            && at < |Flat(q)|
            && Flat(q.(followUp := q.followUp[..k] + q.followUp[k + 1..])) == Flat(q)[..at] + Flat(q)[at + 1..]
  {
    DropsInTail(DispatchItem(q) + BlockedItem(q), q.followUp, k);
  }

  lemma DropsFirst(first: Item, rest: seq<Item>)
    ensures ([first] + rest)[..0] + ([first] + rest)[1..] == rest
  {
  }

  lemma DropsMiddle(before: seq<Item>, item: Item, after: seq<Item>)
    ensures var all := before + [item] + after;
            all[..|before|] + all[|before| + 1..] == before + after
  {
  }

  lemma DropsInTail(head: seq<Item>, tail: seq<Item>, k: nat)
    requires k < |tail|
    ensures var all, at := head + tail, |head| + k;
            all[..at] + all[at + 1..] == head + (tail[..k] + tail[k + 1..])
  {
    var all, at := head + tail, |head| + k;
    assert all[..at] == head + tail[..k];
    assert all[at + 1..] == tail[k + 1..];
  }

  lemma EditedHides(q: Queue, includeDispatch: bool, place: Place, text: string)
    requires Exists(q, place)
    ensures Hidden(Edited(q, place, text), includeDispatch) == Hidden(q, includeDispatch)
    ensures Position(q, place) < |Flat(q)|
  {
  }

  lemma EditedWire(q: Queue, includeDispatch: bool, place: Place, text: string)
    requires Exists(q, place) && Hidden(q, includeDispatch) <= Position(q, place)
    requires |Wire(q, includeDispatch)| == |Flat(q)| - Hidden(q, includeDispatch)
    requires Position(q, place) < |Flat(q)|
    ensures Wire(Edited(q, place, text), includeDispatch)
         == Wire(q, includeDispatch)[Position(q, place) - Hidden(q, includeDispatch) := text]
  {
    hide Wire, Visible, Flat, Edited, Hidden, Texts, Position, Exists;
    EditedList(q, place, text);
    EditedHides(q, includeDispatch, place, text);
    VisibleIsTheListWithoutTheHidden(q, includeDispatch);
    VisibleIsTheListWithoutTheHidden(Edited(q, place, text), includeDispatch);
    UpdateThenDrop(Flat(q), Hidden(q, includeDispatch), Position(q, place) - Hidden(q, includeDispatch), text);
  }

  lemma UpdateThenDrop(items: seq<Item>, hidden: nat, index: nat, text: string)
    requires hidden + index < |items|
    ensures Texts(items[hidden + index := items[hidden + index].(text := text)][hidden..])
         == Texts(items[hidden..])[index := text]
  {
  }

  lemma RemoveThenDrop(items: seq<Item>, hidden: nat, index: nat)
    requires hidden + index < |items|
    ensures var at := hidden + index;
            Texts((items[..at] + items[at + 1..])[hidden..])
            == Texts(items[hidden..])[..index] + Texts(items[hidden..])[index + 1..]
  {
    var at := hidden + index;
    assert (items[..at] + items[at + 1..])[hidden..] == items[hidden..at] + items[at + 1..];
  }

  /** The shown indexes are exactly the ones that point at a place. */
  lemma ShownIndexes(q: Queue, includeDispatch: bool, index: int)
    ensures !PlaceOf(q, includeDispatch, index).Nowhere? <==> 0 <= index < |Wire(q, includeDispatch)|
  {
    VisibleIsTheListWithoutTheHidden(q, includeDispatch);
    ShownIndexesHavePlaces(q, includeDispatch, index);
  }

  /** An edit at a shown index changes the text shown there and nothing else on the
      wire or in the list. */
  lemma {:induction false} EditTouchesTheShownElement(q: Queue, includeDispatch: bool, index: int, text: string)
    requires 0 <= index < |Wire(q, includeDispatch)|
    ensures var place := PlaceOf(q, includeDispatch, index);
            && Exists(q, place)
            && Wire(Edited(q, place, text), includeDispatch) == Wire(q, includeDispatch)[index := text]
            && Hidden(q, includeDispatch) + index < |Flat(q)|
            && Flat(Edited(q, place, text)) ==
               Flat(q)[Hidden(q, includeDispatch) + index := Flat(q)[Hidden(q, includeDispatch) + index].(text := text)]
  {
    hide Wire, Visible, Flat, Edited, PlaceOf, Hidden, Texts, Position, Exists;
    VisibleIsTheListWithoutTheHidden(q, includeDispatch);
    TextsKeepLength(Flat(q)[Hidden(q, includeDispatch)..]);
    ShownIndexesHavePlaces(q, includeDispatch, index);
    var place := PlaceOf(q, includeDispatch, index);
    EditedHides(q, includeDispatch, place, text);
    EditedWire(q, includeDispatch, place, text);
    EditedList(q, place, text);
  }

  lemma RemovalHides(q: Queue, includeDispatch: bool, index: int)
    requires !PlaceOf(q, includeDispatch, index).Nowhere?
    ensures Exists(q, PlaceOf(q, includeDispatch, index))
    ensures Hidden(Without(q, PlaceOf(q, includeDispatch, index)), includeDispatch) == Hidden(q, includeDispatch)
  {
  }

  /** A removal at a shown index takes out exactly the item shown there. */
  lemma {:induction false} RemoveTakesTheShownElement(q: Queue, includeDispatch: bool, index: int)
    requires 0 <= index < |Wire(q, includeDispatch)|
    ensures var place, wire := PlaceOf(q, includeDispatch, index), Wire(q, includeDispatch);
            && Exists(q, place)
            && Wire(Without(q, place), includeDispatch) == wire[..index] + wire[index + 1..]
            && Hidden(q, includeDispatch) + index < |Flat(q)|
            && Flat(Without(q, place)) ==
               Flat(q)[..Hidden(q, includeDispatch) + index] + Flat(q)[Hidden(q, includeDispatch) + index + 1..]
  {
    hide Wire, Visible, Flat, Without, PlaceOf, Hidden, Texts, Position, Exists;
    VisibleIsTheListWithoutTheHidden(q, includeDispatch);
    TextsKeepLength(Flat(q)[Hidden(q, includeDispatch)..]);
    ShownIndexesHavePlaces(q, includeDispatch, index);
    var place := PlaceOf(q, includeDispatch, index);
    RemovalHides(q, includeDispatch, index);
    ShortenedList(q, place);
    VisibleIsTheListWithoutTheHidden(Without(q, place), includeDispatch);
    RemoveThenDrop(Flat(q), Hidden(q, includeDispatch), index);
  }

  lemma TextsKeepLength(items: seq<Item>)
    ensures |Texts(items)| == |items|
  {
  }

  /** An edit keeps every id in its place and the record storable. */
  lemma EditKeepsTheRecordValid(q: Queue, place: Place, text: string)
    requires WellFormed(q) && Exists(q, place) && ValidText(text)
    ensures Ids(Edited(q, place, text)) == Ids(q) && WellFormed(Edited(q, place, text))
  {
    EditedList(q, place, text);
    var at := Position(q, place);
    SameTexts(Flat(q), at, Flat(q)[at].(text := text));
  }

  /** A removal takes one id out and keeps the record storable. */
  lemma RemoveKeepsTheRecordValid(q: Queue, place: Place)
    requires WellFormed(q) && Exists(q, place)
    ensures Position(q, place) < |Flat(q)|
    ensures Ids(Without(q, place)) == Ids(q) - {Flat(q)[Position(q, place)].id}
    ensures WellFormed(Without(q, place))
  {
    ShortenedList(q, place);
    IdSetDropAt(Flat(q), Position(q, place));
    ValidTextsDropAt(Flat(q), Position(q, place));
    hide Flat, Position, ValidTexts, Distinct;
  }

  lemma ValidTextsDropAt(items: seq<Item>, i: nat)
    requires i < |items| && ValidTexts(items)
    ensures ValidTexts(items[..i] + items[i + 1..])
  {
    hide ValidText;
  }

  lemma FollowUpsAreTheTail(q: Queue)
    ensures Flat(q)[|Flat(q)| - |q.followUp|..] == q.followUp
    ensures Distinct(Flat(q)) ==> Distinct(q.followUp)
    ensures IdSet(q.followUp) <= Ids(q) && RunnableIds(q) <= Ids(q)
  {
    var n := |Flat(q)| - |q.followUp|;
    assert forall i :: 0 <= i < |q.followUp| ==> q.followUp[i] == Flat(q)[n + i];
    if q.dispatch.Some? {
      assert Flat(q)[0] in Flat(q);
    }
  }

  /** Neither an edit nor a removal lets the controller send more than before. */
  lemma EditsAndRemovalsAddNothingRunnable(q: Queue, place: Place, text: string)
    requires WellFormed(q) && Exists(q, place)
    ensures RunnableIds(Edited(q, place, text)) == RunnableIds(q)
    ensures RunnableIds(Without(q, place)) <= RunnableIds(q)
  {
    FollowUpsAreTheTail(q);
    match place
    case AtFollowUp(k) =>
      SameTexts(q.followUp, k, q.followUp[k].(text := text));
      IdSetDropAt(q.followUp, k);
    case _ =>
  }
}
