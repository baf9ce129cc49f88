/** Keeping idle chat projections within a budget: at most 24 of them and at most 8 MiB,
    giving up the longest idle ones first. */
module Eviction {
  import opened Base

  const MAX_COUNT := 24
  const MAX_BYTES := 8 * 1024 * 1024

  type Id = string

  /** What the eviction looks at in a session. `encoded` is the size of the projection's
      encoding, absent when it cannot be encoded; a cached size of zero is unknown. */
  datatype Entry = Entry(
    refs: nat,
    streaming: bool,
    promptActive: bool,
    running: bool,
    steering: nat,
    memoryOnlyQueue: bool,
    drainScheduled: bool,
    drainRetry: bool,
    replaying: bool,
    ephemeral: bool,
    inactiveAt: Option<nat>,
    inactiveBytes: nat,
    encoded: Option<nat>)

  predicate InUse(e: Entry) { e.refs > 0 }

  predicate Guarded(e: Entry, leased: bool) {
    leased || e.streaming || e.promptActive || e.running || e.steering > 0 || e.memoryOnlyQueue
    || e.drainScheduled || e.drainRetry || e.replaying
  }

  function BytesOf(e: Entry): Option<nat> {
    if e.inactiveBytes != 0 then Some(e.inactiveBytes) else e.encoded
  }

  /** Idle sessions that are given up whatever the budget says. */
  predicate Unkeepable(e: Entry, leased: bool) {
    !InUse(e) && !Guarded(e, leased) && (e.ephemeral || BytesOf(e).None?)
  }

  predicate Idle(e: Entry, leased: bool) {
    !InUse(e) && !Guarded(e, leased) && !e.ephemeral && BytesOf(e).Some?
  }

  function IdleSince(e: Entry, now: nat): nat {
    if e.inactiveAt.Some? then e.inactiveAt.value else now
  }

  /** How a surviving session is left. */
  function Looked(e: Entry, leased: bool, now: nat): Entry {
    if InUse(e) then e
    else if Guarded(e, leased) then e.(inactiveAt := None)
    else if Idle(e, leased) then e.(inactiveAt := Some(IdleSince(e, now)), inactiveBytes := BytesOf(e).value)
    else e
  }

  // ------------------------------------------------------------------
  // The order in which sessions are given up
  // ------------------------------------------------------------------

  predicate TextLess(a: string, b: string) {
    if b == [] then false
    else if a == [] then true
    else a[0] < b[0] || (a[0] == b[0] && TextLess(a[1..], b[1..]))
  }

  lemma {:induction false} TextOrderIsTotal(a: string, b: string)
    ensures TextLess(a, b) || a == b || TextLess(b, a)
    ensures !(TextLess(a, b) && TextLess(b, a))
    ensures !TextLess(a, a)
  {
    if a != [] && b != [] {
      TextOrderIsTotal(a[1..], b[1..]);
      TextOrderIsTotal(a[1..], a[1..]);
      assert a == [a[0]] + a[1..] && b == [b[0]] + b[1..];
    } else if a != [] {
      TextOrderIsTotal(a[1..], a[1..]);
    }
  }

  /** The first text is the beginning of the second, or smaller where they first differ. */
  predicate DifferAt(a: string, b: string, k: nat) {
    && k <= |a| && k < |b| && (forall i :: 0 <= i < k ==> a[i] == b[i])
    && (k == |a| || a[k] < b[k])
  }

  lemma {:induction false} TextOrderIsLexical(a: string, b: string)
    ensures TextLess(a, b) <==> exists k: nat :: DifferAt(a, b, k)
  {
    if b != [] {
      if a == [] || a[0] < b[0] {
        assert DifferAt(a, b, 0);
      } else {
        TextOrderIsLexical(a[1..], b[1..]);
        if k: nat :| DifferAt(a, b, k) {
          assert DifferAt(a[1..], b[1..], k - 1);
        }
        if a[0] == b[0] && TextLess(a[1..], b[1..]) {
          var k: nat :| DifferAt(a[1..], b[1..], k);
          assert DifferAt(a, b, k + 1);
        }
      }
    }
  }

  lemma {:induction false} TextOrderIsTransitive(a: string, b: string, c: string)
    requires TextLess(a, b) && TextLess(b, c)
    ensures TextLess(a, c)
  {
    if a != [] && a[0] == b[0] && b[0] == c[0] {
      TextOrderIsTransitive(a[1..], b[1..], c[1..]);
    }
  }

  datatype Candidate = Candidate(id: Id, at: nat, bytes: nat)

  predicate Before(a: Candidate, b: Candidate) {
    a.at < b.at || (a.at == b.at && TextLess(a.id, b.id))
  }

  predicate Ordered(s: seq<Candidate>) {
    forall i, j :: 0 <= i < j < |s| ==> Before(s[i], s[j])
  }

  lemma OrderedIsDistinct(s: seq<Candidate>, i: nat, j: nat)
    requires Ordered(s) && i < j < |s|
    ensures s[i].id != s[j].id || s[i].at != s[j].at
  {
    TextOrderIsTotal(s[i].id, s[j].id);
  }

  function Total(s: seq<Candidate>): nat {
    if s == [] then 0 else s[0].bytes + Total(s[1..])
  }

  predicate Suffices(s: seq<Candidate>) {
    |s| <= MAX_COUNT && Total(s) <= MAX_BYTES
  }

  /** The length of the shortest prefix whose removal suffices. */
  function Surplus(s: seq<Candidate>): (k: nat)
    ensures k <= |s| && Suffices(s[k..])
    ensures forall j :: 0 <= j < k ==> !Suffices(s[j..])
  {
    if Suffices(s) then 0
    else
      TailsOfTail(s);
      Surplus(s[1..]) + 1
  }

  lemma TailsOfTail(s: seq<Candidate>)
    requires s != []
    ensures forall j :: 1 <= j <= |s| ==> s[j..] == s[1..][j - 1..]
    ensures s == s[0..]
  {
  }

  lemma OneIsBefore(a: Candidate, b: Candidate)
    requires a.id != b.id
    ensures Before(a, b) || Before(b, a)
  {
    TextOrderIsTotal(a.id, b.id);
  }

  lemma InsertedInOrder(s: seq<Candidate>, i: nat, c: Candidate)
    requires Ordered(s) && i <= |s|
    requires forall k :: 0 <= k < i ==> Before(s[k], c)
    requires i < |s| ==> Before(c, s[i])
    ensures Ordered(s[..i] + [c] + s[i..])
  {
    hide Before;
    forall k | i <= k < |s|
      ensures Before(c, s[k])
    {
      if k > i {
        BeforeIsTransitive(c, s[i], s[k]);
      }
    }
  }

  /** Inserts into an ordered list. */
  method Insert(s: seq<Candidate>, c: Candidate) returns (r: seq<Candidate>)
    requires Ordered(s) && forall x <- s :: x.id != c.id
    ensures Ordered(r) && multiset(r) == multiset(s) + multiset{c} && Total(r) == Total(s) + c.bytes
  {
    hide Ordered, Before, Total;
    var i := 0;
    while i < |s| && Before(s[i], c)
      invariant 0 <= i <= |s|
      invariant forall k :: 0 <= k < i ==> Before(s[k], c)
    {
      i := i + 1;
    }
    if i < |s| {
      OneIsBefore(s[i], c);
    }
    InsertedInOrder(s, i, c);
    r := s[..i] + [c] + s[i..];
    assert s == s[..i] + s[i..];
    TotalSplits(s[..i], s[i..]);
    TotalSplits(s[..i] + [c], s[i..]);
    TotalAppends(s[..i], c);
  }

  lemma BeforeIsTransitive(a: Candidate, b: Candidate, c: Candidate)
    requires Before(a, b) && Before(b, c)
    ensures Before(a, c)
  {
    if a.at == b.at == c.at {
      TextOrderIsTransitive(a.id, b.id, c.id);
    }
  }

  /** Sorts by time, then by identifier. */
  method Sort(s: seq<Candidate>) returns (r: seq<Candidate>)
    requires forall i, j :: 0 <= i < j < |s| ==> s[i].id != s[j].id
    ensures Ordered(r) && multiset(r) == multiset(s) && Total(r) == Total(s)
  {
    r := [];
    for i := 0 to |s|
      invariant Ordered(r) && multiset(r) == multiset(s[..i]) && Total(r) == Total(s[..i])
    {
      forall x | x in r ensures x.id != s[i].id {
        assert x in multiset(s[..i]);
      }
      r := Insert(r, s[i]);
      assert s[..i + 1] == s[..i] + [s[i]];
      TotalAppends(s[..i], s[i]);
    }
    assert s[..|s|] == s;
  }

  // ------------------------------------------------------------------
  // The eviction
  // ------------------------------------------------------------------

  function CandidateOf(id: Id, e: Entry, now: nat): Candidate
    requires BytesOf(e).Some?
  {
    Candidate(id, IdleSince(e, now), BytesOf(e).value)
  }

  ghost predicate IsAmong(id: Id, s: seq<Candidate>) {
    exists c <- s :: c.id == id
  }

  /** The candidates are the idle sessions among those looked at, each once. */
  ghost predicate ListsTheIdle(s: seq<Candidate>, sessions: map<Id, Entry>, looked: set<Id>, leased: set<Id>, now: nat) {
    && (forall c <- s ::
          && c.id in sessions && c.id in looked && Idle(sessions[c.id], c.id in leased)
          && c == CandidateOf(c.id, sessions[c.id], now))
    && (forall id <- sessions | id in looked && Idle(sessions[id], id in leased) :: IsAmong(id, s))
    && (forall i, j :: 0 <= i < j < |s| ==> s[i].id != s[j].id)
  }

  /** What the look leaves of the sessions, except for the `rest` not looked at yet. */
  ghost predicate LookedAt(sessions: map<Id, Entry>, before: map<Id, Entry>, rest: set<Id>, leased: set<Id>, now: nat) {
    && (forall id :: id in sessions <==> id in before && (id in rest || !Unkeepable(before[id], id in leased)))
    && (forall id <- sessions :: sessions[id] == if id in rest then before[id] else Looked(before[id], id in leased, now))
  }

  lemma NothingLookedAt(before: map<Id, Entry>, leased: set<Id>, now: nat)
    ensures LookedAt(before, before, before.Keys, leased, now) && ListsTheIdle([], before, {}, leased, now)
    ensures Total([]) == 0
  {
  }

  lemma LookingAtOne(sessions: map<Id, Entry>, before: map<Id, Entry>, rest: set<Id>, id: Id, leased: set<Id>, now: nat)
    requires LookedAt(sessions, before, rest, leased, now) && id in rest && id in before
    ensures Unkeepable(before[id], id in leased) ==> LookedAt(sessions - {id}, before, rest - {id}, leased, now)
    ensures !Unkeepable(before[id], id in leased) ==>
              LookedAt(sessions[id := Looked(before[id], id in leased, now)], before, rest - {id}, leased, now)
  {
    hide Unkeepable, Looked;
  }

  lemma ListingOne(s: seq<Candidate>, sessions: map<Id, Entry>, looked: set<Id>, id: Id, leased: set<Id>, now: nat)
    requires ListsTheIdle(s, sessions, looked, leased, now) && id in sessions && id !in looked
    ensures !Idle(sessions[id], id in leased) ==> ListsTheIdle(s, sessions, looked + {id}, leased, now)
    ensures Idle(sessions[id], id in leased) ==>
              ListsTheIdle(s + [CandidateOf(id, sessions[id], now)], sessions, looked + {id}, leased, now)
  {
    if Idle(sessions[id], id in leased) {
      var c := CandidateOf(id, sessions[id], now);
      var next := s + [c];
      assert next[|s|] == c;
      forall i | 0 <= i < |s| ensures next[i].id != id {
        assert s[i] in s;
      }
      forall other | IsAmong(other, s) ensures IsAmong(other, next) {
        var x :| x in s && x.id == other;
        assert x in next;
      }
      assert c in next;
      assert IsAmong(id, next);
    }
  }

  lemma IdleOnceEach(s: seq<Candidate>, sessions: map<Id, Entry>, looked: set<Id>, leased: set<Id>, now: nat)
    requires ListsTheIdle(s, sessions, looked, leased, now)
    ensures forall i, j :: 0 <= i < j < |s| ==> s[i].id != s[j].id
  {
  }

  lemma {:induction false} AsManyIdsAsCandidates(s: seq<Candidate>)
    ensures |set c <- s :: c.id| <= |s|
  {
    if s != [] {
      AsManyIdsAsCandidates(s[1..]);
      assert s == [s[0]] + s[1..];
      assert (set c <- s :: c.id) == {s[0].id} + (set c <- s[1..] :: c.id);
    }
  }

  lemma TotalAfterHead(s: seq<Candidate>)
    requires s != []
    ensures Total(s) == s[0].bytes + Total(s[1..])
  {
  }

  class Manager {
    var sessions: map<Id, Entry>
    var leases: map<string, set<Id>>

    constructor (sessions: map<Id, Entry>, leases: map<string, set<Id>>)
      ensures this.sessions == sessions && this.leases == leases
    {
      this.sessions, this.leases := sessions, leases;
    }

    ghost function Leased(): set<Id>
      reads this
    {
      set client, id | client in leases && id in leases[client] :: id
    }

    method CollectLeased() returns (leased: set<Id>)
      ensures leased == Leased()
    {
      leased := {};
      var rest := leases.Keys;
      while rest != {}
        invariant rest <= leases.Keys
        invariant leased == set client, id | client in leases.Keys - rest && id in leases[client] :: id
        decreases |rest|
      {
        var client :| client in rest;
        leased := leased + leases[client];
        rest := rest - {client};
      }
    }

    /** Looks at every session once, in any order. */
    method Look(leased: set<Id>, now: nat) returns (candidates: seq<Candidate>, total: nat)
      modifies this`sessions
      ensures LookedAt(sessions, old(sessions), {}, leased, now)
      ensures ListsTheIdle(candidates, old(sessions), old(sessions).Keys, leased, now)
      ensures total == Total(candidates)
    {
      hide LookedAt, ListsTheIdle, Guarded, Total;
      candidates, total := [], 0;
      ghost var before := sessions;
      var rest := sessions.Keys;
      NothingLookedAt(before, leased, now);
      assert before.Keys - rest == {};
      while rest != {}
        invariant rest <= before.Keys && rest <= sessions.Keys
        invariant forall id <- rest :: sessions[id] == before[id]
        invariant LookedAt(sessions, before, rest, leased, now)
        invariant ListsTheIdle(candidates, before, before.Keys - rest, leased, now)
        invariant total == Total(candidates)
        decreases |rest|
      {
        var id :| id in rest;
        var entry := sessions[id];
        LookingAtOne(sessions, before, rest, id, leased, now);
        ListingOne(candidates, before, before.Keys - rest, id, leased, now);
        assert before.Keys - (rest - {id}) == before.Keys - rest + {id};
        if InUse(entry) {
          assert sessions[id := entry] == sessions;
        } else if Guarded(entry, id in leased) {
          sessions := sessions[id := entry.(inactiveAt := None)];
        } else if entry.ephemeral || BytesOf(entry).None? {
          sessions := sessions - {id};
        } else {
          var at := IdleSince(entry, now);
          var bytes := BytesOf(entry).value;
          sessions := sessions[id := entry.(inactiveAt := Some(at), inactiveBytes := bytes)];
          TotalAppends(candidates, Candidate(id, at, bytes));
          candidates := candidates + [Candidate(id, at, bytes)];
          total := total + bytes;
        }
        rest := rest - {id};
      }
      assert before.Keys - rest == before.Keys;
    }

    /** Gives up the sessions nothing can keep, then the longest idle ones until the rest
        fits the budget, and no more of them. A session in use, leased or at work stays. */
    method Evict(now: nat) returns (ghost order: seq<Candidate>)
      modifies this`sessions
      ensures Ordered(order) && ListsTheIdle(order, old(sessions), old(sessions).Keys, old(Leased()), now)
      ensures forall id ::
              id in sessions <==>
              && id in old(sessions)
              && !Unkeepable(old(sessions)[id], id in old(Leased()))
              && !IsAmong(id, order[..Surplus(order)])
      ensures forall id <- sessions :: sessions[id] == Looked(old(sessions)[id], id in old(Leased()), now)
      ensures var left := order[Surplus(order)..];
              && Total(left) <= MAX_BYTES && |IdleIds(sessions, old(Leased()))| <= MAX_COUNT
              && forall id <- IdleIds(sessions, old(Leased())) :: IsAmong(id, left)
      ensures Protects(old(sessions), sessions, old(Leased()))
      ensures OldestFirst(old(sessions), sessions, now)
      ensures Measured(old(sessions), sessions, old(Leased()), now)
    {
      hide ListsTheIdle, Unkeepable, Looked, IsAmong, Ordered, Suffices, Surplus, Protects, OldestFirst, Measured;
      var leased := CollectLeased();
      var candidates, total := Look(leased, now);
      ghost var looked := sessions;
      ghost var unsorted := candidates;
      IdleOnceEach(unsorted, old(sessions), old(sessions).Keys, leased, now);
      candidates := Sort(candidates);
      order := candidates;
      SortingKeeps(unsorted, order, old(sessions), old(sessions).Keys, leased, now);
      ghost var k := 0;
      NobodyAmong(order[..0]);
      while |candidates| > MAX_COUNT || total > MAX_BYTES
        invariant k <= |order| && candidates == order[k..] && total == Total(candidates)
        invariant forall j :: 0 <= j < k ==> !Suffices(order[j..])
        invariant forall id :: id in sessions <==> id in looked && !IsAmong(id, order[..k])
        invariant forall id <- sessions :: sessions[id] == looked[id]
        decreases |candidates|
      {
        TotalAfterHead(candidates);
        NotEnough(candidates);
        AmongOneMore(order, k);
        var item := candidates[0];
        sessions := sessions - {item.id};
        total := total - item.bytes;
        candidates := candidates[1..];
        k := k + 1;
      }
      Enough(candidates);
      SurplusIsShortest(order, k);
      BudgetIsMet(old(sessions), sessions, order, leased, now);
      BusyStay(old(sessions), sessions, order, leased, now);
      OldestGoFirst(old(sessions), sessions, order, leased, now);
      IdleAreMeasured(old(sessions), sessions, order, leased, now);
    }
  }

  /** A session that a request holds, a browser leases, or in which anything is at work
      stays; at most it stops counting as idle. */
  ghost predicate Protects(before: map<Id, Entry>, after: map<Id, Entry>, leased: set<Id>) {
    forall id <- before ::
      var e := before[id];
      && (e.refs > 0 ==> id in after && after[id] == e)
      && (e.refs == 0 && (id in leased || e.streaming || e.promptActive || e.running || e.steering > 0 || e.memoryOnlyQueue
            || e.drainScheduled || e.drainRetry || e.replaying) ==>
            id in after && after[id] == e.(inactiveAt := None))
  }

  /** A session that could have been kept and goes was idle no shorter than any idle one
      that stays; the identifier breaks a tie. A session not seen idle before is idle
      from now on. */
  ghost predicate OldestFirst(before: map<Id, Entry>, after: map<Id, Entry>, now: nat) {
    forall gone, stays |
      && gone in before && gone !in after && !before[gone].ephemeral
      && (before[gone].inactiveBytes > 0 || before[gone].encoded.Some?)
      && stays in after && after[stays].refs == 0 && after[stays].inactiveAt.Some? ::
      var since := if before[gone].inactiveAt.Some? then before[gone].inactiveAt.value else now;
      since < after[stays].inactiveAt.value || (since == after[stays].inactiveAt.value && TextLess(gone, stays))
  }

  /** Of the sessions in which nothing is at work, those that are ephemeral or cannot be
      measured go; those that stay are idle since they were first seen so, and have a
      known size, computed once. */
  ghost predicate Measured(before: map<Id, Entry>, after: map<Id, Entry>, leased: set<Id>, now: nat) {
    forall id <- before ::
      var e := before[id];
      e.refs == 0 && id !in leased && !e.streaming && !e.promptActive && !e.running && e.steering == 0 && !e.memoryOnlyQueue
      && !e.drainScheduled && !e.drainRetry && !e.replaying ==>
        && (e.ephemeral || (e.inactiveBytes == 0 && e.encoded.None?) ==> id !in after)
        && (id in after ==>
              after[id] == e.(inactiveAt := Some(if e.inactiveAt.Some? then e.inactiveAt.value else now),
                              inactiveBytes := if e.inactiveBytes > 0 then e.inactiveBytes else e.encoded.value))
  }

  lemma IdleAreMeasured(before: map<Id, Entry>, after: map<Id, Entry>, order: seq<Candidate>, leased: set<Id>, now: nat)
    requires forall id :: id in after <==>
               id in before && !Unkeepable(before[id], id in leased) && !IsAmong(id, order[..Surplus(order)])
    requires forall id <- after :: after[id] == Looked(before[id], id in leased, now)
    ensures Measured(before, after, leased, now)
  {
    hide Surplus, IsAmong;
  }

  lemma AmongAreIdle(order: seq<Candidate>, k: nat, sessions: map<Id, Entry>, leased: set<Id>, now: nat)
    requires ListsTheIdle(order, sessions, sessions.Keys, leased, now) && k <= |order|
    ensures forall id | IsAmong(id, order[..k]) :: id in sessions && Idle(sessions[id], id in leased)
  {
    forall id | IsAmong(id, order[..k])
      ensures id in sessions && Idle(sessions[id], id in leased)
    {
      var c :| c in order[..k] && c.id == id;
      assert c in order;
    }
  }

  lemma BusyStay(before: map<Id, Entry>, after: map<Id, Entry>, order: seq<Candidate>, leased: set<Id>, now: nat)
    requires ListsTheIdle(order, before, before.Keys, leased, now)
    requires forall id :: id in after <==>
               id in before && !Unkeepable(before[id], id in leased) && !IsAmong(id, order[..Surplus(order)])
    requires forall id <- after :: after[id] == Looked(before[id], id in leased, now)
    ensures Protects(before, after, leased)
  {
    hide Surplus, ListsTheIdle, IsAmong;
    AmongAreIdle(order, Surplus(order), before, leased, now);
  }

  /** Of two candidates, the one in front of the cut is the one that comes first. */
  lemma InFrontComesFirst(order: seq<Candidate>, k: nat, gone: Id, stays: Id) returns (c: Candidate, d: Candidate)
    requires Ordered(order) && k <= |order| && IsAmong(gone, order[..k]) && IsAmong(stays, order[k..])
    ensures c in order && c.id == gone && d in order && d.id == stays && Before(c, d)
  {
    hide Before;
    var i :| 0 <= i < k && order[..k][i].id == gone;
    var j :| 0 <= j < |order| - k && order[k..][j].id == stays;
    c, d := order[i], order[k + j];
  }

  lemma {:induction false} OldestGoFirst(before: map<Id, Entry>, after: map<Id, Entry>, order: seq<Candidate>, leased: set<Id>, now: nat)
    requires ListsTheIdle(order, before, before.Keys, leased, now) && Ordered(order)
    requires forall id :: id in after <==>
               id in before && !Unkeepable(before[id], id in leased) && !IsAmong(id, order[..Surplus(order)])
    requires forall id <- after :: after[id] == Looked(before[id], id in leased, now)
    ensures OldestFirst(before, after, now)
  {
    hide Surplus, TextLess, IsAmong, Ordered;
    var k := Surplus(order);
    forall gone, stays |
      && gone in before && gone !in after && !before[gone].ephemeral
      && (before[gone].inactiveBytes > 0 || before[gone].encoded.Some?)
      && stays in after && after[stays].refs == 0 && after[stays].inactiveAt.Some?
      ensures var since := if before[gone].inactiveAt.Some? then before[gone].inactiveAt.value else now;
              since < after[stays].inactiveAt.value || (since == after[stays].inactiveAt.value && TextLess(gone, stays))
    {
      assert IsAmong(gone, order[..k]);
      assert Idle(before[stays], stays in leased) && IsAmong(stays, order);
      AmongSplits(order, k, stays);
      var c, d := InFrontComesFirst(order, k, gone, stays);
    }
  }

  ghost function IdleIds(sessions: map<Id, Entry>, leased: set<Id>): set<Id> {
    set id | id in sessions && Idle(sessions[id], id in leased)
  }

  /** The idle sessions that stay are among the candidates behind the surplus. */
  lemma BudgetIsMet(before: map<Id, Entry>, after: map<Id, Entry>, order: seq<Candidate>, leased: set<Id>, now: nat)
    requires ListsTheIdle(order, before, before.Keys, leased, now)
    requires forall id <- after :: id in before && !IsAmong(id, order[..Surplus(order)])
    requires forall id <- after :: after[id] == Looked(before[id], id in leased, now)
    ensures forall id <- IdleIds(after, leased) :: IsAmong(id, order[Surplus(order)..])
    ensures |IdleIds(after, leased)| <= MAX_COUNT && Total(order[Surplus(order)..]) <= MAX_BYTES
  {
    var k := Surplus(order);
    var left := order[k..];
    assert Suffices(left);
    hide Surplus, Total, Suffices;
    forall id | id in IdleIds(after, leased)
      ensures IsAmong(id, left) && id in (set c <- left :: c.id)
    {
      assert Idle(before[id], id in leased);
      assert IsAmong(id, order);
      AmongSplits(order, k, id);
    }
    AsManyIdsAsCandidates(left);
    CardinalityIsMonotonic(IdleIds(after, leased), set c <- left :: c.id);
    assert |left| <= MAX_COUNT && Total(left) <= MAX_BYTES by { SufficesMeans(left); }
  }

  lemma AmongSplits(s: seq<Candidate>, k: nat, id: Id)
    requires k <= |s| && IsAmong(id, s)
    ensures IsAmong(id, s[..k]) || IsAmong(id, s[k..])
  {
    var c :| c in s && c.id == id;
    assert s == s[..k] + s[k..];
    assert c in s[..k] || c in s[k..];
  }

  lemma SufficesMeans(s: seq<Candidate>)
    requires Suffices(s)
    ensures |s| <= MAX_COUNT && Total(s) <= MAX_BYTES
  {
  }

  lemma NotEnough(s: seq<Candidate>)
    requires |s| > MAX_COUNT || Total(s) > MAX_BYTES
    ensures !Suffices(s)
  {
  }

  lemma Enough(s: seq<Candidate>)
    requires |s| <= MAX_COUNT && Total(s) <= MAX_BYTES
    ensures Suffices(s)
  {
  }

  lemma NobodyAmong(s: seq<Candidate>)
    requires s == []
    ensures forall id :: !IsAmong(id, s)
  {
  }

  lemma AmongOneMore(s: seq<Candidate>, k: nat)
    requires k < |s|
    ensures forall id :: IsAmong(id, s[..k + 1]) <==> IsAmong(id, s[..k]) || id == s[k].id
  {
    assert s[..k + 1] == s[..k] + [s[k]];
    assert s[k] in s[..k + 1];
    forall id | IsAmong(id, s[..k]) ensures IsAmong(id, s[..k + 1]) {
      var c :| c in s[..k] && c.id == id;
      assert c in s[..k + 1];
    }
  }

  lemma {:induction false} TotalAppends(s: seq<Candidate>, c: Candidate)
    ensures Total(s + [c]) == Total(s) + c.bytes
  {
    if s == [] {
      assert [c][1..] == [];
    } else {
      TotalAppends(s[1..], c);
      assert (s + [c])[1..] == s[1..] + [c];
    }
  }

  lemma {:induction false} TotalSplits(s: seq<Candidate>, t: seq<Candidate>)
    ensures Total(s + t) == Total(s) + Total(t)
  {
    if s == [] {
      assert s + t == t;
    } else {
      TotalSplits(s[1..], t);
      assert (s + t)[1..] == s[1..] + t;
    }
  }

  lemma SortingKeeps(s: seq<Candidate>, t: seq<Candidate>, sessions: map<Id, Entry>, looked: set<Id>, leased: set<Id>, now: nat)
    requires multiset(s) == multiset(t) && Ordered(t) && ListsTheIdle(s, sessions, looked, leased, now)
    ensures ListsTheIdle(t, sessions, looked, leased, now)
  {
    forall c | c in t ensures c in s {
      assert c in multiset(t);
    }
    forall id | IsAmong(id, s) ensures IsAmong(id, t) {
      var c :| c in s && c.id == id;
      assert c in multiset(s);
      assert c in t;
    }
    forall i, j | 0 <= i < j < |t| ensures t[i].id != t[j].id {
      assert t[i] in s && t[j] in s;
      OrderedIsDistinct(t, i, j);
    }
  }

  lemma SurplusIsShortest(s: seq<Candidate>, k: nat)
    requires k <= |s| && Suffices(s[k..]) && forall j :: 0 <= j < k ==> !Suffices(s[j..])
    ensures k == Surplus(s)
  {
    hide Suffices;
  }
}
