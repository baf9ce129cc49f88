/** The cache that lets a client repeat a request after a lost reply without executing
    it twice. Running a request is split where the lock is released: `Begin` before the
    execution and `Settle` after it, with anything in between. */
module ReplayCache {
  import opened Base

  type Client = string
  type Id = string
  type Fingerprint = string

  /** An outcome shared by the first caller and all retries. */
  datatype Reply = Value(bytes: seq<nat>) | Error(message: string)

  /** The result is a reference; it is absent once it would not fit the budget. */
  datatype Entry = Entry(fingerprint: Fingerprint, result: Option<nat>, settled: bool, weight: nat)

  datatype Namespace = Namespace(requests: map<Id, Entry>, weight: nat)

  datatype Verdict = Execute(result: nat) | Share(result: nat) | Mismatch | Overflowed | Full

  // ------------------------------------------------------------------
  // Weights
  // ------------------------------------------------------------------

  ghost function Sum(requests: map<Id, Entry>): nat {
    if requests == map[] then 0
    else
      var id :| id in requests;
      requests[id].weight + Sum(requests - {id})
  }

  lemma {:induction false} SumWithout(requests: map<Id, Entry>, id: Id)
    requires id in requests
    ensures Sum(requests) == requests[id].weight + Sum(requests - {id})
    decreases |requests|
  {
    var first :| first in requests && Sum(requests) == requests[first].weight + Sum(requests - {first});
    if first != id {
      SumWithout(requests - {first}, id);
      SumWithout(requests - {id}, first);
      assert requests - {first} - {id} == requests - {id} - {first};
    }
  }

  lemma SumWith(requests: map<Id, Entry>, id: Id, entry: Entry)
    ensures Sum(requests[id := entry]) == entry.weight + Sum(requests - {id})
  {
    SumWithout(requests[id := entry], id);
    assert requests[id := entry] - {id} == requests - {id};
  }

  lemma SumOfAbsent(requests: map<Id, Entry>, id: Id)
    requires id !in requests
    ensures requests - {id} == requests
  {
  }

  // ------------------------------------------------------------------
  // What happened, in order
  // ------------------------------------------------------------------

  datatype Event =
    | Executed(client: Client, id: Id, result: nat, fingerprint: Fingerprint)
    | Settled(client: Client, id: Id, result: nat, reply: Reply, kept: bool)
    | Removed(client: Client, id: Id)

  /** What a kept reply weighs. */
  function Charge(reply: Reply): nat {
    match reply
    case Value(bytes) => |bytes|
    case Error(_) => 1
  }

  predicate Concerns(e: Event, client: Client, id: Id) { e.client == client && e.id == id }

  /** The entry of a request after an event about it. */
  function Recorded(entry: Option<Entry>, e: Event): Option<Entry> {
    match e
    case Executed(_, _, result, fingerprint) => Some(Entry(fingerprint, Some(result), false, 0))
    case Settled(_, _, result, reply, kept) =>
      if entry.None? then None
      else Some(Entry(entry.value.fingerprint, if kept then Some(result) else None, true, if kept then Charge(reply) else 0))
    case Removed(_, _) => None
  }

  /** The entry of a request after these events, if there is one. */
  function Recalled(log: seq<Event>, client: Client, id: Id): Option<Entry> {
    if log == [] then None
    else
      var before := Recalled(log[..|log| - 1], client, id);
      if Concerns(log[|log| - 1], client, id) then Recorded(before, log[|log| - 1]) else before
  }

  /** An execution starts only when the request is absent, it is settled once and with its
      own result, and only a settled one is removed. */
  predicate InTurn(entry: Option<Entry>, e: Event) {
    match e
    case Executed(_, _, _, _) => entry.None?
    case Settled(_, _, result, _, _) => entry.Some? && !entry.value.settled && entry.value.result == Some(result)
    case Removed(_, _) => entry.Some? && entry.value.settled
  }

  predicate Orderly(log: seq<Event>) {
    log == []
    || (Orderly(log[..|log| - 1]) &&
        var last := log[|log| - 1];
        InTurn(Recalled(log[..|log| - 1], last.client, last.id), last))
  }

  lemma {:induction false} OrderlyAt(log: seq<Event>, n: nat)
    requires Orderly(log) && n <= |log|
    ensures Orderly(log[..n])
  {
    if n == |log| {
      assert log[..n] == log;
    } else {
      OrderlyAt(log[..|log| - 1], n);
      assert log[..|log| - 1][..n] == log[..n];
    }
  }

  /** Without a removal a request that was started stays, under its fingerprint. */
  lemma {:induction false} StartedStays(log: seq<Event>, i: nat, j: nat, client: Client, id: Id)
    requires Orderly(log) && i < j <= |log|
    requires log[i].Executed? && Concerns(log[i], client, id)
    requires Removed(client, id) !in log[i..j]
    ensures Recalled(log[..j], client, id).Some?
    ensures Recalled(log[..j], client, id).value.fingerprint == log[i].fingerprint
    decreases j
  {
    OrderlyAt(log, j);
    assert log[..j][..j - 1] == log[..j - 1];
    if j > i + 1 {
      assert log[i..j] == log[i..j - 1] + [log[j - 1]];
      StartedStays(log, i, j - 1, client, id);
      assert log[j - 1] in log[i..j];
    }
  }

  /** Without a removal a settled request keeps what it was settled with. */
  lemma {:induction false} SettledStays(log: seq<Event>, s: nat, n: nat, client: Client, id: Id)
    requires Orderly(log) && s < n <= |log|
    requires log[s].Settled? && Concerns(log[s], client, id)
    requires Removed(client, id) !in log[s..n]
    ensures Recalled(log[..s], client, id).Some?
    ensures Recalled(log[..n], client, id) ==
            Some(Entry(Recalled(log[..s], client, id).value.fingerprint, if log[s].kept then Some(log[s].result) else None,
                       true, if log[s].kept then Charge(log[s].reply) else 0))
    decreases n
  {
    OrderlyAt(log, n);
    assert log[..n][..n - 1] == log[..n - 1];
    if n > s + 1 {
      assert log[s..n] == log[s..n - 1] + [log[n - 1]];
      SettledStays(log, s, n - 1, client, id);
      assert log[n - 1] in log[s..n];
    }
  }

  /** Between two executions of one request there is a removal of its settled entry. */
  lemma BetweenExecutionsARemoval(log: seq<Event>, i: nat, j: nat) returns (k: nat, s: nat)
    requires Orderly(log) && i < j < |log|
    requires log[i].Executed? && log[j].Executed? && log[i].client == log[j].client && log[i].id == log[j].id
    ensures i < s < k < j && log[k] == Removed(log[i].client, log[i].id)
    ensures log[s].Settled? && log[s].client == log[i].client && log[s].id == log[i].id
  {
    var client, id := log[i].client, log[i].id;
    OrderlyAt(log, j + 1);
    assert log[..j + 1][..j] == log[..j];
    if Removed(client, id) !in log[i..j] {
      StartedStays(log, i, j, client, id);
    }
    k := FirstRemoval(log, i, j);
    OrderlyAt(log, k + 1);
    assert log[..k + 1][..k] == log[..k];
    s := LastSettlement(log, i, k);
  }

  lemma FirstRemoval(log: seq<Event>, i: nat, j: nat) returns (k: nat)
    requires i < j < |log| && log[i].Executed? && Removed(log[i].client, log[i].id) in log[i..j]
    ensures i < k < j && log[k] == Removed(log[i].client, log[i].id)
  {
    k :| i <= k < j && log[k] == Removed(log[i].client, log[i].id);
  }

  lemma {:induction false} LastSettlement(log: seq<Event>, i: nat, k: nat) returns (s: nat)
    requires i < k <= |log| && log[i].Executed?
    requires var entry := Recalled(log[..k], log[i].client, log[i].id); entry.Some? && entry.value.settled
    ensures i < s < k && log[s].Settled? && log[s].client == log[i].client && log[s].id == log[i].id
    decreases k
  {
    assert log[..k][..k - 1] == log[..k - 1];
    if log[k - 1].client == log[i].client && log[k - 1].id == log[i].id {
      s := k - 1;
    } else {
      s := LastSettlement(log, i, k - 1);
    }
  }

  lemma LogGrows(log: seq<Event>, e: Event)
    requires Orderly(log) && InTurn(Recalled(log, e.client, e.id), e)
    ensures Orderly(log + [e])
    ensures Recalled(log + [e], e.client, e.id) == Recorded(Recalled(log, e.client, e.id), e)
    ensures forall c, i | (c, i) != (e.client, e.id) :: Recalled(log + [e], c, i) == Recalled(log, c, i)
  {
    assert (log + [e])[..|log|] == log;
  }

  // ------------------------------------------------------------------
  // The cache
  // ------------------------------------------------------------------

  const MAX_REQUESTS := 512
  const MAX_WEIGHT := 16 * 1024 * 1024

  ghost predicate WithinBudget(namespace: Namespace) {
    |namespace.requests| <= MAX_REQUESTS && namespace.weight == Sum(namespace.requests) <= MAX_WEIGHT
  }

  lemma EmptyWithinBudget()
    ensures WithinBudget(Namespace(map[], 0))
  {
  }

  lemma BudgetAfterInsert(namespace: Namespace, id: Id, entry: Entry)
    requires WithinBudget(namespace) && id !in namespace.requests && |namespace.requests| < MAX_REQUESTS && entry.weight == 0
    ensures WithinBudget(Namespace(namespace.requests[id := entry], namespace.weight))
  {
    SumWith(namespace.requests, id, entry);
    SumOfAbsent(namespace.requests, id);
    assert namespace.requests[id := entry] - {id} == namespace.requests;
    assert namespace.requests[id := entry].Keys == namespace.requests.Keys + {id};
  }

  lemma BudgetAfterSettle(namespace: Namespace, id: Id, entry: Entry)
    requires WithinBudget(namespace) && id in namespace.requests && namespace.requests[id].weight == 0
    requires namespace.weight + entry.weight <= MAX_WEIGHT
    ensures WithinBudget(Namespace(namespace.requests[id := entry], namespace.weight + entry.weight))
  {
    SumWith(namespace.requests, id, entry);
    SumWithout(namespace.requests, id);
    assert namespace.requests[id := entry].Keys == namespace.requests.Keys;
  }

  lemma BudgetAfterRemove(namespace: Namespace, id: Id)
    requires WithinBudget(namespace) && id in namespace.requests
    ensures namespace.requests[id].weight <= namespace.weight
    ensures WithinBudget(Namespace(namespace.requests - {id}, namespace.weight - namespace.requests[id].weight))
  {
    SumWithout(namespace.requests, id);
    assert (namespace.requests - {id}).Keys == namespace.requests.Keys - {id};
  }

  /** What is left when the settled requests among `dropped` are removed. */
  function Kept(requests: map<Id, Entry>, dropped: set<Id>): map<Id, Entry> {
    map id | id in requests && !(id in dropped && requests[id].settled) :: requests[id]
  }

  lemma NothingDropped(requests: map<Id, Entry>)
    ensures Kept(requests, {}) == requests
  {
  }

  lemma DroppingTheRest(requests: map<Id, Entry>, dropped: set<Id>, more: set<Id>)
    ensures Kept(Kept(requests, dropped), more) == Kept(requests, dropped + more)
  {
  }

  lemma DroppingOne(requests: map<Id, Entry>, id: Id)
    ensures Kept(requests, {id}) == if id in requests && requests[id].settled then requests - {id} else requests
  {
  }

  type Clients = map<Client, Namespace>

  function Requests(clients: Clients, client: Client): map<Id, Entry> {
    if client in clients then clients[client].requests else map[]
  }

  ghost predicate Budgets(clients: Clients) {
    forall client <- clients :: WithinBudget(clients[client])
  }

  /** Every execution under way has its own entry, unsettled. */
  ghost predicate Owned(clients: Clients, results: seq<Option<Reply>>, running: map<nat, (Client, Id)>) {
    forall r <- running ::
      && r < |results| && results[r].None?
      && running[r].1 in Requests(clients, running[r].0)
      && var entry := Requests(clients, running[r].0)[running[r].1];
         !entry.settled && entry.result == Some(r) && entry.weight == 0
  }

  /** An unsettled entry waits for its own execution; a settled one that kept its result has it. */
  ghost predicate Awaited(clients: Clients, results: seq<Option<Reply>>, running: map<nat, (Client, Id)>) {
    forall client, id | id in Requests(clients, client) ::
      var entry := Requests(clients, client)[id];
      && (!entry.settled ==> entry.result.Some? && entry.result.value in running && running[entry.result.value] == (client, id))
      && (entry.result.Some? ==> entry.result.value < |results|)
      && (entry.settled && entry.result.Some? ==> results[entry.result.value].Some?)
  }

  function EntryOf(clients: Clients, client: Client, id: Id): Option<Entry> {
    if id in Requests(clients, client) then Some(Requests(clients, client)[id]) else None
  }

  /** The entries are what the events say. */
  ghost predicate Logged(clients: Clients, log: seq<Event>) {
    Orderly(log) && forall client, id :: Recalled(log, client, id) == EntryOf(clients, client, id)
  }

  /** Every settled result is the reply it was settled with. */
  ghost predicate Answered(results: seq<Option<Reply>>, log: seq<Event>) {
    forall e <- log | e.Settled? :: e.result < |results| && results[e.result] == Some(e.reply)
  }

  /** One entry written. */
  function Put(clients: Clients, client: Client, id: Id, entry: Entry, weight: nat): Clients {
    clients[client := Namespace(Requests(clients, client)[id := entry], weight)]
  }

  lemma PutIsLocal(clients: Clients, client: Client, id: Id, entry: Entry, weight: nat)
    ensures forall c | c != client :: Requests(Put(clients, client, id, entry, weight), c) == Requests(clients, c)
    ensures Requests(Put(clients, client, id, entry, weight), client) == Requests(clients, client)[id := entry]
  {
  }

  lemma {:induction false} BeginKeepsLinks(clients: Clients, results: seq<Option<Reply>>, running: map<nat, (Client, Id)>,
                        client: Client, id: Id, entry: Entry, weight: nat)
    requires Owned(clients, results, running) && Awaited(clients, results, running)
    requires id !in Requests(clients, client)
    requires !entry.settled && entry.result == Some(|results|) && entry.weight == 0
    ensures Owned(Put(clients, client, id, entry, weight), results + [None], running[|results| := (client, id)])
    ensures Awaited(Put(clients, client, id, entry, weight), results + [None], running[|results| := (client, id)])
  {
    PutIsLocal(clients, client, id, entry, weight);
    hide Put;
  }

  lemma SettleKeepsLinks(clients: Clients, results: seq<Option<Reply>>, running: map<nat, (Client, Id)>,
                         result: nat, reply: Reply, entry: Entry, weight: nat)
    requires Owned(clients, results, running) && Awaited(clients, results, running) && result in running
    requires entry.settled && (entry.result == None || entry.result == Some(result))
    ensures var client, id := running[result].0, running[result].1;
            && Owned(Put(clients, client, id, entry, weight), results[result := Some(reply)], running - {result})
            && Awaited(Put(clients, client, id, entry, weight), results[result := Some(reply)], running - {result})
  {
    PutIsLocal(clients, running[result].0, running[result].1, entry, weight);
    hide Put;
  }

  /** Removing settled entries of one client. */
  lemma RemoveKeepsLinks(clients: Clients, results: seq<Option<Reply>>, running: map<nat, (Client, Id)>,
                         client: Client, id: Id, weight: nat)
    requires Owned(clients, results, running) && Awaited(clients, results, running)
    requires id in Requests(clients, client) && Requests(clients, client)[id].settled
    ensures Owned(clients[client := Namespace(Requests(clients, client) - {id}, weight)], results, running)
    ensures Awaited(clients[client := Namespace(Requests(clients, client) - {id}, weight)], results, running)
  {
    var next := clients[client := Namespace(Requests(clients, client) - {id}, weight)];
    forall c, i | i in Requests(next, c)
      ensures i in Requests(clients, c) && Requests(next, c)[i] == Requests(clients, c)[i]
    {
    }
  }

  lemma EventKeepsLogged(clients: Clients, next: Clients, log: seq<Event>, e: Event)
    requires Logged(clients, log)
    requires forall c, i | (c, i) != (e.client, e.id) :: EntryOf(next, c, i) == EntryOf(clients, c, i)
    requires InTurn(EntryOf(clients, e.client, e.id), e)
    requires EntryOf(next, e.client, e.id) == Recorded(EntryOf(clients, e.client, e.id), e)
    ensures Logged(next, log + [e])
  {
    LogGrows(log, e);
  }

  /** A new result answers the new event, and those before it keep theirs. */
  lemma SettlingAnswers(results: seq<Option<Reply>>, log: seq<Event>, e: Event)
    requires Answered(results, log) && e.Settled? && e.result < |results| && results[e.result].None?
    ensures Answered(results[e.result := Some(e.reply)], log + [e])
  {
  }

  lemma OthersAnswerNothing(results: seq<Option<Reply>>, log: seq<Event>, more: seq<Event>)
    requires Answered(results, log) && forall e <- more :: !e.Settled?
    ensures Answered(results, log + more) && Answered(results + [None], log + more)
  {
  }

  lemma ClearingKeepsTheRest(clients: Clients, results: seq<Option<Reply>>, running: map<nat, (Client, Id)>, client: Client)
    requires Budgets(clients) && Owned(clients, results, running) && Awaited(clients, results, running)
    requires client in clients && forall id <- clients[client].requests :: clients[client].requests[id].settled
    ensures Budgets(clients - {client}) && Owned(clients - {client}, results, running) && Awaited(clients - {client}, results, running)
  {
    hide WithinBudget;
    var next := clients - {client};
    forall c ensures Requests(next, c) == if c == client then map[] else Requests(clients, c) {}
  }

  /** Forgetting a client removes each of its requests. */
  lemma {:induction false} ClearingLog(clients: Clients, client: Client, log: seq<Event>) returns (next: seq<Event>)
    requires Logged(clients, log)
    requires client in clients && forall id <- clients[client].requests :: clients[client].requests[id].settled
    ensures log <= next && Logged(clients - {client}, next)
    ensures forall e <- next[|log|..] :: e.Removed?
    decreases |Requests(clients, client)|
  {
    hide Orderly, Recalled;
    var requests := clients[client].requests;
    if requests == map[] {
      next := log;
      assert forall c :: Requests(clients - {client}, c) == Requests(clients, c);
    } else {
      var id :| id in requests;
      var fewer := clients[client := Namespace(requests - {id}, 0)];
      EventKeepsLogged(clients, fewer, log, Removed(client, id));
      assert (requests - {id}).Keys == requests.Keys - {id};
      next := ClearingLog(fewer, client, log + [Removed(client, id)]);
      assert fewer - {client} == clients - {client};
    }
  }

  /** What clients and executions do to the cache. */
  datatype Command =
    | Request(client: Client, id: Id, fingerprint: Fingerprint)
    | Ending(result: nat, reply: Reply)
    | Acknowledgement(client: Client, ids: seq<Id>)
    | Resumption(client: Client, ids: seq<Id>)
    | Departure(client: Client)

  function Named(ids: seq<Id>): set<Id> { set id <- ids }

  class Cache {
    var clients: Clients
    var results: seq<Option<Reply>>
    // The executions under way, by the result each of them will fill.
    var running: map<nat, (Client, Id)>
    ghost var log: seq<Event>

    ghost predicate Valid()
      reads this
    {
      && Budgets(clients)
      && Owned(clients, results, running)
      && Awaited(clients, results, running)
      && Logged(clients, log) && Answered(results, log)
    }

    /** Results are written once, and the log only grows. */
    twostate predicate Advanced()
      reads this
    {
      && old(log) <= log
      && |old(results)| <= |results|
      && forall r :: 0 <= r < |old(results)| && old(results)[r].Some? ==> results[r] == old(results)[r]
    }

    constructor ()
      ensures Valid() && clients == map[] && log == []
    {
      clients, results, running, log := map[], [], map[], [];
    }

    /** Takes the lock for a request. A request already known is never executed: its
        caller shares the result, or is told why it cannot have it. */
    method Begin(client: Client, id: Id, fingerprint: Fingerprint) returns (verdict: Verdict)
      requires Valid()
      modifies this
      ensures Valid() && Advanced()
      ensures id in Requests(old(clients), client) ==>
              var entry := Requests(old(clients), client)[id];
                 verdict == if entry.fingerprint != fingerprint then Mismatch else if entry.result.None? then Overflowed else Share(entry.result.value)
      ensures id !in Requests(old(clients), client) ==>
              if |Requests(old(clients), client)| < MAX_REQUESTS then verdict.Execute? else verdict.Full?
      ensures verdict.Execute? ==>
              && log == old(log) + [Executed(client, id, verdict.result, fingerprint)]
              && verdict.result == |old(results)| && results == old(results) + [None]
              && running == old(running)[verdict.result := (client, id)]
              && Requests(clients, client) == Requests(old(clients), client)[id := Entry(fingerprint, Some(verdict.result), false, 0)]
      ensures !verdict.Execute? ==>
              log == old(log) && results == old(results) && running == old(running)
              && Requests(clients, client) == Requests(old(clients), client)
      ensures forall c | c != client :: Requests(clients, c) == Requests(old(clients), c)
    {
      hide Budgets, Owned, Awaited, Logged, Answered, WithinBudget;
      if client !in clients {
        AddNamespace(client);
      }
      assert WithinBudget(clients[client]) by { BudgetOf(clients, client); }
      var namespace := clients[client];
      if id in namespace.requests {
        var existing := namespace.requests[id];
        if existing.fingerprint != fingerprint {
          return Mismatch;
        }
        if existing.result.None? {
          return Overflowed;
        }
        return Share(existing.result.value);
      }
      if |namespace.requests| >= MAX_REQUESTS {
        return Full;
      }
      var result := |results|;
      var entry := Entry(fingerprint, Some(result), false, 0);
      BudgetAfterInsert(namespace, id, entry);
      BudgetsAfterPut(clients, client, id, entry, namespace.weight);
      BeginKeepsLinks(clients, results, running, client, id, entry, namespace.weight);
      EventKeepsLogged(clients, Put(clients, client, id, entry, namespace.weight), log, Executed(client, id, result, fingerprint));
      OthersAnswerNothing(results, log, [Executed(client, id, result, fingerprint)]);
      results := results + [None];
      running := running[result := (client, id)];
      clients := clients[client := Namespace(namespace.requests[id := entry], namespace.weight)];
      log := log + [Executed(client, id, result, fingerprint)];
      return Execute(result);
    }

    /** The execution ended: whoever shares the result gets this reply. A reply that does
        not fit the budget is not kept for later, but its request stays known. */
    method Settle(result: nat, reply: Reply)
      requires Valid() && result in running
      modifies this
      ensures Valid() && Advanced()
      ensures results == old(results)[result := Some(reply)] && running == old(running) - {result}
      ensures var client, id := old(running)[result].0, old(running)[result].1;
              var before := Requests(old(clients), client);
              var charge := match reply case Value(bytes) => |bytes| case Error(_) => 1;
              var fits := Sum(before) + charge <= MAX_WEIGHT;
              && id in before && log == old(log) + [Settled(client, id, result, reply, fits)]
              && Requests(clients, client) ==
                 before[id := Entry(before[id].fingerprint, if fits then Some(result) else None, true, if fits then charge else 0)]
              && forall c | c != client :: Requests(clients, c) == Requests(old(clients), c)
    {
      hide Budgets, Owned, Awaited, Logged, Answered, WithinBudget;
      var client, id := running[result].0, running[result].1;
      OwnEntry(clients, results, running, result);
      BudgetOf(clients, client);
      var namespace := clients[client];
      var weight := match reply case Value(bytes) => |bytes| case Error(_) => 1;
      var entry := namespace.requests[id].(settled := true);
      var total := namespace.weight;
      if namespace.weight + weight > MAX_WEIGHT {
        entry := entry.(result := None);
      } else {
        entry := entry.(weight := weight);
        total := total + weight;
      }
      BudgetAfterSettle(namespace, id, entry);
      BudgetsAfterPut(clients, client, id, entry, total);
      SettleKeepsLinks(clients, results, running, result, reply, entry, total);
      ghost var e := Settled(client, id, result, reply, entry.result.Some?);
      EventKeepsLogged(clients, Put(clients, client, id, entry, total), log, e);
      SettlingAnswers(results, log, e);
      results := results[result := Some(reply)];
      running := running - {result};
      clients := clients[client := Namespace(namespace.requests[id := entry], total)];
      log := log + [e];
    }

    /** Removes one settled request. */
    method Remove(client: Client, id: Id)
      requires Valid() && id in Requests(clients, client) && Requests(clients, client)[id].settled
      modifies this`clients, this`log
      ensures Valid() && log == old(log) + [Removed(client, id)]
      ensures clients.Keys == old(clients).Keys
      ensures Requests(clients, client) == Requests(old(clients), client) - {id}
      ensures forall c | c != client :: Requests(clients, c) == Requests(old(clients), c)
    {
      hide Budgets, Owned, Awaited, Logged, Answered, WithinBudget;
      BudgetOf(clients, client);
      var namespace := clients[client];
      BudgetAfterRemove(namespace, id);
      RemoveKeepsLinks(clients, results, running, client, id, namespace.weight - namespace.requests[id].weight);
      BudgetsAfterRemove(clients, client, id);
      var next := clients[client := Namespace(namespace.requests - {id}, namespace.weight - namespace.requests[id].weight)];
      EventKeepsLogged(clients, next, log, Removed(client, id));
      OthersAnswerNothing(results, log, [Removed(client, id)]);
      clients := next;
      log := log + [Removed(client, id)];
    }

    /** A request still running is not removed. */
    method RemoveSettled(client: Client, id: Id)
      requires Valid()
      modifies this`clients, this`log
      ensures Valid() && Advanced()
      ensures Requests(clients, client) == Kept(Requests(old(clients), client), {id})
      ensures forall c | c != client :: Requests(clients, c) == Requests(old(clients), c)
    {
      hide Valid, Requests, Kept;
      DroppingOne(Requests(clients, client), id);
      if id in Requests(clients, client) && Requests(clients, client)[id].settled {
        Remove(client, id);
      }
    }

    /** The client has read these results. */
    method Acknowledge(client: Client, ids: seq<Id>)
      requires Valid()
      modifies this`clients, this`log
      ensures Valid() && Advanced()
      ensures Requests(clients, client) == Kept(Requests(old(clients), client), Named(ids))
      ensures forall c | c != client :: Requests(clients, c) == Requests(old(clients), c)
    {
      ghost var before := Requests(clients, client);
      NothingDropped(before);
      assert Named(ids[..0]) == {};
      for i := 0 to |ids|
        invariant Valid() && Advanced()
        invariant Requests(clients, client) == Kept(before, Named(ids[..i]))
        invariant forall c | c != client :: Requests(clients, c) == Requests(old(clients), c)
      {
        hide Valid, Requests, Kept;
        assert Named(ids[..i + 1]) == Named(ids[..i]) + {ids[i]};
        DroppingTheRest(before, Named(ids[..i]), {ids[i]});
        RemoveSettled(client, ids[i]);
      }
      assert ids[..|ids|] == ids;
    }

    /** A resuming client still waits for these requests only; what runs is kept anyway. */
    method Retain(client: Client, ids: seq<Id>)
      requires Valid()
      modifies this`clients, this`log
      ensures Valid() && Advanced()
      ensures Requests(clients, client) == Kept(Requests(old(clients), client), Requests(old(clients), client).Keys - Named(ids))
      ensures forall c | c != client :: Requests(clients, c) == Requests(old(clients), c)
    {
      hide Valid, Requests, Kept, Named;
      ghost var before, dropped: set<Id> := Requests(clients, client), {};
      var rest := Requests(clients, client).Keys - Named(ids);
      NothingDropped(before);
      while rest != {}
        invariant rest + dropped == before.Keys - Named(ids)
        invariant Valid() && Advanced()
        invariant Requests(clients, client) == Kept(before, dropped)
        invariant forall c | c != client :: Requests(clients, c) == Requests(old(clients), c)
        decreases |rest|
      {
        var id :| id in rest;
        DroppingTheRest(before, dropped, {id});
        RemoveSettled(client, id);
        rest, dropped := rest - {id}, dropped + {id};
      }
      assert dropped == before.Keys - Named(ids);
    }

    /** Forgets a client unless something of it still runs. */
    method ClearClient(client: Client) returns (cleared: bool)
      requires Valid()
      modifies this`clients, this`log
      ensures Valid() && Advanced()
      ensures cleared <==> forall id <- Requests(old(clients), client) :: Requests(old(clients), client)[id].settled
      ensures cleared ==> client !in clients
      ensures !cleared ==> clients == old(clients) && log == old(log)
      ensures forall c | c != client :: Requests(clients, c) == Requests(old(clients), c)
    {
      hide Budgets, Owned, Awaited, Logged, Answered, WithinBudget;
      if client !in clients {
        return true;
      }
      var rest := clients[client].requests.Keys;
      while rest != {}
        invariant rest <= clients[client].requests.Keys
        invariant forall id <- clients[client].requests.Keys - rest :: clients[client].requests[id].settled
        decreases |rest|
      {
        var id :| id in rest;
        if !clients[client].requests[id].settled {
          assert id in Requests(clients, client);
          return false;
        }
        rest := rest - {id};
      }
      ClearingKeepsTheRest(clients, results, running, client);
      ghost var next := ClearingLog(clients, client, log);
      OthersAnswerNothing(results, log, next[|log|..]);
      assert log + next[|log|..] == next;
      clients := clients - {client};
      log := next;
      return true;
    }

    /** Any sequence of commands; an ending needs an execution under way. */
    method Serve(commands: seq<Command>)
      requires Valid()
      modifies this
      ensures Valid() && Advanced()
    {
      hide Valid, Requests, Kept;
      for i := 0 to |commands|
        invariant Valid() && Advanced()
      {
        match commands[i] {
          case Request(client, id, fingerprint) => var verdict := Begin(client, id, fingerprint);
          case Ending(result, reply) => if result in running { Settle(result, reply); }
          case Acknowledgement(client, ids) => Acknowledge(client, ids);
          case Resumption(client, ids) => Retain(client, ids);
          case Departure(client) => var cleared := ClearClient(client);
        }
      }
    }

    /** Until it is removed, a settled request has the entry and the reply it was settled
        with. */
    lemma SettledIsKnown(s: nat)
      requires Valid() && s < |log| && log[s].Settled? && Removed(log[s].client, log[s].id) !in log[s..]
      ensures var e, before := log[s], Recalled(log[..s], log[s].client, log[s].id);
              && before.Some? && e.id in Requests(clients, e.client)
              && Requests(clients, e.client)[e.id] ==
                 Entry(before.value.fingerprint, if e.kept then Some(e.result) else None, true, if e.kept then Charge(e.reply) else 0)
              && e.result < |results| && results[e.result] == Some(e.reply)
    {
      hide Budgets, Owned, Awaited, Orderly, Recalled;
      SettledStays(log, s, |log|, log[s].client, log[s].id);
      assert log[..|log|] == log && log[s..|log|] == log[s..];
      assert EntryOf(clients, log[s].client, log[s].id) == Recalled(log, log[s].client, log[s].id);
      assert log[s] in log;
    }

    lemma RunningIsRecalled(result: nat)
      requires Valid() && result in running
      ensures var client, id := running[result].0, running[result].1;
              id in Requests(clients, client) && Recalled(log, client, id) == Some(Requests(clients, client)[id])
    {
      hide Budgets, Awaited, Answered, Orderly, Recalled;
      assert EntryOf(clients, running[result].0, running[result].1) == Recalled(log, running[result].0, running[result].1);
    }

    /** A client repeats a request whose reply was lost. Whatever happened since the
        execution ended, while the entry was not removed the repeat shares that very
        reply, unless the reply did not fit; a reused id is told apart. */
    method Repeat(result: nat, reply: Reply, meanwhile: seq<Command>, fingerprint: Fingerprint) returns (verdict: Verdict)
      requires Valid() && result in running
      modifies this
      ensures Valid() && Advanced()
      ensures var client, id := old(running)[result].0, old(running)[result].1;
              var before := Requests(old(clients), client);
              && id in before
              && (Removed(client, id) !in log[|old(log)|..] ==>
                    && result < |results| && results[result] == Some(reply)
                    && verdict ==
                       if fingerprint != before[id].fingerprint then Mismatch
                       else if Sum(before) + (match reply case Value(bytes) => |bytes| case Error(_) => 1) <= MAX_WEIGHT
                       then Share(result)
                       else Overflowed)
    {
      hide Valid, Requests, Recalled, Sum;
      ghost var s := |log|;
      var client, id := running[result].0, running[result].1;
      RunningIsRecalled(result);
      ghost var earlier := log;
      Settle(result, reply);
      Serve(meanwhile);
      assert log[..s] == earlier && log[s].Settled?;
      if Removed(client, id) !in log[s..] {
        SettledIsKnown(s);
      }
      verdict := Begin(client, id, fingerprint);
    }

    /** A client's first request. */
    method AddNamespace(client: Client)
      requires Valid() && client !in clients
      modifies this`clients
      ensures Valid() && clients == old(clients)[client := Namespace(map[], 0)]
    {
      EmptyWithinBudget();
      hide WithinBudget, Orderly, Recalled, Answered;
      clients := clients[client := Namespace(map[], 0)];
      assert forall c :: Requests(clients, c) == Requests(old(clients), c);
    }
  }

  lemma BudgetOf(clients: Clients, client: Client)
    requires Budgets(clients) && client in clients
    ensures WithinBudget(clients[client]) && clients[client].weight == Sum(Requests(clients, client))
  {
  }

  lemma {:induction false} BudgetsAfterRemove(clients: Clients, client: Client, id: Id)
    requires Budgets(clients) && client in clients && id in clients[client].requests
    requires clients[client].requests[id].weight <= clients[client].weight
    requires WithinBudget(Namespace(clients[client].requests - {id}, clients[client].weight - clients[client].requests[id].weight))
    ensures Budgets(clients[client := Namespace(clients[client].requests - {id}, clients[client].weight - clients[client].requests[id].weight)])
  {
    hide WithinBudget;
  }

  lemma OwnEntry(clients: Clients, results: seq<Option<Reply>>, running: map<nat, (Client, Id)>, result: nat)
    requires Owned(clients, results, running) && result in running
    ensures result < |results| && results[result].None? && running[result].0 in clients && running[result].1 in clients[running[result].0].requests
    ensures var entry := clients[running[result].0].requests[running[result].1];
            !entry.settled && entry.result == Some(result) && entry.weight == 0
  {
  }

  lemma BudgetsAfterPut(clients: Clients, client: Client, id: Id, entry: Entry, weight: nat)
    requires Budgets(clients) && client in clients && WithinBudget(Namespace(clients[client].requests[id := entry], weight))
    ensures Budgets(Put(clients, client, id, entry, weight))
  {
    hide WithinBudget;
  }
}
