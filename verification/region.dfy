/**
 The per-region scheduler (Region in index.js). A region keeps two LIFO queues
 of pending calls, a priority queue and a normal one, and a flag telling
 whether a drain is running. Draining pops items, looks up their endpoint,
 builds their URL, makes sure a method limiter exists, consults the attempt
 gates and dispatches the request; a request's completion later resolves,
 rejects or re-queues its item.

 Besides the fields of the source object, a Region records what the outside
 world observes: the requests in flight, the outcomes delivered to callers,
 the items whose exception escaped the drain, the gates consulted and the
 order of dispatches. Every call ever accepted is in exactly one place
 (`Ledger`), and no call is sent more than `max(maxRetries, 0) + 1` times.
 */
module Scheduler {
  import opened Js
  import opened Limits
  import opened Catalog
  import opened Url
  import opened Wait
  import opened Backoff
  import opened MethodLimits

  /** `PRIORITIES.HIGH`; any other priority argument means normal. */
  const High: Arg := Number(1)

  /** The configuration a region reads. */
  datatype Config = Config(
    prefix: string,       // URL prefix, its `%s` takes the region
    env: string,          // NODE_ENV, the head of every store key and namespace
    endpoints: Entry,     // the endpoint catalog
    appLimit0: string,    // applimit[0]
    appLimit1: string,    // applimit[1]
    maxRetries: int,      // maxRetriesAmnt
    retryMS: int)         // delay of a first retry without retry-after

  /** A queued call: `{arguments, retryCount, retryMS, callback, onError}`; the
      continuations are identified by the call's `id`. */
  datatype Item = Item(id: nat, call: Call, retryCount: nat, retryMS: Num)

  /** A request on its way: the item, its URL and the snooze taken before it. */
  datatype Dispatch = Dispatch(item: Item, url: Url, snooze: Option<Num>)

  /** What a caller's promise settled with. */
  datatype Outcome = Resolved(id: nat, body: Option<string>) | Rejected(id: nat, failure: Failure)

  /** What the outside world answers while one item is processed: whether the
      store read of the method limit fails, and what each attempt gate says. */
  datatype StepInput = StepInput(storeError: bool, gate: Limiter -> GateAnswer)

  /** The part of `_process` before any limiter is touched: the endpoint is not
      defined (the caller is rejected), an exception escapes (a TypeError in the
      lookup or in `_buildUrl`, or the arity error), or the URL and the
      endpoint's default limit are ready. */
  datatype Prepared = Missing | Escapes | Ready(url: Url, limit: string)

  /** The two application limiters of a region, built from `applimit[0]` and
      `applimit[1]` under the namespaces `env + "app_0"` and `env + "app_1"`. */
  function AppLimiters(config: Config): seq<Limiter> {
    [Limiter(config.env + "app_0", GetLimits(config.appLimit0)),
     Limiter(config.env + "app_1", GetLimits(config.appLimit1))]
  }

  /** `util.format(config.prefix, region)`. */
  function Prefix(config: Config, call: Call): string {
    Format(config.prefix, [Str(call.region)])
  }

  function Prepare(config: Config, call: Call): Prepared {
    var endpoint := GetEndpoint(config.endpoints, call.target);
    if endpoint == Found(Undef) then Missing
    else if !(endpoint.Found? && endpoint.cursor.At? && endpoint.cursor.entry.Endpoint?) then Escapes
    else
      var built := BuildUrl(Prefix(config, call), endpoint.cursor.entry.url, call);
      if built.WrongArity? then Escapes else Ready(built.url, endpoint.cursor.entry.limit)
  }

  /** The three ways `_process` can go: the endpoint is undefined exactly when
      the last segment is missing; an exception escapes exactly when a segment
      before the last is missing, the lookup ends on something that is not a
      descriptor, or the call has the wrong number of path arguments; otherwise
      the URL is the descriptor's template filled with the path arguments. */
  lemma PrepareCases(config: Config, call: Call)
    ensures var segs := Split(call.target, ".");
            var init := Walk(At(config.endpoints), segs[..|segs| - 1]);
      Prepare(config, call).Missing? <==> init.Found? && Index(init.cursor, segs[|segs| - 1]) == Some(Undef)
    ensures var e := GetEndpoint(config.endpoints, call.target);
      Prepare(config, call).Escapes? <==>
        || MissingBeforeLast(config.endpoints, Split(call.target, "."))
        || (e.Found? && e.cursor != Undef && !(e.cursor.At? && e.cursor.entry.Endpoint?))
        || (e.Found? && e.cursor.At? && e.cursor.entry.Endpoint? &&
            Placeholders(e.cursor.entry.url) != |PlainArgs(call.pathArgs)|)
    ensures var e := GetEndpoint(config.endpoints, call.target);
      Prepare(config, call).Ready? ==>
        && e.Found? && e.cursor.At? && e.cursor.entry.Endpoint?
        && Prepare(config, call).limit == e.cursor.entry.limit
        && Prepare(config, call).url.url ==
             Prefix(config, call) + Interleave(Pieces(e.cursor.entry.url), Texts(PlainArgs(call.pathArgs)))
  {
    GetEndpointUndefined(config.endpoints, call.target);
    GetEndpointThrows(config.endpoints, call.target);
  }

  /** A call whose target segments lead to the descriptor `Endpoint(url, limit)`
      is ready exactly when it has as many path arguments as the template has
      placeholders, and then carries the prefix followed by the filled template,
      and the descriptor's limit; otherwise the arity error escapes. */
  lemma PrepareReady(config: Config, call: Call, url: string, limit: string)
    requires Reaches(config.endpoints, Split(call.target, "."), Endpoint(url, limit))
    ensures Prepare(config, call).Ready? <==> Placeholders(url) == |PlainArgs(call.pathArgs)|
    ensures Prepare(config, call).Escapes? <==> Placeholders(url) != |PlainArgs(call.pathArgs)|
    ensures Prepare(config, call).Ready? ==>
      && Prepare(config, call).limit == limit
      && Prepare(config, call).url.url ==
           Prefix(config, call) + Interleave(Pieces(url), Texts(PlainArgs(call.pathArgs)))
  {
    WalkReaches(config.endpoints, Split(call.target, "."), Endpoint(url, limit));
  }

  /** A catalog with one endpoint under `summoner.byName`: a call to it with one
      path argument is ready, with that argument filled into the template. */
  lemma PrepareSummonerByName(config: Config, region: string, name: string, limit: string)
    requires config.endpoints == Group(map["summoner" := Group(map["byName" := Endpoint("/c/%s", limit)])])
    ensures var call := Call(region, Join(["summoner", "byName"], "."), Number(1), [Str(name)]);
      Prepare(config, call) == Ready(Url(Prefix(config, call) + "/c/" + name, Object(map[])), limit)
  {
    var names := ["summoner", "byName"];
    var call := Call(region, Join(names, "."), Number(1), [Str(name)]);
    SplitJoin(names, '.');
    assert Reaches(config.endpoints, names, Endpoint("/c/%s", limit)) by {
      assert names[1..] == ["byName"] && names[1..][1..] == [];
    }
    PrepareReady(config, call, "/c/%s", limit);
    OnePlaceholder(Prefix(config, call), region, call.target, name);
  }

  /** Everything about a region that changes. */
  datatype RegionState = RegionState(
    methodLimits: map<string, MethodLimit>,
    priorityQueue: seq<Item>,
    requestQueue: seq<Item>,
    isProcessing: bool,
    inFlight: map<nat, Dispatch>,
    outcomes: seq<Outcome>,
    escaped: seq<nat>,
    attempts: seq<Limiter>,
    sent: seq<nat>,
    nextId: nat)

  /** A new region: no method limiter, empty queues, nothing in flight or settled. */
  const Idle := RegionState(map[], [], [], false, map[], [], [], [], [], 0)

  function Ids(q: seq<Item>): (r: seq<nat>)
    ensures |r| == |q|
    ensures forall i :: 0 <= i < |q| ==> r[i] == q[i].id
  {
    seq(|q|, i requires 0 <= i < |q| => q[i].id)
  }

  /** The ids of the settled callers, in order: the projection `Ids` makes of a
      queue, taken over outcomes instead of items. */
  function SettledIds(os: seq<Outcome>): (r: seq<nat>)
    ensures |r| == |os|
    ensures forall i :: 0 <= i < |os| ==> r[i] == os[i].id
  {
    seq(|os|, i requires 0 <= i < |os| => os[i].id)
  }

  function Reversed(s: seq<nat>): (r: seq<nat>)
    ensures |r| == |s|
  {
    if s == [] then [] else Reversed(s[1..]) + [s[0]]
  }

  /** The order in which a drain that finds these queues serves their items:
      the priority queue from its tail, then the normal queue from its tail. */
  function ServiceOrder(priorityQueue: seq<Item>, requestQueue: seq<Item>): seq<nat> {
    Reversed(Ids(priorityQueue)) + Reversed(Ids(requestQueue))
  }

  /** The ids 0 .. n-1, once each. */
  ghost function Upto(n: nat): multiset<nat> {
    if n == 0 then multiset{} else Upto(n - 1) + multiset{n - 1}
  }

  /** Where every accepted call is: waiting, in flight, settled or escaped. */
  ghost function Ledger(s: RegionState): multiset<nat> {
    multiset(Ids(s.priorityQueue)) + multiset(Ids(s.requestQueue)) + multiset(s.inFlight.Keys)
      + multiset(SettledIds(s.outcomes)) + multiset(s.escaped)
  }

  /** A waiting item has been sent once per retry so far. */
  ghost predicate QueueCounts(q: seq<Item>, sent: seq<nat>, bound: nat) {
    forall i :: 0 <= i < |q| ==> q[i].retryCount <= bound && multiset(sent)[q[i].id] == q[i].retryCount
  }

  /** An item in flight has been sent once more than its retries so far. */
  ghost predicate FlightCounts(m: map<nat, Dispatch>, sent: seq<nat>, bound: nat) {
    forall id :: id in m ==>
      m[id].item.id == id && m[id].item.retryCount <= bound && multiset(sent)[id] == m[id].item.retryCount + 1
  }

  /** No item of `q` has the id `x`. */
  ghost predicate Absent(q: seq<Item>, x: nat) {
    forall i :: 0 <= i < |q| ==> q[i].id != x
  }

  /** Every call accepted so far is in exactly one place, and only accepted
      calls have been sent. */
  ghost predicate Accounted(s: RegionState) {
    && Ledger(s) == Upto(s.nextId)
    && (forall i :: 0 <= i < |s.sent| ==> s.sent[i] < s.nextId)
  }

  /** No call is sent more than `bound + 1` times. */
  ghost predicate SendBound(sent: seq<nat>, bound: nat) {
    forall x :: multiset(sent)[x] <= bound + 1
  }

  /** Retry counts stay within the bound and match the number of sends. */
  ghost predicate Counted(s: RegionState, bound: nat) {
    && QueueCounts(s.priorityQueue, s.sent, bound)
    && QueueCounts(s.requestQueue, s.sent, bound)
    && FlightCounts(s.inFlight, s.sent, bound)
    && SendBound(s.sent, bound)
  }

  /** Every call in flight has a method limiter. */
  ghost predicate Limited(s: RegionState) {
    forall id :: id in s.inFlight ==> s.inFlight[id].item.call.target in s.methodLimits
  }

  /** The region invariant: each accepted call is in exactly one place, retry
      counts never exceed the bound, every call is sent at most `bound + 1`
      times, and every call in flight has a method limiter. */
  ghost predicate Consistent(s: RegionState, bound: nat) {
    Accounted(s) && Counted(s, bound) && Limited(s)
  }

  /** The push of `Region.prototype.get`: a new item at the tail of the queue its
      priority selects. */
  function Pushed(s: RegionState, call: Call): RegionState {
    var item := Item(s.nextId, call, 0, Int(0));
    if call.priority == High then s.(priorityQueue := s.priorityQueue + [item], nextId := s.nextId + 1)
    else s.(requestQueue := s.requestQueue + [item], nextId := s.nextId + 1)
  }

  function Queue(s: RegionState, fromPriority: bool): seq<Item> {
    if fromPriority then s.priorityQueue else s.requestQueue
  }

  /** The item `queue.pop()` takes. */
  function Next(s: RegionState, fromPriority: bool): Item
    requires Queue(s, fromPriority) != []
  {
    var q := Queue(s, fromPriority);
    q[|q| - 1]
  }

  /** The state right after `queue.pop()`. */
  function Popped(s: RegionState, fromPriority: bool): RegionState
    requires Queue(s, fromPriority) != []
  {
    if fromPriority then s.(priorityQueue := s.priorityQueue[..|s.priorityQueue| - 1])
    else s.(requestQueue := s.requestQueue[..|s.requestQueue| - 1])
  }

  /** The state after dispatching `d.item`: the gates consulted are recorded, the
      request is sent and in flight. */
  function Dispatched(s: RegionState, d: Dispatch, ml: map<string, MethodLimit>, tried: seq<Limiter>): RegionState {
    s.(methodLimits := ml, attempts := s.attempts + tried, sent := s.sent + [d.item.id],
       inFlight := s.inFlight[d.item.id := d])
  }

  /** `_retryRequest`'s queue change: the request is no longer in flight and the
      updated item goes to the head of the queue its priority selects. */
  function Requeued(s: RegionState, id: nat, retried: Item): RegionState {
    var s' := s.(inFlight := s.inFlight - {id});
    if retried.call.priority == High then s'.(priorityQueue := [retried] + s.priorityQueue)
    else s'.(requestQueue := [retried] + s.requestQueue)
  }

  /** A caller's promise settles and its request is no longer in flight. */
  function Settled(s: RegionState, id: nat, o: Outcome): RegionState {
    s.(inFlight := s.inFlight - {id}, outcomes := s.outcomes + [o])
  }

  /** `queueItem.arguments[2] = PRIORITIES.HIGH` on an item in flight. */
  function Escalated(s: RegionState, id: nat): RegionState
    requires id in s.inFlight
  {
    var d := s.inFlight[id];
    s.(inFlight := s.inFlight[id := d.(item := d.item.(call := d.item.call.(priority := High)))])
  }

  lemma {:induction false} UptoCount(n: nat, x: nat)
    ensures Upto(n)[x] == if x < n then 1 else 0
  {
    if n > 0 {
      UptoCount(n - 1, x);
    }
  }

  lemma IdsSnoc(q: seq<Item>, it: Item)
    ensures multiset(Ids(q + [it])) == multiset(Ids(q)) + multiset{it.id}
  {
    assert Ids(q + [it]) == Ids(q) + [it.id];
  }

  lemma IdsCons(it: Item, q: seq<Item>)
    ensures multiset(Ids([it] + q)) == multiset{it.id} + multiset(Ids(q))
  {
    assert Ids([it] + q) == [it.id] + Ids(q);
  }

  lemma IdsDropLast(q: seq<Item>)
    requires q != []
    ensures multiset(Ids(q)) == multiset(Ids(q[..|q| - 1])) + multiset{q[|q| - 1].id}
  {
    assert q == q[..|q| - 1] + [q[|q| - 1]];
    IdsSnoc(q[..|q| - 1], q[|q| - 1]);
  }

  lemma SettledSnoc(os: seq<Outcome>, o: Outcome)
    ensures multiset(SettledIds(os + [o])) == multiset(SettledIds(os)) + multiset{o.id}
  {
    assert SettledIds(os + [o]) == SettledIds(os) + [o.id];
  }

  lemma KeysAdd(m: map<nat, Dispatch>, k: nat, v: Dispatch)
    requires k !in m
    ensures multiset(m[k := v].Keys) == multiset(m.Keys) + multiset{k}
  {
    assert m[k := v].Keys == m.Keys + {k};
    assert forall x :: multiset(m.Keys + {k})[x] == (multiset(m.Keys) + multiset{k})[x];
  }

  lemma KeysRemove(m: map<nat, Dispatch>, k: nat)
    requires k in m
    ensures multiset((m - {k}).Keys) + multiset{k} == multiset(m.Keys)
  {
    assert (m - {k}).Keys + {k} == m.Keys;
    assert forall x :: multiset((m - {k}).Keys)[x] + multiset{k}[x] == multiset(m.Keys)[x];
  }

  lemma NotSent(sent: seq<nat>, n: nat)
    requires forall i :: 0 <= i < |sent| ==> sent[i] < n
    ensures multiset(sent)[n] == 0
  {
    assert n !in sent;
  }

  lemma QueueCountsSnoc(q: seq<Item>, it: Item, sent: seq<nat>, bound: nat)
    requires QueueCounts(q, sent, bound)
    requires it.retryCount <= bound && multiset(sent)[it.id] == it.retryCount
    ensures QueueCounts(q + [it], sent, bound)
  {
  }

  lemma QueueCountsCons(it: Item, q: seq<Item>, sent: seq<nat>, bound: nat)
    requires QueueCounts(q, sent, bound)
    requires it.retryCount <= bound && multiset(sent)[it.id] == it.retryCount
    ensures QueueCounts([it] + q, sent, bound)
  {
  }

  lemma QueueCountsInit(q: seq<Item>, sent: seq<nat>, bound: nat)
    requires QueueCounts(q, sent, bound) && q != []
    ensures QueueCounts(q[..|q| - 1], sent, bound)
  {
  }

  lemma QueueCountsSend(q: seq<Item>, sent: seq<nat>, x: nat, bound: nat)
    requires QueueCounts(q, sent, bound) && Absent(q, x)
    ensures QueueCounts(q, sent + [x], bound)
  {
    assert multiset(sent + [x]) == multiset(sent) + multiset{x};
  }

  lemma FlightCountsAdd(m: map<nat, Dispatch>, d: Dispatch, sent: seq<nat>, bound: nat)
    requires FlightCounts(m, sent, bound) && d.item.id !in m
    requires d.item.retryCount <= bound && multiset(sent)[d.item.id] == d.item.retryCount
    ensures FlightCounts(m[d.item.id := d], sent + [d.item.id], bound)
  {
    assert multiset(sent + [d.item.id]) == multiset(sent) + multiset{d.item.id};
  }

  lemma FlightCountsRemove(m: map<nat, Dispatch>, id: nat, sent: seq<nat>, bound: nat)
    requires FlightCounts(m, sent, bound)
    ensures FlightCounts(m - {id}, sent, bound)
  {
  }

  lemma FlightCountsReplace(m: map<nat, Dispatch>, d: Dispatch, sent: seq<nat>, bound: nat)
    requires FlightCounts(m, sent, bound) && d.item.id in m
    requires d.item.retryCount == m[d.item.id].item.retryCount
    ensures FlightCounts(m[d.item.id := d], sent, bound)
  {
  }

  lemma SendBoundAdd(sent: seq<nat>, x: nat, bound: nat)
    requires SendBound(sent, bound) && multiset(sent)[x] <= bound
    ensures SendBound(sent + [x], bound)
  {
    assert multiset(sent + [x]) == multiset(sent) + multiset{x};
  }

  lemma PushedLedger(s: RegionState, call: Call)
    ensures Ledger(Pushed(s, call)) == Ledger(s) + multiset{s.nextId}
    ensures Pushed(s, call).nextId == s.nextId + 1
  {
    var item := Item(s.nextId, call, 0, Int(0));
    var p := Pushed(s, call);
    var b, c, d := multiset(s.inFlight.Keys), multiset(SettledIds(s.outcomes)), multiset(s.escaped);
    if call.priority == High {
      IdsSnoc(s.priorityQueue, item);
      AddToPart(multiset(Ids(s.priorityQueue)), multiset(Ids(s.requestQueue)), b, c, d, s.nextId);
    } else {
      IdsSnoc(s.requestQueue, item);
      AddToPart(multiset(Ids(s.requestQueue)), multiset(Ids(s.priorityQueue)), b, c, d, s.nextId);
    }
  }

  /** One more element in one part of a union is one more element in the union. */
  lemma AddToPart(a: multiset<nat>, other: multiset<nat>, b: multiset<nat>, c: multiset<nat>, d: multiset<nat>, x: nat)
    ensures (a + multiset{x}) + other + b + c + d == a + other + b + c + d + multiset{x}
    ensures other + (a + multiset{x}) + b + c + d == other + a + b + c + d + multiset{x}
  {
  }

  lemma PushedAccounted(s: RegionState, call: Call)
    requires Accounted(s)
    ensures Accounted(Pushed(s, call))
  {
    var p := Pushed(s, call);
    PushedLedger(s, call);
    UptoNext(Ledger(s), Ledger(p), s.nextId);
    assert p.sent == s.sent;
  }

  /** Accepting the next id extends the ids accepted so far by that id. */
  lemma UptoNext(before: multiset<nat>, after: multiset<nat>, n: nat)
    requires before == Upto(n) && after == before + multiset{n}
    ensures after == Upto(n + 1)
  {
  }

  lemma PushedCounted(s: RegionState, call: Call, bound: nat)
    requires Counted(s, bound) && multiset(s.sent)[s.nextId] == 0
    ensures Counted(Pushed(s, call), bound)
  {
    var item := Item(s.nextId, call, 0, Int(0));
    if call.priority == High {
      QueueCountsSnoc(s.priorityQueue, item, s.sent, bound);
    } else {
      QueueCountsSnoc(s.requestQueue, item, s.sent, bound);
    }
  }

  /** Enqueueing keeps the invariant: the new id is fresh and never sent. */
  lemma PushedConsistent(s: RegionState, call: Call, bound: nat)
    requires Consistent(s, bound)
    ensures Consistent(Pushed(s, call), bound)
  {
    NotSent(s.sent, s.nextId);
    PushedAccounted(s, call);
    PushedCounted(s, call, bound);
  }

  /** The item a drain pops is nowhere else: not in flight, not elsewhere in
      either queue. */
  lemma PopUnique(s: RegionState, fromPriority: bool)
    requires Accounted(s) && Queue(s, fromPriority) != []
    ensures var q := Queue(s, fromPriority); var it := Next(s, fromPriority);
      && it.id < s.nextId
      && it.id !in s.inFlight
      && Absent(q[..|q| - 1], it.id)
      && Absent(Queue(s, !fromPriority), it.id)
  {
    var q := Queue(s, fromPriority);
    var other := Queue(s, !fromPriority);
    var it := Next(s, fromPriority);
    var init := q[..|q| - 1];
    IdsDropLast(q);
    UptoCount(s.nextId, it.id);
    assert Ledger(s) == multiset(Ids(q)) + multiset(Ids(other)) + multiset(s.inFlight.Keys)
      + multiset(SettledIds(s.outcomes)) + multiset(s.escaped);
    assert multiset(Ids(init))[it.id] == 0;
    assert multiset(Ids(other))[it.id] == 0;
    assert multiset(s.inFlight.Keys)[it.id] == 0;
    forall i | 0 <= i < |init|
      ensures init[i].id != it.id
    {
      assert Ids(init)[i] == init[i].id;
    }
    forall i | 0 <= i < |other|
      ensures other[i].id != it.id
    {
      assert Ids(other)[i] == other[i].id;
    }
  }

  /** Popping an item and settling its caller keeps the invariant. */
  lemma PoppedSettledConsistent(s: RegionState, fromPriority: bool, o: Outcome, bound: nat)
    requires Consistent(s, bound) && Queue(s, fromPriority) != []
    requires o.id == Next(s, fromPriority).id
    ensures var p := Popped(s, fromPriority); Consistent(p.(outcomes := p.outcomes + [o]), bound)
  {
    var q := Queue(s, fromPriority);
    var p := Popped(s, fromPriority);
    var s' := p.(outcomes := p.outcomes + [o]);
    IdsDropLast(q);
    QueueCountsInit(q, s.sent, bound);
    SettledSnoc(s.outcomes, o);
    assert Ledger(s') == Ledger(s);
  }

  /** Popping an item whose exception escapes keeps the invariant. */
  lemma PoppedEscapedConsistent(s: RegionState, fromPriority: bool, bound: nat)
    requires Consistent(s, bound) && Queue(s, fromPriority) != []
    ensures var p := Popped(s, fromPriority);
      Consistent(p.(escaped := p.escaped + [Next(s, fromPriority).id]), bound)
  {
    var q := Queue(s, fromPriority);
    PoppedEscapedLedger(s, fromPriority);
    QueueCountsInit(q, s.sent, bound);
  }

  lemma PoppedEscapedLedger(s: RegionState, fromPriority: bool)
    requires Queue(s, fromPriority) != []
    ensures var p := Popped(s, fromPriority);
      Ledger(p.(escaped := p.escaped + [Next(s, fromPriority).id])) == Ledger(s)
  {
    IdsDropLast(Queue(s, fromPriority));
  }

  lemma DispatchedAccounted(s: RegionState, fromPriority: bool, d: Dispatch, ml: map<string, MethodLimit>,
                            tried: seq<Limiter>)
    requires Accounted(s) && Queue(s, fromPriority) != []
    requires d.item == Next(s, fromPriority)
    ensures Accounted(Dispatched(Popped(s, fromPriority), d, ml, tried))
  {
    PopUnique(s, fromPriority);
    DispatchedLedger(s, fromPriority, d, ml, tried);
  }

  lemma DispatchedLedger(s: RegionState, fromPriority: bool, d: Dispatch, ml: map<string, MethodLimit>,
                         tried: seq<Limiter>)
    requires Queue(s, fromPriority) != [] && d.item == Next(s, fromPriority) && d.item.id !in s.inFlight
    ensures Ledger(Dispatched(Popped(s, fromPriority), d, ml, tried)) == Ledger(s)
  {
    IdsDropLast(Queue(s, fromPriority));
    KeysAdd(s.inFlight, d.item.id, d);
  }

  lemma DispatchedCounted(s: RegionState, fromPriority: bool, d: Dispatch, ml: map<string, MethodLimit>,
                          tried: seq<Limiter>, bound: nat)
    requires Counted(s, bound) && Queue(s, fromPriority) != []
    requires d.item == Next(s, fromPriority)
    requires var q := Queue(s, fromPriority);
      d.item.id !in s.inFlight && Absent(q[..|q| - 1], d.item.id) && Absent(Queue(s, !fromPriority), d.item.id)
    ensures Counted(Dispatched(Popped(s, fromPriority), d, ml, tried), bound)
  {
    var q := Queue(s, fromPriority);
    var it := d.item;
    assert q[|q| - 1] == it;
    QueueCountsInit(q, s.sent, bound);
    QueueCountsSend(q[..|q| - 1], s.sent, it.id, bound);
    QueueCountsSend(Queue(s, !fromPriority), s.sent, it.id, bound);
    FlightCountsAdd(s.inFlight, d, s.sent, bound);
    SendBoundAdd(s.sent, it.id, bound);
  }

  /** Popping an item and dispatching it keeps the invariant, provided its
      target has a method limiter and no limiter was dropped. */
  lemma DispatchedConsistent(s: RegionState, fromPriority: bool, d: Dispatch, ml: map<string, MethodLimit>,
                             tried: seq<Limiter>, bound: nat)
    requires Consistent(s, bound) && Queue(s, fromPriority) != []
    requires d.item == Next(s, fromPriority)
    requires s.methodLimits.Keys <= ml.Keys && d.item.call.target in ml
    ensures Consistent(Dispatched(Popped(s, fromPriority), d, ml, tried), bound)
  {
    PopUnique(s, fromPriority);
    DispatchedAccounted(s, fromPriority, d, ml, tried);
    DispatchedCounted(s, fromPriority, d, ml, tried, bound);
  }

  /** Settling a request in flight keeps the invariant. */
  lemma SettledConsistent(s: RegionState, id: nat, o: Outcome, bound: nat)
    requires Consistent(s, bound) && id in s.inFlight && o.id == id
    ensures Consistent(Settled(s, id, o), bound)
  {
    var s' := Settled(s, id, o);
    KeysRemove(s.inFlight, id);
    SettledSnoc(s.outcomes, o);
    FlightCountsRemove(s.inFlight, id, s.sent, bound);
    assert Ledger(s') == Ledger(s);
  }

  lemma RequeuedLedger(s: RegionState, id: nat, retried: Item)
    requires id in s.inFlight && retried.id == id
    ensures Ledger(Requeued(s, id, retried)) == Ledger(s)
  {
    KeysRemove(s.inFlight, id);
    if retried.call.priority == High {
      IdsCons(retried, s.priorityQueue);
    } else {
      IdsCons(retried, s.requestQueue);
    }
  }

  lemma RequeuedCounted(s: RegionState, id: nat, retried: Item, bound: nat)
    requires Counted(s, bound) && id in s.inFlight
    requires retried.id == id && retried.retryCount == s.inFlight[id].item.retryCount + 1 <= bound
    ensures Counted(Requeued(s, id, retried), bound)
  {
    FlightCountsRemove(s.inFlight, id, s.sent, bound);
    if retried.call.priority == High {
      QueueCountsCons(retried, s.priorityQueue, s.sent, bound);
    } else {
      QueueCountsCons(retried, s.requestQueue, s.sent, bound);
    }
  }

  /** Re-queueing a request in flight with one more retry, within the bound,
      keeps the invariant. */
  lemma RequeuedConsistent(s: RegionState, id: nat, retried: Item, bound: nat)
    requires Consistent(s, bound) && id in s.inFlight
    requires retried.id == id && retried.retryCount == s.inFlight[id].item.retryCount + 1 <= bound
    ensures Consistent(Requeued(s, id, retried), bound)
  {
    RequeuedLedger(s, id, retried);
    RequeuedCounted(s, id, retried, bound);
  }

  /** Raising the priority of a request in flight keeps the invariant. */
  lemma EscalatedConsistent(s: RegionState, id: nat, bound: nat)
    requires Consistent(s, bound) && id in s.inFlight
    ensures Consistent(Escalated(s, id), bound)
  {
    var d := s.inFlight[id];
    var d' := d.(item := d.item.(call := d.item.call.(priority := High)));
    FlightCountsReplace(s.inFlight, d', s.sent, bound);
    assert Escalated(s, id).inFlight.Keys == s.inFlight.Keys;
  }

  /** A new region keeps the invariant, whatever the retry bound. */
  lemma IdleConsistent(bound: nat)
    ensures Consistent(Idle, bound)
  {
  }

  /** Rebuilding method limiters keeps the invariant as long as none is dropped. */
  lemma LimitsConsistent(s: RegionState, ml: map<string, MethodLimit>, bound: nat)
    requires Consistent(s, bound) && s.methodLimits.Keys <= ml.Keys
    ensures Consistent(s.(methodLimits := ml), bound)
  {
    assert Ledger(s.(methodLimits := ml)) == Ledger(s);
  }

  /** The shared store (redis) as far as this client uses it directly: the
      method limits remembered under `env + platformId + target + "_limit"`. */
  class Store {
    var data: map<string, string>

    constructor(data: map<string, string>)
      ensures this.data == data
    {
      this.data := data;
    }

    /** `GET key`. */
    method Get(key: string) returns (r: Option<string>)
      ensures r == Stored(data, key)
    {
      r := if key in data then Some(data[key]) else None;
    }

    /** `SET key value`. */
    method Set(key: string, value: string)
      modifies this
      ensures data == old(data)[key := value]
    {
      data := data[key := value];
    }
  }

  class Region {
    const config: Config
    const platformId: string
    const store: Store
    const appLimiters: seq<Limiter>
    var methodLimits: map<string, MethodLimit>
    var priorityQueue: seq<Item>
    var requestQueue: seq<Item>
    var isProcessing: bool
    /** Requests sent and not yet completed, by call id. */
    var inFlight: map<nat, Dispatch>
    /** The callers' promises settled so far, in order. */
    var outcomes: seq<Outcome>
    /** Calls whose exception escaped a drain: never settled. */
    var escaped: seq<nat>
    /** Every attempt gate consulted, in order (each consultation counts as an attempt). */
    var attempts: seq<Limiter>
    /** Every request sent, by call id, in order. */
    var sent: seq<nat>
    var nextId: nat

    ghost function State(): RegionState
      reads this
    {
      RegionState(methodLimits, priorityQueue, requestQueue, isProcessing, inFlight, outcomes, escaped,
                  attempts, sent, nextId)
    }

    /** The most retries an item can have: `maxRetriesAmnt`, or none when it is not positive. */
    function Bound(): nat {
      if config.maxRetries > 0 then config.maxRetries else 0
    }

    /** The namespace of a method limiter: `env + platformId + target`. */
    function Namespace(target: string): string {
      config.env + platformId + target
    }

    /** The store key of a method limit: the namespace followed by `_limit`. */
    function LimitKey(target: string): string {
      Namespace(target) + "_limit"
    }

    /** The state after `_process` has handled `item` (already popped), when the
        store holds `data` and the outside world answers `input`. Processing
        leaves the queues, the flag and the id counter alone, and records the
        item as escaped exactly when its exception escapes. */
    function Processed(s: RegionState, item: Item, input: StepInput, data: map<string, string>): (r: RegionState)
      ensures r.priorityQueue == s.priorityQueue && r.requestQueue == s.requestQueue
      ensures r.isProcessing == s.isProcessing && r.nextId == s.nextId
      ensures r.escaped == if Prepare(config, item.call).Escapes? then s.escaped + [item.id] else s.escaped
    {
      var target := item.call.target;
      match Prepare(config, item.call)
      case Missing => s.(outcomes := s.outcomes + [Rejected(item.id, Message("Api endpoint " + target + " not defined"))])
      case Escapes => s.(escaped := s.escaped + [item.id])
      case Ready(url, limit) =>
        var ml := Created(s.methodLimits, data, LimitKey(target), Namespace(target), limit, target, false, input.storeError);
        var m := ml[target].limiter;
        var snooze := Delay(Waits(appLimiters, input.gate), AttemptWait(input.gate(m)), item.retryMS);
        Dispatched(s, Dispatch(item, url, snooze), ml, appLimiters + [m])
    }

    /** The two loops of `processQueue` from state `s` (flag set), the k-th item
        of the drain onward: the tail of the priority queue while there is one,
        else the tail of the normal queue, until both are empty (the flag is
        cleared) or an exception escapes (the flag stays set). Returns the final
        state and the ids served. */
    function Drained(s: RegionState, env: nat -> StepInput, data: map<string, string>, k: nat): (r: (RegionState, seq<nat>))
      ensures r.1 == [] <==> s.priorityQueue == [] && s.requestQueue == []
      ensures |r.1| <= |s.priorityQueue| + |s.requestQueue|
      decreases |s.priorityQueue| + |s.requestQueue|
    {
      if s.priorityQueue == [] && s.requestQueue == [] then (s.(isProcessing := false), [])
      else
        var fromPriority := s.priorityQueue != [];
        var item := Next(s, fromPriority);
        var t := Processed(Popped(s, fromPriority), item, env(k), data);
        if Prepare(config, item.call).Escapes? then (t, [item.id])
        else
          var r := Drained(t, env, data, k + 1);
          (r.0, [item.id] + r.1)
    }

    /** `processQueue`: nothing while a drain is running, else a drain. */
    function Run(s: RegionState, env: nat -> StepInput, data: map<string, string>): (r: (RegionState, seq<nat>))
      ensures s.isProcessing ==> r == (s, [])
      ensures r.1 != [] ==> !s.isProcessing
      ensures !s.isProcessing ==> (r.1 == [] <==> s.priorityQueue == [] && s.requestQueue == [])
    {
      if s.isProcessing then (s, []) else Drained(s.(isProcessing := true), env, data, 0)
    }

    /** The item after one more retry: `_retryRequest`'s counter and delay update. */
    function Retried(item: Item, explicit: Option<Num>): (r: Item)
      ensures r.id == item.id && r.call == item.call
      ensures r.retryCount == item.retryCount + 1
      ensures explicit.Some? ==> r.retryMS == explicit.value
      ensures explicit.None? && item.retryMS == Int(0) ==> r.retryMS == Int(config.retryMS)
      ensures explicit.None? && item.retryMS != Int(0) ==> r.retryMS == Times(item.retryMS, 2)
    {
      item.(retryCount := item.retryCount + 1, retryMS := NextRetryMS(item.retryMS, explicit, config.retryMS))
    }

    /** The method limits and the store after a completion: adjusted when the
        outcome carries response headers. */
    function LimitsAfter(ml: map<string, MethodLimit>, data: map<string, string>, target: string,
                         response: Response, storeError: bool): (r: (map<string, MethodLimit>, map<string, string>))
      requires target in ml
      ensures r.0.Keys == ml.Keys
      ensures ResponseHeaders(response).None? ==> r == (ml, data)
    {
      match ResponseHeaders(response)
      case None => (ml, data)
      case Some(h) => Adjusted(ml, data, LimitKey(target), Namespace(target), target, h.methodLimit, storeError)
    }

    /** The state and the store after the request `id` completed with `response`:
        the limits adjusted, then the caller resolved or rejected, or the item
        (escalated on 429) re-queued with one more retry and a drain started. */
    function Completed(s: RegionState, data: map<string, string>, id: nat, response: Response, storeError: bool,
                       env: nat -> StepInput): (r: (RegionState, map<string, string>))
      requires id in s.inFlight && s.inFlight[id].item.call.target in s.methodLimits
      ensures !Classify(response, s.inFlight[id].item.retryCount, config.maxRetries).Retry? ==>
        && id !in r.0.inFlight
        && |r.0.outcomes| == |s.outcomes| + 1
        && r.0.outcomes[..|s.outcomes|] == s.outcomes
        && r.0.outcomes[|s.outcomes|].id == id
      ensures var d := Classify(response, s.inFlight[id].item.retryCount, config.maxRetries);
        d.Resolve? ==> r.0.outcomes[|s.outcomes|] == Resolved(id, d.body)
      ensures var d := Classify(response, s.inFlight[id].item.retryCount, config.maxRetries);
        d.Reject? ==> r.0.outcomes[|s.outcomes|] == Rejected(id, d.failure)
    {
      var item := s.inFlight[id].item;
      var after := LimitsAfter(s.methodLimits, data, item.call.target, response, storeError);
      var s1 := s.(methodLimits := after.0);
      match Classify(response, item.retryCount, config.maxRetries)
      case Resolve(body) => (Settled(s1, id, Resolved(id, body)), after.1)
      case Reject(failure) => (Settled(s1, id, Rejected(id, failure)), after.1)
      case Retry(escalate, explicit) =>
        var s2 := if escalate then Escalated(s1, id) else s1;
        (Run(Requeued(s2, id, Retried(s2.inFlight[id].item, explicit)), env, after.1).0, after.1)
    }

    /** One step of a drain: the item `_process` takes next, and the state `t`
        it leaves. */
    lemma DrainedStep(s: RegionState, env: nat -> StepInput, data: map<string, string>, k: nat,
                      t: RegionState, ok: bool)
      requires s.priorityQueue != [] || s.requestQueue != []
      requires var fromPriority := s.priorityQueue != [];
        && t == Processed(Popped(s, fromPriority), Next(s, fromPriority), env(k), data)
        && (ok <==> !Prepare(config, Next(s, fromPriority).call).Escapes?)
      ensures var id := Next(s, s.priorityQueue != []).id;
        && (ok ==> Drained(s, env, data, k) == (Drained(t, env, data, k + 1).0, [id] + Drained(t, env, data, k + 1).1))
        && (!ok ==> Drained(s, env, data, k) == (t, [id]))
    {
    }

    /** A drain that finds both queues empty clears the flag and serves nothing. */
    lemma DrainedEmpty(s: RegionState, env: nat -> StepInput, data: map<string, string>, k: nat)
      requires s.priorityQueue == [] && s.requestQueue == []
      ensures Drained(s, env, data, k) == (s.(isProcessing := false), [])
    {
    }

    /** What `_process` touches: an undefined endpoint only rejects its caller and
        an escaping exception only records the escape, neither creating a method
        limiter, consulting a gate nor sending; a ready item has a method limiter
        for its target, consults every application gate and then that limiter,
        and is sent and in flight, its caller not yet settled. */
    lemma ProcessedEffects(s: RegionState, item: Item, input: StepInput, data: map<string, string>)
      ensures var r := Processed(s, item, input, data);
        !Prepare(config, item.call).Ready? ==>
          && r.methodLimits == s.methodLimits && r.attempts == s.attempts
          && r.sent == s.sent && r.inFlight == s.inFlight
      ensures var r := Processed(s, item, input, data);
        Prepare(config, item.call).Missing? ==>
          r.outcomes == s.outcomes + [Rejected(item.id, Message("Api endpoint " + item.call.target + " not defined"))]
      ensures var r := Processed(s, item, input, data);
        Prepare(config, item.call).Ready? ==>
          && item.call.target in r.methodLimits
          && s.methodLimits.Keys <= r.methodLimits.Keys
          && r.attempts == s.attempts + appLimiters + [r.methodLimits[item.call.target].limiter]
          && r.sent == s.sent + [item.id]
          && item.id in r.inFlight && r.inFlight[item.id].item == item
          && r.outcomes == s.outcomes
    {
    }

    /** A `get` while a drain is running only enqueues: the flag is left set and
        no item is processed. */
    lemma GetDuringDrain(s: RegionState, call: Call, env: nat -> StepInput, data: map<string, string>)
      requires s.isProcessing
      ensures Run(Pushed(s, call), env, data) == (Pushed(s, call), [])
      ensures Run(Pushed(s, call), env, data).0.isProcessing
    {
    }

    /** Whatever `_process` does with the popped item keeps the region invariant. */
    lemma ProcessedConsistent(s: RegionState, fromPriority: bool, input: StepInput, data: map<string, string>)
      requires Consistent(s, Bound()) && Queue(s, fromPriority) != []
      ensures Consistent(Processed(Popped(s, fromPriority), Next(s, fromPriority), input, data), Bound())
    {
      var item := Next(s, fromPriority);
      var target := item.call.target;
      match Prepare(config, item.call)
      case Missing =>
        PoppedSettledConsistent(s, fromPriority, Rejected(item.id, Message("Api endpoint " + target + " not defined")), Bound());
      case Escapes =>
        PoppedEscapedConsistent(s, fromPriority, Bound());
      case Ready(url, limit) =>
        var ml := Created(Popped(s, fromPriority).methodLimits, data, LimitKey(target), Namespace(target), limit, target,
                          false, input.storeError);
        var m := ml[target].limiter;
        var d := Dispatch(item, url, Delay(Waits(appLimiters, input.gate), AttemptWait(input.gate(m)), item.retryMS));
        DispatchedConsistent(s, fromPriority, d, ml, appLimiters + [m], Bound());
    }

    /** A drain keeps the region invariant. */
    lemma {:induction false} DrainedConsistent(s: RegionState, env: nat -> StepInput, data: map<string, string>, k: nat)
      requires Consistent(s, Bound())
      ensures Consistent(Drained(s, env, data, k).0, Bound())
      decreases |s.priorityQueue| + |s.requestQueue|
    {
      if s.priorityQueue != [] || s.requestQueue != [] {
        var fromPriority := s.priorityQueue != [];
        var item := Next(s, fromPriority);
        ProcessedConsistent(s, fromPriority, env(k), data);
        if !Prepare(config, item.call).Escapes? {
          DrainedConsistent(Processed(Popped(s, fromPriority), item, env(k), data), env, data, k + 1);
        }
      } else {
        assert Ledger(s.(isProcessing := false)) == Ledger(s);
      }
    }

    /** A drain serves the ids in service order (the priority queue from its tail,
        then the normal queue from its tail), and all of them when it ends with
        the flag cleared. */
    lemma {:induction false} DrainedOrder(s: RegionState, env: nat -> StepInput, data: map<string, string>, k: nat)
      requires s.isProcessing
      ensures var (t, served) := Drained(s, env, data, k);
        && served <= ServiceOrder(s.priorityQueue, s.requestQueue)
        && (!t.isProcessing ==> served == ServiceOrder(s.priorityQueue, s.requestQueue))
      decreases |s.priorityQueue| + |s.requestQueue|
    {
      if s.priorityQueue != [] || s.requestQueue != [] {
        var fromPriority := s.priorityQueue != [];
        var item := Next(s, fromPriority);
        var t := Processed(Popped(s, fromPriority), item, env(k), data);
        var ok := !Prepare(config, item.call).Escapes?;
        DrainedStep(s, env, data, k, t, ok);
        OrderAfterPop(s, fromPriority);
        if ok {
          DrainedOrder(t, env, data, k + 1);
          PrefixCons(item.id, Drained(t, env, data, k + 1).1, ServiceOrder(t.priorityQueue, t.requestQueue));
        } else {
          PrefixCons(item.id, [], ServiceOrder(t.priorityQueue, t.requestQueue));
        }
      }
    }

    /** A drain ends with both queues empty when it clears the flag. It accepts
        no call. */
    lemma {:induction false} DrainedEnds(s: RegionState, env: nat -> StepInput, data: map<string, string>, k: nat)
      requires s.isProcessing
      ensures var t := Drained(s, env, data, k).0;
        && t.nextId == s.nextId
        && (!t.isProcessing ==> t.priorityQueue == [] && t.requestQueue == [])
      decreases |s.priorityQueue| + |s.requestQueue|
    {
      if s.priorityQueue != [] || s.requestQueue != [] {
        var fromPriority := s.priorityQueue != [];
        var item := Next(s, fromPriority);
        if !Prepare(config, item.call).Escapes? {
          DrainedEnds(Processed(Popped(s, fromPriority), item, env(k), data), env, data, k + 1);
        }
      }
    }

    /** A drain that clears the flag lets no exception escape; one that leaves it
        set ends with the escape of the last call it served. */
    lemma DrainedEscapes(s: RegionState, env: nat -> StepInput, data: map<string, string>, k: nat)
      requires s.isProcessing
      ensures var r := Drained(s, env, data, k);
        !r.0.isProcessing ==> r.0.escaped == s.escaped
      ensures var r := Drained(s, env, data, k);
        r.0.isProcessing ==> r.1 != [] && r.0.escaped == s.escaped + [r.1[|r.1| - 1]]
    {
      DrainedClearsWithoutEscape(s, env, data, k);
      DrainedStopsOnEscape(s, env, data, k);
    }

    lemma {:induction false} DrainedClearsWithoutEscape(s: RegionState, env: nat -> StepInput, data: map<string, string>, k: nat)
      requires s.isProcessing
      ensures var r := Drained(s, env, data, k);
        !r.0.isProcessing ==> r.0.escaped == s.escaped
      decreases |s.priorityQueue| + |s.requestQueue|
    {
      if s.priorityQueue != [] || s.requestQueue != [] {
        var fromPriority := s.priorityQueue != [];
        var item := Next(s, fromPriority);
        var t := Processed(Popped(s, fromPriority), item, env(k), data);
        var ok := !Prepare(config, item.call).Escapes?;
        DrainedStep(s, env, data, k, t, ok);
        if ok {
          assert t.escaped == s.escaped;
          DrainedClearsWithoutEscape(t, env, data, k + 1);
        } else {
          assert Drained(s, env, data, k) == (t, [item.id]);
        }
      } else {
        DrainedEmpty(s, env, data, k);
      }
    }

    lemma {:induction false} DrainedStopsOnEscape(s: RegionState, env: nat -> StepInput, data: map<string, string>, k: nat)
      requires s.isProcessing
      ensures EndsOnEscape(s.escaped, Drained(s, env, data, k))
      decreases |s.priorityQueue| + |s.requestQueue|
    {
      if s.priorityQueue != [] || s.requestQueue != [] {
        var t, ok, id := DrainedNext(s, env, data, k);
        if ok {
          DrainedStopsOnEscape(t, env, data, k + 1);
          EscapesCons(s.escaped, id, Drained(t, env, data, k + 1), Drained(s, env, data, k));
        }
      } else {
        DrainedEmpty(s, env, data, k);
      }
    }

    /** One step of a drain seen from outside: the state after serving the next
        item, whether the drain goes on, and the id served. */
    lemma DrainedNext(s: RegionState, env: nat -> StepInput, data: map<string, string>, k: nat)
      returns (t: RegionState, ok: bool, id: nat)
      requires s.isProcessing && (s.priorityQueue != [] || s.requestQueue != [])
      ensures t.isProcessing
      ensures |t.priorityQueue| + |t.requestQueue| < |s.priorityQueue| + |s.requestQueue|
      ensures ok ==> t.escaped == s.escaped
      ensures ok ==> Drained(s, env, data, k) == (Drained(t, env, data, k + 1).0, [id] + Drained(t, env, data, k + 1).1)
      ensures !ok ==> t.escaped == s.escaped + [id]
      ensures !ok ==> Drained(s, env, data, k) == (t, [id])
    {
      var fromPriority := s.priorityQueue != [];
      var item := Next(s, fromPriority);
      t := Processed(Popped(s, fromPriority), item, env(k), data);
      ok := !Prepare(config, item.call).Escapes?;
      id := item.id;
      DrainedStep(s, env, data, k, t, ok);
    }

    /** `get` keeps the region invariant: enqueueing and the drain it may start. */
    lemma GetConsistent(s: RegionState, call: Call, env: nat -> StepInput, data: map<string, string>)
      requires Consistent(s, Bound())
      ensures Consistent(Run(Pushed(s, call), env, data).0, Bound())
    {
      var p := Pushed(s, call);
      PushedConsistent(s, call, Bound());
      if !p.isProcessing {
        assert Ledger(p.(isProcessing := true)) == Ledger(p);
        DrainedConsistent(p.(isProcessing := true), env, data, 0);
      }
    }

    /** A completion keeps the region invariant: its limit adjustment drops no
        limiter, and a retry happens only while the retry budget lasts, so no call
        is sent more than `max(maxRetries, 0) + 1` times. */
    lemma CompletedConsistent(s: RegionState, data: map<string, string>, id: nat, response: Response, storeError: bool,
                              env: nat -> StepInput)
      requires Consistent(s, Bound()) && id in s.inFlight
      ensures Consistent(Completed(s, data, id, response, storeError, env).0, Bound())
    {
      if Classify(response, s.inFlight[id].item.retryCount, config.maxRetries).Retry? {
        CompletedRetryConsistent(s, data, id, response, storeError, env);
      } else {
        CompletedSettledConsistent(s, data, id, response, storeError, env);
      }
    }

    /** A completion that resolves or rejects the caller keeps the invariant. */
    lemma CompletedSettledConsistent(s: RegionState, data: map<string, string>, id: nat, response: Response,
                                     storeError: bool, env: nat -> StepInput)
      requires Consistent(s, Bound()) && id in s.inFlight
      requires !Classify(response, s.inFlight[id].item.retryCount, config.maxRetries).Retry?
      ensures Consistent(Completed(s, data, id, response, storeError, env).0, Bound())
    {
      var item := s.inFlight[id].item;
      var after := LimitsAfter(s.methodLimits, data, item.call.target, response, storeError);
      var s1 := s.(methodLimits := after.0);
      LimitsConsistent(s, after.0, Bound());
      var d := Classify(response, item.retryCount, config.maxRetries);
      if d.Resolve? {
        SettledConsistent(s1, id, Resolved(id, d.body), Bound());
      } else {
        SettledConsistent(s1, id, Rejected(id, d.failure), Bound());
      }
    }

    /** A completion that retries the request keeps the invariant. */
    lemma CompletedRetryConsistent(s: RegionState, data: map<string, string>, id: nat, response: Response,
                                   storeError: bool, env: nat -> StepInput)
      requires Consistent(s, Bound()) && id in s.inFlight
      requires Classify(response, s.inFlight[id].item.retryCount, config.maxRetries).Retry?
      ensures Consistent(Completed(s, data, id, response, storeError, env).0, Bound())
    {
      var item := s.inFlight[id].item;
      var after := LimitsAfter(s.methodLimits, data, item.call.target, response, storeError);
      var s1 := s.(methodLimits := after.0);
      LimitsConsistent(s, after.0, Bound());
      var d := Classify(response, item.retryCount, config.maxRetries);
      var s2 := if d.escalate then Escalated(s1, id) else s1;
      if d.escalate {
        EscalatedConsistent(s1, id, Bound());
      }
      assert s2.inFlight[id].item.retryCount == item.retryCount;
      RetryConsistent(s2, id, d.explicitMS, env, after.1);
    }

    /** Re-queueing a request whose retry budget is not spent, and the drain that
        follows, keep the region invariant. */
    lemma RetryConsistent(s: RegionState, id: nat, explicit: Option<Num>, env: nat -> StepInput, data: map<string, string>)
      requires Consistent(s, Bound()) && id in s.inFlight && s.inFlight[id].item.retryCount < config.maxRetries
      ensures Consistent(Run(Requeued(s, id, Retried(s.inFlight[id].item, explicit)), env, data).0, Bound())
    {
      var retried := Retried(s.inFlight[id].item, explicit);
      RequeuedConsistent(s, id, retried, Bound());
      var r := Requeued(s, id, retried);
      if !r.isProcessing {
        assert Ledger(r.(isProcessing := true)) == Ledger(r);
        DrainedConsistent(r.(isProcessing := true), env, data, 0);
      }
    }

    /** `new Region(config, redisClient, platformId)`: two application limiters from
        `applimit[0]` and `applimit[1]`, no method limiter, empty queues. */
    constructor(config: Config, store: Store, platformId: string)
      ensures this.config == config && this.store == store && this.platformId == platformId
      ensures appLimiters == AppLimiters(config)
      ensures State() == Idle
    {
      this.config := config;
      this.platformId := platformId;
      this.store := store;
      var app0 := GetLimits(config.appLimit0);
      var app1 := GetLimits(config.appLimit1);
      appLimiters := [Limiter(config.env + "app_0", app0), Limiter(config.env + "app_1", app1)];
      methodLimits := map[];
      priorityQueue := [];
      requestQueue := [];
      isProcessing := false;
      inFlight := map[];
      outcomes := [];
      escaped := [];
      attempts := [];
      sent := [];
      nextId := 0;
    }

    /** The push of `get`: the call becomes an item with no retries and no delay
        at the tail of the priority queue when its priority is HIGH, else of the
        normal queue. */
    method Enqueue(call: Call) returns (item: Item)
      modifies this
      ensures item == Item(old(nextId), call, 0, Int(0))
      ensures State() == Pushed(old(State()), call)
    {
      item := Item(nextId, call, 0, Int(0));
      if call.priority == High {
        priorityQueue := priorityQueue + [item];
      } else {
        requestQueue := requestQueue + [item];
      }
      nextId := nextId + 1;
    }

    /** `Region.prototype.get`: enqueue the call and start a drain; the returned
        id names the caller's promise. */
    method Get(call: Call, env: nat -> StepInput) returns (id: nat)
      modifies this
      ensures id == old(nextId)
      ensures State() == Run(Pushed(old(State()), call), env, store.data).0
    {
      var item := Enqueue(call);
      id := item.id;
      var _ := ProcessQueue(env);
    }

    /** `processQueue`: unless a drain is already running, drain the priority
        queue completely, then take one item from the normal queue, and repeat
        until both are empty; an exception from `_process` ends the drain with
        the flag still set. `env(k)` is what the outside world answers for the
        k-th item of this drain. */
    method ProcessQueue(env: nat -> StepInput) returns (served: seq<nat>)
      modifies this
      ensures (State(), served) == Run(old(State()), env, store.data)
    {
      served := [];
      if isProcessing {
        return;
      }
      isProcessing := true;
      assert State() == old(State()).(isProcessing := true);
      ghost var total := Drained(State(), env, store.data, 0);
      while priorityQueue != [] || requestQueue != []
        invariant isProcessing
        invariant Drained(State(), env, store.data, |served|).0 == total.0
        invariant served + Drained(State(), env, store.data, |served|).1 == total.1
        decreases |priorityQueue| + |requestQueue|
      {
        ghost var start := |priorityQueue| + |requestQueue|;
        while priorityQueue != []
          invariant isProcessing
          invariant Drained(State(), env, store.data, |served|).0 == total.0
          invariant served + Drained(State(), env, store.data, |served|).1 == total.1
          invariant |priorityQueue| + |requestQueue| <= start
          decreases |priorityQueue|
        {
          var ok;
          served, ok := Step(true, env, served, total);
          if !ok {
            return;
          }
        }
        if requestQueue != [] {
          var ok;
          served, ok := Step(false, env, served, total);
          if !ok {
            return;
          }
        }
      }
      ghost var last := State();
      DrainedEmpty(last, env, store.data, |served|);
      isProcessing := false;
      assert State() == last.(isProcessing := false);
      assert served + [] == served;
      assert (State(), served) == total;
    }

    /** One turn of either loop of `processQueue`: `_process` on the tail of the
        priority queue while it has items, else on the tail of the normal queue.
        Given the ids `served` so far by the drain that serves `total`, it
        serves one more; when its exception escapes, the drain ends here. */
    method Step(fromPriority: bool, env: nat -> StepInput, served: seq<nat>, ghost total: (RegionState, seq<nat>))
      returns (more: seq<nat>, ok: bool)
      requires Queue(State(), fromPriority) != [] && (fromPriority <==> priorityQueue != [])
      requires Drained(State(), env, store.data, |served|).0 == total.0
      requires served + Drained(State(), env, store.data, |served|).1 == total.1
      modifies this
      ensures isProcessing == old(isProcessing) && |more| == |served| + 1
      ensures fromPriority ==> |priorityQueue| == old(|priorityQueue|) - 1 && requestQueue == old(requestQueue)
      ensures !fromPriority ==> priorityQueue == old(priorityQueue) && |requestQueue| == old(|requestQueue|) - 1
      ensures ok ==> Drained(State(), env, store.data, |more|).0 == total.0
      ensures ok ==> more + Drained(State(), env, store.data, |more|).1 == total.1
      ensures !ok ==> (State(), more) == total
    {
      ghost var before := State();
      var item;
      item, ok := Process(fromPriority, env(|served|));
      DrainedStep(before, env, store.data, |served|, State(), ok);
      if ok {
        Regroup(served, [item.id], Drained(State(), env, store.data, |served| + 1).1, total.1);
      }
      more := served + [item.id];
    }

    /** `_process`: pop the queue's tail item; reject its caller when the
        endpoint is not defined; let the exception escape when the lookup or the
        URL fails; otherwise make sure the method limiter exists, consult every
        application gate and the method gate, and dispatch the request after the
        snooze they and the item's retry delay ask for. */
    method Process(fromPriority: bool, input: StepInput) returns (item: Item, ok: bool)
      requires Queue(State(), fromPriority) != []
      modifies this
      ensures item == Next(old(State()), fromPriority)
      ensures ok <==> !Prepare(config, item.call).Escapes?
      ensures State() == Processed(Popped(old(State()), fromPriority), item, input, store.data)
    {
      ghost var s0 := State();
      if fromPriority {
        item := priorityQueue[|priorityQueue| - 1];
        priorityQueue := priorityQueue[..|priorityQueue| - 1];
      } else {
        item := requestQueue[|requestQueue| - 1];
        requestQueue := requestQueue[..|requestQueue| - 1];
      }
      assert State() == Popped(s0, fromPriority);
      ok := Handle(item, input);
    }

    /** The rest of `_process` once `item` is popped: look the endpoint up, build
        the URL and send the request, or reject the caller, or let the
        exception escape. */
    method Handle(item: Item, input: StepInput) returns (ok: bool)
      modifies this
      ensures ok <==> !Prepare(config, item.call).Escapes?
      ensures State() == Processed(old(State()), item, input, store.data)
    {
      ghost var p := State();
      var target := item.call.target;
      var prefix := Format(config.prefix, [Str(item.call.region)]);
      var endpoint := GetEndpoint(config.endpoints, target);
      if endpoint == Found(Undef) {
        var failure := Rejected(item.id, Message("Api endpoint " + target + " not defined"));
        ghost var s1 := p.(outcomes := p.outcomes + [failure]);
        outcomes := outcomes + [failure];
        ok := true;
        assert State() == s1;
        return;
      }
      if !(endpoint.Found? && endpoint.cursor.At? && endpoint.cursor.entry.Endpoint?) {
        ghost var s1 := p.(escaped := p.escaped + [item.id]);
        escaped := escaped + [item.id];
        ok := false;
        assert State() == s1;
        return;
      }
      var descriptor := endpoint.cursor.entry;
      var built := BuildUrl(prefix, descriptor.url, item.call);
      if built.WrongArity? {
        ghost var s1 := p.(escaped := p.escaped + [item.id]);
        escaped := escaped + [item.id];
        ok := false;
        assert State() == s1;
        return;
      }
      SendReady(item, built.url, descriptor.limit, input);
      ok := true;
    }

    /** The end of `_process` for an item whose URL is built: make sure the method
        limiter exists, consult every application gate and then the method gate,
        and send the request after the snooze the worst wait and the item's retry
        delay ask for. */
    method SendReady(item: Item, url: Url, limit: string, input: StepInput)
      modifies this
      ensures var target := item.call.target;
        var ml := Created(old(methodLimits), store.data, LimitKey(target), Namespace(target), limit, target,
                          false, input.storeError);
        var m := ml[target].limiter;
        State() == Dispatched(old(State()), Dispatch(item, url, Delay(Waits(appLimiters, input.gate), AttemptWait(input.gate(m)), item.retryMS)),
                              ml, appLimiters + [m])
    {
      var target := item.call.target;
      CreateMethodLimiter(limit, target, false, input.storeError);
      var appTimeLeft := AppTimeLeft(appLimiters, input.gate);
      var methodLimiter := methodLimits[target].limiter;
      var methodTimeLeft := AttemptWait(input.gate(methodLimiter));
      var timeLeft := if appTimeLeft > methodTimeLeft then appTimeLeft else methodTimeLeft;
      var snooze := Snooze(timeLeft, item.retryMS);
      attempts := attempts + (appLimiters + [methodLimiter]);
      sent := sent + [item.id];
      inFlight := inFlight[item.id := Dispatch(item, url, snooze)];
    }

    /** `createMethodLimiter(endpointLimit, target, forceNew)`: for a new target,
        or when forced, read the stored limit and build the limiter from it, or
        from `endpointLimit` when the read fails or finds nothing. */
    method CreateMethodLimiter(endpointLimit: string, target: string, forceNew: bool, storeError: bool)
      modifies this
      ensures State() == old(State()).(methodLimits := Created(old(methodLimits), store.data, LimitKey(target),
                                                               Namespace(target), endpointLimit, target, forceNew, storeError))
    {
      if target !in methodLimits || forceNew {
        var stored := store.Get(LimitKey(target));
        var limit := endpointLimit;
        if !storeError && stored.Some? {
          limit := stored.value;
        }
        var parsed := GetLimits(limit);
        methodLimits := methodLimits[target := MethodLimit(limit, Limiter(Namespace(target), parsed))];
      }
    }

    /** `_adjustMethodLimit(target, headers)`: a reported method limit that differs
        from the cached one rebuilds the limiter (reading the store first) and is
        then written to the store. */
    method AdjustMethodLimit(target: string, headers: Headers, storeError: bool)
      requires target in methodLimits
      modifies this, store
      ensures (methodLimits, store.data) == Adjusted(old(methodLimits), old(store.data), LimitKey(target),
                                                     Namespace(target), target, headers.methodLimit, storeError)
      ensures State() == old(State()).(methodLimits := methodLimits)
    {
      var methodLimit := headers.methodLimit;
      if methodLimit.Some? && methodLimit.value != methodLimits[target].limit {
        CreateMethodLimiter(methodLimit.value, target, true, storeError);
        store.Set(LimitKey(target), methodLimit.value);
      }
    }

    /** `_retryRequest(item, retryMS)` for the item of the request `id`: count the
        retry, set its delay, put it at the head of the queue its priority
        selects and start a drain. */
    method RetryRequest(id: nat, explicit: Option<Num>, env: nat -> StepInput) returns (retried: Item)
      requires id in inFlight
      modifies this
      ensures retried == Retried(old(inFlight[id].item), explicit)
      ensures State() == Run(Requeued(old(State()), id, retried), env, store.data).0
    {
      retried := Retried(inFlight[id].item, explicit);
      ghost var s1 := Requeued(State(), id, retried);
      inFlight := inFlight - {id};
      if retried.call.priority == High {
        priorityQueue := [retried] + priorityQueue;
      } else {
        requestQueue := [retried] + requestQueue;
      }
      assert State() == s1;
      var _ := ProcessQueue(env);
    }

    /** The continuation of the request `id` in `_sendRequest`: adjust the method
        limit from the response headers, then resolve the caller (a body, or null
        on 404), retry (429 escalated to the priority queue with the retry-after
        delay, 500/503 in place) while retries remain, or reject the caller. The
        target of a request in flight always has a method limiter (`Limited`). */
    method Complete(id: nat, response: Response, storeError: bool, env: nat -> StepInput) returns (decision: Decision)
      requires id in inFlight && inFlight[id].item.call.target in methodLimits
      modifies this, store
      ensures decision == Classify(response, old(inFlight[id].item.retryCount), config.maxRetries)
      ensures (State(), store.data) == Completed(old(State()), old(store.data), id, response, storeError, env)
    {
      ghost var s0 := State();
      var d := inFlight[id];
      var target := d.item.call.target;
      var headers := ResponseHeaders(response);
      ghost var after := LimitsAfter(methodLimits, store.data, target, response, storeError);
      if headers.Some? {
        AdjustMethodLimit(target, headers.value, storeError);
      }
      ghost var s1 := s0.(methodLimits := after.0);
      assert State() == s1 && store.data == after.1;
      decision := Classify(response, d.item.retryCount, config.maxRetries);
      match decision
      case Resolve(body) =>
        inFlight := inFlight - {id};
        outcomes := outcomes + [Resolved(id, body)];
        assert State() == Settled(s1, id, Resolved(id, body));
      case Reject(failure) =>
        inFlight := inFlight - {id};
        outcomes := outcomes + [Rejected(id, failure)];
        assert State() == Settled(s1, id, Rejected(id, failure));
      case Retry(escalate, explicit) =>
        if escalate {
          inFlight := inFlight[id := d.(item := d.item.(call := d.item.call.(priority := High)))];
        }
        assert State() == if escalate then Escalated(s1, id) else s1;
        var _ := RetryRequest(id, explicit, env);
    }
  }

  /** A drain's result `r` that left the flag set recorded, after `escaped`,
      exactly the escape of the last call it served. */
  predicate EndsOnEscape(escaped: seq<nat>, r: (RegionState, seq<nat>))
  {
    r.0.isProcessing ==> r.1 != [] && r.0.escaped == escaped + [r.1[|r.1| - 1]]
  }

  /** Serving one more item before a drain's end does not change which item
      escaped last: `outer` is the drain `inner` continues after serving `id`. */
  lemma EscapesCons(escaped: seq<nat>, id: nat, inner: (RegionState, seq<nat>), outer: (RegionState, seq<nat>))
    requires outer == (inner.0, [id] + inner.1)
    requires EndsOnEscape(escaped, inner)
    ensures EndsOnEscape(escaped, outer)
  {
  }

  /** Serving more items keeps the served ids a prefix of the whole. */
  lemma Regroup(served: seq<nat>, more: seq<nat>, rest: seq<nat>, whole: seq<nat>)
    requires served + (more + rest) == whole
    ensures (served + more) + rest == whole
  {
    assert (served + more) + rest == served + (more + rest);
  }

  lemma ReversedSnoc(s: seq<nat>, x: nat)
    ensures Reversed(s + [x]) == [x] + Reversed(s)
    decreases |s|
  {
    if s != [] {
      assert (s + [x])[1..] == s[1..] + [x];
      ReversedSnoc(s[1..], x);
    }
  }

  /** `_retryRequest` puts the item at the head of its queue, so a drain serves it
      after every item already waiting in that queue. */
  lemma RequeuedServedLast(s: RegionState, id: nat, retried: Item)
    ensures var r := Requeued(s, id, retried);
      retried.call.priority == High ==>
        ServiceOrder(r.priorityQueue, r.requestQueue) ==
          Reversed(Ids(s.priorityQueue)) + [retried.id] + Reversed(Ids(s.requestQueue))
    ensures var r := Requeued(s, id, retried);
      retried.call.priority != High ==>
        ServiceOrder(r.priorityQueue, r.requestQueue) == ServiceOrder(s.priorityQueue, s.requestQueue) + [retried.id]
  {
    var r := Requeued(s, id, retried);
    if retried.call.priority == High {
      assert Ids([retried] + s.priorityQueue) == [retried.id] + Ids(s.priorityQueue);
      ReversedCons(retried.id, Ids(s.priorityQueue));
    } else {
      assert Ids([retried] + s.requestQueue) == [retried.id] + Ids(s.requestQueue);
      ReversedCons(retried.id, Ids(s.requestQueue));
      assert Reversed(Ids(s.priorityQueue)) + (Reversed(Ids(s.requestQueue)) + [retried.id])
          == ServiceOrder(s.priorityQueue, s.requestQueue) + [retried.id];
    }
  }

  lemma ReversedCons(x: nat, s: seq<nat>)
    ensures Reversed([x] + s) == Reversed(s) + [x]
  {
    assert ([x] + s)[1..] == s;
  }

  /** Calls pushed one after another into the same queue are served last first:
      A, B, C arrive and a drain serves C, B, A. */
  lemma PushedServedLifo(s: RegionState, a: Call, b: Call, c: Call)
    requires s.priorityQueue == [] && s.requestQueue == []
    requires a.priority != High && b.priority != High && c.priority != High
    ensures var t := Pushed(Pushed(Pushed(s, a), b), c);
      ServiceOrder(t.priorityQueue, t.requestQueue) == [s.nextId + 2, s.nextId + 1, s.nextId]
  {
    var t := Pushed(Pushed(Pushed(s, a), b), c);
    var q := t.requestQueue;
    assert Ids(q) == [s.nextId, s.nextId + 1, s.nextId + 2];
    assert Ids([]) == [];
    ReversedSnoc([s.nextId, s.nextId + 1], s.nextId + 2);
    ReversedSnoc([s.nextId], s.nextId + 1);
    ReversedSnoc([], s.nextId);
    assert [s.nextId, s.nextId + 1] + [s.nextId + 2] == Ids(q);
    assert [s.nextId] + [s.nextId + 1] == [s.nextId, s.nextId + 1];
    assert [] + [s.nextId] == [s.nextId];
  }

  /** The item `pop` takes is the first of the service order, and the rest of
      the order is that of the queues it leaves. */
  lemma OrderAfterPop(s: RegionState, fromPriority: bool)
    requires Queue(s, fromPriority) != [] && (fromPriority <==> s.priorityQueue != [])
    ensures ServiceOrder(s.priorityQueue, s.requestQueue) ==
      [Next(s, fromPriority).id] + ServiceOrder(Popped(s, fromPriority).priorityQueue, Popped(s, fromPriority).requestQueue)
  {
    ServedNext(s.priorityQueue, s.requestQueue);
  }

  lemma PrefixCons(x: nat, a: seq<nat>, b: seq<nat>)
    requires a <= b
    ensures [x] + a <= [x] + b
  {
    assert ([x] + b)[..|[x] + a|] == [x] + b[..|a|];
  }

  /** A drain serves the tail of the priority queue first, else the tail of the
      normal queue. */
  lemma ServedNext(priorityQueue: seq<Item>, requestQueue: seq<Item>)
    ensures priorityQueue != [] ==>
      ServiceOrder(priorityQueue, requestQueue) ==
        [priorityQueue[|priorityQueue| - 1].id] + ServiceOrder(priorityQueue[..|priorityQueue| - 1], requestQueue)
    ensures priorityQueue == [] && requestQueue != [] ==>
      ServiceOrder(priorityQueue, requestQueue) ==
        [requestQueue[|requestQueue| - 1].id] + ServiceOrder(priorityQueue, requestQueue[..|requestQueue| - 1])
  {
    if priorityQueue != [] {
      var q := priorityQueue;
      assert q == q[..|q| - 1] + [q[|q| - 1]];
      assert Ids(q) == Ids(q[..|q| - 1]) + [q[|q| - 1].id];
      ReversedSnoc(Ids(q[..|q| - 1]), q[|q| - 1].id);
    } else if requestQueue != [] {
      var q := requestQueue;
      assert q == q[..|q| - 1] + [q[|q| - 1]];
      assert Ids(q) == Ids(q[..|q| - 1]) + [q[|q| - 1].id];
      ReversedSnoc(Ids(q[..|q| - 1]), q[|q| - 1].id);
    }
  }
}
