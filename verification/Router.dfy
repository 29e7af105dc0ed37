// The message router over its direct, pub/sub and group parts, serving one request after the other: what
// was routed is accepted or pending, over whole runs.
module MessageRouting {
  import opened Common
  import opened Sessions
  import opened Routing
  import opened PubSub
  import opened Groups

  datatype Request =
    | Connect(agent: Agent, transport: Option<nat>)
    | Disconnect(session: nat)
    | Sweep
    | Subscribe(agent: Agent, topic: string)
    | Unsubscribe(agent: Agent, topic: string)
    | Join(group: string, agent: Agent, role: string)
    | Leave(group: string, agent: Agent)
    | Direct(to: Agent, data: string)
    | Broadcast(from: Agent, topic: string, data: string)
    | GroupMessage(from: Agent, group: string, data: string)
    | Deliver(agent: Agent)

  /** All that the requests read and change. */
  datatype View = View(
    sessions: Table, cache: Cache, subscriptions: Subscriptions, members: seq<Member>, store: Store)

  /** A request that was served at a time, whether it went through, what was done for its recipients, and the
      state behind it. */
  datatype Event = Event(request: Request, now: int, ok: bool, attempts: seq<Attempt>, after: View)

  function Subscribers(v: View, topic: string): set<Agent> {
    if topic in v.cache then v.cache[topic] else {}
  }

  /** Every recipient is served once with the data, and nothing else happens. */
  ghost predicate Serving(v: View, e: Event, agents: set<Agent>, data: string) {
    && AllHonest(v.sessions, e.attempts) && Serves(e.attempts, agents, data)
    && e.after == v.(store := After(v.store, e.attempts, e.now))
  }

  /** A subscription is changed in the cache, and in the table if the statement succeeds. */
  ghost predicate Changes(v: View, e: Event, q: Change) {
    && e.attempts == []
    && e.after == v.(cache := ChangedCache(v.cache, q), subscriptions := ChangedTable(v.subscriptions, q))
  }

  /** What serving one request may do. */
  ghost predicate Does(v: View, e: Event) {
    match e.request
    case Connect(agent, transport) =>
      e.attempts == [] && exists id: nat ::
        id !in v.sessions && e.after == v.(sessions := v.sessions[id := Session(agent, Active, transport, e.now)])
    case Disconnect(id) => e.attempts == [] && e.after == v.(sessions := v.sessions - {id})
    case Sweep => e.attempts == [] && e.after == v.(sessions := v.sessions - Expired(v.sessions, e.now))
    case Subscribe(agent, topic) => Changes(v, e, Change(true, agent, topic, e.ok))
    case Unsubscribe(agent, topic) => Changes(v, e, Change(false, agent, topic, e.ok))
    case Join(group, agent, role) =>
      e.attempts == [] && e.after == v.(members := e.after.members) &&
      (e.after.members == v.members || e.after.members == v.members + [NewMember(group, agent, role)])
    case Leave(group, agent) =>
      e.attempts == [] && e.after == v.(members := e.after.members) &&
      (e.after == v || forall m :: m in e.after.members <==> m in v.members && !(m.group == group && m.agent == agent))
    case Direct(to, data) => Serving(v, e, {to}, data)
    case Broadcast(from, topic, data) => Serving(v, e, Subscribers(v, topic) - {from}, data)
    case GroupMessage(from, group, data) =>
      (e.attempts == [] && e.after == v) || Serving(v, e, MembersOf(v.members, group) - {from}, data)
    case Deliver(agent) =>
      e.after == v.(store := e.after.store) &&
      ((e.attempts == [] && e.after == v) ||
       exists order, n :: Drained(v.store, e.after.store, e.attempts, v.sessions, agent, order, n))
  }

  // ---------- runs ----------

  function Last(v: View, es: seq<Event>): View {
    if es == [] then v else es[|es| - 1].after
  }

  ghost predicate IsRun(v: View, es: seq<Event>) {
    forall i | 0 <= i < |es| :: Does(Last(v, es[..i]), es[i])
  }

  predicate Routes(q: Request) {
    q.Direct? || q.Broadcast? || q.GroupMessage? || q.Deliver?
  }

  /** At every request that sends, each agent has at most one session, and that has a transport. */
  ghost predicate OneSessionEach(v: View, es: seq<Event>) {
    forall i | 0 <= i < |es| && Routes(es[i].request) :: OneEach(Last(v, es[..i]).sessions)
  }

  /** What a request has routed: the copies that were sent or queued for its recipients. */
  function RoutedBy(e: Event): multiset<Copy> {
    if e.request.Deliver? then multiset{} else SentCopies(e.attempts) + StoredCopies(e.attempts)
  }

  function RoutedIn(es: seq<Event>): multiset<Copy> {
    if es == [] then multiset{} else RoutedIn(es[..|es| - 1]) + RoutedBy(es[|es| - 1])
  }

  lemma ServingConserves(v: View, e: Event, agents: set<Agent>, data: string)
    requires Serving(v, e, agents, data) && OneEach(v.sessions) && !e.request.Deliver?
    ensures Total(e.after.store) == Total(v.store) + RoutedBy(e)
  {
    RoutedIsLedger(v.store, e.attempts, v.sessions, e.now);
    Regroup(Total(v.store), SentCopies(e.attempts), StoredCopies(e.attempts));
  }

  lemma Regroup(a: multiset<Copy>, b: multiset<Copy>, c: multiset<Copy>)
    ensures a + b + c == a + (b + c)
  {
  }

  lemma DeliverConserves(v: View, e: Event)
    requires Does(v, e) && e.request.Deliver? && OneEach(v.sessions)
    ensures Total(e.after.store) == Total(v.store) + RoutedBy(e)
  {
    if e.after != v {
      var agent := e.request.agent;
      var order, n :| Drained(v.store, e.after.store, e.attempts, v.sessions, agent, order, n);
      DrainIsLedger(v.store, e.after.store, e.attempts, v.sessions, agent, order, n);
    }
  }

  lemma StepConserves(v: View, e: Event)
    requires Does(v, e) && (Routes(e.request) ==> OneEach(v.sessions))
    ensures Total(e.after.store) == Total(v.store) + RoutedBy(e)
  {
    match e.request
    case Direct(to, data) => ServingConserves(v, e, {to}, data);
    case Broadcast(from, topic, data) => ServingConserves(v, e, Subscribers(v, topic) - {from}, data);
    case GroupMessage(from, group, data) =>
      if e.attempts != [] { ServingConserves(v, e, MembersOf(v.members, group) - {from}, data); }
    case Deliver(_) => DeliverConserves(v, e);
    case _ =>
  }

  lemma PrefixOfRun(v: View, es: seq<Event>, n: nat)
    requires IsRun(v, es) && OneSessionEach(v, es) && n <= |es|
    ensures IsRun(v, es[..n]) && OneSessionEach(v, es[..n])
  {
    assert forall i | 0 <= i < n :: es[..n][..i] == es[..i];
  }

  /** Over every run in which no agent has two sessions or one without a transport when something is sent,
      accepted and pending copies together are those of the beginning and what was routed since. */
  lemma {:induction false} Conservation(v: View, es: seq<Event>)
    requires IsRun(v, es) && OneSessionEach(v, es)
    ensures Total(Last(v, es).store) == Total(v.store) + RoutedIn(es)
    decreases |es|
  {
    if es != [] {
      var n := |es| - 1;
      PrefixOfRun(v, es, n);
      Conservation(v, es[..n]);
      StepConserves(Last(v, es[..n]), es[n]);
    }
  }

  // ---------- runs with several sessions ----------

  /** At every request that sends, everybody who is online has a session with a transport. */
  ghost predicate NobodyBareEver(v: View, es: seq<Event>) {
    forall i | 0 <= i < |es| && Routes(es[i].request) :: NobodyBare(Last(v, es[..i]).sessions)
  }

  lemma ServingKeeps(v: View, e: Event, agents: set<Agent>, data: string)
    requires Serving(v, e, agents, data) && NobodyBare(v.sessions) && !e.request.Deliver?
    ensures Total(v.store) + RoutedBy(e) <= Total(e.after.store)
  {
    RoutedIsInLedger(v.store, e.attempts, v.sessions, e.now);
    Regroup(Total(v.store), SentCopies(e.attempts), StoredCopies(e.attempts));
  }

  lemma DeliverKeeps(v: View, e: Event)
    requires Does(v, e) && e.request.Deliver? && NobodyBare(v.sessions)
    ensures Total(v.store) + RoutedBy(e) <= Total(e.after.store)
  {
    if e.after != v {
      var agent := e.request.agent;
      var order, n :| Drained(v.store, e.after.store, e.attempts, v.sessions, agent, order, n);
      DrainKeepsLedger(v.store, e.after.store, e.attempts, v.sessions, agent, order, n);
    }
  }

  lemma StepKeeps(v: View, e: Event)
    requires Does(v, e) && (Routes(e.request) ==> NobodyBare(v.sessions))
    ensures Total(v.store) + RoutedBy(e) <= Total(e.after.store)
  {
    match e.request
    case Direct(to, data) => ServingKeeps(v, e, {to}, data);
    case Broadcast(from, topic, data) => ServingKeeps(v, e, Subscribers(v, topic) - {from}, data);
    case GroupMessage(from, group, data) =>
      if e.attempts != [] { ServingKeeps(v, e, MembersOf(v.members, group) - {from}, data); }
    case Deliver(_) => DeliverKeeps(v, e);
    case _ =>
  }

  lemma PrefixKeeps(v: View, es: seq<Event>, n: nat)
    requires IsRun(v, es) && NobodyBareEver(v, es) && n <= |es|
    ensures IsRun(v, es[..n]) && NobodyBareEver(v, es[..n])
  {
    assert forall i | 0 <= i < n :: es[..n][..i] == es[..i];
  }

  /** However many sessions the agents have: if everybody who is online when something is sent has a session
      with a transport, nothing that was ever accepted, pending or routed goes missing. */
  lemma {:induction false} NothingVanishes(v: View, es: seq<Event>)
    requires IsRun(v, es) && NobodyBareEver(v, es)
    ensures Total(v.store) + RoutedIn(es) <= Total(Last(v, es).store)
    decreases |es|
  {
    if es != [] {
      var n := |es| - 1;
      PrefixKeeps(v, es, n);
      NothingVanishes(v, es[..n]);
      StepKeeps(Last(v, es[..n]), es[n]);
      MoreAndMore(Total(v.store), RoutedIn(es[..n]), Total(Last(v, es[..n]).store), RoutedBy(es[n]));
    }
  }

  lemma MoreAndMore(a: multiset<Copy>, b: multiset<Copy>, c: multiset<Copy>, d: multiset<Copy>)
    requires a + b <= c
    ensures a + (b + d) <= c + d
  {
  }

  // ---------- the subscription cache over runs ----------

  /** The change of subscriptions an event is, if it is one. */
  function ChangeOf(e: Event): seq<Change> {
    match e.request
    case Subscribe(agent, topic) => [Change(true, agent, topic, e.ok)]
    case Unsubscribe(agent, topic) => [Change(false, agent, topic, e.ok)]
    case _ => []
  }

  function ChangesIn(es: seq<Event>): seq<Change> {
    if es == [] then [] else ChangesIn(es[..|es| - 1]) + ChangeOf(es[|es| - 1])
  }

  lemma OneMoreChange(changes: seq<Change>, q: Change, cache: Cache, table: Subscriptions)
    ensures CacheAfter(cache, changes + [q]) == ChangedCache(CacheAfter(cache, changes), q)
    ensures TableAfter(table, changes + [q]) == ChangedTable(TableAfter(table, changes), q)
  {
    assert (changes + [q])[..|changes|] == changes;
  }

  /** Nothing but these changes cache and table. */
  lemma StepChanges(v: View, e: Event, changes: seq<Change>, cache: Cache, table: Subscriptions)
    requires Does(v, e) && v.cache == CacheAfter(cache, changes) && v.subscriptions == TableAfter(table, changes)
    ensures e.after.cache == CacheAfter(cache, changes + ChangeOf(e))
    ensures e.after.subscriptions == TableAfter(table, changes + ChangeOf(e))
  {
    match e.request
    case Subscribe(agent, topic) =>
      OneMoreChange(changes, Change(true, agent, topic, e.ok), cache, table);
    case Unsubscribe(agent, topic) =>
      OneMoreChange(changes, Change(false, agent, topic, e.ok), cache, table);
    case _ =>
      assert changes + [] == changes;
  }

  lemma {:induction false} RunChanges(v: View, es: seq<Event>)
    requires IsRun(v, es)
    ensures Last(v, es).cache == CacheAfter(v.cache, ChangesIn(es))
    ensures Last(v, es).subscriptions == TableAfter(v.subscriptions, ChangesIn(es))
    decreases |es|
  {
    if es != [] {
      var n := |es| - 1;
      PrefixIsRun(v, es, n);
      RunChanges(v, es[..n]);
      StepChanges(Last(v, es[..n]), es[n], ChangesIn(es[..n]), v.cache, v.subscriptions);
    }
  }

  lemma PrefixIsRun(v: View, es: seq<Event>, n: nat)
    requires IsRun(v, es) && n <= |es|
    ensures IsRun(v, es[..n])
  {
    assert forall i | 0 <= i < n :: es[..n][..i] == es[..i];
  }

  lemma {:induction false} ChangesSucceed(es: seq<Event>)
    requires forall i | 0 <= i < |es| && (es[i].request.Subscribe? || es[i].request.Unsubscribe?) :: es[i].ok
    ensures forall i | 0 <= i < |ChangesIn(es)| :: ChangesIn(es)[i].ok
    decreases |es|
  {
    if es != [] {
      ChangesSucceed(es[..|es| - 1]);
    }
  }

  /** Over every run of requests from a cache that is the table's index on: it still is when every statement has
      succeeded, and else the two agree on a pair exactly when its last request and its last successful one
      say so. */
  lemma {:induction false} CacheAgreesExactlyWhen(v: View, es: seq<Event>, agent: Agent, topic: string)
    requires IsRun(v, es) && v.cache == Index(v.subscriptions)
    ensures (forall i | 0 <= i < |es| && (es[i].request.Subscribe? || es[i].request.Unsubscribe?) :: es[i].ok) ==>
      Last(v, es).cache == Index(Last(v, es).subscriptions)
    ensures var last := LastWish(ChangesIn(es), agent, topic, false);
      var done := LastWish(ChangesIn(es), agent, topic, true);
      (Has(Last(v, es).cache, agent, topic) <==> (agent, topic) in Last(v, es).subscriptions) <==>
      last.None? || last.value == if done.Some? then done.value else (agent, topic) in v.subscriptions
  {
    RunChanges(v, es);
    AgreeExactlyWhen(v.subscriptions, ChangesIn(es), agent, topic);
    if forall i | 0 <= i < |es| && (es[i].request.Subscribe? || es[i].request.Unsubscribe?) :: es[i].ok {
      ChangesSucceed(es);
      AgreementIsKept(v.subscriptions, ChangesIn(es));
    }
  }

  // ---------- first queued, first handed on ----------

  predicate QueuedBy(v: View, e: Event, r: PendingRow) {
    r in e.after.store.pending && r !in v.store.pending
  }

  lemma NewRowIsStored(v: Store, v': Store, attempts: seq<Attempt>, now: int, r: PendingRow)
    requires Queues(v, v', attempts, now) && r in v'.pending && r !in v.pending
    ensures r.createdAt == now
    ensures exists a :: a in attempts && a.stored && a.agent == r.target && a.data == r.message
  {
    assert v'.pending == v.pending + v'.pending[|v.pending|..];
    var i :| |v.pending| <= i < |v'.pending| && v'.pending[i] == r;
    var k, waiting := i - |v.pending|, StoredOf(attempts);
    assert v'.pending[|v.pending| + k] == r && waiting[k] in waiting;
  }

  lemma StoredHasRow(v: Store, v': Store, attempts: seq<Attempt>, now: int, a: Attempt)
    requires Queues(v, v', attempts, now) && a in attempts && a.stored && forall r | r in v.pending :: r.id < v.nextRow
    ensures exists r :: r in v'.pending && r !in v.pending && r.target == a.agent && r.message == a.data
  {
    var waiting := StoredOf(attempts);
    var k :| 0 <= k < |waiting| && waiting[k] == a;
    assert v'.pending[|v.pending| + k] in v'.pending;
  }

  /** A request queues the messages of its stored attempts, at its time, and nothing else. */
  lemma QueuedIsStored(v: View, e: Event)
    requires Does(v, e)
    ensures forall r | QueuedBy(v, e, r) ::
      r.createdAt == e.now && exists a :: a in e.attempts && a.stored && a.agent == r.target && a.data == r.message
    ensures (forall r | r in v.store.pending :: r.id < v.store.nextRow) ==>
      forall a | a in e.attempts && a.stored ::
        exists r :: QueuedBy(v, e, r) && r.target == a.agent && r.message == a.data
  {
    if e.request.Deliver? {
      DeliverQueuesNothing(v, e);
    } else {
      AfterQueues(v.store, e.attempts, e.now);
      forall r | QueuedBy(v, e, r)
        ensures r.createdAt == e.now
        ensures exists a :: a in e.attempts && a.stored && a.agent == r.target && a.data == r.message
      {
        NewRowIsStored(v.store, e.after.store, e.attempts, e.now, r);
      }
      if forall r | r in v.store.pending :: r.id < v.store.nextRow {
        forall a | a in e.attempts && a.stored
          ensures exists r :: QueuedBy(v, e, r) && r.target == a.agent && r.message == a.data
        {
          StoredHasRow(v.store, e.after.store, e.attempts, e.now, a);
        }
      }
    }
  }

  lemma DeliverQueuesNothing(v: View, e: Event)
    requires Does(v, e) && e.request.Deliver?
    ensures forall r :: !QueuedBy(v, e, r)
    ensures forall a | a in e.attempts :: !a.stored
  {
  }

  ghost predicate InFront(order: seq<PendingRow>, r: PendingRow, r': PendingRow) {
    exists i, j :: 0 <= i < j < |order| && order[i] == r && order[j] == r'
  }

  /** Rows of one time may come in either order. */
  lemma SwappedIsQueue(order: seq<PendingRow>, agent: Agent, pending: seq<PendingRow>, i: nat, j: nat)
    requires IsQueueOf(order, agent, pending) && i < j < |order| && order[i].createdAt == order[j].createdAt
    ensures IsQueueOf(order[i := order[j]][j := order[i]], agent, pending)
  {
    var o := order[i := order[j]][j := order[i]];
    assert forall k | 0 <= k < |order| :: o[k] == order[if k == i then j else if k == j then i else k];
    assert forall k | 0 <= k < |order| :: order[k] == o[if k == i then j else if k == j then i else k];
  }

  /** Of two messages for one agent that wait, queued by two requests of a run, every query of its queue lists
      the one queued first in front exactly when the clock has moved between the two requests. */
  lemma FirstQueuedFirstExactlyWhen(
      v: View, es: seq<Event>, i: nat, j: nat, r: PendingRow, r': PendingRow, agent: Agent, order: seq<PendingRow>)
    requires IsRun(v, es) && i < j < |es|
    requires QueuedBy(Last(v, es[..i]), es[i], r) && QueuedBy(Last(v, es[..j]), es[j], r')
    requires IsQueueOf(order, agent, Last(v, es).store.pending) && r in order && r' in order
    ensures (forall o | IsQueueOf(o, agent, Last(v, es).store.pending) :: InFront(o, r, r')) <==>
      es[i].now < es[j].now
  {
    QueuedIsStored(Last(v, es[..i]), es[i]);
    QueuedIsStored(Last(v, es[..j]), es[j]);
    var pending := Last(v, es).store.pending;
    if es[i].now < es[j].now {
      forall o | IsQueueOf(o, agent, pending) ensures InFront(o, r, r') {
        EarlierIsInFront(o, r, r');
      }
    } else if InFront(order, r, r') {
      var _ := OtherOrder(order, agent, pending, r, r');
    }
  }

  lemma EarlierIsInFront(o: seq<PendingRow>, r: PendingRow, r': PendingRow)
    requires SortedByTime(o) && r in o && r' in o && r.createdAt < r'.createdAt
    ensures InFront(o, r, r')
  {
    var a :| 0 <= a < |o| && o[a] == r;
    var b :| 0 <= b < |o| && o[b] == r';
  }

  lemma OtherOrder(order: seq<PendingRow>, agent: Agent, pending: seq<PendingRow>, r: PendingRow, r': PendingRow)
    returns (o: seq<PendingRow>)
    requires IsQueueOf(order, agent, pending) && InFront(order, r, r') && r'.createdAt <= r.createdAt
    ensures IsQueueOf(o, agent, pending) && !InFront(o, r, r')
  {
    var a, b :| 0 <= a < b < |order| && order[a] == r && order[b] == r';
    o := order[a := order[b]][b := order[a]];
    SwappedIsQueue(order, agent, pending, a, b);
    BehindIsNotInFront(o, b, a);
  }

  lemma BehindIsNotInFront(o: seq<PendingRow>, i: nat, j: nat)
    requires UniqueIds(o) && j < i < |o|
    ensures !InFront(o, o[i], o[j])
  {
  }

  lemma RunThen(v: View, es: seq<Event>, e: Event)
    requires IsRun(v, es) && Does(Last(v, es), e)
    ensures IsRun(v, es + [e]) && Last(v, es + [e]) == e.after
  {
    forall i | 0 <= i < |es + [e]| ensures Does(Last(v, (es + [e])[..i]), (es + [e])[i]) {
      assert (es + [e])[..i] == es[..i];
      assert es[..|es|] == es;
    }
  }

  // ---------- the router ----------

  class Router {
    const db: Database
    const session: SessionManager
    const direct: DirectRouter
    const pubsub: PubSubRouter
    const group: GroupRouter

    ghost predicate Valid()
      reads this, db, session
    {
      && db.Valid() && session.Valid()
      && direct.db == db && direct.session == session
      && pubsub.db == db && pubsub.session == session
      && group.db == db && group.session == session
    }

    ghost function Value(): View
      reads this, db, session, pubsub
    {
      View(session.sessions, pubsub.subscribers, db.subscriptions, db.members, StoreOf(session, db))
    }

    constructor (db: Database, session: SessionManager, fault: bool, unread: Subscriptions)
      requires db.Valid() && session.Valid()
      ensures Valid() && this.db == db && this.session == session && fresh(pubsub)
    {
      this.db, this.session := db, session;
      this.direct := new DirectRouter(db, session);
      this.pubsub := new PubSubRouter(db, session, fault, unread);
      this.group := new GroupRouter(db, session);
    }

    method RouteDirectMessage(to: Agent, data: string, now: int) returns (ok: bool, ghost e: Event)
      requires Valid()
      modifies session, db
      ensures Valid() && e.request == Request.Direct(to, data) && e.now == now && e.after == Value()
      ensures Does(old(Value()), e)
    {
      ghost var a;
      ok, a := direct.Send(to, data, now);
      e := Event(Request.Direct(to, data), now, ok, [a], Value());
      AfterOneMore(old(Value()).store, [], a, now);
      assert [] + [a] == [a];
      assert AgentsOf([a]) == [to];
    }

    method RouteBroadcast(from: Agent, topic: string, data: string, now: int) returns (ghost e: Event)
      requires Valid()
      modifies session, db
      ensures Valid() && e.request == Broadcast(from, topic, data) && e.now == now && e.after == Value()
      ensures Does(old(Value()), e)
    {
      var delivered, queued;
      ghost var attempts;
      delivered, queued, attempts := pubsub.Publish(from, topic, data, now);
      e := Event(Broadcast(from, topic, data), now, true, attempts, Value());
    }

    method RouteGroupMessage(from: Agent, groupID: string, data: string, now: int) returns (ok: bool, ghost e: Event)
      requires Valid()
      modifies session, db
      ensures Valid() && e.request == GroupMessage(from, groupID, data) && e.now == now && e.after == Value()
      ensures Does(old(Value()), e)
    {
      var delivered, queued;
      ghost var attempts;
      ok, delivered, queued, attempts := group.Relay(from, groupID, data, now);
      e := Event(GroupMessage(from, groupID, data), now, ok, attempts, Value());
    }

    method DeliverPending(agent: Agent, now: int) returns (ok: bool, delivered: nat, ghost e: Event)
      requires Valid()
      modifies session, db
      ensures Valid() && e.request == Deliver(agent) && e.now == now && e.after == Value()
      ensures Does(old(Value()), e)
    {
      ghost var order, attempts;
      ok, delivered, order, attempts := direct.DeliverPending(agent);
      e := Event(Deliver(agent), now, ok, if ok then attempts else [], Value());
    }

    /** The requests that open and close sessions. */
    method ManageSessions(q: Request, now: int) returns (ghost e: Event)
      requires Valid() && (q.Connect? || q.Disconnect? || q.Sweep?)
      modifies session
      ensures Valid() && e.request == q && e.now == now && e.after == Value()
      ensures Does(old(Value()), e)
    {
      var ok := true;
      match q {
        case Connect(agent, transport) => var _ := session.CreateSession(agent, transport, now);
        case Disconnect(id) =>
          ghost var left;
          ok, left := session.CloseSession(id);
        case Sweep => session.Cleanup(now);
      }
      e := Event(q, now, ok, [], Value());
    }

    /** The requests that change subscriptions and memberships. */
    method ManageTables(q: Request, now: int) returns (ghost e: Event)
      requires Valid() && (q.Subscribe? || q.Unsubscribe? || q.Join? || q.Leave?)
      modifies db, pubsub
      ensures Valid() && e.request == q && e.now == now && e.after == Value()
      ensures Does(old(Value()), e)
    {
      var ok;
      match q {
        case Subscribe(agent, topic) => ok := pubsub.Subscribe(agent, topic);
        case Unsubscribe(agent, topic) => ok := pubsub.Unsubscribe(agent, topic);
        case Join(g, agent, role) => ok := group.Join(g, agent, role);
        case Leave(g, agent) => ok := group.Leave(g, agent);
      }
      e := Event(q, now, ok, [], Value());
    }

    method Serve(q: Request, now: int) returns (ghost e: Event)
      requires Valid()
      modifies session, db, pubsub
      ensures Valid() && e.request == q && e.now == now && e.after == Value()
      ensures Does(old(Value()), e)
    {
      match q {
        case Direct(to, data) => var _, e' := RouteDirectMessage(to, data, now); e := e';
        case Broadcast(from, topic, data) => e := RouteBroadcast(from, topic, data, now);
        case GroupMessage(from, g, data) => var _, e' := RouteGroupMessage(from, g, data, now); e := e';
        case Deliver(agent) => var _, _, e' := DeliverPending(agent, now); e := e';
        case Connect(_, _) => e := ManageSessions(q, now);
        case Disconnect(_) => e := ManageSessions(q, now);
        case Sweep => e := ManageSessions(q, now);
        case _ => e := ManageTables(q, now);
      }
    }

    /** Any list of requests is a run, and with one session per agent it conserves every copy. */
    method ServeAll(requests: seq<(Request, int)>) returns (ghost es: seq<Event>)
      requires Valid()
      modifies session, db, pubsub
      ensures Valid() && |es| == |requests|
      ensures forall i | 0 <= i < |es| :: (es[i].request, es[i].now) == requests[i]
      ensures IsRun(old(Value()), es) && Last(old(Value()), es) == Value()
      ensures OneSessionEach(old(Value()), es) ==>
        Total(Value().store) == old(Total(Value().store)) + RoutedIn(es)
    {
      es := [];
      for i := 0 to |requests|
        invariant Valid() && |es| == i
        invariant forall j | 0 <= j < i :: (es[j].request, es[j].now) == requests[j]
        invariant IsRun(old(Value()), es) && Last(old(Value()), es) == Value()
      {
        ghost var e := Serve(requests[i].0, requests[i].1);
        RunThen(old(Value()), es, e);
        es := es + [e];
      }
      if OneSessionEach(old(Value()), es) {
        Conservation(old(Value()), es);
      }
    }
  }
}
