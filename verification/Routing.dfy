// The direct, pub/sub and group routers over the session manager and the pending queue, one call
// after the other. DeliveryProtocol treats the same calls interleaved.
module Routing {
  import opened Common
  import opened Sessions

  /** What a routing call owes: a recipient and the payload text. */
  type Copy = (Agent, string)

  datatype PendingRow = PendingRow(id: nat, target: Agent, message: string, createdAt: int)

  datatype Member = Member(group: string, agent: Agent, role: string)

  // ---------- the ledger ----------

  /** What transports have taken. */
  function Copies(ds: seq<Delivery>): multiset<Copy> {
    multiset(seq(|ds|, i requires 0 <= i < |ds| => (ds[i].agent, ds[i].data)))
  }

  /** What waits in the queue. */
  function Waiting(rows: seq<PendingRow>): multiset<Copy> {
    multiset(seq(|rows|, i requires 0 <= i < |rows| => (rows[i].target, rows[i].message)))
  }

  function Remaining(rows: seq<PendingRow>, gone: set<nat>): seq<PendingRow> {
    if rows == [] then []
    else
      var last := rows[|rows| - 1];
      Remaining(rows[..|rows| - 1], gone) + if last.id in gone then [] else [last]
  }

  predicate UniqueIds(rows: seq<PendingRow>) {
    forall i, j | 0 <= i < j < |rows| :: rows[i].id != rows[j].id
  }

  lemma {:induction false} RemainingMembers(rows: seq<PendingRow>, gone: set<nat>)
    ensures forall r :: r in Remaining(rows, gone) <==> r in rows && r.id !in gone
    ensures UniqueIds(rows) ==> UniqueIds(Remaining(rows, gone))
  {
    if rows != [] {
      RemainingMembers(rows[..|rows| - 1], gone);
      assert rows == rows[..|rows| - 1] + [rows[|rows| - 1]];
      if UniqueIds(rows) {
        var front := Remaining(rows[..|rows| - 1], gone);
        forall i | 0 <= i < |front| ensures front[i].id != rows[|rows| - 1].id {
          assert front[i] in front;
          var j :| 0 <= j < |rows| - 1 && rows[j] == front[i];
        }
      }
    }
  }

  lemma {:induction false} NothingGone(rows: seq<PendingRow>, gone: set<nat>)
    requires forall r | r in rows :: r.id !in gone
    ensures Remaining(rows, gone) == rows
  {
    if rows != [] {
      assert rows == rows[..|rows| - 1] + [rows[|rows| - 1]];
      NothingGone(rows[..|rows| - 1], gone);
    }
  }

  lemma LastIsGone(rows: seq<PendingRow>)
    requires UniqueIds(rows) && rows != []
    ensures Remaining(rows, {rows[|rows| - 1].id}) == rows[..|rows| - 1]
  {
    var front, last := rows[..|rows| - 1], rows[|rows| - 1];
    forall r | r in front ensures r.id !in {last.id} {
      var i :| 0 <= i < |front| && front[i] == r;
    }
    NothingGone(front, {last.id});
  }

  /** Deleting one row takes exactly its copy out of the queue. */
  lemma {:induction false} DeleteOne(rows: seq<PendingRow>, row: PendingRow)
    requires UniqueIds(rows) && row in rows
    ensures Waiting(rows) == Waiting(Remaining(rows, {row.id})) + multiset{(row.target, row.message)}
  {
    var front, last := rows[..|rows| - 1], rows[|rows| - 1];
    assert rows == front + [last];
    WaitingOfOneMore(front, last);
    if last == row {
      LastIsGone(rows);
    } else {
      DeleteOne(front, row);
      var i :| 0 <= i < |rows| && rows[i] == row;
      assert last.id != row.id;
      WaitingOfOneMore(Remaining(front, {row.id}), last);
    }
  }

  lemma CopiesOfOneMore(ds: seq<Delivery>, d: Delivery)
    ensures Copies(ds + [d]) == Copies(ds) + multiset{(d.agent, d.data)}
  {
    var cs := seq(|ds|, i requires 0 <= i < |ds| => (ds[i].agent, ds[i].data));
    assert seq(|ds + [d]|, i requires 0 <= i < |ds + [d]| => ((ds + [d])[i].agent, (ds + [d])[i].data))
        == cs + [(d.agent, d.data)];
  }

  lemma WaitingOfOneMore(rows: seq<PendingRow>, r: PendingRow)
    ensures Waiting(rows + [r]) == Waiting(rows) + multiset{(r.target, r.message)}
  {
    var cs := seq(|rows|, i requires 0 <= i < |rows| => (rows[i].target, rows[i].message));
    assert seq(|rows + [r]|, i requires 0 <= i < |rows + [r]| => ((rows + [r])[i].target, (rows + [r])[i].message))
        == cs + [(r.target, r.message)];
  }

  // ---------- the database ----------

  /** Rows in the order of created_at; r goes behind those that are not later. */
  function InsertByTime(rows: seq<PendingRow>, r: PendingRow): seq<PendingRow> {
    if rows != [] && r.createdAt < rows[|rows| - 1].createdAt
    then InsertByTime(rows[..|rows| - 1], r) + [rows[|rows| - 1]]
    else rows + [r]
  }

  lemma {:induction false} InsertHas(rows: seq<PendingRow>, r: PendingRow)
    ensures forall x :: x in InsertByTime(rows, r) <==> x in rows || x == r
  {
    if rows != [] && r.createdAt < rows[|rows| - 1].createdAt {
      InsertHas(rows[..|rows| - 1], r);
      assert rows == rows[..|rows| - 1] + [rows[|rows| - 1]];
    }
  }

  lemma {:induction false} InsertKeepsOrder(rows: seq<PendingRow>, r: PendingRow)
    requires SortedByTime(rows) && UniqueIds(rows) && forall x | x in rows :: x.id != r.id
    ensures SortedByTime(InsertByTime(rows, r)) && UniqueIds(InsertByTime(rows, r))
  {
    if rows != [] && r.createdAt < rows[|rows| - 1].createdAt {
      var front, last := rows[..|rows| - 1], rows[|rows| - 1];
      InsertKeepsOrder(front, r);
      var res := InsertByTime(front, r);
      forall i | 0 <= i < |res| ensures res[i].createdAt <= last.createdAt && res[i].id != last.id {
        InsertHas(front, r);
        assert res[i] in res;
      }
    }
  }

  predicate SortedByTime(rows: seq<PendingRow>) {
    forall i, j | 0 <= i < j < |rows| :: rows[i].createdAt <= rows[j].createdAt
  }

  /** A query's result: the agent's rows, in the order of created_at. */
  ghost predicate IsQueueOf(rows: seq<PendingRow>, agent: Agent, pending: seq<PendingRow>) {
    && UniqueIds(rows) && SortedByTime(rows) && forall r :: r in rows <==> r in pending && r.target == agent
  }

  class Database {
    var pending: seq<PendingRow>
    var nextRow: nat
    var agents: set<Agent>
    var groups: set<string>
    var subscriptions: set<(Agent, string)>
    var members: seq<Member>

    ghost predicate Valid()
      reads this
    {
      && UniqueIds(pending) && (forall r | r in pending :: r.id < nextRow)
      && (forall i, j | 0 <= i < j < |members| ::
            members[i].group != members[j].group || members[i].agent != members[j].agent)
    }

    constructor ()
      ensures Valid() && pending == [] && subscriptions == {} && members == []
    {
      pending, nextRow, agents, groups, subscriptions, members := [], 0, {}, {}, {}, [];
    }

    /** The environment decides whether an INSERT succeeds. */
    method InsertPending(target: Agent, message: string, now: int) returns (ok: bool)
      requires Valid()
      modifies this`pending, this`nextRow
      ensures Valid()
      ensures pending == if ok then old(pending) + [PendingRow(old(nextRow), target, message, now)] else old(pending)
      ensures nextRow == old(nextRow) + if ok then 1 else 0
    {
      ok := *;
      if ok {
        pending := pending + [PendingRow(nextRow, target, message, now)];
        nextRow := nextRow + 1;
      }
    }

    method DeletePending(id: nat)
      requires Valid()
      modifies this`pending
      ensures Valid() && pending == Remaining(old(pending), {id})
    {
      RemainingMembers(pending, {id});
      pending := Remaining(pending, {id});
    }

    /** The agent's rows ordered by created_at. Callers may not rely on an order among equal times. */
    method QueryPending(agent: Agent) returns (ok: bool, rows: seq<PendingRow>)
      requires Valid()
      ensures ok ==> IsQueueOf(rows, agent, pending)
    {
      rows := [];
      ok := *;
      if !ok {
        return;
      }
      for i := 0 to |pending|
        invariant IsQueueOf(rows, agent, pending[..i])
      {
        assert pending[..i + 1] == pending[..i] + [pending[i]];
        if pending[i].target == agent {
          forall x | x in rows ensures x.id != pending[i].id {
            var j :| 0 <= j < i && pending[j] == x;
          }
          InsertHas(rows, pending[i]);
          InsertKeepsOrder(rows, pending[i]);
          rows := InsertByTime(rows, pending[i]);
        }
      }
      assert pending[..|pending|] == pending;
    }

    /** INSERT OR IGNORE: the foreign key on the agent holds, or the statement fails. */
    method InsertSubscription(agent: Agent, topic: string) returns (ok: bool)
      modifies this`subscriptions
      ensures ok ==> agent in agents
      ensures subscriptions == if ok then old(subscriptions) + {(agent, topic)} else old(subscriptions)
    {
      ok := *;
      if agent !in agents {
        ok := false;
      }
      if ok {
        subscriptions := subscriptions + {(agent, topic)};
      }
    }

    method DeleteSubscription(agent: Agent, topic: string) returns (ok: bool)
      modifies this`subscriptions
      ensures subscriptions == if ok then old(subscriptions) - {(agent, topic)} else old(subscriptions)
    {
      ok := *;
      if ok {
        subscriptions := subscriptions - {(agent, topic)};
      }
    }
  }

  /** Every agent has at most one session, and that session has a transport. */
  ghost predicate OneEach(sessions: Table) {
    forall x | x in sessions :: sessions[x].transport.Some? &&
      forall y | y in sessions && sessions[y].agent == sessions[x].agent :: y == x
  }

  /** The session a message to the agent goes to, when there is just one. */
  ghost function SessionOf(sessions: Table, agent: Agent): nat {
    if exists x :: x in Online(sessions, agent) then var x :| x in Online(sessions, agent); x else 0
  }

  /** With one session, a send reaches it or nobody. */
  lemma OneSession(sessions: Table, agent: Agent, to: seq<nat>, ok: bool)
    requires OneEach(sessions) && NoDup(to) && forall x | x in to :: x in Reachable(sessions, agent)
    requires ok <==> Online(sessions, agent) != {} && forall x | x in Reachable(sessions, agent) :: x in to
    ensures to == if ok then [SessionOf(sessions, agent)] else []
  {
    if Online(sessions, agent) != {} {
      var x := SessionOf(sessions, agent);
      assert x in Reachable(sessions, agent);
      assert forall y | y in to :: y == x;
      if |to| > 1 {
        TwoDiffer(to);
      }
      if |to| == 1 {
        assert to[0] in to;
        assert to == [x];
      }
    } else if |to| > 0 {
      OneIsIn(to);
    }
  }

  lemma OneIsIn(to: seq<nat>)
    requires |to| > 0
    ensures exists a :: a in to
  {
    assert to[0] in to;
  }

  lemma TwoDiffer(to: seq<nat>)
    requires |to| > 1 && NoDup(to)
    ensures exists a, b :: a in to && b in to && a != b
  {
    assert to[0] in to && to[1] in to;
  }

  // ---------- what is done for one recipient ----------

  /** What a call or a drain did for one recipient: the sessions whose transports took the data, whether that
      counts as sent, and whether the data was queued. */
  datatype Attempt = Attempt(agent: Agent, data: string, to: seq<nat>, sent: bool, stored: bool)

  /** Only sessions of the agent that have a transport take the data, each once, and it counts as sent
      exactly when the agent has a session and all of those took it. Nothing is sent and queued. */
  ghost predicate Honest(sessions: Table, a: Attempt) {
    && NoDup(a.to) && (forall x | x in a.to :: x in Reachable(sessions, a.agent))
    && (a.sent <==> Online(sessions, a.agent) != {} && forall x | x in Reachable(sessions, a.agent) :: x in a.to)
    && (a.stored ==> !a.sent)
  }

  ghost predicate AllHonest(sessions: Table, attempts: seq<Attempt>) {
    forall i | 0 <= i < |attempts| :: Honest(sessions, attempts[i])
  }

  /** What routing changes: what transports have taken, and the queue. */
  datatype Store = Store(accepted: seq<Delivery>, pending: seq<PendingRow>, nextRow: nat)

  function Do(v: Store, a: Attempt, now: int): Store {
    Store(v.accepted + Deliveries(a.to, a.agent, a.data),
          if a.stored then v.pending + [PendingRow(v.nextRow, a.agent, a.data, now)] else v.pending,
          v.nextRow + if a.stored then 1 else 0)
  }

  /** The store after the attempts, one after the other. */
  function After(v: Store, attempts: seq<Attempt>, now: int): Store {
    if attempts == [] then v
    else Do(After(v, attempts[..|attempts| - 1], now), attempts[|attempts| - 1], now)
  }

  ghost function StoreOf(mgr: SessionManager, db: Database): Store
    reads mgr, db
  {
    Store(mgr.accepted, db.pending, db.nextRow)
  }

  function Sents(attempts: seq<Attempt>): nat {
    if attempts == [] then 0
    else Sents(attempts[..|attempts| - 1]) + if attempts[|attempts| - 1].sent then 1 else 0
  }

  /** The attempts that count as sent. */
  function SentAt(attempts: seq<Attempt>): set<nat> {
    set i | 0 <= i < |attempts| && attempts[i].sent
  }

  lemma {:induction false} SentsAreCounted(attempts: seq<Attempt>)
    ensures Sents(attempts) == |SentAt(attempts)|
    decreases |attempts|
  {
    if attempts != [] {
      var n := |attempts| - 1;
      SentsAreCounted(attempts[..n]);
      assert SentAt(attempts) == SentAt(attempts[..n]) + if attempts[n].sent then {n} else {};
    }
  }

  /** The attempts that were queued, in their order. */
  function StoredOf(attempts: seq<Attempt>): (waiting: seq<Attempt>)
    ensures forall a :: a in waiting <==> a in attempts && a.stored
  {
    if attempts == [] then []
    else
      var last := attempts[|attempts| - 1];
      assert attempts == attempts[..|attempts| - 1] + [last];
      StoredOf(attempts[..|attempts| - 1]) + if last.stored then [last] else []
  }

  /** What was queued has a row behind those that were there, with the next ids and the time of the call. */
  ghost predicate Queues(v: Store, v': Store, attempts: seq<Attempt>, now: int) {
    var waiting, n := StoredOf(attempts), |v.pending|;
    && v.pending <= v'.pending && |v'.pending| == n + |waiting| && v'.nextRow == v.nextRow + |waiting|
    && forall k | 0 <= k < |waiting| ::
         v'.pending[n + k] == PendingRow(v.nextRow + k, waiting[k].agent, waiting[k].data, now)
  }

  /** What the attempts hand to sessions: the first one's data to each of its sessions, then the next one's. */
  function HandedBy(attempts: seq<Attempt>): seq<Delivery> {
    if attempts == [] then []
    else Deliveries(attempts[0].to, attempts[0].agent, attempts[0].data) + HandedBy(attempts[1..])
  }

  /** Every attempt in turn hands its data to its sessions, and nobody else is handed anything. */
  predicate HandsOver(v: Store, v': Store, attempts: seq<Attempt>) {
    v'.accepted == v.accepted + HandedBy(attempts)
  }

  /** The copies that were sent. */
  function SentCopies(attempts: seq<Attempt>): multiset<Copy> {
    if attempts == [] then multiset{}
    else SentCopies(attempts[..|attempts| - 1]) + OneCopy(attempts[|attempts| - 1], attempts[|attempts| - 1].sent)
  }

  /** The copies that were queued. */
  function StoredCopies(attempts: seq<Attempt>): multiset<Copy> {
    if attempts == [] then multiset{}
    else StoredCopies(attempts[..|attempts| - 1]) + OneCopy(attempts[|attempts| - 1], attempts[|attempts| - 1].stored)
  }

  function OneCopy(a: Attempt, counts: bool): multiset<Copy> {
    if counts then multiset{(a.agent, a.data)} else multiset{}
  }

  lemma AfterOneMore(v: Store, attempts: seq<Attempt>, a: Attempt, now: int)
    ensures After(v, attempts + [a], now) == Do(After(v, attempts, now), a, now)
    ensures Sents(attempts + [a]) == Sents(attempts) + if a.sent then 1 else 0
  {
    assert (attempts + [a])[..|attempts|] == attempts;
  }

  lemma {:induction false} AfterQueues(v: Store, attempts: seq<Attempt>, now: int)
    ensures Queues(v, After(v, attempts, now), attempts, now)
    decreases |attempts|
  {
    if attempts != [] {
      AfterQueues(v, attempts[..|attempts| - 1], now);
    }
  }

  lemma {:induction false} AfterHandsOver(v: Store, attempts: seq<Attempt>, now: int)
    ensures HandsOver(v, After(v, attempts, now), attempts)
    decreases |attempts|
  {
    if attempts != [] {
      var front, a := attempts[..|attempts| - 1], attempts[|attempts| - 1];
      AfterHandsOver(v, front, now);
      HandedOneMore(front, a);
      assert attempts == front + [a];
      Regroup(v.accepted, HandedBy(front), Deliveries(a.to, a.agent, a.data));
    }
  }

  lemma {:induction false} HandedOneMore(attempts: seq<Attempt>, a: Attempt)
    ensures HandedBy(attempts + [a]) == HandedBy(attempts) + Deliveries(a.to, a.agent, a.data)
    decreases |attempts|
  {
    var more := Deliveries(a.to, a.agent, a.data);
    if attempts == [] {
      assert [a][1..] == [] && more + [] == more;
    } else {
      var first, rest := attempts[0], attempts[1..];
      assert (attempts + [a])[1..] == rest + [a];
      HandedOneMore(rest, a);
      Regroup(Deliveries(first.to, first.agent, first.data), HandedBy(rest), more);
    }
  }

  lemma Regroup(a: seq<Delivery>, b: seq<Delivery>, c: seq<Delivery>)
    ensures a + b + c == a + (b + c)
  {
  }

  lemma CopiesOneMore(attempts: seq<Attempt>, a: Attempt)
    ensures SentCopies(attempts + [a]) == SentCopies(attempts) + OneCopy(a, a.sent)
    ensures StoredCopies(attempts + [a]) == StoredCopies(attempts) + OneCopy(a, a.stored)
  {
    assert (attempts + [a])[..|attempts|] == attempts;
  }

  lemma SentNext(attempts: seq<Attempt>, a: Attempt, sessions: Table)
    requires AllHonest(sessions, attempts) && Honest(sessions, a)
    ensures AllHonest(sessions, attempts + [a])
  {
  }

  // ---------- conservation ----------

  /** With one session, transports take a copy exactly when the attempt counts as sent. */
  lemma OneCopyTaken(sessions: Table, a: Attempt, ds: seq<Delivery>)
    requires OneEach(sessions) && Honest(sessions, a)
    ensures Copies(ds + Deliveries(a.to, a.agent, a.data)) == Copies(ds) + OneCopy(a, a.sent)
  {
    OneSession(sessions, a.agent, a.to, a.sent);
    var x := SessionOf(sessions, a.agent);
    if a.sent {
      assert Deliveries(a.to, a.agent, a.data) == [Delivery(x, a.agent, a.data)];
      CopiesOfOneMore(ds, Delivery(x, a.agent, a.data));
    } else {
      assert ds + [] == ds;
    }
  }

  /** With one session per agent, what transports take is what was sent. */
  lemma {:induction false} TakenIsSent(v: Store, attempts: seq<Attempt>, sessions: Table, now: int)
    requires OneEach(sessions) && AllHonest(sessions, attempts)
    ensures Copies(After(v, attempts, now).accepted) == Copies(v.accepted) + SentCopies(attempts)
    decreases |attempts|
  {
    if attempts != [] {
      var front, a := attempts[..|attempts| - 1], attempts[|attempts| - 1];
      TakenIsSent(v, front, sessions, now);
      OneCopyTaken(sessions, a, After(v, front, now).accepted);
    }
  }

  lemma {:induction false} WaitingIsStored(v: Store, attempts: seq<Attempt>, now: int)
    ensures Waiting(After(v, attempts, now).pending) == Waiting(v.pending) + StoredCopies(attempts)
    decreases |attempts|
  {
    if attempts != [] {
      var front, a := attempts[..|attempts| - 1], attempts[|attempts| - 1];
      var v1 := After(v, front, now);
      WaitingIsStored(v, front, now);
      WaitingOfOneMore(v1.pending, PendingRow(v1.nextRow, a.agent, a.data, now));
    }
  }

  /** What transports have taken and what waits, together. */
  function Total(v: Store): multiset<Copy> {
    Copies(v.accepted) + Waiting(v.pending)
  }

  /** With one session per agent, what is accepted or pending grows by exactly what was sent or queued. */
  lemma RoutedIsLedger(v: Store, attempts: seq<Attempt>, sessions: Table, now: int)
    requires OneEach(sessions) && AllHonest(sessions, attempts)
    ensures Total(After(v, attempts, now)) == Total(v) + SentCopies(attempts) + StoredCopies(attempts)
  {
    TakenIsSent(v, attempts, sessions, now);
    WaitingIsStored(v, attempts, now);
  }

  // ---------- several sessions ----------

  /** Everybody who is online has a session with a transport. */
  ghost predicate NobodyBare(sessions: Table) {
    forall a | Online(sessions, a) != {} :: Reachable(sessions, a) != {}
  }

  lemma CopiesOfBoth(ds: seq<Delivery>, more: seq<Delivery>)
    ensures Copies(ds + more) == Copies(ds) + Copies(more)
  {
    var cs := seq(|ds|, i requires 0 <= i < |ds| => (ds[i].agent, ds[i].data));
    var cs' := seq(|more|, i requires 0 <= i < |more| => (more[i].agent, more[i].data));
    var all := ds + more;
    assert seq(|all|, i requires 0 <= i < |all| => (all[i].agent, all[i].data)) == cs + cs';
  }

  lemma CopyAmong(ds: seq<Delivery>, i: nat)
    requires i < |ds|
    ensures multiset{(ds[i].agent, ds[i].data)} <= Copies(ds)
  {
    var cs := seq(|ds|, i requires 0 <= i < |ds| => (ds[i].agent, ds[i].data));
    assert cs[i] in multiset(cs);
  }

  /** What counts as sent was taken once at least. */
  lemma SentIsTaken(sessions: Table, a: Attempt, ds: seq<Delivery>)
    requires NobodyBare(sessions) && Honest(sessions, a)
    ensures Copies(ds) + OneCopy(a, a.sent) <= Copies(ds + Deliveries(a.to, a.agent, a.data))
  {
    var more := Deliveries(a.to, a.agent, a.data);
    CopiesOfBoth(ds, more);
    if a.sent {
      SentToNobody(sessions, a);
      CopyAmong(more, 0);
    }
  }

  lemma {:induction false} AllSentIsTaken(v: Store, attempts: seq<Attempt>, sessions: Table, now: int)
    requires NobodyBare(sessions) && AllHonest(sessions, attempts)
    ensures Copies(v.accepted) + SentCopies(attempts) <= Copies(After(v, attempts, now).accepted)
    decreases |attempts|
  {
    if attempts != [] {
      var front, a := attempts[..|attempts| - 1], attempts[|attempts| - 1];
      AllSentIsTaken(v, front, sessions, now);
      SentIsTaken(sessions, a, After(v, front, now).accepted);
      OneMoreIsMore(Copies(v.accepted) + SentCopies(front), Copies(After(v, front, now).accepted), OneCopy(a, a.sent));
    }
  }

  lemma OneMoreIsMore(a: multiset<Copy>, b: multiset<Copy>, c: multiset<Copy>)
    requires a <= b
    ensures a + c <= b + c
  {
  }

  /** However many sessions the agents have, what is accepted or pending grows at least by what was sent or
      queued. */
  lemma RoutedIsInLedger(v: Store, attempts: seq<Attempt>, sessions: Table, now: int)
    requires NobodyBare(sessions) && AllHonest(sessions, attempts)
    ensures Total(v) + SentCopies(attempts) + StoredCopies(attempts) <= Total(After(v, attempts, now))
  {
    AllSentIsTaken(v, attempts, sessions, now);
    WaitingIsStored(v, attempts, now);
  }

  // ---------- what is lost ----------

  /** Between the two stores, neither a transport nor the queue was given anything for the agent. */
  ghost predicate Lost(v: Store, v': Store, agent: Agent) {
    && v.accepted <= v'.accepted && v.pending <= v'.pending
    && (forall d | d in v'.accepted[|v.accepted|..] :: d.agent != agent)
    && (forall r | r in v'.pending[|v.pending|..] :: r.target != agent)
  }

  ghost predicate Grows(v: Store, v': Store) {
    v.accepted <= v'.accepted && v.pending <= v'.pending
  }

  lemma DoneForAgent(v: Store, v1: Store, a: Attempt, now: int, agent: Agent)
    requires Grows(v, v1)
    ensures var v' := Do(v1, a, now);
      Grows(v, v') &&
      (Lost(v, v', agent) <==> Lost(v, v1, agent) && (a.agent == agent ==> a.to == [] && !a.stored))
  {
    var v' := Do(v1, a, now);
    var n, m := |v.accepted|, |v.pending|;
    var more := Deliveries(a.to, a.agent, a.data);
    assert v'.accepted[n..] == v1.accepted[n..] + more;
    assert a.to != [] ==> more[0] in v'.accepted[n..];
    if a.stored {
      var row := PendingRow(v1.nextRow, a.agent, a.data, now);
      assert v'.pending[m..] == v1.pending[m..] + [row];
    }
  }

  lemma {:induction false} LostAfter(v: Store, attempts: seq<Attempt>, now: int, agent: Agent)
    ensures Grows(v, After(v, attempts, now))
    ensures Lost(v, After(v, attempts, now), agent) <==>
      forall i | 0 <= i < |attempts| && attempts[i].agent == agent :: attempts[i].to == [] && !attempts[i].stored
    decreases |attempts|
  {
    if attempts != [] {
      var front, a := attempts[..|attempts| - 1], attempts[|attempts| - 1];
      LostAfter(v, front, now, agent);
      DoneForAgent(v, After(v, front, now), a, now, agent);
      assert attempts == front + [a];
    }
  }

  /** Of a call's recipients one gets nothing exactly when it is online but none of its sessions has a
      transport, or when no transport took its copy and the insert into the queue failed. */
  lemma {:induction false} LostExactlyWhen(v: Store, attempts: seq<Attempt>, sessions: Table, now: int, i: nat)
    requires AllHonest(sessions, attempts) && i < |attempts| && NoDup(AgentsOf(attempts))
    ensures var a := attempts[i];
      Lost(v, After(v, attempts, now), a.agent) <==>
      if a.sent then Reachable(sessions, a.agent) == {} else !a.stored && a.to == []
  {
    var a := attempts[i];
    LostAfter(v, attempts, now, a.agent);
    assert forall j | 0 <= j < |attempts| && attempts[j].agent == a.agent :: j == i by {
      assert forall j | 0 <= j < |attempts| :: AgentsOf(attempts)[j] == attempts[j].agent;
    }
    if a.sent {
      SentToNobody(sessions, a);
    }
  }

  /** What counts as sent went to nobody exactly when no session of the agent has a transport. */
  lemma SentToNobody(sessions: Table, a: Attempt)
    requires Honest(sessions, a) && a.sent
    ensures a.to == [] <==> Reachable(sessions, a.agent) == {}
  {
    if a.to != [] {
      assert a.to[0] in a.to;
    }
  }

  /** The recipients, in the order in which they were served. */
  function AgentsOf(attempts: seq<Attempt>): (agents: seq<Agent>)
    ensures |agents| == |attempts| && forall i | 0 <= i < |agents| :: agents[i] == attempts[i].agent
  {
    seq(|attempts|, i requires 0 <= i < |attempts| => attempts[i].agent)
  }

  /** The send every router makes: to the agent's sessions when it is online, and into the queue when it
      is not or a send fails. */
  method SendOrQueue(mgr: SessionManager, db: Database, agent: Agent, data: string, now: int)
    returns (sent: bool, stored: bool, ghost a: Attempt)
    requires db.Valid()
    modifies mgr`accepted, db`pending, db`nextRow
    ensures db.Valid() && a == Attempt(agent, data, a.to, sent, stored) && Honest(mgr.sessions, a)
    ensures StoreOf(mgr, db) == Do(old(StoreOf(mgr, db)), a, now)
  {
    sent, stored := false, false;
    ghost var to: seq<nat> := [];
    var online := mgr.IsAgentOnline(agent);
    if online {
      sent, to := mgr.SendToAgent(agent, data);
    }
    if !sent {
      stored := db.InsertPending(agent, data, now);
    }
    a := Attempt(agent, data, to, sent, stored);
  }

  // ---------- direct messages ----------

  /** Deleting by id takes out that row and no other. */
  lemma DeleteRow(rows: seq<PendingRow>, row: PendingRow)
    requires UniqueIds(rows) && row in rows
    ensures forall r :: r in Remaining(rows, {row.id}) <==> r in rows && r != row
    ensures Waiting(rows) == Waiting(Remaining(rows, {row.id})) + multiset{(row.target, row.message)}
  {
    RemainingMembers(rows, {row.id});
    DeleteOne(rows, row);
    forall r | r in rows && r.id == row.id ensures r == row {
      var a :| 0 <= a < |rows| && rows[a] == r;
      var b :| 0 <= b < |rows| && rows[b] == row;
    }
  }

  /** A direct send adds its copy to the ledger when it was sent or queued. */
  lemma SendIsLedger(v: Store, a: Attempt, sessions: Table, now: int)
    requires OneEach(sessions) && Honest(sessions, a)
    ensures Total(Do(v, a, now)) == Total(v) + OneCopy(a, a.sent || a.stored)
  {
    OneCopyTaken(sessions, a, v.accepted);
    WaitingOfOneMore(v.pending, PendingRow(v.nextRow, a.agent, a.data, now));
  }

  lemma QueueRows(rows: seq<PendingRow>, agent: Agent, pending: seq<PendingRow>, n: nat)
    requires IsQueueOf(rows, agent, pending) && n <= |rows|
    ensures UniqueIds(rows[..n]) && forall i | 0 <= i < n :: rows[i] in pending
  {
    forall i | 0 <= i < n ensures rows[i] in pending { assert rows[i] in rows; }
  }

  /** The attempts of a drain: one for each row up to the first that was not sent. */
  ghost predicate Drains(
      attempts: seq<Attempt>, sessions: Table, agent: Agent, order: seq<PendingRow>, delivered: nat)
  {
    && delivered <= |order| && |attempts| == (if delivered < |order| then delivered + 1 else delivered)
    && AllHonest(sessions, attempts)
    && (forall i | 0 <= i < |attempts| ::
          attempts[i].agent == agent && attempts[i].data == order[i].message && !attempts[i].stored)
    && (forall i | 0 <= i < delivered :: attempts[i].sent)
    && (delivered < |order| ==> !attempts[delivered].sent)
  }

  lemma NextCopy(attempts: seq<Attempt>, i: nat)
    requires i < |attempts|
    ensures SentCopies(attempts[..i + 1]) == SentCopies(attempts[..i]) + OneCopy(attempts[i], attempts[i].sent)
  {
    assert attempts[..i + 1][..i] == attempts[..i];
  }

  lemma NextWaiting(rows: seq<PendingRow>, i: nat)
    requires i < |rows|
    ensures Waiting(rows[..i + 1]) == Waiting(rows[..i]) + multiset{(rows[i].target, rows[i].message)}
  {
    assert rows[..i + 1] == rows[..i] + [rows[i]];
    WaitingOfOneMore(rows[..i], rows[i]);
  }

  /** What a drain sends are the copies of the rows it delivers. */
  lemma {:induction false} SentAreRows(attempts: seq<Attempt>, agent: Agent, rows: seq<PendingRow>, n: nat)
    requires n <= |attempts| && n <= |rows|
    requires forall i | 0 <= i < n ::
      attempts[i].agent == agent == rows[i].target && attempts[i].data == rows[i].message && attempts[i].sent
    ensures SentCopies(attempts[..n]) == Waiting(rows[..n])
    decreases n
  {
    if n > 0 {
      SentAreRows(attempts, agent, rows, n - 1);
      NextCopy(attempts, n - 1);
      NextWaiting(rows, n - 1);
    }
  }

  /** The last attempt of a drain that stops early was not sent, and is no copy. */
  lemma SentPart(attempts: seq<Attempt>, delivered: nat)
    requires delivered <= |attempts| <= delivered + 1 && (|attempts| > delivered ==> !attempts[delivered].sent)
    ensures SentCopies(attempts) == SentCopies(attempts[..delivered])
  {
    if delivered < |attempts| {
      NextCopy(attempts, delivered);
      assert attempts[..delivered + 1] == attempts;
    } else {
      assert attempts[..delivered] == attempts;
    }
  }

  /** A drain of the agent's queue, in the order of the query: a prefix of it moves to the agent's sessions,
      and the rest and all other queues stay. */
  ghost predicate Drained(
      v: Store, v': Store, attempts: seq<Attempt>, sessions: Table, agent: Agent, order: seq<PendingRow>,
      delivered: nat)
  {
    && IsQueueOf(order, agent, v.pending) && Drains(attempts, sessions, agent, order, delivered)
    && v'.accepted == After(v, attempts, 0).accepted && v'.nextRow == v.nextRow
    && (forall r :: r in v'.pending <==> r in v.pending && r !in order[..delivered])
    && Waiting(v.pending) == Waiting(v'.pending) + Waiting(order[..delivered])
  }

  lemma DrainTakes(
      v: Store, attempts: seq<Attempt>, sessions: Table, agent: Agent, order: seq<PendingRow>, delivered: nat)
    requires OneEach(sessions) && Drains(attempts, sessions, agent, order, delivered)
    requires forall r | r in order :: r.target == agent
    ensures Copies(After(v, attempts, 0).accepted) == Copies(v.accepted) + Waiting(order[..delivered])
  {
    TakenIsSent(v, attempts, sessions, 0);
    SentPart(attempts, delivered);
    forall i | 0 <= i < delivered ensures order[i].target == agent { assert order[i] in order; }
    SentAreRows(attempts, agent, order, delivered);
  }

  /** With one session per agent a drain only moves copies from the queue to the transports. */
  lemma DrainIsLedger(
      v: Store, v': Store, attempts: seq<Attempt>, sessions: Table, agent: Agent, order: seq<PendingRow>,
      delivered: nat)
    requires OneEach(sessions) && Drained(v, v', attempts, sessions, agent, order, delivered)
    ensures Total(v') == Total(v)
  {
    DrainTakes(v, attempts, sessions, agent, order, delivered);
    Moved(Copies(v.accepted), Waiting(v.pending), Waiting(v'.pending), Waiting(order[..delivered]));
  }

  lemma Moved(taken: multiset<Copy>, before: multiset<Copy>, after: multiset<Copy>, gone: multiset<Copy>)
    requires before == after + gone
    ensures taken + gone + after == taken + before
  {
  }

  /** However many sessions the agent has, a drain loses nothing. */
  lemma DrainKeepsLedger(
      v: Store, v': Store, attempts: seq<Attempt>, sessions: Table, agent: Agent, order: seq<PendingRow>,
      delivered: nat)
    requires NobodyBare(sessions) && Drained(v, v', attempts, sessions, agent, order, delivered)
    ensures Total(v) <= Total(v')
  {
    AllSentIsTaken(v, attempts, sessions, 0);
    SentPart(attempts, delivered);
    forall i | 0 <= i < delivered ensures order[i].target == agent { assert order[i] in order; }
    SentAreRows(attempts, agent, order, delivered);
    Moved(Copies(v.accepted), Waiting(v.pending), Waiting(v'.pending), Waiting(order[..delivered]));
    OneMoreIsMore(Copies(v.accepted) + Waiting(order[..delivered]), Copies(v'.accepted), Waiting(v'.pending));
  }

  /** A drain hands on the rows' messages in the order of the query: each to the agent's sessions, then the next. */
  lemma DrainsInOrder(
      v: Store, v': Store, attempts: seq<Attempt>, sessions: Table, agent: Agent, order: seq<PendingRow>,
      delivered: nat)
    requires Drained(v, v', attempts, sessions, agent, order, delivered)
    ensures HandsOver(v, v', attempts)
    ensures |attempts| <= |order| && forall i | 0 <= i < |attempts| ::
      attempts[i].agent == agent == order[i].target && attempts[i].data == order[i].message
  {
    AfterHandsOver(v, attempts, 0);
    forall i | 0 <= i < |order| ensures order[i].target == agent { assert order[i] in order; }
  }

  /** A row that a drain deletes has gone to nobody exactly when none of the agent's sessions has a
      transport; and when it deletes one, the agent is online. */
  lemma {:induction false} DeletedToNobodyExactlyWhen(
      v: Store, v': Store, attempts: seq<Attempt>, sessions: Table, agent: Agent, order: seq<PendingRow>,
      delivered: nat, i: nat)
    requires Drained(v, v', attempts, sessions, agent, order, delivered) && i < delivered
    ensures Online(sessions, agent) != {}
    ensures attempts[i].data == order[i].message && (attempts[i].to == [] <==> Reachable(sessions, agent) == {})
  {
    SentToNobody(sessions, attempts[i]);
  }

  lemma NextRow(rows: seq<PendingRow>, i: nat)
    requires UniqueIds(rows) && i < |rows|
    ensures rows[i] !in rows[..i] && rows[..i + 1] == rows[..i] + [rows[i]]
    ensures Waiting(rows[..i + 1]) == Waiting(rows[..i]) + multiset{(rows[i].target, rows[i].message)}
  {
    assert rows[..i + 1] == rows[..i] + [rows[i]];
    NextWaiting(rows, i);
  }

  class DirectRouter {
    const db: Database
    const session: SessionManager

    constructor (db: Database, session: SessionManager)
      ensures this.db == db && this.session == session
    {
      this.db, this.session := db, session;
    }

    /** A message that was not reported as failed is delivered or queued, and never both; it is lost all
        the same exactly when the agent is online and none of its sessions has a transport. */
    method Send(to: Agent, data: string, now: int) returns (ok: bool, ghost a: Attempt)
      requires db.Valid()
      modifies session`accepted, db`pending, db`nextRow
      ensures db.Valid() && a.agent == to && a.data == data && Honest(session.sessions, a)
      ensures ok <==> a.sent || a.stored
      ensures StoreOf(session, db) == Do(old(StoreOf(session, db)), a, now)
      ensures db.pending
           == old(db.pending) + if a.stored then [PendingRow(old(db.nextRow), to, data, now)] else []
      ensures session.accepted == old(session.accepted) + Deliveries(a.to, to, data)
      ensures ok ==>
        (session.accepted == old(session.accepted) && db.pending == old(db.pending) <==>
         Online(session.sessions, to) != {} && Reachable(session.sessions, to) == {})
      ensures OneEach(session.sessions) ==>
        Total(StoreOf(session, db))
        == old(Total(StoreOf(session, db))) + if ok then multiset{(to, data)} else multiset{}
    {
      var sent, stored;
      sent, stored, a := SendOrQueue(session, db, to, data, now);
      ok := sent || stored;
      if sent {
        SentToNobody(session.sessions, a);
      }
      if OneEach(session.sessions) {
        SendIsLedger(old(StoreOf(session, db)), a, session.sessions, now);
      }
    }

    /** Sends the agent's queue in query order until one send fails, deletes what was sent and returns how
        many that were. */
    method DeliverPending(agent: Agent)
      returns (ok: bool, delivered: nat, ghost order: seq<PendingRow>, ghost attempts: seq<Attempt>)
      requires db.Valid()
      modifies session`accepted, db`pending
      ensures db.Valid()
      ensures !ok ==> delivered == 0 && StoreOf(session, db) == old(StoreOf(session, db))
      ensures ok ==> Drained(old(StoreOf(session, db)), StoreOf(session, db), attempts, session.sessions,
                             agent, order, delivered)
      ensures OneEach(session.sessions) ==> Total(StoreOf(session, db)) == old(Total(StoreOf(session, db)))
    {
      attempts := [];
      delivered := 0;
      var rows;
      ok, rows := db.QueryPending(agent);
      order := rows;
      if !ok {
        return;
      }
      var toDelete;
      delivered, toDelete, attempts := SendRows(agent, rows);
      QueueRows(rows, agent, db.pending, delivered);
      DeleteAll(toDelete, rows[..delivered]);
      if OneEach(session.sessions) {
        DrainIsLedger(old(StoreOf(session, db)), StoreOf(session, db), attempts, session.sessions,
                      agent, rows, delivered);
      }
    }

    /** Sends row after row until one send fails, and notes the ids of those that were sent. */
    method SendRows(agent: Agent, rows: seq<PendingRow>)
      returns (delivered: nat, toDelete: seq<nat>, ghost attempts: seq<Attempt>)
      modifies session`accepted
      ensures Drains(attempts, session.sessions, agent, rows, delivered) && |toDelete| == delivered
      ensures forall i | 0 <= i < delivered :: toDelete[i] == rows[i].id
      ensures StoreOf(session, db) == After(old(StoreOf(session, db)), attempts, 0)
    {
      delivered := 0;
      toDelete := [];
      attempts := [];
      while delivered < |rows|
        invariant delivered <= |rows| && |toDelete| == delivered == |attempts|
        invariant forall i | 0 <= i < delivered :: toDelete[i] == rows[i].id
        invariant Drains(attempts, session.sessions, agent, rows[..delivered], delivered)
        invariant StoreOf(session, db) == After(old(StoreOf(session, db)), attempts, 0)
      {
        var row := rows[delivered];
        var sent;
        ghost var to;
        sent, to := session.SendToAgent(agent, row.message);
        ghost var a := Attempt(agent, row.message, to, sent, false);
        AfterOneMore(old(StoreOf(session, db)), attempts, a, 0);
        DrainsOneMore(attempts, a, session.sessions, agent, rows, delivered);
        attempts := attempts + [a];
        if !sent {
          return;
        }
        toDelete := toDelete + [row.id];
        delivered := delivered + 1;
      }
      assert rows[..delivered] == rows;
    }

    /** The rows that were sent leave the queue, each by its id. */
    method DeleteAll(ids: seq<nat>, ghost rows: seq<PendingRow>)
      requires db.Valid() && UniqueIds(rows) && |ids| == |rows|
      requires forall i | 0 <= i < |rows| :: rows[i] in db.pending && ids[i] == rows[i].id
      modifies db`pending
      ensures db.Valid()
      ensures forall r :: r in db.pending <==> r in old(db.pending) && r !in rows
      ensures Waiting(old(db.pending)) == Waiting(db.pending) + Waiting(rows)
    {
      for i := 0 to |ids|
        invariant db.Valid()
        invariant forall r :: r in db.pending <==> r in old(db.pending) && r !in rows[..i]
        invariant Waiting(old(db.pending)) == Waiting(db.pending) + Waiting(rows[..i])
      {
        ghost var before := db.pending;
        NextRow(rows, i);
        assert rows[i] in before;
        db.DeletePending(ids[i]);
        DeleteRow(before, rows[i]);
      }
      assert rows[..|rows|] == rows;
    }
  }

  lemma DrainsOneMore(
      attempts: seq<Attempt>, a: Attempt, sessions: Table, agent: Agent, rows: seq<PendingRow>, n: nat)
    requires n < |rows| && Drains(attempts, sessions, agent, rows[..n], n) && Honest(sessions, a)
    requires a == Attempt(agent, rows[n].message, a.to, a.sent, false)
    ensures if a.sent then Drains(attempts + [a], sessions, agent, rows[..n + 1], n + 1)
            else Drains(attempts + [a], sessions, agent, rows, n)
  {
    SentNext(attempts, a, sessions);
  }

  // ---------- fan-out ----------

  /** Each of the agents is served once with the data. */
  ghost predicate Serves(attempts: seq<Attempt>, agents: set<Agent>, data: string) {
    && NoDup(AgentsOf(attempts)) && (forall i | 0 <= i < |attempts| :: attempts[i].data == data)
    && (forall a :: a in AgentsOf(attempts) <==> a in agents)
  }

  lemma ServesOneMore(attempts: seq<Attempt>, a: Attempt, agents: set<Agent>, data: string)
    requires Serves(attempts, agents, data) && a.agent !in agents && a.data == data
    ensures Serves(attempts + [a], agents + {a.agent}, data)
  {
    assert AgentsOf(attempts + [a]) == AgentsOf(attempts) + [a.agent];
  }

  function SetOf(agents: seq<Agent>): set<Agent> {
    set a | a in agents
  }

  /** The loop of publish and relay: every agent but the sender is served once, and counted once. */
  method FanOut(mgr: SessionManager, db: Database, from: Agent, agents: seq<Agent>, data: string, now: int)
    returns (delivered: nat, queued: nat, ghost attempts: seq<Attempt>)
    requires db.Valid() && NoDup(agents)
    modifies mgr`accepted, db`pending, db`nextRow
    ensures db.Valid() && Serves(attempts, SetOf(agents) - {from}, data) && AllHonest(mgr.sessions, attempts)
    ensures delivered == Sents(attempts) && queued == |attempts| - delivered
    ensures StoreOf(mgr, db) == After(old(StoreOf(mgr, db)), attempts, now)
  {
    delivered, queued := 0, 0;
    attempts := [];
    ghost var done: set<Agent> := {};
    for i := 0 to |agents|
      invariant db.Valid() && done == SetOf(agents[..i]) - {from} && Serves(attempts, done, data)
      invariant AllHonest(mgr.sessions, attempts)
      invariant delivered == Sents(attempts) && queued == |attempts| - delivered
      invariant StoreOf(mgr, db) == After(old(StoreOf(mgr, db)), attempts, now)
    {
      var agent := agents[i];
      NextOf(agents, i);
      if agent == from {
        continue;
      }
      var sent, stored;
      ghost var a;
      sent, stored, a := SendOrQueue(mgr, db, agent, data, now);
      AfterOneMore(old(StoreOf(mgr, db)), attempts, a, now);
      ServesOneMore(attempts, a, done, data);
      SentNext(attempts, a, mgr.sessions);
      attempts, done := attempts + [a], done + {agent};
      if sent {
        delivered := delivered + 1;
      } else {
        queued := queued + 1;
      }
    }
    assert agents[..|agents|] == agents;
  }

  lemma NextOf(agents: seq<Agent>, i: nat)
    requires NoDup(agents) && i < |agents|
    ensures agents[i] !in SetOf(agents[..i]) && SetOf(agents[..i + 1]) == SetOf(agents[..i]) + {agents[i]}
  {
    assert agents[..i + 1] == agents[..i] + [agents[i]];
  }
}
