// Topic subscriptions: a table, and an in-memory index of it that publishing reads.
module PubSub {
  import opened Common
  import opened Sessions
  import opened Routing

  type Subscriptions = set<(Agent, string)>

  /** Topic to subscribers; a topic without subscribers has no entry. */
  type Cache = map<string, set<Agent>>

  function Topics(table: Subscriptions): set<string> {
    set p | p in table :: p.1
  }

  function SubscribersOf(table: Subscriptions, topic: string): set<Agent> {
    set p | p in table && p.1 == topic :: p.0
  }

  /** The table, seen by topic. */
  function Index(table: Subscriptions): Cache {
    map t | t in Topics(table) :: SubscribersOf(table, t)
  }

  function With(cache: Cache, agent: Agent, topic: string): Cache {
    cache[topic := (if topic in cache then cache[topic] else {}) + {agent}]
  }

  function Without(cache: Cache, agent: Agent, topic: string): Cache {
    if topic !in cache then cache
    else if cache[topic] - {agent} == {} then cache - {topic}
    else cache[topic := cache[topic] - {agent}]
  }

  lemma InIndex(table: Subscriptions, agent: Agent, topic: string)
    ensures (agent, topic) in table <==> topic in Index(table) && agent in Index(table)[topic]
  {
    if (agent, topic) in table {
      assert topic in Topics(table);
    }
  }

  lemma NoEmptyTopic(table: Subscriptions, topic: string)
    requires topic in Index(table)
    ensures Index(table)[topic] != {}
  {
    var p :| p in table && p.1 == topic;
    assert p.0 in Index(table)[topic];
  }

  /** Adding to the index is indexing the table with the row added. */
  lemma AddIsIndex(table: Subscriptions, agent: Agent, topic: string)
    ensures With(Index(table), agent, topic) == Index(table + {(agent, topic)})
  {
    var bigger := table + {(agent, topic)};
    assert Topics(bigger) == Topics(table) + {topic};
    forall t | t in Topics(bigger)
      ensures With(Index(table), agent, topic)[t] == SubscribersOf(bigger, t)
    {
      if t == topic {
        assert SubscribersOf(bigger, t) == SubscribersOf(table, t) + {agent};
        assert topic !in Topics(table) ==> SubscribersOf(table, t) == {};
      } else {
        assert SubscribersOf(bigger, t) == SubscribersOf(table, t);
      }
    }
  }

  /** Removing from the index, with topics that run empty dropped, is indexing the table without the row. */
  lemma RemoveIsIndex(table: Subscriptions, agent: Agent, topic: string)
    ensures Without(Index(table), agent, topic) == Index(table - {(agent, topic)})
  {
    var smaller := table - {(agent, topic)};
    var left := SubscribersOf(smaller, topic);
    assert left == SubscribersOf(table, topic) - {agent};
    assert topic in Topics(smaller) <==> left != {} by {
      if left != {} {
        var a :| a in left;
        assert (a, topic) in smaller;
      }
      if topic in Topics(smaller) {
        NoEmptyTopic(smaller, topic);
      }
    }
    forall t | t != topic
      ensures t in Topics(smaller) <==> t in Topics(table)
      ensures SubscribersOf(smaller, t) == SubscribersOf(table, t)
    {
      if t in Topics(table) {
        var p :| p in table && p.1 == t;
        assert p in smaller;
      }
    }
  }

  /** When the cache has changed and the statement may have failed: whether the two still agree. */
  lemma AgreementAfterInsert(table: Subscriptions, table': Subscriptions, row: (Agent, string), ok: bool)
    requires table' == table + if ok then {row} else {}
    ensures Index(table + {row}) == Index(table') <==> ok || row in table
  {
    InIndex(table + {row}, row.0, row.1);
    InIndex(table', row.0, row.1);
    if ok || row in table {
      assert table' == table + {row};
    }
  }

  lemma AgreementAfterDelete(table: Subscriptions, table': Subscriptions, row: (Agent, string), ok: bool)
    requires table' == table - if ok then {row} else {}
    ensures Index(table - {row}) == Index(table') <==> ok || row !in table
  {
    InIndex(table - {row}, row.0, row.1);
    InIndex(table', row.0, row.1);
    if ok || row !in table {
      assert table' == table - {row};
    }
  }

  // ---------- over runs ----------

  /** A request to subscribe or to unsubscribe, and whether its statement succeeded. */
  datatype Change = Change(subscribe: bool, agent: Agent, topic: string, ok: bool)

  function ChangedCache(cache: Cache, q: Change): Cache {
    if q.subscribe then With(cache, q.agent, q.topic) else Without(cache, q.agent, q.topic)
  }

  /** A statement that fails leaves the table alone. */
  function ChangedTable(table: Subscriptions, q: Change): Subscriptions {
    if !q.ok then table
    else if q.subscribe then table + {(q.agent, q.topic)} else table - {(q.agent, q.topic)}
  }

  function CacheAfter(cache: Cache, changes: seq<Change>): Cache {
    if changes == [] then cache
    else ChangedCache(CacheAfter(cache, changes[..|changes| - 1]), changes[|changes| - 1])
  }

  function TableAfter(table: Subscriptions, changes: seq<Change>): Subscriptions {
    if changes == [] then table
    else ChangedTable(TableAfter(table, changes[..|changes| - 1]), changes[|changes| - 1])
  }

  predicate Has(cache: Cache, agent: Agent, topic: string) {
    topic in cache && agent in cache[topic]
  }

  /** The kind of the last request for the pair, or of the last one whose statement succeeded. */
  function LastWish(changes: seq<Change>, agent: Agent, topic: string, succeeded: bool): Option<bool> {
    if changes == [] then None
    else
      var q := changes[|changes| - 1];
      if q.agent == agent && q.topic == topic && (succeeded ==> q.ok) then Some(q.subscribe)
      else LastWish(changes[..|changes| - 1], agent, topic, succeeded)
  }

  /** The cache is as the last request for each pair wants it. */
  lemma {:induction false} CacheFollowsWishes(cache: Cache, changes: seq<Change>, agent: Agent, topic: string)
    ensures var wish := LastWish(changes, agent, topic, false);
      Has(CacheAfter(cache, changes), agent, topic) <==> if wish.Some? then wish.value else Has(cache, agent, topic)
    decreases |changes|
  {
    if changes != [] {
      CacheFollowsWishes(cache, changes[..|changes| - 1], agent, topic);
    }
  }

  /** The table is as the last successful one wants it. */
  lemma {:induction false} TableFollowsWishes(
      table: Subscriptions, changes: seq<Change>, agent: Agent, topic: string)
    ensures var wish := LastWish(changes, agent, topic, true);
      (agent, topic) in TableAfter(table, changes) <==>
      if wish.Some? then wish.value else (agent, topic) in table
    decreases |changes|
  {
    if changes != [] {
      TableFollowsWishes(table, changes[..|changes| - 1], agent, topic);
    }
  }

  /** From a cache that is the table's index on, whatever statements fail, the two agree on a pair exactly when
      the last request for it and the last successful one are of the same kind, or none was successful and the
      row was already as the last one wants it, or there was none. */
  lemma {:induction false} AgreeExactlyWhen(
      table: Subscriptions, changes: seq<Change>, agent: Agent, topic: string)
    ensures var last := LastWish(changes, agent, topic, false);
      var done := LastWish(changes, agent, topic, true);
      (Has(CacheAfter(Index(table), changes), agent, topic) <==> (agent, topic) in TableAfter(table, changes)) <==>
      last.None? || last.value == if done.Some? then done.value else (agent, topic) in table
  {
    CacheFollowsWishes(Index(table), changes, agent, topic);
    TableFollowsWishes(table, changes, agent, topic);
    InIndex(table, agent, topic);
    if LastWish(changes, agent, topic, false).None? {
      NoWishNoSuccess(changes, agent, topic);
    }
  }

  lemma {:induction false} NoWishNoSuccess(changes: seq<Change>, agent: Agent, topic: string)
    requires LastWish(changes, agent, topic, false).None?
    ensures LastWish(changes, agent, topic, true).None?
    decreases |changes|
  {
    if changes != [] {
      NoWishNoSuccess(changes[..|changes| - 1], agent, topic);
    }
  }

  /** With every statement succeeding, the cache stays exactly the index of the table. */
  lemma {:induction false} AgreementIsKept(table: Subscriptions, changes: seq<Change>)
    requires forall i | 0 <= i < |changes| :: changes[i].ok
    ensures CacheAfter(Index(table), changes) == Index(TableAfter(table, changes))
    decreases |changes|
  {
    if changes != [] {
      var n := |changes| - 1;
      AgreementIsKept(table, changes[..n]);
      AddIsIndex(TableAfter(table, changes[..n]), changes[n].agent, changes[n].topic);
      RemoveIsIndex(TableAfter(table, changes[..n]), changes[n].agent, changes[n].topic);
    }
  }

  class PubSubRouter {
    const db: Database
    const session: SessionManager
    var subscribers: Cache

    /** The in-memory map is exactly the index of the table. */
    ghost predicate Agrees()
      reads this, db
    {
      subscribers == Index(db.subscriptions)
    }

    /** Loading reads the rows one by one, in whatever order the table yields them. When the query fails
        nothing is loaded, and the rows of unread cannot be scanned and are skipped. */
    constructor (db: Database, session: SessionManager, fault: bool, unread: Subscriptions)
      ensures this.db == db && this.session == session
      ensures subscribers == Index(if fault then {} else db.subscriptions - unread)
    {
      this.db, this.session := db, session;
      subscribers := map[];
      new;
      if !fault {
        Load(unread);
      }
    }

    method Load(unread: Subscriptions)
      requires subscribers == map[]
      modifies this`subscribers
      ensures subscribers == Index(db.subscriptions - unread)
    {
      var todo := db.subscriptions;
      ghost var loaded: Subscriptions := {};
      while todo != {}
        invariant todo <= db.subscriptions && loaded <= db.subscriptions - unread
        invariant forall row | row in db.subscriptions && row !in unread :: row in todo || row in loaded
        invariant subscribers == Index(loaded)
      {
        var row :| row in todo;
        todo := todo - {row};
        if row in unread {
          continue;
        }
        AddIsIndex(loaded, row.0, row.1);
        ghost var cache := subscribers;
        if row.1 !in subscribers {
          subscribers := subscribers[row.1 := {}];
        }
        subscribers := subscribers[row.1 := subscribers[row.1] + {row.0}];
        assert subscribers == With(cache, row.0, row.1) && row == (row.0, row.1);
        loaded := loaded + {row};
      }
      assert loaded == db.subscriptions - unread;
    }

    /** The cache takes the subscription first. A failed insert leaves the two different, unless the row
        was there already. */
    method Subscribe(agent: Agent, topic: string) returns (ok: bool)
      modifies this`subscribers, db`subscriptions
      ensures db.subscriptions == if ok then old(db.subscriptions) + {(agent, topic)} else old(db.subscriptions)
      ensures subscribers == With(old(subscribers), agent, topic)
      ensures old(Agrees()) ==> (Agrees() <==> ok || (agent, topic) in old(db.subscriptions))
    {
      AddIsIndex(db.subscriptions, agent, topic);
      if topic !in subscribers {
        subscribers := subscribers[topic := {}];
      }
      subscribers := subscribers[topic := subscribers[topic] + {agent}];
      assert subscribers == With(old(subscribers), agent, topic);
      ok := db.InsertSubscription(agent, topic);
      AgreementAfterInsert(old(db.subscriptions), db.subscriptions, (agent, topic), ok);
    }

    /** The cache forgets the subscription first; a failed delete then leaves the two different, unless
        there was no such row. */
    method Unsubscribe(agent: Agent, topic: string) returns (ok: bool)
      modifies this`subscribers, db`subscriptions
      ensures db.subscriptions == if ok then old(db.subscriptions) - {(agent, topic)} else old(db.subscriptions)
      ensures subscribers == Without(old(subscribers), agent, topic)
      ensures old(Agrees()) ==> (Agrees() <==> ok || (agent, topic) !in old(db.subscriptions))
    {
      RemoveIsIndex(db.subscriptions, agent, topic);
      if topic in subscribers {
        subscribers := subscribers[topic := subscribers[topic] - {agent}];
        if subscribers[topic] == {} {
          subscribers := subscribers - {topic};
        }
      }
      assert subscribers == Without(old(subscribers), agent, topic);
      ok := db.DeleteSubscription(agent, topic);
      AgreementAfterDelete(old(db.subscriptions), db.subscriptions, (agent, topic), ok);
    }

    /** Every subscriber of the topic but the sender is served once, and counted as delivered or as queued. */
    method Publish(from: Agent, topic: string, data: string, now: int)
      returns (delivered: nat, queued: nat, ghost attempts: seq<Attempt>)
      requires db.Valid()
      modifies session`accepted, db`pending, db`nextRow
      ensures db.Valid() && AllHonest(session.sessions, attempts)
      ensures Serves(attempts, (if topic in subscribers then subscribers[topic] else {}) - {from}, data)
      ensures delivered == |SentAt(attempts)| && queued == |attempts| - delivered
      ensures StoreOf(session, db) == After(old(StoreOf(session, db)), attempts, now)
      ensures Queues(old(StoreOf(session, db)), StoreOf(session, db), attempts, now)
      ensures HandsOver(old(StoreOf(session, db)), StoreOf(session, db), attempts)
      ensures OneEach(session.sessions) ==>
        Total(StoreOf(session, db))
        == old(Total(StoreOf(session, db))) + SentCopies(attempts) + StoredCopies(attempts)
    {
      var agents := Recipients(from, topic);
      delivered, queued, attempts := FanOut(session, db, from, agents, data, now);
      SentsAreCounted(attempts);
      AfterQueues(old(StoreOf(session, db)), attempts, now);
      AfterHandsOver(old(StoreOf(session, db)), attempts, now);
      assert SetOf(agents) - {from} == (if topic in subscribers then subscribers[topic] else {}) - {from};
      if OneEach(session.sessions) {
        RoutedIsLedger(old(StoreOf(session, db)), attempts, session.sessions, now);
      }
    }

    /** The subscribers of the topic except the sender, in whatever order the map yields them. */
    method Recipients(from: Agent, topic: string) returns (agents: seq<Agent>)
      ensures NoDup(agents)
      ensures forall a :: a in agents <==> topic in subscribers && a in subscribers[topic] && a != from
    {
      var subs := if topic in subscribers then subscribers[topic] else {};
      agents := [];
      var todo := subs;
      while todo != {}
        invariant todo <= subs && NoDup(agents)
        invariant forall a :: a in agents <==> a in subs - todo && a != from
      {
        var agent :| agent in todo;
        assert agent !in agents;
        todo := todo - {agent};
        if agent != from {
          agents := agents + [agent];
        }
      }
    }
  }
}
