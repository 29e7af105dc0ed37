// Group membership, and relaying a message to the members of a group.
module Groups {
  import opened Common
  import opened Sessions
  import opened Routing

  function MembersOf(rows: seq<Member>, group: string): set<Agent> {
    set m | m in rows && m.group == group :: m.agent
  }

  /** The row of a new member. */
  function NewMember(group: string, agent: Agent, role: string): Member {
    Member(group, agent, if role == "" then "member" else role)
  }

  predicate UniqueMembers(rows: seq<Member>) {
    forall i, j | 0 <= i < j < |rows| :: rows[i].group != rows[j].group || rows[i].agent != rows[j].agent
  }

  class GroupRouter {
    const db: Database
    const session: SessionManager

    constructor (db: Database, session: SessionManager)
      ensures this.db == db && this.session == session
    {
      this.db, this.session := db, session;
    }

    /** INSERT OR IGNORE: a member that is already there keeps its role. Group and agent are foreign keys;
        with them the environment decides whether the statement succeeds. */
    method Join(group: string, agent: Agent, role: string) returns (ok: bool)
      requires db.Valid()
      modifies db`members
      ensures db.Valid()
      ensures ok ==> group in db.groups && agent in db.agents
      ensures db.members ==
        if !ok || agent in MembersOf(old(db.members), group) then old(db.members)
        else old(db.members) + [NewMember(group, agent, role)]
    {
      var named := if role == "" then "member" else role;
      ok := *;
      if !ok || group !in db.groups || agent !in db.agents {
        return false;
      }
      for i := 0 to |db.members|
        invariant forall j | 0 <= j < i :: db.members[j].group != group || db.members[j].agent != agent
      {
        if db.members[i].group == group && db.members[i].agent == agent {
          assert db.members[i] in db.members;
          return;
        }
      }
      db.members := db.members + [Member(group, agent, named)];
    }

    method Leave(group: string, agent: Agent) returns (ok: bool)
      requires db.Valid()
      modifies db`members
      ensures db.Valid()
      ensures !ok ==> db.members == old(db.members)
      ensures ok ==>
        forall m :: m in db.members <==> m in old(db.members) && !(m.group == group && m.agent == agent)
    {
      ok := *;
      if !ok {
        return;
      }
      var kept: seq<Member> := [];
      for i := 0 to |db.members|
        invariant db.members == old(db.members)
        invariant UniqueMembers(kept)
        invariant forall m :: m in kept <==> m in db.members[..i] && !(m.group == group && m.agent == agent)
      {
        assert db.members[..i + 1] == db.members[..i] + [db.members[i]];
        if !(db.members[i].group == group && db.members[i].agent == agent) {
          forall m | m in kept ensures m.group != db.members[i].group || m.agent != db.members[i].agent {
            var j :| 0 <= j < i && db.members[j] == m;
          }
          kept := kept + [db.members[i]];
        }
      }
      assert db.members[..|db.members|] == db.members;
      db.members := kept;
    }

    method GetMembers(group: string) returns (ok: bool, agents: seq<Agent>)
      requires db.Valid()
      ensures ok ==> NoDup(agents) && forall a :: a in agents <==> a in MembersOf(db.members, group)
    {
      agents := [];
      ok := *;
      if !ok {
        return;
      }
      for i := 0 to |db.members|
        invariant NoDup(agents) && forall a :: a in agents <==> a in MembersOf(db.members[..i], group)
      {
        var m := db.members[i];
        assert db.members[..i + 1] == db.members[..i] + [m];
        if m.group == group {
          assert m.agent !in agents;
          agents := agents + [m.agent];
          assert m in db.members[..i + 1];
        }
      }
      assert db.members[..|db.members|] == db.members;
    }

    /** Every member of the group but the sender is served once, and counted as delivered or as queued;
        when the members cannot be read, nothing happens. */
    method Relay(from: Agent, group: string, data: string, now: int)
      returns (ok: bool, delivered: nat, queued: nat, ghost attempts: seq<Attempt>)
      requires db.Valid()
      modifies session`accepted, db`pending, db`nextRow
      ensures db.Valid() && AllHonest(session.sessions, attempts)
      ensures if ok then Serves(attempts, MembersOf(db.members, group) - {from}, data) else attempts == []
      ensures delivered == |SentAt(attempts)| && queued == |attempts| - delivered
      ensures StoreOf(session, db) == After(old(StoreOf(session, db)), attempts, now)
      ensures Queues(old(StoreOf(session, db)), StoreOf(session, db), attempts, now)
      ensures HandsOver(old(StoreOf(session, db)), StoreOf(session, db), attempts)
      ensures OneEach(session.sessions) ==>
        Total(StoreOf(session, db))
        == old(Total(StoreOf(session, db))) + SentCopies(attempts) + StoredCopies(attempts)
    {
      delivered, queued, attempts := 0, 0, [];
      var members;
      ok, members := GetMembers(group);
      if ok {
        delivered, queued, attempts := FanOut(session, db, from, members, data, now);
        assert SetOf(members) - {from} == MembersOf(db.members, group) - {from};
      }
      SentsAreCounted(attempts);
      AfterQueues(old(StoreOf(session, db)), attempts, now);
      AfterHandsOver(old(StoreOf(session, db)), attempts, now);
      if OneEach(session.sessions) {
        RoutedIsLedger(old(StoreOf(session, db)), attempts, session.sessions, now);
      }
    }
  }
}
