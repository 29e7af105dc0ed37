// The social tables behind their methods: the actions of social events, the queries over the relation
// graph, and routing by relationship.
module SocialGraph {
  import opened Common
  import opened Social
  import opened SocialEffects

  class Database {
    var agents: map<Agent, real>
    var relations: map<Key, Meta>
    var messages: set<string>
    var likes: set<(Agent, string)>
    var timeline: seq<TimelineRow>
    var log: seq<Event>

    ghost function Value(): Tables
      reads this
    {
      Tables(agents, relations, messages, likes, timeline, log)
    }

    constructor ()
      ensures Value() == EMPTY
    {
      agents, relations, messages, likes, timeline, log := map[], map[], {}, {}, [], [];
    }
  }

  // ---------- queries ----------

  function Followers(t: Tables, a: Agent): set<Agent> {
    set k | k in t.relations && k.kind == Follow && k.to == a :: k.from
  }

  function Following(t: Tables, a: Agent): set<Agent> {
    set k | k in t.relations && k.kind == Follow && k.from == a :: k.to
  }

  function Reputation(t: Tables, a: Agent): real {
    if a in t.agents then t.agents[a] else 0.0
  }

  /** The tables without the scores that cannot be read. */
  function Readable(t: Tables, unread: set<Agent>): Tables {
    t.(agents := t.agents - unread)
  }

  class Graph {
    const db: Database

    constructor (db: Database)
      ensures this.db == db
    {
      this.db := db;
    }

    /** Rows come in no particular order; the unique index keeps the result free of duplicates. Fault makes
        the query fail. */
    method GetFollowers(a: Agent, fault: bool) returns (ok: bool, agents: seq<Agent>)
      ensures ok <==> !fault
      ensures ok ==> NoDup(agents) && forall b :: b in agents <==> Key(b, a, Follow) in db.relations
    {
      ok, agents := !fault, [];
      if fault {
        return;
      }
      var todo := db.relations.Keys;
      while todo != {}
        invariant todo <= db.relations.Keys && NoDup(agents)
        invariant forall b :: b in agents <==> Key(b, a, Follow) in db.relations.Keys - todo
      {
        var k :| k in todo;
        if k.to == a && k.kind == Follow {
          assert k == Key(k.from, a, Follow) && k.from !in agents;
          agents := agents + [k.from];
        }
        todo := todo - {k};
      }
    }

    method GetFollowing(a: Agent, fault: bool) returns (ok: bool, agents: seq<Agent>)
      ensures ok <==> !fault
      ensures ok ==> NoDup(agents) && forall b :: b in agents <==> Key(a, b, Follow) in db.relations
    {
      ok, agents := !fault, [];
      if fault {
        return;
      }
      var todo := db.relations.Keys;
      while todo != {}
        invariant todo <= db.relations.Keys && NoDup(agents)
        invariant forall b :: b in agents <==> Key(a, b, Follow) in db.relations.Keys - todo
      {
        var k :| k in todo;
        if k.from == a && k.kind == Follow {
          assert k == Key(a, k.to, Follow) && k.to !in agents;
          agents := agents + [k.to];
        }
        todo := todo - {k};
      }
    }

    /** The self-join: a row r1 of a's follows with a row r2 that goes the other way. */
    method GetMutualFollows(a: Agent, fault: bool) returns (ok: bool, agents: seq<Agent>)
      ensures ok <==> !fault
      ensures ok ==> NoDup(agents) && forall b :: b in agents <==>
        Key(a, b, Follow) in db.relations && Key(b, a, Follow) in db.relations
    {
      ok, agents := !fault, [];
      if fault {
        return;
      }
      var todo := db.relations.Keys;
      while todo != {}
        invariant todo <= db.relations.Keys && NoDup(agents)
        invariant forall b :: b in agents <==>
          Key(a, b, Follow) in db.relations.Keys - todo && Key(b, a, Follow) in db.relations
      {
        var r1 :| r1 in todo;
        if r1.from == a && r1.kind == Follow {
          assert r1 == Key(a, r1.to, Follow) && r1.to !in agents;
          var matches := CountReverse(r1);
          if matches > 0 {
            agents := agents + [r1.to];
          }
        }
        todo := todo - {r1};
      }
    }

    /** How many rows r2 join with r1: the unique index leaves at most one, so no agent comes twice. */
    method CountReverse(r1: Key) returns (matches: nat)
      ensures matches == if Key(r1.to, r1.from, Follow) in db.relations then 1 else 0
    {
      matches := 0;
      var todo := db.relations.Keys;
      while todo != {}
        invariant todo <= db.relations.Keys
        invariant matches == if Key(r1.to, r1.from, Follow) in db.relations.Keys - todo then 1 else 0
      {
        var r2 :| r2 in todo;
        if r1.to == r2.from && r2.to == r1.from && r2.kind == Follow {
          assert r2 == Key(r1.to, r1.from, Follow);
          matches := matches + 1;
        }
        todo := todo - {r2};
      }
    }

    method CountEndorsements(a: Agent) returns (count: nat)
      ensures count == |set k | k in db.relations && k.kind == Endorse && k.to == a|
    {
      count := 0;
      var todo := db.relations.Keys;
      ghost var counted: set<Key> := {};
      while todo != {}
        invariant todo <= db.relations.Keys
        invariant counted == set k | k in db.relations.Keys - todo && k.kind == Endorse && k.to == a
        invariant count == |counted|
      {
        var k :| k in todo;
        if k.to == a && k.kind == Endorse {
          counted := counted + {k};
          count := count + 1;
        }
        todo := todo - {k};
      }
      assert counted == set k | k in db.relations && k.kind == Endorse && k.to == a;
    }
  }

  /** Being mutual followers is symmetric. */
  lemma MutualIsSymmetric(t: Tables, a: Agent, b: Agent)
    ensures b in Followers(t, a) * Following(t, a) <==> a in Followers(t, b) * Following(t, b)
  {
    assert b in Followers(t, a) <==> Key(b, a, Follow) in t.relations;
    assert b in Following(t, a) <==> Key(a, b, Follow) in t.relations;
    assert a in Followers(t, b) <==> Key(a, b, Follow) in t.relations;
    assert a in Following(t, b) <==> Key(b, a, Follow) in t.relations;
  }

  // ---------- routing by relationship ----------

  datatype Strategy = RouteFollowers | RouteMutual | RouteTrust | RouteUnknown(name: string)

  /** Who a message of from goes to. */
  function Targets(t: Tables, from: Agent, strategy: Strategy, minimum: real, exclude: seq<Agent>): set<Agent> {
    var chosen :=
      match strategy
      case RouteFollowers => Followers(t, from)
      case RouteMutual => Followers(t, from) * Following(t, from)
      case RouteTrust => set b | b in Followers(t, from) && Reputation(t, b) >= minimum
      case RouteUnknown(_) => {};
    set b | b in chosen && b !in exclude && b != from
  }

  lemma TargetsAreKeys(t: Tables, a: Agent, b: Agent)
    ensures b in Followers(t, a) <==> Key(b, a, Follow) in t.relations
    ensures b in Following(t, a) <==> Key(a, b, Follow) in t.relations
  {
  }

  /** The trust circle lies inside the followers and shrinks as the threshold rises. */
  lemma TrustCircleShrinks(t: Tables, from: Agent, low: real, high: real, exclude: seq<Agent>)
    requires low <= high
    ensures Targets(t, from, RouteTrust, high, exclude) <= Targets(t, from, RouteTrust, low, exclude)
         <= Targets(t, from, RouteFollowers, low, exclude)
  {
  }

  lemma TrustOfFollower(t: Tables, from: Agent, b: Agent, minimum: real)
    requires ReputationInv(t) && b in Followers(t, from)
    ensures Reputation(t, b) >= minimum <==> EnoughEndorsers(|Endorsers(t, b)|, minimum)
  {
    assert Key(b, from, Follow) in t.relations;
    OneRowPerEndorser(t, b, Endorsements(t, b));
    TrustCountsEndorsers(|Endorsers(t, b)|, minimum);
  }

  lemma TrustedTargets(t: Tables, from: Agent, minimum: real, exclude: seq<Agent>, b: Agent)
    ensures b in Targets(t, from, RouteTrust, minimum, exclude) <==>
      b in Targets(t, from, RouteFollowers, minimum, exclude) && Reputation(t, b) >= minimum
  {
  }

  /** On a database that events have built, the trust circle keeps a follower exactly when it has enough
      distinct endorsers. */
  lemma {:induction false} TrustCircleCountsEndorsers(
      es: seq<(Event, Faults)>, from: Agent, minimum: real, exclude: seq<Agent>, b: Agent)
    requires Updating(es)
    ensures var t := Run(EMPTY, es);
      b in Targets(t, from, RouteTrust, minimum, exclude) <==>
      b in Targets(t, from, RouteFollowers, minimum, exclude) && EnoughEndorsers(|Endorsers(t, b)|, minimum)
  {
    RunKeepsReputation(EMPTY, es);
    var t := Run(EMPTY, es);
    TrustedTargets(t, from, minimum, exclude, b);
    if b in Targets(t, from, RouteFollowers, minimum, exclude) {
      TrustOfFollower(t, from, b, minimum);
    }
  }

  class SocialExtensions {
    const db: Database
    const graph: Graph
    const actions: Actions
    var notified: seq<(Agent, Event)>

    ghost predicate Valid()
      reads this
    {
      graph.db == db && actions.db == db && actions.graph == graph
    }

    constructor (db: Database)
      ensures Valid() && this.db == db && notified == []
    {
      this.db := db;
      var g := new Graph(db);
      graph := g;
      actions := new Actions(db, g);
      notified := [];
    }

    /** Exactly the strategy's set, without exclusions and the sender, each agent once. An unknown strategy is
        an error, and so is a query that fails; a score that cannot be read, for the agents of unread, is as
        good as none. */
    method ResolveTargets(
        from: Agent, strategy: Strategy, minimum: real, exclude: seq<Agent>, fault: bool, unread: set<Agent>)
      returns (result: Option<seq<Agent>>)
      requires Valid()
      ensures result == None <==> strategy.RouteUnknown? || fault
      ensures result.Some? ==> NoDup(result.value)
      ensures result.Some? ==>
        forall b :: b in result.value <==>
          && Key(b, from, Follow) in db.relations && b !in exclude && b != from
          && (strategy.RouteMutual? ==> Key(from, b, Follow) in db.relations)
          && (strategy.RouteTrust? ==> (if b in db.agents && b !in unread then db.agents[b] else 0.0) >= minimum)
      ensures result.Some? ==>
        forall b :: b in result.value <==> b in Targets(Readable(db.Value(), unread), from, strategy, minimum, exclude)
    {
      var ok, raw;
      match strategy {
        case RouteFollowers => ok, raw := graph.GetFollowers(from, fault);
        case RouteMutual => ok, raw := graph.GetMutualFollows(from, fault);
        case RouteTrust =>
          ok, raw := graph.GetFollowers(from, fault);
          if ok {
            raw := Trusted(raw, minimum, unread);
          }
        case RouteUnknown(_) => return None;
      }
      if !ok {
        return None;
      }
      var targets := Excluding(raw, from, exclude);
      result := Some(targets);
      forall b ensures b in targets <==> b in Targets(Readable(db.Value(), unread), from, strategy, minimum, exclude) {
        TargetsAreKeys(Readable(db.Value(), unread), from, b);
      }
    }

    method Excluding(raw: seq<Agent>, from: Agent, exclude: seq<Agent>) returns (targets: seq<Agent>)
      requires NoDup(raw)
      ensures NoDup(targets) && forall b :: b in targets <==> b in raw && b !in exclude && b != from
    {
      targets := [];
      for i := 0 to |raw|
        invariant NoDup(targets)
        invariant forall b :: b in targets <==> b in raw[..i] && b !in exclude && b != from
      {
        assert raw[..i + 1] == raw[..i] + [raw[i]] && raw[i] !in raw[..i];
        if raw[i] !in exclude && raw[i] != from {
          targets := targets + [raw[i]];
        }
      }
      assert raw[..|raw|] == raw;
    }

    /** A follower whose score cannot be read counts as zero. */
    method Trusted(raw: seq<Agent>, minimum: real, unread: set<Agent>) returns (filtered: seq<Agent>)
      requires NoDup(raw)
      ensures NoDup(filtered)
      ensures forall b :: b in filtered <==>
        b in raw && (if b in db.agents && b !in unread then db.agents[b] else 0.0) >= minimum
    {
      filtered := [];
      for i := 0 to |raw|
        invariant NoDup(filtered)
        invariant forall b :: b in filtered <==>
          b in raw[..i] && (if b in db.agents && b !in unread then db.agents[b] else 0.0) >= minimum
      {
        assert raw[..i + 1] == raw[..i] + [raw[i]] && raw[i] !in raw[..i];
        var rep := 0.0;
        if raw[i] in db.agents && raw[i] !in unread {
          rep := db.agents[raw[i]];
        }
        if rep >= minimum {
          filtered := filtered + [raw[i]];
        }
      }
      assert raw[..|raw|] == raw;
    }

    /** Applies the event, logs it if it went through, and then offers it to both agents' feeds. */
    method ProcessSocialEvent(e: Event, f: Faults) returns (ok: bool)
      requires Valid()
      modifies db, this`notified
      ensures Valid() && db.Value() == Process(old(db.Value()), e, f)
      ensures Effect(old(db.Value()), db.Value(), ok, e, f)
      ensures notified == old(notified)
        + (if ok && e.to != "" then [(e.to, e)] else []) + (if ok && e.from != "" then [(e.from, e)] else [])
    {
      actions.EnsureAgent(e.from, f.from);
      if e.to != "" {
        actions.EnsureAgent(e.to, f.to);
      }
      assert db.Value() == Ensured(old(db.Value()), e, f);
      ok := ApplyEvent(e, f);
      ProcessHasEffect(old(db.Value()), e, f);
      if ok {
        if !f.log {
          db.log := db.log + [e];
        }
        OfferToFeeds(e);
      }
    }

    method OfferToFeeds(e: Event)
      modifies this`notified
      ensures notified == old(notified)
        + (if e.to != "" then [(e.to, e)] else []) + (if e.from != "" then [(e.from, e)] else [])
    {
      if e.to != "" {
        notified := notified + [(e.to, e)];
      }
      if e.from != "" {
        notified := notified + [(e.from, e)];
      }
    }

    method ApplyEvent(e: Event, f: Faults) returns (ok: bool)
      requires Valid()
      modifies db
      ensures (db.Value(), ok) == Act(old(db.Value()), e, f)
    {
      ok := true;
      match e.kind {
        case FollowEvent =>
          ok := actions.Follow(e.from, e.to, f.action);
          if ok {
            actions.AddTimelineEvent(e.to, "new_follower", e.from, "");
          }
        case UnfollowEvent =>
          ok := actions.Unfollow(e.from, e.to, f.action);
        case LikeEvent =>
          var m := MessageOf(e);
          if m != "" {
            actions.EnsureMessage(m, f.message);
            ok := actions.Like(e.from, m, f.action);
          }
        case UnlikeEvent =>
          var m := MessageOf(e);
          if m != "" {
            actions.Unlike(e.from, m, f.action);
          }
        case EndorseEvent =>
          ok := actions.Endorse(e.from, e.to, e.skill, f);
          if ok {
            actions.AddTimelineEvent(e.to, "endorsed", e.from, e.skill);
          }
        case CollabRequest =>
          ok := actions.RequestCollaboration(e.from, e.to, ProposalOf(e), f.action);
          if ok {
            actions.AddTimelineEvent(e.to, "collab_request", e.from, "");
          }
        case OtherEvent(_) =>
      }
    }
  }

  // ---------- actions ----------

  /** Each method is one statement, or three for Endorse; fault makes it fail whatever the tables hold. */
  class Actions {
    const db: Database
    const graph: Graph

    constructor (db: Database, graph: Graph)
      ensures this.db == db && this.graph == graph
    {
      this.db, this.graph := db, graph;
    }

    method EnsureAgent(a: Agent, fault: bool)
      modifies db`agents
      ensures db.Value() == Social.EnsureAgent(old(db.Value()), a, fault)
      ensures db.agents == if fault || a in old(db.agents) then old(db.agents) else old(db.agents)[a := 0.0]
    {
      if !fault && a !in db.agents {
        db.agents := db.agents[a := 0.0];
      }
    }

    method EnsureMessage(m: string, fault: bool)
      modifies db`messages
      ensures db.Value() == Social.EnsureMessage(old(db.Value()), m, fault)
    {
      if !fault {
        db.messages := db.messages + {m};
      }
    }

    method Follow(follower: Agent, target: Agent, fault: bool) returns (ok: bool)
      modifies db`relations
      ensures ok <==> !fault && follower in db.agents && target in db.agents
      ensures var k := Key(follower, target, Kind.Follow);
        db.relations == if ok && k !in old(db.relations) then old(db.relations)[k := NoMeta] else old(db.relations)
    {
      ok := !fault && follower in db.agents && target in db.agents;
      if ok && Key(follower, target, Kind.Follow) !in db.relations {
        db.relations := db.relations[Key(follower, target, Kind.Follow) := NoMeta];
      }
    }

    method Unfollow(follower: Agent, target: Agent, fault: bool) returns (ok: bool)
      modifies db`relations
      ensures ok <==> !fault
      ensures db.relations == if ok then old(db.relations) - {Key(follower, target, Kind.Follow)}
                              else old(db.relations)
    {
      ok := !fault;
      if ok {
        db.relations := db.relations - {Key(follower, target, Kind.Follow)};
      }
    }

    method Like(a: Agent, m: string, fault: bool) returns (ok: bool)
      modifies db`likes
      ensures ok <==> !fault && a in db.agents && m in db.messages
      ensures db.likes == if ok then old(db.likes) + {(a, m)} else old(db.likes)
    {
      ok := !fault && a in db.agents && m in db.messages;
      if ok {
        db.likes := db.likes + {(a, m)};
      }
    }

    method Unlike(a: Agent, m: string, fault: bool)
      modifies db`likes
      ensures db.likes == if fault then old(db.likes) else old(db.likes) - {(a, m)}
    {
      if !fault {
        db.likes := db.likes - {(a, m)};
      }
    }

    method Endorse(from: Agent, target: Agent, skill: string, f: Faults) returns (ok: bool)
      requires graph.db == db
      modifies db`relations, db`agents
      ensures ok <==> !f.action && from in old(db.agents) && target in old(db.agents)
      ensures db.relations
           == if ok then old(db.relations)[Key(from, target, Kind.Endorse) := Skill(skill)] else old(db.relations)
      ensures db.Value() ==
        if ok then Endorsed(old(db.Value()), Key(from, target, Kind.Endorse), skill, f.count, f.update)
        else old(db.Value())
    {
      ok := !f.action && from in db.agents && target in db.agents;
      if ok {
        db.relations := db.relations[Key(from, target, Kind.Endorse) := Skill(skill)];
        UpdateReputation(target, f.count, f.update);
      }
    }

    /** The count is a query whose error is dropped; what it should have filled stays 0. */
    method UpdateReputation(a: Agent, countFault: bool, updateFault: bool)
      requires graph.db == db
      modifies db`agents
      ensures db.Value() == Social.UpdateReputation(old(db.Value()), a, countFault, updateFault)
      ensures var n := if countFault then 0 else |set k | k in db.relations && k.kind == Kind.Endorse && k.to == a|;
        db.agents == if updateFault || a !in old(db.agents) then old(db.agents)
                     else old(db.agents)[a := n as real / (n as real + 10.0)]
    {
      var count := 0;
      if !countFault {
        count := graph.CountEndorsements(a);
      }
      var score := count as real / (count as real + 10.0);
      if !updateFault && a in db.agents {
        db.agents := db.agents[a := score];
      }
    }

    method RequestCollaboration(from: Agent, to: Agent, proposal: Meta, fault: bool) returns (ok: bool)
      modifies db`relations
      ensures ok <==>
        !fault && from in db.agents && to in db.agents && Key(from, to, Collaborate) !in old(db.relations)
      ensures db.relations == if ok then old(db.relations)[Key(from, to, Collaborate) := proposal]
                              else old(db.relations)
    {
      ok := !fault && from in db.agents && to in db.agents && Key(from, to, Collaborate) !in db.relations;
      if ok {
        db.relations := db.relations[Key(from, to, Collaborate) := proposal];
      }
    }

    method AddTimelineEvent(a: Agent, event: string, source: Agent, message: string)
      modifies db`timeline
      ensures db.Value() == AddEvent(old(db.Value()), a, event, source, message)
    {
      if a in db.agents && (message == "" || message in db.messages) {
        db.timeline := db.timeline + [TimelineRow(a, event, source, message)];
      }
    }
  }
}
