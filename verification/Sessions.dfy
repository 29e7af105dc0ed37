// The session manager: which sessions exist, who closes their transports, and how one message goes out
// to all sessions of an agent.
module Sessions {
  import opened Common

  datatype Status = Active | Closed

  datatype Session = Session(agent: Agent, status: Status, transport: Option<nat>, lastActive: int)

  type Table = map<nat, Session>

  /** A transport took data for the agent of its session. */
  datatype Delivery = Delivery(session: nat, agent: Agent, data: string)

  const TIMEOUT := 300

  function Expired(sessions: Table, now: int): set<nat> {
    set x | x in sessions && sessions[x].lastActive < now - TIMEOUT
  }

  /** The transports of the sessions xs. */
  function Transports(sessions: Table, xs: set<nat>): set<nat> {
    set x | x in xs && x in sessions && sessions[x].transport.Some? :: sessions[x].transport.value
  }

  /** The sessions that make the agent count as online. */
  function Online(sessions: Table, agent: Agent): set<nat> {
    set x | x in sessions && sessions[x].agent == agent && sessions[x].status == Active
  }

  /** Those of them that can take a message. */
  function Reachable(sessions: Table, agent: Agent): set<nat> {
    set x | x in Online(sessions, agent) && sessions[x].transport.Some?
  }

  // ---------- every transport is closed exactly once ----------

  /** Ever holds all sessions that were created, and owner says to which of them a transport belongs;
      closing holds those that CloseSession has taken out but not closed yet; closes counts Close calls
      per transport, and left counts removals per session. */
  datatype State = State(
    sessions: Table,
    ever: set<nat>,
    owner: map<nat, nat>,
    closing: set<nat>,
    closes: multiset<nat>,
    left: multiset<nat>)

  /** CloseSession is two steps, because it closes the transport after it has released the lock. */
  datatype Step =
    | Create(session: nat, agent: Agent, transport: Option<nat>, now: int)
    | Touch(session: nat, now: int)
    | TakeOut(session: nat)
    | CloseTaken(session: nat)
    | Cleanup(now: int)
    | CloseAll

  const INIT := State(map[], {}, map[], {}, multiset{}, multiset{})

  /** The transports that belong to the sessions xs. */
  function OwnedBy(s: State, xs: set<nat>): set<nat> {
    set t | t in s.owner && s.owner[t] in xs
  }

  /** Removing the sessions xs and closing their transports under one lock. */
  function Remove(s: State, xs: set<nat>): State {
    s.(sessions := s.sessions - xs,
       closes := s.closes + multiset(Transports(s.sessions, xs)),
       left := s.left + multiset(xs))
  }

  function Apply(s: State, step: Step): State {
    match step
    case Create(x, agent, transport, now) =>
      if x in s.ever || (transport.Some? && transport.value in s.owner) then s
      else s.(sessions := s.sessions[x := Session(agent, Active, transport, now)],
              ever := s.ever + {x},
              owner := if transport.Some? then s.owner[transport.value := x] else s.owner)
    case Touch(x, now) =>
      if x in s.sessions then s.(sessions := s.sessions[x := s.sessions[x].(lastActive := now)]) else s
    case TakeOut(x) =>
      if x !in s.sessions then s
      else s.(sessions := s.sessions - {x}, closing := s.closing + {x}, left := s.left + multiset{x})
    case CloseTaken(x) =>
      if x !in s.closing then s
      else s.(closing := s.closing - {x}, closes := s.closes + multiset(OwnedBy(s, {x})))
    case Cleanup(now) => Remove(s, Expired(s.sessions, now))
    case CloseAll => Remove(s, s.sessions.Keys)
  }

  function Run(s: State, steps: seq<Step>): State
    decreases |steps|
  {
    if steps == [] then s else Run(Apply(s, steps[0]), steps[1..])
  }

  /** A session has left the map, and its transport was closed, at most once; while a closer still holds
      it, it has left but is not closed. */
  ghost predicate ClosedOnce(s: State) {
    && (forall x | x in s.ever :: s.left[x] == if x in s.sessions then 0 else 1)
    && (forall t | t in s.owner :: s.closes[t] == if s.owner[t] in s.sessions.Keys + s.closing then 0 else 1)
  }

  /** What a session's number of removals is. */
  ghost predicate LeftRight(s: State, x: nat) {
    s.left[x] == if x in s.ever && x !in s.sessions then 1 else 0
  }

  /** What a transport's number of Close calls is. */
  ghost predicate ClosesRight(s: State, t: nat) {
    s.closes[t] == if t in s.owner && s.owner[t] !in s.sessions && s.owner[t] !in s.closing then 1 else 0
  }

  /** Owner says which transport a session has. */
  ghost predicate Owners(s: State) {
    forall x, t | x in s.sessions :: s.sessions[x].transport == Some(t) <==> t in s.owner && s.owner[t] == x
  }

  ghost predicate Known(s: State) {
    && (forall x | x in s.sessions :: x in s.ever && x !in s.closing)
    && (forall x | x in s.closing :: x in s.ever)
    && (forall t | t in s.owner :: s.owner[t] in s.ever)
  }

  ghost predicate Inv(s: State) {
    Known(s) && Owners(s) && (forall x: nat :: LeftRight(s, x)) && (forall t: nat :: ClosesRight(s, t))
  }

  lemma TransportsAreOwned(s: State, xs: set<nat>, t: nat)
    requires Owners(s) && xs <= s.sessions.Keys
    ensures t in Transports(s.sessions, xs) <==> t in s.owner && s.owner[t] in xs
  {
    if t in s.owner && s.owner[t] in xs {
      assert s.sessions[s.owner[t]].transport == Some(t);
    }
  }

  lemma RemoveKeepsInv(s: State, xs: set<nat>)
    requires Inv(s) && xs <= s.sessions.Keys
    ensures Inv(Remove(s, xs))
  {
    var s' := Remove(s, xs);
    forall x: nat ensures LeftRight(s', x) { assert LeftRight(s, x); }
    forall t: nat ensures ClosesRight(s', t) {
      assert ClosesRight(s, t);
      TransportsAreOwned(s, xs, t);
    }
  }

  lemma CreateKeepsInv(s: State, x: nat, agent: Agent, transport: Option<nat>, now: int)
    requires Inv(s) && x !in s.ever && (transport.Some? ==> transport.value !in s.owner)
    ensures Inv(Apply(s, Create(x, agent, transport, now)))
  {
    var s' := Apply(s, Create(x, agent, transport, now));
    forall y: nat ensures LeftRight(s', y) { assert LeftRight(s, y); }
    forall t: nat ensures ClosesRight(s', t) { assert ClosesRight(s, t); }
    assert Owners(s') by { CreateKeepsOwners(s, x, agent, transport, now); }
  }

  lemma CreateKeepsOwners(s: State, x: nat, agent: Agent, transport: Option<nat>, now: int)
    requires Known(s) && Owners(s) && x !in s.ever && (transport.Some? ==> transport.value !in s.owner)
    ensures Owners(Apply(s, Create(x, agent, transport, now)))
  {
    var s' := Apply(s, Create(x, agent, transport, now));
    forall y, t | y in s'.sessions
      ensures s'.sessions[y].transport == Some(t) <==> t in s'.owner && s'.owner[t] == y
    {
      if y != x {
        assert s.sessions[y].transport == Some(t) <==> t in s.owner && s.owner[t] == y;
      }
    }
  }

  lemma TouchKeepsInv(s: State, x: nat, now: int)
    requires Inv(s) && x in s.sessions
    ensures Inv(Apply(s, Touch(x, now)))
  {
    var s' := Apply(s, Touch(x, now));
    forall y: nat ensures LeftRight(s', y) { assert LeftRight(s, y); }
    forall t: nat ensures ClosesRight(s', t) { assert ClosesRight(s, t); }
    assert forall y | y in s'.sessions :: s'.sessions[y].transport == s.sessions[y].transport;
  }

  lemma TakeOutKeepsInv(s: State, x: nat)
    requires Inv(s) && x in s.sessions
    ensures Inv(Apply(s, TakeOut(x)))
  {
    var s' := Apply(s, TakeOut(x));
    forall y: nat ensures LeftRight(s', y) { assert LeftRight(s, y); }
    forall t: nat ensures ClosesRight(s', t) { assert ClosesRight(s, t); }
    assert Owners(s');
  }

  lemma CloseTakenKeepsInv(s: State, x: nat)
    requires Inv(s) && x in s.closing
    ensures Inv(Apply(s, CloseTaken(x)))
  {
    var s' := Apply(s, CloseTaken(x));
    forall y: nat ensures LeftRight(s', y) { assert LeftRight(s, y); }
    forall t: nat ensures ClosesRight(s', t) {
      assert ClosesRight(s, t);
      assert t in OwnedBy(s, {x}) <==> t in s.owner && s.owner[t] == x;
    }
  }

  lemma StepKeepsInv(s: State, step: Step)
    requires Inv(s)
    ensures Inv(Apply(s, step))
  {
    match step
    case Create(x, agent, transport, now) =>
      if Apply(s, step) != s { CreateKeepsInv(s, x, agent, transport, now); }
    case Touch(x, now) => if x in s.sessions { TouchKeepsInv(s, x, now); }
    case TakeOut(x) => if x in s.sessions { TakeOutKeepsInv(s, x); }
    case CloseTaken(x) => if x in s.closing { CloseTakenKeepsInv(s, x); }
    case Cleanup(now) => RemoveKeepsInv(s, Expired(s.sessions, now));
    case CloseAll => RemoveKeepsInv(s, s.sessions.Keys);
  }

  lemma {:induction false} RunKeepsInv(s: State, steps: seq<Step>)
    requires Inv(s)
    ensures Inv(Run(s, steps))
    decreases |steps|
  {
    if steps != [] {
      StepKeepsInv(s, steps[0]);
      RunKeepsInv(Apply(s, steps[0]), steps[1..]);
    }
  }

  /** Over every interleaving of CloseSession, cleanup and Close, each session leaves the map through
      exactly one of them, and that one closes its transport: never twice, and once it has finished. */
  lemma TransportsAreClosedExactlyOnce(steps: seq<Step>)
    ensures ClosedOnce(Run(INIT, steps))
  {
    RunKeepsInv(INIT, steps);
    var s := Run(INIT, steps);
    forall x | x in s.ever ensures s.left[x] == if x in s.sessions then 0 else 1 { assert LeftRight(s, x); }
    forall t | t in s.owner
      ensures s.closes[t] == if s.owner[t] in s.sessions.Keys + s.closing then 0 else 1
    {
      assert ClosesRight(s, t);
    }
  }

  /** Which sessions are in the map behind a step, and when they were last active. */
  lemma InMapExactlyWhen(s: State, step: Step, x: nat)
    requires Known(s)
    ensures var s' := Apply(s, step);
      && (x in s'.sessions <==>
            (step.Create? && step.session == x && x !in s.ever &&
             (step.transport.Some? ==> step.transport.value !in s.owner)) ||
            (x in s.sessions && step != TakeOut(x) && step != CloseAll &&
             !(step.Cleanup? && s.sessions[x].lastActive < step.now - 300)))
      && (x in s'.sessions ==>
            s'.sessions[x].lastActive ==
              if x !in s.sessions || (step.Touch? && step.session == x) then step.now else s.sessions[x].lastActive)
  {
  }

  /** CloseSession of a session that is there takes it out and closes its transport, also when others are at
      work between its two steps, and then it holds nothing any more. */
  lemma {:induction false} CloserCloses(s: State, x: nat, between: seq<Step>, t: nat)
    requires Inv(s) && x in s.sessions && CloseTaken(x) !in between
    ensures var s1 := Run(Apply(s, TakeOut(x)), between);
      var s' := Apply(s1, CloseTaken(x));
      && x in s1.closing && x !in s1.sessions && x !in s'.closing && x !in s'.sessions
      && (s.sessions[x].transport == Some(t) ==> s1.closes[t] == 0 && s'.closes[t] == 1)
  {
    var s0 := Apply(s, TakeOut(x));
    StepKeepsInv(s, TakeOut(x));
    StaysTaken(s0, x, between, t);
    RunKeepsInv(s0, between);
    TakenIsClosed(Run(s0, between), x, t);
  }

  lemma TakenIsClosed(s: State, x: nat, t: nat)
    requires Inv(s) && x in s.closing
    ensures var s' := Apply(s, CloseTaken(x));
      && x !in s'.closing && x !in s'.sessions
      && (t in s.owner && s.owner[t] == x ==> s.closes[t] == 0 && s'.closes[t] == 1)
  {
    StepKeepsInv(s, CloseTaken(x));
    assert ClosesRight(s, t) && ClosesRight(Apply(s, CloseTaken(x)), t);
  }

  lemma {:induction false} StaysTaken(s: State, x: nat, steps: seq<Step>, t: nat)
    requires Inv(s) && x in s.closing && CloseTaken(x) !in steps
    ensures var s' := Run(s, steps);
      x in s'.closing && x !in s'.sessions && (t in s.owner ==> t in s'.owner && s'.owner[t] == s.owner[t])
    decreases |steps|
  {
    if steps != [] {
      StepKeepsInv(s, steps[0]);
      assert steps[0] in steps && forall step | step in steps[1..] :: step in steps;
      StaysTaken(Apply(s, steps[0]), x, steps[1..], t);
    }
  }

  // ---------- the manager ----------

  /** One transport's Send. The environment decides whether it takes the message. */
  method TransportSend() returns (ok: bool)
  {
    ok := *;
  }

  /** The deliveries of data to the sessions to, in that order. */
  function Deliveries(to: seq<nat>, agent: Agent, data: string): (ds: seq<Delivery>)
    ensures |ds| == |to|
    ensures forall i | 0 <= i < |to| :: ds[i] == Delivery(to[i], agent, data)
  {
    if to == [] then [] else Deliveries(to[..|to| - 1], agent, data) + [Delivery(to[|to| - 1], agent, data)]
  }

  /** Those of the sessions xs that use the transport t. */
  function Users(sessions: Table, xs: set<nat>, t: nat): set<nat> {
    set x | x in xs && x in sessions && sessions[x].transport == Some(t)
  }

  /** Between the two counts every transport was closed once for each of the sessions xs that uses it. */
  ghost predicate ClosedFor(before: multiset<nat>, after: multiset<nat>, sessions: Table, xs: set<nat>) {
    forall t: nat :: after[t] == before[t] + |Users(sessions, xs, t)|
  }

  lemma NothingClosed(closes: multiset<nat>, sessions: Table)
    ensures ClosedFor(closes, closes, sessions, {})
  {
    forall t: nat ensures |Users(sessions, {}, t)| == 0 {
      assert Users(sessions, {}, t) == {};
    }
  }

  lemma OneMoreUser(all: Table, done: set<nat>, id: nat, t: nat)
    requires id in all && id !in done
    ensures |Users(all, done + {id}, t)| == |Users(all, done, t)| + if all[id].transport == Some(t) then 1 else 0
  {
    var users := Users(all, done, t);
    if all[id].transport == Some(t) {
      assert Users(all, done + {id}, t) == users + {id};
    } else {
      assert Users(all, done + {id}, t) == users;
    }
  }

  lemma OneMoreClosed(before: multiset<nat>, after: multiset<nat>, all: Table, done: set<nat>, id: nat)
    requires ClosedFor(before, after, all, done) && id in all && id !in done
    ensures all[id].transport.None? ==> ClosedFor(before, after, all, done + {id})
    ensures all[id].transport.Some? ==>
      ClosedFor(before, after + multiset{all[id].transport.value}, all, done + {id})
  {
    forall t: nat
      ensures |Users(all, done + {id}, t)| == |Users(all, done, t)| + if all[id].transport == Some(t) then 1 else 0
    {
      OneMoreUser(all, done, id, t);
    }
  }

  lemma OneMoreGone(all: Table, done: set<nat>, id: nat)
    ensures all - done - {id} == all - (done + {id})
  {
  }

  lemma OneMoreDelivery(before: seq<Delivery>, to: seq<nat>, x: nat, agent: Agent, data: string)
    ensures before + Deliveries(to + [x], agent, data)
         == before + Deliveries(to, agent, data) + [Delivery(x, agent, data)]
    ensures NoDup(to) && x !in to ==> NoDup(to + [x])
    ensures forall y :: y in to + [x] <==> y in to || y == x
  {
    assert (to + [x])[..|to|] == to;
  }

  /** Closes counts the Close calls of each transport, and accepted records what transports took. */
  class SessionManager {
    var sessions: Table
    var closes: multiset<nat>
    var accepted: seq<Delivery>
    var nextSession: nat

    ghost predicate Valid()
      reads this
    {
      forall x | x in sessions :: x < nextSession && sessions[x].status == Active
    }

    constructor ()
      ensures Valid() && sessions == map[] && closes == multiset{} && accepted == []
    {
      sessions, closes, accepted, nextSession := map[], multiset{}, [], 0;
    }

    /** Fresh ids stand for the UUIDs. */
    method CreateSession(agent: Agent, transport: Option<nat>, now: int) returns (id: nat)
      requires Valid()
      modifies this`sessions, this`nextSession
      ensures Valid() && id !in old(sessions)
      ensures sessions == old(sessions)[id := Session(agent, Active, transport, now)]
    {
      id := nextSession;
      nextSession := nextSession + 1;
      sessions := sessions[id := Session(agent, Active, transport, now)];
    }

    method TouchSession(id: nat, now: int)
      requires Valid()
      modifies this`sessions
      ensures Valid()
      ensures sessions == if id in old(sessions) then old(sessions)[id := old(sessions)[id].(lastActive := now)]
                          else old(sessions)
    {
      if id in sessions {
        sessions := sessions[id := sessions[id].(lastActive := now)];
      }
    }

    /** The session that has left is marked as closed. */
    method CloseSession(id: nat) returns (found: bool, ghost left: Option<Session>)
      requires Valid()
      modifies this`sessions, this`closes
      ensures Valid() && (found <==> id in old(sessions))
      ensures left == if found then Some(old(sessions)[id].(status := Closed)) else None
      ensures sessions == old(sessions) - {id}
      ensures closes == old(closes) +
        if found && old(sessions)[id].transport.Some? then multiset{old(sessions)[id].transport.value} else multiset{}
    {
      found, left := id in sessions, None;
      if !found {
        return;
      }
      var session := sessions[id];
      sessions := sessions - {id};
      if session.transport.Some? {
        closes := closes + multiset{session.transport.value};
      }
      session := session.(status := Closed);
      left := Some(session);
    }

    method IsAgentOnline(agent: Agent) returns (online: bool)
      ensures online <==> exists x :: x in sessions && sessions[x].agent == agent && sessions[x].status == Active
      ensures online <==> Online(sessions, agent) != {}
    {
      var todo := sessions.Keys;
      while todo != {}
        invariant todo <= sessions.Keys
        invariant forall x | x in Online(sessions, agent) :: x in todo
      {
        var x :| x in todo;
        if sessions[x].agent == agent && sessions[x].status == Active {
          assert x in Online(sessions, agent) && x in sessions;
          return true;
        }
        todo := todo - {x};
      }
      assert Online(sessions, agent) == {};
      assert forall x :: x in sessions && sessions[x].agent == agent && sessions[x].status == Active ==>
        x in Online(sessions, agent);
      online := false;
    }

    method GetSessionsByAgent(agent: Agent) returns (result: seq<nat>)
      ensures NoDup(result)
      ensures forall x :: x in result <==>
        x in sessions && sessions[x].agent == agent && sessions[x].status == Active
    {
      var todo := sessions.Keys;
      result := [];
      while todo != {}
        invariant todo <= sessions.Keys && NoDup(result)
        invariant forall x :: x in result <==> x in Online(sessions, agent) && x !in todo
      {
        var x :| x in todo;
        todo := todo - {x};
        if sessions[x].agent == agent && sessions[x].status == Active {
          result := result + [x];
        }
      }
    }

    /** Sends data to every session of the agent. To lists the sessions whose transports took it: on
        success all that have a transport, and otherwise at least one is missing or nobody is online. */
    method SendToAgent(agent: Agent, data: string) returns (ok: bool, ghost to: seq<nat>)
      modifies this`accepted
      ensures accepted == old(accepted) + Deliveries(to, agent, data)
      ensures NoDup(to) && forall x | x in to :: x in Reachable(sessions, agent)
      ensures ok <==> Online(sessions, agent) != {} && forall x | x in Reachable(sessions, agent) :: x in to
    {
      var targets := GetSessionsByAgent(agent);
      to := [];
      if |targets| == 0 {
        assert Online(sessions, agent) == {};
        return false, [];
      }
      assert targets[0] in Online(sessions, agent);
      ok := true;
      ghost var missed, seen: set<nat> := 0, {};
      for i := 0 to |targets|
        invariant accepted == old(accepted) + Deliveries(to, agent, data)
        invariant forall j | 0 <= j < |targets| :: targets[j] in seen <==> j < i
        invariant NoDup(to) && forall x | x in to :: x in seen && x in Reachable(sessions, agent)
        invariant !ok ==> missed in seen && missed in Reachable(sessions, agent) && missed !in to
        invariant ok ==> forall x | x in seen && x in Reachable(sessions, agent) :: x in to
      {
        var x := targets[i];
        assert x in targets && x in Online(sessions, agent);
        if sessions[x].transport.Some? {
          var sent := TransportSend();
          if sent {
            accepted := accepted + [Delivery(x, agent, data)];
            OneMoreDelivery(old(accepted), to, x, agent, data);
            to := to + [x];
          } else {
            ok, missed := false, x;
          }
        }
        seen := seen + {x};
      }
    }

    method Cleanup(now: int)
      requires Valid()
      modifies this`sessions, this`closes
      ensures Valid()
      ensures forall x :: x in sessions <==> x in old(sessions) && old(sessions)[x].lastActive >= now - 300
      ensures forall x | x in sessions :: sessions[x] == old(sessions)[x]
      ensures sessions == old(sessions) - Expired(old(sessions), now)
      ensures ClosedFor(old(closes), closes, old(sessions), Expired(old(sessions), now))
    {
      var cutoff := now - TIMEOUT;
      ghost var all := sessions;
      var toRemove: set<nat> := {};
      var todo := sessions.Keys;
      while todo != {}
        invariant todo <= sessions.Keys
        invariant toRemove == set x | x in all && x !in todo && all[x].lastActive < cutoff
      {
        var x :| x in todo;
        todo := todo - {x};
        if sessions[x].lastActive < cutoff {
          toRemove := toRemove + {x};
        }
      }
      assert toRemove == Expired(all, now);
      CloseThem(toRemove);
    }

    method Close()
      requires Valid()
      modifies this`sessions, this`closes
      ensures Valid() && sessions == map[]
      ensures ClosedFor(old(closes), closes, old(sessions), old(sessions).Keys)
    {
      CloseThem(sessions.Keys);
    }

    /** Closes the transports of the sessions ids, and takes the sessions out. */
    method CloseThem(ids: set<nat>)
      requires Valid() && ids <= sessions.Keys
      modifies this`sessions, this`closes
      ensures Valid() && sessions == old(sessions) - ids
      ensures ClosedFor(old(closes), closes, old(sessions), ids)
    {
      ghost var all := sessions;
      var done: set<nat> := {};
      NothingClosed(closes, all);
      while done != ids
        invariant done <= ids && sessions == all - done
        invariant ClosedFor(old(closes), closes, all, done)
        decreases ids - done
      {
        var id :| id in ids && id !in done;
        OneMoreClosed(old(closes), closes, all, done, id);
        OneMoreGone(all, done, id);
        var session := sessions[id];
        if session.transport.Some? {
          closes := closes + multiset{session.transport.value};
        }
        sessions := sessions - {id};
        done := done + {id};
      }
    }
  }
}
