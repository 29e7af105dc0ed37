// What the delivery protocol brings about: calls and drains come to their ends, everybody who can be reached
// is reached, everybody else's copy is queued, and what a drain has delivered leaves the queue.
module DeliveryProgress {
  import opened Common
  import opened DeliveryProtocol

  // ---------- calls ----------

  function CallRank(c: Call): nat {
    match c.pc
    case Next => 5
    case CheckOnline(_) => 4
    case Fetch(_) => 3
    case Sending(_, _, _, _) => 2
    case Insert(_) => 1
    case Returned(_) => 0
  }

  lemma {:induction false} AnOrder(xs: set<nat>) returns (order: seq<nat>)
    ensures Enumerates(order, xs)
    decreases |xs|
  {
    order := [];
    if xs != {} {
      var x :| x in xs;
      var more := AnOrder(xs - {x});
      order := [x] + more;
    }
  }

  function CallRest(c: Call): nat {
    if c.pc.Sending? then |c.pc.rest| else 0
  }

  /** With every answer a good one, a step brings a call closer to its end, which is no error. */
  lemma CallProgress(s: State, id: nat, order: seq<nat>)
    requires id in s.calls && InPlace(s.calls[id]) && !s.calls[id].pc.Returned?
    requires s.calls[id].pc.Fetch? ==> Enumerates(order, SessionsOf(s, s.calls[id].pc.to))
    ensures var c, s' := s.calls[id], Apply(s, CallStep(id, order, true));
      id in s'.calls &&
      var c' := s'.calls[id];
      && c'.recipients == c.recipients && InPlace(c') && (c'.pc.Returned? ==> c'.pc.ok)
      && (c'.served > c.served ||
          (c'.served == c.served &&
           (CallRank(c') < CallRank(c) || (CallRank(c') == CallRank(c) && CallRest(c') < CallRest(c)))))
  {
    match s.calls[id].pc
    case Next =>
    case CheckOnline(_) =>
    case Fetch(_) =>
    case Sending(_, _, _, _) =>
    case Insert(_) =>
  }

  /** What a state says about sessions, and nothing else. */
  function Net(s: State): (n: State)
    ensures forall a :: SessionsOf(n, a) == SessionsOf(s, a)
    ensures forall x :: HasTransport(n, x) <==> HasTransport(s, x)
  {
    var n := INIT.(known := s.known, open := s.open);
    assert forall a :: SessionsOf(n, a) == SessionsOf(s, a);
    n
  }

  /** The sessions of the agent that can take a message. */
  function Takers(s: State, agent: Agent): set<nat> {
    set x | x in SessionsOf(s, agent) && HasTransport(s, x)
  }

  /** Whom a call serves after the recipient it is serving. */
  function Later(c: Call): seq<Agent>
    requires InPlace(c)
  {
    match c.pc
    case Next => c.recipients[c.served..]
    case Returned(_) => []
    case _ => c.recipients[c.served + 1..]
  }

  function SendsTo(s: State, id: nat, agents: seq<Agent>): set<(Copy, nat)> {
    set to, x | to in agents && x in Takers(s, to) :: (Copy(id, to), x)
  }

  function QueuesFor(s: State, id: nat, agents: seq<Agent>): set<Copy> {
    set to | to in agents && SessionsOf(s, to) == {} :: Copy(id, to)
  }

  /** What a call sends to the recipient it is serving, if nothing fails from here on. */
  function NowSends(n: State, id: nat, pc: CallPc): set<(Copy, nat)> {
    match pc
    case CheckOnline(to) => SendsTo(n, id, [to])
    case Fetch(to) => SendsTo(n, id, [to])
    case Sending(to, _, rest, _) => RestOf(n, Copy(id, to), rest)
    case _ => {}
  }

  function RestOf(n: State, copy: Copy, rest: seq<nat>): set<(Copy, nat)> {
    set x | x in rest && HasTransport(n, x) :: (copy, x)
  }

  /** And what it queues for it. */
  function NowQueues(n: State, id: nat, pc: CallPc): set<Copy> {
    match pc
    case CheckOnline(to) => QueuesFor(n, id, [to])
    case Fetch(to) => QueuesFor(n, id, [to])
    case Sending(to, _, _, failed) => if failed then {Copy(id, to)} else {}
    case Insert(to) => {Copy(id, to)}
    case _ => {}
  }

  /** What a call still sends if nothing fails: every recipient's copy to all sessions that can take it. */
  function CallSends(n: State, id: nat, c: Call): set<(Copy, nat)>
    requires InPlace(c)
  {
    SendsTo(n, id, Later(c)) + NowSends(n, id, c.pc)
  }

  /** And what it queues: the copies of those who have no session, and of one to whom a send has failed. */
  function CallQueues(n: State, id: nat, c: Call): set<Copy>
    requires InPlace(c)
  {
    QueuesFor(n, id, Later(c)) + NowQueues(n, id, c.pc)
  }

  predicate FreshRows(s: State) {
    forall r | r in s.pending :: r < s.nextRow
  }

  lemma CallFrame(s: State, id: nat, order: seq<nat>)
    requires id in s.calls && InPlace(s.calls[id])
    ensures var s' := AdvanceCall(s, id, order, true);
      s'.known == s.known && s'.open == s.open && (FreshRows(s) ==> FreshRows(s'))
  {
    match s.calls[id].pc
    case Next =>
    case CheckOnline(_) =>
    case Fetch(_) =>
    case Sending(_, _, _, _) =>
    case Insert(_) =>
    case Returned(_) =>
  }

  lemma FirstOf(s: State, id: nat, agents: seq<Agent>)
    requires agents != []
    ensures SendsTo(s, id, agents) == SendsTo(s, id, [agents[0]]) + SendsTo(s, id, agents[1..])
    ensures QueuesFor(s, id, agents) == QueuesFor(s, id, [agents[0]]) + QueuesFor(s, id, agents[1..])
  {
    assert agents == [agents[0]] + agents[1..];
  }

  /** Moving on from one recipient to the next leaves to send and to queue what there was. */
  lemma NextRecipient(n: State, id: nat, c: Call, c': Call)
    requires InPlace(c) && c.pc.Next? && c.served < |c.recipients|
    requires c' == c.(pc := CheckOnline(c.recipients[c.served]))
    ensures CallSends(n, id, c') == CallSends(n, id, c) && CallQueues(n, id, c') == CallQueues(n, id, c)
  {
    FirstOf(n, id, c.recipients[c.served..]);
    assert c.recipients[c.served..][1..] == c.recipients[c.served + 1..];
    assert c.recipients[c.served..][0] == c.recipients[c.served];
  }

  /** Being done with a recipient leaves the later ones. */
  lemma LaterIsLater(c: Call, c': Call)
    requires InPlace(c) && InPlace(c') && !c.pc.Next? && !c.pc.Returned? && c'.recipients == c.recipients
    requires (c'.served == c.served && !c'.pc.Next? && !c'.pc.Returned?) || (c'.served == c.served + 1 && c'.pc.Next?)
    ensures Later(c') == Later(c)
  {
  }

  /** A step of a call takes what it sends from what it has to send. */
  lemma StepSends(s: State, n: State, id: nat, order: seq<nat>)
    requires n == Net(s) && id in s.calls && InPlace(s.calls[id])
    requires s.calls[id].pc.Fetch? ==> Enumerates(order, SessionsOf(s, s.calls[id].pc.to))
    ensures var s' := AdvanceCall(s, id, order, true);
      id in s'.calls && InPlace(s'.calls[id]) &&
      s'.accepted + CallSends(n, id, s'.calls[id]) == s.accepted + CallSends(n, id, s.calls[id])
  {
    var c := s.calls[id];
    match c.pc
    case Next => if c.served < |c.recipients| { NextRecipient(n, id, c, AdvanceCall(s, id, order, true).calls[id]); }
    case CheckOnline(to) => CheckSends(s, n, id, order);
    case Fetch(to) => FetchStep(s, n, id, order);
    case Sending(to, _, rest, _) => if rest != [] { OneSends(s, n, id); } else { LastSends(s, n, id, order); }
    case Insert(_) => LaterIsLater(c, Enqueue(s, id, c.pc.to).calls[id]);
    case Returned(_) =>
  }

  lemma CheckSends(s: State, n: State, id: nat, order: seq<nat>)
    requires n == Net(s) && id in s.calls && InPlace(s.calls[id]) && s.calls[id].pc.CheckOnline?
    ensures var s' := AdvanceCall(s, id, order, true);
      && id in s'.calls && InPlace(s'.calls[id]) && s'.accepted == s.accepted
      && CallSends(n, id, s'.calls[id]) == CallSends(n, id, s.calls[id])
      && CallQueues(n, id, s'.calls[id]) == CallQueues(n, id, s.calls[id])
  {
    OfflineSends(n, id, s.calls[id].pc.to);
    OneQueues(n, id, s.calls[id].pc.to);
  }

  lemma FetchStep(s: State, n: State, id: nat, order: seq<nat>)
    requires n == Net(s) && id in s.calls && InPlace(s.calls[id]) && s.calls[id].pc.Fetch?
    requires Enumerates(order, SessionsOf(s, s.calls[id].pc.to))
    ensures var s' := AdvanceCall(s, id, order, true);
      && id in s'.calls && InPlace(s'.calls[id]) && s'.accepted == s.accepted
      && CallSends(n, id, s'.calls[id]) == CallSends(n, id, s.calls[id])
      && CallQueues(n, id, s'.calls[id]) == CallQueues(n, id, s.calls[id])
  {
    var to := s.calls[id].pc.to;
    OfflineSends(n, id, to);
    OneQueues(n, id, to);
    FetchSends(n, id, to, order);
    EmptyOrder(order, SessionsOf(s, to));
  }

  lemma LastSends(s: State, n: State, id: nat, order: seq<nat>)
    requires n == Net(s) && id in s.calls && InPlace(s.calls[id])
    requires s.calls[id].pc.Sending? && s.calls[id].pc.rest == []
    ensures var s' := AdvanceCall(s, id, order, true);
      && id in s'.calls && InPlace(s'.calls[id]) && s'.accepted == s.accepted
      && CallSends(n, id, s'.calls[id]) == CallSends(n, id, s.calls[id])
      && CallQueues(n, id, s'.calls[id]) == CallQueues(n, id, s.calls[id])
  {
    var c, c' := s.calls[id], AdvanceCall(s, id, order, true).calls[id];
    LaterIsLater(c, c');
    assert RestOf(n, Copy(id, c.pc.to), []) == {};
  }

  lemma OneSends(s: State, n: State, id: nat)
    requires n == Net(s) && id in s.calls && InPlace(s.calls[id])
    requires s.calls[id].pc.Sending? && s.calls[id].pc.rest != []
    ensures var s' := SendOne(s, id, true);
      && id in s'.calls && InPlace(s'.calls[id])
      && s'.accepted + CallSends(n, id, s'.calls[id]) == s.accepted + CallSends(n, id, s.calls[id])
      && CallQueues(n, id, s'.calls[id]) == CallQueues(n, id, s.calls[id])
  {
    var c, s' := s.calls[id], SendOne(s, id, true);
    LaterIsLater(c, s'.calls[id]);
    RestSends(n, Copy(id, c.pc.to), c.pc.rest);
  }

  lemma OfflineSends(n: State, id: nat, to: Agent)
    ensures SessionsOf(n, to) == {} ==> SendsTo(n, id, [to]) == {}
  {
  }

  lemma FetchSends(n: State, id: nat, to: Agent, order: seq<nat>)
    requires Enumerates(order, SessionsOf(n, to))
    ensures SendsTo(n, id, [to]) == RestOf(n, Copy(id, to), order)
  {
  }

  lemma RestSends(n: State, copy: Copy, rest: seq<nat>)
    requires rest != []
    ensures RestOf(n, copy, rest)
         == RestOf(n, copy, rest[1..]) + if HasTransport(n, rest[0]) then {(copy, rest[0])} else {}
  {
    assert rest == [rest[0]] + rest[1..];
  }

  /** And what it queues from what it has to queue. */
  lemma StepQueues(s: State, n: State, id: nat, order: seq<nat>, copy: Copy)
    requires n == Net(s) && id in s.calls && InPlace(s.calls[id]) && FreshRows(s)
    requires s.calls[id].pc.Fetch? ==> Enumerates(order, SessionsOf(s, s.calls[id].pc.to))
    ensures var s' := AdvanceCall(s, id, order, true);
      id in s'.calls && InPlace(s'.calls[id]) &&
      (Queued(s', copy) || copy in CallQueues(n, id, s'.calls[id]) <==>
       Queued(s, copy) || copy in CallQueues(n, id, s.calls[id]))
  {
    var c, s' := s.calls[id], AdvanceCall(s, id, order, true);
    if c.pc.Insert? {
      QueuedOneMore(s, s', Copy(id, c.pc.to), copy);
    } else {
      SameRows(s, s', id, order, copy);
      PlanQueues(s, n, id, order);
    }
  }

  lemma SameRows(s: State, s': State, id: nat, order: seq<nat>, copy: Copy)
    requires id in s.calls && InPlace(s.calls[id]) && !s.calls[id].pc.Insert?
    requires s' == AdvanceCall(s, id, order, true)
    ensures s'.pending == s.pending && (Queued(s', copy) <==> Queued(s, copy))
  {
    match s.calls[id].pc
    case Next =>
    case CheckOnline(_) =>
    case Fetch(_) =>
    case Sending(_, _, _, _) =>
    case Returned(_) =>
  }

  lemma PlanQueues(s: State, n: State, id: nat, order: seq<nat>)
    requires n == Net(s) && id in s.calls && InPlace(s.calls[id]) && !s.calls[id].pc.Insert?
    requires s.calls[id].pc.Fetch? ==> Enumerates(order, SessionsOf(s, s.calls[id].pc.to))
    ensures var s' := AdvanceCall(s, id, order, true);
      id in s'.calls && InPlace(s'.calls[id]) &&
      CallQueues(n, id, s'.calls[id]) == CallQueues(n, id, s.calls[id])
  {
    var c := s.calls[id];
    match c.pc
    case Next => if c.served < |c.recipients| { NextRecipient(n, id, c, AdvanceCall(s, id, order, true).calls[id]); }
    case CheckOnline(_) => CheckSends(s, n, id, order);
    case Fetch(_) => FetchStep(s, n, id, order);
    case Sending(_, _, rest, _) => if rest != [] { OneSends(s, n, id); } else { LastSends(s, n, id, order); }
    case Returned(_) =>
  }

  lemma OneQueues(n: State, id: nat, to: Agent)
    ensures QueuesFor(n, id, [to]) == if SessionsOf(n, to) == {} then {Copy(id, to)} else {}
  {
  }

  lemma EmptyOrder(order: seq<nat>, xs: set<nat>)
    requires Enumerates(order, xs)
    ensures order == [] <==> xs == {}
  {
    if order != [] { assert order[0] in order; }
  }

  lemma QueuedOneMore(s: State, s': State, new_: Copy, copy: Copy)
    requires FreshRows(s) && s'.pending == s.pending[s.nextRow := new_]
    ensures Queued(s', copy) <==> Queued(s, copy) || copy == new_
  {
    assert s'.pending[s.nextRow] == new_;
    if Queued(s, copy) {
      var r :| r in s.pending && s.pending[r] == copy;
      assert r in s'.pending && s'.pending[r] == copy;
    }
  }

  /** From every state any call can run to its end by its own steps alone. It then returns nil, unless it has
      returned an error before; every session of a recipient that can take the copy has taken it, and the
      copies of just those without a session, or with a failed send, are in the queue. */
  lemma {:induction false} EveryCallCanReturn(s: State, id: nat) returns (steps: seq<Step>)
    requires id in s.calls && InPlace(s.calls[id]) && FreshRows(s)
    ensures forall step | step in steps :: step.CallStep? && step.call == id
    ensures var s', c := Run(s, steps), s.calls[id];
      && id in s'.calls && s'.calls[id].pc == (if c.pc.Returned? then c.pc else Returned(true))
      && s'.accepted == s.accepted + CallSends(Net(s), id, c)
      && (forall copy :: Queued(s', copy) <==> Queued(s, copy) || copy in CallQueues(Net(s), id, c))
    decreases |s.calls[id].recipients| - s.calls[id].served, CallRank(s.calls[id]), CallRest(s.calls[id])
  {
    steps := [];
    var c := s.calls[id];
    if !c.pc.Returned? {
      var order := [];
      if c.pc.Fetch? {
        order := AnOrder(SessionsOf(s, c.pc.to));
      }
      CallProgress(s, id, order);
      CallFrame(s, id, order);
      StepSends(s, Net(s), id, order);
      var step := CallStep(id, order, true);
      var s1 := Apply(s, step);
      assert Net(s1) == Net(s);
      var more := EveryCallCanReturn(s1, id);
      RunOne(s, step, more);
      steps := [step] + more;
      forall copy
        ensures Queued(Run(s, steps), copy) <==> Queued(s, copy) || copy in CallQueues(Net(s), id, c)
      {
        StepQueues(s, Net(s), id, order, copy);
      }
    }
  }

  /** Whatever has gone before, a new call by itself brings everybody's copy to all sessions that can take it and
      queues the copies of just those who have no session. */
  lemma {:induction false} NewCallServesAll(s: State, id: nat, kind: Kind, recipients: seq<Agent>)
    returns (steps: seq<Step>)
    requires id !in s.calls && NoDup(recipients) && (kind == Direct ==> |recipients| == 1) && FreshRows(s)
    ensures steps != [] && steps[0] == StartCall(id, kind, recipients)
    ensures forall step | step in steps[1..] :: step.CallStep? && step.call == id
    ensures var s' := Run(s, steps);
      && id in s'.calls && s'.calls[id].pc == Returned(true)
      && (forall copy, x :: (copy, x) in s'.accepted <==>
            (copy, x) in s.accepted ||
            (copy.call == id && copy.to in recipients && x in SessionsOf(s, copy.to) && HasTransport(s, x)))
      && (forall copy :: Queued(s', copy) <==>
            Queued(s, copy) || (copy.call == id && copy.to in recipients && SessionsOf(s, copy.to) == {}))
  {
    var step := StartCall(id, kind, recipients);
    var s1 := Apply(s, step);
    var more := EveryCallCanReturn(s1, id);
    steps := [step] + more;
    RunOne(s, step, more);
    assert Net(s1) == Net(s);
    forall copy ensures Queued(s1, copy) <==> Queued(s, copy) {
      assert s1.pending == s.pending;
    }
    NewCallPlans(Net(s), id, s1.calls[id]);
    assert forall a :: SessionsOf(Net(s), a) == SessionsOf(s, a);
  }

  lemma NewCallPlans(n: State, id: nat, c: Call)
    requires c.pc.Next? && c.served == 0
    ensures forall copy, x :: (copy, x) in CallSends(n, id, c) <==>
      copy.call == id && copy.to in c.recipients && x in SessionsOf(n, copy.to) && HasTransport(n, x)
    ensures forall copy :: copy in CallQueues(n, id, c) <==>
      copy.call == id && copy.to in c.recipients && SessionsOf(n, copy.to) == {}
  {
    assert c.recipients[0..] == c.recipients;
    forall copy: Copy ensures copy == Copy(copy.call, copy.to) {
    }
  }

  ghost predicate NoFanOutFailed(s: State) {
    forall id | id in s.calls && s.calls[id].kind == FanOut :: s.calls[id].pc != Returned(false)
  }

  /** Whatever fails, a fan-out never reports an error. */
  lemma {:induction false} FanOutsReturnNil(s: State, steps: seq<Step>)
    requires NoFanOutFailed(s)
    ensures NoFanOutFailed(Run(s, steps))
    decreases |steps|
  {
    if steps != [] {
      StepReturnsNil(s, steps[0]);
      FanOutsReturnNil(Apply(s, steps[0]), steps[1..]);
    }
  }

  lemma StepReturnsNil(s: State, step: Step)
    requires NoFanOutFailed(s)
    ensures NoFanOutFailed(Apply(s, step))
  {
    match step
    case CallStep(id, order, ok) =>
      if id in s.calls && InPlace(s.calls[id]) {
        CallMovesAlone(s, id, order, ok);
        if s.calls[id].pc != Returned(false) { FanOutStep(s, id, order, ok); }
      }
    case DrainStep(id, order, ok) => if id in s.drains { AdvanceDrainFrame(s, id, order, ok); }
    case _ =>
  }

  lemma CallMovesAlone(s: State, id: nat, order: seq<nat>, ok: bool)
    requires id in s.calls && InPlace(s.calls[id])
    ensures var s' := AdvanceCall(s, id, order, ok);
      id in s'.calls && s'.calls == s.calls[id := s'.calls[id]] &&
      (s.calls[id].pc.Returned? ==> s'.calls[id] == s.calls[id])
  {
    AdvanceCallMoves(s, id, order, ok);
  }

  lemma FanOutStep(s: State, id: nat, order: seq<nat>, ok: bool)
    requires id in s.calls && InPlace(s.calls[id]) && s.calls[id].pc != Returned(false)
    ensures var s' := AdvanceCall(s, id, order, ok);
      id in s'.calls && s'.calls[id].kind == s.calls[id].kind &&
      (s.calls[id].kind == FanOut ==> s'.calls[id].pc != Returned(false))
  {
    match s.calls[id].pc
    case Next =>
    case CheckOnline(_) =>
    case Fetch(_) =>
    case Sending(_, _, _, _) =>
    case Insert(_) =>
    case Returned(_) =>
  }

  // ---------- drains ----------

  function DrainRank(d: Drain): nat {
    match d.pc
    case NextRow => 4
    case FetchFor(_) => 3
    case SendingRow(_, _, _, _) => 2
    case Deleting => 1
    case Done(_) => 0
  }

  /** What a drain will report if nothing fails from here on. */
  function Prospect(d: Drain): nat {
    match d.pc
    case NextRow => d.delivered + |d.left|
    case FetchFor(_) => d.delivered + 1 + |d.left|
    case SendingRow(_, _, _, failed) => d.delivered + if failed then 0 else 1 + |d.left|
    case Deleting => d.delivered
    case Done(n) => n
  }

  /** What a drain has to do, first of all and then less and less important. */
  function DrainPhase(d: Drain): nat {
    if d.pc.Deleting? || d.pc.Done? then 0 else 1
  }

  function DrainLeft(d: Drain): nat {
    |d.left| + if d.pc.FetchFor? || d.pc.SendingRow? then 1 else 0
  }

  function DrainRest(d: Drain): nat {
    |d.sent| + if d.pc.SendingRow? then |d.pc.rest| else 0
  }

  ghost predicate Closer(d': Drain, d: Drain) {
    || DrainPhase(d') < DrainPhase(d)
    || (DrainPhase(d') == DrainPhase(d) &&
        (DrainLeft(d') < DrainLeft(d) ||
         (DrainLeft(d') == DrainLeft(d) &&
          (DrainRank(d') < DrainRank(d) || (DrainRank(d') == DrainRank(d) && DrainRest(d') < DrainRest(d))))))
  }

  /** So with a drain. */
  lemma DrainProgress(s: State, id: nat, order: seq<nat>)
    requires id in s.drains && !s.drains[id].pc.Done?
    requires s.drains[id].pc.FetchFor? ==> Enumerates(order, SessionsOf(s, s.drains[id].agent))
    ensures var s' := Apply(s, DrainStep(id, order, true));
      id in s'.drains && s'.drains[id].agent == s.drains[id].agent && Closer(s'.drains[id], s.drains[id])
  {
    match s.drains[id].pc
    case NextRow =>
    case FetchFor(_) =>
    case SendingRow(_, _, _, _) =>
    case Deleting =>
  }

  /** With a session of its agent it keeps its prospect. */
  lemma DrainKeepsProspect(s: State, id: nat, order: seq<nat>)
    requires id in s.drains && SessionsOf(s, s.drains[id].agent) != {}
    requires s.drains[id].pc.FetchFor? ==> Enumerates(order, SessionsOf(s, s.drains[id].agent))
    ensures var s' := Apply(s, DrainStep(id, order, true));
      id in s'.drains && Prospect(s'.drains[id]) == Prospect(s.drains[id])
  {
    match s.drains[id].pc
    case NextRow =>
    case FetchFor(_) =>
    case SendingRow(_, _, _, _) =>
    case Deleting =>
    case Done(_) =>
  }

  function Ids(rows: seq<Row>): set<nat> {
    set r | r in rows :: r.id
  }

  /** The rows a drain will have deleted if nothing fails from here on. */
  function Due(d: Drain, online: bool): set<nat> {
    match d.pc
    case NextRow => Ids(d.sent) + if online then Ids(d.left) else {}
    case FetchFor(row) => Ids(d.sent) + if online then {row.id} + Ids(d.left) else {}
    case SendingRow(row, _, _, failed) =>
      Ids(d.sent) + (if failed then {} else {row.id}) + if online && !failed then Ids(d.left) else {}
    case Deleting => Ids(d.sent)
    case Done(_) => {}
  }

  function CopiesFor(rows: seq<Row>, takers: set<nat>): set<(Copy, nat)> {
    set r, x | r in rows && x in takers :: (r.copy, x)
  }

  /** What it will have sent: every row to all sessions of the agent that can take it. */
  function DrainSends(s: State, d: Drain): set<(Copy, nat)> {
    match d.pc
    case NextRow => CopiesFor(d.left, Takers(s, d.agent))
    case FetchFor(row) => CopiesFor([row] + d.left, Takers(s, d.agent))
    case SendingRow(row, _, rest, failed) =>
      RestOf(s, row.copy, rest) + if failed then {} else CopiesFor(d.left, Takers(s, d.agent))
    case _ => {}
  }

  lemma FirstRow(rows: seq<Row>, takers: set<nat>)
    requires rows != []
    ensures Ids(rows) == {rows[0].id} + Ids(rows[1..])
    ensures CopiesFor(rows, takers) == CopiesFor([rows[0]] + rows[1..], takers)
  {
    assert rows == [rows[0]] + rows[1..];
  }

  lemma LastRow(rows: seq<Row>, row: Row)
    ensures Ids(rows + [row]) == Ids(rows) + {row.id}
  {
  }

  /** A step of a drain deletes from what is due. */
  lemma StepDeletes(s: State, id: nat, order: seq<nat>)
    requires id in s.drains && !s.drains[id].pc.Done?
    requires s.drains[id].pc.FetchFor? ==> Enumerates(order, SessionsOf(s, s.drains[id].agent))
    ensures var s' := AdvanceDrain(s, id, order, true);
      var online := SessionsOf(s, s.drains[id].agent) != {};
      id in s'.drains && s'.pending - Due(s'.drains[id], online) == s.pending - Due(s.drains[id], online)
  {
    var d, online := s.drains[id], SessionsOf(s, s.drains[id].agent) != {};
    if d.pc.SendingRow? && d.pc.rest != [] {
    } else if d.pc.SendingRow? && !d.pc.failed {
      LastRow(d.sent, d.pc.row);
    } else if d.pc.Deleting? && d.sent != [] {
      FirstRow(d.sent, {});
      Without(s.pending, d.sent[0].id, Ids(d.sent[1..]));
    } else {
      NextDue(s, d, order);
    }
  }

  lemma NextDue(s: State, d: Drain, order: seq<nat>)
    requires d.pc.FetchFor? ==> Enumerates(order, SessionsOf(s, d.agent))
    requires (d.pc.SendingRow? ==> d.pc.failed) && (d.pc.Deleting? ==> d.sent == [])
    ensures var online := SessionsOf(s, d.agent) != {}; Due(NextOf(s, d, order, true), online) == Due(d, online)
  {
    if d.pc.NextRow? && d.left != [] { FirstRow(d.left, {}); }
    if d.pc.FetchFor? { EmptyOrder(order, SessionsOf(s, d.agent)); }
  }

  lemma Without(pending: map<nat, Copy>, x: nat, ids: set<nat>)
    ensures pending - {x} - ids == pending - ({x} + ids)
  {
  }

  /** And sends from what it has to send. */
  lemma StepDelivers(s: State, n: State, id: nat, order: seq<nat>)
    requires n == Net(s) && id in s.drains && !s.drains[id].pc.Done?
    requires s.drains[id].pc.FetchFor? ==> Enumerates(order, SessionsOf(s, s.drains[id].agent))
    ensures var s' := AdvanceDrain(s, id, order, true);
      id in s'.drains && s'.accepted + DrainSends(n, s'.drains[id]) == s.accepted + DrainSends(n, s.drains[id])
  {
    var d := s.drains[id];
    if d.pc.SendingRow? && d.pc.rest != [] {
      RestSends(n, d.pc.row.copy, d.pc.rest);
    } else if d.pc.SendingRow? && !d.pc.failed {
      assert RestOf(n, d.pc.row.copy, []) == {};
    } else if d.pc.Deleting? && d.sent != [] {
    } else {
      NextDelivers(s, n, d, order);
    }
  }

  lemma NextDelivers(s: State, n: State, d: Drain, order: seq<nat>)
    requires n == Net(s)
    requires d.pc.FetchFor? ==> Enumerates(order, SessionsOf(s, d.agent))
    requires d.pc.SendingRow? ==> d.pc.rest == [] && d.pc.failed
    ensures DrainSends(n, NextOf(s, d, order, true)) == DrainSends(n, d)
  {
    match d.pc
    case NextRow => if d.left != [] { FirstRow(d.left, Takers(n, d.agent)); }
    case FetchFor(row) => FetchDelivers(n, d.agent, row, d.left, order);
    case SendingRow(row, _, _, _) => assert RestOf(n, row.copy, []) == {};
    case _ =>
  }

  lemma FirstCopies(row: Row, left: seq<Row>, takers: set<nat>)
    ensures CopiesFor([row] + left, takers) == CopiesFor([row], takers) + CopiesFor(left, takers)
  {
    assert forall r :: r in [row] + left <==> r in [row] || r in left;
  }

  lemma OneRow(row: Row, takers: set<nat>)
    ensures CopiesFor([row], takers) == set x | x in takers :: (row.copy, x)
  {
    assert row in [row];
    assert forall r :: r in [row] <==> r == row;
  }

  lemma RestIsTakers(s: State, agent: Agent, copy: Copy, order: seq<nat>)
    requires Enumerates(order, SessionsOf(s, agent))
    ensures RestOf(s, copy, order) == set x | x in Takers(s, agent) :: (copy, x)
  {
    assert forall x :: x in Takers(s, agent) <==> x in order && HasTransport(s, x);
  }

  lemma FetchDelivers(s: State, agent: Agent, row: Row, left: seq<Row>, order: seq<nat>)
    requires Enumerates(order, SessionsOf(s, agent))
    ensures CopiesFor([row] + left, Takers(s, agent))
         == RestOf(s, row.copy, order) + CopiesFor(left, Takers(s, agent))
    ensures order == [] ==> CopiesFor([row] + left, Takers(s, agent)) == {}
  {
    FirstCopies(row, left, Takers(s, agent));
    OneRow(row, Takers(s, agent));
    RestIsTakers(s, agent, row.copy, order);
    EmptyOrder(order, SessionsOf(s, agent));
  }

  /** So can any drain. If nothing fails, the rows it has sent, before and on the way, leave the queue and no
      other row does, and each of those on the way goes to every session of the agent that can take it. If the
      agent has a session, these are all the rows it has not passed, and it reports them. */
  lemma {:induction false} EveryDrainCanFinish(s: State, id: nat) returns (steps: seq<Step>)
    requires id in s.drains
    ensures forall step | step in steps :: step.DrainStep? && step.drain == id
    ensures var s', d := Run(s, steps), s.drains[id];
      && id in s'.drains && s'.drains[id].pc.Done?
      && (SessionsOf(s, d.agent) != {} ==> s'.drains[id].pc.delivered == Prospect(d))
      && s'.pending == s.pending - Due(d, SessionsOf(s, d.agent) != {})
      && s'.accepted == s.accepted + DrainSends(Net(s), d)
    decreases DrainPhase(s.drains[id]), DrainLeft(s.drains[id]), DrainRank(s.drains[id]), DrainRest(s.drains[id])
  {
    steps := [];
    var d := s.drains[id];
    if d.pc.Done? {
      assert s.pending - {} == s.pending;
    } else {
      var order := [];
      if d.pc.FetchFor? {
        order := AnOrder(SessionsOf(s, d.agent));
      }
      DrainProgress(s, id, order);
      if SessionsOf(s, d.agent) != {} {
        DrainKeepsProspect(s, id, order);
      }
      AdvanceDrainFrame(s, id, order, true);
      StepDeletes(s, id, order);
      StepDelivers(s, Net(s), id, order);
      var step := DrainStep(id, order, true);
      var s' := Apply(s, step);
      assert Net(s') == Net(s);
      var more := EveryDrainCanFinish(s', id);
      RunOne(s, step, more);
      steps := [step] + more;
    }
  }

  /** Whatever has gone before, a new drain of an agent that is online by itself empties its queue, reports all of
      it, and brings every copy to all sessions that can take it. Of an agent that is not it moves nothing. */
  lemma {:induction false} NewDrainMovesAll(s: State, id: nat, agent: Agent) returns (steps: seq<Step>)
    requires id !in s.drains
    ensures steps != [] && steps[0].StartDrain? && steps[0].drain == id && steps[0].agent == agent
    ensures forall step | step in steps[1..] :: step.DrainStep? && step.drain == id
    ensures var s', online := Run(s, steps), SessionsOf(s, agent) != {};
      && id in s'.drains && s'.drains[id].pc.Done?
      && (online ==> s'.drains[id].pc.delivered == |RowsOf(s, agent)|)
      && s'.pending == s.pending - (if online then RowsOf(s, agent) else {})
      && (forall copy, x :: (copy, x) in s'.accepted <==>
            (copy, x) in s.accepted ||
            (copy.to == agent && Queued(s, copy) && x in SessionsOf(s, agent) && HasTransport(s, x)))
  {
    var order := AnOrder(RowsOf(s, agent));
    var step := StartDrain(id, agent, order);
    var s1 := Apply(s, step);
    var more := EveryDrainCanFinish(s1, id);
    steps := [step] + more;
    RunOne(s, step, more);
    FetchedIds(s, agent, order);
    AllFetchedSend(s, agent, order);
    assert Net(s1) == Net(s);
    assert Ids([]) == {};
    assert SessionsOf(s1, agent) == SessionsOf(s, agent);
    EnumerationSize(order, RowsOf(s, agent));
  }

  lemma FetchedAre(s: State, agent: Agent, order: seq<nat>, row: Row)
    requires Enumerates(order, RowsOf(s, agent))
    ensures row in Fetched(s, order) <==> row.id in RowsOf(s, agent) && row.copy == s.pending[row.id]
  {
    var rows := Fetched(s, order);
    if row in rows {
      var i :| 0 <= i < |rows| && rows[i] == row;
      assert order[i] in order;
    }
    if row.id in RowsOf(s, agent) && row.copy == s.pending[row.id] {
      var i :| 0 <= i < |order| && order[i] == row.id;
      assert rows[i] == row;
    }
  }

  lemma FetchedIds(s: State, agent: Agent, order: seq<nat>)
    requires Enumerates(order, RowsOf(s, agent))
    ensures Ids(Fetched(s, order)) == RowsOf(s, agent)
  {
    forall r | r in Ids(Fetched(s, order)) ensures r in RowsOf(s, agent) {
      var row :| row in Fetched(s, order) && row.id == r;
      FetchedAre(s, agent, order, row);
    }
    forall r | r in RowsOf(s, agent) ensures r in Ids(Fetched(s, order)) {
      var row := Row(r, s.pending[r]);
      FetchedAre(s, agent, order, row);
      assert row.id == r;
    }
  }

  lemma FetchedSends(s: State, agent: Agent, order: seq<nat>, copy: Copy, x: nat)
    requires Enumerates(order, RowsOf(s, agent))
    ensures (copy, x) in CopiesFor(Fetched(s, order), Takers(Net(s), agent)) <==>
      copy.to == agent && Queued(s, copy) && x in SessionsOf(s, agent) && HasTransport(s, x)
  {
    var rows, takers := Fetched(s, order), Takers(Net(s), agent);
    assert x in takers <==> x in SessionsOf(s, agent) && HasTransport(s, x);
    if (copy, x) in CopiesFor(rows, takers) {
      var row :| row in rows && (row.copy, x) == (copy, x);
      FetchedAre(s, agent, order, row);
      assert s.pending[row.id] == copy;
    }
    if copy.to == agent && Queued(s, copy) && x in takers {
      var r :| r in s.pending && s.pending[r] == copy;
      var row := Row(r, copy);
      FetchedAre(s, agent, order, row);
      assert (row.copy, x) in CopiesFor(rows, takers);
    }
  }

  lemma AllFetchedSend(s: State, agent: Agent, order: seq<nat>)
    requires Enumerates(order, RowsOf(s, agent))
    ensures forall copy, x :: (copy, x) in CopiesFor(Fetched(s, order), Takers(Net(s), agent)) <==>
      copy.to == agent && Queued(s, copy) && x in SessionsOf(s, agent) && HasTransport(s, x)
  {
    forall copy: Copy, x: nat
      ensures (copy, x) in CopiesFor(Fetched(s, order), Takers(Net(s), agent)) <==>
        copy.to == agent && Queued(s, copy) && x in SessionsOf(s, agent) && HasTransport(s, x)
    {
      FetchedSends(s, agent, order, copy, x);
    }
  }

  lemma {:induction false} EnumerationSize(order: seq<nat>, xs: set<nat>)
    requires Enumerates(order, xs)
    ensures |order| == |xs|
    decreases |order|
  {
    EmptyOrder(order, xs);
    if order != [] {
      assert order == [order[0]] + order[1..];
      EnumerationSize(order[1..], xs - {order[0]});
    }
  }

  /** Which sessions an agent has behind a step, and which of them can take something. */
  lemma SessionsExactlyWhen(s: State, step: Step, agent: Agent, x: nat)
    ensures var s' := Apply(s, step);
      && (x in SessionsOf(s', agent) <==>
            (step.OpenSession? && step.session == x && step.agent == agent && x !in s.known) ||
            (x in SessionsOf(s, agent) && !(step.DropSessions? && x in step.sessions)))
      && (x !in s.known ==> (HasTransport(s', x) <==> step.OpenSession? && step.session == x && step.hasTransport))
      && (x in s.known ==> (HasTransport(s', x) <==> HasTransport(s, x)))
  {
  }

  // ---------- what a drain has counted is gone ----------

  /** None of the drain's DELETE statements fails. */
  predicate DeletesSucceed(s: State, steps: seq<Step>, id: nat)
    decreases |steps|
  {
    steps == [] ||
    ((steps[0].DrainStep? && steps[0].drain == id && id in s.drains && s.drains[id].pc.Deleting? ==> steps[0].ok) &&
     DeletesSucceed(Apply(s, steps[0]), steps[1..], id))
  }

  /** The row the drain is at. */
  function AtHand(d: Drain): seq<Row> {
    match d.pc
    case FetchFor(row) => [row]
    case SendingRow(row, _, _, _) => [row]
    case _ => []
  }

  ghost predicate DifferentRows(rows: seq<Row>) {
    forall i, j | 0 <= i < j < |rows| :: rows[i].id != rows[j].id
  }

  ghost predicate Old(s: State, rows: seq<Row>) {
    forall r | r in rows :: r.id < s.nextRow
  }

  /** What the drain has counted are as many different rows as it says, each deleted or still to delete. */
  ghost predicate CountInv(s: State, d: Drain) {
    && |d.counted| == d.delivered && DifferentRows(d.counted + AtHand(d) + d.left)
    && Old(s, d.counted + AtHand(d) + d.left)
    && (forall r | r in d.counted :: r in d.sent || r.id !in s.pending)
    && (d.pc.Done? ==> d.sent == [] && d.pc.delivered == d.delivered)
  }

  lemma CountKept(s: State, s': State, d: Drain)
    requires CountInv(s, d) && s.nextRow <= s'.nextRow
    requires forall r | r in s'.pending && r !in s.pending :: s.nextRow <= r
    ensures CountInv(s', d)
  {
    forall r | r in d.counted ensures r in d.sent || r.id !in s'.pending {
      assert r in d.counted + AtHand(d) + d.left;
    }
  }

  lemma PassCounts(s: State, id: nat)
    requires id in s.drains && CountInv(s, s.drains[id]) && s.drains[id].pc.SendingRow?
    ensures CountInv(PassRow(s, id), PassRow(s, id).drains[id])
  {
    var d, d' := s.drains[id], PassRow(s, id).drains[id];
    assert d'.counted + AtHand(d') + d'.left == d.counted + AtHand(d) + d.left;
  }

  lemma DeleteCounts(s: State, id: nat)
    requires id in s.drains && CountInv(s, s.drains[id]) && s.drains[id].pc.Deleting? && s.drains[id].sent != []
    ensures CountInv(DeleteNext(s, id, true), DeleteNext(s, id, true).drains[id])
  {
    var d, s' := s.drains[id], DeleteNext(s, id, true);
    assert d.sent == [d.sent[0]] + d.sent[1..];
  }

  lemma NextCounts(s: State, d: Drain, order: seq<nat>, ok: bool)
    requires CountInv(s, d)
    requires d.pc.SendingRow? ==> d.pc.failed
    requires d.pc.Deleting? ==> d.sent == []
    ensures CountInv(s, NextOf(s, d, order, ok))
  {
    var d' := NextOf(s, d, order, ok);
    match d.pc
    case NextRow =>
      if d.left != [] {
        assert d.left == [d.left[0]] + d.left[1..];
        assert d.counted + AtHand(d) + d.left == d.counted + [d.left[0]] + d.left[1..];
        Skipping(s, d.counted, d.left[0], d.left[1..]);
        assert d.counted + [] + d.left[1..] == d.counted + d.left[1..];
      }
    case FetchFor(row) => Skipping(s, d.counted, row, d.left);
      assert d.counted + [] + d.left == d.counted + d.left;
    case SendingRow(row, _, _, _) => Skipping(s, d.counted, row, d.left);
      assert d.counted + [] + d.left == d.counted + d.left;
    case Deleting =>
    case Done(_) =>
  }

  lemma Skipping(s: State, front: seq<Row>, row: Row, back: seq<Row>)
    requires DifferentRows(front + [row] + back) && Old(s, front + [row] + back)
    ensures DifferentRows(front + back) && Old(s, front + back)
  {
    var all, rest := front + [row] + back, front + back;
    forall i, j | 0 <= i < j < |rest| ensures rest[i].id != rest[j].id {
      var n := |front|;
      assert rest[i] == all[if i < n then i else i + 1] && rest[j] == all[if j < n then j else j + 1];
    }
  }

  lemma DrainCounts(s: State, id: nat, order: seq<nat>, ok: bool)
    requires id in s.drains && CountInv(s, s.drains[id])
    requires s.drains[id].pc.Deleting? ==> ok
    ensures var s' := AdvanceDrain(s, id, order, ok); id in s'.drains && CountInv(s', s'.drains[id])
  {
    var d, s' := s.drains[id], AdvanceDrain(s, id, order, ok);
    if d.pc.SendingRow? && d.pc.rest != [] {
      var d' := s'.drains[id];
      assert d'.counted + AtHand(d') + d'.left == d.counted + AtHand(d) + d.left;
    } else if d.pc.SendingRow? && !d.pc.failed {
      PassCounts(s, id);
    } else if d.pc.Deleting? && d.sent != [] {
      DeleteCounts(s, id);
    } else {
      NextCounts(s, d, order, ok);
      CountKept(s, s', NextOf(s, d, order, ok));
    }
  }

  lemma FetchCounts(s: State, agent: Agent, order: seq<nat>)
    requires FreshRows(s) && Enumerates(order, RowsOf(s, agent))
    ensures CountInv(s, Drain(agent, Fetched(s, order), [], [], 0, NextRow))
  {
    var rows := Fetched(s, order);
    assert [] + [] + rows == rows;
    FetchedAreOld(s, agent, order);
  }

  lemma FetchedAreOld(s: State, agent: Agent, order: seq<nat>)
    requires FreshRows(s) && Enumerates(order, RowsOf(s, agent))
    ensures DifferentRows(Fetched(s, order)) && Old(s, Fetched(s, order))
  {
    var rows := Fetched(s, order);
    forall r | r in rows ensures r.id < s.nextRow {
      var i :| 0 <= i < |rows| && rows[i] == r;
      assert order[i] in order;
    }
  }

  lemma StepCounts(s: State, step: Step, id: nat)
    requires Inv(s) && (id in s.drains ==> CountInv(s, s.drains[id]))
    requires step.DrainStep? && step.drain == id && id in s.drains && s.drains[id].pc.Deleting? ==> step.ok
    ensures var s' := Apply(s, step); id in s'.drains ==> CountInv(s', s'.drains[id])
  {
    var s' := Apply(s, step);
    if step.DrainStep? && step.drain == id {
      if id in s.drains { DrainCounts(s, id, step.order, step.ok); }
    } else if step.StartDrain? && step.drain == id {
      if id !in s.drains && id in s'.drains {
        FetchCounts(s, step.agent, step.order);
        CountKept(s, s', s'.drains[id]);
      }
    } else {
      RowsGrow(s, step);
      OtherDrains(s, step, id);
      if id in s.drains { CountKept(s, s', s.drains[id]); }
    }
  }

  /** Ids of rows are never used again. */
  lemma RowsGrow(s: State, step: Step)
    ensures var s' := Apply(s, step);
      s.nextRow <= s'.nextRow && (forall r | r in s'.pending && r !in s.pending :: s.nextRow <= r)
  {
    match step
    case CallStep(id, order, ok) =>
      if id in s.calls && InPlace(s.calls[id]) { CallGrows(s, id, order, ok); }
    case DrainStep(id, order, ok) => if id in s.drains { DrainShrinks(s, id, order, ok); }
    case _ =>
  }

  lemma DrainShrinks(s: State, id: nat, order: seq<nat>, ok: bool)
    requires id in s.drains
    ensures var s' := AdvanceDrain(s, id, order, ok);
      s'.nextRow == s.nextRow && forall r | r in s'.pending :: r in s.pending
  {
    match s.drains[id].pc
    case NextRow =>
    case FetchFor(_) =>
    case SendingRow(_, _, _, _) =>
    case Deleting =>
    case Done(_) =>
  }

  /** Only its own steps start and move a drain. */
  lemma OtherDrains(s: State, step: Step, id: nat)
    requires !(step.DrainStep? && step.drain == id) && !(step.StartDrain? && step.drain == id)
    ensures var s' := Apply(s, step);
      (id in s'.drains <==> id in s.drains) && (id in s.drains ==> s'.drains[id] == s.drains[id])
  {
    match step
    case CallStep(i, order, ok) => if i in s.calls && InPlace(s.calls[i]) { CallGrows(s, i, order, ok); }
    case DrainStep(i, order, ok) => if i in s.drains { AdvanceDrainMoves(s, i, order, ok); }
    case _ =>
  }

  lemma CallGrows(s: State, id: nat, order: seq<nat>, ok: bool)
    requires id in s.calls && InPlace(s.calls[id])
    ensures var s' := AdvanceCall(s, id, order, ok);
      && s.nextRow <= s'.nextRow && s'.drains == s.drains
      && (forall r | r in s'.pending && r !in s.pending :: s.nextRow <= r)
  {
    match s.calls[id].pc
    case Next =>
    case CheckOnline(_) =>
    case Fetch(_) =>
    case Sending(_, _, _, _) =>
    case Insert(_) =>
    case Returned(_) =>
  }

  lemma {:induction false} RunCounts(s: State, steps: seq<Step>, id: nat)
    requires Inv(s) && (id in s.drains ==> CountInv(s, s.drains[id])) && DeletesSucceed(s, steps, id)
    ensures var s' := Run(s, steps); id in s'.drains ==> CountInv(s', s'.drains[id])
    decreases |steps|
  {
    if steps != [] {
      StepKeepsInv(s, steps[0]);
      StepCounts(s, steps[0], id);
      RunCounts(Apply(s, steps[0]), steps[1..], id);
    }
  }

  /** In every run, a finished drain none of whose DELETE statements has failed has counted as many different
      rows as it reports, and all of them are gone from the queue. */
  lemma {:induction false} CountedRowsAreGone(steps: seq<Step>, id: nat)
    requires DeletesSucceed(INIT, steps, id)
    requires id in Run(INIT, steps).drains && Run(INIT, steps).drains[id].pc.Done?
    ensures var s, d := Run(INIT, steps), Run(INIT, steps).drains[id];
      && |d.counted| == d.pc.delivered && DifferentRows(d.counted)
      && forall r | r in d.counted :: r.id !in s.pending
  {
    InitHolds();
    RunCounts(INIT, steps, id);
    var d := Run(INIT, steps).drains[id];
    forall i, j | 0 <= i < j < |d.counted| ensures d.counted[i].id != d.counted[j].id {
      var all := d.counted + AtHand(d) + d.left;
      assert all[i] == d.counted[i] && all[j] == d.counted[j];
    }
  }

  // ---------- a failed send ends a drain ----------

  predicate Stopped(d: Drain) {
    d.pc.Deleting? || d.pc.Done? || (d.pc.SendingRow? && d.pc.failed)
  }

  lemma StoppedStep(s: State, step: Step, id: nat)
    requires id in s.drains && Stopped(s.drains[id])
    ensures var s' := Apply(s, step);
      && id in s'.drains && Stopped(s'.drains[id]) && s'.drains[id].left == s.drains[id].left
      && s'.drains[id].counted == s.drains[id].counted && s'.drains[id].delivered == s.drains[id].delivered
  {
    if step.DrainStep? && step.drain == id {
      StoppedMoves(s, id, step.order, step.ok);
    } else if !(step.StartDrain? && step.drain == id) {
      OtherDrains(s, step, id);
    }
  }

  lemma StoppedMoves(s: State, id: nat, order: seq<nat>, ok: bool)
    requires id in s.drains && Stopped(s.drains[id])
    ensures var d, s' := s.drains[id], AdvanceDrain(s, id, order, ok);
      id in s'.drains && Stopped(s'.drains[id]) &&
      var d' := s'.drains[id]; d'.left == d.left && d'.counted == d.counted && d'.delivered == d.delivered
  {
    match s.drains[id].pc
    case SendingRow(_, _, _, _) =>
    case Deleting =>
    case Done(_) =>
  }

  /** Whatever happens, a drain takes up no further row once a send of it has failed. */
  lemma {:induction false} FailedDrainStops(s: State, steps: seq<Step>, id: nat)
    requires id in s.drains && Stopped(s.drains[id])
    ensures var s' := Run(s, steps);
      && id in s'.drains && s'.drains[id].left == s.drains[id].left
      && s'.drains[id].counted == s.drains[id].counted && s'.drains[id].delivered == s.drains[id].delivered
    decreases |steps|
  {
    if steps != [] {
      StoppedStep(s, steps[0], id);
      FailedDrainStops(Apply(s, steps[0]), steps[1..], id);
    }
  }
}
