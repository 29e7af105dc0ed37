// The approval queue: every request waits, with a channel of one place, until somebody approves or
// denies it.
module Approval {

  datatype Verdict = Approved | Denied

  datatype Status = Waiting | Resolved(verdict: Verdict)

  // ---------- all runs ----------

  /** A waiter's channel, with what its reader has received. */
  datatype Channel = Channel(buffer: seq<Verdict>, received: seq<Verdict>, closed: bool)

  const CAPACITY := 1

  /** Blocked records a send under the lock that finds no place, panicked a send or close after close. */
  datatype State = State(
    pending: set<nat>,
    waiters: set<nat>,
    requests: map<nat, Status>,        // every request ever submitted
    channels: map<nat, Channel>,
    blocked: bool,
    panicked: bool)

  datatype Step =
    | Submit(id: nat)
    | Resolve(id: nat, verdict: Verdict)
    | Receive(id: nat)

  const INIT := State({}, {}, map[], map[], false, false)

  /** The send and the close of resolve. */
  function Answer(s: State, id: nat, verdict: Verdict): State {
    if id !in s.waiters || id !in s.channels then s
    else
      var c := s.channels[id];
      if c.closed then s.(panicked := true)
      else if |c.buffer| >= CAPACITY then s.(blocked := true)
      else
        s.(channels := s.channels[id := c.(buffer := c.buffer + [verdict], closed := true)],
           waiters := s.waiters - {id})
  }

  /** Whether resolve finds the request. */
  predicate Finds(s: State, step: Step) {
    step.Resolve? && step.id in s.pending
  }

  function Apply(s: State, step: Step): State {
    match step
    case Submit(id) =>
      if id in s.requests then s
      else s.(pending := s.pending + {id}, waiters := s.waiters + {id},
              requests := s.requests[id := Waiting], channels := s.channels[id := Channel([], [], false)])
    case Resolve(id, verdict) =>
      if id !in s.pending then s
      else
        var s' := Answer(s.(requests := s.requests[id := Resolved(verdict)]), id, verdict);
        s'.(pending := s'.pending - {id})
    case Receive(id) =>
      if id !in s.channels || s.channels[id].buffer == [] then s
      else
        var c := s.channels[id];
        s.(channels := s.channels[id := c.(buffer := c.buffer[1..], received := c.received + [c.buffer[0]])])
  }

  function Run(s: State, steps: seq<Step>): State
    decreases |steps|
  {
    if steps == [] then s else Run(Apply(s, steps[0]), steps[1..])
  }

  /** The verdicts of the resolves of id that did not report not found, in order. */
  function Verdicts(s: State, steps: seq<Step>, id: nat): seq<Verdict>
    decreases |steps|
  {
    if steps == [] then []
    else (if Finds(s, steps[0]) && steps[0].id == id then [steps[0].verdict] else [])
         + Verdicts(Apply(s, steps[0]), steps[1..], id)
  }

  /** A request that waits has an empty open channel; one that does not has had one verdict, which is the
      one its channel carries or has carried, and its channel is closed. */
  ghost predicate RequestInv(s: State, id: nat) {
    && (id in s.pending <==> id in s.requests && s.requests[id] == Waiting)
    && (id in s.requests <==> id in s.channels)
    && (id in s.pending ==> s.channels[id] == Channel([], [], false))
    && (id in s.requests && id !in s.pending ==>
          s.channels[id].closed && s.channels[id].received + s.channels[id].buffer == [s.requests[id].verdict])
  }

  ghost predicate Inv(s: State) {
    s.pending == s.waiters && !s.blocked && !s.panicked && forall id :: RequestInv(s, id)
  }

  lemma StepKeepsInv(s: State, step: Step)
    requires Inv(s)
    ensures Inv(Apply(s, step))
  {
    var s' := Apply(s, step);
    assert RequestInv(s, step.id);
    forall id ensures RequestInv(s', id) {
      assert RequestInv(s, id);
      if step.Receive? && id == step.id && s' != s {
        var c, c' := s.channels[id], s'.channels[id];
        assert c'.received + c'.buffer == c.received + c.buffer;
      }
    }
  }

  lemma {:induction false} RunKeepsInv(s: State, steps: seq<Step>)
    requires Inv(s)
    ensures Inv(Run(s, steps))
    decreases |steps|
  {
    if steps != [] {
      StepKeepsInv(s, steps[0]);
      RunKeepsInv(Apply(s, steps[0]), steps[1..]);
    }
  }

  /** A resolved request stays resolved as it was, and no later resolve finds it. */
  lemma {:induction false} ResolvedStays(s: State, steps: seq<Step>, id: nat)
    requires Inv(s) && id in s.requests && s.requests[id].Resolved?
    ensures id in Run(s, steps).requests && Run(s, steps).requests[id] == s.requests[id]
    ensures Verdicts(s, steps, id) == []
    decreases |steps|
  {
    if steps != [] {
      assert RequestInv(s, id) && RequestInv(s, steps[0].id);
      StepKeepsInv(s, steps[0]);
      ResolvedStays(Apply(s, steps[0]), steps[1..], id);
    }
  }

  /** A request that is submitted waits, the first verdict on it is found, and that one reaches its waiter and
      stays, whatever happens in between and afterwards. */
  lemma {:induction false} FirstVerdictReachesWaiter(
      s: State, id: nat, between: seq<Step>, verdict: Verdict, more: seq<Step>)
    requires Inv(s) && id !in s.requests && forall step | step in between :: !(step.Resolve? && step.id == id)
    ensures var s1 := Run(Apply(s, Submit(id)), between);
      var s2 := Run(Apply(s1, Resolve(id, verdict)), more);
      && Finds(s1, Resolve(id, verdict))
      && id in s2.requests && s2.requests[id] == Resolved(verdict) && id in s2.channels && s2.channels[id].closed
      && s2.channels[id].received + s2.channels[id].buffer == [verdict]
      && Apply(s2, Receive(id)).channels[id].received == [verdict]
  {
    StepKeepsInv(s, Submit(id));
    var s0 := Apply(s, Submit(id));
    KeepsWaiting(s0, id, between);
    var s1 := Run(s0, between);
    assert RequestInv(s1, id);
    StepKeepsInv(s1, Resolve(id, verdict));
    var s1' := Apply(s1, Resolve(id, verdict));
    ResolvedStays(s1', more, id);
    RunKeepsInv(s1', more);
    assert RequestInv(Run(s1', more), id);
    Received(Run(s1', more).channels[id], verdict);
  }

  lemma Received(c: Channel, verdict: Verdict)
    requires c.received + c.buffer == [verdict]
    ensures c.buffer == [] ==> c.received == [verdict]
    ensures c.buffer != [] ==> c.received == [] && c.buffer == [verdict]
  {
    assert |c.received| + |c.buffer| == 1;
    if c.buffer != [] { assert c.buffer[0] == (c.received + c.buffer)[|c.received|]; }
  }

  lemma {:induction false} KeepsWaiting(s: State, id: nat, steps: seq<Step>)
    requires Inv(s) && id in s.pending && forall step | step in steps :: !(step.Resolve? && step.id == id)
    ensures Inv(Run(s, steps)) && id in Run(s, steps).pending
    decreases |steps|
  {
    if steps != [] {
      StepKeepsInv(s, steps[0]);
      KeepsWaiting(Apply(s, steps[0]), id, steps[1..]);
    }
  }

  lemma {:induction false} VerdictsAre(s: State, steps: seq<Step>, id: nat)
    requires Inv(s) && (id in s.requests ==> s.requests[id] == Waiting)
    ensures var s' := Run(s, steps);
      Verdicts(s, steps, id)
      == if id in s'.requests && s'.requests[id].Resolved? then [s'.requests[id].verdict] else []
    decreases |steps|
  {
    if steps != [] {
      var s1 := Apply(s, steps[0]);
      assert RequestInv(s, id) && RequestInv(s, steps[0].id);
      StepKeepsInv(s, steps[0]);
      if id in s1.requests && s1.requests[id].Resolved? {
        ResolvedStays(s1, steps[1..], id);
      } else {
        VerdictsAre(s1, steps[1..], id);
      }
    }
  }

  /** In every run the two maps have the same keys and the send never blocks or panics. A request gets at
      most one verdict; that verdict is stored in it, it is what its waiter has received or will receive,
      the channel is then closed, and every later resolve reports not found. */
  lemma OneVerdictEach(steps: seq<Step>, id: nat)
    ensures var s := Run(INIT, steps);
      var verdicts := Verdicts(INIT, steps, id);
      s.pending == s.waiters && !s.blocked && !s.panicked &&
      (id in s.requests ==>
         id in s.channels && s.channels[id].received + s.channels[id].buffer == verdicts &&
         (s.channels[id].closed <==> verdicts != []) &&
         (id in s.pending <==> verdicts == []) &&
         s.requests[id] == (if verdicts == [] then Waiting else Resolved(verdicts[0])) && |verdicts| <= 1) &&
      (id !in s.requests ==> verdicts == [])
  {
    assert Inv(INIT);
    RunKeepsInv(INIT, steps);
    VerdictsAre(INIT, steps, id);
    assert RequestInv(Run(INIT, steps), id);
  }

  // ---------- the queue ----------

  class VerdictChan {
    var buffer: seq<Verdict>
    var closed: bool

    constructor ()
      ensures buffer == [] && !closed
    {
      buffer, closed := [], false;
    }

    /** A send that finds a place, and the close behind it. */
    method SendAndClose(v: Verdict)
      requires |buffer| < CAPACITY && !closed
      modifies this
      ensures buffer == old(buffer) + [v] && closed
    {
      buffer := buffer + [v];
      closed := true;
    }
  }

  class ApprovalRequest {
    const id: nat
    const agent: string
    const action: string
    var status: Status
    var resolvedBy: string

    constructor (id: nat, agent: string, action: string)
      ensures this.id == id && this.agent == agent && this.action == action && status == Waiting
    {
      this.id, this.agent, this.action, status, resolvedBy := id, agent, action, Waiting, "";
    }
  }

  class ApprovalQueue {
    var pending: map<nat, ApprovalRequest>
    var waiters: map<nat, VerdictChan>
    var nextId: nat

    ghost predicate RequestsWait()
      reads this, pending.Values
    {
      forall x | x in pending :: x < nextId && pending[x].id == x && pending[x].status == Waiting
    }

    /** Every waiter has a channel of its own, open and with its place free. */
    ghost predicate WaitersReady()
      reads this, waiters.Values
    {
      && (forall x | x in waiters :: waiters[x].buffer == [] && !waiters[x].closed)
      && (forall x, y | x in waiters && y in waiters && x != y :: waiters[x] != waiters[y])
    }

    ghost predicate Valid()
      reads this, pending.Values, waiters.Values
    {
      pending.Keys == waiters.Keys && RequestsWait() && WaitersReady()
    }

    constructor ()
      ensures Valid() && pending == map[]
    {
      pending, waiters, nextId := map[], map[], 0;
    }

    /** Fresh ids stand for the UUIDs. */
    method Submit(agent: string, action: string) returns (req: ApprovalRequest, ch: VerdictChan)
      requires Valid()
      modifies this
      ensures Valid() && fresh(req) && fresh(ch)
      ensures req.id !in old(pending) && req.agent == agent && req.action == action
      ensures pending == old(pending)[req.id := req] && waiters == old(waiters)[req.id := ch]
    {
      req := new ApprovalRequest(nextId, agent, action);
      ch := new VerdictChan();
      pending := pending[nextId := req];
      waiters := waiters[nextId := ch];
      nextId := nextId + 1;
    }

    method Resolve(id: nat, verdict: Verdict, who: string) returns (found: bool)
      requires Valid()
      modifies this, pending.Values, waiters.Values
      ensures Valid() && (found <==> id in old(pending))
      ensures pending == old(pending) - {id} && waiters == old(waiters) - {id}
      ensures found ==>
        var req, ch := old(pending[id]), old(waiters[id]);
        req.status == Resolved(verdict) && req.resolvedBy == who && ch.buffer == [verdict] && ch.closed
    {
      found := id in pending;
      if !found {
        return;
      }
      assert waiters[id] in waiters.Values;
      Settle(id, verdict, who);
      AnswerWaiter(id, verdict);
    }

    method AnswerWaiter(id: nat, verdict: Verdict)
      requires WaitersReady() && id in waiters
      modifies this`waiters, waiters[id]
      ensures WaitersReady() && waiters == old(waiters) - {id}
      ensures old(waiters[id]).buffer == [verdict] && old(waiters[id]).closed
    {
      var ch := waiters[id];
      ch.SendAndClose(verdict);
      waiters := waiters - {id};
    }

    method Settle(id: nat, verdict: Verdict, who: string)
      requires RequestsWait() && id in pending
      modifies this`pending, pending[id]
      ensures RequestsWait() && pending == old(pending) - {id}
      ensures old(pending[id]).status == Resolved(verdict) && old(pending[id]).resolvedBy == who
    {
      var req := pending[id];
      req.status := Resolved(verdict);
      req.resolvedBy := who;
      pending := pending - {id};
    }
  }
}
