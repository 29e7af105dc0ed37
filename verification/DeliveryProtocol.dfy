// The delivery engine as a step protocol.
module DeliveryProtocol {
  import opened Common

  // Routing calls (direct send, publish, relay) and drains of the pending queue run concurrently, and
  // sessions open and close between any two of their steps. A step that is not enabled changes nothing,
  // so every list of steps is a run.

  /** What one routing call owes one recipient. */
  datatype Copy = Copy(call: nat, to: Agent)

  /** What routing sees of a session. Without a transport it counts as online all the same. */
  datatype Endpoint = Endpoint(agent: Agent, hasTransport: bool)

  /** A direct send reports a failed insert to its caller; publish and relay do not look at it. */
  datatype Kind = Direct | FanOut

  /** Where a routing call stands. It serves its recipients one after the other; targets are the sessions
      it found, and rest those that it has not sent to. */
  datatype CallPc =
    | Next
    | CheckOnline(to: Agent)
    | Fetch(to: Agent)
    | Sending(to: Agent, targets: seq<nat>, rest: seq<nat>, failed: bool)
    | Insert(to: Agent)
    | Returned(ok: bool)

  datatype Call = Call(kind: Kind, recipients: seq<Agent>, served: nat, pc: CallPc)

  datatype Row = Row(id: nat, copy: Copy)

  /** Where a drain stands: it sends row after row until one fails, then deletes what it sent. */
  datatype DrainPc =
    | NextRow
    | FetchFor(row: Row)
    | SendingRow(row: Row, targets: seq<nat>, rest: seq<nat>, failed: bool)
    | Deleting
    | Done(delivered: nat)

  /** Sent are the rows it has still to delete, and counted, which decides nothing, all that it has sent. */
  datatype Drain = Drain(
    agent: Agent, left: seq<Row>, sent: seq<Row>, counted: seq<Row>, delivered: nat, pc: DrainPc)

  /** The last five fields record what has happened and decide nothing. */
  datatype State = State(
    known: map<nat, Endpoint>,         // every session ever created
    open: set<nat>,                    // the keys of the manager's map
    pending: map<nat, Copy>,           // the pending_messages table
    nextRow: nat,
    calls: map<nat, Call>,
    drains: map<nat, Drain>,
    accepted: set<(Copy, nat)>,        // which transport took which copy
    queued: set<Copy>,                 // what was ever inserted into the queue
    dropped: set<Copy>,                // what its call went past with nobody having it
    passed: set<Copy>,                 // what a drain took for sent, having found no transport
    deleted: set<Copy>)                // what was deleted before any transport had taken it

  /** Order is the order in which a query or a map iteration yields its results; ok is what the
      environment answers: a transport's Send, an INSERT, a DELETE or a Scan. */
  datatype Step =
    | OpenSession(session: nat, agent: Agent, hasTransport: bool)
    | DropSessions(sessions: set<nat>)
    | StartCall(call: nat, kind: Kind, recipients: seq<Agent>)
    | CallStep(call: nat, order: seq<nat>, ok: bool)
    | StartDrain(drain: nat, agent: Agent, order: seq<nat>)
    | DrainStep(drain: nat, order: seq<nat>, ok: bool)

  const INIT := State(map[], {}, map[], 0, map[], map[], {}, {}, {}, {}, {})

  /** Order lists exactly the elements of s, each once. */
  predicate Enumerates(order: seq<nat>, s: set<nat>) {
    NoDup(order) && (forall x | x in order :: x in s) && (forall x | x in s :: x in order)
  }

  function SessionsOf(s: State, agent: Agent): set<nat> {
    set x | x in s.open && x in s.known && s.known[x].agent == agent
  }

  function RowsOf(s: State, agent: Agent): set<nat> {
    set x | x in s.pending && s.pending[x].to == agent
  }

  predicate HasTransport(s: State, session: nat) {
    session in s.known && s.known[session].hasTransport
  }

  /** None of the sessions can take anything. */
  predicate Bare(s: State, targets: seq<nat>) {
    forall x | x in targets :: !HasTransport(s, x)
  }

  /** A transport has taken the copy. */
  predicate Taken(s: State, copy: Copy) {
    exists p | p in s.accepted :: p.0 == copy
  }

  /** One transport's Send: with no transport the session is passed over. */
  function Offer(s: State, copy: Copy, session: nat, ok: bool): State {
    if ok && HasTransport(s, session) then s.(accepted := s.accepted + {(copy, session)}) else s
  }

  predicate Fails(s: State, session: nat, ok: bool) {
    !ok && HasTransport(s, session)
  }

  function MoveCall(s: State, id: nat, c: Call): State {
    s.(calls := s.calls[id := c])
  }

  function MoveDrain(s: State, id: nat, d: Drain): State {
    s.(drains := s.drains[id := d])
  }

  /** The call is done with one recipient, whose copy may be lost. */
  function Serve(s: State, id: nat, lost: bool): State
    requires id in s.calls && s.calls[id].served < |s.calls[id].recipients|
  {
    var c := s.calls[id];
    MoveCall(s, id, c.(served := c.served + 1, pc := Next))
      .(dropped := s.dropped + if lost then {Copy(id, c.recipients[c.served])} else {})
  }

  /** The call has queued the copy. */
  function Enqueue(s: State, id: nat, to: Agent): State
    requires id in s.calls && s.calls[id].served < |s.calls[id].recipients|
  {
    Serve(s, id, false).(pending := s.pending[s.nextRow := Copy(id, to)], nextRow := s.nextRow + 1,
                         queued := s.queued + {Copy(id, to)})
  }

  /** The call sends to the next of its targets. */
  function SendOne(s: State, id: nat, ok: bool): State
    requires id in s.calls && s.calls[id].pc.Sending? && s.calls[id].pc.rest != []
  {
    var c := s.calls[id];
    var x := c.pc.rest[0];
    MoveCall(Offer(s, Copy(id, c.pc.to), x, ok), id,
             c.(pc := c.pc.(rest := c.pc.rest[1..], failed := c.pc.failed || Fails(s, x, ok))))
  }

  function AdvanceCall(s: State, id: nat, order: seq<nat>, ok: bool): State
    requires id in s.calls && InPlace(s.calls[id])
  {
    var c := s.calls[id];
    match c.pc
    case Next =>
      MoveCall(s, id, c.(pc :=
        if c.served < |c.recipients| then CheckOnline(c.recipients[c.served]) else Returned(true)))
    case CheckOnline(to) =>
      MoveCall(s, id, c.(pc := if SessionsOf(s, to) != {} then Fetch(to) else Insert(to)))
    case Fetch(to) =>
      if !Enumerates(order, SessionsOf(s, to)) then s
      else MoveCall(s, id, c.(pc := if order == [] then Insert(to) else Sending(to, order, order, false)))
    case Sending(to, targets, rest, failed) =>
      if rest != [] then SendOne(s, id, ok)
      else if failed then MoveCall(s, id, c.(pc := Insert(to)))
      else Serve(s, id, Bare(s, targets))
    case Insert(to) =>
      if ok then Enqueue(s, id, to)
      else if c.kind == Direct then MoveCall(s, id, c.(pc := Returned(false)))
      else Serve(s, id, !Taken(s, Copy(id, to)))
    case Returned(_) => s
  }

  /** The drain sends its row to the next of its targets. */
  function SendRow(s: State, id: nat, ok: bool): State
    requires id in s.drains && s.drains[id].pc.SendingRow? && s.drains[id].pc.rest != []
  {
    var d := s.drains[id];
    var x := d.pc.rest[0];
    MoveDrain(Offer(s, d.pc.row.copy, x, ok), id,
              d.(pc := d.pc.(rest := d.pc.rest[1..], failed := d.pc.failed || Fails(s, x, ok))))
  }

  /** The drain takes its row for sent. */
  function PassRow(s: State, id: nat): State
    requires id in s.drains && s.drains[id].pc.SendingRow?
  {
    var d := s.drains[id];
    MoveDrain(s, id, d.(sent := d.sent + [d.pc.row], counted := d.counted + [d.pc.row],
                            delivered := d.delivered + 1, pc := NextRow))
      .(passed := s.passed + if Bare(s, d.pc.targets) then {d.pc.row.copy} else {})
  }

  /** The drain deletes the next of the rows it has sent, or fails to. */
  function DeleteNext(s: State, id: nat, ok: bool): State
    requires id in s.drains && s.drains[id].sent != []
  {
    var d := s.drains[id];
    var s1 := MoveDrain(s, id, d.(sent := d.sent[1..]));
    if ok then DeleteRow(s1, d.sent[0]) else s1
  }

  /** Where the drain goes in the other steps, which change nothing else. */
  function NextOf(s: State, d: Drain, order: seq<nat>, ok: bool): Drain {
    match d.pc
    case NextRow =>
      if d.left == [] then d.(pc := Deleting)
      else if ok then d.(left := d.left[1..], pc := FetchFor(d.left[0]))
      else d.(left := d.left[1..])
    case FetchFor(row) =>
      if !Enumerates(order, SessionsOf(s, d.agent)) then d
      else d.(pc := if order == [] then Deleting else SendingRow(row, order, order, false))
    case SendingRow(_, _, _, _) => d.(pc := Deleting)
    case Deleting => d.(pc := Done(d.delivered))
    case Done(_) => d
  }

  function AdvanceDrain(s: State, id: nat, order: seq<nat>, ok: bool): State
    requires id in s.drains
  {
    var d := s.drains[id];
    if d.pc.SendingRow? && d.pc.rest != [] then SendRow(s, id, ok)
    else if d.pc.SendingRow? && !d.pc.failed then PassRow(s, id)
    else if d.pc.Deleting? && d.sent != [] then DeleteNext(s, id, ok)
    else MoveDrain(s, id, NextOf(s, d, order, ok))
  }

  function DeleteRow(s: State, row: Row): State {
    s.(pending := s.pending - {row.id},
       deleted := s.deleted + if row.id in s.pending && !Taken(s, row.copy) then {row.copy} else {})
  }

  /** The rows a drain's query returned, in the order it returned them. */
  function Fetched(s: State, order: seq<nat>): (rows: seq<Row>)
    requires forall x | x in order :: x in s.pending
    ensures |rows| == |order|
    ensures forall i | 0 <= i < |order| :: rows[i] == Row(order[i], s.pending[order[i]])
  {
    if order == [] then [] else [Row(order[0], s.pending[order[0]])] + Fetched(s, order[1..])
  }

  /** A call that is serving somebody has not served everybody. */
  predicate InPlace(c: Call) {
    c.served <= |c.recipients| && (c.pc.Next? || c.pc.Returned? || c.served < |c.recipients|)
  }

  function Apply(s: State, step: Step): State {
    match step
    case OpenSession(x, agent, hasTransport) =>
      if x in s.known then s
      else s.(known := s.known[x := Endpoint(agent, hasTransport)], open := s.open + {x})
    case DropSessions(xs) => s.(open := s.open - xs)
    case StartCall(id, kind, recipients) =>
      if id in s.calls || !NoDup(recipients) || (kind == Direct && |recipients| != 1) then s
      else MoveCall(s, id, Call(kind, recipients, 0, Next))
    case CallStep(id, order, ok) =>
      if id in s.calls && InPlace(s.calls[id]) then AdvanceCall(s, id, order, ok) else s
    case StartDrain(id, agent, order) =>
      if id in s.drains || !Enumerates(order, RowsOf(s, agent)) then s
      else MoveDrain(s, id, Drain(agent, Fetched(s, order), [], [], 0, NextRow))
    case DrainStep(id, order, ok) => if id in s.drains then AdvanceDrain(s, id, order, ok) else s
  }

  function Run(s: State, steps: seq<Step>): State
    decreases |steps|
  {
    if steps == [] then s else Run(Apply(s, steps[0]), steps[1..])
  }

  // ---------- what is promised ----------

  /** The copy waits in the pending table. */
  ghost predicate Queued(s: State, copy: Copy) {
    exists r :: r in s.pending && s.pending[r] == copy
  }

  ghost predicate Safe(s: State, copy: Copy) {
    Taken(s, copy) || Queued(s, copy)
  }

  /** Its call has done with the copy. */
  predicate Served(s: State, copy: Copy) {
    copy.call in s.calls &&
    var c := s.calls[copy.call];
    c.served <= |c.recipients| && copy.to in c.recipients[..c.served]
  }

  /** Every call that returned nil has left nobody's copy behind. */
  ghost predicate NothingLost(s: State) {
    forall id, to | id in s.calls && s.calls[id].pc == Returned(true) && to in s.calls[id].recipients ::
      Safe(s, Copy(id, to))
  }

  /** What an operator must provide, step by step: some session that a call or a drain finds has a transport
      whenever it finds one at all, and the queue takes what publish and relay insert for somebody to whom
      nothing has gone. A failed insert of a direct send needs no such promise. */
  predicate Provided(s: State, step: Step) {
    match step
    case CallStep(id, order, ok) =>
      id in s.calls ==>
        (s.calls[id].pc.Fetch? && order != [] ==> !Bare(s, order)) &&
        (s.calls[id].pc.Insert? && s.calls[id].kind == FanOut ==> ok || Taken(s, Copy(id, s.calls[id].pc.to)))
    case DrainStep(id, order, _) => id in s.drains && s.drains[id].pc.FetchFor? && order != [] ==> !Bare(s, order)
    case _ => true
  }

  predicate AlwaysProvided(s: State, steps: seq<Step>)
    decreases |steps|
  {
    steps == [] || (Provided(s, steps[0]) && AlwaysProvided(Apply(s, steps[0]), steps[1..]))
  }

  // ---------- the invariant ----------

  /** Every accepted copy went to a session of its recipient. */
  ghost predicate NoMisdelivery(s: State) {
    forall p | p in s.accepted :: p.1 in s.known && s.known[p.1].agent == p.0.to
  }

  /** The call may have sent to the agent, whom it has not served yet. */
  ghost predicate InHand(s: State, c: Call, to: Agent) {
    match c.pc
    case Sending(to', targets, _, _) => to == to' && !Bare(s, targets)
    case Insert(to') => to == to'
    case Returned(ok) => !ok
    case _ => false
  }

  ghost predicate AcceptedInv(s: State) {
    forall p | p in s.accepted ::
      Served(s, p.0) || (p.0.call in s.calls && InHand(s, s.calls[p.0.call], p.0.to))
  }

  /** Rows are for copies whose call is done with them, and no copy has two. */
  ghost predicate QueueInv(s: State) {
    && (forall r | r in s.pending :: r < s.nextRow && s.pending[r] in s.queued)
    && (forall r, q | r in s.pending && q in s.pending && r != q :: s.pending[r] != s.pending[q])
    && (forall copy | copy in s.queued :: Served(s, copy))
  }

  ghost predicate LossInv(s: State) {
    && (forall copy | copy in s.dropped :: Served(s, copy) && copy !in s.queued && !Taken(s, copy))
    && (forall copy | copy in s.deleted :: copy in s.queued && copy in s.passed && !Queued(s, copy))
  }

  ghost predicate Accounted(s: State) {
    forall copy | Served(s, copy) :: Safe(s, copy) || copy in s.dropped || copy in s.deleted
  }

  /** The parts of the invariant that speak of the shared tables. */
  ghost predicate Tables(s: State) {
    s.open <= s.known.Keys && NoMisdelivery(s) && AcceptedInv(s) && QueueInv(s) && LossInv(s) && Accounted(s)
  }

  /** A send under way: its targets are sessions of the agent, and unless one has failed, those behind
      it that have a transport have taken the copy. */
  ghost predicate SendInv(s: State, copy: Copy, targets: seq<nat>, rest: seq<nat>, failed: bool) {
    && (forall x | x in targets :: x in s.known && s.known[x].agent == copy.to)
    && (forall x | x in rest :: x in targets)
    && (!failed ==> forall x | x in targets && HasTransport(s, x) :: x in rest || (copy, x) in s.accepted)
  }

  /** The recipient a call is serving is the one its position says. */
  ghost predicate CallInv(s: State, id: nat, c: Call) {
    && NoDup(c.recipients) && InPlace(c) && (c.kind == Direct ==> |c.recipients| == 1)
    && match c.pc
       case Next => true
       case Returned(ok) => ok ==> c.served == |c.recipients|
       case CheckOnline(to) => to == c.recipients[c.served]
       case Fetch(to) => to == c.recipients[c.served]
       case Insert(to) => to == c.recipients[c.served]
       case Sending(to, targets, rest, failed) =>
         to == c.recipients[c.served] && SendInv(s, Copy(id, to), targets, rest, failed)
  }

  /** A row a drain holds is the table's row of that id for as long as the table has it. */
  ghost predicate RowInv(s: State, agent: Agent, row: Row) {
    && row.copy.to == agent && row.copy in s.queued && row.id < s.nextRow
    && (row.id in s.pending ==> s.pending[row.id] == row.copy)
  }

  ghost predicate RowsInv(s: State, agent: Agent, rows: seq<Row>) {
    forall i | 0 <= i < |rows| :: RowInv(s, agent, rows[i])
  }

  /** What a drain is going to delete was taken, or it had found no transport. */
  ghost predicate SentInv(s: State, rows: seq<Row>) {
    forall i | 0 <= i < |rows| :: Taken(s, rows[i].copy) || rows[i].copy in s.passed
  }

  ghost predicate DrainInv(s: State, d: Drain) {
    && RowsInv(s, d.agent, d.left) && RowsInv(s, d.agent, d.sent) && SentInv(s, d.sent)
    && match d.pc
       case FetchFor(row) => RowInv(s, d.agent, row)
       case SendingRow(row, targets, rest, failed) =>
         RowInv(s, d.agent, row) && SendInv(s, row.copy, targets, rest, failed)
       case _ => true
  }

  ghost predicate Inv(s: State) {
    && Tables(s)
    && (forall id | id in s.calls :: CallInv(s, id, s.calls[id]))
    && (forall id | id in s.drains :: DrainInv(s, s.drains[id]))
  }

  // ---------- what a step leaves alone ----------

  /** How the rest of the state may change while one call or drain does not move. */
  ghost predicate Kept(s: State, s': State) {
    && (forall x | x in s.known :: x in s'.known && s'.known[x] == s.known[x])
    && s.accepted <= s'.accepted && s.nextRow <= s'.nextRow && s.queued <= s'.queued && s.passed <= s'.passed
    && (forall r | r in s'.pending && r in s.pending :: s'.pending[r] == s.pending[r])
    && (forall r | r in s'.pending && r !in s.pending :: s.nextRow <= r)
  }

  lemma KeptTaken(s: State, s': State, copy: Copy)
    requires s.accepted <= s'.accepted && Taken(s, copy)
    ensures Taken(s', copy)
  {
    var p :| p in s.accepted && p.0 == copy;
    assert p in s'.accepted;
  }

  lemma KeptSend(s: State, s': State, copy: Copy, targets: seq<nat>, rest: seq<nat>, failed: bool)
    requires Kept(s, s') && SendInv(s, copy, targets, rest, failed)
    ensures SendInv(s', copy, targets, rest, failed)
  {
  }

  lemma KeptCall(s: State, s': State, id: nat, c: Call)
    requires Kept(s, s') && CallInv(s, id, c)
    ensures CallInv(s', id, c)
  {
    if c.pc.Sending? {
      KeptSend(s, s', Copy(id, c.pc.to), c.pc.targets, c.pc.rest, c.pc.failed);
    }
  }

  lemma KeptRows(s: State, s': State, agent: Agent, rows: seq<Row>)
    requires Kept(s, s')
    ensures RowsInv(s, agent, rows) ==> RowsInv(s', agent, rows)
    ensures SentInv(s, rows) ==> SentInv(s', rows)
  {
    if SentInv(s, rows) {
      forall i | 0 <= i < |rows| ensures Taken(s', rows[i].copy) || rows[i].copy in s'.passed {
        if Taken(s, rows[i].copy) { KeptTaken(s, s', rows[i].copy); }
      }
    }
  }

  lemma KeptDrain(s: State, s': State, d: Drain)
    requires Kept(s, s') && DrainInv(s, d)
    ensures DrainInv(s', d)
  {
    KeptRows(s, s', d.agent, d.left);
    KeptRows(s, s', d.agent, d.sent);
    if d.pc.SendingRow? {
      KeptSend(s, s', d.pc.row.copy, d.pc.targets, d.pc.rest, d.pc.failed);
    }
  }

  /** A step moves at most one call or one drain; everyone else's part of the invariant survives it. */
  lemma OthersKept(s: State, s': State)
    requires Inv(s) && Kept(s, s') && Tables(s')
    requires forall id | id in s'.calls ::
      (id in s.calls && s'.calls[id] == s.calls[id]) || CallInv(s', id, s'.calls[id])
    requires forall id | id in s'.drains ::
      (id in s.drains && s'.drains[id] == s.drains[id]) || DrainInv(s', s'.drains[id])
    ensures Inv(s')
  {
    forall id | id in s'.calls ensures CallInv(s', id, s'.calls[id]) {
      if id in s.calls && s'.calls[id] == s.calls[id] { KeptCall(s, s', id, s.calls[id]); }
    }
    forall id | id in s'.drains ensures DrainInv(s', s'.drains[id]) {
      if id in s.drains && s'.drains[id] == s.drains[id] { KeptDrain(s, s', s.drains[id]); }
    }
  }

  lemma CallMoved(s: State, s': State, id: nat, c: Call)
    requires Inv(s) && Kept(s, s') && Tables(s') && CallInv(s', id, c)
    requires s'.calls == s.calls[id := c] && s'.drains == s.drains
    ensures Inv(s')
  {
    OthersKept(s, s');
  }

  lemma DrainMoved(s: State, s': State, id: nat, d: Drain)
    requires Inv(s) && Kept(s, s') && Tables(s') && DrainInv(s', d)
    requires s'.drains == s.drains[id := d] && s'.calls == s.calls
    ensures Inv(s')
  {
    OthersKept(s, s');
  }

  // ---------- a call moves on ----------

  /** The call's new position: same recipients, no less served, and what it had in hand it has in hand or
      served. */
  ghost predicate Onward(s: State, id: nat, c: Call) {
    && id in s.calls && c.recipients == s.calls[id].recipients
    && s.calls[id].served <= c.served <= |c.recipients|
    && forall to | InHand(s, s.calls[id], to) :: InHand(s, c, to) || to in c.recipients[..c.served]
  }

  lemma OnwardServes(s: State, id: nat, c: Call, copy: Copy)
    requires Onward(s, id, c) && Served(s, copy)
    ensures Served(MoveCall(s, id, c), copy)
  {
    if copy.call == id {
      var before, after := s.calls[id].recipients[..s.calls[id].served], c.recipients[..c.served];
      assert before == after[..|before|];
    }
  }

  lemma OnwardAccepted(s: State, id: nat, c: Call)
    requires AcceptedInv(s) && Onward(s, id, c)
    ensures AcceptedInv(MoveCall(s, id, c))
  {
    var s' := MoveCall(s, id, c);
    forall p | p in s'.accepted
      ensures Served(s', p.0) || (p.0.call in s'.calls && InHand(s', s'.calls[p.0.call], p.0.to))
    {
      if Served(s, p.0) {
        OnwardServes(s, id, c, p.0);
      } else if p.0.call == id {
        assert InHand(s, s.calls[id], p.0.to);
        assert InHand(s, c, p.0.to) ==> InHand(s', c, p.0.to);
      } else {
        assert InHand(s, s.calls[p.0.call], p.0.to);
        assert InHand(s', s'.calls[p.0.call], p.0.to);
      }
    }
  }

  /** Without serving anybody, the call's own tables stay as they are. */
  lemma MoveKeepsTables(s: State, id: nat, c: Call)
    requires Tables(s) && Onward(s, id, c) && c.served == s.calls[id].served
    ensures Tables(MoveCall(s, id, c))
  {
    var s' := MoveCall(s, id, c);
    OnwardAccepted(s, id, c);
    assert forall copy :: Served(s', copy) <==> Served(s, copy);
    assert forall copy :: Taken(s', copy) <==> Taken(s, copy);
    assert forall copy :: Queued(s', copy) <==> Queued(s, copy);
  }

  lemma MoveCallKeepsInv(s: State, id: nat, c: Call)
    requires Inv(s) && Onward(s, id, c) && c.served == s.calls[id].served && CallInv(s, id, c)
    ensures Inv(MoveCall(s, id, c))
  {
    var s' := MoveCall(s, id, c);
    MoveKeepsTables(s, id, c);
    KeptCall(s, s', id, c);
    CallMoved(s, s', id, c);
  }

  /** A transport takes a copy that its call has in hand or that was queued. */
  lemma TakeKeepsTables(s: State, copy: Copy, x: nat)
    requires Tables(s) && x in s.known && s.known[x].agent == copy.to
    requires copy in s.queued ||
      (copy.call in s.calls && InHand(s, s.calls[copy.call], copy.to) && !Served(s, copy))
    ensures Tables(s.(accepted := s.accepted + {(copy, x)}))
  {
    var s' := s.(accepted := s.accepted + {(copy, x)});
    assert forall c :: Served(s', c) <==> Served(s, c);
    assert forall c :: Queued(s', c) <==> Queued(s, c);
    forall c ensures Taken(s', c) <==> Taken(s, c) || c == copy {
      if Taken(s, c) { KeptTaken(s, s', c); }
      if c == copy { assert (copy, x) in s'.accepted; }
    }
    assert AcceptedInv(s') by { TakeKeepsAccepted(s, copy, x); }
  }

  lemma TakeKeepsAccepted(s: State, copy: Copy, x: nat)
    requires AcceptedInv(s)
    requires Served(s, copy) || (copy.call in s.calls && InHand(s, s.calls[copy.call], copy.to))
    ensures AcceptedInv(s.(accepted := s.accepted + {(copy, x)}))
  {
    var s' := s.(accepted := s.accepted + {(copy, x)});
    forall p | p in s'.accepted
      ensures Served(s', p.0) || (p.0.call in s'.calls && InHand(s', s'.calls[p.0.call], p.0.to))
    {
      if Served(s, p.0) {
        assert Served(s', p.0);
      } else {
        assert InHand(s, s.calls[p.0.call], p.0.to);
        assert InHand(s', s'.calls[p.0.call], p.0.to);
      }
    }
  }

  /** One send of a call or a drain. */
  lemma OfferKeeps(s: State, copy: Copy, targets: seq<nat>, rest: seq<nat>, failed: bool, ok: bool)
    requires Tables(s) && rest != [] && SendInv(s, copy, targets, rest, failed)
    requires copy in s.queued ||
      (copy.call in s.calls && !Served(s, copy) &&
       (HasTransport(s, rest[0]) ==> InHand(s, s.calls[copy.call], copy.to)))
    ensures var s' := Offer(s, copy, rest[0], ok);
      Kept(s, s') && Tables(s') && SendInv(s', copy, targets, rest[1..], failed || Fails(s, rest[0], ok))
  {
    var s' := Offer(s, copy, rest[0], ok);
    assert rest[0] in rest && rest == [rest[0]] + rest[1..];
    if s' != s {
      TakeKeepsTables(s, copy, rest[0]);
    }
    if !failed && !Fails(s, rest[0], ok) {
      forall x | x in targets && HasTransport(s', x) ensures x in rest[1..] || (copy, x) in s'.accepted {
        assert x in rest || (copy, x) in s.accepted;
      }
    }
  }

  /** The recipient a call is serving is not among those it has served. */
  lemma NotServedYet(s: State, id: nat)
    requires id in s.calls && CallInv(s, id, s.calls[id]) && s.calls[id].served < |s.calls[id].recipients|
    ensures !Served(s, Copy(id, s.calls[id].recipients[s.calls[id].served]))
  {
  }

  /** What one send of a call does: the copy may be taken, and the call moves on. */
  lemma SendMoves(s: State, id: nat, ok: bool)
    requires Tables(s) && id in s.calls && CallInv(s, id, s.calls[id])
    requires s.calls[id].pc.Sending? && s.calls[id].pc.rest != []
    ensures var c := s.calls[id];
      var s1 := Offer(s, Copy(id, c.pc.to), c.pc.rest[0], ok);
      var c' := c.(pc := c.pc.(rest := c.pc.rest[1..], failed := c.pc.failed || Fails(s, c.pc.rest[0], ok)));
      Kept(s, s1) && Tables(s1) && CallInv(s1, id, c') && Onward(s1, id, c')
  {
    var c := s.calls[id];
    NotServedYet(s, id);
    assert c.pc.rest[0] in c.pc.rest;
    OfferKeeps(s, Copy(id, c.pc.to), c.pc.targets, c.pc.rest, c.pc.failed, ok);
  }

  lemma SendKeepsInv(s: State, id: nat, ok: bool)
    requires Inv(s) && id in s.calls && s.calls[id].pc.Sending? && s.calls[id].pc.rest != []
    ensures Inv(SendOne(s, id, ok))
  {
    var s' := SendOne(s, id, ok);
    var s1 := Offer(s, Copy(id, s.calls[id].pc.to), s.calls[id].pc.rest[0], ok);
    assert CallInv(s, id, s.calls[id]);
    SendMoves(s, id, ok);
    MoveKeepsTables(s1, id, s'.calls[id]);
    KeptCall(s1, s', id, s'.calls[id]);
    CallMoved(s, s', id, s'.calls[id]);
  }

  // ---------- a call is done with a recipient ----------

  /** Serving changes what is served by one copy. */
  lemma ServeServes(s: State, id: nat, lost: bool)
    requires id in s.calls && s.calls[id].served < |s.calls[id].recipients|
    ensures var s' := Serve(s, id, lost);
      var copy := Copy(id, s.calls[id].recipients[s.calls[id].served]);
      forall c :: Served(s', c) <==> Served(s, c) || c == copy
  {
    var k := s.calls[id].served;
    var rs := s.calls[id].recipients;
    assert rs[..k + 1] == rs[..k] + [rs[k]];
  }

  lemma ServeKeepsAccepted(s: State, id: nat, lost: bool)
    requires AcceptedInv(s) && id in s.calls && CallInv(s, id, s.calls[id])
    requires s.calls[id].pc.Sending? || s.calls[id].pc.Insert?
    ensures AcceptedInv(Serve(s, id, lost))
  {
    var s' := Serve(s, id, lost);
    ServeServes(s, id, lost);
    forall p | p in s'.accepted
      ensures Served(s', p.0) || (p.0.call in s'.calls && InHand(s', s'.calls[p.0.call], p.0.to))
    {
      if !Served(s', p.0) {
        assert !Served(s, p.0) && InHand(s, s.calls[p.0.call], p.0.to);
        assert p.0.call != id;
        assert InHand(s', s'.calls[p.0.call], p.0.to);
      }
    }
  }

  /** Serving accounts for the copy: somebody has it, or it is put down as lost. */
  lemma ServeKeepsTables(s: State, id: nat, lost: bool)
    requires Tables(s) && id in s.calls && CallInv(s, id, s.calls[id])
    requires s.calls[id].pc.Sending? || s.calls[id].pc.Insert?
    requires lost <==> !Taken(s, Copy(id, s.calls[id].pc.to))
    ensures Tables(Serve(s, id, lost))
  {
    var s' := Serve(s, id, lost);
    NotServedYet(s, id);
    ServeServes(s, id, lost);
    ServeKeepsAccepted(s, id, lost);
    assert forall c :: Taken(s', c) <==> Taken(s, c);
    assert forall c :: Queued(s', c) <==> Queued(s, c);
  }

  lemma ServeKeepsInv(s: State, id: nat, lost: bool)
    requires Inv(s) && id in s.calls && (s.calls[id].pc.Sending? || s.calls[id].pc.Insert?)
    requires lost <==> !Taken(s, Copy(id, s.calls[id].pc.to))
    ensures s.calls[id].served < |s.calls[id].recipients|
    ensures Inv(Serve(s, id, lost))
  {
    assert CallInv(s, id, s.calls[id]);
    var s' := Serve(s, id, lost);
    ServeKeepsTables(s, id, lost);
    CallMoved(s, s', id, s'.calls[id]);
  }

  /** Without a failed send, nobody has taken the copy exactly when no target had a transport. */
  lemma UntakenExactlyWhen(s: State, id: nat)
    requires Inv(s) && id in s.calls && s.calls[id].pc.Sending? && s.calls[id].pc.rest == [] && !s.calls[id].pc.failed
    ensures !Taken(s, Copy(id, s.calls[id].pc.to)) <==> Bare(s, s.calls[id].pc.targets)
  {
    var c := s.calls[id];
    assert CallInv(s, id, c);
    NotServedYet(s, id);
    var copy := Copy(id, c.pc.to);
    if !Bare(s, c.pc.targets) {
      var x :| x in c.pc.targets && HasTransport(s, x);
      assert (copy, x) in s.accepted;
    }
  }

  lemma EnqueueQueues(s: State, id: nat, to: Agent)
    requires QueueInv(s) && id in s.calls && s.calls[id].served < |s.calls[id].recipients|
    ensures var s' := Enqueue(s, id, to);
      forall c :: Queued(s', c) <==> Queued(s, c) || c == Copy(id, to)
  {
    var s' := Enqueue(s, id, to);
    assert s'.pending[s.nextRow] == Copy(id, to);
    forall c | Queued(s, c) ensures Queued(s', c) {
      var r :| r in s.pending && s.pending[r] == c;
      assert r in s'.pending && s'.pending[r] == c;
    }
  }

  /** Enqueuing is serving, and a row besides. */
  lemma EnqueueServes(s: State, id: nat)
    requires Tables(s) && id in s.calls && CallInv(s, id, s.calls[id]) && s.calls[id].pc.Insert?
    ensures var s', copy := Enqueue(s, id, s.calls[id].pc.to), Copy(id, s.calls[id].pc.to);
      && AcceptedInv(s') && !Served(s, copy)
      && (forall c :: Served(s', c) <==> Served(s, c) || c == copy)
      && (forall c :: Taken(s', c) <==> Taken(s, c))
  {
    var s1, s' := Serve(s, id, false), Enqueue(s, id, s.calls[id].pc.to);
    NotServedYet(s, id);
    ServeServes(s, id, false);
    ServeKeepsAccepted(s, id, false);
    SameAccepted(s1, s');
    assert forall c :: Served(s', c) <==> Served(s1, c);
  }

  /** A copy that is inserted was never in the queue before. */
  lemma EnqueueKeepsTables(s: State, id: nat)
    requires Tables(s) && id in s.calls && CallInv(s, id, s.calls[id]) && s.calls[id].pc.Insert?
    ensures Tables(Enqueue(s, id, s.calls[id].pc.to))
  {
    EnqueueServes(s, id);
    EnqueueQueues(s, id, s.calls[id].pc.to);
  }

  lemma SameAccepted(s: State, s': State)
    requires AcceptedInv(s) && s'.calls == s.calls && s'.accepted == s.accepted
    requires forall x | x in s.known :: x in s'.known && s'.known[x] == s.known[x]
    ensures AcceptedInv(s')
  {
    forall p | p in s'.accepted
      ensures Served(s', p.0) || (p.0.call in s'.calls && InHand(s', s'.calls[p.0.call], p.0.to))
    {
      if Served(s, p.0) {
        assert Served(s', p.0);
      } else {
        assert InHand(s, s.calls[p.0.call], p.0.to);
        assert InHand(s', s'.calls[p.0.call], p.0.to);
      }
    }
  }

  lemma InsertKeepsInv(s: State, id: nat)
    requires Inv(s) && id in s.calls && s.calls[id].pc.Insert? && s.calls[id].served < |s.calls[id].recipients|
    ensures Inv(Enqueue(s, id, s.calls[id].pc.to))
  {
    assert CallInv(s, id, s.calls[id]);
    EnqueueKeepsTables(s, id);
    var s' := Enqueue(s, id, s.calls[id].pc.to);
    CallMoved(s, s', id, s'.calls[id]);
  }

  // ---------- each step of a call ----------

  lemma PcKeepsInv(s: State, id: nat, c: Call)
    requires Inv(s) && id in s.calls && c == s.calls[id].(pc := c.pc) && CallInv(s, id, c)
    requires forall to | InHand(s, s.calls[id], to) :: InHand(s, c, to)
    ensures Inv(MoveCall(s, id, c))
  {
    MoveCallKeepsInv(s, id, c);
  }

  lemma AdvanceCallKeepsInv(s: State, id: nat, order: seq<nat>, ok: bool)
    requires Inv(s) && id in s.calls && InPlace(s.calls[id])
    ensures Inv(AdvanceCall(s, id, order, ok))
  {
    var c := s.calls[id];
    assert CallInv(s, id, c);
    match c.pc
    case Sending(to, targets, rest, failed) =>
      if rest != [] {
        SendKeepsInv(s, id, ok);
      } else if failed {
        PcKeepsInv(s, id, c.(pc := Insert(to)));
      } else {
        UntakenExactlyWhen(s, id);
        ServeKeepsInv(s, id, Bare(s, targets));
      }
    case Insert(to) =>
      if ok {
        InsertKeepsInv(s, id);
      } else if c.kind == FanOut {
        ServeKeepsInv(s, id, !Taken(s, Copy(id, to)));
      } else {
        PcKeepsInv(s, id, c.(pc := Returned(false)));
      }
    case Returned(_) =>
    case Next =>
      PcKeepsInv(s, id, c.(pc :=
        if c.served < |c.recipients| then CheckOnline(c.recipients[c.served]) else Returned(true)));
    case CheckOnline(to) => PcKeepsInv(s, id, c.(pc := if SessionsOf(s, to) != {} then Fetch(to) else Insert(to)));
    case Fetch(to) =>
      if Enumerates(order, SessionsOf(s, to)) {
        PcKeepsInv(s, id, c.(pc := if order == [] then Insert(to) else Sending(to, order, order, false)));
      }
  }

  // ---------- each step of a drain ----------

  /** A drain's position is in no table. */
  lemma DrainKeepsTables(s: State, s': State)
    requires Tables(s) && s' == s.(drains := s'.drains, passed := s'.passed) && s.passed <= s'.passed
    ensures Tables(s')
  {
    SameAccepted(s, s');
    assert forall c :: Served(s', c) <==> Served(s, c);
    assert forall c :: Taken(s', c) <==> Taken(s, c);
    assert forall c :: Queued(s', c) <==> Queued(s, c);
  }

  /** What one send of a drain does: the copy may be taken, and the drain moves on. */
  lemma SendRowMoves(s: State, id: nat, ok: bool)
    requires Tables(s) && id in s.drains && DrainInv(s, s.drains[id])
    requires s.drains[id].pc.SendingRow? && s.drains[id].pc.rest != []
    ensures var d := s.drains[id];
      var s1 := Offer(s, d.pc.row.copy, d.pc.rest[0], ok);
      Kept(s, s1) && Tables(s1) && DrainInv(s1, SendRow(s, id, ok).drains[id])
  {
    var d := s.drains[id];
    var s1 := Offer(s, d.pc.row.copy, d.pc.rest[0], ok);
    OfferKeeps(s, d.pc.row.copy, d.pc.targets, d.pc.rest, d.pc.failed, ok);
    KeptRows(s, s1, d.agent, d.left);
    KeptRows(s, s1, d.agent, d.sent);
  }

  lemma SendRowKeepsInv(s: State, id: nat, ok: bool)
    requires Inv(s) && id in s.drains && s.drains[id].pc.SendingRow? && s.drains[id].pc.rest != []
    ensures Inv(SendRow(s, id, ok))
  {
    var d, s' := s.drains[id], SendRow(s, id, ok);
    var s1 := Offer(s, d.pc.row.copy, d.pc.rest[0], ok);
    assert DrainInv(s, d);
    SendRowMoves(s, id, ok);
    DrainKeepsTables(s1, s');
    KeptDrain(s1, s', s'.drains[id]);
    DrainMoved(s, s', id, s'.drains[id]);
  }

  /** The drain goes on to its next row. What it has sent was taken, or no session had a transport. */
  lemma PassRowKeepsInv(s: State, id: nat)
    requires Inv(s) && id in s.drains && s.drains[id].pc.SendingRow?
    requires s.drains[id].pc.rest == [] && !s.drains[id].pc.failed
    ensures Inv(PassRow(s, id))
  {
    var d, s' := s.drains[id], PassRow(s, id);
    assert DrainInv(s, d);
    PassedOrTaken(s, d.pc.row.copy, d.pc.targets);
    KeptRows(s, s', d.agent, d.left);
    OneMoreSent(s, s', d.agent, d.sent, d.pc.row);
    DrainKeepsTables(s, s');
    DrainMoved(s, s', id, s'.drains[id]);
  }

  lemma PassedOrTaken(s: State, copy: Copy, targets: seq<nat>)
    requires SendInv(s, copy, targets, [], false)
    ensures Bare(s, targets) || Taken(s, copy)
  {
    if !Bare(s, targets) {
      var x :| x in targets && HasTransport(s, x);
      assert (copy, x) in s.accepted;
    }
  }

  lemma OneMoreSent(s: State, s': State, agent: Agent, rows: seq<Row>, row: Row)
    requires Kept(s, s') && RowsInv(s, agent, rows) && SentInv(s, rows) && RowInv(s, agent, row)
    requires Taken(s, row.copy) || row.copy in s'.passed
    ensures RowsInv(s', agent, rows + [row]) && SentInv(s', rows + [row])
  {
    KeptRows(s, s', agent, rows);
    KeptRows(s, s', agent, [row]);
    if Taken(s, row.copy) { KeptTaken(s, s', row.copy); }
  }

  lemma DeleteUnqueues(s: State, row: Row)
    requires QueueInv(s) && (row.id in s.pending ==> s.pending[row.id] == row.copy)
    ensures var s' := DeleteRow(s, row);
      forall c :: Queued(s', c) <==> Queued(s, c) && !(row.id in s.pending && c == row.copy)
  {
    var s' := DeleteRow(s, row);
    forall c | Queued(s, c) && !(row.id in s.pending && c == row.copy) ensures Queued(s', c) {
      var r :| r in s.pending && s.pending[r] == c;
      assert r in s'.pending && s'.pending[r] == c;
    }
  }

  /** A row is deleted only after a transport has taken its copy, or a drain has found none. */
  lemma DeleteKeepsTables(s: State, row: Row)
    requires Tables(s) && row.copy in s.queued && (row.id in s.pending ==> s.pending[row.id] == row.copy)
    requires Taken(s, row.copy) || row.copy in s.passed
    ensures Tables(DeleteRow(s, row))
  {
    var s' := DeleteRow(s, row);
    DeleteUnqueues(s, row);
    SameAccepted(s, s');
    assert forall c :: Served(s', c) <==> Served(s, c);
    assert forall c :: Taken(s', c) <==> Taken(s, c);
  }

  lemma DeleteKeepsInv(s: State, id: nat, ok: bool)
    requires Inv(s) && id in s.drains && s.drains[id].sent != []
    requires s.drains[id].pc.Deleting?
    ensures Inv(DeleteNext(s, id, ok))
  {
    var d, s' := s.drains[id], DeleteNext(s, id, ok);
    assert DrainInv(s, d);
    DeleteNextKeepsTables(s, id, ok);
    KeptRows(s, s', d.agent, d.left);
    KeptRows(s, s', d.agent, d.sent);
    DrainMoved(s, s', id, d.(sent := d.sent[1..]));
  }

  lemma DeleteNextKeepsTables(s: State, id: nat, ok: bool)
    requires Tables(s) && id in s.drains && s.drains[id].sent != [] && DrainInv(s, s.drains[id])
    ensures Tables(DeleteNext(s, id, ok))
  {
    var d := s.drains[id];
    var row, s1 := d.sent[0], MoveDrain(s, id, d.(sent := d.sent[1..]));
    DrainKeepsTables(s, s1);
    assert RowInv(s, d.agent, row) && (Taken(s, row.copy) || row.copy in s.passed);
    if ok {
      assert Taken(s1, row.copy) <==> Taken(s, row.copy);
      DeleteKeepsTables(s1, row);
    }
  }

  /** Only the drain's position moves. */
  lemma DrainPcKeepsInv(s: State, id: nat, d: Drain)
    requires Inv(s) && DrainInv(s, d)
    ensures Inv(MoveDrain(s, id, d))
  {
    var s' := MoveDrain(s, id, d);
    KeptDrain(s, s', d);
    DrainKeepsTables(s, s');
    DrainMoved(s, s', id, d);
  }

  lemma AdvanceDrainKeepsInv(s: State, id: nat, order: seq<nat>, ok: bool)
    requires Inv(s) && id in s.drains
    ensures Inv(AdvanceDrain(s, id, order, ok))
  {
    var d := s.drains[id];
    if d.pc.SendingRow? && d.pc.rest != [] {
      SendRowKeepsInv(s, id, ok);
    } else if d.pc.SendingRow? && !d.pc.failed {
      PassRowKeepsInv(s, id);
    } else if d.pc.Deleting? && d.sent != [] {
      DeleteKeepsInv(s, id, ok);
    } else {
      NextOfInv(s, d, order, ok);
      DrainPcKeepsInv(s, id, NextOf(s, d, order, ok));
    }
  }

  lemma NextOfInv(s: State, d: Drain, order: seq<nat>, ok: bool)
    requires DrainInv(s, d)
    ensures DrainInv(s, NextOf(s, d, order, ok))
  {
  }

  // ---------- every step ----------

  lemma StartCallKeepsInv(s: State, id: nat, kind: Kind, recipients: seq<Agent>)
    requires Inv(s) && id !in s.calls && NoDup(recipients) && (kind == Direct ==> |recipients| == 1)
    ensures Inv(MoveCall(s, id, Call(kind, recipients, 0, Next)))
  {
    var s' := MoveCall(s, id, Call(kind, recipients, 0, Next));
    assert forall c :: Served(s', c) <==> Served(s, c);
    assert forall c :: Taken(s', c) <==> Taken(s, c);
    assert forall c :: Queued(s', c) <==> Queued(s, c);
    forall p | p in s'.accepted && !Served(s', p.0)
      ensures p.0.call in s'.calls && InHand(s', s'.calls[p.0.call], p.0.to)
    {
      assert InHand(s, s.calls[p.0.call], p.0.to);
    }
    assert Tables(s');
    CallMoved(s, s', id, s'.calls[id]);
  }

  lemma StartDrainKeepsInv(s: State, id: nat, agent: Agent, order: seq<nat>)
    requires Inv(s) && id !in s.drains && Enumerates(order, RowsOf(s, agent))
    ensures Inv(Apply(s, StartDrain(id, agent, order)))
  {
    var rows := Fetched(s, order);
    forall i | 0 <= i < |rows| ensures RowInv(s, agent, rows[i]) {
      assert order[i] in order;
    }
    DrainPcKeepsInv(s, id, Drain(agent, rows, [], [], 0, NextRow));
  }

  /** Opening and dropping sessions moves no call and no drain. */
  lemma SessionsKeepInv(s: State, s': State)
    requires Inv(s) && s' == s.(known := s'.known, open := s'.open) && s'.open <= s'.known.Keys
    requires forall x | x in s.known :: x in s'.known && s'.known[x] == s.known[x]
    requires NoMisdelivery(s')
    ensures Inv(s')
  {
    assert forall c :: Served(s', c) <==> Served(s, c);
    assert forall c :: Taken(s', c) <==> Taken(s, c);
    assert forall c :: Queued(s', c) <==> Queued(s, c);
    SameAccepted(s, s');
    assert Tables(s');
    OthersKept(s, s');
  }

  lemma StepKeepsInv(s: State, step: Step)
    requires Inv(s)
    ensures Inv(Apply(s, step))
  {
    match step
    case OpenSession(_, _, _) => SessionsKeepInv(s, Apply(s, step));
    case DropSessions(_) => SessionsKeepInv(s, Apply(s, step));
    case StartCall(id, kind, recipients) =>
      if Apply(s, step) != s { StartCallKeepsInv(s, id, kind, recipients); }
    case CallStep(id, order, ok) =>
      if id in s.calls && InPlace(s.calls[id]) { AdvanceCallKeepsInv(s, id, order, ok); }
    case StartDrain(id, agent, order) =>
      if Apply(s, step) != s { StartDrainKeepsInv(s, id, agent, order); }
    case DrainStep(id, order, ok) => if id in s.drains { AdvanceDrainKeepsInv(s, id, order, ok); }
  }

  lemma {:induction false} RunKeepsInv(s: State, steps: seq<Step>)
    requires Inv(s)
    ensures Inv(Run(s, steps))
    decreases |steps|
  {
    if steps != [] {
      StepKeepsInv(s, steps[0]);
      RunKeepsInv(Apply(s, steps[0]), steps[1..]);
    }
  }

  // ---------- what is lost ----------

  lemma InitHolds()
    ensures Inv(INIT)
  {
  }

  /** Over every interleaving, whatever fails, a copy that its call has done with is lost exactly when the
      call found sessions but no transport, or could not queue it while nobody had it, or when it was deleted
      by a drain that found sessions but no transport, and no other drain has delivered it. */
  lemma {:induction false} LostExactlyWhen(steps: seq<Step>, copy: Copy)
    requires Served(Run(INIT, steps), copy)
    ensures var s := Run(INIT, steps);
      !Safe(s, copy) <==> copy in s.dropped || (copy in s.deleted && !Taken(s, copy))
    ensures Run(INIT, steps).deleted <= Run(INIT, steps).passed
  {
    InitHolds();
    RunKeepsInv(INIT, steps);
  }

  lemma {:induction false} DroppedStays(s: State, steps: seq<Step>, copy: Copy)
    requires copy in s.dropped
    ensures copy in Run(s, steps).dropped
    decreases |steps|
  {
    if steps != [] {
      DroppedStays(Apply(s, steps[0]), steps[1..], copy);
    }
  }

  /** What its call has dropped is lost for good. */
  lemma {:induction false} DroppedForGood(steps: seq<Step>, more: seq<Step>, copy: Copy)
    requires copy in Run(INIT, steps).dropped
    ensures !Safe(Run(Run(INIT, steps), more), copy)
  {
    InitHolds();
    RunKeepsInv(INIT, steps);
    RunKeepsInv(Run(INIT, steps), more);
    DroppedStays(Run(INIT, steps), more, copy);
  }

  /** No call or drain has found sessions but no transport. */
  ghost predicate Clean(s: State) {
    && s.dropped == {} && s.passed == {}
    && (forall id | id in s.calls && s.calls[id].pc.Sending? :: !Bare(s, s.calls[id].pc.targets))
    && (forall id | id in s.drains && s.drains[id].pc.SendingRow? :: !Bare(s, s.drains[id].pc.targets))
  }

  ghost predicate CleanPc(s: State, c: Call) {
    c.pc.Sending? ==> !Bare(s, c.pc.targets)
  }

  lemma CallKeepsClean(s: State, s': State, id: nat)
    requires Clean(s) && s'.known == s.known && s'.drains == s.drains && s'.dropped == {} && s'.passed == {}
    requires id in s'.calls && s'.calls == s.calls[id := s'.calls[id]] && CleanPc(s, s'.calls[id])
    ensures Clean(s')
  {
    forall i | i in s'.calls && s'.calls[i].pc.Sending? ensures !Bare(s', s'.calls[i].pc.targets) {
      assert i != id ==> !Bare(s, s.calls[i].pc.targets);
    }
  }

  lemma AdvanceCallFrame(s: State, id: nat, order: seq<nat>, ok: bool)
    requires id in s.calls && InPlace(s.calls[id])
    ensures var s' := AdvanceCall(s, id, order, ok);
      s'.known == s.known && s'.drains == s.drains && s'.passed == s.passed
  {
    match s.calls[id].pc
    case Next =>
    case CheckOnline(_) =>
    case Fetch(_) =>
    case Sending(_, _, _, _) =>
    case Insert(_) =>
    case Returned(_) =>
  }

  lemma AdvanceCallMoves(s: State, id: nat, order: seq<nat>, ok: bool)
    requires id in s.calls && InPlace(s.calls[id])
    ensures var s' := AdvanceCall(s, id, order, ok);
      id in s'.calls && s'.calls == s.calls[id := s'.calls[id]]
  {
    match s.calls[id].pc
    case Next =>
    case CheckOnline(_) =>
    case Fetch(_) => assert s.calls == s.calls[id := s.calls[id]];
    case Sending(_, _, _, _) =>
    case Insert(_) =>
    case Returned(_) => assert s.calls == s.calls[id := s.calls[id]];
  }

  lemma AdvanceCallKeepsClean(s: State, id: nat, order: seq<nat>, ok: bool)
    requires Clean(s) && id in s.calls && InPlace(s.calls[id]) && Provided(s, CallStep(id, order, ok))
    ensures Clean(AdvanceCall(s, id, order, ok))
  {
    var c, s' := s.calls[id], AdvanceCall(s, id, order, ok);
    AdvanceCallFrame(s, id, order, ok);
    AdvanceCallMoves(s, id, order, ok);
    assert s'.dropped == {} && CleanPc(s, s'.calls[id]) by {
      if c.pc.Sending? {
        assert !Bare(s, c.pc.targets);
      }
    }
    CallKeepsClean(s, s', id);
  }

  lemma DrainKeepsClean(s: State, s': State, id: nat)
    requires Clean(s) && s'.known == s.known && s'.calls == s.calls && s'.dropped == {} && s'.passed == {}
    requires id in s'.drains && s'.drains == s.drains[id := s'.drains[id]]
    requires s'.drains[id].pc.SendingRow? ==> !Bare(s, s'.drains[id].pc.targets)
    ensures Clean(s')
  {
    forall i | i in s'.drains && s'.drains[i].pc.SendingRow? ensures !Bare(s', s'.drains[i].pc.targets) {
      assert i != id ==> !Bare(s, s.drains[i].pc.targets);
    }
  }

  lemma AdvanceDrainFrame(s: State, id: nat, order: seq<nat>, ok: bool)
    requires id in s.drains
    ensures var s' := AdvanceDrain(s, id, order, ok);
      s'.known == s.known && s'.calls == s.calls && s'.dropped == s.dropped && s'.open == s.open
  {
    match s.drains[id].pc
    case NextRow =>
    case FetchFor(_) =>
    case SendingRow(_, _, _, _) =>
    case Deleting =>
    case Done(_) =>
  }

  lemma AdvanceDrainMoves(s: State, id: nat, order: seq<nat>, ok: bool)
    requires id in s.drains
    ensures var s' := AdvanceDrain(s, id, order, ok);
      id in s'.drains && s'.drains == s.drains[id := s'.drains[id]]
  {
    match s.drains[id].pc
    case NextRow =>
    case FetchFor(_) =>
    case SendingRow(_, _, _, _) =>
    case Deleting =>
    case Done(_) =>
  }

  lemma AdvanceDrainKeepsClean(s: State, id: nat, order: seq<nat>, ok: bool)
    requires Clean(s) && id in s.drains && Provided(s, DrainStep(id, order, ok))
    ensures Clean(AdvanceDrain(s, id, order, ok))
  {
    var d, s' := s.drains[id], AdvanceDrain(s, id, order, ok);
    AdvanceDrainFrame(s, id, order, ok);
    AdvanceDrainMoves(s, id, order, ok);
    if d.pc.SendingRow? {
      assert !Bare(s, d.pc.targets);
    }
    assert s'.passed == {};
    DrainKeepsClean(s, s', id);
  }

  lemma OpenKeepsClean(s: State, x: nat, e: Endpoint)
    requires Clean(s) && x !in s.known
    ensures Clean(s.(known := s.known[x := e], open := s.open + {x}))
  {
    var s' := s.(known := s.known[x := e], open := s.open + {x});
    forall targets | !Bare(s, targets) ensures !Bare(s', targets) {
      var y :| y in targets && HasTransport(s, y);
      assert HasTransport(s', y);
    }
  }

  lemma StepKeepsClean(s: State, step: Step)
    requires Clean(s) && Provided(s, step)
    ensures Clean(Apply(s, step))
  {
    match step
    case OpenSession(x, agent, hasTransport) =>
      if x !in s.known { OpenKeepsClean(s, x, Endpoint(agent, hasTransport)); }
    case CallStep(id, order, ok) =>
      if id in s.calls && InPlace(s.calls[id]) { AdvanceCallKeepsClean(s, id, order, ok); }
    case DrainStep(id, order, ok) => if id in s.drains { AdvanceDrainKeepsClean(s, id, order, ok); }
    case _ =>
  }

  lemma {:induction false} RunKeepsClean(s: State, steps: seq<Step>)
    requires Clean(s) && AlwaysProvided(s, steps)
    ensures Clean(Run(s, steps))
    decreases |steps|
  {
    if steps != [] {
      StepKeepsClean(s, steps[0]);
      RunKeepsClean(Apply(s, steps[0]), steps[1..]);
    }
  }

  /** Over every interleaving in which what an operator must provide is there, once a routing call has
      returned nil, each recipient's copy has been taken by a transport or is still pending. */
  lemma {:induction false} NoLoss(steps: seq<Step>)
    requires AlwaysProvided(INIT, steps)
    ensures NothingLost(Run(INIT, steps))
  {
    InitHolds();
    RunKeepsInv(INIT, steps);
    RunKeepsClean(INIT, steps);
    var s := Run(INIT, steps);
    forall id, to | id in s.calls && s.calls[id].pc == Returned(true) && to in s.calls[id].recipients
      ensures Safe(s, Copy(id, to))
    {
      assert CallInv(s, id, s.calls[id]);
      assert s.calls[id].recipients[..s.calls[id].served] == s.calls[id].recipients;
      assert Served(s, Copy(id, to));
    }
  }

  /** In every run whatever, no copy goes to anyone else's session. */
  lemma {:induction false} NothingMisdelivered(steps: seq<Step>)
    ensures NoMisdelivery(Run(INIT, steps))
  {
    InitHolds();
    RunKeepsInv(INIT, steps);
  }

  /** In every run a call that serves somebody has not served everybody. */
  lemma {:induction false} CallsStayInPlace(steps: seq<Step>, id: nat)
    requires id in Run(INIT, steps).calls
    ensures InPlace(Run(INIT, steps).calls[id])
  {
    InitHolds();
    RunKeepsInv(INIT, steps);
    assert CallInv(Run(INIT, steps), id, Run(INIT, steps).calls[id]);
  }

  // ---------- what must be provided is needed ----------

  lemma RunOne(s: State, step: Step, steps: seq<Step>)
    ensures Run(s, [step] + steps) == Run(Apply(s, step), steps)
  {
    assert ([step] + steps)[1..] == steps;
  }

  lemma {:induction false} RunThen(s: State, steps: seq<Step>, step: Step)
    ensures Run(s, steps + [step]) == Apply(Run(s, steps), step)
    decreases |steps|
  {
    if steps == [] {
      assert [] + [step] == [step] && [step][1..] == [];
    } else {
      assert (steps + [step])[1..] == steps[1..] + [step];
      RunThen(Apply(s, steps[0]), steps[1..], step);
    }
  }

  /** A run and the state it leads to, one step on. */
  lemma Then(steps: seq<Step>, s: State, step: Step) returns (steps': seq<Step>, s': State)
    requires Run(INIT, steps) == s
    ensures Run(INIT, steps') == s' == Apply(s, step)
  {
    steps', s' := steps + [step], Apply(s, step);
    RunThen(INIT, steps, step);
  }

  lemma IsLost(s: State, id: nat, to: Agent)
    requires id in s.calls && s.calls[id].pc == Returned(true) && to in s.calls[id].recipients
    requires s.accepted == {} && s.pending == map[]
    ensures !NothingLost(s)
  {
    assert !Safe(s, Copy(id, to));
  }

  /** A direct send to "a" has begun, whose only session has no transport. */
  lemma SendBegun() returns (steps: seq<Step>, s: State)
    ensures Run(INIT, steps) == s && s.accepted == {} && s.pending == map[]
    ensures s.known == map[7 := Endpoint("a", false)] && s.open == {7}
    ensures s.calls == map[0 := Call(Direct, ["a"], 0, CheckOnline("a"))]
  {
    steps, s := [], INIT;
    steps, s := Then(steps, s, OpenSession(7, "a", false));
    steps, s := Then(steps, s, StartCall(0, Direct, ["a"]));
    assert s.calls == map[0 := Call(Direct, ["a"], 0, Next)];
    steps, s := Then(steps, s, CallStep(0, [], true));
  }

  /** It has found session 7. */
  lemma FoundNoTransport() returns (steps: seq<Step>, s: State)
    ensures Run(INIT, steps) == s && s.accepted == {} && s.pending == map[] && !HasTransport(s, 7)
    ensures s.calls == map[0 := Call(Direct, ["a"], 0, Sending("a", [7], [7], false))]
  {
    steps, s := SendBegun();
    assert SessionsOf(s, "a") == {7};
    steps, s := Then(steps, s, CallStep(0, [], true));
    assert s.calls == map[0 := Call(Direct, ["a"], 0, Fetch("a"))];
    steps, s := Then(steps, s, CallStep(0, [7], true));
  }

  /** The only session of the recipient has no transport: the send returns nil and the copy is gone. */
  lemma NilTransportLoses() returns (steps: seq<Step>)
    ensures !NothingLost(Run(INIT, steps)) && Copy(0, "a") in Run(INIT, steps).dropped
  {
    var s, go := INIT, CallStep(0, [], true);
    steps, s := FoundNoTransport();
    steps, s := Then(steps, s, go);
    assert s.calls[0].pc == Sending("a", [7], [], false);
    steps, s := Then(steps, s, go);
    steps, s := Then(steps, s, go);
    IsLost(s, 0, "a");
  }

  /** A call that sends to "a", who is offline, is about to queue the copy. */
  lemma CallOffline(kind: Kind) returns (steps: seq<Step>, s: State)
    ensures Run(INIT, steps) == s && s == INIT.(calls := map[0 := Call(kind, ["a"], 0, Insert("a"))])
  {
    var go := CallStep(0, [], true);
    steps, s := [], INIT;
    steps, s := Then(steps, s, StartCall(0, kind, ["a"]));
    assert s.calls == map[0 := Call(kind, ["a"], 0, Next)];
    steps, s := Then(steps, s, go);
    assert s.calls == map[0 := Call(kind, ["a"], 0, CheckOnline("a"))];
    assert SessionsOf(s, "a") == {};
    steps, s := Then(steps, s, go);
  }

  /** The agent is offline and the insert of a fan-out fails: that is not reported, and the copy is gone. */
  lemma FailedInsertLoses() returns (steps: seq<Step>)
    ensures !NothingLost(Run(INIT, steps)) && Copy(0, "a") in Run(INIT, steps).dropped
  {
    var s;
    steps, s := CallOffline(FanOut);
    steps, s := Then(steps, s, CallStep(0, [], false));
    assert s.calls == map[0 := Call(FanOut, ["a"], 1, Next)];
    steps, s := Then(steps, s, CallStep(0, [], true));
    IsLost(s, 0, "a");
  }

  /** It has queued it and returned nil. */
  lemma SentOffline() returns (steps: seq<Step>, s: State)
    ensures Run(INIT, steps) == s && s.accepted == {} && s.known == map[] && s.drains == map[] && s.open == {}
    ensures s.pending == map[0 := Copy(0, "a")]
    ensures s.calls == map[0 := Call(Direct, ["a"], 1, Returned(true))]
  {
    steps, s := CallOffline(Direct);
    steps, s := Then(steps, s, CallStep(0, [], true));
    assert s.calls == map[0 := Call(Direct, ["a"], 1, Next)] && s.pending == map[0 := Copy(0, "a")];
    steps, s := Then(steps, s, CallStep(0, [], true));
  }

  /** Then the agent has opened a session without a transport, and a drain has begun. */
  lemma DrainBegun() returns (steps: seq<Step>, s: State)
    ensures Run(INIT, steps) == s && s.accepted == {} && s.pending == map[0 := Copy(0, "a")]
    ensures s.calls == map[0 := Call(Direct, ["a"], 1, Returned(true))]
    ensures s.known == map[7 := Endpoint("a", false)] && s.open == {7}
    ensures s.drains == map[0 := Drain("a", [Row(0, Copy(0, "a"))], [], [], 0, NextRow)]
  {
    steps, s := SentOffline();
    steps, s := Then(steps, s, OpenSession(7, "a", false));
    assert RowsOf(s, "a") == {0};
    var rows := Fetched(s, [0]);
    assert rows == [Row(0, Copy(0, "a"))];
    steps, s := Then(steps, s, StartDrain(0, "a", [0]));
  }

  /** It has taken its row up. */
  lemma DrainStarted() returns (steps: seq<Step>, s: State)
    ensures Run(INIT, steps) == s && s.accepted == {} && s.pending == map[0 := Copy(0, "a")]
    ensures s.calls == map[0 := Call(Direct, ["a"], 1, Returned(true))]
    ensures SessionsOf(s, "a") == {7} && !HasTransport(s, 7)
    ensures s.drains == map[0 := Drain("a", [], [], [], 0, FetchFor(Row(0, Copy(0, "a"))))]
  {
    steps, s := DrainBegun();
    steps, s := Then(steps, s, DrainStep(0, [], true));
    assert s.drains[0].left == [];
  }

  lemma DrainPassed() returns (steps: seq<Step>, s: State)
    ensures Run(INIT, steps) == s && s.accepted == {} && s.pending == map[0 := Copy(0, "a")]
    ensures s.calls == map[0 := Call(Direct, ["a"], 1, Returned(true))]
    ensures s.drains == map[0 := Drain("a", [], [Row(0, Copy(0, "a"))], [Row(0, Copy(0, "a"))], 1, NextRow)]
  {
    var drain := DrainStep(0, [], true);
    steps, s := DrainStarted();
    steps, s := Then(steps, s, DrainStep(0, [7], true));
    assert s.drains[0].pc == SendingRow(Row(0, Copy(0, "a")), [7], [7], false);
    steps, s := Then(steps, s, drain);
    assert s.drains[0].pc == SendingRow(Row(0, Copy(0, "a")), [7], [], false);
    steps, s := Then(steps, s, drain);
    assert s.drains[0].sent == [Row(0, Copy(0, "a"))];
  }

  /** So the drain takes the row for sent and deletes it, and the copy is gone. */
  lemma NilTransportDeletes() returns (steps: seq<Step>)
    ensures !NothingLost(Run(INIT, steps)) && Copy(0, "a") in Run(INIT, steps).deleted
  {
    var s, drain := INIT, DrainStep(0, [], true);
    steps, s := DrainPassed();
    steps, s := Then(steps, s, drain);
    steps, s := Then(steps, s, drain);
    assert s.pending == map[];
    IsLost(s, 0, "a");
  }
}
