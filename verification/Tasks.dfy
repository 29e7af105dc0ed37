// Task rows hold their state twice: in a column, and inside the status JSON. Handlers write both, a
// cancel writes only the column, and reading prefers the JSON. The states are those of section 6.3
// (TaskState) of the A2A specification v0.3.
module Tasks {
  import opened Common

  datatype TaskState =
    | Unspecified | Submitted | Working | Completed | Failed | Canceled | InputRequired | Rejected | AuthRequired

  datatype Row = Row(column: TaskState, json: Option<TaskState>)

  type Rows = map<string, Row>

  predicate IsTerminal(s: TaskState) {
    s == Completed || s == Failed || s == Canceled || s == Rejected
  }

  // ---------- statements ----------

  function Created(rows: Rows, id: string, state: TaskState): Rows {
    if id in rows then rows else rows[id := Row(state, Some(state))]
  }

  function Updated(rows: Rows, id: string, state: TaskState): Rows {
    if id in rows then rows[id := Row(state, Some(state))] else rows
  }

  function Cancelled(rows: Rows, id: string): Rows {
    if id in rows && !IsTerminal(rows[id].column) then rows[id := rows[id].(column := Canceled)] else rows
  }

  /** What Get reports: the JSON wins over the column. */
  function Reported(row: Row): TaskState {
    if row.json.Some? then row.json.value else row.column
  }

  class TaskStore {
    var rows: Rows

    constructor ()
      ensures rows == map[]
    {
      rows := map[];
    }

    /** The primary key refuses a second row of the same id; fault makes the statement fail in any case. */
    method Create(id: string, state: TaskState, fault: bool) returns (ok: bool)
      modifies this
      ensures ok <==> !fault && id !in old(rows)
      ensures rows == if ok then old(rows)[id := Row(state, Some(state))] else old(rows)
    {
      ok := !fault && id !in rows;
      if ok {
        rows := rows[id := Row(state, Some(state))];
      }
    }

    method Update(id: string, state: TaskState, fault: bool) returns (ok: bool)
      modifies this
      ensures ok <==> !fault
      ensures rows == if ok && id in old(rows) then old(rows)[id := Row(state, Some(state))] else old(rows)
      ensures rows == if ok then Updated(old(rows), id, state) else old(rows)
    {
      ok := !fault;
      if ok && id in rows {
        rows := rows[id := Row(state, Some(state))];
      }
    }

    /** The statement is guarded by the column, and leaves the JSON alone. */
    method Cancel(id: string, fault: bool) returns (ok: bool)
      modifies this
      ensures ok <==> !fault
      ensures ok && id in old(rows) && old(rows)[id].column !in {Completed, Failed, Canceled, Rejected} ==>
        rows == old(rows)[id := Row(Canceled, old(rows)[id].json)]
      ensures rows == if ok then Cancelled(old(rows), id) else old(rows)
    {
      ok := !fault;
      if ok && id in rows && rows[id].column !in {Completed, Failed, Canceled, Rejected} {
        rows := rows[id := rows[id].(column := Canceled)];
      }
    }

    method Get(id: string) returns (state: Option<TaskState>)
      ensures state ==
        if id !in rows then None else if rows[id].json.Some? then rows[id].json else Some(rows[id].column)
    {
      if id !in rows {
        return None;
      }
      var status := rows[id].column;
      if rows[id].json.Some? {
        status := rows[id].json.value;
      }
      state := Some(status);
    }
  }

  // ---------- handlers ----------

  /** The three ways a message becomes a task. */
  datatype Program = Forward | Local | Streaming

  datatype Pc = AtCreate | AtWorking | AtFinal | Done

  datatype Handler = Handler(program: Program, pc: Pc)

  /** Seen lists, per task, what Get has reported so far. */
  datatype State = State(rows: Rows, handlers: map<string, Handler>, seen: map<string, seq<TaskState>>)

  /** Every task id is new. Ok tells whether a handler's statement succeeded, and failed whether the agent
      that a message was forwarded to failed. */
  datatype Step =
    | Start(id: string, program: Program)
    | Advance(id: string, ok: bool, failed: bool)
    | CancelTask(id: string)
    | GetTask(id: string)

  const INIT := State(map[], map[], map[])

  function SeenOf(s: State, id: string): seq<TaskState> {
    if id in s.seen then s.seen[id] else []
  }

  /** One statement of a handler. Errors of updates are ignored; only the streaming handler goes on after
      a failed create. */
  function AdvanceHandler(s: State, id: string, ok: bool, failed: bool): State
    requires id in s.handlers
  {
    var h := s.handlers[id];
    match h.pc
    case AtCreate =>
      var rows := if ok then Created(s.rows, id, Submitted) else s.rows;
      var pc := if !ok && h.program != Streaming then Done else if h.program == Local then AtFinal else AtWorking;
      s.(rows := rows, handlers := s.handlers[id := h.(pc := pc)])
    case AtWorking =>
      s.(rows := if ok then Updated(s.rows, id, Working) else s.rows, handlers := s.handlers[id := h.(pc := AtFinal)])
    case AtFinal =>
      var state := if h.program == Forward && failed then Failed else Completed;
      s.(rows := if ok then Updated(s.rows, id, state) else s.rows, handlers := s.handlers[id := h.(pc := Done)])
    case Done => s
  }

  function Apply(s: State, step: Step): State {
    match step
    case Start(id, program) =>
      if id in s.handlers then s else s.(handlers := s.handlers[id := Handler(program, AtCreate)])
    case Advance(id, ok, failed) => if id in s.handlers then AdvanceHandler(s, id, ok, failed) else s
    case CancelTask(id) => s.(rows := Cancelled(s.rows, id))
    case GetTask(id) =>
      if id !in s.rows then s else s.(seen := s.seen[id := SeenOf(s, id) + [Reported(s.rows[id])]])
  }

  function Run(s: State, steps: seq<Step>): State
    decreases |steps|
  {
    if steps == [] then s else Run(Apply(s, steps[0]), steps[1..])
  }

  // ---------- the reported state only moves forward ----------

  function Rank(s: TaskState): nat {
    match s
    case Submitted => 0
    case Working => 1
    case Completed => 2
    case Failed => 2
    case _ => 3
  }

  /** From a to b is a step forward, and out of a terminal state there is none. */
  predicate NotBack(a: TaskState, b: TaskState) {
    Rank(a) <= Rank(b) <= 2 && (IsTerminal(a) ==> b == a)
  }

  ghost predicate OnlyForward(seen: seq<TaskState>) {
    forall i, j | 0 <= i <= j < |seen| :: NotBack(seen[i], seen[j])
  }

  ghost predicate TaskInv(s: State, id: string) {
    && (id in s.rows ==> id in s.handlers && s.handlers[id].pc != AtCreate)
    && (id !in s.rows ==> SeenOf(s, id) == [])
    && OnlyForward(SeenOf(s, id))
    && (id in s.rows ==>
          var row := s.rows[id];
          && row.json.Some? && Rank(row.json.value) <= 2
          && (s.handlers[id].pc == AtWorking ==> row.json.value == Submitted)
          && (s.handlers[id].pc == AtFinal ==> Rank(row.json.value) <= 1)
          && (row.column == row.json.value || row.column == Canceled)
          && forall i | 0 <= i < |SeenOf(s, id)| :: NotBack(SeenOf(s, id)[i], row.json.value))
  }

  ghost predicate Inv(s: State) {
    forall id :: TaskInv(s, id)
  }

  lemma AdvanceKeepsTask(s: State, id: string, ok: bool, failed: bool)
    requires Inv(s) && id in s.handlers
    ensures TaskInv(AdvanceHandler(s, id, ok, failed), id)
  {
    assert TaskInv(s, id);
    var s' := AdvanceHandler(s, id, ok, failed);
    assert SeenOf(s', id) == SeenOf(s, id);
  }

  lemma StepKeepsInv(s: State, step: Step)
    requires Inv(s)
    ensures Inv(Apply(s, step))
  {
    var s' := Apply(s, step);
    forall id ensures TaskInv(s', id) {
      if step.id == id {
        StepKeepsTask(s, step);
      } else {
        OtherKeepsTask(s, step, id);
      }
    }
  }

  lemma OtherKeepsTask(s: State, step: Step, id: string)
    requires Inv(s) && step.id != id
    ensures TaskInv(Apply(s, step), id)
  {
    var s' := Apply(s, step);
    assert TaskInv(s, id);
    assert SeenOf(s', id) == SeenOf(s, id);
    assert id in s'.rows <==> id in s.rows;
    assert id in s.rows ==> s'.rows[id] == s.rows[id];
    assert id in s.handlers ==> id in s'.handlers && s'.handlers[id] == s.handlers[id];
  }

  lemma StepKeepsTask(s: State, step: Step)
    requires Inv(s)
    ensures TaskInv(Apply(s, step), step.id)
  {
    assert TaskInv(s, step.id);
    match step
    case Start(_, _) =>
    case Advance(id, ok, failed) => if id in s.handlers { AdvanceKeepsTask(s, id, ok, failed); }
    case CancelTask(_) =>
    case GetTask(_) =>
  }

  lemma {:induction false} RunKeepsInv(s: State, steps: seq<Step>)
    requires Inv(s)
    ensures Inv(Run(s, steps))
    decreases |steps|
  {
    if steps != [] {
      StepKeepsInv(s, steps[0]);
      RunKeepsInv(Apply(s, steps[0]), steps[1..]);
    }
  }

  /** Over every interleaving of handlers, cancels and reads, what Get reports of a task goes from
      SUBMITTED through WORKING to COMPLETED or FAILED and never leaves a terminal state; a cancel never
      shows. Column and JSON differ only where a cancel has put CANCELED into the column. */
  lemma ReportedStateMovesForward(steps: seq<Step>, id: string)
    ensures var s := Run(INIT, steps);
      OnlyForward(SeenOf(s, id)) && Canceled !in SeenOf(s, id) &&
      (id in s.rows ==> s.rows[id].column == Reported(s.rows[id]) || s.rows[id].column == Canceled)
  {
    assert Inv(INIT);
    RunKeepsInv(INIT, steps);
    var s := Run(INIT, steps);
    assert TaskInv(s, id);
    forall i | 0 <= i < |SeenOf(s, id)| ensures SeenOf(s, id)[i] != Canceled {
      assert NotBack(SeenOf(s, id)[i], SeenOf(s, id)[i]);
    }
  }

  // ---------- what a handler reports ----------

  function FinalState(program: Program, failed: bool): TaskState {
    if program == Forward && failed then Failed else Completed
  }

  /** Get after every statement of a handler. */
  function Watched(id: string, program: Program, failed: bool): seq<Step> {
    var both := [Advance(id, true, failed), GetTask(id)];
    [Start(id, program)] + both + (if program == Local then [] else both) + both
  }

  lemma RunThen(s: State, step: Step, more: seq<Step>)
    ensures Run(s, [step] + more) == Run(Apply(s, step), more)
  {
    assert ([step] + more)[1..] == more;
  }

  /** One statement that succeeds, and a Get behind it. */
  function Shown(s: State, id: string, failed: bool): State {
    Apply(Apply(s, Advance(id, true, failed)), GetTask(id))
  }

  lemma ShowsNext(s: State, id: string, failed: bool)
    requires id in s.handlers && s.handlers[id].pc != Done && (id in s.rows <==> s.handlers[id].pc != AtCreate)
    ensures var s', h := Shown(s, id, failed), s.handlers[id];
      var state :=
        match h.pc
        case AtCreate => Submitted
        case AtWorking => Working
        case _ => FinalState(h.program, failed);
      var pc := if h.pc == AtFinal then Done else if h.pc == AtCreate && h.program != Local then AtWorking else AtFinal;
      && id in s'.rows && s'.rows[id] == Row(state, Some(state)) && SeenOf(s', id) == SeenOf(s, id) + [state]
      && id in s'.handlers && s'.handlers[id] == h.(pc := pc)
  {
  }

  lemma {:induction false} WatchedShows(s: State, id: string, program: Program, failed: bool)
    ensures var s1 := Shown(Apply(s, Start(id, program)), id, failed);
      Run(s, Watched(id, program, failed)) == Shown(if program == Local then s1 else Shown(s1, id, failed), id, failed)
  {
    var step, get := Advance(id, true, failed), GetTask(id);
    var ending := [step, get];
    var middle := if program == Local then [] else [step, get];
    assert Watched(id, program, failed) == [Start(id, program)] + ([step, get] + (middle + ending));
    RunThen(s, Start(id, program), [step, get] + (middle + ending));
    var s0 := Apply(s, Start(id, program));
    RunTwo(s0, step, get, middle + ending);
    var s1 := Shown(s0, id, failed);
    RunTwo(s1, step, get, ending);
    assert program == Local ==> middle + ending == ending;
    RunTwo(if program == Local then s1 else Shown(s1, id, failed), step, get, []);
    assert ending + [] == ending;
  }

  /** A handler that nothing fails takes its task from SUBMITTED over WORKING, which a local one leaves out, to
      FAILED if it forwards to an agent that fails, and else to COMPLETED. Column and JSON agree on it. */
  lemma {:induction false} EveryStateShows(s: State, id: string, program: Program, failed: bool)
    requires TaskInv(s, id) && id !in s.handlers
    ensures var s' := Run(s, Watched(id, program, failed));
      && SeenOf(s', id) == [Submitted] + (if program == Local then [] else [Working]) + [FinalState(program, failed)]
      && id in s'.rows && s'.rows[id] == Row(FinalState(program, failed), Some(FinalState(program, failed)))
      && id in s'.handlers && s'.handlers[id].pc == Done
  {
    WatchedShows(s, id, program, failed);
    var s0 := Apply(s, Start(id, program));
    ShowsNext(s0, id, failed);
    var s1 := Shown(s0, id, failed);
    ShowsNext(s1, id, failed);
    if program != Local {
      ShowsNext(Shown(s1, id, failed), id, failed);
    }
  }

  lemma RunTwo(s: State, first: Step, second: Step, more: seq<Step>)
    ensures Run(s, [first, second] + more) == Run(Apply(Apply(s, first), second), more)
  {
    assert ([first, second] + more)[1..] == [second] + more;
    RunThen(Apply(s, first), second, more);
  }

  /** Whatever happens afterwards, the last successful statement of a handler decides what Get reports. */
  lemma {:induction false} FinalStateStays(s: State, id: string, failed: bool, more: seq<Step>)
    requires id in s.handlers && s.handlers[id].pc == AtFinal && id in s.rows
    ensures var s' := Run(Apply(s, Advance(id, true, failed)), more);
      id in s'.rows && Reported(s'.rows[id]) == FinalState(s.handlers[id].program, failed)
  {
    DoneKeepsReport(Apply(s, Advance(id, true, failed)), id, more);
  }

  lemma {:induction false} DoneKeepsReport(s: State, id: string, more: seq<Step>)
    requires id in s.handlers && s.handlers[id].pc == Done && id in s.rows && s.rows[id].json.Some?
    ensures var s' := Run(s, more); id in s'.rows && s'.rows[id].json == s.rows[id].json
    decreases |more|
  {
    if more != [] {
      DoneKeepsReport(Apply(s, more[0]), id, more[1..]);
    }
  }

  // ---------- cancel ----------

  /** Cancel changes a row exactly when its column is not terminal, and never what Get reports of a row
      that a handler wrote. */
  lemma CancelLeavesTerminalRows(rows: Rows, id: string)
    ensures Cancelled(rows, id) == rows <==> id !in rows || IsTerminal(rows[id].column)
    ensures id in rows && rows[id].json.Some? ==> Reported(Cancelled(rows, id)[id]) == Reported(rows[id])
  {
    if id in rows && !IsTerminal(rows[id].column) {
      assert Cancelled(rows, id)[id].column == Canceled != rows[id].column;
    }
  }

  ghost predicate ColumnCanceled(s: State, id: string) {
    id in s.rows && s.rows[id].column == Canceled
  }

  lemma {:induction false} DoneStaysCanceled(s: State, id: string, steps: seq<Step>)
    requires ColumnCanceled(s, id) && id in s.handlers && s.handlers[id].pc == Done
    ensures ColumnCanceled(Run(s, steps), id)
    decreases |steps|
  {
    if steps != [] {
      DoneStaysCanceled(Apply(s, steps[0]), id, steps[1..]);
    }
  }

  lemma NextUpdateOverwrites(s: State, id: string) returns (more: seq<Step>)
    requires TaskInv(s, id) && ColumnCanceled(s, id) && s.handlers[id].pc != Done
    ensures !ColumnCanceled(Run(s, more), id)
  {
    more := [Advance(id, true, false)];
    assert more[1..] == [];
    var s' := Apply(s, more[0]);
    assert !ColumnCanceled(s', id);
    assert Run(s', []) == s';
    assert Run(s, more) == Run(s', more[1..]);
  }

  /** CANCELED in the column is final exactly when the handler of that id has finished: before that, its next
      successful update overwrites it. */
  lemma CanceledIsFinalOnceHandlerIsDone(steps: seq<Step>, id: string)
    requires ColumnCanceled(Run(INIT, steps), id)
    ensures var s := Run(INIT, steps);
      id in s.handlers &&
      (s.handlers[id].pc == Done <==> forall more :: ColumnCanceled(Run(s, more), id))
  {
    assert Inv(INIT);
    RunKeepsInv(INIT, steps);
    var s := Run(INIT, steps);
    assert TaskInv(s, id);
    if s.handlers[id].pc == Done {
      forall more ensures ColumnCanceled(Run(s, more), id) {
        DoneStaysCanceled(s, id, more);
      }
    } else {
      var more := NextUpdateOverwrites(s, id);
    }
  }
}
