// Endorsements that run side by side. Each one is an INSERT, a COUNT and an UPDATE without a lock around
// them, so the stored score can lag behind the endorsers and even fall. Social treats the same statements one
// event after the other, with nobody else at work.
module Reputation {
  import opened Common
  import opened Social

  /** Where an endorsement stands. Behind its count it knows how many endorsers that was, and which. */
  datatype Pc = AtInsert | AtCount | AtUpdate(count: nat, counted: set<Agent>) | Finished(ok: bool)

  datatype Thread = Thread(from: Agent, to: Agent, pc: Pc)

  /** Behind records, per agent, which endorsers the count behind the last update of its score has seen. */
  datatype State = State(
    scores: map<Agent, real>,          // the agents table
    rows: set<(Agent, Agent)>,         // the endorsement rows, from and to
    threads: map<nat, Thread>,
    behind: map<Agent, set<Agent>>)

  /** Ok tells whether the thread's next statement succeeds. */
  datatype Step =
    | Register(agent: Agent)
    | Begin(thread: nat, from: Agent, to: Agent)
    | Advance(thread: nat, ok: bool)

  const INIT := State(map[], {}, map[], map[])

  function EndorsersOf(s: State, a: Agent): set<Agent> {
    set p | p in s.rows && p.1 == a :: p.0
  }

  /** Whom the stored score of a counts. */
  function Behind(s: State, a: Agent): set<Agent> {
    if a in s.behind then s.behind[a] else {}
  }

  function Move(s: State, id: nat, pc: Pc): State
    requires id in s.threads
  {
    s.(threads := s.threads[id := s.threads[id].(pc := pc)])
  }

  /** The foreign keys let the row through, and it may be there already. */
  function InsertRow(s: State, id: nat, ok: bool): State
    requires id in s.threads
  {
    var th := s.threads[id];
    if !ok || th.from !in s.scores || th.to !in s.scores then Move(s, id, Finished(false))
    else Move(s, id, AtCount).(rows := s.rows + {(th.from, th.to)})
  }

  /** The error of the count is dropped, and then it is 0. */
  function CountRows(s: State, id: nat, ok: bool): State
    requires id in s.threads
  {
    var counted := if ok then EndorsersOf(s, s.threads[id].to) else {};
    Move(s, id, AtUpdate(|counted|, counted))
  }

  /** The error of the update is dropped too. */
  function UpdateScore(s: State, id: nat, ok: bool): State
    requires id in s.threads && s.threads[id].pc.AtUpdate?
  {
    var th := s.threads[id];
    if !ok || th.to !in s.scores then Move(s, id, Finished(true))
    else
      Move(s, id, Finished(true))
        .(scores := s.scores[th.to := Score(th.pc.count)], behind := s.behind[th.to := th.pc.counted])
  }

  function Apply(s: State, step: Step): State {
    match step
    case Register(a) => if a in s.scores then s else s.(scores := s.scores[a := 0.0])
    case Begin(id, from, to) =>
      if id in s.threads then s else s.(threads := s.threads[id := Thread(from, to, AtInsert)])
    case Advance(id, ok) =>
      if id !in s.threads then s
      else
        match s.threads[id].pc
        case AtInsert => InsertRow(s, id, ok)
        case AtCount => CountRows(s, id, ok)
        case AtUpdate(_, _) => UpdateScore(s, id, ok)
        case Finished(_) => s
  }

  function Run(s: State, steps: seq<Step>): State
    decreases |steps|
  {
    if steps == [] then s else Run(Apply(s, steps[0]), steps[1..])
  }

  // ---------- what is stored ----------

  ghost predicate ThreadInv(s: State, th: Thread) {
    th.pc.AtUpdate? ==> th.pc.count == |th.pc.counted| && th.pc.counted <= EndorsersOf(s, th.to)
  }

  /** The stored score is that of the endorsers that were counted, who all are endorsers. */
  ghost predicate ScoreInv(s: State, a: Agent) {
    && Behind(s, a) <= EndorsersOf(s, a)
    && (a in s.scores ==> s.scores[a] == Score(|Behind(s, a)|))
    && (a !in s.scores ==> Behind(s, a) == {})
  }

  ghost predicate Inv(s: State) {
    && (forall id | id in s.threads :: ThreadInv(s, s.threads[id]))
    && (forall a :: ScoreInv(s, a))
  }

  lemma MoreRows(s: State, s': State, a: Agent)
    requires s.rows <= s'.rows
    ensures EndorsersOf(s, a) <= EndorsersOf(s', a)
  {
    forall b | b in EndorsersOf(s, a) ensures b in EndorsersOf(s', a) {
      assert (b, a) in s'.rows;
    }
  }

  /** A step that only adds rows and moves threads, whose new position is all right, keeps the invariant. */
  lemma RowsKeepInv(s: State, s': State)
    requires Inv(s) && s.rows <= s'.rows && s'.scores == s.scores && s'.behind == s.behind
    requires forall id | id in s'.threads ::
      (id in s.threads && s'.threads[id] == s.threads[id]) || ThreadInv(s', s'.threads[id])
    ensures Inv(s')
  {
    forall id | id in s'.threads ensures ThreadInv(s', s'.threads[id]) {
      MoreRows(s, s', s'.threads[id].to);
      if id in s.threads && s'.threads[id] == s.threads[id] { assert ThreadInv(s, s.threads[id]); }
    }
    forall a ensures ScoreInv(s', a) {
      MoreRows(s, s', a);
      assert ScoreInv(s, a);
    }
  }

  lemma UpdateKeepsInv(s: State, id: nat, ok: bool)
    requires Inv(s) && id in s.threads && s.threads[id].pc.AtUpdate?
    ensures Inv(UpdateScore(s, id, ok))
  {
    var s', th := UpdateScore(s, id, ok), s.threads[id];
    assert ThreadInv(s, th);
    forall i | i in s'.threads ensures ThreadInv(s', s'.threads[i]) {
      if i != id { assert ThreadInv(s, s.threads[i]); }
      MoreRows(s, s', s'.threads[i].to);
    }
    forall a ensures ScoreInv(s', a) {
      MoreRows(s, s', a);
      assert ScoreInv(s, a);
    }
  }

  lemma RegisterKeepsInv(s: State, a: Agent)
    requires Inv(s)
    ensures Inv(Apply(s, Register(a)))
  {
    var s' := Apply(s, Register(a));
    forall id | id in s'.threads ensures ThreadInv(s', s'.threads[id]) {
      assert ThreadInv(s, s.threads[id]);
      MoreRows(s, s', s'.threads[id].to);
    }
    forall b ensures ScoreInv(s', b) {
      MoreRows(s, s', b);
      assert ScoreInv(s, b);
      assert Score(0) == 0.0;
    }
  }

  lemma StepKeepsInv(s: State, step: Step)
    requires Inv(s)
    ensures Inv(Apply(s, step))
  {
    match step
    case Register(a) => RegisterKeepsInv(s, a);
    case Begin(_, _, _) => RowsKeepInv(s, Apply(s, step));
    case Advance(id, ok) =>
      if id in s.threads {
        match s.threads[id].pc
        case AtInsert => RowsKeepInv(s, InsertRow(s, id, ok));
        case AtCount =>
          MoreRows(s, CountRows(s, id, ok), s.threads[id].to);
          RowsKeepInv(s, CountRows(s, id, ok));
        case AtUpdate(_, _) => UpdateKeepsInv(s, id, ok);
        case Finished(_) =>
      }
  }

  lemma {:induction false} RunKeepsInv(s: State, steps: seq<Step>)
    requires Inv(s)
    ensures Inv(Run(s, steps))
    decreases |steps|
  {
    if steps != [] {
      StepKeepsInv(s, steps[0]);
      RunKeepsInv(Apply(s, steps[0]), steps[1..]);
    }
  }

  lemma InitHolds()
    ensures Inv(INIT)
  {
    forall a ensures ScoreInv(INIT, a) { assert Score(0) == 0.0; }
  }

  lemma Subset(a: set<Agent>, b: set<Agent>)
    requires a <= b
    ensures |a| <= |b| && (|a| == |b| <==> a == b)
  {
    assert b == a + (b - a);
  }

  /** Over every interleaving, whatever fails, the stored score is never above that of the endorsers, and it is
      that one exactly when the count behind the last update has seen every endorser. */
  lemma {:induction false} ScoreRightExactlyWhen(steps: seq<Step>, a: Agent)
    requires a in Run(INIT, steps).scores
    ensures var s := Run(INIT, steps);
      && s.scores[a] <= Score(|EndorsersOf(s, a)|) < 1.0
      && (s.scores[a] == Score(|EndorsersOf(s, a)|) <==> Behind(s, a) == EndorsersOf(s, a))
  {
    InitHolds();
    RunKeepsInv(INIT, steps);
    var s := Run(INIT, steps);
    assert ScoreInv(s, a);
    Subset(Behind(s, a), EndorsersOf(s, a));
    ScoreGrows(|Behind(s, a)|, |EndorsersOf(s, a)|);
    ScoreIsInjective(|Behind(s, a)|, |EndorsersOf(s, a)|);
    ScoreBelowOne(|EndorsersOf(s, a)|);
  }

  /** The step is a successful update that counts fewer endorsers than the score does. */
  predicate Lowers(s: State, step: Step, a: Agent) {
    step.Advance? && step.ok && step.thread in s.threads && s.threads[step.thread].to == a &&
    s.threads[step.thread].pc.AtUpdate? && s.threads[step.thread].pc.count < |Behind(s, a)|
  }

  /** In every run, a step lowers a score exactly when it is such an update. */
  lemma {:induction false} FallsExactlyWhen(steps: seq<Step>, step: Step, a: Agent)
    requires a in Run(INIT, steps).scores
    ensures var s := Run(INIT, steps);
      a in Apply(s, step).scores && (Apply(s, step).scores[a] < s.scores[a] <==> Lowers(s, step, a))
  {
    InitHolds();
    RunKeepsInv(INIT, steps);
    var s := Run(INIT, steps);
    assert ScoreInv(s, a);
    if step.Advance? && step.thread in s.threads && s.threads[step.thread].pc.AtUpdate? {
      var n := s.threads[step.thread].pc.count;
      ScoreIsStrict(n, |Behind(s, a)|);
    }
  }

  lemma ScoreIsStrict(m: nat, n: nat)
    ensures Score(m) < Score(n) <==> m < n
  {
    ScoreIsInjective(m, n);
    if m < n {
      ScoreGrows(m, n);
    } else {
      ScoreGrows(n, m);
    }
  }

  // ---------- one endorsement at a time for each agent ----------

  predicate Active(th: Thread) {
    !th.pc.Finished?
  }

  /** What a caller can see to: nobody begins to endorse an agent while another endorsement of it is under
      way, and counts and updates succeed. */
  predicate Careful(s: State, step: Step) {
    match step
    case Register(_) => true
    case Begin(_, _, to) => forall id | id in s.threads && s.threads[id].to == to :: !Active(s.threads[id])
    case Advance(id, ok) => id in s.threads && !s.threads[id].pc.AtInsert? ==> ok
  }

  predicate AlwaysCareful(s: State, steps: seq<Step>)
    decreases |steps|
  {
    steps == [] || (Careful(s, steps[0]) && AlwaysCareful(Apply(s, steps[0]), steps[1..]))
  }

  ghost predicate OneEach(s: State) {
    forall i, j | i in s.threads && j in s.threads && Active(s.threads[i]) && Active(s.threads[j]) &&
      s.threads[i].to == s.threads[j].to :: i == j
  }

  /** An endorsement that has counted has seen everybody. */
  ghost predicate UpToDate(s: State, th: Thread) {
    && (th.pc.AtUpdate? ==> th.pc.counted == EndorsersOf(s, th.to))
    && (th.pc.AtCount? || th.pc.AtUpdate? ==> th.to in s.scores)
  }

  /** Nobody is between the insert and the update of an endorsement of a. */
  predicate Quiet(s: State, a: Agent) {
    forall id | id in s.threads && s.threads[id].to == a :: !(s.threads[id].pc.AtCount? || s.threads[id].pc.AtUpdate?)
  }

  ghost predicate CarefulInv(s: State) {
    && OneEach(s) && (forall id | id in s.threads :: UpToDate(s, s.threads[id]))
    && (forall a | Quiet(s, a) :: Behind(s, a) == EndorsersOf(s, a))
  }

  lemma InsertKeepsCareful(s: State, id: nat, ok: bool)
    requires Inv(s) && CarefulInv(s) && id in s.threads && s.threads[id].pc.AtInsert?
    ensures CarefulInv(InsertRow(s, id, ok))
  {
    var s', th := InsertRow(s, id, ok), s.threads[id];
    OthersEndorsers(s, s', th.to);
    forall i | i in s'.threads ensures UpToDate(s', s'.threads[i]) {
      if i != id { assert UpToDate(s, s.threads[i]); }
    }
    forall a | Quiet(s', a) ensures Behind(s', a) == EndorsersOf(s', a) {
      if a == th.to {
        assert s'.threads[id].pc == Finished(false) && s'.rows == s.rows;
        assert s'.threads[id].to == a;
      }
      assert Quiet(s, a) by { QuietBefore(s, s', id, a); }
    }
  }

  lemma QuietBefore(s: State, s': State, id: nat, a: Agent)
    requires id in s.threads && s.threads[id].pc.AtInsert? && Quiet(s', a)
    requires forall i | i in s.threads && i != id :: i in s'.threads && s'.threads[i] == s.threads[i]
    ensures Quiet(s, a)
  {
    forall i | i in s.threads && s.threads[i].to == a
      ensures !(s.threads[i].pc.AtCount? || s.threads[i].pc.AtUpdate?)
    {
      if i != id { assert s'.threads[i].to == a; }
    }
  }

  /** A row endorses its target and nobody else. */
  lemma OthersEndorsers(s: State, s': State, to: Agent)
    requires s.rows <= s'.rows && forall p | p in s'.rows && p !in s.rows :: p.1 == to
    ensures forall a | a != to :: EndorsersOf(s', a) == EndorsersOf(s, a)
    ensures s'.rows == s.rows ==> EndorsersOf(s', to) == EndorsersOf(s, to)
  {
    forall a | a != to ensures EndorsersOf(s', a) == EndorsersOf(s, a) {
      MoreRows(s, s', a);
      forall b | b in EndorsersOf(s', a) ensures b in EndorsersOf(s, a) {
        assert (b, a) in s'.rows && (b, a) in s.rows;
      }
    }
  }

  lemma CountKeepsCareful(s: State, id: nat)
    requires Inv(s) && CarefulInv(s) && id in s.threads && s.threads[id].pc.AtCount?
    ensures CarefulInv(CountRows(s, id, true))
  {
    var s', th := CountRows(s, id, true), s.threads[id];
    assert UpToDate(s, th);
    SameEndorsers(s, s');
    forall i | i in s'.threads ensures UpToDate(s', s'.threads[i]) {
      if i != id { assert UpToDate(s, s.threads[i]); }
    }
    forall a | Quiet(s', a) ensures Behind(s', a) == EndorsersOf(s', a) {
      assert s'.threads[id].pc.AtUpdate? && s'.threads[id].to == th.to;
      assert Quiet(s, a) by {
        forall i | i in s.threads && s.threads[i].to == a
          ensures !(s.threads[i].pc.AtCount? || s.threads[i].pc.AtUpdate?)
        {
          if i != id { assert s'.threads[i] == s.threads[i]; }
        }
      }
    }
  }

  lemma SameEndorsers(s: State, s': State)
    requires s'.rows == s.rows
    ensures forall a :: EndorsersOf(s', a) == EndorsersOf(s, a)
  {
  }

  lemma UpdateKeepsCareful(s: State, id: nat)
    requires Inv(s) && CarefulInv(s) && id in s.threads && s.threads[id].pc.AtUpdate?
    ensures CarefulInv(UpdateScore(s, id, true))
  {
    var s', th := UpdateScore(s, id, true), s.threads[id];
    assert UpToDate(s, th);
    SameEndorsers(s, s');
    forall i | i in s'.threads ensures UpToDate(s', s'.threads[i]) {
      if i != id { assert UpToDate(s, s.threads[i]); }
    }
    forall a | Quiet(s', a) ensures Behind(s', a) == EndorsersOf(s', a) {
      if a != th.to {
        assert Quiet(s, a) by {
          forall i | i in s.threads && s.threads[i].to == a
            ensures !(s.threads[i].pc.AtCount? || s.threads[i].pc.AtUpdate?)
          {
            assert s'.threads[i] == s.threads[i];
          }
        }
      }
    }
  }

  lemma BeginKeepsCareful(s: State, step: Step)
    requires Inv(s) && CarefulInv(s) && (step.Begin? || step.Register?) && Careful(s, step)
    ensures CarefulInv(Apply(s, step))
  {
    var s' := Apply(s, step);
    SameEndorsers(s, s');
    forall i | i in s'.threads ensures UpToDate(s', s'.threads[i]) {
      if i in s.threads { assert UpToDate(s, s.threads[i]); }
    }
    forall a | Quiet(s', a) ensures Behind(s', a) == EndorsersOf(s', a) {
      assert Quiet(s, a) by {
        forall i | i in s.threads && s.threads[i].to == a
          ensures !(s.threads[i].pc.AtCount? || s.threads[i].pc.AtUpdate?)
        {
          assert s'.threads[i] == s.threads[i];
        }
      }
    }
  }

  lemma StepKeepsCareful(s: State, step: Step)
    requires Inv(s) && CarefulInv(s) && Careful(s, step)
    ensures CarefulInv(Apply(s, step))
  {
    match step
    case Register(_) => BeginKeepsCareful(s, step);
    case Begin(_, _, _) => BeginKeepsCareful(s, step);
    case Advance(id, ok) =>
      if id in s.threads {
        match s.threads[id].pc
        case AtInsert => InsertKeepsCareful(s, id, ok);
        case AtCount => CountKeepsCareful(s, id);
        case AtUpdate(_, _) => UpdateKeepsCareful(s, id);
        case Finished(_) =>
      }
  }

  /** Such a step lowers no score. */
  lemma CarefulNeverLowers(s: State, step: Step, a: Agent)
    requires Inv(s) && CarefulInv(s) && Careful(s, step) && a in s.scores
    ensures a in Apply(s, step).scores && s.scores[a] <= Apply(s, step).scores[a]
  {
    assert ScoreInv(s, a);
    if step.Advance? && step.thread in s.threads && s.threads[step.thread].pc.AtUpdate? {
      var th := s.threads[step.thread];
      assert UpToDate(s, th) && ThreadInv(s, th);
      if th.to == a {
        Subset(Behind(s, a), EndorsersOf(s, a));
        ScoreGrows(|Behind(s, a)|, th.pc.count);
      }
    }
  }

  lemma {:induction false} RunKeepsCareful(s: State, steps: seq<Step>)
    requires Inv(s) && CarefulInv(s) && AlwaysCareful(s, steps)
    ensures Inv(Run(s, steps)) && CarefulInv(Run(s, steps))
    ensures forall a | a in s.scores :: a in Run(s, steps).scores && s.scores[a] <= Run(s, steps).scores[a]
    decreases |steps|
  {
    if steps != [] {
      StepKeepsInv(s, steps[0]);
      StepKeepsCareful(s, steps[0]);
      forall a | a in s.scores
        ensures a in Apply(s, steps[0]).scores && s.scores[a] <= Apply(s, steps[0]).scores[a]
      {
        CarefulNeverLowers(s, steps[0], a);
      }
      RunKeepsCareful(Apply(s, steps[0]), steps[1..]);
    }
  }

  /** When no two endorsements of one agent overlap and their counts and updates succeed, every score is right
      whenever no endorsement of the agent is under way, and no score ever falls. */
  lemma {:induction false} CarefulScoresAreRight(steps: seq<Step>, more: seq<Step>, a: Agent)
    requires AlwaysCareful(INIT, steps) && AlwaysCareful(Run(INIT, steps), more) && a in Run(INIT, steps).scores
    ensures var s := Run(INIT, steps);
      && (Quiet(s, a) ==> s.scores[a] == Score(|EndorsersOf(s, a)|))
      && a in Run(s, more).scores && s.scores[a] <= Run(s, more).scores[a]
  {
    InitHolds();
    RunKeepsCareful(INIT, steps);
    RunKeepsCareful(Run(INIT, steps), more);
    assert ScoreInv(Run(INIT, steps), a);
  }

  // ---------- the race ----------

  lemma {:induction false} RunThen(s: State, steps: seq<Step>, step: Step)
    ensures Run(s, steps + [step]) == Apply(Run(s, steps), step)
    decreases |steps|
  {
    if steps == [] {
      assert [] + [step] == [step] && [step][1..] == [];
    } else {
      assert (steps + [step])[1..] == steps[1..] + [step];
      RunThen(Apply(s, steps[0]), steps[1..], step);
    }
  }

  lemma Then(steps: seq<Step>, s: State, step: Step) returns (steps': seq<Step>, s': State)
    requires Run(INIT, steps) == s
    ensures Run(INIT, steps') == s' == Apply(s, step)
  {
    steps', s' := steps + [step], Apply(s, step);
    RunThen(INIT, steps, step);
  }

  /** Three agents, and two endorsements of "c" that have begun. */
  lemma BothBegun() returns (steps: seq<Step>, s: State)
    ensures Run(INIT, steps) == s && s.rows == {} && s.behind == map[]
    ensures s.scores == map["a" := 0.0, "b" := 0.0, "c" := 0.0]
    ensures s.threads == map[0 := Thread("a", "c", AtInsert), 1 := Thread("b", "c", AtInsert)]
  {
    steps, s := [], INIT;
    steps, s := Then(steps, s, Register("a"));
    steps, s := Then(steps, s, Register("b"));
    steps, s := Then(steps, s, Register("c"));
    steps, s := Then(steps, s, Begin(0, "a", "c"));
    steps, s := Then(steps, s, Begin(1, "b", "c"));
  }

  /** The first has inserted and counted. */
  lemma FirstCounted() returns (steps: seq<Step>, s: State)
    ensures Run(INIT, steps) == s && s.rows == {("a", "c")} && s.behind == map[]
    ensures s.scores == map["a" := 0.0, "b" := 0.0, "c" := 0.0]
    ensures s.threads == map[0 := Thread("a", "c", AtUpdate(1, {"a"})), 1 := Thread("b", "c", AtInsert)]
  {
    steps, s := BothBegun();
    steps, s := Then(steps, s, Advance(0, true));
    assert s.threads[0].pc == AtCount && s.rows == {("a", "c")};
    assert EndorsersOf(s, "c") == {"a"};
    steps, s := Then(steps, s, Advance(0, true));
  }

  /** The second has done everything. */
  lemma SecondFinished() returns (steps: seq<Step>, s: State)
    ensures Run(INIT, steps) == s && s.rows == {("a", "c"), ("b", "c")} && s.behind == map["c" := {"a", "b"}]
    ensures "c" in s.scores && s.scores["c"] == Score(2)
    ensures s.threads == map[0 := Thread("a", "c", AtUpdate(1, {"a"})), 1 := Thread("b", "c", Finished(true))]
  {
    steps, s := FirstCounted();
    steps, s := Then(steps, s, Advance(1, true));
    assert s.threads[1].pc == AtCount && s.rows == {("a", "c"), ("b", "c")};
    assert EndorsersOf(s, "c") == {"a", "b"};
    steps, s := Then(steps, s, Advance(1, true));
    assert s.threads[1].pc == AtUpdate(2, {"a", "b"});
    steps, s := Then(steps, s, Advance(1, true));
  }

  /** Nothing fails and both endorsements are through, but the one that counted first has written last: the
      score has fallen to that of one endorser, and there are two. */
  lemma RaceStoresLess() returns (before: seq<Step>, last: Step)
    ensures var s := Run(INIT, before);
      var s' := Apply(s, last);
      && (forall id | id in s'.threads :: s'.threads[id].pc == Finished(true)) && |EndorsersOf(s', "c")| == 2
      && "c" in s.scores && "c" in s'.scores && s'.scores["c"] == Score(1) < Score(2) == s.scores["c"]
  {
    var s;
    before, s := SecondFinished();
    last := Advance(0, true);
    assert EndorsersOf(s, "c") == {"a", "b"} && EndorsersOf(Apply(s, last), "c") == {"a", "b"};
    ScoreIsStrict(1, 2);
  }

  // ---------- one after the other ----------

  /** The state shows the agents and endorsements of the tables. */
  ghost predicate Shows(s: State, t: Tables) {
    s.scores == t.agents && forall a, b :: (a, b) in s.rows <==> Key(a, b, Endorse) in t.relations
  }

  lemma ShownEndorsers(s: State, t: Tables, a: Agent)
    requires Shows(s, t)
    ensures EndorsersOf(s, a) == Endorsers(t, a) && |EndorsersOf(s, a)| == |Endorsements(t, a)|
  {
    forall b ensures b in EndorsersOf(s, a) <==> b in Endorsers(t, a) {
      assert (b, a) in s.rows <==> Key(b, a, Endorse) in t.relations;
      assert Key(b, a, Endorse) in Endorsements(t, a) <==> Key(b, a, Endorse) in t.relations;
    }
    OneRowPerEndorser(t, a, Endorsements(t, a));
  }

  /** An endorsement with nobody beside it is the three statements of a social event. */
  lemma {:induction false} AloneIsSequential(s: State, t: Tables, id: nat, k: Key, skill: string, f: Faults)
    requires Shows(s, t) && id !in s.threads && k.kind == Endorse
    ensures var s1 := Apply(Apply(s, Begin(id, k.from, k.to)), Advance(id, !f.action));
      var s' := Apply(Apply(s1, Advance(id, !f.count)), Advance(id, !f.update));
      Shows(s', if f.action || !Known(t, k) then t else Endorsed(t, k, skill, f.count, f.update))
  {
    var s1 := Apply(Apply(s, Begin(id, k.from, k.to)), Advance(id, !f.action));
    if !f.action && Known(t, k) {
      var t1 := t.(relations := t.relations[k := Skill(skill)]);
      assert s1.threads[id] == Thread(k.from, k.to, AtCount);
      assert Shows(s1, t1);
      ShownEndorsers(s1, t1, k.to);
      var s2 := Apply(s1, Advance(id, !f.count));
      assert s2.threads[id].pc.AtUpdate? && s2.threads[id].pc.count == if f.count then 0 else |Endorsements(t1, k.to)|;
    }
  }
}
