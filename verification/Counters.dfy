// Named counters: incrementing looks the counter up under a read lock, creates it under the write lock
// if it was not there, looking again, and adds to it after the lock is released. The machine lets any number
// of threads do so side by side, and the class is one call.
module Counters {

  /** Where an increment stands. */
  datatype Pc =
    | AtRead
    | AtCreate
    | AtAdd(counter: nat)
    | Finished

  datatype Thread = Thread(name: string, pc: Pc)

  /** A counter object, with the name it was created for. */
  datatype Counter = Counter(name: string, value: nat)

  datatype State = State(table: map<string, nat>, counters: seq<Counter>, threads: map<nat, Thread>)

  datatype Step =
    | Call(thread: nat, name: string)
    | Advance(thread: nat)

  const INIT := State(map[], [], map[])

  function Move(s: State, id: nat, pc: Pc): State
    requires id in s.threads
  {
    s.(threads := s.threads[id := s.threads[id].(pc := pc)])
  }

  function AdvanceThread(s: State, id: nat): State
    requires id in s.threads
  {
    var th := s.threads[id];
    match th.pc
    case AtRead => Move(s, id, if th.name in s.table then AtAdd(s.table[th.name]) else AtCreate)
    case AtCreate =>
      if th.name in s.table then Move(s, id, AtAdd(s.table[th.name]))
      else
        Move(s.(table := s.table[th.name := |s.counters|], counters := s.counters + [Counter(th.name, 0)]),
             id, AtAdd(|s.counters|))
    case AtAdd(c) =>
      if c >= |s.counters| then s
      else Move(s.(counters := s.counters[c := s.counters[c].(value := s.counters[c].value + 1)]), id, Finished)
    case Finished => s
  }

  function Apply(s: State, step: Step): State {
    match step
    case Call(id, name) => if id in s.threads then s else s.(threads := s.threads[id := Thread(name, AtRead)])
    case Advance(id) => if id in s.threads then AdvanceThread(s, id) else s
  }

  function Run(s: State, steps: seq<Step>): State
    decreases |steps|
  {
    if steps == [] then s else Run(Apply(s, steps[0]), steps[1..])
  }

  /** The calls for the name that have done their addition. */
  function Done(s: State, name: string): set<nat> {
    set id | id in s.threads && s.threads[id].name == name && s.threads[id].pc == Finished
  }

  /** The value the table shows for a name. */
  function ValueOf(s: State, name: string): nat {
    if name in s.table && s.table[name] < |s.counters| then s.counters[s.table[name]].value else 0
  }

  /** No name has two counter objects, and the table knows every one. */
  ghost predicate OneObjectEach(s: State) {
    && (forall name | name in s.table :: s.table[name] < |s.counters|)
    && (forall i | 0 <= i < |s.counters| :: s.counters[i].name in s.table && s.table[s.counters[i].name] == i)
  }

  ghost predicate Inv(s: State) {
    && OneObjectEach(s)
    && (forall name | name in s.table :: s.counters[s.table[name]].name == name)
    && (forall id | id in s.threads && s.threads[id].pc.AtAdd? ::
          s.threads[id].name in s.table && s.threads[id].pc.counter == s.table[s.threads[id].name])
    && (forall name :: ValueOf(s, name) == |Done(s, name)|)
  }

  lemma AddKeepsInv(s: State, id: nat)
    requires Inv(s) && id in s.threads && s.threads[id].pc.AtAdd?
    ensures Inv(AdvanceThread(s, id))
  {
    var s' := AdvanceThread(s, id);
    forall name ensures ValueOf(s', name) == |Done(s', name)| {
      assert ValueOf(s, name) == |Done(s, name)|;
      AddIsDone(s, id, name);
    }
  }

  /** An addition changes the value of its own name, and finishes a call for it. */
  lemma AddIsDone(s: State, id: nat, name: string)
    requires OneObjectEach(s) && id in s.threads && s.threads[id].pc.AtAdd?
    requires s.threads[id].name in s.table && s.threads[id].pc.counter == s.table[s.threads[id].name]
    requires forall n | n in s.table :: s.counters[s.table[n]].name == n
    ensures var one := if name == s.threads[id].name then 1 else 0;
      ValueOf(AdvanceThread(s, id), name) == ValueOf(s, name) + one &&
      |Done(AdvanceThread(s, id), name)| == |Done(s, name)| + one
  {
    var s' := AdvanceThread(s, id);
    if name == s.threads[id].name {
      assert Done(s', name) == Done(s, name) + {id};
    } else {
      assert Done(s', name) == Done(s, name);
    }
  }

  /** A step that finishes no thread and changes no value leaves every count as it was. */
  lemma SameCounts(s: State, s': State)
    requires forall name :: ValueOf(s, name) == |Done(s, name)|
    requires forall name :: ValueOf(s', name) == ValueOf(s, name) && Done(s', name) == Done(s, name)
    ensures forall name :: ValueOf(s', name) == |Done(s', name)|
  {
    forall name ensures ValueOf(s', name) == |Done(s', name)| {
      assert ValueOf(s, name) == |Done(s, name)|;
    }
  }

  lemma CallKeepsInv(s: State, id: nat, name: string)
    requires Inv(s)
    ensures Inv(Apply(s, Call(id, name)))
  {
    var s' := Apply(s, Call(id, name));
    assert forall n :: Done(s', n) == Done(s, n);
    SameCounts(s, s');
  }

  /** Moving a thread to its addition, once the table has its counter. */
  lemma MoveKeepsInv(s: State, id: nat, pc: Pc)
    requires Inv(s) && id in s.threads && !s.threads[id].pc.Finished? && !pc.Finished?
    requires pc.AtAdd? ==> s.threads[id].name in s.table && pc.counter == s.table[s.threads[id].name]
    ensures Inv(Move(s, id, pc))
  {
    var s' := Move(s, id, pc);
    assert forall n :: Done(s', n) == Done(s, n);
    SameCounts(s, s');
  }

  lemma CreateKeepsInv(s: State, name: string)
    requires Inv(s) && name !in s.table
    ensures Inv(s.(table := s.table[name := |s.counters|], counters := s.counters + [Counter(name, 0)]))
  {
    var s' := s.(table := s.table[name := |s.counters|], counters := s.counters + [Counter(name, 0)]);
    assert forall n :: Done(s', n) == Done(s, n);
    assert forall n :: ValueOf(s', n) == ValueOf(s, n);
    SameCounts(s, s');
  }

  lemma AdvanceKeepsInv(s: State, id: nat)
    requires Inv(s) && id in s.threads
    ensures Inv(AdvanceThread(s, id))
  {
    var th := s.threads[id];
    match th.pc
    case AtRead => MoveKeepsInv(s, id, if th.name in s.table then AtAdd(s.table[th.name]) else AtCreate);
    case AtCreate =>
      if th.name in s.table {
        MoveKeepsInv(s, id, AtAdd(s.table[th.name]));
      } else {
        CreateKeepsInv(s, th.name);
        var s1 := s.(table := s.table[th.name := |s.counters|], counters := s.counters + [Counter(th.name, 0)]);
        MoveKeepsInv(s1, id, AtAdd(|s.counters|));
      }
    case AtAdd(_) => AddKeepsInv(s, id);
    case Finished =>
  }

  lemma {:induction false} RunKeepsInv(s: State, steps: seq<Step>)
    requires Inv(s)
    ensures Inv(Run(s, steps))
    decreases |steps|
  {
    if steps != [] {
      match steps[0] {
        case Call(id, name) => CallKeepsInv(s, id, name);
        case Advance(id) => if id in s.threads { AdvanceKeepsInv(s, id); }
      }
      RunKeepsInv(Apply(s, steps[0]), steps[1..]);
    }
  }

  /** However the threads interleave, also in the gap between the two locks, a name never has more than one
      counter object, and its value is the number of calls for it that have done their addition. */
  lemma NoIncrementIsLost(steps: seq<Step>, name: string)
    ensures var s := Run(INIT, steps);
      ValueOf(s, name) == |Done(s, name)| &&
      forall i, j | 0 <= i < |s.counters| && 0 <= j < |s.counters| && s.counters[i].name == s.counters[j].name ::
        i == j
  {
    forall n ensures ValueOf(INIT, n) == |Done(INIT, n)| {
      assert Done(INIT, n) == {};
    }
    RunKeepsInv(INIT, steps);
  }

  /** From every state of a run a call comes to its end by its own steps alone, and has then raised the value of
      its name by one and no other. */
  lemma {:induction false} EveryCallCanFinish(s: State, id: nat, other: string) returns (steps: seq<Step>)
    requires Inv(s) && id in s.threads && !s.threads[id].pc.Finished?
    ensures forall step | step in steps :: step == Advance(id)
    ensures var s', name := Run(s, steps), s.threads[id].name;
      && id in s'.threads && s'.threads[id] == Thread(name, Finished)
      && ValueOf(s', name) == ValueOf(s, name) + 1
      && (other != name ==> ValueOf(s', other) == ValueOf(s, other))
    decreases match s.threads[id].pc case AtRead => 2 case AtCreate => 1 case _ => 0
  {
    var s' := Apply(s, Advance(id));
    AdvanceKeepsInv(s, id);
    steps := [Advance(id)];
    if s.threads[id].pc.AtAdd? {
      AddIsDone(s, id, s.threads[id].name);
      AddIsDone(s, id, other);
      assert steps[1..] == [];
    } else {
      LookingUpCountsNothing(s, id, s.threads[id].name);
      LookingUpCountsNothing(s, id, other);
      var more := EveryCallCanFinish(s', id, other);
      steps := [Advance(id)] + more;
      assert steps[1..] == more;
    }
  }

  lemma LookingUpCountsNothing(s: State, id: nat, name: string)
    requires Inv(s) && id in s.threads && !s.threads[id].pc.Finished? && !s.threads[id].pc.AtAdd?
    ensures ValueOf(AdvanceThread(s, id), name) == ValueOf(s, name)
  {
  }

  // ---------- one call ----------

  class AtomicInt {
    var value: nat

    constructor ()
      ensures value == 0
    {
      value := 0;
    }
  }

  class Metrics {
    var histogram: map<string, AtomicInt>

    ghost predicate Valid()
      reads this
    {
      forall x, y | x in histogram && y in histogram && x != y :: histogram[x] != histogram[y]
    }

    ghost function View(): map<string, nat>
      reads this, histogram.Values
    {
      map x | x in histogram :: histogram[x].value
    }

    constructor ()
      ensures Valid() && View() == map[]
    {
      histogram := map[];
    }

    method IncCounter(name: string)
      requires Valid()
      modifies this, histogram.Values
      ensures Valid() && fresh(histogram.Values - old(histogram.Values))
      ensures View() == old(View())[name := (if name in old(View()) then old(View())[name] else 0) + 1]
    {
      if name !in histogram {
        var created := new AtomicInt();
        histogram := histogram[name := created];
      }
      var c := histogram[name];
      assert c in histogram.Values;
      c.value := c.value + 1;
      assert forall x | x in histogram && x != name :: histogram[x] != c;
    }
  }
}
