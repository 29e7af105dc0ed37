// What one social event does to the tables, column by column, and what a run of events without faults
// leaves behind.
module SocialEffects {
  import opened Common
  import opened Social

  /** Both agents are registered if their statements succeed. Nobody is removed. */
  ghost predicate Registers(t: Tables, t': Tables, e: Event, f: Faults) {
    forall a :: a in t'.agents <==>
      a in t.agents || (a == e.from && !f.from) || (a == e.to && e.to != "" && !f.to)
  }

  /** An endorsement that goes through stores the score of its target, which it counts anew. Everybody else keeps
      the score there was, and new agents have none. */
  ghost predicate Scores(t: Tables, t': Tables, ok: bool, e: Event, f: Faults) {
    forall a | a in t'.agents ::
      t'.agents[a] ==
        if e.kind == EndorseEvent && ok && a == e.to && !f.update then
          var n := if f.count then 0 else |set k | k in t'.relations && k.kind == Endorse && k.to == a|;
          n as real / (n as real + 10.0)
        else if a in t.agents then t.agents[a] else 0.0
  }

  /** When the event goes through: its statement succeeds and finds its foreign keys, and a request is the first
      of its pair. An unlike and an unknown event always do. */
  predicate GoesThrough(t: Tables, t': Tables, e: Event, f: Faults) {
    var both := !f.action && e.from in t'.agents && e.to in t'.agents;
    match e.kind
    case FollowEvent => both
    case EndorseEvent => both
    case CollabRequest => both && Key(e.from, e.to, Collaborate) !in t.relations
    case UnfollowEvent => !f.action
    case LikeEvent => MessageOf(e) == "" || (!f.action && e.from in t'.agents && MessageOf(e) in t'.messages)
    case UnlikeEvent => true
    case OtherEvent(_) => true
  }

  /** A row that is there already keeps its metadata when it is followed again, and loses it to an endorsement. */
  predicate Relates(t: Tables, t': Tables, ok: bool, e: Event) {
    var k := Key(e.from, e.to, if e.kind == EndorseEvent then Endorse else if e.kind == CollabRequest then Collaborate
                               else Follow);
    t'.relations ==
      if !ok then t.relations
      else match e.kind
        case FollowEvent => if k in t.relations then t.relations else t.relations[k := NoMeta]
        case UnfollowEvent => t.relations - {k}
        case EndorseEvent => t.relations[k := Skill(e.skill)]
        case CollabRequest =>
          t.relations[k := Proposal(if e.data.Some? then e.data.value.json else "{}")]
        case _ => t.relations
  }

  /** A like that names a message registers it and is kept once; an unlike takes it back. */
  predicate Likes(t: Tables, t': Tables, ok: bool, e: Event, f: Faults) {
    var m := MessageOf(e);
    && t'.messages == t.messages + (if e.kind == LikeEvent && m != "" && !f.message then {m} else {})
    && t'.likes ==
         if e.kind == LikeEvent && ok && m != "" then t.likes + {(e.from, m)}
         else if e.kind == UnlikeEvent && m != "" && !f.action then t.likes - {(e.from, m)}
         else t.likes
  }

  /** The target's feed is told of a follow, an endorsement and a request. The skill stands in the column of the
      message, and that is a foreign key. */
  predicate Tells(t: Tables, t': Tables, ok: bool, e: Event) {
    t'.timeline == t.timeline +
      if !ok then []
      else match e.kind
        case FollowEvent => [TimelineRow(e.to, "new_follower", e.from, "")]
        case EndorseEvent =>
          if e.skill == "" || e.skill in t.messages then [TimelineRow(e.to, "endorsed", e.from, e.skill)] else []
        case CollabRequest => [TimelineRow(e.to, "collab_request", e.from, "")]
        case _ => []
  }

  /** All that the event does. */
  ghost predicate Effect(t: Tables, t': Tables, ok: bool, e: Event, f: Faults) {
    && Registers(t, t', e, f) && Scores(t, t', ok, e, f) && (ok <==> GoesThrough(t, t', e, f))
    && Relates(t, t', ok, e) && Likes(t, t', ok, e, f) && Tells(t, t', ok, e)
    && t'.log == t.log + if ok && !f.log then [e] else []
  }

  lemma EnsuredRegisters(t: Tables, e: Event, f: Faults)
    ensures var t1 := Ensured(t, e, f);
      && Registers(t, t1, e, f) && t1 == t.(agents := t1.agents)
      && forall a | a in t1.agents :: t1.agents[a] == if a in t.agents then t.agents[a] else 0.0
  {
  }

  lemma ActKeepsAgents(t: Tables, e: Event, f: Faults)
    ensures var (t', ok) := Act(t, e, f);
      t'.agents.Keys == t.agents.Keys && t'.log == t.log && (ok <==> GoesThrough(t, t', e, f))
  {
  }

  lemma ActScores(t: Tables, e: Event, f: Faults)
    ensures var (t', ok) := Act(t, e, f); Scores(t, t', ok, e, f)
  {
    if e.kind == EndorseEvent {
      var t' := Act(t, e, f).0;
      assert Endorsements(t', e.to) == set k | k in t'.relations && k.kind == Endorse && k.to == e.to;
    }
  }

  lemma ActRelates(t: Tables, e: Event, f: Faults)
    ensures var (t', ok) := Act(t, e, f); Relates(t, t', ok, e) && Tells(t, t', ok, e)
  {
    match e.kind
    case FollowEvent =>
    case EndorseEvent =>
    case CollabRequest =>
    case _ =>
  }

  lemma ActLikes(t: Tables, e: Event, f: Faults)
    ensures var (t', ok) := Act(t, e, f); Likes(t, t', ok, e, f)
  {
  }

  /** The action comes on top of the registration. */
  lemma AgentsTogether(t: Tables, t1: Tables, t': Tables, ok: bool, e: Event, f: Faults)
    requires Registers(t, t1, e, f) && t'.agents.Keys == t1.agents.Keys
    requires forall a | a in t1.agents :: t1.agents[a] == if a in t.agents then t.agents[a] else 0.0
    requires Scores(t1, t', ok, e, f)
    ensures Registers(t, t', e, f) && Scores(t, t', ok, e, f)
  {
  }

  lemma WritesTogether(t: Tables, t1: Tables, t': Tables, ok: bool, e: Event, f: Faults)
    requires t1 == t.(agents := t1.agents)
    requires Relates(t1, t', ok, e) && Likes(t1, t', ok, e, f) && Tells(t1, t', ok, e)
    requires ok <==> GoesThrough(t1, t', e, f)
    ensures Relates(t, t', ok, e) && Likes(t, t', ok, e, f) && Tells(t, t', ok, e)
    ensures ok <==> GoesThrough(t, t', e, f)
  {
  }

  /** The log is no part of the rest. */
  lemma AgentsApart(t: Tables, t2: Tables, log: seq<Event>, ok: bool, e: Event, f: Faults)
    requires Registers(t, t2, e, f) && Scores(t, t2, ok, e, f)
    ensures Registers(t, t2.(log := log), e, f) && Scores(t, t2.(log := log), ok, e, f)
  {
  }

  lemma WritesApart(t: Tables, t2: Tables, log: seq<Event>, ok: bool, e: Event, f: Faults)
    requires Relates(t, t2, ok, e) && Likes(t, t2, ok, e, f) && Tells(t, t2, ok, e)
    ensures var t' := t2.(log := log);
      && Relates(t, t', ok, e) && Likes(t, t', ok, e, f) && Tells(t, t', ok, e)
      && (GoesThrough(t, t', e, f) <==> GoesThrough(t, t2, e, f))
  {
  }

  lemma ProcessLogs(t: Tables, e: Event, f: Faults)
    ensures var (t2, ok) := Act(Ensured(t, e, f), e, f);
      Process(t, e, f) == t2.(log := t.log + if ok && !f.log then [e] else [])
  {
    ActKeepsAgents(Ensured(t, e, f), e, f);
  }

  /** Processing an event has this effect, whatever the tables hold and whatever fails. */
  lemma ProcessHasEffect(t: Tables, e: Event, f: Faults)
    ensures Effect(t, Process(t, e, f), Act(Ensured(t, e, f), e, f).1, e, f)
  {
    var t1 := Ensured(t, e, f);
    var (t2, ok) := Act(t1, e, f);
    EnsuredRegisters(t, e, f);
    ActKeepsAgents(t1, e, f);
    ActScores(t1, e, f);
    ActRelates(t1, e, f);
    ActLikes(t1, e, f);
    AgentsTogether(t, t1, t2, ok, e, f);
    WritesTogether(t, t1, t2, ok, e, f);
    var log := t.log + if ok && !f.log then [e] else [];
    ProcessLogs(t, e, f);
    AgentsApart(t, t2, log, ok, e, f);
    WritesApart(t, t2, log, ok, e, f);
  }

  // ---------- events without faults ----------

  const NO_FAULTS := Faults(false, false, false, false, false, false, false)

  ghost predicate FaultFree(es: seq<(Event, Faults)>) {
    forall i | 0 <= i < |es| :: es[i].1 == NO_FAULTS
  }

  /** What the relation and like tables can say. */
  datatype Fact = Relation(k: Key) | Liked(agent: Agent, message: string)

  predicate Holds(t: Tables, x: Fact) {
    match x
    case Relation(k) => k in t.relations
    case Liked(a, m) => (a, m) in t.likes
  }

  /** The event asks for the fact. */
  predicate Makes(e: Event, x: Fact) {
    match x
    case Relation(k) =>
      e.from == k.from && e.to == k.to &&
      e.kind == (match k.kind case Follow => FollowEvent case Endorse => EndorseEvent case Collaborate => CollabRequest)
    case Liked(a, m) => e.kind == LikeEvent && e.from == a && MessageOf(e) == m
  }

  /** It asks for it to end. Endorsements and requests have no such event. */
  predicate Breaks(e: Event, x: Fact) {
    match x
    case Relation(k) => e.kind == UnfollowEvent && k == Key(e.from, e.to, Follow)
    case Liked(a, m) => e.kind == UnlikeEvent && e.from == a && MessageOf(e) == m
  }

  /** The names an event must give for it. */
  predicate Named(x: Fact) {
    match x
    case Relation(k) => k.to != ""
    case Liked(_, m) => m != ""
  }

  /** An event that asks for a fact goes through if nothing fails, unless it asks a second time for a
      collaboration; and the fact holds behind it. */
  lemma OrdinaryEventGoesThrough(t: Tables, t': Tables, ok: bool, e: Event, x: Fact)
    requires Effect(t, t', ok, e, NO_FAULTS) && Named(x) && Makes(e, x)
    ensures ok <==> !(e.kind == CollabRequest && Holds(t, x))
    ensures Holds(t', x)
  {
  }

  lemma StepFact(t: Tables, t': Tables, ok: bool, e: Event, x: Fact)
    requires Effect(t, t', ok, e, NO_FAULTS) && Named(x)
    ensures Holds(t', x) <==> Makes(e, x) || (Holds(t, x) && !Breaks(e, x))
  {
    if Makes(e, x) { OrdinaryEventGoesThrough(t, t', ok, e, x); }
  }

  /** Some event asks for the fact and no later one for its end. */
  ghost predicate AskedFor(es: seq<(Event, Faults)>, x: Fact) {
    exists i :: 0 <= i < |es| && Makes(es[i].0, x) && NotBroken(es[i + 1..], x)
  }

  ghost predicate NotBroken(es: seq<(Event, Faults)>, x: Fact) {
    forall i | 0 <= i < |es| :: !Breaks(es[i].0, x)
  }

  lemma AskedFirst(es: seq<(Event, Faults)>, x: Fact)
    requires es != []
    ensures AskedFor(es, x) <==> (Makes(es[0].0, x) && NotBroken(es[1..], x)) || AskedFor(es[1..], x)
  {
    var more := es[1..];
    if AskedFor(es, x) {
      var i :| 0 <= i < |es| && Makes(es[i].0, x) && NotBroken(es[i + 1..], x);
      if i > 0 { assert more[i - 1] == es[i] && more[i..] == es[i + 1..]; }
    }
    if AskedFor(more, x) {
      var i :| 0 <= i < |more| && Makes(more[i].0, x) && NotBroken(more[i + 1..], x);
      assert es[i + 1] == more[i] && es[i + 2..] == more[i + 1..];
    }
  }

  lemma NotBrokenFirst(es: seq<(Event, Faults)>, x: Fact)
    requires es != []
    ensures NotBroken(es, x) <==> !Breaks(es[0].0, x) && NotBroken(es[1..], x)
  {
    assert es == [es[0]] + es[1..];
  }

  lemma {:induction false} FactsFrom(t: Tables, es: seq<(Event, Faults)>, x: Fact)
    requires FaultFree(es) && Named(x)
    ensures Holds(Run(t, es), x) <==> AskedFor(es, x) || (Holds(t, x) && NotBroken(es, x))
    decreases |es|
  {
    if es != [] {
      var (e, f) := es[0];
      ProcessHasEffect(t, e, f);
      StepFact(t, Process(t, e, f), Act(Ensured(t, e, f), e, f).1, e, x);
      FactsFrom(Process(t, e, f), es[1..], x);
      AskedFirst(es, x);
      NotBrokenFirst(es, x);
    }
  }

  /** After any events without faults, somebody follows, endorses, has asked or likes exactly when an event has
      said so and no later one has taken it back. */
  lemma {:induction false} FactsExactlyWhen(es: seq<(Event, Faults)>, x: Fact)
    requires FaultFree(es) && Named(x)
    ensures Holds(Run(EMPTY, es), x) <==> AskedFor(es, x)
  {
    FactsFrom(EMPTY, es, x);
  }

  ghost predicate Mentioned(es: seq<(Event, Faults)>, a: Agent) {
    exists i :: 0 <= i < |es| && (es[i].0.from == a || (es[i].0.to == a && a != ""))
  }

  /** And exactly the agents that an event has named are registered. */
  lemma {:induction false} AgentsExactlyWhen(t: Tables, es: seq<(Event, Faults)>, a: Agent)
    requires FaultFree(es)
    ensures a in Run(t, es).agents <==> a in t.agents || Mentioned(es, a)
    decreases |es|
  {
    if es != [] {
      var (e, f) := es[0];
      ProcessHasEffect(t, e, f);
      AgentsExactlyWhen(Process(t, e, f), es[1..], a);
      MentionedFirst(es, a);
    }
  }

  lemma MentionedFirst(es: seq<(Event, Faults)>, a: Agent)
    requires es != []
    ensures Mentioned(es, a) <==> es[0].0.from == a || (es[0].0.to == a && a != "") || Mentioned(es[1..], a)
  {
    assert es == [es[0]] + es[1..];
    if Mentioned(es[1..], a) {
      var i :| 0 <= i < |es| - 1 && (es[1..][i].0.from == a || (es[1..][i].0.to == a && a != ""));
      assert es[i + 1] == es[1..][i];
    }
  }
}
