// Social events: each one changes the relation, like and agent tables, is appended to the event log, and
// is offered to the feeds of the two agents. The stored reputation is a view over the endorsements.
module Social {
  import opened Common

  datatype Kind = Follow | Endorse | Collaborate

  /** The unique index of social_relations. */
  datatype Key = Key(from: Agent, to: Agent, kind: Kind)

  /** The metadata column. */
  datatype Meta = NoMeta | Skill(id: string) | Proposal(json: string)

  /** An event's data: its JSON text, and the message id when that is a string. */
  datatype Data = Data(messageId: Option<string>, json: string)

  datatype EventType =
    | FollowEvent | UnfollowEvent | LikeEvent | UnlikeEvent | EndorseEvent | CollabRequest | OtherEvent(name: string)

  datatype Event = Event(kind: EventType, from: Agent, to: Agent, skill: string, data: Option<Data>)

  datatype TimelineRow = TimelineRow(agent: Agent, event: string, source: Agent, message: string)

  datatype Tables = Tables(
    agents: map<Agent, real>,          // with the stored reputation
    relations: map<Key, Meta>,
    messages: set<string>,
    likes: set<(Agent, string)>,
    timeline: seq<TimelineRow>,
    log: seq<Event>)

  const EMPTY := Tables(map[], map[], {}, {}, [], [])

  /** Which statements of one event fail for reasons other than the tables' own constraints. */
  datatype Faults = Faults(
    from: bool, to: bool, message: bool, action: bool, count: bool, update: bool, log: bool)

  // ---------- statements ----------

  function EnsureAgent(t: Tables, a: Agent, fault: bool): Tables {
    if fault || a in t.agents then t else t.(agents := t.agents[a := 0.0])
  }

  function EnsureMessage(t: Tables, m: string, fault: bool): Tables {
    if fault then t else t.(messages := t.messages + {m})
  }

  /** Both agents of a relation are foreign keys. */
  predicate Known(t: Tables, k: Key) {
    k.from in t.agents && k.to in t.agents
  }

  predicate CanFollow(t: Tables, k: Key, fault: bool) {
    !fault && Known(t, k)
  }

  function Followed(t: Tables, k: Key): Tables {
    if k in t.relations then t else t.(relations := t.relations[k := NoMeta])
  }

  /** A plain INSERT: the unique index refuses a second request of the same pair. */
  predicate CanRequest(t: Tables, k: Key, fault: bool) {
    !fault && Known(t, k) && k !in t.relations
  }

  predicate CanLike(t: Tables, a: Agent, m: string, fault: bool) {
    !fault && a in t.agents && m in t.messages
  }

  /** The rows that endorse a. */
  function Endorsements(t: Tables, a: Agent): set<Key> {
    set k | k in t.relations && k.kind == Endorse && k.to == a
  }

  function Score(n: nat): real {
    n as real / (n as real + 10.0)
  }

  /** A SELECT COUNT and an UPDATE. The error of the count is dropped, and then it is 0. */
  function UpdateReputation(t: Tables, a: Agent, count: bool, update: bool): Tables {
    if update || a !in t.agents then t
    else t.(agents := t.agents[a := Score(if count then 0 else |Endorsements(t, a)|)])
  }

  /** INSERT OR REPLACE: a second endorsement replaces the skill; then the target's score is recomputed. */
  function Endorsed(t: Tables, k: Key, skill: string, count: bool, update: bool): Tables {
    UpdateReputation(t.(relations := t.relations[k := Skill(skill)]), k.to, count, update)
  }

  /** A failed insert is ignored. The message, when there is one, is a foreign key. */
  function AddEvent(t: Tables, a: Agent, event: string, source: Agent, message: string): Tables {
    if a in t.agents && (message == "" || message in t.messages)
    then t.(timeline := t.timeline + [TimelineRow(a, event, source, message)]) else t
  }

  function MessageOf(e: Event): string {
    if e.data.Some? && e.data.value.messageId.Some? then e.data.value.messageId.value else ""
  }

  function ProposalOf(e: Event): Meta {
    Proposal(if e.data.Some? then e.data.value.json else "{}")
  }

  // ---------- one event ----------

  function Ensured(t: Tables, e: Event, f: Faults): Tables {
    var t1 := EnsureAgent(t, e.from, f.from);
    if e.to == "" then t1 else EnsureAgent(t1, e.to, f.to)
  }

  /** Whether the event goes through, and the tables after its action. */
  function Act(t: Tables, e: Event, f: Faults): (Tables, bool) {
    match e.kind
    case FollowEvent =>
      var k := Key(e.from, e.to, Follow);
      if CanFollow(t, k, f.action) then (AddEvent(Followed(t, k), e.to, "new_follower", e.from, ""), true)
      else (t, false)
    case UnfollowEvent =>
      if f.action then (t, false) else (t.(relations := t.relations - {Key(e.from, e.to, Follow)}), true)
    case LikeEvent =>
      var m := MessageOf(e);
      if m == "" then (t, true)
      else
        var t1 := EnsureMessage(t, m, f.message);
        if CanLike(t1, e.from, m, f.action) then (t1.(likes := t1.likes + {(e.from, m)}), true) else (t1, false)
    case UnlikeEvent =>
      var m := MessageOf(e);
      if m == "" || f.action then (t, true) else (t.(likes := t.likes - {(e.from, m)}), true)
    case EndorseEvent =>
      var k := Key(e.from, e.to, Endorse);
      if f.action || !Known(t, k) then (t, false)
      else
        (AddEvent(Endorsed(t, k, e.skill, f.count, f.update), e.to, "endorsed", e.from, e.skill), true)
    case CollabRequest =>
      var k := Key(e.from, e.to, Collaborate);
      if CanRequest(t, k, f.action)
      then (AddEvent(t.(relations := t.relations[k := ProposalOf(e)]), e.to, "collab_request", e.from, ""), true)
      else (t, false)
    case OtherEvent(_) => (t, true)
  }

  /** An event whose action failed is not logged. */
  function Process(t: Tables, e: Event, f: Faults): Tables {
    var (t1, ok) := Act(Ensured(t, e, f), e, f);
    if ok && !f.log then t1.(log := t1.log + [e]) else t1
  }

  function Run(t: Tables, es: seq<(Event, Faults)>): Tables
    decreases |es|
  {
    if es == [] then t else Run(Process(t, es[0].0, es[0].1), es[1..])
  }

  // ---------- the log replays to the tables ----------

  datatype Graph = Graph(relations: map<Key, Meta>, likes: set<(Agent, string)>)

  /** What one log row says happened. */
  function ReplayRow(g: Graph, e: Event): Graph {
    var m := MessageOf(e);
    match e.kind
    case FollowEvent =>
      var k := Key(e.from, e.to, Follow);
      g.(relations := g.relations[k := NoMeta])
    case UnfollowEvent => g.(relations := g.relations - {Key(e.from, e.to, Follow)})
    case LikeEvent => if m == "" then g else g.(likes := g.likes + {(e.from, m)})
    case UnlikeEvent => if m == "" then g else g.(likes := g.likes - {(e.from, m)})
    case EndorseEvent => g.(relations := g.relations[Key(e.from, e.to, Endorse) := Skill(e.skill)])
    case CollabRequest => g.(relations := g.relations[Key(e.from, e.to, Collaborate) := ProposalOf(e)])
    case OtherEvent(_) => g
  }

  function Replay(log: seq<Event>): Graph {
    if log == [] then Graph(map[], {}) else ReplayRow(Replay(log[..|log| - 1]), log[|log| - 1])
  }

  /** The log insert succeeds, and so does the DELETE of an unlike, whose errors nobody looks at. */
  predicate Recorded(e: Event, f: Faults) {
    !f.log && (e.kind == UnlikeEvent ==> !f.action)
  }

  predicate AllRecorded(es: seq<(Event, Faults)>) {
    forall i | 0 <= i < |es| :: Recorded(es[i].0, es[i].1)
  }

  function GraphOf(t: Tables): Graph {
    Graph(t.relations, t.likes)
  }

  /** Follow rows carry no metadata, so following twice is following once. */
  ghost predicate BareFollows(t: Tables) {
    forall k | k in t.relations && k.kind == Follow :: t.relations[k] == NoMeta
  }

  /** Every logged request has its row, and rows of requests are never deleted. */
  ghost predicate RequestsHaveRows(t: Tables) {
    forall i | 0 <= i < |t.log| && t.log[i].kind == CollabRequest ::
      Key(t.log[i].from, t.log[i].to, Collaborate) in t.relations
  }

  ghost predicate OneRequestEach(log: seq<Event>) {
    forall i, j | 0 <= i < j < |log| && log[i].kind == CollabRequest && log[j].kind == CollabRequest ::
      log[i].from != log[j].from || log[i].to != log[j].to
  }

  /** Folding the log gives the relations and likes of the tables. */
  predicate InAgreement(t: Tables) {
    Replay(t.log) == GraphOf(t)
  }

  ghost predicate LogInv(t: Tables) {
    InAgreement(t) && BareFollows(t)
  }

  lemma ReplayOneMore(log: seq<Event>, e: Event)
    ensures Replay(log + [e]) == ReplayRow(Replay(log), e)
  {
    assert (log + [e])[..|log|] == log;
  }

  /** What goes through is what its row will say; what fails leaves the graph alone. */
  lemma {:induction false} ActIsReplay(t: Tables, e: Event, f: Faults)
    requires BareFollows(t) && !UnlikeFails(e, f)
    ensures var (t', ok) := Act(t, e, f);
      GraphOf(t') == if ok then ReplayRow(GraphOf(t), e) else GraphOf(t)
  {
    FollowTwice(t.relations, Key(e.from, e.to, Follow));
  }

  lemma ActKeepsBareFollows(t: Tables, e: Event, f: Faults)
    requires BareFollows(t)
    ensures BareFollows(Act(t, e, f).0)
  {
    var t' := Act(t, e, f).0;
    assert forall k | k in t'.relations && k.kind == Follow ::
      (k in t.relations && t'.relations[k] == t.relations[k]) || t'.relations[k] == NoMeta;
  }

  lemma ActKeepsLog(t: Tables, e: Event, f: Faults)
    ensures Act(t, e, f).0.log == t.log
  {
  }

  lemma FollowTwice(relations: map<Key, Meta>, k: Key)
    requires k in relations ==> relations[k] == NoMeta
    ensures k in relations ==> relations[k := NoMeta] == relations
  {
  }

  lemma ProcessKeepsLog(t: Tables, e: Event, f: Faults)
    requires LogInv(t) && Recorded(e, f)
    ensures LogInv(Process(t, e, f))
  {
    var t1 := Ensured(t, e, f);
    assert t1.log == t.log && GraphOf(t1) == GraphOf(t);
    ActIsReplay(t1, e, f);
    ActKeepsBareFollows(t1, e, f);
    ActKeepsLog(t1, e, f);
    ReplayOneMore(t.log, e);
  }

  lemma {:induction false} RunKeepsLog(t: Tables, es: seq<(Event, Faults)>)
    requires LogInv(t) && AllRecorded(es)
    ensures LogInv(Run(t, es))
    decreases |es|
  {
    if es != [] {
      ProcessKeepsLog(t, es[0].0, es[0].1);
      assert forall i | 0 <= i < |es| - 1 :: es[1..][i] == es[i + 1];
      RunKeepsLog(Process(t, es[0].0, es[0].1), es[1..]);
    }
  }

  lemma NothingLogged()
    ensures LogInv(EMPTY)
  {
  }

  /** Folding the log rebuilds exactly the relations, with their metadata, and the likes. */
  lemma {:induction false} LogReplaysToTables(es: seq<(Event, Faults)>)
    requires AllRecorded(es)
    ensures InAgreement(Run(EMPTY, es))
  {
    NothingLogged();
    RunKeepsLog(EMPTY, es);
  }

  /** A request is refused when the pair has a row, and rows of requests stay. */
  lemma ActKeepsRequests(t: Tables, e: Event, f: Faults)
    ensures var (t', ok) := Act(t, e, f);
      t'.log == t.log && (forall k | k in t.relations && k.kind == Collaborate :: k in t'.relations) &&
      (ok && e.kind == CollabRequest ==>
         Key(e.from, e.to, Collaborate) !in t.relations && Key(e.from, e.to, Collaborate) in t'.relations)
  {
  }

  lemma ProcessKeepsRequests(t: Tables, e: Event, f: Faults)
    requires RequestsHaveRows(t) && OneRequestEach(t.log)
    ensures RequestsHaveRows(Process(t, e, f)) && OneRequestEach(Process(t, e, f).log)
  {
    var t1 := Ensured(t, e, f);
    assert t1.log == t.log && t1.relations == t.relations;
    ActKeepsRequests(t1, e, f);
    LogOneRequest(t, Process(t, e, f), e);
  }

  /** The log grows by one event at most. */
  lemma LogOneRequest(t: Tables, t': Tables, e: Event)
    requires RequestsHaveRows(t) && OneRequestEach(t.log) && (t'.log == t.log || t'.log == t.log + [e])
    requires forall k | k in t.relations && k.kind == Collaborate :: k in t'.relations
    requires t'.log != t.log && e.kind == CollabRequest ==>
      Key(e.from, e.to, Collaborate) !in t.relations && Key(e.from, e.to, Collaborate) in t'.relations
    ensures RequestsHaveRows(t') && OneRequestEach(t'.log)
  {
    forall i | 0 <= i < |t.log| && t.log[i].kind == CollabRequest
      ensures Key(t.log[i].from, t.log[i].to, Collaborate) in t.relations
    {
    }
  }

  lemma {:induction false} RunKeepsRequests(t: Tables, es: seq<(Event, Faults)>)
    requires RequestsHaveRows(t) && OneRequestEach(t.log)
    ensures OneRequestEach(Run(t, es).log)
    decreases |es|
  {
    if es != [] {
      ProcessKeepsRequests(t, es[0].0, es[0].1);
      RunKeepsRequests(Process(t, es[0].0, es[0].1), es[1..]);
    }
  }

  /** Whatever fails, the log has at most one collaboration request per ordered pair of agents. */
  lemma {:induction false} OneRequestPerPair(es: seq<(Event, Faults)>)
    ensures OneRequestEach(Run(EMPTY, es).log)
  {
    RunKeepsRequests(EMPTY, es);
  }

  /** The DELETE of an unlike fails, and nobody looks. */
  predicate UnlikeFails(e: Event, f: Faults) {
    e.kind == UnlikeEvent && f.action
  }

  /** Whether the event's action is refused: a statement of it fails, a foreign key is missing, or a pair
      would have its second request. Unlikes and events without an action never are. */
  predicate Refused(t: Tables, e: Event, f: Faults) {
    match e.kind
    case FollowEvent => !CanFollow(t, Key(e.from, e.to, Follow), f.action)
    case UnfollowEvent => f.action
    case LikeEvent =>
      var m := MessageOf(e);
      m != "" && (f.action || e.from !in t.agents || (f.message && m !in t.messages))
    case UnlikeEvent => false
    case EndorseEvent => f.action || !Known(t, Key(e.from, e.to, Endorse))
    case CollabRequest => !CanRequest(t, Key(e.from, e.to, Collaborate), f.action)
    case OtherEvent(_) => false
  }

  lemma RefusedIsGuard(t: Tables, e: Event, f: Faults)
    ensures Act(t, e, f).1 <==> !Refused(t, e, f)
  {
  }

  /** Whatever fails, an event leaves log and tables in agreement exactly when it is refused, changes
      nothing, or the insert of its log row fails just when its unlike does. */
  lemma {:induction false} AgreesExactlyWhen(t: Tables, e: Event, f: Faults)
    requires InAgreement(t) && BareFollows(t)
    ensures InAgreement(Process(t, e, f)) <==>
      Refused(Ensured(t, e, f), e, f) || ReplayRow(GraphOf(t), e) == GraphOf(t) || (f.log <==> UnlikeFails(e, f))
  {
    var t1 := Ensured(t, e, f);
    RefusedIsGuard(t1, e, f);
    var t' := Process(t, e, f);
    assert t1.log == t.log && GraphOf(t1) == GraphOf(t);
    ReplayOneMore(t.log, e);
    ActKeepsLog(t1, e, f);
    if UnlikeFails(e, f) {
      assert GraphOf(t') == GraphOf(t);
    } else {
      ActIsReplay(t1, e, f);
    }
  }

  // ---------- reputation ----------

  /** Who endorses a. */
  function Endorsers(t: Tables, a: Agent): set<Agent> {
    set k | k in Endorsements(t, a) :: k.from
  }

  lemma {:induction false} OneRowPerEndorser(t: Tables, a: Agent, rows: set<Key>)
    requires rows <= Endorsements(t, a)
    ensures |rows| == |set k | k in rows :: k.from|
    decreases |rows|
  {
    var froms := set k | k in rows :: k.from;
    if rows != {} {
      var k :| k in rows;
      var rest := rows - {k};
      OneRowPerEndorser(t, a, rest);
      assert froms == (set l | l in rest :: l.from) + {k.from};
      assert k.from !in (set l | l in rest :: l.from) by {
        assert forall l | l in rest :: l != k && l.to == k.to && l.kind == k.kind;
      }
    }
  }

  ghost predicate ReputationInv(t: Tables) {
    && (forall k | k in t.relations :: Known(t, k))
    && (forall a | a in t.agents :: t.agents[a] == Score(|Endorsements(t, a)|))
  }

  lemma Scale(p: real, q: real, t: real)
    requires t > 0.0 && p * t <= q * t
    ensures p <= q
  {
    assert (p - q) * t <= 0.0;
  }

  lemma CrossMultiply(a: real, b: real, c: real, d: real)
    requires b > 0.0 && d > 0.0 && a * d <= c * b
    ensures a / b <= c / d
  {
    var p, q := a / b, c / d;
    assert p * b == a && q * d == c;
    assert p * (b * d) == (p * b) * d && q * (b * d) == (q * d) * b;
    assert b * d > 0.0;
    Scale(p, q, b * d);
  }

  lemma ScoreGrows(m: nat, n: nat)
    requires m <= n
    ensures Score(m) <= Score(n)
  {
    var x, y := m as real, n as real;
    assert x * (y + 10.0) == x * y + 10.0 * x && y * (x + 10.0) == x * y + 10.0 * y;
    CrossMultiply(x, x + 10.0, y, y + 10.0);
  }

  lemma ScoreIsInjective(m: nat, n: nat)
    ensures Score(m) == Score(n) <==> m == n
  {
    var x, y := m as real, n as real;
    if Score(m) == Score(n) {
      var p := Score(m);
      assert p * (x + 10.0) == x && p * (y + 10.0) == y;
      ScoreBelowOne(m);
      assert (x - y) * (1.0 - p) == 0.0;
    }
  }

  lemma ScoreBelowOne(n: nat)
    ensures 0.0 <= Score(n) < 1.0
  {
    var d := n as real + 10.0;
    assert Score(n) * d == n as real;
  }

  lemma EnsuredKeepsReputation(t: Tables, a: Agent, fault: bool)
    requires ReputationInv(t)
    ensures var t' := EnsureAgent(t, a, fault);
      ReputationInv(t') && t'.relations == t.relations &&
      forall b | b in t.agents :: b in t'.agents && t'.agents[b] == t.agents[b]
  {
    var t' := EnsureAgent(t, a, fault);
    if t' != t {
      assert Endorsements(t', a) == {};
      forall b | b in t'.agents ensures t'.agents[b] == Score(|Endorsements(t', b)|) {
        assert Endorsements(t', b) == Endorsements(t, b);
      }
    }
  }

  lemma EndorsementsAfter(t: Tables, t': Tables, k: Key, a: Agent)
    requires k.kind == Endorse && t'.relations.Keys == t.relations.Keys + {k}
    ensures a != k.to || k in t.relations ==> Endorsements(t', a) == Endorsements(t, a)
    ensures a == k.to && k !in t.relations ==> |Endorsements(t', a)| == |Endorsements(t, a)| + 1
    ensures a == k.to ==> |Endorsements(t', a)| >= 1
  {
    if a == k.to && k !in t.relations {
      assert Endorsements(t', a) == Endorsements(t, a) + {k};
    } else {
      assert Endorsements(t', a) == Endorsements(t, a);
      assert a == k.to ==> k in Endorsements(t', a);
    }
  }

  /** What an endorsement stores, and for whom. */
  lemma EndorsedScore(t: Tables, k: Key, skill: string, count: bool, update: bool, a: Agent)
    requires Known(t, k) && k.kind == Endorse && a in t.agents
    ensures var t' := Endorsed(t, k, skill, count, update);
      && t'.agents.Keys == t.agents.Keys && t'.relations.Keys == t.relations.Keys + {k}
      && t'.agents[a] == if a != k.to || update then t.agents[a]
                         else Score(if count then 0 else |Endorsements(t', a)|)
  {
    var t1 := t.(relations := t.relations[k := Skill(skill)]);
    var t' := Endorsed(t, k, skill, count, update);
    assert t'.relations == t1.relations;
    assert Endorsements(t', a) == Endorsements(t1, a);
  }

  /** Whatever fails, an endorsement leaves its target's score right exactly when its UPDATE has failed and it
      was there before, or neither its COUNT nor its UPDATE has failed. */
  lemma {:induction false} ScoreRightExactlyWhen(t: Tables, k: Key, skill: string, count: bool, update: bool)
    requires ReputationInv(t) && Known(t, k) && k.kind == Endorse
    ensures var t' := Endorsed(t, k, skill, count, update);
      t'.agents.Keys == t.agents.Keys &&
      (t'.agents[k.to] == Score(|Endorsements(t', k.to)|) <==> if update then k in t.relations else !count)
  {
    var t' := Endorsed(t, k, skill, count, update);
    EndorsedScore(t, k, skill, count, update, k.to);
    EndorsementsAfter(t, t', k, k.to);
    var n, n' := |Endorsements(t, k.to)|, |Endorsements(t', k.to)|;
    if update {
      ScoreIsInjective(n, n');
    } else if count {
      ScoreIsInjective(0, n');
    }
  }

  /** A new or repeated endorsement: the target's score is recomputed, and no other row of agents counts it. */
  lemma EndorseKeepsReputation(t: Tables, k: Key, skill: string)
    requires ReputationInv(t) && Known(t, k) && k.kind == Endorse
    ensures var t' := Endorsed(t, k, skill, false, false);
      ReputationInv(t') && NoScoreFalls(t, t')
  {
    var t' := Endorsed(t, k, skill, false, false);
    EndorsedScore(t, k, skill, false, false, k.to);
    forall a | a in t.agents
      ensures t'.agents[a] == Score(|Endorsements(t', a)|) && t.agents[a] <= t'.agents[a]
    {
      EndorsedScore(t, k, skill, false, false, a);
      EndorsementsAfter(t, t', k, a);
      ScoreGrows(|Endorsements(t, a)|, |Endorsements(t', a)|);
    }
  }

  ghost predicate NoScoreFalls(t: Tables, t': Tables) {
    forall a | a in t.agents :: a in t'.agents && t.agents[a] <= t'.agents[a]
  }

  /** What is not an endorsement changes no score. */
  lemma OtherKeepsReputation(t: Tables, t': Tables)
    requires ReputationInv(t) && t'.agents == t.agents
    requires forall k | k in t'.relations :: Known(t, k)
    requires forall k: Key | k.kind == Endorse :: k in t'.relations <==> k in t.relations
    ensures ReputationInv(t')
  {
    forall a | a in t'.agents ensures t'.agents[a] == Score(|Endorsements(t', a)|) {
      assert Endorsements(t', a) == Endorsements(t, a);
    }
  }

  lemma TimelineOnly(t: Tables, a: Agent, event: string, source: Agent, message: string)
    requires ReputationInv(t)
    ensures var t' := AddEvent(t, a, event, source, message);
      ReputationInv(t') && t'.agents == t.agents
  {
    OtherKeepsReputation(t, AddEvent(t, a, event, source, message));
  }

  lemma ActWithoutEndorsing(t: Tables, e: Event, f: Faults)
    requires e.kind != EndorseEvent && forall k | k in t.relations :: Known(t, k)
    ensures var t' := Act(t, e, f).0;
      t'.agents == t.agents && (forall k | k in t'.relations :: Known(t, k)) &&
      forall k: Key | k.kind == Endorse :: k in t'.relations <==> k in t.relations
  {
    match e.kind
    case FollowEvent =>
    case UnfollowEvent =>
    case LikeEvent =>
    case UnlikeEvent =>
    case CollabRequest =>
    case OtherEvent(_) =>
  }

  /** What Act does to an endorsement. */
  lemma ActEndorses(t: Tables, e: Event, f: Faults)
    requires e.kind == EndorseEvent
    ensures var k := Key(e.from, e.to, Endorse);
      Act(t, e, f).0 == if f.action || !Known(t, k) then t
                        else AddEvent(Endorsed(t, k, e.skill, f.count, f.update), e.to, "endorsed", e.from, e.skill)
  {
  }

  lemma EndorseEventKeepsReputation(t: Tables, e: Event, f: Faults)
    requires ReputationInv(t) && !f.count && !f.update && e.kind == EndorseEvent
    ensures ReputationInv(Act(t, e, f).0) && NoScoreFalls(t, Act(t, e, f).0)
  {
    var k := Key(e.from, e.to, Endorse);
    ActEndorses(t, e, f);
    if !f.action && Known(t, k) {
      EndorseKeepsReputation(t, k, e.skill);
      TimelineOnly(Endorsed(t, k, e.skill, false, false), e.to, "endorsed", e.from, e.skill);
    }
  }

  lemma ActKeepsReputation(t: Tables, e: Event, f: Faults)
    requires ReputationInv(t) && !f.count && !f.update
    ensures ReputationInv(Act(t, e, f).0) && NoScoreFalls(t, Act(t, e, f).0)
  {
    if e.kind == EndorseEvent {
      EndorseEventKeepsReputation(t, e, f);
    } else {
      ActWithoutEndorsing(t, e, f);
      OtherKeepsReputation(t, Act(t, e, f).0);
    }
  }

  lemma ProcessKeepsReputation(t: Tables, e: Event, f: Faults)
    requires ReputationInv(t) && !f.count && !f.update
    ensures ReputationInv(Process(t, e, f)) && NoScoreFalls(t, Process(t, e, f))
  {
    var t1 := Ensured(t, e, f);
    BothEnsured(t, e, f);
    ActKeepsReputation(t1, e, f);
    OtherKeepsReputation(Act(t1, e, f).0, Process(t, e, f));
  }

  lemma BothEnsured(t: Tables, e: Event, f: Faults)
    requires ReputationInv(t)
    ensures var t1 := Ensured(t, e, f);
      ReputationInv(t1) && forall a | a in t.agents :: a in t1.agents && t1.agents[a] == t.agents[a]
  {
    EnsuredKeepsReputation(t, e.from, f.from);
    EnsuredKeepsReputation(EnsureAgent(t, e.from, f.from), e.to, f.to);
  }

  /** The COUNT and the UPDATE of every endorsement succeed. */
  predicate Updating(es: seq<(Event, Faults)>) {
    forall i | 0 <= i < |es| :: !es[i].1.count && !es[i].1.update
  }

  lemma {:induction false} RunKeepsReputation(t: Tables, es: seq<(Event, Faults)>)
    requires ReputationInv(t) && Updating(es)
    ensures ReputationInv(Run(t, es)) && NoScoreFalls(t, Run(t, es))
    decreases |es|
  {
    if es != [] {
      ProcessKeepsReputation(t, es[0].0, es[0].1);
      assert forall i | 0 <= i < |es| - 1 :: es[1..][i] == es[i + 1];
      RunKeepsReputation(Process(t, es[0].0, es[0].1), es[1..]);
    }
  }

  /** After any run of events, one after the other, whose counts and updates succeed, every agent's stored
      score is n/(n+10) for its n distinct endorsers, and below 1. */
  lemma {:induction false} ReputationIsMaterialized(es: seq<(Event, Faults)>)
    requires Updating(es)
    ensures var t := Run(EMPTY, es);
      forall a | a in t.agents :: t.agents[a] == Score(|Endorsers(t, a)|) && t.agents[a] < 1.0
  {
    RunKeepsReputation(EMPTY, es);
    var t := Run(EMPTY, es);
    forall a | a in t.agents ensures t.agents[a] == Score(|Endorsers(t, a)|) && t.agents[a] < 1.0 {
      OneRowPerEndorser(t, a, Endorsements(t, a));
      ScoreBelowOne(|Endorsers(t, a)|);
    }
  }

  /** And going on from there never lowers it. */
  lemma {:induction false} ReputationNeverFalls(es: seq<(Event, Faults)>, more: seq<(Event, Faults)>)
    requires Updating(es) && Updating(more)
    ensures NoScoreFalls(Run(EMPTY, es), Run(Run(EMPTY, es), more))
  {
    RunKeepsReputation(EMPTY, es);
    RunKeepsReputation(Run(EMPTY, es), more);
  }

  /** The trust test, on the number of endorsers instead of the score. */
  predicate EnoughEndorsers(n: nat, minimum: real) {
    n as real * (1.0 - minimum) >= 10.0 * minimum
  }

  lemma TrustCountsEndorsers(n: nat, minimum: real)
    ensures Score(n) >= minimum <==> EnoughEndorsers(n, minimum)
  {
    var d := n as real + 10.0;
    assert Score(n) * d == n as real;
    assert Score(n) >= minimum <==> Score(n) * d >= minimum * d;
  }
}
