// The timeline: rows with ascending ids per agent, read backwards page by page with a cursor while new
// rows keep coming.
module Timeline {
  import opened Common
  import opened SocialGraph

  datatype Row = Row(id: nat, agent: string, event: string, source: string, message: string)

  const DEFAULT_LIMIT := 50

  /** AUTOINCREMENT: ids start at 1 and only grow. */
  ghost predicate Ascending(rows: seq<Row>) {
    (forall i | 0 <= i < |rows| :: rows[i].id >= 1) &&
    (forall i, j | 0 <= i < j < |rows| :: rows[i].id < rows[j].id)
  }

  /** Whether a page of the agent at the cursor may show the row; a cursor of 0 or less does not restrict. */
  predicate Visible(r: Row, agent: string, cursor: int) {
    r.agent == agent && (cursor > 0 ==> r.id < cursor)
  }

  /** The agent's visible rows, newest first. */
  function Backwards(rows: seq<Row>, agent: string, cursor: int): seq<Row> {
    if rows == [] then []
    else
      var last := rows[|rows| - 1];
      (if Visible(last, agent, cursor) then [last] else []) + Backwards(rows[..|rows| - 1], agent, cursor)
  }

  function Limit(limit: int): nat {
    if limit <= 0 then DEFAULT_LIMIT else limit
  }

  function Prefix<T>(s: seq<T>, n: nat): seq<T> {
    if |s| <= n then s else s[..n]
  }

  /** One page: the newest visible rows, up to the limit. */
  function Page(rows: seq<Row>, agent: string, cursor: int, limit: int): seq<Row> {
    Prefix(Backwards(rows, agent, cursor), Limit(limit))
  }

  /** A page has no more rows than the limit, or than 50 if the limit says nothing; all are visible rows of the agent,
      newest first; and a visible row is missing only from a full page, and is older than all of it. */
  lemma PageIsNewest(rows: seq<Row>, agent: string, cursor: int, limit: int)
    requires Ascending(rows)
    ensures var page, max := Page(rows, agent, cursor, limit), if limit <= 0 then 50 else limit;
      && |page| <= max && Descending(page)
      && (forall r | r in page :: r in rows && r.agent == agent && (cursor <= 0 || r.id < cursor))
      && (forall r | r in rows && r.agent == agent && (cursor <= 0 || r.id < cursor) && r !in page ::
            |page| == max && forall e | e in page :: e.id > r.id)
  {
    BackwardsIsExact(rows, agent, cursor);
    var all, page := Backwards(rows, agent, cursor), Page(rows, agent, cursor, limit);
    assert forall r | r in page :: r in all;
    forall r | r in rows && r.agent == agent && (cursor <= 0 || r.id < cursor) && r !in page
      ensures |page| == (if limit <= 0 then 50 else limit) && forall e | e in page :: e.id > r.id
    {
      assert r in all;
      OlderIsBehind(all, |page|, r);
    }
  }

  lemma OlderIsBehind(all: seq<Row>, n: nat, r: Row)
    requires Descending(all) && n <= |all| && r in all && r !in all[..n]
    ensures n < |all| && forall e | e in all[..n] :: e.id > r.id
  {
    assert all == all[..n] + all[n..];
    var k :| n <= k < |all| && all[k] == r;
  }

  // ---------- what a walk sees ----------

  /** Backwards lists the agent's visible rows and nothing else, newest first. */
  lemma BackwardsIsExact(rows: seq<Row>, agent: string, cursor: int)
    requires Ascending(rows)
    ensures var b := Backwards(rows, agent, cursor);
      (forall r :: r in b <==> r in rows && Visible(r, agent, cursor)) && Descending(b)
  {
    BackwardsHas(rows, agent, cursor);
    BackwardsDescends(rows, agent, cursor);
  }

  ghost predicate Descending(rows: seq<Row>) {
    forall i, j | 0 <= i < j < |rows| :: rows[i].id > rows[j].id
  }

  lemma {:induction false} BackwardsHas(rows: seq<Row>, agent: string, cursor: int)
    ensures forall r :: r in Backwards(rows, agent, cursor) <==> r in rows && Visible(r, agent, cursor)
  {
    if rows != [] {
      BackwardsHas(rows[..|rows| - 1], agent, cursor);
      assert rows == rows[..|rows| - 1] + [rows[|rows| - 1]];
    }
  }

  lemma {:induction false} BackwardsDescends(rows: seq<Row>, agent: string, cursor: int)
    requires Ascending(rows)
    ensures Descending(Backwards(rows, agent, cursor))
  {
    if rows != [] {
      var front, last := rows[..|rows| - 1], rows[|rows| - 1];
      BackwardsDescends(front, agent, cursor);
      BackwardsHas(front, agent, cursor);
      var b := Backwards(front, agent, cursor);
      forall k | 0 <= k < |b| ensures b[k].id < last.id {
        assert b[k] in b;
      }
    }
  }

  lemma Regroup(a: seq<Row>, b: seq<Row>, c: seq<Row>)
    ensures a + (b + c) == a + b + c
  {
  }

  /** A scan that has collected the visible rows behind i and goes on with row i. */
  lemma BackwardsStep(rows: seq<Row>, i: nat, agent: string, cursor: int, events: seq<Row>)
    requires i < |rows|
    ensures events + Backwards(rows[..i + 1], agent, cursor)
         == (if Visible(rows[i], agent, cursor) then events + [rows[i]] else events)
            + Backwards(rows[..i], agent, cursor)
  {
    assert rows[..i + 1][..i] == rows[..i];
    if Visible(rows[i], agent, cursor) {
      Regroup(events, [rows[i]], Backwards(rows[..i], agent, cursor));
    }
  }

  lemma ScanIsPage(all: seq<Row>, events: seq<Row>, left: seq<Row>, max: nat)
    requires all == events + left && |events| <= max && (left == [] || |events| == max)
    ensures Prefix(all, max) == events
  {
  }

  /** Rows that come in later have bigger ids, and no cursor that a page has given shows them. */
  lemma {:induction false} NewRowsAreHidden(rows: seq<Row>, more: seq<Row>, agent: string, cursor: int)
    requires cursor > 0 && forall i | 0 <= i < |more| :: more[i].id >= cursor
    ensures Backwards(rows + more, agent, cursor) == Backwards(rows, agent, cursor)
    decreases |more|
  {
    if more == [] {
      assert rows + more == rows;
    } else {
      assert (rows + more)[..|rows + more| - 1] == rows + more[..|more| - 1];
      NewRowsAreHidden(rows, more[..|more| - 1], agent, cursor);
    }
  }

  lemma {:induction false} CursorAbove(rows: seq<Row>, agent: string, cursor: int, c: int)
    requires 0 < c && (cursor > 0 ==> c <= cursor) && forall i | 0 <= i < |rows| :: rows[i].id < c
    ensures Backwards(rows, agent, c) == Backwards(rows, agent, cursor)
  {
    if rows != [] {
      CursorAbove(rows[..|rows| - 1], agent, cursor, c);
    }
  }

  lemma BackwardsOneMore(front: seq<Row>, last: Row, agent: string, cursor: int)
    ensures Backwards(front + [last], agent, cursor)
         == (if Visible(last, agent, cursor) then [last] else []) + Backwards(front, agent, cursor)
  {
    assert (front + [last])[..|front|] == front;
  }

  /** The newest visible row as the cursor skips itself alone. */
  lemma CursorSkipsNewest(front: seq<Row>, last: Row, agent: string, cursor: int)
    requires Ascending(front + [last]) && Visible(last, agent, cursor)
    ensures Backwards(front + [last], agent, last.id) == Backwards(front, agent, cursor)
  {
    var rows := front + [last];
    assert forall i | 0 <= i < |front| :: rows[i] == front[i] && rows[|front|] == last;
    BackwardsOneMore(front, last, agent, last.id);
    CursorAbove(front, agent, cursor, last.id);
  }

  lemma Shifted(b: seq<Row>, b': seq<Row>, last: Row, n: nat, m: nat)
    requires (b == b' && n == m) || (b == [last] + b' && n == m + 1)
    requires 0 < m <= |b'|
    ensures b[n - 1] == b'[m - 1] && b[n..] == b'[m..]
  {
  }

  lemma OlderThanLast(front: seq<Row>, last: Row, r: Row)
    requires Ascending(front + [last]) && r in front
    ensures r.id < last.id && r in front + [last]
  {
    var k :| 0 <= k < |front| && front[k] == r;
    assert (front + [last])[k] == r && (front + [last])[|front|] == last;
  }

  /** Taking the id of the n-th row as the cursor skips exactly n rows. */
  lemma {:induction false} CursorSkips(rows: seq<Row>, agent: string, cursor: int, n: nat)
    requires Ascending(rows) && 0 < n <= |Backwards(rows, agent, cursor)|
    ensures var b := Backwards(rows, agent, cursor);
      b[n - 1] in rows && Visible(b[n - 1], agent, cursor) && Backwards(rows, agent, b[n - 1].id) == b[n..]
  {
    var front, last := rows[..|rows| - 1], rows[|rows| - 1];
    assert rows == front + [last];
    BackwardsOneMore(front, last, agent, cursor);
    var b, b' := Backwards(rows, agent, cursor), Backwards(front, agent, cursor);
    if Visible(last, agent, cursor) && n == 1 {
      CursorSkipsNewest(front, last, agent, cursor);
      assert b[1..] == b';
    } else {
      var m := if Visible(last, agent, cursor) then n - 1 else n;
      CursorSkips(front, agent, cursor, m);
      Shifted(b, b', last, n, m);
      OlderThanLast(front, last, b[n - 1]);
      BackwardsOneMore(front, last, agent, b[n - 1].id);
    }
  }

  function Flatten(batches: seq<seq<Row>>): seq<Row> {
    if batches == [] then [] else batches[0] + Flatten(batches[1..])
  }

  function First(batches: seq<seq<Row>>): seq<Row> {
    if batches == [] then [] else batches[0]
  }

  function Rest(batches: seq<seq<Row>>): seq<seq<Row>> {
    if batches == [] then [] else batches[1..]
  }

  lemma LaterIdsAreBigger(rows: seq<Row>, more: seq<Row>, rest: seq<Row>, r: Row)
    requires Ascending(rows + (more + rest)) && r in rows
    ensures Ascending(rows) && forall i | 0 <= i < |more| :: more[i].id >= r.id
  {
    var all := rows + (more + rest);
    assert forall i | 0 <= i < |rows| :: rows[i] == all[i];
    var k :| 0 <= k < |rows| && rows[k] == r;
    assert forall i | 0 <= i < |more| :: all[|rows| + i] == more[i];
  }

  lemma AscendingFront(rows: seq<Row>, more: seq<Row>)
    requires Ascending(rows + more)
    ensures Ascending(rows)
  {
    assert forall i | 0 <= i < |rows| :: rows[i] == (rows + more)[i];
  }

  lemma FirstAndRest(batches: seq<seq<Row>>)
    ensures Flatten(batches) == First(batches) + Flatten(Rest(batches))
  {
  }

  /** The next page of a walk, the rows that came in meanwhile taken into account, has less left to show. */
  lemma NextPage(rows: seq<Row>, agent: string, cursor: int, limit: int, batches: seq<seq<Row>>)
    requires Ascending(rows + Flatten(batches)) && Page(rows, agent, cursor, limit) != []
    ensures Ascending(rows + First(batches) + Flatten(Rest(batches)))
    ensures var page := Page(rows, agent, cursor, limit);
      Backwards(rows, agent, cursor)
      == page + Backwards(rows + First(batches), agent, page[|page| - 1].id)
    ensures var page := Page(rows, agent, cursor, limit);
      |Backwards(rows + First(batches), agent, page[|page| - 1].id)| < |Backwards(rows, agent, cursor)|
  {
    FirstAndRest(batches);
    var more, rest := First(batches), Flatten(Rest(batches));
    assert rows + more + rest == rows + (more + rest);
    AscendingFront(rows, more + rest);
    var b, page := Backwards(rows, agent, cursor), Page(rows, agent, cursor, limit);
    var n := |page|;
    assert page == b[..n];
    CursorSkips(rows, agent, cursor, n);
    LaterIdsAreBigger(rows, more, rest, b[n - 1]);
    NewRowsAreHidden(rows, more, agent, b[n - 1].id);
  }

  /** The rows a reader collects who starts at the cursor and passes on the last id of each page until a
      page is empty. The batches come in between its calls. */
  function Walk(rows: seq<Row>, agent: string, cursor: int, limit: int, batches: seq<seq<Row>>): seq<Row>
    requires Ascending(rows + Flatten(batches))
    decreases |Backwards(rows, agent, cursor)|
  {
    var page := Page(rows, agent, cursor, limit);
    if page == [] then []
    else
      NextPage(rows, agent, cursor, limit, batches);
      page + Walk(rows + First(batches), agent, page[|page| - 1].id, limit, Rest(batches))
  }

  lemma {:induction false} WalkIsBackwards(
      rows: seq<Row>, agent: string, cursor: int, limit: int, batches: seq<seq<Row>>)
    requires Ascending(rows + Flatten(batches))
    ensures Walk(rows, agent, cursor, limit, batches) == Backwards(rows, agent, cursor)
    decreases |Backwards(rows, agent, cursor)|
  {
    var page := Page(rows, agent, cursor, limit);
    if page != [] {
      NextPage(rows, agent, cursor, limit, batches);
      WalkIsBackwards(rows + First(batches), agent, page[|page| - 1].id, limit, Rest(batches));
    }
  }

  /** Whatever comes in between the calls, the pages together are exactly the agent's rows up to the newest
      of the first page, in strictly descending order and each once. That the walk ends is why Walk is a
      function. */
  lemma PagingIsComplete(rows: seq<Row>, agent: string, limit: int, batches: seq<seq<Row>>)
    requires Ascending(rows + Flatten(batches))
    ensures var w := Walk(rows, agent, 0, limit, batches);
      var all := rows + Flatten(batches);
      (forall i, j | 0 <= i < j < |w| :: w[i].id > w[j].id) &&
      (forall r :: r in w <==> r in rows && r.agent == agent) &&
      (w != [] ==> forall r :: r in w <==> r in all && r.agent == agent && r.id <= w[0].id) &&
      Page(rows, agent, 0, limit) <= w
  {
    var w, all := Walk(rows, agent, 0, limit, batches), rows + Flatten(batches);
    assert Ascending(rows) by {
      assert forall i | 0 <= i < |rows| :: rows[i] == all[i];
    }
    WalkIsBackwards(rows, agent, 0, limit, batches);
    BackwardsIsExact(rows, agent, 0);
    if w != [] {
      assert w[0] in w;
      UpToNewest(rows, Flatten(batches), w[0]);
      forall r | r in w ensures r.id <= w[0].id {
        var i :| 0 <= i < |w| && w[i] == r;
      }
    }
  }

  /** The rows up to an id that is there already are there already. */
  lemma UpToNewest(rows: seq<Row>, more: seq<Row>, newest: Row)
    requires Ascending(rows + more) && newest in rows
    ensures forall r | r in rows + more && r.id <= newest.id :: r in rows
  {
    var all := rows + more;
    var k :| 0 <= k < |rows| && rows[k] == newest;
    assert all[k] == newest;
    forall r | r in all && r.id <= newest.id ensures r in rows {
      var i :| 0 <= i < |all| && all[i] == r;
      assert i <= k;
      assert rows[i] == r;
    }
  }

  // ---------- the timeline ----------

  class TimelineStore {
    var rows: seq<Row>
    var nextId: nat
    var agents: set<string>
    var messages: set<string>

    ghost predicate Valid()
      reads this
    {
      nextId >= 1 && Ascending(rows) && forall i | 0 <= i < |rows| :: rows[i].id < nextId
    }

    constructor ()
      ensures Valid() && rows == []
    {
      rows, nextId, agents, messages := [], 1, {}, {};
    }

    /** The agent is a foreign key, and so is the message when there is one; fault makes the statement fail
        in any case. */
    method AddEvent(agent: string, event: string, source: string, message: string, fault: bool) returns (ok: bool)
      requires Valid()
      modifies this`rows, this`nextId
      ensures Valid()
      ensures ok <==> !fault && agent in agents && (message == "" || message in messages)
      ensures rows == if ok then old(rows) + [Row(old(nextId), agent, event, source, message)] else old(rows)
      ensures nextId == old(nextId) + if ok then 1 else 0
    {
      ok := !fault && agent in agents && (message == "" || message in messages);
      if ok {
        rows := rows + [Row(nextId, agent, event, source, message)];
        nextId := nextId + 1;
      }
    }

    /** The page; fault makes the query fail. */
    method GetTimeline(agent: string, cursor: int, limit: int, fault: bool) returns (ok: bool, events: seq<Row>)
      ensures ok <==> !fault
      ensures ok ==> events == Page(rows, agent, cursor, limit)
    {
      var max := if limit <= 0 then DEFAULT_LIMIT else limit;
      ok, events := !fault, [];
      if fault {
        return;
      }
      var i := |rows|;
      ghost var all := Backwards(rows, agent, cursor);
      assert rows[..|rows|] == rows && [] + all == all;
      while i > 0 && |events| < max
        invariant 0 <= i <= |rows| && |events| <= max
        invariant all == events + Backwards(rows[..i], agent, cursor)
      {
        i := i - 1;
        BackwardsStep(rows, i, agent, cursor, events);
        if rows[i].agent == agent && (cursor <= 0 || rows[i].id < cursor) {
          events := events + [rows[i]];
        }
      }
      ScanIsPage(all, events, Backwards(rows[..i], agent, cursor), max);
    }

    /** Every follower that exists gets one row, in the order of the query; the others are skipped, and so are
        those whose statement fails. When the followers cannot be read nothing happens. */
    method PopulateTimelineForFollowers(
        graph: Graph, source: string, event: string, message: string, fault: bool, faults: set<nat>)
      returns (ok: bool, ghost order: seq<string>)
      requires Valid()
      modifies this`rows, this`nextId
      ensures Valid() && (ok <==> !fault)
      ensures !ok ==> rows == old(rows)
      ensures ok ==> NoDup(order) && forall a :: a in order <==> a in Followers(graph.db.Value(), source)
      ensures ok ==>
        var served := Served(order, agents, messages, message, faults);
        rows == old(rows) + RowsFor(served, old(nextId), source, event, message)
    {
      var followers;
      ok, followers := graph.GetFollowers(source, fault);
      order := followers;
      if ok {
        Populate(followers, source, event, message, faults);
      }
    }

    method Populate(followers: seq<string>, source: string, event: string, message: string, faults: set<nat>)
      requires Valid()
      modifies this`rows, this`nextId
      ensures Valid()
      ensures rows == old(rows) +
        RowsFor(Served(followers, agents, messages, message, faults), old(nextId), source, event, message)
    {
      for i := 0 to |followers|
        invariant Valid()
        invariant (rows, nextId) ==
          Filled(old(rows), old(nextId), followers[..i], agents, messages, source, event, message, faults)
      {
        var ok := AddEvent(followers[i], event, source, message, i in faults);
        assert followers[..i + 1][..i] == followers[..i];
      }
      assert followers[..|followers|] == followers;
      FilledIsRows(old(rows), old(nextId), followers, agents, messages, source, event, message, faults);
    }
  }

  /** The table and its next id after an event for each of the followers, one after the other. */
  function Filled(
      rows: seq<Row>, id: nat, followers: seq<string>, agents: set<string>, messages: set<string>,
      source: string, event: string, message: string, faults: set<nat>): (seq<Row>, nat)
  {
    if followers == [] then (rows, id)
    else
      var n := |followers| - 1;
      var (rows1, id1) := Filled(rows, id, followers[..n], agents, messages, source, event, message, faults);
      if n !in faults && followers[n] in agents && (message == "" || message in messages)
      then (rows1 + [Row(id1, followers[n], event, source, message)], id1 + 1) else (rows1, id1)
  }

  lemma {:induction false} FilledIsRows(
      rows: seq<Row>, id: nat, followers: seq<string>, agents: set<string>, messages: set<string>,
      source: string, event: string, message: string, faults: set<nat>)
    ensures var served := Served(followers, agents, messages, message, faults);
      Filled(rows, id, followers, agents, messages, source, event, message, faults)
      == (rows + RowsFor(served, id, source, event, message), id + |served|)
    decreases |followers|
  {
    if followers == [] {
      assert rows + [] == rows;
    } else {
      var n := |followers| - 1;
      var front := Served(followers[..n], agents, messages, message, faults);
      FilledIsRows(rows, id, followers[..n], agents, messages, source, event, message, faults);
      RowsForStep(rows, front, followers[n], id, source, event, message);
    }
  }

  /** One row for each agent, with consecutive ids. */
  function RowsFor(agents: seq<string>, id: nat, source: string, event: string, message: string): seq<Row> {
    if agents == [] then []
    else
      var n := |agents| - 1;
      RowsFor(agents[..n], id, source, event, message) + [Row(id + n, agents[n], event, source, message)]
  }

  lemma RowsForStep(
      rows: seq<Row>, agents: seq<string>, a: string, id: nat, source: string, event: string, message: string)
    ensures rows + RowsFor(agents + [a], id, source, event, message)
         == rows + RowsFor(agents, id, source, event, message) + [Row(id + |agents|, a, event, source, message)]
  {
    assert (agents + [a])[..|agents|] == agents;
  }

  /** The followers whose row the foreign keys let through; the statements at the positions faults fail. */
  function Served(
      followers: seq<string>, agents: set<string>, messages: set<string>, message: string, faults: set<nat>)
    : seq<string>
  {
    if followers == [] then []
    else
      var n := |followers| - 1;
      var front := Served(followers[..n], agents, messages, message, faults);
      if n !in faults && followers[n] in agents && (message == "" || message in messages)
      then front + [followers[n]] else front
  }
}
