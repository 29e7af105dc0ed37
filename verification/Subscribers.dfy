// The registries of stream subscribers: for every task, or every agent's feed, the channels of the
// clients that listen. The server's and the feed's registry work alike; only their buffers differ. The machine
// has all interleavings of adding, removing, notifying and receiving; the class has the slices and their arrays.
module Subscribers {
  import opened Common

  /** The first position of x, or the length. */
  function IndexOf<T(==)>(s: seq<T>, x: T): (i: nat)
    ensures i <= |s| && (i < |s| ==> s[i] == x)
    ensures forall j | 0 <= j < i :: s[j] != x
  {
    if s == [] || s[0] == x then 0 else 1 + IndexOf(s[1..], x)
  }

  function Without<T(==)>(s: seq<T>, x: T): seq<T> {
    var i := IndexOf(s, x);
    if i < |s| then s[..i] + s[i + 1..] else s
  }

  /** The subscribers of all keys when left remain at key; an empty list leaves no entry. */
  function Leave<T>(subs: map<string, seq<T>>, key: string, left: seq<T>): map<string, seq<T>> {
    if |left| == 0 then subs - {key} else subs[key := left]
  }

  /** The subscribers of all keys after x has left key. */
  function Unregister<T(==)>(subs: map<string, seq<T>>, key: string, x: T): map<string, seq<T>> {
    Leave(subs, key, Without(if key in subs then subs[key] else [], x))
  }

  function Register<T(==)>(subs: map<string, seq<T>>, key: string, x: T): map<string, seq<T>> {
    subs[key := (if key in subs then subs[key] else []) + [x]]
  }

  /** Removal takes out x alone and keeps everyone else, in order. */
  lemma WithoutKeepsOthers<T>(s: seq<T>, x: T)
    requires NoDup(s)
    ensures NoDup(Without(s, x))
    ensures forall y :: y in Without(s, x) <==> y in s && y != x
    ensures forall j | 0 <= j < |Without(s, x)| ::
              Without(s, x)[j] == s[if j < IndexOf(s, x) then j else j + 1]
  {
    var i, left := IndexOf(s, x), Without(s, x);
    assert forall j | 0 <= j < |left| :: left[j] == s[if j < i then j else j + 1];
    forall y | y in s && y != x ensures y in left {
      var k :| 0 <= k < |s| && s[k] == y;
      if k < i { assert left[k] == y; } else { assert left[k - 1] == y; }
    }
  }

  // ---------- all interleavings ----------

  /** One attempt to send an event: by which notification, how many the buffer held, and whether it was taken. */
  datatype Offer = Offer(from: nat, event: string, held: nat, taken: bool)

  /** A channel, with everything its reader has received and everything that was offered to it. */
  datatype Channel = Channel(
    capacity: nat, buffer: seq<string>, received: seq<string>, closed: bool, offers: seq<Offer>)

  /** A notification: the channels that listened when it took the read lock, and how many of them it has offered
      the event. */
  datatype Notification = Notification(key: string, event: string, all: seq<nat>, next: nat)

  /** The notifications under way hold the read lock, those that are done have released it. Panicked records a
      send on a closed channel or a second close. */
  datatype State = State(
    subs: map<string, seq<nat>>, channels: map<nat, Channel>, notifying: map<nat, Notification>,
    done: map<nat, Notification>, panicked: bool)

  /** A channel comes with any capacity; it is 16 for the events of a task and 32 for a feed. */
  datatype Step =
    | AddSub(key: string, channel: nat, capacity: nat)
    | RemoveSub(key: string, channel: nat)
    | NotifyStart(id: nat, key: string, event: string)
    | NotifyNext(id: nat)
    | Receive(channel: nat)

  const INIT := State(map[], map[], map[], map[], false)

  function Offered(c: Channel, from: nat, event: string): Channel {
    if |c.buffer| < c.capacity
    then c.(buffer := c.buffer + [event], offers := c.offers + [Offer(from, event, |c.buffer|, true)])
    else c.(offers := c.offers + [Offer(from, event, |c.buffer|, false)])
  }

  function Send(s: State, channel: nat, from: nat, event: string): State {
    if channel !in s.channels then s
    else if s.channels[channel].closed then s.(panicked := true)
    else s.(channels := s.channels[channel := Offered(s.channels[channel], from, event)])
  }

  function CloseChannel(s: State, channel: nat): State {
    if channel !in s.channels then s
    else if s.channels[channel].closed then s.(panicked := true)
    else s.(channels := s.channels[channel := s.channels[channel].(closed := true)])
  }

  function ListOf(s: State, key: string): seq<nat> {
    if key in s.subs then s.subs[key] else []
  }

  /** Adding and removing hold the write lock: they wait until no notification holds a read lock.
      Notifications run side by side. */
  function Apply(s: State, step: Step): State {
    match step
    case AddSub(key, x, capacity) =>
      if s.notifying != map[] || x in s.channels then s
      else s.(subs := Register(s.subs, key, x), channels := s.channels[x := Channel(capacity, [], [], false, [])])
    case RemoveSub(key, x) =>
      if s.notifying != map[] then s
      else
        var s' := s.(subs := Unregister(s.subs, key, x));
        if key in s.subs && x in s.subs[key] then CloseChannel(s', x) else s'
    case NotifyStart(id, key, event) =>
      if id in s.notifying || id in s.done then s
      else s.(notifying := s.notifying[id := Notification(key, event, ListOf(s, key), 0)])
    case NotifyNext(id) =>
      if id !in s.notifying then s
      else
        var n := s.notifying[id];
        if n.next >= |n.all| then s.(notifying := s.notifying - {id}, done := s.done[id := n])
        else Send(s.(notifying := s.notifying[id := n.(next := n.next + 1)]), n.all[n.next], id, n.event)
    case Receive(x) =>
      if x !in s.channels || s.channels[x].buffer == [] then s
      else
        var c := s.channels[x];
        s.(channels := s.channels[x := c.(buffer := c.buffer[1..], received := c.received + [c.buffer[0]])])
  }

  function Run(s: State, steps: seq<Step>): State
    decreases |steps|
  {
    if steps == [] then s else Run(Apply(s, steps[0]), steps[1..])
  }

  /** The events among the offers that were taken, in order. */
  function TakenOf(offers: seq<Offer>): seq<string> {
    if offers == [] then []
    else TakenOf(offers[..|offers| - 1]) + if offers[|offers| - 1].taken then [offers[|offers| - 1].event] else []
  }

  /** What was received and what is still buffered is what was taken, in the order of the notifications,
      and an event is dropped only when the buffer was full. */
  ghost predicate InOrder(c: Channel) {
    && c.received + c.buffer == TakenOf(c.offers)
    && |c.buffer| <= c.capacity
    && forall i | 0 <= i < |c.offers| :: c.offers[i].taken <==> c.offers[i].held < c.capacity
  }

  ghost predicate Open(s: State, x: nat) {
    x in s.channels && !s.channels[x].closed
  }

  /** Registered channels are open and registered once, and no key has an empty list. */
  ghost predicate RegistryOk(s: State) {
    && (forall key | key in s.subs :: s.subs[key] != [] && NoDup(s.subs[key]))
    && (forall key, x | key in s.subs && x in s.subs[key] :: Open(s, x))
    && (forall key, other, x | key in s.subs && other in s.subs && x in s.subs[key] && x in s.subs[other] ::
          key == other)
  }

  ghost predicate Safe(s: State) {
    && !s.panicked && RegistryOk(s)
    && (forall x | x in s.channels :: InOrder(s.channels[x]))
  }

  /** The channels a notification serves are open. */
  ghost predicate TargetsOpen(s: State) {
    forall id, x | id in s.notifying && x in s.notifying[id].all :: Open(s, x)
  }

  ghost predicate Inv(s: State) {
    Safe(s) && TargetsOpen(s)
  }

  /** A step that closes nothing and leaves the registry alone keeps it in order. */
  lemma StillOpen(s: State, s': State)
    requires Inv(s) && s'.subs == s.subs
    requires forall y | Open(s, y) :: Open(s', y)
    requires forall id, x | id in s'.notifying && x in s'.notifying[id].all ::
               id in s.notifying && x in s.notifying[id].all
    ensures RegistryOk(s') && TargetsOpen(s')
  {
    forall key, x | key in s'.subs && x in s'.subs[key] ensures Open(s', x) {
      assert Open(s, x);
    }
    forall id, x | id in s'.notifying && x in s'.notifying[id].all ensures Open(s', x) {
      assert Open(s, x);
    }
  }

  lemma RemoveKeepsInv(s: State, key: string, x: nat)
    requires Inv(s) && s.notifying == map[] && key in s.subs && x in s.subs[key]
    ensures Inv(Apply(s, RemoveSub(key, x)))
  {
    var s' := Apply(s, RemoveSub(key, x));
    WithoutKeepsOthers(s.subs[key], x);
    assert Open(s, x);
    forall k, y | k in s'.subs && y in s'.subs[k] ensures Open(s', y) {
      assert k in s.subs && y in s.subs[k] && Open(s, y);
      assert y != x;
    }
    forall y | y in s'.channels ensures InOrder(s'.channels[y]) {
      assert InOrder(s.channels[y]);
    }
  }

  lemma RemoveNobody(s: State, key: string, x: nat)
    requires Inv(s) && !(key in s.subs && x in s.subs[key])
    ensures Apply(s, RemoveSub(key, x)) == s
  {
    if key in s.subs {
      assert Without(s.subs[key], x) == s.subs[key];
      assert s.subs[key := s.subs[key]] == s.subs;
    } else {
      assert s.subs - {key} == s.subs;
    }
  }

  lemma OfferedInOrder(c: Channel, from: nat, event: string)
    requires InOrder(c)
    ensures InOrder(Offered(c, from, event))
  {
    var c' := Offered(c, from, event);
    assert c'.offers[..|c.offers|] == c.offers;
    assert c'.received + c'.buffer == c.received + c.buffer + c'.buffer[|c.buffer|..];
  }

  lemma NotifyNextKeepsInv(s: State, id: nat)
    requires Inv(s) && id in s.notifying
    ensures Inv(Apply(s, NotifyNext(id)))
  {
    var n := s.notifying[id];
    var s' := Apply(s, NotifyNext(id));
    if n.next < |n.all| {
      var x := n.all[n.next];
      assert x in n.all && Open(s, x);
      OfferedInOrder(s.channels[x], id, n.event);
    }
    StillOpen(s, s');
  }

  lemma AddKeepsInv(s: State, key: string, x: nat, capacity: nat)
    requires Inv(s) && s.notifying == map[] && x !in s.channels
    ensures Inv(Apply(s, AddSub(key, x, capacity)))
  {
    var s' := Apply(s, AddSub(key, x, capacity));
    assert !Open(s, x);
    assert forall k | k in s.subs :: x !in s.subs[k];
    forall k, y | k in s'.subs && y in s'.subs[k]
      ensures Open(s', y) && if y == x then k == key else k in s.subs && y in s.subs[k]
    {
      if y != x { assert Open(s, y); }
    }
  }

  lemma FirstMoves(received: seq<string>, buffer: seq<string>)
    requires buffer != []
    ensures received + [buffer[0]] + buffer[1..] == received + buffer
  {
    assert buffer == [buffer[0]] + buffer[1..];
  }

  lemma ReceiveKeepsInv(s: State, x: nat)
    requires Inv(s) && x in s.channels && s.channels[x].buffer != []
    ensures Inv(Apply(s, Receive(x)))
  {
    var s' := Apply(s, Receive(x));
    var c, c' := s.channels[x], s'.channels[x];
    FirstMoves(c.received, c.buffer);
    StillOpen(s, s');
  }

  lemma NotifyStartKeepsInv(s: State, id: nat, key: string, event: string)
    requires Inv(s) && id !in s.notifying && id !in s.done
    ensures Inv(Apply(s, NotifyStart(id, key, event)))
  {
    var s' := Apply(s, NotifyStart(id, key, event));
    forall k, y | k in s'.subs && y in s'.subs[k] ensures Open(s', y) {
      assert Open(s, y);
    }
    forall i, y | i in s'.notifying && y in s'.notifying[i].all ensures Open(s', y) {
      assert Open(s, y) by { if i in s.notifying {} }
    }
  }

  lemma StepKeepsInv(s: State, step: Step)
    requires Inv(s)
    ensures Inv(Apply(s, step))
  {
    match step
    case AddSub(key, x, capacity) => if Apply(s, step) != s { AddKeepsInv(s, key, x, capacity); }
    case RemoveSub(key, x) =>
      if key in s.subs && x in s.subs[key] {
        if s.notifying == map[] { RemoveKeepsInv(s, key, x); }
      } else {
        RemoveNobody(s, key, x);
      }
    case NotifyStart(id, key, event) =>
      if id !in s.notifying && id !in s.done { NotifyStartKeepsInv(s, id, key, event); }
    case NotifyNext(id) => if id in s.notifying { NotifyNextKeepsInv(s, id); }
    case Receive(x) => if Apply(s, step) != s { ReceiveKeepsInv(s, x); }
  }

  lemma {:induction false} RunKeepsInv(s: State, steps: seq<Step>)
    requires Inv(s)
    ensures Inv(Run(s, steps))
    decreases |steps|
  {
    if steps != [] {
      StepKeepsInv(s, steps[0]);
      RunKeepsInv(Apply(s, steps[0]), steps[1..]);
    }
  }

  /** Over every interleaving no channel is sent to after it was closed or closed twice, no key keeps an
      empty list, and every channel's events come in order, dropped only when its buffer is full. */
  lemma ChannelsAreSafe(steps: seq<Step>)
    ensures Safe(Run(INIT, steps))
  {
    RunKeepsInv(INIT, steps);
  }

  // ---------- who is offered what ----------

  /** The events the notification has offered, in order. */
  function OffersBy(offers: seq<Offer>, id: nat): seq<string> {
    if offers == [] then []
    else
      var last := offers[|offers| - 1];
      OffersBy(offers[..|offers| - 1], id) + if last.from == id then [last.event] else []
  }

  lemma OffersOneMore(offers: seq<Offer>, o: Offer, id: nat)
    ensures OffersBy(offers + [o], id) == OffersBy(offers, id) + if o.from == id then [o.event] else []
  {
    assert (offers + [o])[..|offers|] == offers;
  }

  /** What the notification has offered to the channel so far. */
  function DueOf(n: Notification, x: nat): seq<string> {
    if n.next <= |n.all| && x in n.all[..n.next] then [n.event] else []
  }

  function DueBy(s: State, id: nat, x: nat): seq<string> {
    if id in s.notifying then DueOf(s.notifying[id], x) else if id in s.done then DueOf(s.done[id], x) else []
  }

  /** A notification under way serves the list its key has: nobody comes or leaves while it holds the lock. */
  ghost predicate Flights(s: State) {
    forall id | id in s.notifying ::
      var n := s.notifying[id]; id !in s.done && n.all == ListOf(s, n.key) && NoDup(n.all) && n.next <= |n.all|
  }

  /** A notification that is done has served its whole list, and channels are never forgotten. */
  ghost predicate AllServed(s: State) {
    forall id | id in s.done ::
      var n := s.done[id]; n.next == |n.all| && forall x | x in n.all :: x in s.channels
  }

  ghost predicate OffersOk(s: State) {
    forall id, x | x in s.channels :: OffersBy(s.channels[x].offers, id) == DueBy(s, id, x)
  }

  lemma StepKeepsFlights(s: State, step: Step)
    requires Inv(s) && Flights(s) && AllServed(s)
    ensures Flights(Apply(s, step)) && AllServed(Apply(s, step))
  {
    match step
    case NotifyNext(id) => if id in s.notifying { NextKeepsFlights(s, id); }
    case _ =>
  }

  lemma NextFields(s: State, id: nat)
    requires id in s.notifying
    ensures var s', n := Apply(s, NotifyNext(id)), s.notifying[id];
      && s'.subs == s.subs && s'.channels.Keys == s.channels.Keys
      && s'.notifying == (if n.next < |n.all| then s.notifying[id := n.(next := n.next + 1)] else s.notifying - {id})
      && s'.done == if n.next < |n.all| then s.done else s.done[id := n]
  {
  }

  lemma NextKeepsFlights(s: State, id: nat)
    requires TargetsOpen(s) && Flights(s) && AllServed(s) && id in s.notifying
    ensures Flights(Apply(s, NotifyNext(id))) && AllServed(Apply(s, NotifyNext(id)))
  {
    var n := s.notifying[id];
    NextFields(s, id);
    forall x | x in n.all ensures x in s.channels {
      assert Open(s, x);
    }
  }

  /** The channel at position i of the list is next. */
  lemma NextInList(list: seq<nat>, i: nat, x: nat)
    requires NoDup(list) && i < |list|
    ensures x in list[..i + 1] <==> x in list[..i] || x == list[i]
    ensures x == list[i] ==> x !in list[..i]
  {
    assert list[..i + 1] == list[..i] + [list[i]];
  }

  lemma StepKeepsOffers(s: State, step: Step, id: nat, x: nat)
    requires Inv(s) && Flights(s) && AllServed(s) && OffersOk(s) && x in Apply(s, step).channels
    ensures var s' := Apply(s, step); OffersBy(s'.channels[x].offers, id) == DueBy(s', id, x)
  {
    if x in s.channels {
      assert OffersBy(s.channels[x].offers, id) == DueBy(s, id, x);
    }
    if Offers(s, step) {
      NextOffers(s, step.id, id, x);
    } else {
      NothingOffered(s, step, x);
      NothingDue(s, step, id, x);
    }
  }

  predicate Offers(s: State, step: Step) {
    step.NotifyNext? && step.id in s.notifying && s.notifying[step.id].next < |s.notifying[step.id].all|
  }

  lemma NothingOffered(s: State, step: Step, x: nat)
    requires !Offers(s, step) && x in Apply(s, step).channels
    ensures Apply(s, step).channels[x].offers == if x in s.channels then s.channels[x].offers else []
    ensures x !in s.channels ==> s.notifying == map[] && Apply(s, step).done == s.done
  {
  }

  lemma NothingDue(s: State, step: Step, id: nat, x: nat)
    requires AllServed(s) && !Offers(s, step) && x in Apply(s, step).channels
    ensures DueBy(Apply(s, step), id, x) == if x in s.channels then DueBy(s, id, x) else []
  {
    match step
    case NotifyStart(i, _, _) => StartIsNotDue(s, step, id, x);
    case NotifyNext(i) => if i in s.notifying { DoneIsDue(s, i, id, x); }
    case AddSub(_, _, _) => if x !in s.channels { NewIsNotServed(s, id, x); }
    case _ => assert Apply(s, step).notifying == s.notifying && Apply(s, step).done == s.done;
  }

  lemma StartIsNotDue(s: State, step: Step, id: nat, x: nat)
    requires step.NotifyStart?
    ensures DueBy(Apply(s, step), id, x) == DueBy(s, id, x)
  {
  }

  lemma DoneIsDue(s: State, i: nat, id: nat, x: nat)
    requires i in s.notifying && !Offers(s, NotifyNext(i))
    ensures DueBy(Apply(s, NotifyNext(i)), id, x) == DueBy(s, id, x)
  {
  }

  lemma NewIsNotServed(s: State, id: nat, x: nat)
    requires AllServed(s) && s.notifying == map[] && x !in s.channels
    ensures DueBy(s, id, x) == []
  {
  }

  lemma NextChannels(s: State, i: nat)
    requires i in s.notifying && s.notifying[i].next < |s.notifying[i].all|
    requires Open(s, s.notifying[i].all[s.notifying[i].next])
    ensures var n := s.notifying[i];
      var x := n.all[n.next];
      Apply(s, NotifyNext(i)).channels == s.channels[x := Offered(s.channels[x], i, n.event)]
  {
  }

  lemma NextOffers(s: State, i: nat, id: nat, x: nat)
    requires TargetsOpen(s) && Flights(s) && i in s.notifying && s.notifying[i].next < |s.notifying[i].all|
    requires x in s.channels && OffersBy(s.channels[x].offers, id) == DueBy(s, id, x)
    ensures var s' := Apply(s, NotifyNext(i));
      x in s'.channels && OffersBy(s'.channels[x].offers, id) == DueBy(s', id, x)
  {
    var n := s.notifying[i];
    assert n.all[n.next] in n.all && Open(s, n.all[n.next]);
    NextFields(s, i);
    NextChannels(s, i);
    NextInList(n.all, n.next, x);
    if x == n.all[n.next] {
      OfferedOffers(s.channels[x], i, n.event, id);
    }
  }

  lemma OfferedOffers(c: Channel, from: nat, event: string, id: nat)
    ensures OffersBy(Offered(c, from, event).offers, id) == OffersBy(c.offers, id) + if from == id then [event] else []
  {
    var offers := Offered(c, from, event).offers;
    OffersOneMore(c.offers, offers[|c.offers|], id);
  }

  lemma {:induction false} RunKeepsOffers(s: State, steps: seq<Step>)
    requires Inv(s) && Flights(s) && AllServed(s) && OffersOk(s)
    ensures var s' := Run(s, steps); Flights(s') && AllServed(s') && OffersOk(s')
    decreases |steps|
  {
    if steps != [] {
      var s' := Apply(s, steps[0]);
      StepKeepsInv(s, steps[0]);
      StepKeepsFlights(s, steps[0]);
      forall id, x | x in s'.channels ensures OffersBy(s'.channels[x].offers, id) == DueBy(s', id, x) {
        StepKeepsOffers(s, steps[0], id, x);
      }
      RunKeepsOffers(s', steps[1..]);
    }
  }

  /** Over every interleaving, a notification serves the list its key has while it runs; when it is done, every
      channel of that list has been offered its event exactly once, and no other channel has. */
  lemma {:induction false} EveryListenerIsOffered(steps: seq<Step>, id: nat, x: nat)
    requires x in Run(INIT, steps).channels
    ensures var s := Run(INIT, steps);
      && (id in s.notifying ==> s.notifying[id].all == ListOf(s, s.notifying[id].key))
      && (id in s.done ==>
            OffersBy(s.channels[x].offers, id) == if x in s.done[id].all then [s.done[id].event] else [])
  {
    RunKeepsOffers(INIT, steps);
    var s := Run(INIT, steps);
    assert OffersBy(s.channels[x].offers, id) == DueBy(s, id, x);
  }

  /** From every state of a run a notification comes to its end by its own steps alone, and has served its list. */
  lemma {:induction false} NotificationCanFinish(s: State, id: nat) returns (steps: seq<Step>)
    requires Inv(s) && Flights(s) && AllServed(s) && id in s.notifying
    ensures forall step | step in steps :: step == NotifyNext(id)
    ensures var s' := Run(s, steps);
      id !in s'.notifying && id in s'.done && s'.done[id].all == s.notifying[id].all == ListOf(s, s.notifying[id].key)
    decreases |s.notifying[id].all| - s.notifying[id].next
  {
    var step, n := NotifyNext(id), s.notifying[id];
    NextFields(s, id);
    steps := [step];
    if n.next < |n.all| {
      StepKeepsInv(s, step);
      NextKeepsFlights(s, id);
      var more := NotificationCanFinish(Apply(s, step), id);
      steps := [step] + more;
      assert steps[1..] == more;
    } else {
      assert steps[1..] == [];
    }
  }

  /** A channel is listed behind a step exactly when the step adds it, or it was listed and the step does not
      remove it; and the one that removes it closes it. Both wait for the notifications under way. */
  lemma ListedExactlyWhen(s: State, step: Step, key: string, x: nat)
    requires Inv(s)
    ensures var s' := Apply(s, step);
      var locked := s.notifying == map[];
      && (x in ListOf(s', key) <==>
            (step.AddSub? && step.key == key && step.channel == x && locked && x !in s.channels) ||
            (x in ListOf(s, key) && !(step == RemoveSub(key, x) && locked)))
      && (step == RemoveSub(key, x) && locked && x in ListOf(s, key) ==> x in s'.channels && s'.channels[x].closed)
  {
    match step
    case RemoveSub(k, y) =>
      if s.notifying == map[] {
        assert y in ListOf(s, k) ==> Open(s, y);
        ListedAfterRemoval(s, k, y, key, x);
      }
    case NotifyNext(_) => assert Apply(s, step).subs == s.subs;
    case _ =>
  }

  lemma ListedAfterRemoval(s: State, k: string, y: nat, key: string, x: nat)
    requires s.notifying == map[]
    requires (k in s.subs ==> NoDup(s.subs[k])) && (y in ListOf(s, k) ==> Open(s, y))
    ensures var s' := Apply(s, RemoveSub(k, y));
      && (x in ListOf(s', key) <==> x in ListOf(s, key) && !(k == key && y == x))
      && (y in ListOf(s, k) ==> y in s'.channels && s'.channels[y].closed)
  {
    if k in s.subs { WithoutKeepsOthers(s.subs[k], y); }
  }

  // ---------- the registry ----------

  /** A full buffer drops the event. */
  function Offering(buffer: seq<string>, capacity: nat, event: string): seq<string> {
    if |buffer| < capacity then buffer + [event] else buffer
  }

  /** A Go channel with its buffer. */
  class Chan {
    const capacity: nat
    var buffer: seq<string>
    var closed: bool

    constructor (capacity: nat)
      ensures this.capacity == capacity && buffer == [] && !closed
    {
      this.capacity, buffer, closed := capacity, [], false;
    }

    /** The select with a default: it never blocks, and a full buffer drops the event. */
    method TrySend(event: string)
      requires !closed
      modifies this`buffer
      ensures buffer == Offering(old(buffer), capacity, event)
    {
      if |buffer| < capacity {
        buffer := buffer + [event];
      }
    }
  }

  /** A Go slice: the first len elements of a shared array. */
  datatype Slice = Slice(arr: array<Chan>, len: nat)

  lemma OthersUnchanged<V>(before: map<string, V>, after: map<string, V>, key: string, value: V)
    requires before.Keys == after.Keys
    requires forall other | other in before && other != key :: after[other] == before[other]
    ensures after[key := value] == before[key := value] && after - {key} == before - {key}
  {
  }

  // ---------- who is registered ----------

  function ChannelsOf(view: map<string, seq<Chan>>): set<Chan> {
    set key, c | key in view && c in view[key] :: c
  }

  /** No channel is registered twice. */
  ghost predicate Tidy(view: map<string, seq<Chan>>) {
    && (forall key | key in view :: NoDup(view[key]))
    && (forall key, other | key in view && other in view && key != other ::
          forall c | c in view[key] :: c !in view[other])
  }

  lemma RegisterKeepsTidy(view: map<string, seq<Chan>>, key: string, ch: Chan)
    requires Tidy(view) && ch !in ChannelsOf(view)
    ensures Tidy(Register(view, key, ch))
    ensures ChannelsOf(Register(view, key, ch)) <= ChannelsOf(view) + {ch}
  {
    assert forall k | k in view :: ch !in view[k];
  }

  lemma UnregisterKeepsTidy(view: map<string, seq<Chan>>, key: string, ch: Chan)
    requires Tidy(view)
    ensures Tidy(Unregister(view, key, ch))
    ensures ChannelsOf(Unregister(view, key, ch)) <= ChannelsOf(view)
    ensures key in view && ch in view[key] ==> ch !in ChannelsOf(Unregister(view, key, ch))
  {
    if key in view {
      WithoutKeepsOthers(view[key], ch);
      LeaveKeepsTidy(view, key, Without(view[key], ch));
    } else {
      NobodyLeaves(view, key, ch);
    }
  }

  /** Whoever unregisters leaves its list, the others keep their order, and no list is left empty. */
  lemma UnregisterTakesOut(view: map<string, seq<Chan>>, key: string, ch: Chan)
    requires Tidy(view) && forall k | k in view :: view[k] != []
    ensures var after := Unregister(view, key, ch);
      && (forall k | k in after :: after[k] != [] && k in view)
      && (forall k | k in view && k != key :: k in after && after[k] == view[k])
      && (key in view ==>
            forall c :: (key in after && c in after[key]) <==> c in view[key] && c != ch)
      && (key in after ==>
            forall i, j | 0 <= i < j < |after[key]| ::
              IndexOf(view[key], after[key][i]) < IndexOf(view[key], after[key][j]))
  {
    if key in view {
      WithoutKeepsOthers(view[key], ch);
      forall c | c in view[key] ensures IndexOf(view[key], c) < |view[key]| {
      }
    }
  }

  lemma LeaveKeepsTidy(view: map<string, seq<Chan>>, key: string, left: seq<Chan>)
    requires Tidy(view) && key in view && NoDup(left) && forall c | c in left :: c in view[key]
    ensures Tidy(Leave(view, key, left)) && ChannelsOf(Leave(view, key, left)) <= ChannelsOf(view)
    ensures forall c | c in view[key] && c !in left :: c !in ChannelsOf(Leave(view, key, left))
  {
    var after := Leave(view, key, left);
    assert forall k | k in after :: k in view && after[k] == if k == key then left else view[k];
  }

  lemma NobodyLeaves(subs: map<string, seq<Chan>>, key: string, ch: Chan)
    requires key in subs ==> subs[key] != [] && IndexOf(subs[key], ch) == |subs[key]|
    ensures Unregister(subs, key, ch) == subs
    ensures key in subs ==> ch !in subs[key]
  {
    if key in subs {
      assert subs[key := subs[key]] == subs;
    } else {
      assert subs - {key} == subs;
    }
  }

  /** No other list uses the array. */
  ghost predicate Own(subs: map<string, Slice>, key: string, arr: array<Chan>) {
    forall other | other in subs && other != key :: subs[other].arr != arr
  }

  /** Every list has its own array, and is not empty. */
  ghost predicate Sound(subs: map<string, Slice>) {
    forall key | key in subs :: 0 < subs[key].len <= subs[key].arr.Length && Own(subs, key, subs[key].arr)
  }

  lemma PutIsSound(subs: map<string, Slice>, key: string, list: Slice)
    requires Sound(subs) && 0 < list.len <= list.arr.Length && Own(subs, key, list.arr)
    ensures Sound(subs[key := list])
  {
    var after := subs[key := list];
    forall k | k in after && k != key ensures Own(after, k, after[k].arr) {
      assert Own(subs, k, subs[k].arr);
    }
  }

  class Registry {
    var subs: map<string, Slice>

    ghost function Arrays(): set<array<Chan>>
      reads this
    {
      set key | key in subs :: subs[key].arr
    }

    ghost predicate Layout()
      reads this
    {
      Sound(subs)
    }

    /** The lists of channels by key. */
    ghost function View(): map<string, seq<Chan>>
      requires Layout()
      reads this, Arrays()
    {
      map key | key in subs :: assert subs[key].arr in Arrays(); subs[key].arr[..subs[key].len]
    }

    constructor ()
      ensures Layout() && View() == map[]
    {
      subs := map[];
    }

    lemma OwnOrNew(key: string, arr: array<Chan>)
      requires Layout() && ((key in subs && subs[key].arr == arr) || arr !in Arrays())
      ensures Own(subs, key, arr)
    {
      forall other | other in subs && other != key ensures subs[other].arr != arr {
        assert subs[other].arr in Arrays();
        if key in subs { assert Own(subs, key, subs[key].arr); }
      }
    }

    /** Every registered channel. */
    ghost function Channels(): set<Chan>
      requires Layout()
      reads this, Arrays()
    {
      ChannelsOf(View())
    }

    /** What the handlers rely on: no channel is registered twice, and every registered one is open. */
    ghost predicate Ready()
      requires Layout()
      reads this, Arrays(), Channels()
    {
      Tidy(View()) && forall c | c in Channels() :: !c.closed
    }

    /** subs[key] = list: the list's array is the one key had, or a new one. */
    method Put(key: string, list: Slice)
      requires Layout() && 0 < list.len <= list.arr.Length && Own(subs, key, list.arr)
      modifies this
      ensures Layout() && Arrays() <= old(Arrays()) + {list.arr}
      ensures View() == old(View())[key := old(list.arr[..list.len])]
    {
      PutIsSound(subs, key, list);
      subs := subs[key := list];
    }

    method Drop(key: string)
      requires Layout()
      modifies this
      ensures Layout() && Arrays() <= old(Arrays()) && View() == old(View()) - {key}
    {
      subs := subs - {key};
    }

    /** The handlers register a channel that they have just made. */
    method AddSubscriber(key: string, ch: Chan)
      requires Layout() && Ready() && ch !in Channels() && !ch.closed
      modifies this, Arrays()
      ensures Layout() && Ready() && fresh(Arrays() - old(Arrays()))
      ensures View() == old(View())[key := (if key in old(View()) then old(View())[key] else []) + [ch]]
    {
      RegisterKeepsTidy(View(), key, ch);
      Attach(key, ch);
    }

    method Attach(key: string, ch: Chan)
      requires Layout()
      modifies this, Arrays()
      ensures Layout() && fresh(Arrays() - old(Arrays()))
      ensures View() == Register(old(View()), key, ch)
    {
      ghost var before := View();
      var list;
      if key in subs {
        assert subs[key].arr in Arrays();
        list := subs[key];
      } else {
        var empty := new Chan[0];
        list := Slice(empty, 0);
      }
      ghost var was := list.arr[..list.len];
      list := Append(list, ch);
      OthersUnchanged(before, View(), key, was + [ch]);
      OwnOrNew(key, list.arr);
      Put(key, list);
    }

    /** The channel leaves the list and is closed; the channels behind it move up in the same array. */
    method RemoveSubscriber(key: string, ch: Chan)
      requires Layout() && Ready()
      modifies this, Arrays(), ch`closed
      ensures Layout() && Ready() && Arrays() <= old(Arrays())
      ensures View() == Unregister(old(View()), key, ch)
      ensures ch.closed == (old(ch.closed) || (key in old(View()) && ch in old(View())[key]))
    {
      var found := LeaveList(key, ch);
      if found {
        ch.closed := true;
      }
    }

    method LeaveList(key: string, ch: Chan) returns (found: bool)
      requires Layout() && Ready()
      modifies this, Arrays()
      ensures Layout() && Ready() && Arrays() <= old(Arrays())
      ensures View() == Unregister(old(View()), key, ch)
      ensures found <==> key in old(View()) && ch in old(View())[key]
      ensures found ==> ch !in Channels()
    {
      UnregisterKeepsTidy(View(), key, ch);
      found := Detach(key, ch);
    }

    method Detach(key: string, ch: Chan) returns (found: bool)
      requires Layout()
      modifies this, Arrays()
      ensures Layout() && Arrays() <= old(Arrays())
      ensures View() == Unregister(old(View()), key, ch)
      ensures found <==> key in old(View()) && ch in old(View())[key]
    {
      ghost var before := View();
      found := false;
      if key !in subs {
        NobodyLeaves(before, key, ch);
        return;
      }
      var list := subs[key];
      assert list.arr in Arrays();
      var i := Find(list, ch);
      if i == list.len {
        NobodyLeaves(before, key, ch);
        return;
      }
      assert before[key][i] == ch;
      assert Without(before[key], ch) == before[key][..i] + before[key][i + 1..];
      TakeOut(key, i);
      found := true;
    }

    /** Takes out the i-th channel of a list, and the list itself when it was the last one. */
    method TakeOut(key: string, i: nat)
      requires Layout() && key in subs && i < subs[key].len
      modifies this, Arrays()
      ensures Layout() && Arrays() <= old(Arrays())
      ensures View() == Leave(old(View()), key, old(View())[key][..i] + old(View())[key][i + 1..])
    {
      ghost var before := View();
      var list := subs[key];
      assert list.arr in Arrays();
      ShiftFrom(list.arr, i, list.len);
      ghost var left := list.arr[..list.len - 1];
      assert left == before[key][..i] + before[key][i + 1..];
      OthersUnchanged(before, View(), key, left);
      if list.len - 1 == 0 {
        Drop(key);
      } else {
        OwnOrNew(key, list.arr);
        Put(key, Slice(list.arr, list.len - 1));
      }
    }

    /** The channels that listen to key, as a set. */
    ghost function Listeners(key: string): set<Chan>
      requires Layout()
      reads this, Arrays()
    {
      set c | c in Listening(key)
    }

    /** The channels that listen to key. */
    ghost function Listening(key: string): seq<Chan>
      requires Layout()
      reads this, Arrays()
    {
      if key in subs then assert subs[key].arr in Arrays(); subs[key].arr[..subs[key].len] else []
    }

    lemma ReadyListeners(key: string)
      requires Layout() && Ready()
      ensures NoDup(Listening(key)) && forall c | c in Listeners(key) :: !c.closed
    {
      if key in subs {
        assert key in View() && View()[key] == Listening(key);
        forall c | c in Listening(key) ensures c in Channels() {
        }
      }
    }

    /** Every listener is offered the event once; nobody waits for a full buffer. */
    method Notify(key: string, event: string)
      requires Layout() && Ready()
      modifies Listeners(key)`buffer
      ensures forall c | c in Listening(key) ::
        c.buffer == if |old(c.buffer)| < c.capacity then old(c.buffer) + [event] else old(c.buffer)
    {
      if key !in subs {
        return;
      }
      var list := subs[key];
      ghost var all := Listening(key);
      ReadyListeners(key);
      for i := 0 to list.len
        invariant forall j | 0 <= j < i :: all[j].buffer == Offering(old(all[j].buffer), all[j].capacity, event)
        invariant forall j | i <= j < |all| :: all[j].buffer == old(all[j].buffer)
      {
        var c := list.arr[i];
        assert c == all[i] && c in Listeners(key);
        c.TrySend(event);
      }
    }
  }

  /** append: into the spare capacity of the array, or into a bigger copy of it. */
  method Append(list: Slice, ch: Chan) returns (longer: Slice)
    requires list.len <= list.arr.Length
    modifies list.arr
    ensures longer.arr == list.arr || fresh(longer.arr)
    ensures longer.len == list.len + 1 <= longer.arr.Length
    ensures longer.arr[..longer.len] == old(list.arr[..list.len]) + [ch]
  {
    longer := Slice(list.arr, list.len + 1);
    if list.len == list.arr.Length {
      var bigger := new Chan[2 * list.len + 1](_ => ch);
      forall i | 0 <= i < list.len {
        bigger[i] := list.arr[i];
      }
      longer := Slice(bigger, list.len + 1);
    }
    longer.arr[list.len] := ch;
  }

  method Find(list: Slice, ch: Chan) returns (i: nat)
    requires list.len <= list.arr.Length
    ensures i == IndexOf(list.arr[..list.len], ch)
  {
    i := 0;
    while i < list.len && list.arr[i] != ch
      invariant i <= list.len && forall j | 0 <= j < i :: list.arr[j] != ch
    {
      i := i + 1;
    }
  }

  /** append(subs[:i], subs[i+1:]...): the elements behind i move one place forward. */
  method ShiftFrom(arr: array<Chan>, i: nat, len: nat)
    requires i < len <= arr.Length
    modifies arr
    ensures arr[..len - 1] == old(arr[..i]) + old(arr[i + 1..len])
  {
    for j := i to len - 1
      invariant forall k | 0 <= k < i :: arr[k] == old(arr[k])
      invariant forall k | i <= k < j :: arr[k] == old(arr[k + 1])
      invariant forall k | j <= k < len :: arr[k] == old(arr[k])
    {
      arr[j] := arr[j + 1];
    }
  }
}
