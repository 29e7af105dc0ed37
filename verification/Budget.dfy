// Token budgets: a spend first finds its session's budget under the lock, and then, under the lock
// again, checks it and charges it.
module Budget {

  // Between the two the session may be reset, and the spend lands on a budget that is no longer in the
  // table. Go's int has 64 bits, and its addition wraps around.

  const MAX64 := 0x7fff_ffff_ffff_ffff

  function Wrap(x: int): int {
    (x + 0x8000_0000_0000_0000) % 0x1_0000_0000_0000_0000 - 0x8000_0000_0000_0000
  }

  datatype Account = Account(used: int, alerted: bool)

  const FRESH := Account(0, false)

  function UsageRatio(used: int, max: int): real {
    if max == 0 then 0.0 else used as real / max as real
  }

  predicate Fits(a: Account, tokens: int, max: int) {
    Wrap(a.used + tokens) <= max
  }

  /** The charge, and the alert when the threshold is reached for the first time. */
  function Charge(a: Account, tokens: int, max: int, threshold: real): Account {
    if !Fits(a, tokens, max) then a
    else
      var used := Wrap(a.used + tokens);
      Account(used, a.alerted || UsageRatio(used, max) >= threshold)
  }

  /** A request is accepted exactly when it fits the budget or is so big that the sum wraps around: the
      limit holds for all requests a caller keeps within MAX64 - max. */
  lemma AcceptedExactlyWhen(a: Account, tokens: int, max: int)
    requires 0 <= a.used <= max <= MAX64 && 0 <= tokens <= MAX64
    ensures Fits(a, tokens, max) <==> a.used + tokens <= max || a.used + tokens > MAX64
  {
    if a.used + tokens > MAX64 {
      assert Wrap(a.used + tokens) == a.used + tokens - 0x1_0000_0000_0000_0000;
    } else {
      assert Wrap(a.used + tokens) == a.used + tokens;
    }
  }

  /** A charge leaves the alert raised exactly when it was raised before, or the charge went through and the
      tokens used have reached the threshold's share of the maximum. Of a maximum of 0 every share is 0. */
  lemma AlertExactlyWhen(a: Account, tokens: int, max: int, threshold: real)
    ensures var a' := Charge(a, tokens, max, threshold);
      var share := threshold * max as real;
      a'.alerted <==>
        a.alerted ||
        (Wrap(a.used + tokens) <= max &&
         if max > 0 then a'.used as real >= share else if max < 0 then a'.used as real <= share else threshold <= 0.0)
  {
    if max != 0 {
      var used := Wrap(a.used + tokens);
      RatioIsShare(used, max, threshold);
    }
  }

  lemma RatioIsShare(used: int, max: int, threshold: real)
    requires max != 0
    ensures UsageRatio(used, max) >= threshold <==>
      if max > 0 then used as real >= threshold * max as real else used as real <= threshold * max as real
  {
    var ratio, m := UsageRatio(used, max), max as real;
    assert ratio * m == used as real;
    if ratio >= threshold {
      Scaled(ratio - threshold, m);
    } else {
      Scaled(threshold - ratio, m);
      assert (threshold - ratio) * m != 0.0;
    }
    assert (ratio - threshold) * m == used as real - threshold * m;
    assert (threshold - ratio) * m == threshold * m - used as real;
  }

  lemma Scaled(x: real, m: real)
    requires x >= 0.0
    ensures m > 0.0 ==> x * m >= 0.0
    ensures m < 0.0 ==> x * m <= 0.0
    ensures m != 0.0 && x > 0.0 ==> x * m != 0.0
  {
  }

  /** A charge that fits adds its tokens, and one that does not changes nothing. */
  lemma ChargeIsSum(a: Account, tokens: int, max: int, threshold: real)
    requires 0 <= a.used <= max <= MAX64 && 0 <= tokens <= MAX64 - max
    ensures var a' := Charge(a, tokens, max, threshold);
      if a.used + tokens <= max then a'.used == a.used + tokens else a' == a
  {
    AcceptedExactlyWhen(a, tokens, max);
    assert Wrap(a.used + tokens) == a.used + tokens;
  }

  // ---------- all interleavings ----------

  /** A budget object with its history: how often it was charged and how often it raised the alert. */
  datatype Cell = Cell(session: string, account: Account, charges: nat, alerts: nat)

  /** A spend between its two critical sections. */
  datatype Pending = Pending(cell: nat, tokens: int)

  datatype State = State(
    table: map<string, nat>,           // which object is the session's budget
    cells: seq<Cell>,                  // every object ever made
    waiting: map<nat, Pending>,        // by thread
    accepted: map<string, int>,        // tokens accepted per session
    resets: map<string, nat>)

  datatype Config = Config(max: int, threshold: real)

  datatype Step =
    | Lookup(thread: nat, session: string, tokens: int)
    | Spend(thread: nat)
    | Reset(session: string)

  const INIT := State(map[], [], map[], map[], map[])

  function AcceptedBy(s: State, session: string): int {
    if session in s.accepted then s.accepted[session] else 0
  }

  function ResetsOf(s: State, session: string): nat {
    if session in s.resets then s.resets[session] else 0
  }

  function ChargeCell(c: Cell, tokens: int, cfg: Config): Cell {
    var a := Charge(c.account, tokens, cfg.max, cfg.threshold);
    Cell(c.session, a, c.charges + if Fits(c.account, tokens, cfg.max) then 1 else 0,
         c.alerts + if a.alerted && !c.account.alerted then 1 else 0)
  }

  function Apply(s: State, step: Step, cfg: Config): State {
    match step
    case Lookup(thread, session, tokens) =>
      if thread in s.waiting then s
      else if session in s.table then s.(waiting := s.waiting[thread := Pending(s.table[session], tokens)])
      else
        s.(table := s.table[session := |s.cells|],
           cells := s.cells + [Cell(session, FRESH, 0, 0)],
           waiting := s.waiting[thread := Pending(|s.cells|, tokens)])
    case Spend(thread) =>
      if thread !in s.waiting || s.waiting[thread].cell >= |s.cells| then s
      else
        var p := s.waiting[thread];
        var c := s.cells[p.cell];
        s.(cells := s.cells[p.cell := ChargeCell(c, p.tokens, cfg)],
           waiting := s.waiting - {thread},
           accepted := if Fits(c.account, p.tokens, cfg.max)
                       then s.accepted[c.session := AcceptedBy(s, c.session) + p.tokens] else s.accepted)
    case Reset(session) =>
      s.(table := s.table - {session}, resets := s.resets[session := ResetsOf(s, session) + 1])
  }

  function Run(s: State, steps: seq<Step>, cfg: Config): State
    decreases |steps|
  {
    if steps == [] then s else Run(Apply(s, steps[0], cfg), steps[1..], cfg)
  }

  /** The highest charge one object can carry. */
  function Cap(cfg: Config): nat {
    if cfg.max < 0 then 0 else cfg.max
  }

  /** Requests are not negative, and small enough that no sum wraps around. */
  predicate InRange(step: Step, cfg: Config) {
    step.Lookup? ==> 0 <= step.tokens <= MAX64 - Cap(cfg)
  }

  predicate AllInRange(steps: seq<Step>, cfg: Config) {
    forall i | 0 <= i < |steps| :: InRange(steps[i], cfg)
  }

  // ---------- sums over the objects of a session ----------

  function Used(cells: seq<Cell>, session: string): int {
    if cells == [] then 0
    else
      var last := cells[|cells| - 1];
      Used(cells[..|cells| - 1], session) + if last.session == session then last.account.used else 0
  }

  function Count(cells: seq<Cell>, session: string): nat {
    if cells == [] then 0
    else Count(cells[..|cells| - 1], session) + if cells[|cells| - 1].session == session then 1 else 0
  }

  lemma OneMoreCell(cells: seq<Cell>, c: Cell, session: string)
    ensures Used(cells + [c], session) == Used(cells, session) + if c.session == session then c.account.used else 0
    ensures Count(cells + [c], session) == Count(cells, session) + if c.session == session then 1 else 0
  {
    assert (cells + [c])[..|cells|] == cells;
  }

  lemma {:induction false} ChangedCell(cells: seq<Cell>, i: nat, c: Cell, session: string)
    requires i < |cells| && c.session == cells[i].session
    ensures Count(cells[i := c], session) == Count(cells, session)
    ensures Used(cells[i := c], session)
         == Used(cells, session) + if c.session == session then c.account.used - cells[i].account.used else 0
    decreases |cells|
  {
    var n := |cells| - 1;
    if i < n {
      assert cells[i := c][..n] == cells[..n][i := c];
      ChangedCell(cells[..n], i, c, session);
    } else {
      assert cells[i := c][..n] == cells[..n];
    }
  }

  lemma {:induction false} UsedIsBounded(cells: seq<Cell>, session: string, cap: nat)
    requires forall i | 0 <= i < |cells| :: cells[i].account.used <= cap
    ensures Used(cells, session) <= cap * Count(cells, session)
  {
    if cells != [] {
      UsedIsBounded(cells[..|cells| - 1], session, cap);
    }
  }

  // ---------- the invariant ----------

  /** One object: within its cap, and alerted once at most, when and only when it reached the threshold. */
  ghost predicate CellInv(c: Cell, cfg: Config) {
    && 0 <= c.account.used <= Cap(cfg)
    && c.alerts == (if c.account.alerted then 1 else 0)
    && (c.charges == 0 ==> c.account == FRESH)
    && (c.charges > 0 ==> (c.account.alerted <==> UsageRatio(c.account.used, cfg.max) >= cfg.threshold))
  }

  ghost predicate Inv(s: State, cfg: Config) {
    && (forall i | 0 <= i < |s.cells| :: CellInv(s.cells[i], cfg))
    && (forall x | x in s.table :: s.table[x] < |s.cells| && s.cells[s.table[x]].session == x)
    && (forall t | t in s.waiting :: s.waiting[t].cell < |s.cells| && 0 <= s.waiting[t].tokens <= MAX64 - Cap(cfg))
    && (forall x :: AcceptedBy(s, x) == Used(s.cells, x))
    && (forall x :: Count(s.cells, x) <= ResetsOf(s, x) + if x in s.table then 1 else 0)
  }

  lemma RatioGrows(a: int, b: int, max: int)
    requires 0 <= a <= b && max >= 0
    ensures UsageRatio(a, max) <= UsageRatio(b, max)
  {
    if max > 0 {
      var p, q, m := UsageRatio(a, max), UsageRatio(b, max), max as real;
      assert p * m == a as real && q * m == b as real;
      assert (q - p) * m >= 0.0;
    }
  }

  lemma ChargeKeepsCell(c: Cell, tokens: int, cfg: Config)
    requires CellInv(c, cfg) && 0 <= tokens <= MAX64 - Cap(cfg)
    ensures CellInv(ChargeCell(c, tokens, cfg), cfg)
    ensures ChargeCell(c, tokens, cfg).account.used
         == c.account.used + if Fits(c.account, tokens, cfg.max) then tokens else 0
  {
    assert Wrap(c.account.used + tokens) == c.account.used + tokens;
    if Fits(c.account, tokens, cfg.max) {
      RatioGrows(c.account.used, c.account.used + tokens, cfg.max);
    }
  }

  lemma SpendKeepsInv(s: State, thread: nat, cfg: Config)
    requires Inv(s, cfg) && thread in s.waiting
    ensures Inv(Apply(s, Spend(thread), cfg), cfg)
  {
    var s' := Apply(s, Spend(thread), cfg);
    var p := s.waiting[thread];
    var c := s.cells[p.cell];
    var c' := ChargeCell(c, p.tokens, cfg);
    ChargeKeepsCell(c, p.tokens, cfg);
    forall x
      ensures AcceptedBy(s', x) == Used(s'.cells, x)
      ensures Count(s'.cells, x) <= ResetsOf(s', x) + if x in s'.table then 1 else 0
    {
      ChangedCell(s.cells, p.cell, c', x);
      assert AcceptedBy(s, x) == Used(s.cells, x);
      assert Count(s.cells, x) <= ResetsOf(s, x) + if x in s.table then 1 else 0;
    }
  }

  lemma CreateKeepsInv(s: State, thread: nat, session: string, tokens: int, cfg: Config)
    requires Inv(s, cfg) && thread !in s.waiting && session !in s.table && InRange(Lookup(thread, session, tokens), cfg)
    ensures Inv(Apply(s, Lookup(thread, session, tokens), cfg), cfg)
  {
    var s' := Apply(s, Lookup(thread, session, tokens), cfg);
    forall x
      ensures AcceptedBy(s', x) == Used(s'.cells, x)
      ensures Count(s'.cells, x) <= ResetsOf(s', x) + if x in s'.table then 1 else 0
    {
      OneMoreCell(s.cells, Cell(session, FRESH, 0, 0), x);
      assert AcceptedBy(s, x) == Used(s.cells, x);
      assert Count(s.cells, x) <= ResetsOf(s, x) + if x in s.table then 1 else 0;
    }
  }

  lemma TablesKeepInv(s: State, s': State, cfg: Config)
    requires Inv(s, cfg) && s'.cells == s.cells && s'.accepted == s.accepted
    requires forall x | x in s'.table :: x in s.table && s'.table[x] == s.table[x]
    requires forall t | t in s'.waiting ::
      s'.waiting[t].cell < |s.cells| && 0 <= s'.waiting[t].tokens <= MAX64 - Cap(cfg)
    requires forall x :: ResetsOf(s', x) + (if x in s'.table then 1 else 0)
                      >= ResetsOf(s, x) + if x in s.table then 1 else 0
    ensures Inv(s', cfg)
  {
    forall x
      ensures AcceptedBy(s', x) == Used(s'.cells, x)
      ensures Count(s'.cells, x) <= ResetsOf(s', x) + if x in s'.table then 1 else 0
    {
      assert AcceptedBy(s, x) == Used(s.cells, x);
      assert Count(s.cells, x) <= ResetsOf(s, x) + if x in s.table then 1 else 0;
    }
  }

  lemma StepKeepsInv(s: State, step: Step, cfg: Config)
    requires Inv(s, cfg) && InRange(step, cfg)
    ensures Inv(Apply(s, step, cfg), cfg)
  {
    match step
    case Lookup(thread, session, tokens) =>
      if thread !in s.waiting {
        if session in s.table {
          TablesKeepInv(s, Apply(s, step, cfg), cfg);
        } else {
          CreateKeepsInv(s, thread, session, tokens, cfg);
        }
      }
    case Spend(thread) => if thread in s.waiting { SpendKeepsInv(s, thread, cfg); }
    case Reset(session) => TablesKeepInv(s, Apply(s, step, cfg), cfg);
  }

  lemma {:induction false} RunKeepsInv(s: State, steps: seq<Step>, cfg: Config)
    requires Inv(s, cfg) && AllInRange(steps, cfg)
    ensures Inv(Run(s, steps, cfg), cfg)
    decreases |steps|
  {
    if steps != [] {
      StepKeepsInv(s, steps[0], cfg);
      assert forall i | 0 <= i < |steps| - 1 :: steps[1..][i] == steps[i + 1];
      RunKeepsInv(Apply(s, steps[0], cfg), steps[1..], cfg);
    }
  }

  /** In every interleaving of spends and resets, also with spends that land on a detached budget, a
      session's accepted tokens stay within one maximum for each reset and one more; and every budget
      object alerts at most once, exactly when its usage has reached the threshold. */
  lemma BudgetsHold(steps: seq<Step>, cfg: Config, session: string)
    requires AllInRange(steps, cfg)
    ensures var s := Run(INIT, steps, cfg);
      0 <= AcceptedBy(s, session) <= Cap(cfg) * (1 + ResetsOf(s, session)) &&
      forall i | 0 <= i < |s.cells| :: CellInv(s.cells[i], cfg)
  {
    RunKeepsInv(INIT, steps, cfg);
    var s := Run(INIT, steps, cfg);
    UsedIsBounded(s.cells, session, Cap(cfg));
    UsedIsNonNegative(s.cells, session);
    Times(Cap(cfg), Count(s.cells, session), 1 + ResetsOf(s, session));
  }

  /** Whatever has gone before, a spend that nothing comes between is accepted exactly when the session's budget has
      room for it, and it is counted for the session. */
  lemma LoneSpendIsCounted(s: State, thread: nat, session: string, tokens: int, cfg: Config)
    requires Inv(s, cfg) && thread !in s.waiting && 0 <= cfg.max <= MAX64 && 0 <= tokens <= MAX64 - cfg.max
    ensures var s' := Apply(Apply(s, Lookup(thread, session, tokens), cfg), Spend(thread), cfg);
      var used := if session in s.table then s.cells[s.table[session]].account.used else 0;
      && session in s'.table && s'.table[session] < |s'.cells|
      && AcceptedBy(s', session) == AcceptedBy(s, session) + (if used + tokens <= cfg.max then tokens else 0)
      && s'.cells[s'.table[session]].account.used == used + if used + tokens <= cfg.max then tokens else 0
  {
    var s1 := Apply(s, Lookup(thread, session, tokens), cfg);
    var c := s1.cells[s1.table[session]];
    ChargeIsSum(c.account, tokens, cfg.max, cfg.threshold);
    AcceptedExactlyWhen(c.account, tokens, cfg.max);
  }

  /** Behind a reset the session has its whole budget again. */
  lemma ResetGivesAll(s: State, thread: nat, session: string, tokens: int, cfg: Config)
    requires Inv(s, cfg) && thread !in s.waiting && 0 <= tokens <= cfg.max && tokens <= MAX64 - cfg.max
    ensures var s1 := Apply(s, Reset(session), cfg);
      var s' := Apply(Apply(s1, Lookup(thread, session, tokens), cfg), Spend(thread), cfg);
      AcceptedBy(s', session) == AcceptedBy(s, session) + tokens
  {
    var s1 := Apply(s, Reset(session), cfg);
    StepKeepsInv(s, Reset(session), cfg);
    LoneSpendIsCounted(s1, thread, session, tokens, cfg);
  }

  // ---------- alerts, and requests that wrap around ----------

  ghost predicate OneAlertEach(s: State) {
    forall i | 0 <= i < |s.cells| :: s.cells[i].alerts == if s.cells[i].account.alerted then 1 else 0
  }

  lemma {:induction false} RunKeepsAlerts(s: State, steps: seq<Step>, cfg: Config)
    requires OneAlertEach(s)
    ensures OneAlertEach(Run(s, steps, cfg))
    decreases |steps|
  {
    if steps != [] {
      RunKeepsAlerts(Apply(s, steps[0], cfg), steps[1..], cfg);
    }
  }

  /** In every run, whatever is requested, a budget object alerts once at most. */
  lemma {:induction false} AlertsOnce(steps: seq<Step>, cfg: Config)
    ensures OneAlertEach(Run(INIT, steps, cfg))
  {
    RunKeepsAlerts(INIT, steps, cfg);
  }

  lemma RunTwo(s: State, first: Step, second: Step, steps: seq<Step>, cfg: Config)
    ensures Run(s, [first, second] + steps, cfg) == Run(Apply(Apply(s, first, cfg), second, cfg), steps, cfg)
  {
    assert ([first, second] + steps)[1..] == [second] + steps;
    assert ([second] + steps)[1..] == steps;
  }

  /** One token and then as many as an int can hold: the sum wraps around, both are accepted, and the bound
      is broken. */
  lemma {:induction false} WrapBreaksBound(cfg: Config) returns (steps: seq<Step>)
    requires 1 <= cfg.max <= MAX64
    ensures AcceptedBy(Run(INIT, steps, cfg), "s") > Cap(cfg) * (1 + ResetsOf(Run(INIT, steps, cfg), "s"))
  {
    var rest := [Lookup(1, "s", MAX64), Spend(1)];
    steps := [Lookup(0, "s", 1), Spend(0)] + rest;
    RunTwo(INIT, Lookup(0, "s", 1), Spend(0), rest, cfg);
    var s := Apply(Apply(INIT, Lookup(0, "s", 1), cfg), Spend(0), cfg);
    assert s.cells[0].account.used == 1 && AcceptedBy(s, "s") == 1 && s.table["s"] == 0;
    RunTwo(s, Lookup(1, "s", MAX64), Spend(1), [], cfg);
    assert rest + [] == rest;
    var s' := Apply(Apply(s, Lookup(1, "s", MAX64), cfg), Spend(1), cfg);
    assert Fits(s.cells[0].account, MAX64, cfg.max);
    assert AcceptedBy(s', "s") == 1 + MAX64 && ResetsOf(s', "s") == 0;
  }

  lemma {:induction false} UsedIsNonNegative(cells: seq<Cell>, session: string)
    requires forall i | 0 <= i < |cells| :: cells[i].account.used >= 0
    ensures Used(cells, session) >= 0
  {
    if cells != [] {
      UsedIsNonNegative(cells[..|cells| - 1], session);
    }
  }

  lemma Times(cap: nat, m: nat, n: nat)
    requires m <= n
    ensures cap * m <= cap * n
  {
  }

  // ---------- the manager ----------

  class BudgetObject {
    const sessionID: string
    const maxTokens: int
    var usedTokens: int
    var alertFired: bool

    constructor (sessionID: string, maxTokens: int)
      ensures this.sessionID == sessionID && this.maxTokens == maxTokens && Value() == FRESH
    {
      this.sessionID, this.maxTokens := sessionID, maxTokens;
      usedTokens, alertFired := 0, false;
    }

    ghost function Value(): Account
      reads this
    {
      Account(usedTokens, alertFired)
    }
  }

  class BudgetManager {
    const enabled: bool
    const maxTokensPerTask: int
    const alertThreshold: real
    var budgets: map<string, BudgetObject>

    ghost predicate Valid()
      reads this
    {
      forall x | x in budgets :: budgets[x].sessionID == x && budgets[x].maxTokens == maxTokensPerTask
    }

    ghost function View(): map<string, Account>
      reads this, budgets.Values
    {
      map x | x in budgets :: budgets[x].Value()
    }

    constructor (enabled: bool, maxTokensPerTask: int, alertThreshold: real)
      ensures Valid() && View() == map[] && this.enabled == enabled
      ensures this.maxTokensPerTask == maxTokensPerTask && this.alertThreshold == alertThreshold
    {
      this.enabled, this.maxTokensPerTask, this.alertThreshold := enabled, maxTokensPerTask, alertThreshold;
      budgets := map[];
    }

    /** The first critical section of a spend. */
    method GetOrCreate(session: string) returns (b: BudgetObject)
      requires Valid()
      modifies this
      ensures Valid() && session in budgets && b == budgets[session]
      ensures session in old(budgets) ==> budgets == old(budgets)
      ensures session !in old(budgets) ==> fresh(b) && b.Value() == FRESH && budgets == old(budgets)[session := b]
    {
      if session in budgets {
        return budgets[session];
      }
      b := new BudgetObject(session, maxTokensPerTask);
      budgets := budgets[session := b];
    }

    /** The second critical section. The budget need not be in the table any more. */
    method SpendOn(b: BudgetObject, tokens: int) returns (ok: bool)
      requires b.maxTokens == maxTokensPerTask
      modifies b
      ensures ok <==> Wrap(old(b.usedTokens) + tokens) <= maxTokensPerTask
      ensures b.usedTokens == if ok then Wrap(old(b.usedTokens) + tokens) else old(b.usedTokens)
      ensures b.Value() == Charge(old(b.Value()), tokens, maxTokensPerTask, alertThreshold)
    {
      if Wrap(b.usedTokens + tokens) > b.maxTokens {
        return false;
      }
      b.usedTokens := Wrap(b.usedTokens + tokens);
      if !b.alertFired {
        var ratio := UsageRatio(b.usedTokens, b.maxTokens);
        if ratio >= alertThreshold {
          b.alertFired := true;
        }
      }
      ok := true;
    }

    method Consume(session: string, tokens: int) returns (ok: bool)
      requires Valid()
      modifies this, budgets.Values
      ensures Valid()
      ensures !enabled ==> ok && View() == old(View())
      ensures enabled ==>
        var before := if session in old(View()) then old(View())[session] else FRESH;
        (ok <==> Fits(before, tokens, maxTokensPerTask)) &&
        View() == old(View())[session := Charge(before, tokens, maxTokensPerTask, alertThreshold)]
    {
      if !enabled {
        return true;
      }
      var b := GetOrCreate(session);
      ok := SpendOn(b, tokens);
      assert forall x | x in budgets && x != session :: budgets[x] != b;
    }

    method Reset(session: string)
      requires Valid()
      modifies this
      ensures Valid() && budgets == old(budgets) - {session}
    {
      budgets := budgets - {session};
    }
  }
}
