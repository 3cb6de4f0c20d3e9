/** The board reactor: passes that observe, plan and apply, with the memory, the daily count and the
    health class they carry.  The outside world enters as parameters: what a pass observes, what
    each external call answers, and which units exit while it runs. */
module Reactor {
  import opened Seqs
  import opened Ledger
  import opened Plan
  import opened PlanProps
  import Quarantine

  const BACKOFF_BASE: nat := 30
  const BACKOFF_MAX: nat := 900

  datatype ErrorClass = Transient | Poison | Permanent
  datatype Outcome = Ok | Failed(cls: ErrorClass, reason: string)

  /** What one external call answers; a start reported as failed may still have taken effect. */
  datatype Reply = Reply(outcome: Outcome, took: bool)

  datatype HealthClass = HealthOk | HealthTransient | HealthCapped | HealthPermanent
  datatype Health = Health(cls: HealthClass, reason: Option<string>)

  /** What a pass sees of the board, besides the active units and its own memory. */
  datatype Sight = Sight(views: seq<View>, trash: seq<View>, trashList: seq<TrashRow>)

  /** The instant of a pass, its box-local day and the next midnight. */
  datatype Tick = Tick(now: int, today: int, midnight: int)

  datatype PassEnd = Finished(wakeAt: Option<int>) | Raised(reason: string)

  function Pow2(n: nat): nat {
    if n == 0 then 1 else 2 * Pow2(n - 1)
  }

  function Backoff(failures: nat): nat {
    Min(BACKOFF_BASE * Pow2(Max(failures - 1, 0)), BACKOFF_MAX)
  }

  /** A successful start: the box-local day it is charged to, and its unit. */
  datatype StartRecord = StartRecord(day: int, unit: Unit)

  function StartsOn(log: seq<StartRecord>, day: int): nat {
    if log == [] then 0 else StartsOn(Init(log), day) + if Last(log).day == day then 1 else 0
  }

  /** No start is charged to a day after the state's own. */
  ghost predicate LoggedBy(log: seq<StartRecord>, day: Option<int>) {
    forall i | 0 <= i < |log| :: day.Some? && log[i].day <= day.value
  }

  lemma {:induction false} StartsOnNone(log: seq<StartRecord>, day: int)
    requires forall i | 0 <= i < |log| :: log[i].day != day
    ensures StartsOn(log, day) == 0
  {
    if log != [] {
      StartsOnNone(Init(log), day);
    }
  }

  lemma StartsOnSnoc(log: seq<StartRecord>, r: StartRecord, day: int)
    ensures StartsOn(log + [r], day) == StartsOn(log, day) + if r.day == day then 1 else 0
  {
    SnocParts(log, r);
  }

  predicate OneUnitPerCard(active: set<Unit>) {
    forall u, w | u in active && w in active && u.card == w.card :: u == w
  }

  // ---------- what the starts of a plan do to the active units ----------

  /** Every active unit was active when observed, or is one of the starts made so far. */
  ghost predicate ActiveFrom(active: set<Unit>, observed: set<Unit>, done: seq<Action>) {
    forall u | u in active :: u in observed || Start(u.card, u) in done
  }

  function Starts(done: seq<Action>): nat {
    |Filter(done, IsStart)|
  }

  /** The starts of `actions` are for different cards, none of which had a unit active. */
  ghost predicate SafeStarts(actions: seq<Action>, observed: set<Unit>) {
    && (forall i, j | 0 <= i < j < |actions| && actions[i].Start? && actions[j].Start? :: actions[i].card != actions[j].card)
    && (forall i | 0 <= i < |actions| && actions[i].Start? ::
          && actions[i].unit.card == actions[i].card
          && Unit(BriefRun, actions[i].card) !in observed && Unit(ResearchRun, actions[i].card) !in observed)
  }

  lemma PlanStartsSafe(st: BoardState, now: int, b: Budget, config: Config)
    requires DistinctIds(st.views)
    ensures SafeStarts(PlanOf(st, now, b, config).actions, st.active)
  {
    hide PlanOf;
    var actions := PlanOf(st, now, b, config).actions;
    forall i | 0 <= i < |actions| && actions[i].Start?
      ensures actions[i].unit.card == actions[i].card
           && Unit(BriefRun, actions[i].card) !in st.active && Unit(ResearchRun, actions[i].card) !in st.active
    {
      var v := StartIsSafe(st, now, b, config, actions[i]);
    }
    forall i, j | 0 <= i < j < |actions| && actions[i].Start? && actions[j].Start?
      ensures actions[i].card != actions[j].card
    {
      StartsApart(st, now, b, config, i, j);
    }
  }

  lemma StartsApart(st: BoardState, now: int, b: Budget, config: Config, i: nat, j: nat)
    requires DistinctIds(st.views)
    requires i < j < |PlanOf(st, now, b, config).actions|
    requires PlanOf(st, now, b, config).actions[i].Start? && PlanOf(st, now, b, config).actions[j].Start?
    ensures PlanOf(st, now, b, config).actions[i].card != PlanOf(st, now, b, config).actions[j].card
  {
    hide PlanOf, Steps, Queue, Room;
    var actions, steps := PlanOf(st, now, b, config).actions, Steps(st, now, config);
    var head := Take(Queue(st, now, config), Room(b));
    StartsAreTheHead(st, now, b, config);
    NoStartsInSteps(st, now, config);
    assert i < |steps| ==> IsStart(steps[i]);
    if i < |steps| {
      NotKept(steps, IsStart, i);
    }
    assert actions[i] == head[i - |steps|] && actions[j] == head[j - |steps|];
    StartsAreDistinct(st, now, b, config, i - |steps|, j - |steps|);
  }

  lemma ActiveAtFirst(active: set<Unit>)
    ensures ActiveFrom(active, active, [])
  {
  }

  lemma ActiveFromStep(active: set<Unit>, before: set<Unit>, observed: set<Unit>, actions: seq<Action>, i: nat)
    requires i < |actions| && ActiveFrom(before, observed, actions[..i]) && SafeStarts(actions, observed)
    requires active <= before + (if actions[i].Start? then {actions[i].unit} else {})
    ensures ActiveFrom(active, observed, actions[..i + 1])
  {
    assert actions[..i + 1] == actions[..i] + [actions[i]];
  }

  /** The cards still to be started have tries left. */
  ghost predicate MayStart(actions: seq<Action>, from: nat, cards: Memory, attempts: nat) {
    forall j | from <= j < |actions| && actions[j].Start? :: Recall(cards, CardKey(actions[j].card)).starts < attempts
  }

  lemma MayStartNow(actions: seq<Action>, i: nat, cards: Memory, attempts: nat)
    requires i < |actions| && MayStart(actions, i, cards, attempts) && actions[i].Start?
    ensures Recall(cards, CardKey(actions[i].card)).starts < attempts
  {
  }

  lemma SafeStartUnit(actions: seq<Action>, i: nat, observed: set<Unit>)
    requires SafeStarts(actions, observed) && i < |actions| && actions[i].Start?
    ensures actions[i] == Start(actions[i].unit.card, actions[i].unit)
  {
  }

  lemma MayStartLater(actions: seq<Action>, i: nat, before: Memory, cards: Memory, attempts: nat, observed: set<Unit>)
    requires i < |actions| && MayStart(actions, i, before, attempts) && SafeStarts(actions, observed)
    requires forall id: Id | !(actions[i].Start? && id == actions[i].card) ::
      Recall(cards, CardKey(id)) == Recall(before, CardKey(id))
    ensures MayStart(actions, i + 1, cards, attempts)
  {
  }

  lemma UnitKinds(u: Unit)
    ensures u == Unit(BriefRun, u.card) || u == Unit(ResearchRun, u.card)
  {
    match u.purpose
    case BriefRun =>
    case ResearchRun =>
  }

  lemma UnitsStayApart(active: set<Unit>, observed: set<Unit>, actions: seq<Action>, n: nat)
    requires n <= |actions| && SafeStarts(actions, observed) && OneUnitPerCard(observed)
    requires ActiveFrom(active, observed, actions[..n])
    ensures OneUnitPerCard(active)
  {
    forall u, w | u in active && w in active && u.card == w.card ensures u == w {
      if u !in observed {
        var i :| 0 <= i < n && actions[i] == Start(u.card, u);
        if w !in observed {
          var j :| 0 <= j < n && actions[j] == Start(w.card, w);
        } else {
          UnitKinds(w);
        }
      } else if w !in observed {
        var j :| 0 <= j < n && actions[j] == Start(w.card, w);
        UnitKinds(u);
      }
    }
  }

  // ---------- memory ----------

  /** The times of the starts tried for each card since its count was last reset. */
  type Tries = Id -> seq<int>

  /** Memory counts exactly the tries since the last reset, and never beyond the limit. */
  ghost predicate Counted(cards: Memory, tries: Tries, attempts: nat, now: int) {
    forall id: Id ::
      var e := Recall(cards, CardKey(id));
      && e.starts == |tries(id)| <= attempts
      && (tries(id) != [] ==> e.lastStart == Some(Last(tries(id))) && Last(tries(id)) <= now)
  }

  /** The tries that survive an observation: none when the card has left the board, or when a pick
      or an unblock no older than the last try cleared the count. */
  function KeptTries(tries: Tries, cards: Memory, views: seq<View>): Tries {
    (id: Id) =>
      if FindView(views, id).None? then []
      else if SettledStarts(Recall(cards, CardKey(id)), FindView(views, id).value).starts == 0 then []
      else tries(id)
  }

  lemma SettledRecall(cards: Memory, views: seq<View>, trash: seq<View>, id: Id)
    ensures Recall(SettleMemory(cards, views, trash), CardKey(id))
         == if CardKey(id) in cards && FindView(views, id).Some?
            then SettledStarts(cards[CardKey(id)], FindView(views, id).value) else NoEntry
  {
  }

  lemma CountedSettles(cards: Memory, tries: Tries, attempts: nat, now: int, views: seq<View>, trash: seq<View>)
    requires Counted(cards, tries, attempts, now)
    ensures Counted(SettleMemory(cards, views, trash), KeptTries(tries, cards, views), attempts, now)
  {
    hide SettleMemory;
    var settled, kept := SettleMemory(cards, views, trash), KeptTries(tries, cards, views);
    forall id: Id
      ensures var e := Recall(settled, CardKey(id));
              && e.starts == |kept(id)| <= attempts
              && (kept(id) != [] ==> e.lastStart == Some(Last(kept(id))) && Last(kept(id)) <= now)
    {
      SettledRecall(cards, views, trash, id);
      assert Recall(cards, CardKey(id)).starts == |tries(id)|;
    }
  }

  /** A count is dropped only for a card off the board, or by a pick or unblock no older than its
      last try. */
  lemma ResetsHaveCause(cards: Memory, tries: Tries, attempts: nat, now: int, views: seq<View>, id: Id)
    requires Counted(cards, tries, attempts, now) && FindView(views, id).Some?
    requires KeptTries(tries, cards, views)(id) != tries(id)
    ensures var v := FindView(views, id).value;
            var cleared := Latest2(LastPick(v), v.unblockedAt);
            tries(id) != [] && cleared.Some? && cleared.value >= Last(tries(id))
  {
    assert Recall(cards, CardKey(id)).starts == |tries(id)|;
  }

  lemma CountedRemembers(cards: Memory, tries: Tries, attempts: nat, now: int, id: Id, e: Entry)
    requires Counted(cards, tries, attempts, now)
    requires Recall(cards, CardKey(id)).starts < attempts
    requires e.starts == Recall(cards, CardKey(id)).starts + 1 && e.lastStart == Some(now)
    ensures Counted(cards[CardKey(id) := e], (x: Id) => if x == id then tries(id) + [now] else tries(x), attempts, now)
  {
    var later: Tries := (x: Id) => if x == id then tries(id) + [now] else tries(x);
    forall x: Id
      ensures var f := Recall(cards[CardKey(id) := e], CardKey(x));
              && f.starts == |later(x)| <= attempts
              && (later(x) != [] ==> f.lastStart == Some(Last(later(x))) && Last(later(x)) <= now)
    {
      assert Recall(cards, CardKey(x)).starts == |tries(x)|;
    }
  }

  lemma CountedIgnoresTrash(cards: Memory, tries: Tries, attempts: nat, now: int, cards': Memory)
    requires Counted(cards, tries, attempts, now)
    requires forall id: Id :: Recall(cards', CardKey(id)) == Recall(cards, CardKey(id))
    ensures Counted(cards', tries, attempts, now)
  {
    forall id: Id
      ensures var e := Recall(cards', CardKey(id));
              && e.starts == |tries(id)| <= attempts
              && (tries(id) != [] ==> e.lastStart == Some(Last(tries(id))) && Last(tries(id)) <= now)
    {
      assert Recall(cards, CardKey(id)).starts == |tries(id)|;
    }
  }

  // ---------- what a pass leaves ----------

  function Retried(e: Entry, now: int): Entry {
    e.(failures := e.failures + 1, nextTry := Some(now + Backoff(e.failures + 1)))
  }

  /** The memory one applied action leaves. */
  function Remembered(cards: Memory, action: Action, outcome: Outcome, now: int): Memory {
    match action
    case Start(card, _) =>
      var e := Recall(cards, CardKey(card));
      var tried := e.(starts := e.starts + 1, lastStart := Some(now));
      cards[CardKey(card) := if outcome.Ok? then tried.(nextTry := None, failures := 0) else Retried(tried, now)]
    case RestoreAction(id) =>
      if outcome.Ok? then cards - {TrashKey(id)} else cards[TrashKey(id) := Retried(Recall(cards, TrashKey(id)), now)]
    case _ => cards
  }

  /** What applying a plan changes: the active units, the memory, the charged starts, and the first
      transient failure met. */
  datatype Effects = Effects(active: set<Unit>, cards: Memory, log: seq<StartRecord>, transient: Option<string>)

  function EffectOf(s: Effects, action: Action, reply: Reply, exits: set<Unit>, tick: Tick): Effects {
    var o := reply.outcome;
    Effects(s.active + (if action.Start? && (o.Ok? || reply.took) then {action.unit} else {}) - exits,
            Remembered(s.cards, action, o, tick.now),
            s.log + (if action.Start? && o.Ok? then [StartRecord(tick.today, action.unit)] else []),
            NextTransient(s.transient, o))
  }

  function NextTransient(first: Option<string>, o: Outcome): Option<string> {
    if first.None? && o.Failed? && o.cls.Transient? then Some(o.reason) else first
  }

  function EffectsAfter(s: Effects, actions: seq<Action>, replies: int -> Reply, exits: int -> set<Unit>, tick: Tick, n: nat): Effects
    requires n <= |actions|
  {
    if n == 0 then s
    else EffectOf(EffectsAfter(s, actions, replies, exits, tick, n - 1), actions[n - 1], replies(n - 1), exits(n - 1), tick)
  }

  lemma EffectsStep(s: Effects, actions: seq<Action>, replies: int -> Reply, exits: int -> set<Unit>, tick: Tick, i: nat)
    requires i < |actions|
    ensures EffectsAfter(s, actions, replies, exits, tick, i + 1)
         == EffectOf(EffectsAfter(s, actions, replies, exits, tick, i), actions[i], replies(i), exits(i), tick)
  {
  }

  predicate IsPermanent(r: Reply) {
    r.outcome.Failed? && r.outcome.cls.Permanent?
  }

  /** How many actions are applied: all of them, or up to and with the first permanent error. */
  function Applied(actions: seq<Action>, replies: int -> Reply, i: nat): (n: nat)
    requires i <= |actions|
    ensures i <= n <= |actions|
    ensures forall k | i <= k < n - 1 :: !IsPermanent(replies(k))
    ensures n < |actions| ==> n > i && IsPermanent(replies(n - 1))
    decreases |actions| - i
  {
    if i == |actions| then i else if IsPermanent(replies(i)) then i + 1 else Applied(actions, replies, i + 1)
  }

  lemma AppliedStep(actions: seq<Action>, replies: int -> Reply, i: nat)
    requires i < |actions|
    ensures Applied(actions, replies, i) == if IsPermanent(replies(i)) then i + 1 else Applied(actions, replies, i + 1)
  {
  }

  lemma AppliedNone(actions: seq<Action>, replies: int -> Reply)
    ensures Applied(actions, replies, |actions|) == |actions|
  {
  }

  lemma AtNone(s: Effects, actions: seq<Action>, replies: int -> Reply, exits: int -> set<Unit>, tick: Tick)
    ensures EffectsAfter(s, actions, replies, exits, tick, 0) == s
  {
  }

  /** The permanent error that ended the pass, if one did. */
  function RaisedBy(replies: int -> Reply, n: nat): Option<string> {
    if n > 0 && IsPermanent(replies(n - 1)) then Some(replies(n - 1).outcome.reason) else None
  }

  /** What a pass judges. */
  function Verdict(capped: bool, transient: Option<string>): Health {
    if capped then Health(HealthCapped, Some("daily-cap"))
    else if transient.Some? then Health(HealthTransient, transient)
    else Health(HealthOk, None)
  }

  function WakeOf(plan: PlanResult, midnight: int): Option<int> {
    if !plan.capped then plan.wakeAt
    else Some(if plan.wakeAt.Some? then Min(plan.wakeAt.value, midnight) else midnight)
  }

  /** However the world answers, and wherever a permanent error stops the pass: every new unit is a
      planned start. */
  lemma {:induction false} UnitsBounded(s: Effects, actions: seq<Action>, replies: int -> Reply, exits: int -> set<Unit>, tick: Tick, n: nat)
    requires n <= |actions| && SafeStarts(actions, s.active)
    ensures var e := EffectsAfter(s, actions, replies, exits, tick, n);
            |e.active| <= |s.active| + Starts(actions[..n]) && ActiveFrom(e.active, s.active, actions[..n])
  {
    hide Starts, ActiveFrom, SafeStarts, Remembered;
    if n == 0 {
      ActiveAtFirst(s.active);
      assert actions[..0] == [];
    } else {
      var before := EffectsAfter(s, actions, replies, exits, tick, n - 1);
      var e := EffectsAfter(s, actions, replies, exits, tick, n);
      UnitsBounded(s, actions, replies, exits, tick, n - 1);
      StartsSoFar(actions, n - 1);
      OneMoreUnit(before.active, actions[n - 1], replies(n - 1), exits(n - 1), e.active);
      ActiveFromStep(e.active, before.active, s.active, actions, n - 1);
    }
  }

  /** And every start charged is a planned one, charged to the pass's own day. */
  lemma {:induction false} LogBounded(s: Effects, actions: seq<Action>, replies: int -> Reply, exits: int -> set<Unit>, tick: Tick, n: nat)
    requires n <= |actions| && SafeStarts(actions, s.active)
    ensures var e := EffectsAfter(s, actions, replies, exits, tick, n);
      && (forall d :: StartsOn(e.log, d) <= StartsOn(s.log, d) + if d == tick.today then Starts(actions[..n]) else 0)
      && s.log <= e.log
      && (forall i | |s.log| <= i < |e.log| :: (
            e.log[i].day == tick.today && Start(e.log[i].unit.card, e.log[i].unit) in actions))
  {
    hide StartsOn, Starts, SafeStarts, Remembered;
    if n > 0 {
      var before := EffectsAfter(s, actions, replies, exits, tick, n - 1);
      LogBounded(s, actions, replies, exits, tick, n - 1);
      StartsSoFar(actions, n - 1);
      OneMoreCharge(before, actions[n - 1], replies(n - 1), exits(n - 1), tick);
      if actions[n - 1].Start? {
        SafeStartUnit(actions, n - 1, s.active);
      }
    }
  }

  lemma OneMoreUnit(before: set<Unit>, action: Action, reply: Reply, exits: set<Unit>, after: set<Unit>)
    requires after == before + (if action.Start? && (reply.outcome.Ok? || reply.took) then {action.unit} else {}) - exits
    ensures after <= before + (if action.Start? then {action.unit} else {})
    ensures |after| <= |before| + if action.Start? then 1 else 0
  {
    SubsetCount(after, before + (if action.Start? then {action.unit} else {}));
  }

  lemma OneMoreCharge(s: Effects, action: Action, reply: Reply, exits: set<Unit>, tick: Tick)
    ensures var e := EffectOf(s, action, reply, exits, tick);
      && (forall d :: StartsOn(e.log, d) <= StartsOn(s.log, d) + if d == tick.today && action.Start? then 1 else 0)
      && s.log <= e.log <= s.log + (if action.Start? then [StartRecord(tick.today, action.unit)] else [])
  {
    hide StartsOn, Remembered;
    if action.Start? && reply.outcome.Ok? {
      forall d { StartsOnSnoc(s.log, StartRecord(tick.today, action.unit), d); }
    } else {
      assert s.log + [] == s.log;
    }
  }

  // ---------- how far apart the tries of a card are ----------

  /** A start tried, and how many in a row had failed by then, this one included. */
  datatype Try = Try(at: int, failures: nat)

  /** The starts tried for each card while it stayed on the board. */
  type Stays = Id -> seq<Try>

  /** The next try comes no sooner than the cooldown, nor than the backoff of a failure. */
  predicate SpacedOut(ts: seq<Try>, cooldown: int) {
    forall i | 0 <= i < |ts| - 1 :: NoSooner(ts[i], ts[i + 1], cooldown)
  }

  predicate NoSooner(t: Try, next: Try, cooldown: int) {
    next.at >= t.at + cooldown && (t.failures > 0 ==> next.at >= t.at + Backoff(t.failures))
  }

  /** The entry remembers exactly the last try. */
  predicate Recalls(e: Entry, ts: seq<Try>, now: int) {
    if ts == [] then e.lastStart.None? && e.nextTry.None? && e.failures == 0
    else
      var t := Last(ts);
      && e.lastStart == Some(t.at) && t.at <= now && e.failures == t.failures
      && e.nextTry == if t.failures > 0 then Some(t.at + Backoff(t.failures)) else None
  }

  ghost predicate Spaced(cards: Memory, stays: Stays, cooldown: int, now: int) {
    forall id: Id :: SpacedOut(stays(id), cooldown) && Recalls(Recall(cards, CardKey(id)), stays(id), now)
  }

  function KeptStays(stays: Stays, views: seq<View>): Stays {
    (id: Id) => if FindView(views, id).None? then [] else stays(id)
  }

  function StayOn(stays: Stays, cards: Memory, action: Action, outcome: Outcome, now: int): Stays {
    (id: Id) =>
      if !(action.Start? && action.card == id) then stays(id)
      else stays(id) + [Try(now, if outcome.Ok? then 0 else Recall(cards, CardKey(id)).failures + 1)]
  }

  function StaysAfter(stays: Stays, s: Effects, actions: seq<Action>, replies: int -> Reply, exits: int -> set<Unit>, tick: Tick, n: nat): Stays
    requires n <= |actions|
  {
    if n == 0 then stays
    else StayOn(StaysAfter(stays, s, actions, replies, exits, tick, n - 1),
                EffectsAfter(s, actions, replies, exits, tick, n - 1).cards, actions[n - 1], replies(n - 1).outcome, tick.now)
  }

  /** The cooldown and the backoff of this entry are over. */
  predicate Rested(e: Entry, cooldown: int, now: int) {
    (e.lastStart.Some? ==> e.lastStart.value + cooldown <= now) && (e.nextTry.Some? ==> e.nextTry.value <= now)
  }

  lemma SpacedLater(cards: Memory, stays: Stays, cooldown: int, now: int, later: int)
    requires Spaced(cards, stays, cooldown, now) && now <= later
    ensures Spaced(cards, stays, cooldown, later)
  {
    hide SpacedOut;
    forall id: Id ensures Recalls(Recall(cards, CardKey(id)), stays(id), later) {
      assert Recalls(Recall(cards, CardKey(id)), stays(id), now);
    }
  }

  lemma SpacedSettles(cards: Memory, stays: Stays, cooldown: int, now: int, views: seq<View>, trash: seq<View>)
    requires Spaced(cards, stays, cooldown, now)
    ensures Spaced(SettleMemory(cards, views, trash), KeptStays(stays, views), cooldown, now)
  {
    hide SettleMemory, NoSooner;
    var settled, kept := SettleMemory(cards, views, trash), KeptStays(stays, views);
    forall id: Id ensures SpacedOut(kept(id), cooldown) && Recalls(Recall(settled, CardKey(id)), kept(id), now) {
      SettledRecall(cards, views, trash, id);
      assert SpacedOut(stays(id), cooldown) && Recalls(Recall(cards, CardKey(id)), stays(id), now);
    }
  }

  lemma SpacedOn(cards: Memory, stays: Stays, cooldown: int, action: Action, outcome: Outcome, now: int)
    requires Spaced(cards, stays, cooldown, now)
    requires action.Start? ==> Rested(Recall(cards, CardKey(action.card)), cooldown, now)
    ensures Spaced(Remembered(cards, action, outcome, now), StayOn(stays, cards, action, outcome, now), cooldown, now)
  {
    var later, next := Remembered(cards, action, outcome, now), StayOn(stays, cards, action, outcome, now);
    forall id: Id ensures SpacedOut(next(id), cooldown) && Recalls(Recall(later, CardKey(id)), next(id), now) {
      assert SpacedOut(stays(id), cooldown) && Recalls(Recall(cards, CardKey(id)), stays(id), now);
      if action.Start? && action.card == id {
        var ts := stays(id);
        var t := Last(next(id));
        assert next(id) == ts + [t];
        assert ts != [] ==> NoSooner(Last(ts), t, cooldown);
      }
    }
  }

  /** An action touches no card's memory but its own. */
  lemma {:induction false} EntryUntouched(s: Effects, actions: seq<Action>, replies: int -> Reply, exits: int -> set<Unit>, tick: Tick, n: nat, id: Id)
    requires n <= |actions| && forall i | 0 <= i < n && actions[i].Start? :: actions[i].card != id
    ensures Recall(EffectsAfter(s, actions, replies, exits, tick, n).cards, CardKey(id)) == Recall(s.cards, CardKey(id))
  {
    if n > 0 {
      EntryUntouched(s, actions, replies, exits, tick, n - 1, id);
    }
  }

  lemma {:induction false} SpacedAfter(stays: Stays, s: Effects, actions: seq<Action>, replies: int -> Reply, exits: int -> set<Unit>,
                                       tick: Tick, n: nat, cooldown: int)
    requires n <= |actions| && SafeStarts(actions, s.active) && Spaced(s.cards, stays, cooldown, tick.now)
    requires forall i | 0 <= i < |actions| && actions[i].Start? :: (
      Rested(Recall(s.cards, CardKey(actions[i].card)), cooldown, tick.now))
    ensures Spaced(EffectsAfter(s, actions, replies, exits, tick, n).cards,
                   StaysAfter(stays, s, actions, replies, exits, tick, n), cooldown, tick.now)
  {
    hide Spaced, Remembered, Rested, StayOn, Recall;
    if n > 0 {
      var before := EffectsAfter(s, actions, replies, exits, tick, n - 1);
      SpacedAfter(stays, s, actions, replies, exits, tick, n - 1, cooldown);
      if actions[n - 1].Start? {
        EntryUntouched(s, actions, replies, exits, tick, n - 1, actions[n - 1].card);
      }
      SpacedOn(before.cards, StaysAfter(stays, s, actions, replies, exits, tick, n - 1), cooldown,
               actions[n - 1], replies(n - 1).outcome, tick.now);
    }
  }

  lemma {:induction false} StaysGrow(stays: Stays, s: Effects, actions: seq<Action>, replies: int -> Reply, exits: int -> set<Unit>,
                                     tick: Tick, n: nat, id: Id)
    requires n <= |actions|
    ensures stays(id) <= StaysAfter(stays, s, actions, replies, exits, tick, n)(id)
  {
    if n > 0 {
      StaysGrow(stays, s, actions, replies, exits, tick, n - 1, id);
    }
  }

  // ---------- the reactor ----------

  /** No more units than allowed, never two of one card, no day over its cap. */
  ghost predicate Limits(active: set<Unit>, log: seq<StartRecord>, maxRuns: nat, dailyCap: nat) {
    |active| <= maxRuns && OneUnitPerCard(active) && forall d :: StartsOn(log, d) <= dailyCap
  }

  class Machine {
    const maxRuns: nat
    const dailyCap: nat
    const config: Config

    // the state file
    var day: Option<int>
    var count: nat
    var cards: Memory
    var health: Option<Health>

    // what systemd runs
    var active: set<Unit>

    ghost var log: seq<StartRecord>
    ghost var receipts: seq<Health>
    ghost var tries: Tries
    ghost var stays: Stays
    ghost var clock: int

    /** The limits hold, every counted start is a real try, the tries of a card are spaced, and there is
        a receipt exactly where the health flipped. */
    ghost predicate Valid()
      reads this
    {
      && Limits(active, log, maxRuns, dailyCap)
      && LoggedBy(log, day)
      && (day.Some? ==> count == StartsOn(log, day.value))
      && Counted(cards, tries, config.attempts, clock)
      && Spaced(cards, stays, config.cooldown, clock)
      && health == LastOption(receipts)
      && (forall i | 0 < i < |receipts| :: receipts[i] != receipts[i - 1])
    }

    constructor (maxRuns: nat, dailyCap: nat, config: Config, start: int)
      ensures Valid() && this.maxRuns == maxRuns && this.dailyCap == dailyCap && this.config == config
      ensures active == {} && log == [] && clock == start
    {
      this.maxRuns, this.dailyCap, this.config := maxRuns, dailyCap, config;
      day, count, cards, health := None, 0, map[], None;
      active, log, receipts, clock := {}, [], [], start;
      tries, stays := (id: Id) => [], (id: Id) => [];
    }

    /** A unit ends by itself, whenever it likes. */
    method UnitExits(u: Unit)
      requires Valid()
      modifies this`active
      ensures Valid() && active == old(active) - {u}
    {
      active := active - {u};
      assert active <= old(active);
      SubsetCount(active, old(active));
    }

    /** Keep the count, the backoff and the day's budget for one applied start or restore. */
    method Remember(action: Action, outcome: Outcome, now: int)
      requires action.Start? ==> Recall(cards, CardKey(action.card)).starts < config.attempts
      requires Counted(cards, tries, config.attempts, now)
      modifies this`cards, this`count, this`tries
      ensures Counted(cards, tries, config.attempts, now)
      ensures cards == Remembered(old(cards), action, outcome, now)
      ensures count == old(count) + if action.Start? && outcome.Ok? then 1 else 0
      ensures forall id: Id | !(action.Start? && id == action.card) ::
        tries(id) == old(tries)(id) && Recall(cards, CardKey(id)) == Recall(old(cards), CardKey(id))
      ensures action.Start? ==> tries(action.card) == old(tries)(action.card) + [now]
    {
      hide Counted;
      if action.RestoreAction? {
        RememberRestore(action.card, outcome, now);
        CountedIgnoresTrash(old(cards), tries, config.attempts, now, cards);
      }
      if !action.Start? {
        return;
      }
      var key := CardKey(action.card);
      var entry := Recall(cards, key);
      entry := entry.(starts := entry.starts + 1, lastStart := Some(now));
      if outcome.Ok? {
        entry := entry.(nextTry := None, failures := 0);
        count := count + 1;
      } else {
        entry := entry.(failures := entry.failures + 1, nextTry := Some(now + Backoff(entry.failures + 1)));
      }
      CountedRemembers(cards, tries, config.attempts, now, action.card, entry);
      cards := cards[key := entry];
      ghost var before := tries;
      tries := (x: Id) => if x == action.card then before(action.card) + [now] else before(x);
    }

    method RememberRestore(id: Id, outcome: Outcome, now: int)
      modifies this`cards
      ensures cards == Remembered(old(cards), RestoreAction(id), outcome, now)
      ensures forall k | k != TrashKey(id) :: Recall(cards, k) == Recall(old(cards), k)
    {
      var key := TrashKey(id);
      if outcome.Ok? {
        cards := cards - {key};
        return;
      }
      var entry := Recall(cards, key);
      entry := entry.(failures := entry.failures + 1, nextTry := Some(now + Backoff(entry.failures + 1)));
      cards := cards[key := entry];
    }

    /** A receipt is written only when the health flips. */
    method RecordHealth(cls: HealthClass, reason: Option<string>) returns (wrote: bool)
      requires health == LastOption(receipts) && forall i | 0 < i < |receipts| :: receipts[i] != receipts[i - 1]
      modifies this`health, this`receipts
      ensures health == Some(Health(cls, reason)) == LastOption(receipts)
      ensures forall i | 0 < i < |receipts| :: receipts[i] != receipts[i - 1]
      ensures wrote <==> old(health) != Some(Health(cls, reason))
      ensures receipts == if wrote then old(receipts) + [Health(cls, reason)] else old(receipts)
    {
      var current := Health(cls, reason);
      if health == Some(current) {
        return false;
      }
      health := Some(current);
      receipts := receipts + [current];
      wrote := true;
    }

    /** One call to systemd or the ledger, and the units that exit meanwhile. */
    method Apply(action: Action, reply: Reply, exits: set<Unit>)
      modifies this`active
      ensures active == old(active) + (if action.Start? && (reply.outcome.Ok? || reply.took) then {action.unit} else {}) - exits
    {
      if action.Start? && (reply.outcome.Ok? || reply.took) {
        active := active + {action.unit};
      }
      active := active - exits;
    }

    /** Apply one action and remember it. */
    method ApplyOne(action: Action, reply: Reply, exits: set<Unit>, tick: Tick, ghost transient: Option<string>)
      requires Counted(cards, tries, config.attempts, tick.now)
      requires action.Start? ==> Recall(cards, CardKey(action.card)).starts < config.attempts
      requires count == StartsOn(log, tick.today)
      modifies this`active, this`cards, this`count, this`log, this`tries
      ensures Effects(active, cards, log, NextTransient(transient, reply.outcome))
           == EffectOf(Effects(old(active), old(cards), old(log), transient), action, reply, exits, tick)
      ensures count == StartsOn(log, tick.today)
      ensures Counted(cards, tries, config.attempts, tick.now)
      ensures forall id: Id :: old(tries)(id) <= tries(id)
      ensures forall id: Id | !(action.Start? && id == action.card) ::
        Recall(cards, CardKey(id)) == Recall(old(cards), CardKey(id))
    {
      hide Counted, Remembered;
      Apply(action, reply, exits);
      if action.Start? && reply.outcome.Ok? {
        StartsOnSnoc(log, StartRecord(tick.today, action.unit), tick.today);
        log := log + [StartRecord(tick.today, action.unit)];
      } else {
        assert log + [] == log;
      }
      Remember(action, reply.outcome, tick.now);
    }

    /** Apply a plan's actions in turn, remembering each, up to the first permanent error. */
    method ApplyAll(actions: seq<Action>, tick: Tick, replies: int -> Reply, exits: int -> set<Unit>)
      returns (raised: Option<string>, worst: HealthClass, reason: Option<string>)
      requires SafeStarts(actions, active)
      requires count == StartsOn(log, tick.today)
      requires Counted(cards, tries, config.attempts, tick.now)
      requires MayStart(actions, 0, cards, config.attempts)
      modifies this`active, this`cards, this`count, this`log, this`tries
      ensures var n := Applied(actions, replies, 0);
              var e := EffectsAfter(Effects(old(active), old(cards), old(log), None), actions, replies, exits, tick, n);
        && active == e.active && cards == e.cards && log == e.log
        && raised == RaisedBy(replies, n) && Health(worst, reason) == Verdict(false, e.transient)
      ensures count == StartsOn(log, tick.today)
      ensures Counted(cards, tries, config.attempts, tick.now)
      ensures forall id: Id :: old(tries)(id) <= tries(id)
    {
      hide Counted, StartsOn, SafeStarts, Recall, EffectOf, EffectsAfter, Applied, MayStart;
      ghost var start := Effects(active, cards, log, None);
      ghost var transient: Option<string> := None;
      AtNone(start, actions, replies, exits, tick);
      raised, worst, reason := None, HealthOk, None;
      for i := 0 to |actions|
        invariant Applied(actions, replies, i) == Applied(actions, replies, 0)
        invariant Effects(active, cards, log, transient) == EffectsAfter(start, actions, replies, exits, tick, i)
        invariant Health(worst, reason) == Verdict(false, transient)
        invariant i > 0 ==> !IsPermanent(replies(i - 1))
        invariant count == StartsOn(log, tick.today)
        invariant Counted(cards, tries, config.attempts, tick.now)
        invariant forall id: Id :: old(tries)(id) <= tries(id)
        invariant MayStart(actions, i, cards, config.attempts)
      {
        var action, reply := actions[i], replies(i);
        ghost var remembered := cards;
        if action.Start? {
          MayStartNow(actions, i, cards, config.attempts);
        }
        ApplyOne(action, reply, exits(i), tick, transient);
        MayStartLater(actions, i, remembered, cards, config.attempts, start.active);
        EffectsStep(start, actions, replies, exits, tick, i);
        AppliedStep(actions, replies, i);
        transient := NextTransient(transient, reply.outcome);
        if IsPermanent(reply) {
          return Some(reply.outcome.reason), worst, reason;
        }
        if reply.outcome.Failed? && reply.outcome.cls.Transient? && worst.HealthOk? {
          worst, reason := HealthTransient, Some(reply.outcome.reason);
        }
      }
      AppliedNone(actions, replies);
    }

    /** The observation failed: a permanent failure raises, a transient one retries soon. */
    method ObserveFails(cls: ErrorClass, reason: string, now: int) returns (end: PassEnd)
      requires Valid()
      modifies this`health, this`receipts
      ensures Valid()
      ensures end == if cls.Permanent? then Raised(reason) else Finished(Some(now + BACKOFF_BASE))
      ensures cls.Permanent? ==> receipts == old(receipts)
      ensures !cls.Permanent? ==> health == Some(Health(HealthTransient, Some(reason)))
    {
      if cls.Permanent? {
        return Raised(reason);
      }
      var wrote := RecordHealth(HealthTransient, Some(reason));
      end := Finished(Some(now + BACKOFF_BASE));
    }

    /** What the next pass observes and is allowed to spend. */
    ghost function ObservedState(sight: Sight): BoardState
      reads this
    {
      BoardState(sight.views, active, SettleMemory(cards, sight.views, sight.trash), sight.trash, sight.trashList)
    }

    /** Where applying begins: memory as settled by the observation. */
    ghost function AtStart(sight: Sight): Effects
      reads this
    {
      Effects(active, SettleMemory(cards, sight.views, sight.trash), log, None)
    }

    ghost function NextPlan(sight: Sight, tick: Tick): PlanResult
      reads this
    {
      PlanOf(ObservedState(sight), tick.now, Spendable(AtStart(sight), tick, maxRuns, dailyCap), config)
    }

    /** One observe, plan and apply.  A permanent error raises part-way; what was done is kept. */
    method Pass(sight: Sight, tick: Tick, replies: int -> Reply, exits: int -> set<Unit>, judge: bool)
      returns (end: PassEnd)
      requires Valid() && DistinctIds(sight.views)
      requires clock <= tick.now && (day.Some? ==> day.value <= tick.today)
      modifies this
      ensures Valid() && clock == tick.now && day == Some(tick.today)
      // the plan's actions up to the first permanent error, each with its effect and its memory
      ensures var plan := old(NextPlan(sight, tick));
              var n := Applied(plan.actions, replies, 0);
              var e := EffectsAfter(old(AtStart(sight)), plan.actions, replies, exits, tick, n);
        && active == e.active && cards == e.cards && log == e.log
        && (end == if RaisedBy(replies, n).Some? then Raised(RaisedBy(replies, n).value)
                   else Finished(WakeOf(plan, tick.midnight)))
        && (judge && end.Finished? ==> health == Some(Verdict(plan.capped, e.transient)))
        && (!judge || end.Raised? ==> health == old(health) && receipts == old(receipts))
      // a count is dropped only off the board or by a pick or unblock no older than the last try
      ensures forall id: Id :: KeptTries(old(tries), old(cards), sight.views)(id) <= tries(id)
      // the tries of a card are forgotten only when it leaves the board
      ensures forall id: Id :: KeptStays(old(stays), sight.views)(id) <= stays(id)
    {
      hide PlanOf, Counted, SettleMemory, StartsOn, SafeStarts, MayStart, KeptTries, EffectsAfter, Applied, LoggedBy, IsPermanent,
        Spaced, KeptStays, StaysAfter, Limits, Recall, RaisedBy;
      ghost var before, seen := AtStart(sight), ObservedState(sight);
      ghost var budget := Spendable(before, tick, maxRuns, dailyCap);
      var plan := BeginPass(sight, tick);
      var raised, worst, reason := ApplyAll(plan.actions, tick, replies, exits);
      ghost var n := Applied(plan.actions, replies, 0);
      LimitsHold(before, seen, tick, replies, exits, maxRuns, dailyCap, config, n);
      StaysSpaced(stays, old(cards), before, seen, tick, replies, exits, budget, config, n, old(clock));
      stays := StaysAfter(KeptStays(stays, sight.views), before, plan.actions, replies, exits, tick, n);
      if raised.Some? {
        return Raised(raised.value);
      }
      var wake := plan.wakeAt;
      if plan.capped {
        worst, reason := HealthCapped, Some("daily-cap");
        wake := Some(if wake.Some? then Min(wake.value, tick.midnight) else tick.midnight);
      }
      if judge {
        var wrote := RecordHealth(worst, reason);
      }
      end := Finished(wake);
    }

    /** Settle memory against what is seen, then plan what is left to spend. */
    method BeginPass(sight: Sight, tick: Tick) returns (plan: PlanResult)
      requires Valid() && DistinctIds(sight.views)
      requires clock <= tick.now && (day.Some? ==> day.value <= tick.today)
      modifies this`tries, this`cards, this`clock, this`day, this`count
      ensures plan == old(NextPlan(sight, tick)) && cards == old(AtStart(sight)).cards
      ensures clock == tick.now && day == Some(tick.today) && count == StartsOn(log, tick.today) && LoggedBy(log, day)
      ensures tries == KeptTries(old(tries), old(cards), sight.views) && Counted(cards, tries, config.attempts, clock)
      ensures SafeStarts(plan.actions, active) && MayStart(plan.actions, 0, cards, config.attempts)
    {
      hide PlanOf, Counted, SettleMemory, StartsOn, SafeStarts, MayStart, KeptTries, LoggedBy, Spaced, Limits, Recall;
      CountedLater(cards, tries, config.attempts, clock, tick.now);
      CountedSettles(cards, tries, config.attempts, tick.now, sight.views, sight.trash);
      var settled := SettleMemory(cards, sight.views, sight.trash);
      var observed := BoardState(sight.views, active, settled, sight.trash, sight.trashList);
      tries := KeptTries(tries, cards, sight.views);
      cards, clock := settled, tick.now;
      var runs := RunsToday(tick.today);
      var budget := Budget(Max(maxRuns - |active|, 0), Some(Max(dailyCap - runs, 0)));
      plan := MakePlan(observed, tick.now, budget, config);
      PlanStartsSafe(observed, tick.now, budget, config);
      PlanMayStart(observed, tick.now, budget, config);
    }

    /** The starts already charged to `today`; a new day starts from nothing. */
    method RunsToday(today: int) returns (n: nat)
      requires day.Some? ==> day.value <= today && count == StartsOn(log, day.value)
      requires LoggedBy(log, day)
      modifies this`day, this`count
      ensures day == Some(today) && n == count == StartsOn(log, today) && LoggedBy(log, day)
    {
      if day != Some(today) {
        StartsOnNone(log, today);
        day, count := Some(today), 0;
      }
      n := count;
    }
  }

  /** The plan's starts fit the slots left beside the busy units, and what is left of the day. */
  lemma PlanFits(st: BoardState, now: int, maxRuns: nat, busy: nat, cap: nat, runs: nat, config: Config)
    requires busy <= maxRuns && runs <= cap
    ensures var b := Budget(Max(maxRuns - busy, 0), Some(Max(cap - runs, 0)));
            busy + Starts(PlanOf(st, now, b, config).actions) <= maxRuns
            && runs + Starts(PlanOf(st, now, b, config).actions) <= cap
  {
    hide PlanOf;
    StartsWithinBudget(st, now, Budget(Max(maxRuns - busy, 0), Some(Max(cap - runs, 0))), config);
  }

  /** Applied to any point, under any answers, a plan keeps every limit: the units, one a card, and
      the day's cap; and it charges only starts it planned. */
  lemma LimitsHold(s: Effects, observed: BoardState, tick: Tick, replies: int -> Reply, exits: int -> set<Unit>,
                   maxRuns: nat, dailyCap: nat, config: Config, n: nat)
    requires DistinctIds(observed.views) && observed.active == s.active
    requires Limits(s.active, s.log, maxRuns, dailyCap) && LoggedBy(s.log, Some(tick.today))
    requires n <= |PlanOf(observed, tick.now, Spendable(s, tick, maxRuns, dailyCap), config).actions|
    ensures var actions := PlanOf(observed, tick.now, Spendable(s, tick, maxRuns, dailyCap), config).actions;
            var e := EffectsAfter(s, actions, replies, exits, tick, n);
      && Limits(e.active, e.log, maxRuns, dailyCap) && LoggedBy(e.log, Some(tick.today))
      && s.log <= e.log
      && (forall i | |s.log| <= i < |e.log| :: (
            e.log[i].day == tick.today && Start(e.log[i].unit.card, e.log[i].unit) in actions))
  {
    hide PlanOf, StartsOn, SafeStarts, Starts, OneUnitPerCard, EffectsAfter, ActiveFrom;
    var b := Spendable(s, tick, maxRuns, dailyCap);
    var actions := PlanOf(observed, tick.now, b, config).actions;
    var e := EffectsAfter(s, actions, replies, exits, tick, n);
    PlanStartsSafe(observed, tick.now, b, config);
    PlanFits(observed, tick.now, maxRuns, |s.active|, dailyCap, StartsOn(s.log, tick.today), config);
    UnitsBounded(s, actions, replies, exits, tick, n);
    LogBounded(s, actions, replies, exits, tick, n);
    UnitsStayApart(e.active, s.active, actions, n);
    StartsPart(actions, n);
    forall d ensures StartsOn(e.log, d) <= dailyCap {
      assert StartsOn(s.log, d) <= dailyCap;
    }
  }

  /** Applied to any point, a plan tries no card before its cooldown and its backoff are over. */
  lemma StaysSpaced(stays: Stays, cards: Memory, s: Effects, observed: BoardState, tick: Tick, replies: int -> Reply,
                    exits: int -> set<Unit>, b: Budget, config: Config, n: nat, clock: int)
    requires DistinctIds(observed.views) && observed.active == s.active && observed.memory == s.cards
    requires s.cards == SettleMemory(cards, observed.views, observed.trash)
    requires Spaced(cards, stays, config.cooldown, clock) && clock <= tick.now
    requires n <= |PlanOf(observed, tick.now, b, config).actions|
    ensures var actions := PlanOf(observed, tick.now, b, config).actions;
            var later := StaysAfter(KeptStays(stays, observed.views), s, actions, replies, exits, tick, n);
            && Spaced(EffectsAfter(s, actions, replies, exits, tick, n).cards, later, config.cooldown, tick.now)
            && (forall id: Id :: KeptStays(stays, observed.views)(id) <= later(id))
  {
    hide PlanOf, SettleMemory, Spaced, KeptStays, StaysAfter, EffectsAfter, SafeStarts;
    var actions, kept := PlanOf(observed, tick.now, b, config).actions, KeptStays(stays, observed.views);
    SpacedLater(cards, stays, config.cooldown, clock, tick.now);
    SpacedSettles(cards, stays, config.cooldown, tick.now, observed.views, observed.trash);
    PlanStartsSafe(observed, tick.now, b, config);
    forall i | 0 <= i < |actions| && actions[i].Start?
      ensures Rested(Recall(s.cards, CardKey(actions[i].card)), config.cooldown, tick.now)
    {
      var v := StartIsSafe(observed, tick.now, b, config, actions[i]);
    }
    SpacedAfter(kept, s, actions, replies, exits, tick, n, config.cooldown);
    forall id: Id ensures kept(id) <= StaysAfter(kept, s, actions, replies, exits, tick, n)(id) {
      StaysGrow(kept, s, actions, replies, exits, tick, n, id);
    }
  }

  /** Over all passes, while a card stays on the board, no start is tried within the cooldown of the
      one before it, nor before the backoff of a failed one is over. */
  lemma TriesAreSpaced(m: Machine, id: Id, i: nat)
    requires m.Valid() && i + 1 < |m.stays(id)|
    ensures m.stays(id)[i + 1].at >= m.stays(id)[i].at + m.config.cooldown
    ensures m.stays(id)[i].failures > 0 ==> m.stays(id)[i + 1].at >= m.stays(id)[i].at + Backoff(m.stays(id)[i].failures)
  {
    assert SpacedOut(m.stays(id), m.config.cooldown);
    assert NoSooner(m.stays(id)[i], m.stays(id)[i + 1], m.config.cooldown);
  }

  /** What is left to spend: slots beside the busy units, and the rest of the day's cap. */
  function Spendable(s: Effects, tick: Tick, maxRuns: nat, dailyCap: nat): Budget {
    Budget(Max(maxRuns - |s.active|, 0), Some(Max(dailyCap - StartsOn(s.log, tick.today), 0)))
  }

  lemma StartsPart(actions: seq<Action>, n: nat)
    requires n <= |actions|
    ensures Starts(actions[..n]) <= Starts(actions)
  {
    assert actions == actions[..n] + actions[n..];
    FilterAppend(actions[..n], actions[n..], IsStart);
  }

  lemma PlanMayStart(st: BoardState, now: int, b: Budget, config: Config)
    ensures MayStart(PlanOf(st, now, b, config).actions, 0, st.memory, config.attempts)
  {
    hide PlanOf;
    var actions := PlanOf(st, now, b, config).actions;
    forall i | 0 <= i < |actions| && actions[i].Start?
      ensures Recall(st.memory, CardKey(actions[i].card)).starts < config.attempts
    {
      var v := StartIsSafe(st, now, b, config, actions[i]);
    }
  }

  lemma CountedLater(cards: Memory, tries: Tries, attempts: nat, now: int, later: int)
    requires Counted(cards, tries, attempts, now) && now <= later
    ensures Counted(cards, tries, attempts, later)
  {
    forall id: Id
      ensures var e := Recall(cards, CardKey(id));
              && e.starts == |tries(id)| <= attempts
              && (tries(id) != [] ==> e.lastStart == Some(Last(tries(id))) && Last(tries(id)) <= later)
    {
      assert Recall(cards, CardKey(id)).starts == |tries(id)|;
    }
  }

  lemma StartsSoFar(actions: seq<Action>, i: nat)
    requires i < |actions|
    ensures Starts(actions[..i + 1]) == Starts(actions[..i]) + if actions[i].Start? then 1 else 0
    ensures Starts(actions[..i + 1]) <= Starts(actions)
  {
    assert actions[..i + 1] == actions[..i] + [actions[i]];
    FilterSnoc(actions[..i], actions[i], IsStart);
    assert actions == actions[..i + 1] + actions[i + 1..];
    FilterAppend(actions[..i + 1], actions[i + 1..], IsStart);
  }

  /** The planner's picture of memory is the truth: a counted start happened, and not in the future. */
  lemma CountedIsTrue(cards: Memory, tries: Tries, attempts: nat, now: int)
    requires Counted(cards, tries, attempts, now)
    ensures Quarantine.MemoryTrue(cards, now)
  {
    forall id: Id | Recall(cards, CardKey(id)).starts > 0
      ensures var e := Recall(cards, CardKey(id)); e.lastStart.Some? && e.lastStart.value <= now
    {
      assert Recall(cards, CardKey(id)).starts == |tries(id)|;
    }
  }

  // ---------- backoff ----------

  lemma {:induction false} Pow2Grows(m: nat, n: nat)
    requires m <= n
    ensures 1 <= Pow2(m) <= Pow2(n)
  {
    if m > 0 {
      Pow2Grows(m - 1, n - 1);
    } else if n > 0 {
      Pow2Grows(0, n - 1);
    }
  }

  /** A retry waits at least the base, never longer than the ceiling, and never less for failing more. */
  lemma BackoffGrows(m: nat, n: nat)
    requires 1 <= m <= n
    ensures BACKOFF_BASE <= Backoff(m) <= Backoff(n) <= BACKOFF_MAX
  {
    Pow2Grows(m - 1, n - 1);
  }

  lemma {:induction false} SubsetCount<T>(a: set<T>, b: set<T>)
    requires a <= b
    ensures |a| <= |b|
  {
    if a != {} {
      var x :| x in a;
      SubsetCount(a - {x}, b - {x});
    }
  }
}
