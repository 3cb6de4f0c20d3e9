/** Quarantine works and sticks: a planned hold is stamped after the card's latest unblock, blocks
    the card once applied, and keeps the planner off it until an unblock lifts it. */
module Quarantine {
  import opened Seqs
  import opened Ledger
  import opened Life
  import opened Approval
  import Plan
  import PlanProps

  // ---------- the hold's stamp ----------

  /** A counted start happened, and not in the future. */
  ghost predicate MemoryTrue(memory: Plan.Memory, now: int) {
    forall id: Id | Plan.Recall(memory, Plan.CardKey(id)).starts > 0 ::
      var e := Plan.Recall(memory, Plan.CardKey(id)); e.lastStart.Some? && e.lastStart.value <= now
  }

  lemma {:induction false} StreakAfterUnblock(runs: seq<CardRun>, since: Option<int>)
    requires FailedStreak(runs, since) > 0
    ensures exists i | 0 <= i < |runs| :: runs[i].void && (since.Some? ==> since.value < runs[i].ts)
  {
    if since.Some? && Last(runs).ts <= since.value {
      StreakAfterUnblock(Init(runs), since);
      var i :| 0 <= i < |Init(runs)| && Init(runs)[i].void && (since.Some? ==> since.value < Init(runs)[i].ts);
      assert runs[i] == Init(runs)[i];
    }
  }

  /** A settled count that quarantines was not cleared: the last start is later than any unblock. */
  lemma SettledCountAfterUnblock(e: Plan.Entry, v: View, now: int)
    requires Plan.SettledStarts(e, v).starts > 0
    requires e.starts > 0 ==> e.lastStart.Some? && e.lastStart.value <= now
    ensures v.unblockedAt.Some? ==> v.unblockedAt.value < now
  {
  }

  lemma ViewFacts(c: Card, at: Moment)
    ensures Fresh(c, at).id == c.id && Fresh(c, at).runs == Runs(c.events, c.receipts)
    ensures Fresh(c, at).unblockedAt == SinceUnblock(c.decisions)
    ensures Fresh(c, at).failedStreak == FailedStreak(Runs(c.events, c.receipts), SinceUnblock(c.decisions))
  {
  }

  lemma SettledEntry(memory: Plan.Memory, views: seq<View>, trash: seq<View>, v: View)
    requires Plan.DistinctIds(views) && v in views
    ensures var e := Plan.Recall(Plan.SettleMemory(memory, views, trash), Plan.CardKey(v.id));
            e == if Plan.CardKey(v.id) in memory then Plan.SettledStarts(memory[Plan.CardKey(v.id)], v) else Plan.NoEntry
  {
    Plan.FindViewUnique(views, v);
  }

  /** Why the planner holds a card. */
  lemma HoldMeans(st: Plan.BoardState, now: int, b: Plan.Budget, config: Plan.Config, v: View, reason: string)
    requires Plan.DistinctIds(st.views) && v in st.views
    requires Plan.HoldAction(v.id, reason) in Plan.PlanOf(st, now, b, config).actions
    ensures v.wants.wants.Some?
    ensures Plan.Quarantine(v, Plan.Recall(st.memory, Plan.CardKey(v.id)), config) == Some(reason)
  {
    hide Plan.PlanOf, Plan.CardActions, PlanProps.Steps;
    var a := Plan.HoldAction(v.id, reason);
    PlanProps.StepOfPlan(st, now, b, config, a);
    var held := PlanProps.StepIsFor(st, now, config, a);
    Plan.FindViewUnique(st.views, held);
    Plan.FindViewUnique(st.views, v);
    CardHoldMeans(st, v, config, reason);
  }

  lemma CardHoldMeans(st: Plan.BoardState, v: View, config: Plan.Config, reason: string)
    requires Plan.HoldAction(v.id, reason) in Plan.CardActions(st, v, config)
    ensures v.wants.wants.Some?
    ensures Plan.Quarantine(v, Plan.Recall(st.memory, Plan.CardKey(v.id)), config) == Some(reason)
  {
  }

  lemma StreakMeans(c: Card, now: int)
    requires InOrder(c, now) && FailedStreak(Runs(c.events, c.receipts), SinceUnblock(c.decisions)) > 0
    ensures SinceUnblock(c.decisions).Some? ==> SinceUnblock(c.decisions).value < now
  {
    hide SinceUnblock, FailedStreak;
    var runs := Runs(c.events, c.receipts);
    StreakAfterUnblock(runs, SinceUnblock(c.decisions));
    RunsOfOrdered(c, now);
    RunsNotFuture(c.events, c.receipts, now);
  }

  /** Every hold the planner emits is stamped strictly after the card's latest unblock. */
  lemma HoldIsAfterUnblock(st: Plan.BoardState, raw: Plan.Memory, now: int, b: Plan.Budget, config: Plan.Config,
                           c: Card, at: Moment, reason: string)
    requires Plan.DistinctIds(st.views) && Fresh(c, at) in st.views
    requires st.memory == Plan.SettleMemory(raw, st.views, st.trash) && MemoryTrue(raw, now)
    requires InOrder(c, now) && config.attempts >= 1
    requires Plan.HoldAction(c.id, reason) in Plan.PlanOf(st, now, b, config).actions
    ensures Fresh(c, at).wants.wants.Some?
    ensures SinceUnblock(c.decisions).Some? ==> SinceUnblock(c.decisions).value < now
  {
    hide DeriveMine, Runs, SinceUnblock, FailedStreak, Plan.PlanOf, Plan.SettleMemory, Plan.SettledStarts, InOrder;
    var v := Fresh(c, at);
    ViewFacts(c, at);
    HoldMeans(st, now, b, config, v, reason);
    if v.failedStreak >= config.attempts {
      StreakMeans(c, now);
    } else {
      SettledEntry(raw, st.views, st.trash, v);
      assert Plan.Recall(raw, Plan.CardKey(v.id)) == raw[Plan.CardKey(v.id)];
      SettledCountAfterUnblock(raw[Plan.CardKey(v.id)], v, now);
    }
  }

  lemma RunsOfOrdered(c: Card, now: int)
    requires InOrder(c, now)
    ensures Runs(c.events, c.receipts) == RunsIn(c.events, c.receipts)
  {
    OrderedIdentity(c.events, EventTs);
  }

  // ---------- the hold blocks ----------

  lemma {:induction false} HoldIsATrigger(events: seq<Event>, i: nat)
    requires i < |events| && IsReactorHold(events[i])
    ensures Trigger(events[i].ts, Held(events[i].reason)) in HoldTriggers(events)
  {
    if i < |events| - 1 {
      HoldIsATrigger(Init(events), i);
    }
  }

  /** A hold that no unblock has reached blocks the card. */
  lemma HoldBlocks(c: Card, i: nat, at: Moment)
    requires i < |c.events| && IsReactorHold(c.events[i])
    requires SinceUnblock(c.decisions).Some? ==> SinceUnblock(c.decisions).value < c.events[i].ts
    ensures CardBlock(FactsAt(c), c.decisions, at.clock, at.timeout).Some?
  {
    hide Brief, Runs, EffectiveFields, CardFlow, DecisionTriggers, RunTriggers, DeadlineTriggers;
    var f := FactsAt(c);
    HoldIsATrigger(c.events, i);
    var landing := CardFlow(f, c.decisions, at.clock, at.timeout).approved.Some?;
    var all := Triggers(c.decisions, f.runs, f.brief.recorded, f.fields, at.clock.today, landing, f.holds);
    var t := Trigger(c.events[i].ts, Held(c.events[i].reason));
    assert t in all;
    var k :| 0 <= k < |all| && all[k] == t;
    BlockedByTrigger(c.decisions, f.runs, f.brief.recorded, f.fields, at.clock.today, landing, f.holds, k);
  }

  /** Until an unblock at or after its stamp, a held card is Blocked (or Done) at every instant and
      wants no run: whatever else happened to the card since. */
  lemma HoldSticks(c: Card, i: nat, at: Moment)
    requires i < |c.events| && IsReactorHold(c.events[i])
    requires forall k | 0 <= k < |c.decisions| && c.decisions[k].kind.Unblocked? :: c.decisions[k].ts < c.events[i].ts
    ensures Shown(c, at).column.Blocked? || Shown(c, at).column.Done?
    ensures Shown(c, at).wants.wants.None?
  {
    SinceUnblockIsMax(c.decisions);
    HoldBlocks(c, i, at);
    BlockedWantsNothing(c, at);
  }

  lemma BlockedWantsNothing(c: Card, at: Moment)
    requires CardBlock(FactsAt(c), c.decisions, at.clock, at.timeout).Some?
    ensures Shown(c, at).column.Blocked? || Shown(c, at).column.Done?
    ensures Shown(c, at).wants.wants.None?
  {
    hide CardBlock, CardFlow;
  }

  /** Applied to a card that wants a run, the hold is accepted and the card derives Blocked. */
  lemma HoldApplies(c: Card, reason: string, at: Moment)
    requires Fresh(c, at).wants.wants.Some? && InOrder(c, at.clock.now)
    requires SinceUnblock(c.decisions).Some? ==> SinceUnblock(c.decisions).value < at.clock.now
    ensures Allowed(c, HoldCard(reason), at)
    ensures Fresh(Next(c, HoldCard(reason), at), at).column.Blocked?
  {
    hide DeriveMine;
    WantsMeans(c, at.(main := None));
    UnblockedMayHold(c, at);
    HeldShows(c, HeldEvent(at.clock.now, Reactor, reason), at);
  }

  lemma UnblockedMayHold(c: Card, at: Moment)
    requires CardBlock(FactsAt(c), c.decisions, at.clock, at.timeout).None?
    ensures Fresh(c, at).blockedCause.None?
  {
    hide CardBlock, CardFlow;
  }

  lemma HeldFacts(c: Card, e: Event, now: int)
    requires InOrder(c, now) && now <= e.ts && IsReactorHold(e)
    ensures FactsAt(AppendEvent(c, e)).brief == FactsAt(c).brief && FactsAt(AppendEvent(c, e)).runs == FactsAt(c).runs
  {
    AppendEventInOrder(c, e, now);
    FactsInOrder(c, now);
    FactsInOrder(AppendEvent(c, e), e.ts);
    SnocParts(c.events, e);
    QuietEventKeepsBrief(c.events, e, c.decisions);
  }

  lemma HeldShows(c: Card, e: Event, at: Moment)
    requires IsReactorHold(e) && e.ts == at.clock.now && InOrder(c, at.clock.now)
    requires SinceUnblock(c.decisions).Some? ==> SinceUnblock(c.decisions).value < e.ts
    requires !IsRejected(c.decisions)
    requires var column := CardFlow(FactsAt(c), c.decisions, at.clock, at.timeout).column;
             column.Backlog? || column.Refine? || column.Todo?
    ensures Fresh(AppendEvent(c, e), at).column.Blocked?
  {
    hide FactsOf, CardBlock;
    HeldFacts(c, e, at.clock.now);
    HoldBlocks(AppendEvent(c, e), |c.events|, at);
  }

  /** While the hold sticks the planner starts nothing for the card and holds it no further. */
  lemma PlannerLeavesHeldCard(st: Plan.BoardState, now: int, b: Plan.Budget, config: Plan.Config, c: Card, i: nat,
                              at: Moment, a: Plan.Action)
    requires Plan.DistinctIds(st.views) && Fresh(c, at) in st.views
    requires i < |c.events| && IsReactorHold(c.events[i])
    requires forall k | 0 <= k < |c.decisions| && c.decisions[k].kind.Unblocked? :: c.decisions[k].ts < c.events[i].ts
    requires a in Plan.PlanOf(st, now, b, config).actions && a.card == c.id
    ensures !a.Start? && !a.HoldAction?
  {
    hide DeriveMine, Plan.PlanOf;
    var v := Fresh(c, at);
    HoldSticks(c, i, at.(main := None));
    ViewFacts(c, at);
    PlanProps.UnwantedIsLeft(st, now, b, config, v, a);
  }

  /** No later step of the card's life removes the hold: only an unblock can lift it. */
  lemma {:induction false} HoldStaysOnLedger(c: Card, steps: seq<Step>)
    ensures c.events <= Exec(c, steps).events
  {
    hide Allowed;
    if steps != [] {
      HoldStaysOnLedger(c, Init(steps));
    }
  }
}
