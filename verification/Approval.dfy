/** Approval is final: once the gate takes Dave's approval of a page, no verb, decision, planned
    hold or passing deadline moves the card anywhere but to Done. */
module Approval {
  import opened Seqs
  import opened Ledger
  import opened Life

  /** An approved page is landing: nothing rejected, no block that counts against a landing card,
      and the latest verdict after the card's last live research run is an approval. */
  ghost predicate Landed(c: Card) {
    var f := FactsAt(c);
    var live := Filter(f.runs, IsLiveResearch);
    && !IsRejected(c.decisions)
    && f.brief.hash.Some? && f.brief.approved
    && live != [] && Last(live).outcome.Some?
    && IsApproval(Latest(Filter(c.decisions, ReviewAfter(Last(live).ts))))
    && LandingBlock(f, c.decisions).None?
  }

  predicate IsApproval(verdict: Option<Decision>) {
    verdict.Some? && verdict.value.kind.Approved?
  }

  /** The block of a landing card, which no deadline can raise: the date does not matter. */
  function LandingBlock(f: Facts, ds: seq<Decision>): Option<Cause> {
    Blocks(ds, f.runs, f.brief.recorded, f.fields, 0, true, f.holds)
  }

  lemma LandingBlockIgnoresDates(ds: seq<Decision>, runs: seq<CardRun>, recorded: set<Hash>, holds: seq<Trigger>,
                                 fields: Fields, today: int, fields': Fields, today': int)
    ensures Blocks(ds, runs, recorded, fields, today, true, holds) == Blocks(ds, runs, recorded, fields', today', true, holds)
  {
    assert Triggers(ds, runs, recorded, fields, today, true, holds) == Triggers(ds, runs, recorded, fields', today', true, holds);
  }

  lemma LandedFlow(c: Card, clock: Clock, timeout: int)
    requires Landed(c)
    ensures var flow := CardFlow(FactsAt(c), c.decisions, clock, timeout);
            flow.column.InReview? && IsApproval(flow.approved)
    ensures CardBlock(FactsAt(c), c.decisions, clock, timeout).None?
  {
    var f := FactsAt(c);
    LandingBlockIgnoresDates(c.decisions, f.runs, f.brief.recorded, f.holds, f.fields, 0, f.fields, clock.today);
  }

  /** Whatever the date, the deadline and canonical main, a landed card is In Review or Done. */
  lemma LandedShows(c: Card, at: Moment)
    requires Landed(c)
    ensures Shown(c, at).column.Done? || (Shown(c, at).column.InReview? && Shown(c, at).landing)
    ensures Shown(c, at).moves <= {Delete} && Shown(c, at).wants.wants.None?
    ensures at.main.None? ==> Shown(c, at).column.InReview?
  {
    LandedFlow(c, at.clock, at.timeout);
  }

  // ---------- the approval lands ----------

  /** What In Review, not yet landing, means. */
  lemma ApproveMeans(c: Card, act: Act, at: Moment)
    requires act.Decide? && act.verb.Approve? && Allowed(c, act, at)
    ensures var f := FactsAt(c);
            && !IsRejected(c.decisions)
            && CardFlow(f, c.decisions, at.clock, at.timeout).column.InReview?
            && CardBlock(f, c.decisions, at.clock, at.timeout).None?
  {
    assert Approve in Shown(c, at).moves;
    MovesMean(c, at);
  }

  lemma MovesMean(c: Card, at: Moment)
    requires Approve in Shown(c, at).moves
    ensures CardColumn(FactsAt(c), c.decisions, at.main, at.clock, at.timeout).InReview?
  {
    hide Filter, Ordered, Brief, Runs, Blocks, CardFlow;
  }

  lemma InReviewFlowMeans(f: Facts, ds: seq<Decision>, clock: Clock, timeout: int)
    requires CardFlow(f, ds, clock, timeout).column.InReview?
    ensures var live := Filter(f.runs, IsLiveResearch);
            f.brief.hash.Some? && f.brief.approved && live != [] && Last(live).outcome.Some?
  {
  }

  /** Lifting the deadline trigger lifts no other. */
  lemma NoBlockNoLandingBlock(ds: seq<Decision>, runs: seq<CardRun>, recorded: set<Hash>, fields: Fields,
                              today: int, landing: bool, holds: seq<Trigger>)
    requires Blocks(ds, runs, recorded, fields, today, landing, holds).None?
    ensures Blocks(ds, runs, recorded, fields, 0, true, holds).None?
  {
    var all := Triggers(ds, runs, recorded, fields, today, landing, holds);
    var some := Triggers(ds, runs, recorded, fields, 0, true, holds);
    var deadline := DeadlineTriggers(fields, today, landing);
    assert all == some + deadline;
    FilterAppend(some, deadline, LiveAfter(SinceUnblock(ds)));
  }

  /** A decision that is neither a strike, a block nor an unblock leaves every trigger as it was. */
  lemma QuietDecisionKeepsBlocks(ds: seq<Decision>, d: Decision, runs: seq<CardRun>, recorded: set<Hash>,
                                 fields: Fields, today: int, landing: bool, holds: seq<Trigger>)
    requires !d.kind.BriefReturned? && !d.kind.ChangesRequested? && !d.kind.BlockedByDave? && !d.kind.Unblocked?
    ensures Blocks(ds + [d], runs, recorded, fields, today, landing, holds)
         == Blocks(ds, runs, recorded, fields, today, landing, holds)
  {
    FilterSnoc(ds, d, ReturnOf(recorded));
    FilterSnoc(ds, d, OfKind(ChangesRequested));
    FilterSnoc(ds, d, OfKind(BlockedByDave));
    SnocParts(ds, d);
  }

  lemma QuietDecisionKeepsBrief(events: seq<Event>, ds: seq<Decision>, d: Decision)
    requires !d.kind.BriefApproved? && !d.kind.BriefReturned?
    ensures Brief(events, ds + [d]) == Brief(events, ds)
  {
    var briefs := Filter(Ordered(events, EventTs), IsBrief);
    if briefs != [] {
      FilterMembers(Ordered(events, EventTs), IsBrief);
      FilterSnoc(ds, d, VerdictOn(Last(briefs).hash));
    }
  }

  lemma {:induction false} RunsNotFuture(events: seq<Event>, receipts: map<RunId, Receipt>, now: int)
    requires forall i | 0 <= i < |events| :: events[i].ts <= now
    ensures forall i | 0 <= i < |RunsIn(events, receipts)| :: RunsIn(events, receipts)[i].ts <= now
  {
    if events != [] {
      RunsNotFuture(Init(events), receipts, now);
    }
  }

  lemma ApprovalLands(c: Card, act: Act, at: Moment, now: int)
    requires act.Decide? && act.verb.Approve? && Allowed(c, act, at)
    requires InOrder(c, now) && now < at.clock.now
    ensures Landed(Next(c, act, at))
  {
    ApproveMeans(c, act, at);
    ApprovalRecorded(c, DecisionFrom(c, act, at), at, now);
  }

  lemma ApprovalRecorded(c: Card, d: Decision, at: Moment, now: int)
    requires d.kind.Approved? && now < d.ts && InOrder(c, now)
    requires !IsRejected(c.decisions)
    requires CardFlow(FactsAt(c), c.decisions, at.clock, at.timeout).column.InReview?
    requires CardBlock(FactsAt(c), c.decisions, at.clock, at.timeout).None?
    ensures Landed(AppendDecision(c, d))
  {
    hide Filter, Brief, Runs, Blocks, CardFlow;
    var f := FactsAt(c);
    InReviewFlowMeans(f, c.decisions, at.clock, at.timeout);
    NoBlockNoLandingBlock(c.decisions, f.runs, f.brief.recorded, f.fields, at.clock.today,
                          CardFlow(f, c.decisions, at.clock, at.timeout).approved.Some?, f.holds);
    QuietDecisionKeepsBrief(c.events, c.decisions, d);
    QuietDecisionKeepsBlocks(c.decisions, d, f.runs, f.brief.recorded, f.fields, 0, true, f.holds);
    FilterSnoc(c.decisions, d, OfKind(Rejected));
    var live := Filter(f.runs, IsLiveResearch);
    FilterMembers(f.runs, IsLiveResearch);
    FactsInOrder(c, now);
    RunsNotFuture(c.events, c.receipts, now);
    var k := LastKept(f.runs, IsLiveResearch);
    FilterSnoc(c.decisions, d, ReviewAfter(Last(live).ts));
    AppendDecisionInOrder(c, d, now);
    LatestInOrder(c.decisions + [d], ReviewAfter(Last(live).ts));
    assert FactsAt(AppendDecision(c, d)) == f;
  }

  // ---------- nothing dislodges it ----------

  /** An event that is no brief, pick, scope edit or reactor hold leaves the flow and the triggers. */
  lemma QuietEventKeepsLanded(c: Card, e: Event, now: int)
    requires Landed(c) && InOrder(c, now) && now <= e.ts
    requires !IsBrief(e) && !IsPick(e) && !Rescopes(e) && !IsReactorHold(e)
    ensures Landed(AppendEvent(c, e))
  {
    var f, f' := FactsAt(c), FactsAt(AppendEvent(c, e));
    AppendEventInOrder(c, e, now);
    FactsInOrder(c, now);
    FactsInOrder(AppendEvent(c, e), e.ts);
    SnocParts(c.events, e);
    QuietEventKeepsBrief(c.events, e, c.decisions);
    LandingBlockIgnoresDates(c.decisions, f.runs, f.brief.recorded, f.holds, f.fields, 0, f'.fields, 0);
  }

  lemma QuietEventKeepsBrief(events: seq<Event>, e: Event, ds: seq<Decision>)
    requires !IsBrief(e) && !Rescopes(e)
    ensures BriefOrdered(events + [e], ds) == BriefOrdered(events, ds)
  {
    hide Filter, IndexOf, Any, VerdictOn;
    FilterSnoc(events, e, IsBrief);
    var briefs := Filter(events, IsBrief);
    if briefs != [] {
      FilterMembers(events, IsBrief);
      var x := Last(briefs);
      var at := IndexOf(events, x);
      var before, after := events[..at], events[at + 1..];
      assert events + [e] == before + [x] + (after + [e]);
      IndexOfSplit(before, x, after + [e]);
      AnySnoc(after, e, Rescopes);
    }
  }

  lemma AnySnoc<T>(xs: seq<T>, x: T, p: T -> bool)
    requires !p(x)
    ensures Any(xs + [x], p) == Any(xs, p)
  {
    if i :| 0 <= i < |xs| && p(xs[i]) {
      assert p((xs + [x])[i]);
    }
    if i :| 0 <= i < |xs + [x]| && p((xs + [x])[i]) {
      assert p(xs[i]);
    }
  }

  lemma QuietDecisionKeepsLanded(c: Card, d: Decision, now: int)
    requires Landed(c) && InOrder(c, now) && now <= d.ts
    requires d.kind.Deleted? || d.kind.Restored?
    ensures Landed(AppendDecision(c, d))
  {
    hide Filter, Blocks, Brief, Runs, EffectiveFields, HoldTriggers;
    var f := FactsAt(c);
    QuietDecisionKeepsBrief(c.events, c.decisions, d);
    QuietDecisionKeepsBlocks(c.decisions, d, f.runs, f.brief.recorded, f.fields, 0, true, f.holds);
    FilterSnoc(c.decisions, d, OfKind(Rejected));
    FilterSnoc(c.decisions, d, ReviewAfter(Last(Filter(f.runs, IsLiveResearch)).ts));
    assert FactsAt(AppendDecision(c, d)) == f;
  }

  /** No receipt changes, and a hold comes only from the planner, which holds only a card that
      wants a run. */
  ghost predicate Quiet(c: Card, s: Step) {
    && !s.act.Settle?
    && (s.act.HoldCard? ==> Fresh(c, s.at).wants.wants.Some?)
  }

  ghost predicate QuietRun(c: Card, steps: seq<Step>) {
    steps == [] || (QuietRun(c, Init(steps)) && Quiet(Exec(c, Init(steps)), Last(steps)))
  }

  lemma InReviewRefusesBrief(c: Card, act: Act, at: Moment)
    requires act.WriteBrief? && Fresh(c, at).column.InReview?
    ensures !Allowed(c, act, at)
  {
    hide DeriveMine;
  }

  lemma UnwantedRefusesPick(c: Card, act: Act, at: Moment)
    requires act.PickCard? && Fresh(c, at).wants.wants.None?
    ensures !Allowed(c, act, at)
  {
    hide DeriveMine;
  }

  lemma LandedRefusesMoves(c: Card, act: Act, at: Moment)
    requires act.Decide? && Shown(c, at).moves <= {Delete} && Allowed(c, act, at)
    ensures act.verb.Delete? || act.verb.Restore?
  {
    hide DeriveMine;
  }

  lemma LandedDecides(c: Card, act: Act, at: Moment, now: int)
    requires Landed(c) && InOrder(c, now) && now <= at.clock.now
    requires act.Decide? && (act.verb.Delete? || act.verb.Restore?)
    ensures Landed(Next(c, act, at))
  {
    hide Landed;
    QuietDecisionKeepsLanded(c, DecisionFrom(c, act, at), now);
  }

  lemma LandedWrites(c: Card, act: Act, at: Moment, now: int)
    requires Landed(c) && InOrder(c, now) && now <= at.clock.now
    requires act.WriteNote? || (act.EditCard? && act.changes.scope.None?)
    ensures Landed(Next(c, act, at))
  {
    hide Landed;
    QuietEventKeepsLanded(c, EventOf(c, act, at), now);
  }

  lemma LandedKept(c: Card, s: Step, now: int)
    requires Landed(c) && InOrder(c, now) && now <= s.at.clock.now && Quiet(c, s)
    ensures Landed(Perform(c, s))
  {
    hide Landed, DeriveMine, Allowed;
    if Perform(c, s) != c {
      LandedShows(c, s.at);
      LandedShows(c, s.at.(main := None));
      match s.act {
        case WriteBrief(_, _) => InReviewRefusesBrief(c, s.act, s.at);
        case PickCard(_, _) => UnwantedRefusesPick(c, s.act, s.at);
        case Decide(_, _, _, _) =>
          LandedRefusesMoves(c, s.act, s.at);
          LandedDecides(c, s.act, s.at, now);
        case EditCard(_, changes) =>
          if changes.scope.Some? {
            ScopeEditMeans(c, s.act, s.at);
          }
          LandedWrites(c, s.act, s.at, now);
        case WriteNote(_, _) => LandedWrites(c, s.act, s.at, now);
        case _ =>
      }
    }
  }

  lemma {:induction false} LandedAlways(c: Card, start: int, steps: seq<Step>)
    requires Landed(c) && InOrder(c, start) && NeverBack(start, steps) && QuietRun(c, steps)
    ensures Landed(Exec(c, steps))
  {
    hide Landed, Perform, Quiet;
    if steps != [] {
      LandedAlways(c, start, Init(steps));
      ReachableInOrder(c, start, Init(steps));
      LandedKept(Exec(c, Init(steps)), Last(steps), EndOf(start, Init(steps)));
    }
  }

  /** Once the gate accepts an approval, every later state shows In Review (landing) or Done, at
      every later instant and date, whatever the deadline and whatever main holds. */
  lemma ApprovalIsFinal(c: Card, now: int, approve: Act, at: Moment, steps: seq<Step>, later: Moment)
    requires InOrder(c, now) && now < at.clock.now
    requires approve.Decide? && approve.verb.Approve? && Allowed(c, approve, at)
    requires NeverBack(at.clock.now, steps) && QuietRun(Next(c, approve, at), steps)
    ensures var shown := Shown(Exec(Next(c, approve, at), steps), later);
            shown.column.Done? || (shown.column.InReview? && shown.landing)
  {
    hide Landed, DeriveMine, Allowed, Perform;
    ApprovalLands(c, approve, at, now);
    NextInOrder(c, approve, at, now);
    LandedAlways(Next(c, approve, at), at.clock.now, steps);
    LandedShows(Exec(Next(c, approve, at), steps), later);
  }
}
