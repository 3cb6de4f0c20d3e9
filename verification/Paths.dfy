/** What the guards and the gate let a card do next, and the runs of accepted steps that can be built
    from it: any card that stands in order can be restored, undated, unblocked, rewritten and approved. */
module Paths {
  import opened Seqs
  import opened Ledger
  import opened Life
  import opened Approval
  import opened Strikes

  // ---------- runs of accepted steps ----------

  /** Which date an instant falls on: any calendar will do. */
  type Calendar = int -> int

  function OnDay(now: int, day: Calendar, timeout: int): Moment {
    Moment(Clock(now, day(now)), None, timeout)
  }

  /** Each step reads its date from the calendar and is allowed where the ones before it leave the card. */
  ghost predicate Accepted(c: Card, steps: seq<Step>, day: Calendar) {
    forall i | 0 <= i < |steps| :: steps[i].at.clock.today == day(steps[i].at.clock.now) && Allowed(Exec(c, steps[..i]), steps[i].act, steps[i].at)
  }

  ghost predicate ReachedBy(c: Card, start: int, d: Card, now: int, day: Calendar, steps: seq<Step>) {
    Rising(start, steps) && EndOf(start, steps) <= now && Accepted(c, steps, day) && d == Exec(c, steps)
  }

  /** Some run of accepted steps under a rising clock leads from `c` to `d`. */
  ghost predicate Reaches(c: Card, start: int, d: Card, now: int, day: Calendar) {
    exists steps: seq<Step> :: ReachedBy(c, start, d, now, day, steps)
  }

  lemma ReachesItself(c: Card, start: int, day: Calendar)
    ensures Reaches(c, start, c, start, day)
  {
    var none: seq<Step> := [];
    assert ReachedBy(c, start, c, start, day, none);
  }

  lemma ReachesNext(c: Card, start: int, d: Card, now: int, act: Act, at: Moment, day: Calendar)
    requires Reaches(c, start, d, now, day) && now < at.clock.now && at.clock.today == day(at.clock.now) && Allowed(d, act, at)
    ensures Reaches(c, start, Next(d, act, at), at.clock.now, day)
  {
    hide Allowed, Next;
    var steps :| ReachedBy(c, start, d, now, day, steps);
    var more := steps + [Step(act, at)];
    SnocParts(steps, Step(act, at));
    assert Exec(c, more) == Perform(d, Step(act, at));
    RisingSnoc(start, steps, Step(act, at));
    forall i | 0 <= i < |more| ensures Allowed(Exec(c, more[..i]), more[i].act, more[i].at) {
      assert more[..i] == steps[..i];
      assert i == |steps| ==> steps[..i] == steps;
    }
    assert ReachedBy(c, start, Next(d, act, at), at.clock.now, day, more);
  }

  lemma {:induction false} ReachesOn(c: Card, start: int, d: Card, now: int, e: Card, later: int, day: Calendar)
    requires Reaches(c, start, d, now, day) && Reaches(d, now, e, later, day)
    ensures Reaches(c, start, e, later, day)
  {
    var steps :| ReachedBy(d, now, e, later, day, steps);
    ReachesAlong(c, start, d, now, day, steps);
    ReachesLater(c, start, e, EndOf(now, steps), later, day);
  }

  lemma ReachesLater(c: Card, start: int, d: Card, now: int, later: int, day: Calendar)
    requires Reaches(c, start, d, now, day) && now <= later
    ensures Reaches(c, start, d, later, day)
  {
    hide Exec, Accepted;
    var steps :| ReachedBy(c, start, d, now, day, steps);
    assert ReachedBy(c, start, d, later, day, steps);
  }

  lemma {:induction false} ReachesAlong(c: Card, start: int, d: Card, now: int, day: Calendar, steps: seq<Step>)
    requires Reaches(c, start, d, now, day) && Rising(now, steps) && Accepted(d, steps, day)
    ensures Reaches(c, start, Exec(d, steps), EndOf(now, steps), day)
  {
    hide Allowed, Next, Reaches;
    if steps != [] {
      assert Accepted(d, Init(steps), day) by {
        forall i | 0 <= i < |Init(steps)| ensures Init(steps)[..i] == steps[..i] {
        }
      }
      ReachesAlong(c, start, d, now, day, Init(steps));
      var i := |steps| - 1;
      assert steps[..i] == Init(steps) && Allowed(Exec(d, steps[..i]), steps[i].act, steps[i].at);
      ReachesNext(c, start, Exec(d, Init(steps)), EndOf(now, Init(steps)), Last(steps).act, Last(steps).at, day);
    }
  }

  // ---------- what the gate and the guards read ----------

  /** A rejection is Done, a block is Blocked, and else the flow says. */
  lemma Shows(c: Card, at: Moment)
    requires at.main.None?
    ensures var f, shown, flow := FactsAt(c), Shown(c, at), CardFlow(FactsAt(c), c.decisions, at.clock, at.timeout);
      && shown == Fresh(c, at)
      && shown.column == (if IsRejected(c.decisions) then Done
                          else if CardBlock(f, c.decisions, at.clock, at.timeout).Some? then Blocked else flow.column)
      && shown.brief == f.brief && shown.runs == f.runs && shown.fields == f.fields
      && shown.moves == (if shown.column.InReview? && flow.approved.Some? then {} else Moves(shown.column))
      && (shown.deleted <==> Deletion(c.decisions).Some?)
      && (shown.column.Todo? && !shown.deleted && IsDue(f.fields, at.clock.now) ==> shown.wants.wants == Some(ResearchRun))
  {
    assert at.(main := None) == at;
    hide CardFlow, CardBlock, IsRejected, Deletion, FactsOf, BriefWants, EditableFields, ForgedDecisions, ForgedHolds, FailedStreak, Moves;
  }

  predicate IsDue(f: Fields, now: int) {
    f.researchOn.Some? ==> f.researchOn.value.due <= now
  }

  /** Neither rejected nor deleted nor blocked, and no deadline to come. */
  ghost predicate Free(c: Card, now: int) {
    && InOrder(c, now) && !IsRejected(c.decisions) && Deletion(c.decisions).None?
    && FactsAt(c).fields.deadline.None? && LandingBlock(FactsAt(c), c.decisions).None?
  }

  lemma UndatedBlock(f: Facts, ds: seq<Decision>, clock: Clock, timeout: int)
    requires f.fields.deadline.None?
    ensures CardBlock(f, ds, clock, timeout) == LandingBlock(f, ds)
  {
    hide CardFlow, ReturnStrikes, ChangeStrikes, DeclineStrikes, Filter;
  }

  /** A free card shows the column of its flow. */
  lemma FreeShows(c: Card, now: int, at: Moment)
    requires Free(c, now) && at.main.None?
    ensures var f, shown, flow := FactsAt(c), Shown(c, at), CardFlow(FactsAt(c), c.decisions, at.clock, at.timeout);
      && shown == Fresh(c, at) && shown.column == flow.column && !shown.deleted && shown.brief == f.brief && shown.runs == f.runs
      && shown.moves == (if flow.column.InReview? && flow.approved.Some? then {} else Moves(flow.column))
      && (flow.column.Todo? && IsDue(f.fields, at.clock.now) ==> shown.wants.wants == Some(ResearchRun))
  {
    hide CardFlow, CardBlock, IsRejected, Deletion, FactsOf, DeriveMine, LandingBlock, Moves;
    Shows(c, at);
    UndatedBlock(FactsAt(c), c.decisions, at.clock, at.timeout);
  }

  lemma EarlyFlow(f: Facts, ds: seq<Decision>, clock: Clock, timeout: int)
    requires f.brief.hash.None? || !f.brief.approved
    ensures CardFlow(f, ds, clock, timeout) == Flow(if f.brief.hash.None? then Backlog else Refine, None, None)
  {
  }

  /** No decision names the text, and the card has not recorded it. */
  predicate Unused(c: Card, h: Hash) {
    Unnamed(c.decisions, h) && h !in RecordedBy(c.events)
  }

  /** No pick and no receipt names the run. */
  predicate UnusedRun(c: Card, run: RunId) {
    run !in c.receipts && forall i | 0 <= i < |c.events| && IsPick(c.events[i]) :: c.events[i].runId != run
  }

  predicate Unnamed(ds: seq<Decision>, h: Hash) {
    forall i | 0 <= i < |ds| :: ds[i].briefHash != Some(h)
  }

  function Writing(h: Hash): Act { WriteBrief(Dave, h) }
  function Returning(h: Hash): Act { Decide(ReturnBrief, Some(h), None, false) }
  function Approving(h: Hash): Act { Decide(ApproveBrief, Some(h), None, false) }
  const Restoring: Act := Decide(Restore, None, None, false)
  const Unblocking: Act := Decide(Unblock, None, None, false)
  const NoDeadline: Changes := Changes(None, None, Some(None), None, None, None)
  const Undating: Act := EditCard(Dave, NoDeadline)

  // ---------- decisions ----------

  /** Neither a rejection nor a deletion comes from any other decision. */
  lemma OtherKeepsFate(ds: seq<Decision>, d: Decision)
    ensures !d.kind.Rejected? ==> (IsRejected(ds + [d]) <==> IsRejected(ds))
    ensures !IsDeletion(d) ==> Deletion(ds + [d]) == Deletion(ds)
  {
    FilterSnoc(ds, d, OfKind(Rejected));
    FilterSnoc(ds, d, IsDeletion);
  }

  lemma DecidedFacts(c: Card, d: Decision, now: int)
    requires InOrder(c, now) && now <= d.ts
    ensures InOrder(AppendDecision(c, d), d.ts)
    ensures FactsAt(AppendDecision(c, d)) == FactsAt(c).(brief := BriefOrdered(c.events, c.decisions + [d]))
    ensures FactsAt(c).brief == BriefOrdered(c.events, c.decisions)
    ensures BriefOrdered(c.events, c.decisions + [d]).recorded == FactsAt(c).brief.recorded == RecordedBy(c.events)
    ensures !d.kind.BriefApproved? && !d.kind.BriefReturned? ==> FactsAt(AppendDecision(c, d)) == FactsAt(c)
  {
    hide BriefOrdered;
    AppendDecisionInOrder(c, d, now);
    FactsInOrder(c, now);
    FactsInOrder(AppendDecision(c, d), d.ts);
    RecordedHashes(c.events, c.decisions);
    RecordedHashes(c.events, c.decisions + [d]);
    if !d.kind.BriefApproved? && !d.kind.BriefReturned? {
      QuietDecisionKeepsBrief(c.events, c.decisions, d);
      BriefOfSorted(c, now);
      BriefOfSorted(AppendDecision(c, d), d.ts);
    }
  }

  /** A deleted card may be restored. */
  lemma MayRestore(c: Card, now: int, at: Moment)
    requires InOrder(c, now) && now < at.clock.now && at.main.None? && Deletion(c.decisions).Some?
    ensures Allowed(c, Restoring, at)
    ensures var c' := Next(c, Restoring, at);
      && InOrder(c', at.clock.now) && FactsAt(c') == FactsAt(c) && Deletion(c'.decisions).None?
      && c'.events == c.events && c'.decisions == c.decisions + [Decision(at.clock.now, Restored, c.id, None, None)]
  {
    hide DeriveMine, FactsOf, CardFlow, CardBlock, Filter, IsRejected, Deletion;
    Shows(c, at);
    assert Allowed(c, Restoring, at);
    var d := DecisionFrom(c, Restoring, at);
    DecidedFacts(c, d, now);
    RestoredLast(c.decisions, d);
  }

  lemma RestoredLast(ds: seq<Decision>, d: Decision)
    requires Sorted(ds + [d], DecisionTs) && d.kind.Restored?
    ensures Deletion(ds + [d]).None?
  {
    FilterSnoc(ds, d, IsDeletion);
    LatestInOrder(ds + [d], IsDeletion);
  }

  /** A blocked card with no deadline may be unblocked, and is then free. */
  lemma MayUnblock(c: Card, now: int, at: Moment)
    requires InOrder(c, now) && now < at.clock.now && at.main.None? && FactsAt(c).fields.deadline.None?
    requires !IsRejected(c.decisions) && Deletion(c.decisions).None? && LandingBlock(FactsAt(c), c.decisions).Some?
    ensures Allowed(c, Unblocking, at)
    ensures var c' := Next(c, Unblocking, at);
      && Free(c', at.clock.now) && FactsAt(c') == FactsAt(c)
      && c'.events == c.events && c'.decisions == c.decisions + [Decision(at.clock.now, Unblocked, c.id, None, None)]
  {
    hide DeriveMine, FactsOf, CardFlow, CardBlock, Filter, IsRejected, LandingBlock, Deletion;
    Shows(c, at);
    UndatedBlock(FactsAt(c), c.decisions, at.clock, at.timeout);
    assert Allowed(c, Unblocking, at);
    var d := DecisionFrom(c, Unblocking, at);
    DecidedFacts(c, d, now);
    OtherKeepsFate(c.decisions, d);
    UnblockLiftsAll(c, now, d);
  }

  lemma UnblockLiftsAll(c: Card, now: int, d: Decision)
    requires InOrder(c, now) && now < d.ts && d.kind.Unblocked?
    ensures LandingBlock(FactsAt(c), c.decisions + [d]).None?
  {
    var ds, f := c.decisions + [d], FactsAt(c);
    SinceUnblockSnoc(c.decisions, d, now);
    OldRows(ds, d, now, ReturnOf(f.brief.recorded));
    OldRows(ds, d, now, OfKind(ChangesRequested));
    OldRows(ds, d, now, OfKind(BlockedByDave));
    FactsInOrder(c, now);
    RunsNotFuture(c.events, c.receipts, now);
    HoldsNotFuture(c.events, now);
    OldRuns(f.runs, now);
    hide Filter, Ordered, SinceUnblock, FactsOf, Triggers;
    OldTriggers(ds, f, now);
    FilterNone(Triggers(ds, f.runs, f.brief.recorded, f.fields, 0, true, f.holds), LiveAfter(Some(d.ts)));
  }

  lemma OldTriggers(ds: seq<Decision>, f: Facts, now: int)
    requires forall r <- Ordered(Filter(ds, ReturnOf(f.brief.recorded)), DecisionTs) :: r.ts <= now
    requires forall r <- Ordered(Filter(ds, OfKind(ChangesRequested)), DecisionTs) :: r.ts <= now
    requires forall r <- Ordered(Filter(f.runs, IsDecline), RunTs) :: r.ts <= now
    requires forall r <- Filter(ds, OfKind(BlockedByDave)) :: r.ts <= now
    requires forall i | 0 <= i < |f.holds| :: f.holds[i].ts <= now
    ensures forall t <- Triggers(ds, f.runs, f.brief.recorded, f.fields, 0, true, f.holds) :: t.ts <= now
  {
    hide Filter, Ordered;
    var all := Triggers(ds, f.runs, f.brief.recorded, f.fields, 0, true, f.holds);
    forall t <- all ensures t.ts <= now {
      var i :| 0 <= i < |all| && all[i] == t;
    }
  }

  lemma {:induction false} HoldsNotFuture(events: seq<Event>, now: int)
    requires forall i | 0 <= i < |events| :: events[i].ts <= now
    ensures forall i | 0 <= i < |HoldTriggers(events)| :: HoldTriggers(events)[i].ts <= now
  {
    if events != [] {
      HoldsNotFuture(Init(events), now);
    }
  }

  lemma OldRuns(runs: seq<CardRun>, now: int)
    requires forall i | 0 <= i < |runs| :: runs[i].ts <= now
    ensures forall r <- Ordered(Filter(runs, IsDecline), RunTs) :: r.ts <= now
  {
    hide Filter, Ordered;
    FilterMembers(runs, IsDecline);
    OrderedMembers(Filter(runs, IsDecline), RunTs);
    forall r <- Ordered(Filter(runs, IsDecline), RunTs) ensures r.ts <= now {
      assert r in multiset(Ordered(Filter(runs, IsDecline), RunTs));
      assert r in Filter(runs, IsDecline);
    }
  }

  lemma OldRows(ds: seq<Decision>, d: Decision, now: int, p: Decision -> bool)
    requires ds != [] && Last(ds) == d && !p(d) && now < d.ts && forall i | 0 <= i < |ds| - 1 :: ds[i].ts <= now
    ensures forall r <- Filter(ds, p) :: r.ts <= now
    ensures forall r <- Ordered(Filter(ds, p), DecisionTs) :: r.ts <= now
  {
    hide Filter, Ordered;
    FilterMembers(ds, p);
    OrderedMembers(Filter(ds, p), DecisionTs);
    forall r <- Filter(ds, p) ensures r.ts <= now {
      var i :| 0 <= i < |ds| && ds[i] == r;
      assert p(r);
    }
    forall r <- Ordered(Filter(ds, p), DecisionTs) ensures r.ts <= now {
      assert r in multiset(Ordered(Filter(ds, p), DecisionTs));
      assert r in Filter(ds, p);
    }
  }

  // ---------- verdicts on a text ----------

  lemma NoVerdictYet(ds: seq<Decision>, h: Hash)
    requires Unnamed(ds, h)
    ensures Filter(ds, VerdictOn(h)) == [] && Latest(Filter(ds, VerdictOn(h))).None?
  {
    forall d <- ds ensures !VerdictOn(h)(d) {
      var i :| 0 <= i < |ds| && ds[i] == d;
    }
    FilterNone(ds, VerdictOn(h));
  }

  lemma FirstVerdict(ds: seq<Decision>, d: Decision, h: Hash)
    requires Filter(ds, VerdictOn(h)) == [] && VerdictOn(h)(d)
    ensures Latest(Filter(ds + [d], VerdictOn(h))) == Some(d)
  {
    FilterSnoc(ds, d, VerdictOn(h));
    assert [] + [d] == [d];
    OrderedIdentity([d], DecisionTs);
  }

  /** The first verdict on the text shown decides it. */
  lemma VerdictShows(events: seq<Event>, ds: seq<Decision>, d: Decision, h: Hash)
    requires BriefOrdered(events, ds).hash == Some(h) && Unnamed(ds, h) && VerdictOn(h)(d)
    ensures !BriefOrdered(events, ds).approved
    ensures BriefOrdered(events, ds + [d]).hash == if d.kind.BriefReturned? then None else Some(h)
    ensures BriefOrdered(events, ds + [d]).approved <==> d.kind.BriefApproved?
  {
    hide IndexOf, Any, Latest, Filter;
    NoVerdictYet(ds, h);
    FirstVerdict(ds, d, h);
  }

  /** A text on show that no decision names may be approved. */
  lemma MayApprove(c: Card, now: int, h: Hash, at: Moment)
    requires Free(c, now) && now < at.clock.now && at.main.None?
    requires FactsAt(c).brief.hash == Some(h) && Unnamed(c.decisions, h)
    ensures Allowed(c, Approving(h), at)
    ensures var c' := Next(c, Approving(h), at);
            && Free(c', at.clock.now) && FactsAt(c').brief.hash == Some(h) && FactsAt(c').brief.approved
            && FactsAt(c').runs == FactsAt(c).runs && FactsAt(c').fields == FactsAt(c).fields && c'.receipts == c.receipts
  {
    hide DeriveMine, FactsOf, CardFlow, Filter, Blocks, Deletion, IsRejected, BriefOrdered;
    var d := DecisionFrom(c, Approving(h), at);
    FreeShows(c, now, at);
    DecidedFacts(c, d, now);
    VerdictShows(c.events, c.decisions, d, h);
    EarlyFlow(FactsAt(c), c.decisions, at.clock, at.timeout);
    assert Allowed(c, Approving(h), at);
    OtherKeepsFate(c.decisions, d);
    QuietDecisionKeepsBlocks(c.decisions, d, FactsAt(c).runs, FactsAt(c).brief.recorded, FactsAt(c).fields, 0, true, FactsAt(c).holds);
  }

  /** Or returned: a first return of one of the card's own texts leaves it free. */
  lemma MayReturn(c: Card, now: int, h: Hash, at: Moment)
    requires Free(c, now) && now < at.clock.now && at.main.None?
    requires FactsAt(c).brief.hash == Some(h) && Unnamed(c.decisions, h)
    ensures Allowed(c, Returning(h), at)
    ensures var c' := Next(c, Returning(h), at);
      && c'.events == c.events && c'.decisions == c.decisions + [Decision(at.clock.now, BriefReturned, c.id, Some(h), None)]
      && InOrder(c', at.clock.now) && FactsAt(c').runs == FactsAt(c).runs && FactsAt(c').fields == FactsAt(c).fields
      && |OwnReturns(c')| == |OwnReturns(c)| + 1 && ForeignReturns(c') == ForeignReturns(c)
      && UnblockCount(c'.decisions) == UnblockCount(c.decisions)
      && (OwnReturns(c) == [] ==> Free(c', at.clock.now) && FactsAt(c').brief.hash.None?)
  {
    hide DeriveMine, FactsOf, CardFlow, Filter, LandingBlock, Deletion, IsRejected, BriefOrdered, OwnReturns, ForeignReturns;
    var d := DecisionFrom(c, Returning(h), at);
    FreeShows(c, now, at);
    DecidedFacts(c, d, now);
    VerdictShows(c.events, c.decisions, d, h);
    EarlyFlow(FactsAt(c), c.decisions, at.clock, at.timeout);
    assert Allowed(c, Returning(h), at);
    OwnByDecision(c, Returning(h), at, now);
    OtherKeepsFate(c.decisions, d);
    SinceUnblockSnoc(c.decisions, d, now);
    if OwnReturns(c) == [] {
      FirstReturnKeepsBlock(c, d, FactsAt(c), FactsAt(AppendDecision(c, d)));
    }
  }

  lemma FirstReturnKeepsBlock(c: Card, d: Decision, f: Facts, f': Facts)
    requires d.kind.BriefReturned? && OwnReturns(c) == [] && f.brief.recorded == RecordedBy(c.events)
    requires f' == f.(brief := f'.brief) && f'.brief.recorded == f.brief.recorded
    ensures LandingBlock(f', c.decisions + [d]) == LandingBlock(f, c.decisions)
  {
    FilterSnoc(c.decisions, d, ReturnOf(RecordedBy(c.events)));
    FilterSnoc(c.decisions, d, OfKind(ChangesRequested));
    FilterSnoc(c.decisions, d, OfKind(BlockedByDave));
    SnocParts(c.decisions, d);
    OwnStrikesNot(c);
    OwnStrikesNot(AppendDecision(c, d));
    hide Filter, Ordered, Best, LiveAfter, ReturnStrikes;
  }

  lemma FewStrikeNot(rows: seq<Decision>)
    requires |rows| < STRIKE_LIMIT
    ensures Ledger.Strikes(Ordered(rows, DecisionTs)) == []
  {
    OrderedMembers(rows, DecisionTs);
    assert |Ordered(rows, DecisionTs)| == |multiset(Ordered(rows, DecisionTs))| == |multiset(rows)|;
  }

  lemma OwnStrikesNot(c: Card)
    requires |OwnReturns(c)| < STRIKE_LIMIT
    ensures ReturnStrikes(c.decisions, RecordedBy(c.events)) == []
  {
    FewStrikeNot(OwnReturns(c));
  }

  // ---------- events ----------

  /** Dave may write any unused text on a free card in a briefing column. */
  lemma MayWrite(c: Card, now: int, h: Hash, at: Moment)
    requires Free(c, now) && now < at.clock.now && at.main.None? && Unused(c, h)
    requires CardFlow(FactsAt(c), c.decisions, at.clock, at.timeout).column in Briefable
    ensures Allowed(c, Writing(h), at)
    ensures var c' := Next(c, Writing(h), at);
      && Free(c', at.clock.now) && FactsAt(c').brief.hash == Some(h) && !FactsAt(c').brief.approved
      && FactsAt(c').runs == FactsAt(c).runs && FactsAt(c').fields == FactsAt(c).fields && c'.receipts == c.receipts
      && c'.decisions == c.decisions && RecordedBy(c'.events) == RecordedBy(c.events) + {h}
      && OwnReturns(c') == OwnReturns(c) && ForeignReturns(c') == ForeignReturns(c)
  {
    hide DeriveMine, FactsOf, CardFlow, Filter, Latest, Blocks, Deletion, IsRejected, BriefOrdered;
    FreeShows(c, now, at);
    ShownIsRecorded(c, now);
    assert Allowed(c, Writing(h), at);
    OwnByEvent(c, Writing(h), at);
    WrittenFacts(c, now, EventOf(c, Writing(h), at));
    SameReturnsSameBlock(c, AppendEvent(c, EventOf(c, Writing(h), at)), now, at.clock.now);
  }

  lemma ShownIsRecorded(c: Card, now: int)
    requires InOrder(c, now)
    ensures FactsAt(c).brief.hash.Some? ==> FactsAt(c).brief.hash.value in RecordedBy(c.events)
  {
    hide BriefOrdered;
    BriefOfSorted(c, now);
    if FactsAt(c).brief.hash.Some? {
      ShownBriefIsRecorded(c.events, c.decisions);
    }
  }

  lemma WrittenFacts(c: Card, now: int, e: Event)
    requires InOrder(c, now) && e.BriefEvent? && now <= e.ts && Unused(c, e.hash)
    ensures var c' := AppendEvent(c, e);
      && InOrder(c', e.ts) && RecordedBy(c'.events) == RecordedBy(c.events) + {e.hash}
      && FactsAt(c').fields == FactsAt(c).fields && FactsAt(c').runs == FactsAt(c).runs && FactsAt(c').holds == FactsAt(c).holds
      && FactsAt(c').brief.hash == Some(e.hash) && !FactsAt(c').brief.approved
  {
    hide BriefOrdered, Latest;
    AppendEventInOrder(c, e, now);
    FactsInOrder(c, now);
    FactsInOrder(AppendEvent(c, e), e.ts);
    FilterSnoc(c.events, e, IsBrief);
    SnocParts(c.events, e);
    NewBrief(c.events, e, c.decisions);
  }

  lemma NewBrief(events: seq<Event>, e: Event, ds: seq<Decision>)
    requires e.BriefEvent? && e.hash !in RecordedBy(events) && Unnamed(ds, e.hash)
    ensures BriefOrdered(events + [e], ds).hash == Some(e.hash) && !BriefOrdered(events + [e], ds).approved
  {
    hide IndexOf, Latest;
    NoVerdictYet(ds, e.hash);
    FilterSnoc(events, e, IsBrief);
    FilterMembers(events, IsBrief);
    assert e !in events;
    IndexOfSplit(events, e, []);
    assert events + [e] + [] == events + [e];
  }

  lemma SameReturnsSameBlock(c: Card, c': Card, now: int, now': int)
    requires InOrder(c, now) && InOrder(c', now') && c'.decisions == c.decisions && OwnReturns(c') == OwnReturns(c)
    requires FactsAt(c').runs == FactsAt(c).runs && FactsAt(c').holds == FactsAt(c).holds
    requires FactsAt(c).fields.deadline.None? || FactsAt(c').fields.deadline == FactsAt(c).fields.deadline
    ensures LandingBlock(FactsAt(c'), c'.decisions) == LandingBlock(FactsAt(c), c.decisions)
  {
    hide Filter, Ordered, Best, LiveAfter, SinceUnblock, FactsOf, BriefOrdered;
    RecordedFacts(c, now);
    RecordedFacts(c', now');
  }

  lemma RecordedFacts(c: Card, now: int)
    requires InOrder(c, now)
    ensures FactsAt(c).brief.recorded == RecordedBy(c.events)
  {
    FactsInOrder(c, now);
    RecordedHashes(c.events, c.decisions);
  }

  /** A deadline there is may be taken off any card that is not rejected and has no run out. */
  lemma MayUndate(c: Card, now: int, at: Moment)
    requires InOrder(c, now) && now < at.clock.now && at.main.None? && !IsRejected(c.decisions)
    requires FactsAt(c).fields.deadline.Some?
    requires forall i | 0 <= i < |FactsAt(c).runs| :: FactsAt(c).runs[i].outcome.Some?
    ensures Allowed(c, Undating, at)
    ensures var c' := Next(c, Undating, at);
      && InOrder(c', at.clock.now) && c'.decisions == c.decisions && c'.receipts == c.receipts && c'.id == c.id
      && FactsAt(c') == FactsAt(c).(fields := FactsAt(c).fields.(deadline := None))
      && RecordedBy(c'.events) == RecordedBy(c.events)
  {
    hide DeriveMine, FactsOf, CardFlow, CardBlock, Filter, Deletion, IsRejected, EditableFields;
    Shows(c, at);
    SettledFlow(FactsAt(c), c.decisions, at.clock, at.timeout);
    ViewEditable(c, at);
    DeadlineEditable(Shown(c, at).column, Any(Shown(c, at).runs, IsResearch));
    UndatedFacts(c, now, EventOf(c, Undating, at));
  }

  lemma SettledFlow(f: Facts, ds: seq<Decision>, clock: Clock, timeout: int)
    requires forall i | 0 <= i < |f.runs| :: f.runs[i].outcome.Some?
    ensures var flow := CardFlow(f, ds, clock, timeout);
      && (flow.column.Backlog? || flow.column.Refine? || flow.column.Todo? || flow.column.InReview?)
      && (f.brief.hash.Some? && f.brief.approved ==> flow.column.Todo? || flow.column.InReview?)
  {
    hide Latest, ReviewAfter;
    FilterMembers(f.runs, IsLiveResearch);
    var live := Filter(f.runs, IsLiveResearch);
    assert live != [] ==> Last(live) in f.runs;
  }

  lemma DeadlineEditable(column: Column, hasResearchRun: bool)
    requires column.Backlog? || column.Refine? || column.Todo? || column.InReview? || column.Blocked?
    ensures DeadlineField in EditableFields(column, hasResearchRun)
  {
    assert DeadlineField in FieldNames;
  }

  lemma UndatedFacts(c: Card, now: int, e: Event)
    requires InOrder(c, now) && e.EditedEvent? && e.changes == NoDeadline && now <= e.ts
    ensures var c' := AppendEvent(c, e);
      && InOrder(c', e.ts) && FactsAt(c') == FactsAt(c).(fields := FactsAt(c).fields.(deadline := None))
      && RecordedBy(c'.events) == RecordedBy(c.events)
  {
    hide BriefOrdered;
    AppendEventInOrder(c, e, now);
    FactsInOrder(c, now);
    FactsInOrder(AppendEvent(c, e), e.ts);
    FilterSnoc(c.events, e, IsBrief);
    SnocParts(c.events, e);
    QuietEventKeepsBrief(c.events, e, c.decisions);
  }

  // ---------- freeing a card ----------

  /** Of its decisions, freeing a card adds at most a restore and an unblock. */
  ghost predicate SameRecord(c: Card, d: Card) {
    && d.id == c.id && d.receipts == c.receipts && RecordedBy(d.events) == RecordedBy(c.events)
    && OwnReturns(d) == OwnReturns(c) && ForeignReturns(d) == ForeignReturns(c)
    && (forall h | Unused(c, h) :: Unused(d, h))
    && (forall run | UnusedRun(c, run) :: UnusedRun(d, run))
  }

  /** First, a deleted card is restored. */
  lemma CanBeRestored(c: Card, start: int, day: Calendar, timeout: int) returns (d: Card, now: int)
    requires InOrder(c, start) && !IsRejected(c.decisions)
    ensures Reaches(c, start, d, now, day) && InOrder(d, now) && !IsRejected(d.decisions) && Deletion(d.decisions).None?
    ensures SameRecord(c, d) && FactsAt(d) == FactsAt(c)
    ensures UnblockCount(d.decisions) == UnblockCount(c.decisions)
    ensures HeldByRecord(d.decisions) <==> HeldByRecord(c.decisions)
  {
    hide Reaches, Allowed, Filter, FactsOf, IsRejected, Deletion, HeldByRecord, OwnReturns, ForeignReturns, UnblockCount;
    ReachesItself(c, start, day);
    d, now := c, start;
    if Deletion(c.decisions).Some? {
      var at := OnDay(start + 1, day, timeout);
      MayRestore(c, start, at);
      ReachesNext(c, start, c, start, Restoring, at, day);
      QuietDecision(c, start, DecisionFrom(c, Restoring, at));
      d, now := Next(c, Restoring, at), at.clock.now;
    }
  }

  /** Then its deadline is taken off, if it has one. */
  lemma CanBeUndated(c: Card, start: int, day: Calendar, timeout: int) returns (d: Card, now: int)
    requires InOrder(c, start) && !IsRejected(c.decisions)
    requires forall i | 0 <= i < |FactsAt(c).runs| :: FactsAt(c).runs[i].outcome.Some?
    ensures Reaches(c, start, d, now, day) && InOrder(d, now) && d.decisions == c.decisions
    ensures SameRecord(c, d) && FactsAt(d) == FactsAt(c).(fields := FactsAt(c).fields.(deadline := None))
  {
    hide Reaches, Allowed, Filter, FactsOf, IsRejected;
    ReachesItself(c, start, day);
    d, now := c, start;
    if FactsAt(c).fields.deadline.Some? {
      var at := OnDay(start + 1, day, timeout);
      MayUndate(c, start, at);
      ReachesNext(c, start, c, start, Undating, at, day);
      d, now := Next(c, Undating, at), at.clock.now;
    }
  }

  /** Then it is unblocked if anything blocks it. */
  lemma CanBeUnblocked(c: Card, start: int, day: Calendar, timeout: int) returns (d: Card, now: int)
    requires InOrder(c, start) && !IsRejected(c.decisions) && Deletion(c.decisions).None? && FactsAt(c).fields.deadline.None?
    ensures Reaches(c, start, d, now, day) && Free(d, now) && SameRecord(c, d) && FactsAt(d) == FactsAt(c)
    ensures UnblockCount(d.decisions) == UnblockCount(c.decisions) + if LandingBlock(FactsAt(c), c.decisions).Some? then 1 else 0
  {
    hide Reaches, Allowed, Filter, FactsOf, IsRejected, Deletion, OwnReturns, ForeignReturns, UnblockCount, LandingBlock, HeldByRecord;
    ReachesItself(c, start, day);
    d, now := c, start;
    if LandingBlock(FactsAt(c), c.decisions).Some? {
      var at := OnDay(start + 1, day, timeout);
      MayUnblock(c, start, at);
      ReachesNext(c, start, c, start, Unblocking, at, day);
      QuietDecision(c, start, DecisionFrom(c, Unblocking, at));
      d, now := Next(c, Unblocking, at), at.clock.now;
    }
  }

  /** Any card that is not rejected and has no run out can be freed. */
  lemma CanBeFreed(c: Card, start: int, day: Calendar, timeout: int) returns (d: Card, now: int)
    requires InOrder(c, start) && !IsRejected(c.decisions)
    requires forall i | 0 <= i < |FactsAt(c).runs| :: FactsAt(c).runs[i].outcome.Some?
    ensures Reaches(c, start, d, now, day) && Free(d, now) && SameRecord(c, d)
    ensures FactsAt(d) == FactsAt(c).(fields := FactsAt(c).fields.(deadline := None))
    ensures |OwnReturns(c)| < STRIKE_LIMIT && FactsAt(c).runs == [] && FactsAt(c).holds == [] ==>
      UnblockCount(d.decisions) == UnblockCount(c.decisions) + if HeldByRecord(c.decisions) then 1 else 0
  {
    hide Reaches, InOrder, FactsOf, IsRejected, Deletion, LandingBlock, HeldByRecord, OwnReturns, ForeignReturns, UnblockCount,
      RecordedBy, Unused;
    var r, n := CanBeRestored(c, start, day, timeout);
    var u, m := CanBeUndated(r, n, day, timeout);
    ReachesOn(c, start, r, n, u, m, day);
    d, now := CanBeUnblocked(u, m, day, timeout);
    ReachesOn(c, start, u, m, d, now, day);
    if |OwnReturns(c)| < STRIKE_LIMIT && FactsAt(c).runs == [] && FactsAt(c).holds == [] {
      OnlyTheRecordBlocks(u, m);
    }
  }

  /** A decision that names no text and is no change request or block. */
  lemma QuietDecision(c: Card, now: int, d: Decision)
    requires InOrder(c, now) && now < d.ts && (d.kind.Restored? || d.kind.Unblocked?) && d.briefHash.None?
    ensures var c' := AppendDecision(c, d);
      && OwnReturns(c') == OwnReturns(c) && ForeignReturns(c') == ForeignReturns(c)
      && UnblockCount(c'.decisions) == UnblockCount(c.decisions) + (if d.kind.Unblocked? then 1 else 0)
      && (d.kind.Restored? ==> (HeldByRecord(c'.decisions) <==> HeldByRecord(c.decisions)))
      && (IsRejected(c'.decisions) <==> IsRejected(c.decisions))
      && (forall h | Unused(c, h) :: Unused(c', h))
  {
    hide Filter;
    FilterSnoc(c.decisions, d, ReturnOf(RecordedBy(c.events)));
    FilterSnoc(c.decisions, d, ForeignTo(RecordedBy(c.events)));
    FilterSnoc(c.decisions, d, OfKind(Rejected));
    SinceUnblockSnoc(c.decisions, d, now);
    TimesSnoc(c.decisions, d, ChangesRequested);
    if d.kind.Restored? {
      HeldSnoc(c.decisions, d);
    }
  }

  lemma HeldSnoc(ds: seq<Decision>, d: Decision)
    requires SinceUnblock(ds + [d]) == SinceUnblock(ds)
    requires TimesOfKind(ds + [d], ChangesRequested) == TimesOfKind(ds, ChangesRequested)
    ensures HeldByRecord(ds) ==> HeldByRecord(ds + [d])
    ensures !d.kind.BlockedByDave? && HeldByRecord(ds + [d]) ==> HeldByRecord(ds)
  {
    hide SinceUnblock, TimesOfKind, Lifted;
    if i :| 0 <= i < |ds| && ds[i].kind.BlockedByDave? && LaterThan(ds[i].ts, SinceUnblock(ds)) {
      assert (ds + [d])[i] == ds[i];
    }
    if i :| 0 <= i < |ds + [d]| && (ds + [d])[i].kind.BlockedByDave? && LaterThan((ds + [d])[i].ts, SinceUnblock(ds)) {
      assert i < |ds| ==> ds[i] == (ds + [d])[i];
    }
  }
  // ---------- a block carried over from an earlier card ----------

  /** The record itself blocks: a block of Dave's or a second change request no unblock has reached. */
  ghost predicate HeldByRecord(ds: seq<Decision>) {
    || !Lifted(TimesOfKind(ds, ChangesRequested), SinceUnblock(ds))
    || exists i | 0 <= i < |ds| :: ds[i].kind.BlockedByDave? && LaterThan(ds[i].ts, SinceUnblock(ds))
  }

  predicate LaterThan(t: int, since: Option<int>) {
    since.None? || t > since.value
  }

  /** With no run, no hold, no deadline and at most one return of its own, only its record blocks a card. */
  lemma OnlyTheRecordBlocks(c: Card, now: int)
    requires InOrder(c, now) && FactsAt(c).runs == [] && FactsAt(c).holds == [] && FactsAt(c).fields.deadline.None?
    requires |OwnReturns(c)| < STRIKE_LIMIT
    ensures LandingBlock(FactsAt(c), c.decisions).Some? <==> HeldByRecord(c.decisions)
  {
    hide LandingBlock, HeldByRecord, FactsOf;
    if HeldByRecord(c.decisions) {
      var at := Moment(Clock(now, 0), None, 0);
      RecordBlocks(c, at);
      UndatedBlock(FactsAt(c), c.decisions, at.clock, at.timeout);
    } else {
      UnheldNotBlocked(c, now);
    }
  }

  lemma UnheldNotBlocked(c: Card, now: int)
    requires InOrder(c, now) && FactsAt(c).runs == [] && FactsAt(c).holds == [] && !HeldByRecord(c.decisions)
    requires |OwnReturns(c)| < STRIKE_LIMIT
    ensures LandingBlock(FactsAt(c), c.decisions).None?
  {
    hide Lifted, SinceUnblock, OwnReturns, Ordered, Filter, FactsOf;
    var ds, f := c.decisions, FactsAt(c);
    var blocks, since := Filter(ds, OfKind(BlockedByDave)), SinceUnblock(ds);
    FilterMembers(ds, OfKind(BlockedByDave));
    RecordedFacts(c, now);
    OwnStrikesNot(c);
    NoRunsNoStrikes();
    LiftedNotLive(ds, now);
    var changes, held := DecisionTriggers(ChangeStrikes(ds), ChangesTwice), DecisionTriggers(blocks, ByDave);
    assert Triggers(ds, f.runs, f.brief.recorded, f.fields, 0, true, f.holds) == changes + held;
    forall t <- changes + held ensures !LiveAfter(since)(t) {
      if t in held {
        var i :| 0 <= i < |held| && held[i] == t;
        assert blocks[i] in ds;
      }
    }
    FilterNone(changes + held, LiveAfter(since));
  }

  lemma NoRunsNoStrikes()
    ensures DeclineStrikes([]) == []
  {
  }

  lemma LiftedNotLive(ds: seq<Decision>, now: int)
    requires Sorted(ds, DecisionTs) && Lifted(TimesOfKind(ds, ChangesRequested), SinceUnblock(ds))
    ensures forall t <- DecisionTriggers(ChangeStrikes(ds), ChangesTwice) :: !LiveAfter(SinceUnblock(ds))(t)
  {
    hide SinceUnblock, Filter;
    LatestInOrder(ds, OfKind(ChangesRequested));
    FilterSorted(ds, DecisionTs, OfKind(ChangesRequested));
    var rows := Filter(ds, OfKind(ChangesRequested));
    assert |TimesOfKind(ds, ChangesRequested)| == |rows|;
    forall t <- DecisionTriggers(ChangeStrikes(ds), ChangesTwice) ensures !LiveAfter(SinceUnblock(ds))(t) {
      var i :| 0 <= i < |rows| && rows[i].ts == t.ts;
      assert DecisionTs(rows[i]) <= DecisionTs(rows[|rows| - 1]);
      assert Last(TimesOfKind(ds, ChangesRequested)) == Last(rows).ts;
    }
  }

  /** Such a record blocks any card that stands in order, whatever its ledger says. */
  lemma RecordBlocks(c: Card, at: Moment)
    requires InOrder(c, at.clock.now) && HeldByRecord(c.decisions)
    ensures CardBlock(FactsAt(c), c.decisions, at.clock, at.timeout).Some?
  {
    hide FactsOf, CardFlow, Lifted, SinceUnblock, Filter, Blocks;
    if CardBlock(FactsAt(c), c.decisions, at.clock, at.timeout).None? {
      UnblockedCardLifts(c, at);
      var i :| 0 <= i < |c.decisions| && c.decisions[i].kind.BlockedByDave? && LaterThan(c.decisions[i].ts, SinceUnblock(c.decisions));
      BlockIsATrigger(c.decisions, i, FactsAt(c), at.clock.today, CardFlow(FactsAt(c), c.decisions, at.clock, at.timeout).approved.Some?);
    }
  }

  lemma BlockIsATrigger(ds: seq<Decision>, i: nat, f: Facts, today: int, landing: bool)
    requires i < |ds| && ds[i].kind.BlockedByDave? && LaterThan(ds[i].ts, SinceUnblock(ds))
    ensures Blocks(ds, f.runs, f.brief.recorded, f.fields, today, landing, f.holds).Some?
  {
    hide Filter, SinceUnblock, Blocks, ReturnStrikes, ChangeStrikes, DeclineStrikes, DeadlineTriggers;
    var rows := Filter(ds, OfKind(BlockedByDave));
    FilterMembers(ds, OfKind(BlockedByDave));
    assert ds[i] in rows;
    var k :| 0 <= k < |rows| && rows[k] == ds[i];
    var all := Triggers(ds, f.runs, f.brief.recorded, f.fields, today, landing, f.holds);
    var before := DecisionTriggers(ReturnStrikes(ds, f.brief.recorded), ReturnedTwice)
      + DecisionTriggers(ChangeStrikes(ds), ChangesTwice) + RunTriggers(DeclineStrikes(f.runs), DeclinedTwice);
    assert all == before + DecisionTriggers(rows, ByDave) + (f.holds + DeadlineTriggers(f.fields, today, landing));
    assert all[|before| + k] == DecisionTriggers(rows, ByDave)[k];
    BlockedByTrigger(ds, f.runs, f.brief.recorded, f.fields, today, landing, f.holds, |before| + k);
  }
}
