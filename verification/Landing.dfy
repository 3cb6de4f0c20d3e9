/** No card is ever stuck: from any ledger that stands in order, accepted steps lead to an approved
    page that is landing, exactly when Dave has not rejected the card. */
module Landing {
  import opened Seqs
  import opened Ledger
  import opened Life
  import opened ResearchRuns
  import opened Approval
  import opened Strikes
  import opened Paths

  // ---------- the runs still out ----------

  /** The receipts with every pick that has no outcome yet failed. */
  function FailingOpen(events: seq<Event>, receipts: map<RunId, Receipt>): map<RunId, Receipt> {
    if events == [] then receipts
    else
      var rest := FailingOpen(Init(events), receipts);
      if IsPick(Last(events)) && ReadOutcome(Last(events).runId, receipts).None?
      then rest[Last(events).runId := Receipt(Some(RunOutcome.Failed), false)] else rest
  }

  lemma {:induction false} FailingOpenSettles(events: seq<Event>, receipts: map<RunId, Receipt>)
    ensures var after := FailingOpen(events, receipts);
      && (forall run | run in receipts :: run in after)
      && (forall run | run in after :: (run in receipts && after[run] == receipts[run])
            || (ReadOutcome(run, receipts).None? && after[run].outcome == Some(RunOutcome.Failed)))
      && (forall i | 0 <= i < |events| && IsPick(events[i]) :: ReadOutcome(events[i].runId, after).Some?)
  {
    if events != [] {
      FailingOpenSettles(Init(events), receipts);
      forall i | 0 <= i < |events| && IsPick(events[i]) ensures ReadOutcome(events[i].runId, FailingOpen(events, receipts)).Some? {
        assert i < |events| - 1 ==> events[i] == Init(events)[i];
      }
    }
  }

  lemma {:induction false} AllOut(events: seq<Event>, receipts: map<RunId, Receipt>)
    requires forall i | 0 <= i < |events| && IsPick(events[i]) :: ReadOutcome(events[i].runId, receipts).Some?
    ensures forall i | 0 <= i < |RunsIn(events, receipts)| :: RunsIn(events, receipts)[i].outcome.Some?
  {
    if events != [] {
      AllOut(Init(events), receipts);
    }
  }

  /** Runs of the same purpose and receipt read the same. */
  lemma {:induction false} OtherReceipts(events: seq<Event>, receipts: map<RunId, Receipt>, after: map<RunId, Receipt>)
    requires forall i | 0 <= i < |events| && IsPick(events[i]) ::
      (events[i].runId in after <==> events[i].runId in receipts)
      && (events[i].runId in after ==> after[events[i].runId] == receipts[events[i].runId])
    ensures RunsIn(events, after) == RunsIn(events, receipts)
  {
    if events != [] {
      forall i | 0 <= i < |Init(events)| ensures Init(events)[i] == events[i] {
      }
      OtherReceipts(Init(events), receipts, after);
    }
  }

  lemma FailedUnused(c: Card, run: RunId)
    requires UnusedRun(c, run)
    ensures run !in FailingOpen(c.events, c.receipts)
  {
    FailingOpenSettles(c.events, c.receipts);
    FailingNames(c.events, c.receipts, run);
  }

  lemma {:induction false} FailingNames(events: seq<Event>, receipts: map<RunId, Receipt>, run: RunId)
    requires run !in receipts && forall i | 0 <= i < |events| && IsPick(events[i]) :: events[i].runId != run
    ensures run !in FailingOpen(events, receipts)
  {
    if events != [] {
      FailingNames(Init(events), receipts, run);
    }
  }

  /** The runs still out may all fail, and nothing else changes. */
  lemma CanCloseRuns(c: Card, start: int, day: Calendar, timeout: int) returns (d: Card, now: int)
    requires InOrder(c, start)
    ensures Reaches(c, start, d, now, day) && InOrder(d, now) && d.events == c.events && d.decisions == c.decisions
    ensures forall i | 0 <= i < |FactsAt(d).runs| :: FactsAt(d).runs[i].outcome.Some?
    ensures forall run | UnusedRun(c, run) :: UnusedRun(d, run)
  {
    hide Reaches, DeriveMine;
    ReachesItself(c, start, day);
    var at := OnDay(start + 1, day, timeout);
    var closing := Settle(FailingOpen(c.events, c.receipts));
    FailingOpenSettles(c.events, c.receipts);
    assert Allowed(c, closing, at);
    ReachesNext(c, start, c, start, closing, at, day);
    d, now := Next(c, closing, at), at.clock.now;
    assert InOrder(d, now);
    AllOut(d.events, d.receipts);
    FactsInOrder(d, now);
    forall run | UnusedRun(c, run) ensures UnusedRun(d, run) {
      FailedUnused(c, run);
    }
  }

  // ---------- from a free card to its page ----------

  function PickTime(f: Fields, now: int): int {
    if f.researchOn.Some? then Max(now + 1, f.researchOn.value.due) else now + 1
  }

  function Picking(run: RunId): Act { PickCard(run, ResearchRun) }
  function Delivering(receipts: map<RunId, Receipt>, run: RunId): Act {
    Settle(receipts[run := Receipt(Some(Artifact), true)])
  }
  function Accepting(page: Hash): Act { Decide(Approve, None, Some(page), false) }

  /** Free, with an approved brief and no run out. */
  ghost predicate Ready(c: Card, now: int) {
    && Free(c, now) && FactsAt(c).brief.hash.Some? && FactsAt(c).brief.approved
    && forall i | 0 <= i < |FactsAt(c).runs| :: FactsAt(c).runs[i].outcome.Some?
  }

  /** A free card without an approved brief takes a new text and its approval. */
  lemma CanBeBriefed(c: Card, start: int, h: Hash, day: Calendar, timeout: int) returns (d: Card, now: int)
    requires Free(c, start) && Unused(c, h)
    requires forall i | 0 <= i < |FactsAt(c).runs| :: FactsAt(c).runs[i].outcome.Some?
    ensures Reaches(c, start, d, now, day) && Ready(d, now)
    ensures forall run | UnusedRun(c, run) :: UnusedRun(d, run)
  {
    hide Reaches, Allowed, FactsOf, Free, UnusedRun;
    ReachesItself(c, start, day);
    d, now := c, start;
    if FactsAt(c).brief.hash.None? || !FactsAt(c).brief.approved {
      var at, at' := OnDay(start + 1, day, timeout), OnDay(start + 2, day, timeout);
      EarlyFlow(FactsAt(c), c.decisions, at.clock, at.timeout);
      MayWrite(c, start, h, at);
      ReachesNext(c, start, c, start, Writing(h), at, day);
      d := Next(c, Writing(h), at);
      MayApprove(d, start + 1, h, at');
      ReachesNext(c, start, d, start + 1, Approving(h), at', day);
      WritingKeepsRuns(c, h, at);
      WritingKeepsRuns(d, h, at');
      d, now := Next(d, Approving(h), at'), at'.clock.now;
    }
  }

  lemma WritingKeepsRuns(c: Card, h: Hash, at: Moment)
    ensures forall run | UnusedRun(c, run) :: UnusedRun(Next(c, Writing(h), at), run) && UnusedRun(Next(c, Approving(h), at), run)
  {
  }

  /** A ready card in Todo takes a research pick. */
  lemma MayPickResearch(c: Card, now: int, run: RunId, at: Moment)
    requires Ready(c, now) && UnusedRun(c, run) && at.main.None? && now < at.clock.now && IsDue(FactsAt(c).fields, at.clock.now)
    requires CardFlow(FactsAt(c), c.decisions, at.clock, at.timeout).column.Todo?
    ensures Allowed(c, Picking(run), at)
    ensures Next(c, Picking(run), at)
         == AppendEvent(c, PickedEvent(at.clock.now, Run(run), run, FactsAt(c).brief.hash, ResearchRun))
  {
    hide DeriveMine, CardFlow, FactsOf;
    FreeShows(c, now, at);
    FactsInOrder(c, now);
    RunIds(c.events, c.receipts, run);
    assert at.(main := None) == at;
  }

  lemma {:induction false} RunIds(events: seq<Event>, receipts: map<RunId, Receipt>, run: RunId)
    requires forall i | 0 <= i < |events| && IsPick(events[i]) :: events[i].runId != run
    ensures !Any(RunsIn(events, receipts), HasRunId(run))
  {
    if events != [] {
      RunIds(Init(events), receipts, run);
      var before, runs := RunsIn(Init(events), receipts), RunsIn(events, receipts);
      forall i | 0 <= i < |runs| ensures !HasRunId(run)(runs[i]) {
        assert i < |before| ==> runs[i] == before[i];
      }
    }
  }

  /** The pick with its page delivered: one more live run, and no more triggers. */
  lemma DeliveredFacts(c: Card, e: Event, now: int, receipts: map<RunId, Receipt>)
    requires InOrder(c, now) && now <= e.ts && IsPick(e) && e.purpose.ResearchRun? && UnusedRun(c, e.runId)
    requires receipts == c.receipts[e.runId := Receipt(Some(Artifact), true)]
    ensures var d := AppendEvent(c, e).(receipts := receipts);
      && InOrder(d, e.ts) && FactsAt(d) == FactsAt(c).(runs := FactsAt(c).runs + [RunOf(e, receipts)])
  {
    hide BriefOrdered, RunOf;
    var d := AppendEvent(c, e).(receipts := receipts);
    AppendEventInOrder(c, e, now);
    FactsInOrder(c, now);
    FactsInOrder(d, e.ts);
    OtherReceipts(c.events, c.receipts, receipts);
    RunsAppend(c.events, e, receipts);
    QuietEventKeepsBrief(c.events, e, c.decisions);
    SnocParts(c.events, e);
  }

  lemma PageKeepsBlock(f: Facts, r: CardRun, ds: seq<Decision>)
    requires !IsDecline(r)
    ensures LandingBlock(f.(runs := f.runs + [r]), ds) == LandingBlock(f, ds)
  {
    FilterSnoc(f.runs, r, IsDecline);
    hide Filter, Ordered, Best;
  }

  lemma DeliveredFlow(f: Facts, r: CardRun, ds: seq<Decision>, now: int, clock: Clock, timeout: int)
    requires f.brief.hash.Some? && f.brief.approved && IsLiveResearch(r) && r.outcome.Some? && now <= r.ts
    requires forall i | 0 <= i < |ds| :: ds[i].ts <= now
    ensures CardFlow(f.(runs := f.runs + [r]), ds, clock, timeout) == Flow(InReview, None, None)
  {
    FilterSnoc(f.runs, r, IsLiveResearch);
    forall d <- ds ensures !ReviewAfter(r.ts)(d) {
      var i :| 0 <= i < |ds| && ds[i] == d;
    }
    FilterNone(ds, ReviewAfter(r.ts));
  }

  /** In Review with no verdict, free: the page may be approved. */
  ghost predicate InReviewNow(c: Card, now: int) {
    Free(c, now) && forall clock, timeout :: CardFlow(FactsAt(c), c.decisions, clock, timeout) == Flow(InReview, None, None)
  }

  /** A ready card in Todo is researched, and its page delivered. */
  lemma CanBeResearched(c: Card, start: int, run: RunId, day: Calendar, timeout: int) returns (d: Card, now: int)
    requires Ready(c, start) && UnusedRun(c, run)
    requires forall clock: Clock :: CardFlow(FactsAt(c), c.decisions, clock, timeout).column.Todo?
    ensures Reaches(c, start, d, now, day) && InReviewNow(d, now)
  {
    hide Reaches, Allowed, FactsOf, CardFlow, IsRejected, Deletion, LandingBlock, RunsIn;
    ReachesItself(c, start, day);
    var at := OnDay(PickTime(FactsAt(c).fields, start), day, timeout);
    var at' := OnDay(at.clock.now + 1, day, timeout);
    var e := PickedEvent(at.clock.now, Run(run), run, FactsAt(c).brief.hash, ResearchRun);
    MayPickResearch(c, start, run, at);
    ReachesNext(c, start, c, start, Picking(run), at, day);
    var picked := AppendEvent(c, e);
    SettlesUnused(picked, run, at');
    ReachesNext(c, start, picked, at.clock.now, Delivering(c.receipts, run), at', day);
    d, now := Next(picked, Delivering(c.receipts, run), at'), at'.clock.now;
    DeliveredFacts(c, e, start, d.receipts);
    PageKeepsBlock(FactsAt(c), RunOf(e, d.receipts), c.decisions);
    forall clock, timeout: int ensures CardFlow(FactsAt(d), d.decisions, clock, timeout) == Flow(InReview, None, None) {
      DeliveredFlow(FactsAt(c), RunOf(e, d.receipts), c.decisions, start, clock, timeout);
    }
  }

  lemma SettlesUnused(c: Card, run: RunId, at: Moment)
    requires run !in c.receipts
    ensures Allowed(c, Delivering(c.receipts, run), at)
  {
  }

  lemma CanBeAccepted(c: Card, start: int, page: Hash, day: Calendar, timeout: int) returns (d: Card, now: int)
    requires InReviewNow(c, start)
    ensures Reaches(c, start, d, now, day) && Landed(d)
  {
    hide Reaches, FactsOf, CardFlow, IsRejected, Deletion, LandingBlock, DeriveMine, Landed, InOrder;
    ReachesItself(c, start, day);
    var at := OnDay(start + 1, day, timeout);
    FreeShows(c, start, at);
    assert CardFlow(FactsAt(c), c.decisions, at.clock, at.timeout).column.InReview?;
    assert Allowed(c, Accepting(page), at);
    ReachesNext(c, start, c, start, Accepting(page), at, day);
    ApprovalLands(c, Accepting(page), at, start);
    d, now := Next(c, Accepting(page), at), at.clock.now;
  }

  // ---------- the three ways a ready card stands ----------

  /** With no run out, what the flow of an approved brief shows does not depend on the clock. */
  lemma ReadyFlow(f: Facts, ds: seq<Decision>)
    requires f.brief.hash.Some? && f.brief.approved && forall i | 0 <= i < |f.runs| :: f.runs[i].outcome.Some?
    ensures forall a, b: Clock, s, t: int :: CardFlow(f, ds, a, s) == CardFlow(f, ds, b, t)
  {
    hide Latest, ReviewAfter;
    FilterMembers(f.runs, IsLiveResearch);
    var live := Filter(f.runs, IsLiveResearch);
    assert live != [] ==> Last(live) in f.runs;
  }

  /** A free card in review under a verdict has landed. */
  lemma ReviewedHasLanded(c: Card, now: int, clock: Clock, timeout: int)
    requires Free(c, now) && CardFlow(FactsAt(c), c.decisions, clock, timeout).column.InReview?
    requires CardFlow(FactsAt(c), c.decisions, clock, timeout).approved.Some?
    ensures Landed(c)
  {
    hide FactsOf, IsRejected, Deletion, LandingBlock, Filter, Latest;
    var since := Last(Filter(FactsAt(c).runs, IsLiveResearch)).ts;
    LatestInOrder(c.decisions, ReviewAfter(since));
    FilterMembers(c.decisions, ReviewAfter(since));
    var rows := Filter(c.decisions, ReviewAfter(since));
    assert rows != [] ==> Last(rows) in rows;
  }

  lemma ReadyCanLand(c: Card, start: int, run: RunId, page: Hash, day: Calendar, timeout: int) returns (d: Card, now: int)
    requires Ready(c, start) && UnusedRun(c, run)
    ensures Reaches(c, start, d, now, day) && Landed(d)
  {
    hide Reaches, FactsOf, CardFlow, Free, Landed, UnusedRun;
    var clock := Clock(start, day(start));
    ReadyFlow(FactsAt(c), c.decisions);
    SettledFlow(FactsAt(c), c.decisions, clock, timeout);
    var flow := CardFlow(FactsAt(c), c.decisions, clock, timeout);
    ReachesItself(c, start, day);
    if flow.column.Todo? {
      var r, n := CanBeResearched(c, start, run, day, timeout);
      d, now := CanBeAccepted(r, n, page, day, timeout);
      ReachesOn(c, start, r, n, d, now, day);
    } else if flow.approved.Some? {
      ReviewedHasLanded(c, start, clock, timeout);
      d, now := c, start;
    } else {
      ReviewHasNoStale(FactsAt(c), c.decisions, clock, timeout);
      d, now := CanBeAccepted(c, start, page, day, timeout);
    }
  }

  lemma ReviewHasNoStale(f: Facts, ds: seq<Decision>, clock: Clock, timeout: int)
    ensures CardFlow(f, ds, clock, timeout).column.InReview? ==> CardFlow(f, ds, clock, timeout).stale.None?
  {
  }

  // ---------- the theorem ----------

  lemma EveryCardCanLand(c: Card, start: int, h: Hash, run: RunId, page: Hash, day: Calendar, timeout: int)
    returns (d: Card, now: int)
    requires InOrder(c, start) && !IsRejected(c.decisions) && Unused(c, h) && UnusedRun(c, run)
    ensures Reaches(c, start, d, now, day) && Landed(d)
  {
    hide Reaches, InOrder, IsRejected, FactsOf, Landed;
    var a, i := CanCloseRuns(c, start, day, timeout);
    var b, j := CanBeFreed(a, i, day, timeout);
    ReachesOn(c, start, a, i, b, j, day);
    var e, k := CanBeBriefed(b, j, h, day, timeout);
    ReachesOn(c, start, b, j, e, k, day);
    d, now := ReadyCanLand(e, k, run, page, day, timeout);
    ReachesOn(c, start, e, k, d, now, day);
  }

  /** No step takes a rejection back. */
  lemma {:induction false} DecisionsStay(c: Card, steps: seq<Step>)
    ensures c.decisions <= Exec(c, steps).decisions
  {
    hide Allowed;
    if steps != [] {
      DecisionsStay(c, Init(steps));
    }
  }

  lemma RejectionStays(c: Card, start: int, d: Card, now: int, day: Calendar)
    requires Reaches(c, start, d, now, day) && IsRejected(c.decisions)
    ensures IsRejected(d.decisions)
  {
    hide Exec;
    var steps :| ReachedBy(c, start, d, now, day, steps);
    DecisionsStay(c, steps);
    assert d.decisions == c.decisions + d.decisions[|c.decisions|..];
    FilterAppend(c.decisions, d.decisions[|c.decisions|..], OfKind(Rejected));
  }

  /** Wherever a card stands, with whatever runs, holds, strikes, deadline and dates, accepted steps,
      under any calendar, lead it to a landing page if and only if no rejection is on its record. */
  lemma CanLandExactlyWhenNotRejected(c: Card, start: int, h: Hash, run: RunId, page: Hash, day: Calendar, timeout: int)
    requires InOrder(c, start) && Unused(c, h) && UnusedRun(c, run)
    ensures (exists d, now :: Reaches(c, start, d, now, day) && Landed(d)) <==> !IsRejected(c.decisions)
  {
    hide Reaches, FactsOf, Unused;
    if IsRejected(c.decisions) {
      forall d, now | Reaches(c, start, d, now, day) ensures IsRejected(d.decisions) {
        RejectionStays(c, start, d, now, day);
      }
    } else {
      var d, now := EveryCardCanLand(c, start, h, run, page, day, timeout);
    }
  }
}
