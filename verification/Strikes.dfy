/** Strike conservation: returns, change requests and declined runs never outnumber two plus the
    unblocks, because a live second strike blocks every step that could add another. */
module Strikes {
  import opened Seqs
  import opened Ledger
  import opened Life
  import opened ResearchRuns
  import opened Approval

  // ---------- the counting argument, for any list of strike times ----------

  /** No strike from the second on is later than the latest unblock. */
  predicate Lifted(times: seq<int>, since: Option<int>) {
    |times| < STRIKE_LIMIT || (since.Some? && Last(times) <= since.value)
  }

  predicate Conserved(times: seq<int>, unblocks: nat, since: Option<int>) {
    |times| <= STRIKE_LIMIT + unblocks && (Lifted(times, since) ==> |times| <= 1 + unblocks)
  }

  lemma StrikeAdds(times: seq<int>, t: int, unblocks: nat, since: Option<int>)
    requires Conserved(times, unblocks, since) && Lifted(times, since)
    requires since.Some? ==> since.value < t
    ensures Conserved(times + [t], unblocks, since)
  {
  }

  // ---------- the card's own counts ----------

  function UnblockCount(ds: seq<Decision>): nat {
    |Filter(ds, OfKind(Unblocked))|
  }

  function TimesOfKind(ds: seq<Decision>, k: DecisionKind): seq<int> {
    Times(Filter(ds, OfKind(k)))
  }

  function DeclineTimes(runs: seq<CardRun>): seq<int> {
    Map(Filter(runs, IsDecline), RunTs)
  }

  lemma {:induction false} SinceUnblockBefore(ds: seq<Decision>, now: int)
    requires forall i | 0 <= i < |ds| :: ds[i].ts <= now
    ensures SinceUnblock(ds).Some? ==> SinceUnblock(ds).value <= now
  {
    if ds != [] {
      SinceUnblockBefore(Init(ds), now);
    }
  }

  lemma TimesSnoc(ds: seq<Decision>, d: Decision, k: DecisionKind)
    ensures TimesOfKind(ds + [d], k) == if d.kind == k then TimesOfKind(ds, k) + [d.ts] else TimesOfKind(ds, k)
  {
    FilterSnoc(ds, d, OfKind(k));
  }

  lemma SinceUnblockSnoc(ds: seq<Decision>, d: Decision, now: int)
    requires (forall i | 0 <= i < |ds| :: ds[i].ts <= now) && now <= d.ts
    ensures SinceUnblock(ds + [d]) == if d.kind.Unblocked? then Some(d.ts) else SinceUnblock(ds)
    ensures UnblockCount(ds + [d]) == UnblockCount(ds) + if d.kind.Unblocked? then 1 else 0
  {
    SnocParts(ds, d);
    SinceUnblockBefore(ds, now);
    FilterSnoc(ds, d, OfKind(Unblocked));
  }

  /** The texts a card's own ledger recorded. */
  function RecordedBy(events: seq<Event>): set<Hash> {
    Hashes(Filter(events, IsBrief))
  }

  /** The returns of those texts: the only ones the strike rule counts. */
  function OwnReturns(c: Card): seq<Decision> {
    Filter(c.decisions, ReturnOf(RecordedBy(c.events)))
  }

  /** The returns of texts an earlier card under the id recorded. */
  function ForeignReturns(c: Card): seq<Decision> {
    Filter(c.decisions, ForeignTo(RecordedBy(c.events)))
  }

  function ForeignTo(recorded: set<Hash>): Decision -> bool {
    (d: Decision) => d.kind.BriefReturned? && !ReturnOf(recorded)(d)
  }

  /** Each return is of one or the other kind. */
  lemma {:induction false} ReturnsSplit(ds: seq<Decision>, recorded: set<Hash>)
    ensures |Filter(ds, OfKind(BriefReturned))| == |Filter(ds, ReturnOf(recorded))| + |Filter(ds, ForeignTo(recorded))|
  {
    if ds != [] {
      ReturnsSplit(Init(ds), recorded);
    }
  }

  // ---------- a return is the last verdict on its text ----------

  predicate IsReturnOf(d: Decision, h: Hash) {
    d.kind.BriefReturned? && d.briefHash == Some(h)
  }

  ghost predicate SoundVerdicts(ds: seq<Decision>) {
    && (forall i | 0 <= i < |ds| && ds[i].kind.BriefReturned? :: ds[i].briefHash.Some?)
    && (forall i, j | 0 <= i < j < |ds| && ds[i].kind.BriefReturned? && ds[i].briefHash.Some? ::
          !VerdictOn(ds[i].briefHash.value)(ds[j]))
  }

  /** So no text is returned twice. */
  lemma {:induction false} ReturnedOnce(ds: seq<Decision>, h: Hash)
    requires SoundVerdicts(ds)
    ensures |Filter(ds, ReturnOf({h}))| <= 1
  {
    if ds != [] {
      ReturnedOnce(Init(ds), h);
      if ReturnOf({h})(Last(ds)) {
        forall d <- Init(ds) ensures !ReturnOf({h})(d) {
          var i :| 0 <= i < |Init(ds)| && Init(ds)[i] == d;
          assert ds[i] == d && !(d.kind.BriefReturned? && d.briefHash == Some(h));
        }
        FilterNone(Init(ds), ReturnOf({h}));
      }
    }
  }

  lemma NoVerdictAfter(ds: seq<Decision>, h: Hash, i: nat)
    requires SoundVerdicts(ds) && i < |ds| && IsReturnOf(ds[i], h)
    ensures forall d <- ds[i + 1..] :: !VerdictOn(h)(d)
  {
    hide VerdictOn;
    var after := ds[i + 1..];
    forall d <- after ensures !VerdictOn(h)(d) {
      var j :| 0 <= j < |after| && after[j] == d;
      assert ds[i + 1 + j] == d;
    }
  }

  lemma ReturnIsLastVerdict(ds: seq<Decision>, h: Hash, i: nat)
    requires SoundVerdicts(ds) && i < |ds| && IsReturnOf(ds[i], h)
    ensures Filter(ds, VerdictOn(h)) != [] && Last(Filter(ds, VerdictOn(h))) == ds[i]
  {
    hide Filter, SoundVerdicts;
    var before, after := ds[..i], ds[i + 1..];
    assert ds == before + [ds[i]] + after;
    NoVerdictAfter(ds, h, i);
    FilterAppend(before + [ds[i]], after, VerdictOn(h));
    FilterNone(after, VerdictOn(h));
    FilterSnoc(before, ds[i], VerdictOn(h));
  }

  /** A text the gate shows was never returned. */
  lemma ShownWasNotReturned(events: seq<Event>, ds: seq<Decision>, h: Hash)
    requires Sorted(ds, DecisionTs) && SoundVerdicts(ds) && BriefOrdered(events, ds).hash == Some(h)
    ensures forall i | 0 <= i < |ds| :: !IsReturnOf(ds[i], h)
  {
    hide IndexOf, Any, Ordered, Filter, SoundVerdicts;
    LatestInOrder(ds, VerdictOn(h));
    forall i | 0 <= i < |ds| && IsReturnOf(ds[i], h) ensures Filter(ds, VerdictOn(h)) != [] && Last(Filter(ds, VerdictOn(h))) == ds[i] {
      ReturnIsLastVerdict(ds, h, i);
    }
  }

  // ---------- an unblocked card has no live strike ----------

  lemma StrikesLast<T>(rows: seq<T>)
    requires |rows| >= STRIKE_LIMIT
    ensures Strikes(rows) != [] && Last(Strikes(rows)) == Last(rows)
  {
  }

  lemma PartNotLive(before: seq<Trigger>, part: seq<Trigger>, after: seq<Trigger>, since: Option<int>)
    requires Filter(before + part + after, LiveAfter(since)) == []
    ensures part != [] ==> since.Some? && Last(part).ts <= since.value
  {
    FilterAppend(before + part, after, LiveAfter(since));
    FilterAppend(before, part, LiveAfter(since));
  }

  lemma DecisionStrikesLifted(rows: seq<Decision>, cause: Cause, since: Option<int>)
    requires var part := DecisionTriggers(Strikes(rows), cause);
             part != [] ==> since.Some? && Last(part).ts <= since.value
    ensures Lifted(Times(rows), since)
  {
    if |rows| >= STRIKE_LIMIT {
      StrikesLast(rows);
    }
  }

  lemma RunStrikesLifted(rows: seq<CardRun>, cause: Cause, since: Option<int>)
    requires var part := RunTriggers(Strikes(rows), cause);
             part != [] ==> since.Some? && Last(part).ts <= since.value
    ensures Lifted(Map(rows, RunTs), since)
  {
    if |rows| >= STRIKE_LIMIT {
      StrikesLast(rows);
    }
  }

  /** With no block, each kind of strike is lifted. */
  lemma NoBlockLifts(ds: seq<Decision>, runs: seq<CardRun>, recorded: set<Hash>, fields: Fields, today: int,
                     landing: bool, holds: seq<Trigger>)
    requires Blocks(ds, runs, recorded, fields, today, landing, holds).None?
    ensures Lifted(Times(Ordered(Filter(ds, ReturnOf(recorded)), DecisionTs)), SinceUnblock(ds))
    ensures Lifted(Times(Ordered(Filter(ds, OfKind(ChangesRequested)), DecisionTs)), SinceUnblock(ds))
    ensures Lifted(Map(Ordered(Filter(runs, IsDecline), RunTs), RunTs), SinceUnblock(ds))
  {
    hide Lifted, Strikes, Filter, Ordered, DecisionTriggers, RunTriggers, SinceUnblock, DeadlineTriggers;
    var r := DecisionTriggers(ReturnStrikes(ds, recorded), ReturnedTwice);
    var ch := DecisionTriggers(ChangeStrikes(ds), ChangesTwice);
    var de := RunTriggers(DeclineStrikes(runs), DeclinedTwice);
    var rest := DecisionTriggers(Filter(ds, OfKind(BlockedByDave)), ByDave) + holds + DeadlineTriggers(fields, today, landing);
    var all, since := Triggers(ds, runs, recorded, fields, today, landing, holds), SinceUnblock(ds);
    assert all == [] + r + (ch + de + rest);
    PartNotLive([], r, ch + de + rest, since);
    DecisionStrikesLifted(Ordered(Filter(ds, ReturnOf(recorded)), DecisionTs), ReturnedTwice, since);
    assert all == r + ch + (de + rest);
    PartNotLive(r, ch, de + rest, since);
    DecisionStrikesLifted(Ordered(Filter(ds, OfKind(ChangesRequested)), DecisionTs), ChangesTwice, since);
    assert all == (r + ch) + de + rest;
    PartNotLive(r + ch, de, rest, since);
    RunStrikesLifted(Ordered(Filter(runs, IsDecline), RunTs), DeclinedTwice, since);
  }

  lemma {:induction false} RunsInOrder(events: seq<Event>, receipts: map<RunId, Receipt>)
    requires Sorted(events, EventTs)
    ensures Sorted(RunsIn(events, receipts), RunTs)
  {
    if events != [] {
      RunsInOrder(Init(events), receipts);
      RunsNotFuture(Init(events), receipts, Last(events).ts);
    }
  }

  lemma UnblockedCardLifts(c: Card, at: Moment)
    requires InOrder(c, at.clock.now)
    requires CardBlock(FactsAt(c), c.decisions, at.clock, at.timeout).None?
    ensures Lifted(Times(OwnReturns(c)), SinceUnblock(c.decisions))
    ensures Lifted(TimesOfKind(c.decisions, ChangesRequested), SinceUnblock(c.decisions))
    ensures Lifted(DeclineTimes(RunsIn(c.events, c.receipts)), SinceUnblock(c.decisions))
  {
    hide Blocks, Lifted, Filter, Ordered, SinceUnblock;
    var f := FactsAt(c);
    NoBlockLifts(c.decisions, f.runs, f.brief.recorded, f.fields, at.clock.today,
                 CardFlow(f, c.decisions, at.clock, at.timeout).approved.Some?, f.holds);
    FactsInOrder(c, at.clock.now);
    RecordedHashes(c.events, c.decisions);
    LatestInOrder(c.decisions, ReturnOf(RecordedBy(c.events)));
    LatestInOrder(c.decisions, OfKind(ChangesRequested));
    RunsInOrder(c.events, c.receipts);
    FilterSorted(f.runs, RunTs, IsDecline);
    OrderedIdentity(Filter(f.runs, IsDecline), RunTs);
  }

  lemma RecordedHashes(ordered: seq<Event>, ds: seq<Decision>)
    ensures BriefOrdered(ordered, ds).recorded == RecordedBy(ordered)
  {
  }

  // ---------- the gate, move by move ----------

  lemma GateMeans(c: Card, act: Act, at: Moment)
    requires act.Decide? && Allowed(c, act, at)
    ensures act.verb.ReturnBrief? || act.verb.RequestChanges? ==>
      CardBlock(FactsAt(c), c.decisions, at.clock, at.timeout).None?
    ensures BriefHashed(act.verb) ==> act.briefHash.Some? && act.briefHash == Brief(c.events, c.decisions).hash
  {
    hide DeriveMine;
    GateColumn(c, at);
    StrikeableColumn(FactsAt(c), c.decisions, at);
  }

  lemma GateColumn(c: Card, at: Moment)
    ensures Shown(c, at).moves <= Moves(CardColumn(FactsAt(c), c.decisions, at.main, at.clock, at.timeout))
    ensures Shown(c, at).brief == Brief(c.events, c.decisions)
  {
  }

  lemma StrikeableColumn(f: Facts, ds: seq<Decision>, at: Moment)
    ensures var column := CardColumn(f, ds, at.main, at.clock, at.timeout);
            ReturnBrief in Moves(column) || RequestChanges in Moves(column) ==>
              CardBlock(f, ds, at.clock, at.timeout).None?
  {
    hide CardBlock, CardFlow;
  }

  lemma ShownBriefIsRecorded(events: seq<Event>, ds: seq<Decision>)
    requires BriefOrdered(events, ds).hash.Some?
    ensures BriefOrdered(events, ds).hash.value in RecordedBy(events)
  {
    FilterMembers(events, IsBrief);
    var briefs := Filter(events, IsBrief);
    assert Last(briefs) in briefs;
  }

  // ---------- returns and change requests ----------

  /** What a stream of decisions on one id keeps across all the cards that bear it. */
  ghost predicate FairRecord(ds: seq<Decision>) {
    SoundVerdicts(ds) && Conserved(TimesOfKind(ds, ChangesRequested), UnblockCount(ds), SinceUnblock(ds))
  }

  /** `base` is how many unblocks were on record when the card was created, `foreign` the returns. */
  ghost predicate VerdictsConserved(c: Card, base: nat, foreign: seq<Decision>) {
    && FairRecord(c.decisions)
    && base <= UnblockCount(c.decisions)
    && Conserved(Times(OwnReturns(c)), UnblockCount(c.decisions) - base, SinceUnblock(c.decisions))
    && ForeignReturns(c) == foreign
  }

  lemma ConservedByDecision(ds: seq<Decision>, d: Decision, k: DecisionKind, now: int)
    requires !k.Unblocked?
    requires (forall i | 0 <= i < |ds| :: ds[i].ts <= now) && now < d.ts
    requires Conserved(TimesOfKind(ds, k), UnblockCount(ds), SinceUnblock(ds))
    requires d.kind == k ==> Lifted(TimesOfKind(ds, k), SinceUnblock(ds))
    ensures Conserved(TimesOfKind(ds + [d], k), UnblockCount(ds + [d]), SinceUnblock(ds + [d]))
  {
    TimesSnoc(ds, d, k);
    SinceUnblockSnoc(ds, d, now);
    SinceUnblockBefore(ds, now);
    if d.kind == k {
      StrikeAdds(TimesOfKind(ds, k), d.ts, UnblockCount(ds), SinceUnblock(ds));
    }
  }

  lemma SoundByDecision(c: Card, act: Act, at: Moment, now: int)
    requires SoundVerdicts(c.decisions) && InOrder(c, now) && act.Decide? && Allowed(c, act, at)
    ensures SoundVerdicts(c.decisions + [DecisionFrom(c, act, at)])
  {
    hide Allowed, DeriveMine, Brief, BriefOrdered;
    var d := DecisionFrom(c, act, at);
    GateMeans(c, act, at);
    if BriefHashed(act.verb) {
      BriefOfSorted(c, now);
      ShownWasNotReturned(c.events, c.decisions, act.briefHash.value);
      assert forall i | 0 <= i < |c.decisions| && c.decisions[i].kind.BriefReturned? ::
        !IsReturnOf(c.decisions[i], act.briefHash.value);
    }
  }

  lemma OwnByDecision(c: Card, act: Act, at: Moment, now: int)
    requires InOrder(c, now) && act.Decide? && Allowed(c, act, at)
    ensures var c' := Next(c, act, at);
      && OwnReturns(c') == OwnReturns(c) + (if act.verb.ReturnBrief? then [DecisionFrom(c, act, at)] else [])
      && ForeignReturns(c') == ForeignReturns(c)
  {
    hide Allowed, DeriveMine, Brief, BriefOrdered, Filter, FactsOf, CardBlock, Hashes;
    var d, recorded := DecisionFrom(c, act, at), RecordedBy(c.events);
    GateMeans(c, act, at);
    if act.verb.ReturnBrief? {
      BriefOfSorted(c, now);
      ShownBriefIsRecorded(c.events, c.decisions);
    }
    FilterSnoc(c.decisions, d, ReturnOf(recorded));
    FilterSnoc(c.decisions, d, ForeignTo(recorded));
  }

  lemma VerdictsKeptByDecision(c: Card, act: Act, at: Moment, now: int, base: nat, foreign: seq<Decision>)
    requires VerdictsConserved(c, base, foreign) && InOrder(c, now) && now < at.clock.now
    requires act.Decide? && Allowed(c, act, at)
    ensures VerdictsConserved(Next(c, act, at), base, foreign)
  {
    hide Allowed, DeriveMine, Brief, BriefOrdered, Lifted, Conserved, FactsOf, CardBlock, SinceUnblock, SoundVerdicts, Filter,
      OwnReturns, ForeignReturns;
    var d := DecisionFrom(c, act, at);
    GateMeans(c, act, at);
    if act.verb.ReturnBrief? || act.verb.RequestChanges? {
      UnblockedCardLifts(c, at);
    }
    SoundByDecision(c, act, at, now);
    OwnByDecision(c, act, at, now);
    ConservedByDecision(c.decisions, d, ChangesRequested, now);
    ReturnsByDecision(Times(OwnReturns(c)), c.decisions, d, base, now);
    TimesAppend(OwnReturns(c), d);
  }

  lemma TimesAppend(ds: seq<Decision>, d: Decision)
    ensures Times(ds + [d]) == Times(ds) + [d.ts] && Times(ds + []) == Times(ds)
  {
    assert ds + [] == ds;
  }

  lemma ReturnsByDecision(times: seq<int>, ds: seq<Decision>, d: Decision, base: nat, now: int)
    requires (forall i | 0 <= i < |ds| :: ds[i].ts <= now) && now < d.ts && base <= UnblockCount(ds)
    requires Conserved(times, UnblockCount(ds) - base, SinceUnblock(ds))
    requires d.kind.BriefReturned? ==> Lifted(times, SinceUnblock(ds))
    ensures base <= UnblockCount(ds + [d])
    ensures Conserved(if d.kind.BriefReturned? then times + [d.ts] else times, UnblockCount(ds + [d]) - base, SinceUnblock(ds + [d]))
  {
    SinceUnblockSnoc(ds, d, now);
    SinceUnblockBefore(ds, now);
    if d.kind.BriefReturned? {
      StrikeAdds(times, d.ts, UnblockCount(ds) - base, SinceUnblock(ds));
    }
  }

  lemma BriefOfSorted(c: Card, now: int)
    requires InOrder(c, now)
    ensures Brief(c.events, c.decisions) == BriefOrdered(c.events, c.decisions)
  {
    OrderedIdentity(c.events, EventTs);
  }

  /** A new text was never returned, so recording it makes no return the card's own. */
  lemma OwnByEvent(c: Card, act: Act, at: Moment)
    requires !act.Decide? && !act.Settle? && Allowed(c, act, at)
    ensures OwnReturns(Next(c, act, at)) == OwnReturns(c) && ForeignReturns(Next(c, act, at)) == ForeignReturns(c)
  {
    hide DeriveMine;
    var e := EventOf(c, act, at);
    FilterSnoc(c.events, e, IsBrief);
    if act.WriteBrief? {
      assert RecordedBy(c.events + [e]) == RecordedBy(c.events) + {act.hash};
      forall d <- c.decisions ensures ReturnOf(RecordedBy(c.events + [e]))(d) == ReturnOf(RecordedBy(c.events))(d) {
        var i :| 0 <= i < |c.decisions| && c.decisions[i] == d;
        assert !ReturnedText(act.hash)(c.decisions[i]);
      }
      FilterSame(c.decisions, ReturnOf(RecordedBy(c.events + [e])), ReturnOf(RecordedBy(c.events)));
      FilterSame(c.decisions, ForeignTo(RecordedBy(c.events + [e])), ForeignTo(RecordedBy(c.events)));
    }
  }

  lemma VerdictsKept(c: Card, s: Step, now: int, base: nat, foreign: seq<Decision>)
    requires VerdictsConserved(c, base, foreign) && InOrder(c, now) && now < s.at.clock.now
    ensures VerdictsConserved(Perform(c, s), base, foreign)
  {
    hide Allowed, FairRecord, Conserved, OwnReturns, ForeignReturns;
    if Perform(c, s) != c {
      if s.act.Decide? {
        VerdictsKeptByDecision(c, s.act, s.at, now, base, foreign);
      } else if s.act.Settle? {
        OwnBySettling(c, s.act.receipts);
      } else {
        OwnByEvent(c, s.act, s.at);
      }
    }
  }

  lemma OwnBySettling(c: Card, receipts: map<RunId, Receipt>)
    ensures OwnReturns(c.(receipts := receipts)) == OwnReturns(c)
    ensures ForeignReturns(c.(receipts := receipts)) == ForeignReturns(c)
  {
  }

  lemma BornFair(c: Card, start: int)
    requires Born(c, start) && FairRecord(c.decisions)
    ensures VerdictsConserved(c, UnblockCount(c.decisions), ForeignReturns(c))
  {
    BornHasNoRuns(c, start);
    var h := c.events[1].hash;
    assert RecordedBy(c.events) == {h};
    ReturnedOnce(c.decisions, h);
  }

  lemma {:induction false} VerdictsAlways(c: Card, start: int, steps: seq<Step>)
    requires Born(c, start) && Rising(start, steps) && FairRecord(c.decisions)
    ensures VerdictsConserved(Exec(c, steps), UnblockCount(c.decisions), ForeignReturns(c))
  {
    hide Perform, VerdictsConserved, FairRecord;
    if steps == [] {
      BornFair(c, start);
    } else {
      VerdictsAlways(c, start, Init(steps));
      BornInOrder(c, start);
      ReachableInOrder(c, start, Init(steps));
      VerdictsKept(Exec(c, Init(steps)), Last(steps), EndOf(start, Init(steps)), UnblockCount(c.decisions), ForeignReturns(c));
    }
  }

  /** A card's returns of its own texts are at most two plus the unblocks since it was created, and
      the change requests on its id at most two plus all its unblocks.  Returns of an earlier card's
      texts neither come nor go. */
  lemma ReturnsAndChangesAreConserved(c: Card, start: int, steps: seq<Step>)
    requires Born(c, start) && Rising(start, steps) && FairRecord(c.decisions)
    ensures var d := Exec(c, steps);
            && |OwnReturns(d)| + UnblockCount(c.decisions) <= 2 + UnblockCount(d.decisions)
            && |Filter(d.decisions, OfKind(ChangesRequested))| <= 2 + UnblockCount(d.decisions)
            && ForeignReturns(d) == ForeignReturns(c)
            && |Filter(d.decisions, OfKind(BriefReturned))| == |OwnReturns(d)| + |ForeignReturns(c)|
  {
    VerdictsAlways(c, start, steps);
    ReturnsSplit(Exec(c, steps).decisions, RecordedBy(Exec(c, steps).events));
    hide Exec;
  }

  /** With nothing on record at its creation, all its returns are at most two plus its unblocks. */
  lemma FirstCardReturnsAreConserved(c: Card, start: int, steps: seq<Step>)
    requires Born(c, start) && Rising(start, steps) && c.decisions == []
    ensures var ds := Exec(c, steps).decisions;
            |Filter(ds, OfKind(BriefReturned))| <= 2 + |Filter(ds, OfKind(Unblocked))|
  {
    hide Exec;
    ReturnsAndChangesAreConserved(c, start, steps);
  }

  // ---------- declined runs ----------

  /** Every run but the newest has an outcome: receipts land before the next pick. */
  ghost predicate Paced(runs: seq<CardRun>) {
    forall i | 0 <= i < |runs| - 1 :: runs[i].outcome.Some?
  }

  predicate Pending(runs: seq<CardRun>) {
    runs != [] && Last(runs).outcome.None?
  }

  /** While a run is pending its decline is already paid for. */
  ghost predicate DeclinesConserved(runs: seq<CardRun>, unblocks: nat, since: Option<int>) {
    && Paced(runs)
    && Conserved(DeclineTimes(runs), unblocks, since)
    && (Pending(runs) ==> |DeclineTimes(runs)| <= 1 + unblocks)
    && (Pending(runs) && since.Some? && Last(runs).ts <= since.value ==> |DeclineTimes(runs)| <= unblocks)
  }

  lemma DeclineTimesSnoc(runs: seq<CardRun>, r: CardRun)
    ensures DeclineTimes(runs + [r]) == if IsDecline(r) then DeclineTimes(runs) + [r.ts] else DeclineTimes(runs)
  {
    FilterSnoc(runs, r, IsDecline);
  }

  lemma DeclinesKeptByPick(runs: seq<CardRun>, r: CardRun, unblocks: nat, since: Option<int>)
    requires DeclinesConserved(runs, unblocks, since) && !Pending(runs)
    requires Lifted(DeclineTimes(runs), since)
    requires since.Some? ==> since.value < r.ts
    ensures DeclinesConserved(runs + [r], unblocks, since)
  {
    DeclineTimesSnoc(runs, r);
    if IsDecline(r) {
      StrikeAdds(DeclineTimes(runs), r.ts, unblocks, since);
    }
  }

  lemma DeclinesKeptByUnblock(runs: seq<CardRun>, unblocks: nat, since: Option<int>, t: int)
    requires DeclinesConserved(runs, unblocks, since)
    ensures DeclinesConserved(runs, unblocks + 1, Some(t))
  {
  }

  /** Settled declines can only drop out, when they turn failed. */
  lemma {:induction false} SettledDeclines(runs: seq<CardRun>, runs': seq<CardRun>)
    requires |runs| == |runs'| && forall i | 0 <= i < |runs| :: SettledRun(runs[i], runs'[i]) && runs[i].outcome.Some?
    ensures |DeclineTimes(runs')| <= |DeclineTimes(runs)|
    ensures |DeclineTimes(runs')| == |DeclineTimes(runs)| ==> DeclineTimes(runs') == DeclineTimes(runs)
  {
    if runs != [] {
      assert SettledRun(Last(runs), Last(runs'));
      SettledDeclines(Init(runs), Init(runs'));
      assert runs == Init(runs) + [Last(runs)] && runs' == Init(runs') + [Last(runs')];
      DeclineTimesSnoc(Init(runs), Last(runs));
      DeclineTimesSnoc(Init(runs'), Last(runs'));
    }
  }

  lemma PacedSettles(runs: seq<CardRun>, runs': seq<CardRun>)
    requires Paced(runs) && |runs| == |runs'| && forall i | 0 <= i < |runs| :: SettledRun(runs[i], runs'[i])
    ensures Paced(runs') && (Pending(runs') ==> Pending(runs) && Last(runs').ts == Last(runs).ts)
  {
    forall i | 0 <= i < |runs'| - 1 ensures runs'[i].outcome.Some? {
      assert SettledRun(runs[i], runs'[i]) && runs[i].outcome.Some?;
    }
    assert runs != [] ==> SettledRun(runs[|runs| - 1], runs'[|runs| - 1]);
  }

  lemma FewerStrikes(times: seq<int>, times': seq<int>, unblocks: nat, since: Option<int>)
    requires Conserved(times, unblocks, since)
    requires |times'| <= |times| && (|times'| == |times| ==> times' == times)
    ensures Conserved(times', unblocks, since)
  {
  }

  /** A pending run settles: its decline, if it is one, was paid for. */
  lemma PendingSettles(runs: seq<CardRun>, runs': seq<CardRun>, unblocks: nat, since: Option<int>)
    requires DeclinesConserved(runs, unblocks, since) && Pending(runs)
    requires |runs| == |runs'| && forall i | 0 <= i < |runs| :: SettledRun(runs[i], runs'[i])
    ensures Conserved(DeclineTimes(runs'), unblocks, since)
    ensures Pending(runs') ==> |DeclineTimes(runs')| <= |DeclineTimes(runs)|
  {
    hide DeclineTimes;
    assert SettledRun(Last(runs), Last(runs'));
    SettledDeclines(Init(runs), Init(runs'));
    assert runs == Init(runs) + [Last(runs)] && runs' == Init(runs') + [Last(runs')];
    DeclineTimesSnoc(Init(runs), Last(runs));
    DeclineTimesSnoc(Init(runs'), Last(runs'));
  }

  lemma DeclinesKeptBySettling(runs: seq<CardRun>, runs': seq<CardRun>, unblocks: nat, since: Option<int>)
    requires DeclinesConserved(runs, unblocks, since)
    requires |runs| == |runs'| && forall i | 0 <= i < |runs| :: SettledRun(runs[i], runs'[i])
    ensures DeclinesConserved(runs', unblocks, since)
  {
    hide DeclineTimes, Conserved, Paced;
    PacedSettles(runs, runs');
    if Pending(runs) {
      PendingSettles(runs, runs', unblocks, since);
    } else {
      AllSettled(runs);
      SettledDeclines(runs, runs');
      FewerStrikes(DeclineTimes(runs), DeclineTimes(runs'), unblocks, since);
    }
  }

  lemma AllSettled(runs: seq<CardRun>)
    requires Paced(runs) && !Pending(runs)
    ensures forall i | 0 <= i < |runs| :: runs[i].outcome.Some?
  {
    assert runs != [] ==> runs[|runs| - 1] == Last(runs);
  }

  /** Counted against the unblocks since the card was created. */
  ghost predicate DeclinesFine(c: Card, base: nat) {
    && base <= UnblockCount(c.decisions)
    && DeclinesConserved(RunsIn(c.events, c.receipts), UnblockCount(c.decisions) - base, SinceUnblock(c.decisions))
  }

  /** A step that picks no run while an earlier one is still out. */
  ghost predicate PacedStep(c: Card, s: Step) {
    s.act.PickCard? ==> !Pending(RunsIn(c.events, c.receipts))
  }

  ghost predicate PacedRun(c: Card, steps: seq<Step>) {
    steps == [] || (PacedRun(c, Init(steps)) && PacedStep(Exec(c, Init(steps)), Last(steps)))
  }

  lemma DeclinesKeptByEvent(c: Card, act: Act, at: Moment, now: int, base: nat)
    requires DeclinesFine(c, base) && InOrder(c, now) && now < at.clock.now
    requires !act.Decide? && !act.Settle? && Allowed(c, act, at) && PacedStep(c, Step(act, at))
    ensures DeclinesFine(Next(c, act, at), base)
  {
    hide DeriveMine, DeclinesConserved, CardBlock, CardFlow, Lifted, Brief, FactsOf, OwnReturns, DeclineTimes, Deletion, RunsIn, Filter, SinceUnblock;
    var e, runs := EventOf(c, act, at), RunsIn(c.events, c.receipts);
    RunsAppend(c.events, e, c.receipts);
    if act.PickCard? {
      PickMeans(c, act, at);
      WantsMeans(c, at.(main := None));
      UnblockedCardLifts(c, at);
      SinceUnblockBefore(c.decisions, now);
      DeclinesKeptByPick(runs, RunOf(e, c.receipts), UnblockCount(c.decisions) - base, SinceUnblock(c.decisions));
    }
  }

  lemma DeclinesKeptByDecision(c: Card, d: Decision, now: int, base: nat)
    requires DeclinesFine(c, base) && InOrder(c, now) && now <= d.ts
    ensures DeclinesFine(AppendDecision(c, d), base)
  {
    SinceUnblockSnoc(c.decisions, d, now);
    if d.kind.Unblocked? {
      DeclinesKeptByUnblock(RunsIn(c.events, c.receipts), UnblockCount(c.decisions) - base, SinceUnblock(c.decisions), d.ts);
    }
  }

  lemma DeclinesKept(c: Card, s: Step, now: int, base: nat)
    requires DeclinesFine(c, base) && InOrder(c, now) && now < s.at.clock.now && PacedStep(c, s)
    ensures DeclinesFine(Perform(c, s), base)
  {
    hide DeriveMine, DeclinesConserved;
    if Perform(c, s) != c {
      if s.act.Decide? {
        DeclinesKeptByDecision(c, DecisionFrom(c, s.act, s.at), now, base);
      } else if s.act.Settle? {
        RunsSettle(c.events, c.receipts, s.act.receipts);
        DeclinesKeptBySettling(RunsIn(c.events, c.receipts), RunsIn(c.events, s.act.receipts),
                               UnblockCount(c.decisions) - base, SinceUnblock(c.decisions));
      } else {
        DeclinesKeptByEvent(c, s.act, s.at, now, base);
      }
    }
  }

  lemma {:induction false} DeclinesAlways(c: Card, start: int, steps: seq<Step>)
    requires Born(c, start) && Rising(start, steps) && PacedRun(c, steps)
    ensures DeclinesFine(Exec(c, steps), UnblockCount(c.decisions))
  {
    hide Perform, PacedStep;
    if steps == [] {
      BornHasNoRuns(c, start);
    } else {
      DeclinesAlways(c, start, Init(steps));
      BornInOrder(c, start);
      ReachableInOrder(c, start, Init(steps));
      DeclinesKept(Exec(c, Init(steps)), Last(steps), EndOf(start, Init(steps)), UnblockCount(c.decisions));
    }
  }

  /** When each run's receipt lands before the card's next pick, its declined runs are at most two
      plus the unblocks since it was created. */
  lemma DeclinesAreConserved(c: Card, start: int, steps: seq<Step>)
    requires Born(c, start) && Rising(start, steps) && PacedRun(c, steps)
    ensures var d := Exec(c, steps);
            |Filter(Runs(d.events, d.receipts), IsDecline)| + UnblockCount(c.decisions) <= 2 + UnblockCount(d.decisions)
  {
    DeclinesAlways(c, start, steps);
    BornInOrder(c, start);
    ReachableInOrder(c, start, steps);
  }
}
