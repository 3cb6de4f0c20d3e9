/** Research runs over a card's whole life: at most one is ever open, and each answers a brief
    Dave approved that no later scope edit touches. */
module ResearchRuns {
  import opened Seqs
  import opened Ledger
  import opened Life

  // ---------- runs as picks arrive and receipts land ----------

  lemma RunsAppend(events: seq<Event>, e: Event, receipts: map<RunId, Receipt>)
    ensures RunsIn(events + [e], receipts)
         == if IsPick(e) then RunsIn(events, receipts) + [RunOf(e, receipts)] else RunsIn(events, receipts)
  {
    SnocParts(events, e);
  }

  /** How one run may read after receipts settle. */
  predicate SettledRun(r: CardRun, r': CardRun) {
    && r.runId == r'.runId && r.ts == r'.ts && r.purpose == r'.purpose
    && (r.outcome.Some? ==> r' == r || r'.outcome == Some(Failed))
    && (r.void ==> r'.void)
  }

  lemma {:induction false} RunsSettle(events: seq<Event>, before: map<RunId, Receipt>, after: map<RunId, Receipt>)
    requires Settles(before, after)
    ensures |RunsIn(events, after)| == |RunsIn(events, before)|
    ensures forall i | 0 <= i < |RunsIn(events, before)| :: SettledRun(RunsIn(events, before)[i], RunsIn(events, after)[i])
  {
    if events != [] {
      RunsSettle(Init(events), before, after);
    }
  }

  predicate OpenIsLive(r: CardRun) {
    r.outcome.None? ==> !r.void
  }

  lemma {:induction false} OpenRunsAreLive(events: seq<Event>, receipts: map<RunId, Receipt>)
    ensures forall i | 0 <= i < |RunsIn(events, receipts)| :: OpenIsLive(RunsIn(events, receipts)[i])
  {
    if events != [] {
      OpenRunsAreLive(Init(events), receipts);
    }
  }

  // ---------- at most one open research run ----------

  /** Every research run but the newest has an outcome. */
  ghost predicate OnlyNewestOpen(runs: seq<CardRun>) {
    forall i, j | 0 <= i < j < |runs| && IsResearch(runs[i]) && IsResearch(runs[j]) :: runs[i].outcome.Some?
  }

  /** A card in Todo has no research run open. */
  lemma TodoHasNoneOpen(f: Facts, ds: seq<Decision>, clock: Clock, timeout: int)
    requires OnlyNewestOpen(f.runs) && (forall i | 0 <= i < |f.runs| :: OpenIsLive(f.runs[i]))
    requires CardFlow(f, ds, clock, timeout).column.Todo?
    ensures forall i | 0 <= i < |f.runs| && IsResearch(f.runs[i]) :: f.runs[i].outcome.Some?
  {
    forall i | 0 <= i < |f.runs| && IsResearch(f.runs[i]) ensures f.runs[i].outcome.Some? {
      if f.runs[i].outcome.None? {
        assert OpenIsLive(f.runs[i]);
        assert IsLiveResearch(f.runs[i]);
        FilterMembers(f.runs, IsLiveResearch);
        var k := LastKept(f.runs, IsLiveResearch);
      }
    }
  }

  lemma OnlyNewestOpenSettles(events: seq<Event>, before: map<RunId, Receipt>, after: map<RunId, Receipt>)
    requires OnlyNewestOpen(RunsIn(events, before)) && Settles(before, after)
    ensures OnlyNewestOpen(RunsIn(events, after))
  {
    RunsSettle(events, before, after);
    var runs, runs' := RunsIn(events, before), RunsIn(events, after);
    forall i, j | 0 <= i < j < |runs'| && IsResearch(runs'[i]) && IsResearch(runs'[j])
      ensures runs'[i].outcome.Some?
    {
      assert SettledRun(runs[i], runs'[i]) && SettledRun(runs[j], runs'[j]);
      assert IsResearch(runs[i]) && IsResearch(runs[j]);
    }
  }

  lemma OnlyNewestOpenPick(c: Card, e: Event, at: Moment)
    requires OnlyNewestOpen(RunsIn(c.events, c.receipts)) && InOrder(c, at.clock.now)
    requires IsResearchPick(e) ==> CardFlow(FactsAt(c), c.decisions, at.clock, at.timeout).column.Todo?
    ensures OnlyNewestOpen(RunsIn(c.events + [e], c.receipts))
  {
    RunsAppend(c.events, e, c.receipts);
    if IsResearchPick(e) {
      FactsInOrder(c, at.clock.now);
      OpenRunsAreLive(c.events, c.receipts);
      TodoHasNoneOpen(FactsAt(c), c.decisions, at.clock, at.timeout);
    }
  }

  lemma OnlyNewestOpenKept(c: Card, s: Step)
    requires OnlyNewestOpen(RunsIn(c.events, c.receipts)) && InOrder(c, s.at.clock.now)
    ensures OnlyNewestOpen(RunsIn(Perform(c, s).events, Perform(c, s).receipts))
  {
    hide DeriveMine, OnlyNewestOpen;
    if Perform(c, s) != c {
      if s.act.Settle? {
        OnlyNewestOpenSettles(c.events, c.receipts, s.act.receipts);
      } else if !s.act.Decide? {
        if s.act.PickCard? && s.act.purpose.ResearchRun? {
          ResearchPickMeans(c, s.act, s.at);
        }
        OnlyNewestOpenPick(c, EventOf(c, s.act, s.at), s.at);
      }
    }
  }

  lemma {:induction false} OnlyNewestOpenAlways(c: Card, start: int, steps: seq<Step>)
    requires Born(c, start) && NeverBack(start, steps)
    ensures OnlyNewestOpen(RunsIn(Exec(c, steps).events, Exec(c, steps).receipts))
  {
    hide Perform, Ordered;
    if steps == [] {
      BornHasNoRuns(c, start);
    } else {
      OnlyNewestOpenAlways(c, start, Init(steps));
      BornInOrder(c, start);
      ReachableInOrder(c, start, Init(steps));
      OnlyNewestOpenKept(Exec(c, Init(steps)), Last(steps));
    }
  }

  lemma BornHasNoRuns(c: Card, start: int)
    requires Born(c, start)
    ensures RunsIn(c.events, c.receipts) == []
    ensures Filter(c.events, IsBrief) == [c.events[1]]
  {
    assert c.events == [] + [c.events[0]] + [c.events[1]];
    RunsAppend([], c.events[0], c.receipts);
    RunsAppend([c.events[0]], c.events[1], c.receipts);
    FilterSnoc([], c.events[0], IsBrief);
    FilterSnoc([c.events[0]], c.events[1], IsBrief);
    assert [] + [c.events[0]] == [c.events[0]];
  }

  /** In every reachable state a card has at most one research run without an outcome, and it is
      the newest research run, even when earlier runs were later failed or declined. */
  lemma AtMostOneOpenResearchRun(c: Card, start: int, steps: seq<Step>, i: nat, j: nat)
    requires Born(c, start) && NeverBack(start, steps)
    requires i < j < |Runs(Exec(c, steps).events, Exec(c, steps).receipts)|
    requires IsResearch(Runs(Exec(c, steps).events, Exec(c, steps).receipts)[i])
    requires IsResearch(Runs(Exec(c, steps).events, Exec(c, steps).receipts)[j])
    ensures Runs(Exec(c, steps).events, Exec(c, steps).receipts)[i].outcome.Some?
  {
    OnlyNewestOpenAlways(c, start, steps);
    BornInOrder(c, start);
    ReachableInOrder(c, start, steps);
  }

  // ---------- every research run answers an approved brief ----------

  predicate IsResearchPick(e: Event) { e.PickedEvent? && e.purpose.ResearchRun? }

  function VerdictBefore(h: Hash, ts: int): Decision -> bool {
    (d: Decision) => VerdictOn(h)(d) && d.ts < ts
  }

  /** The pick at `i` carries the hash of the brief at `j`, the last before it, unscoped since, whose
      latest verdict by then was an approval; and no scope edit follows the pick. */
  ghost predicate AnswersBriefAt(c: Card, i: int, j: int)
    requires 0 <= j < i < |c.events| && IsResearchPick(c.events[i])
  {
    && c.events[j].BriefEvent?
    && c.events[i].picked == Some(c.events[j].hash)
    && (forall k | j < k < i :: !c.events[k].BriefEvent?)
    && (forall k | j < k < |c.events| :: !Rescopes(c.events[k]))
    && var verdict := Latest(Filter(c.decisions, VerdictBefore(c.events[j].hash, c.events[i].ts)));
       verdict.Some? && verdict.value.kind.BriefApproved?
  }

  ghost predicate AnswersApprovedBrief(c: Card, i: int)
    requires 0 <= i < |c.events| && IsResearchPick(c.events[i])
  {
    exists j | 0 <= j < i :: AnswersBriefAt(c, i, j)
  }

  ghost predicate AllAnswerApproved(c: Card) {
    forall i | 0 <= i < |c.events| && IsResearchPick(c.events[i]) :: AnswersApprovedBrief(c, i)
  }

  /** An approved brief in order: where it stands, and that nothing after it voids it. */
  lemma ApprovedBriefStands(events: seq<Event>, ds: seq<Decision>) returns (j: nat)
    requires BriefOrdered(events, ds).approved
    ensures j < |events| && events[j].BriefEvent? && BriefOrdered(events, ds).hash == Some(events[j].hash)
    ensures forall k | j < k < |events| :: !events[k].BriefEvent? && !Rescopes(events[k])
    ensures var verdict := Latest(Filter(ds, VerdictOn(events[j].hash)));
            verdict.Some? && verdict.value.kind.BriefApproved?
  {
    j := LastKept(events, IsBrief);
    var after := events[IndexOf(events, events[j]) + 1..];
    assert IndexOf(events, events[j]) <= j;
    forall k | j < k < |events| ensures !events[k].BriefEvent? && !Rescopes(events[k]) {
      assert !IsBrief(events[k]);
      assert events[k] == after[k - IndexOf(events, events[j]) - 1];
      assert !Any(after, Rescopes);
    }
    var onText := Filter(ds, VerdictOn(events[j].hash));
    OrderedMembers(onText, DecisionTs);
    FilterMembers(ds, VerdictOn(events[j].hash));
    var verdict := Latest(onText);
    assert verdict.value in multiset(onText);
  }

  lemma {:induction false} PickIsARun(events: seq<Event>, receipts: map<RunId, Receipt>, i: nat)
    requires i < |events| && IsResearchPick(events[i])
    ensures Any(RunsIn(events, receipts), IsResearch)
  {
    var runs := RunsIn(events, receipts);
    if i == |events| - 1 {
      assert IsResearch(runs[|runs| - 1]);
    } else {
      PickIsARun(Init(events), receipts, i);
      var before := RunsIn(Init(events), receipts);
      var k :| 0 <= k < |before| && IsResearch(before[k]);
      assert runs[k] == before[k];
    }
  }

  /** Once a research run is picked the scope is closed to edits. */
  lemma NoScopeEditAfterPick(c: Card, act: Act, at: Moment, i: nat)
    requires act.EditCard? && Allowed(c, act, at) && InOrder(c, at.clock.now)
    requires i < |c.events| && IsResearchPick(c.events[i])
    ensures act.changes.scope.None?
  {
    PickIsARun(c.events, c.receipts, i);
    FactsInOrder(c, at.clock.now);
    if act.changes.scope.Some? {
      ScopeEditMeans(c, act, at);
    }
  }

  lemma AnswersKeptByEvent(c: Card, e: Event, i: nat)
    requires i < |c.events| && IsResearchPick(c.events[i]) && AnswersApprovedBrief(c, i)
    requires !Rescopes(e)
    ensures AnswersApprovedBrief(AppendEvent(c, e), i)
  {
    var j :| 0 <= j < i && AnswersBriefAt(c, i, j);
    assert AnswersBriefAt(AppendEvent(c, e), i, j);
  }

  lemma AnswersKeptByDecision(c: Card, d: Decision, i: nat)
    requires i < |c.events| && IsResearchPick(c.events[i]) && AnswersApprovedBrief(c, i)
    requires c.events[i].ts <= d.ts
    ensures AnswersApprovedBrief(AppendDecision(c, d), i)
  {
    hide Filter;
    var j :| 0 <= j < i && AnswersBriefAt(c, i, j);
    FilterSnoc(c.decisions, d, VerdictBefore(c.events[j].hash, c.events[i].ts));
    assert AnswersBriefAt(AppendDecision(c, d), i, j);
  }

  lemma PickAnswersApproved(c: Card, e: Event, at: Moment)
    requires IsResearchPick(e) && e.ts == at.clock.now
    requires CardFlow(FactsAt(c), c.decisions, at.clock, at.timeout).column.Todo?
    requires e.picked == BriefOrdered(Ordered(c.events, EventTs), c.decisions).hash
    requires InOrder(c, at.clock.now) && (forall i | 0 <= i < |c.decisions| :: c.decisions[i].ts < at.clock.now)
    ensures AnswersApprovedBrief(AppendEvent(c, e), |c.events|)
  {
    hide Filter, IndexOf, Any, Runs, Ordered, Blocks;
    OrderedIdentity(c.events, EventTs);
    assert BriefOrdered(c.events, c.decisions).approved;
    var j := ApprovedBriefStands(c.events, c.decisions);
    var h := c.events[j].hash;
    FilterSame(c.decisions, VerdictOn(h), VerdictBefore(h, at.clock.now));
    assert AnswersBriefAt(AppendEvent(c, e), |c.events|, j);
  }

  lemma AllAnswerKeptByEvent(c: Card, e: Event)
    requires AllAnswerApproved(c)
    requires IsResearchPick(e) ==> AnswersApprovedBrief(AppendEvent(c, e), |c.events|)
    requires (exists i | 0 <= i < |c.events| :: IsResearchPick(c.events[i])) ==> !Rescopes(e)
    ensures AllAnswerApproved(AppendEvent(c, e))
  {
    var c' := AppendEvent(c, e);
    forall i | 0 <= i < |c'.events| && IsResearchPick(c'.events[i]) ensures AnswersApprovedBrief(c', i) {
      if i < |c.events| {
        assert IsResearchPick(c.events[i]);
        AnswersKeptByEvent(c, e, i);
      }
    }
  }

  lemma AllAnswerKeptByDecision(c: Card, d: Decision)
    requires AllAnswerApproved(c) && InOrder(c, d.ts)
    ensures AllAnswerApproved(AppendDecision(c, d))
  {
    forall i | 0 <= i < |c.events| && IsResearchPick(c.events[i]) ensures AnswersApprovedBrief(AppendDecision(c, d), i) {
      AnswersKeptByDecision(c, d, i);
    }
  }

  lemma AllAnswerKeptBySettling(c: Card, receipts: map<RunId, Receipt>)
    requires AllAnswerApproved(c)
    ensures AllAnswerApproved(c.(receipts := receipts))
  {
    forall i | 0 <= i < |c.events| && IsResearchPick(c.events[i]) ensures AnswersApprovedBrief(c.(receipts := receipts), i) {
      var j :| 0 <= j < i && AnswersBriefAt(c, i, j);
      assert AnswersBriefAt(c.(receipts := receipts), i, j);
    }
  }

  lemma AllAnswerKept(c: Card, s: Step, now: int)
    requires AllAnswerApproved(c) && InOrder(c, now) && now < s.at.clock.now
    ensures AllAnswerApproved(Perform(c, s))
  {
    hide Allowed, AllAnswerApproved, AnswersApprovedBrief, CardFlow, Filter, BriefOrdered, Ordered;
    if Perform(c, s) != c {
      if s.act.Decide? {
        AllAnswerKeptByDecision(c, DecisionFrom(c, s.act, s.at));
      } else if s.act.Settle? {
        AllAnswerKeptBySettling(c, s.act.receipts);
      } else {
        var e := EventOf(c, s.act, s.at);
        if s.act.PickCard? && s.act.purpose.ResearchRun? {
          ResearchPickMeans(c, s.act, s.at);
          PickMeans(c, s.act, s.at);
          PickAnswersApproved(c, e, s.at);
        } else if s.act.EditCard? {
          if i :| 0 <= i < |c.events| && IsResearchPick(c.events[i]) {
            NoScopeEditAfterPick(c, s.act, s.at, i);
          }
        }
        AllAnswerKeptByEvent(c, e);
      }
    }
  }

  /** Every research run of a reachable card answers an approved brief. */
  lemma {:induction false} EveryResearchRunAnswersApprovedBrief(c: Card, start: int, steps: seq<Step>)
    requires Born(c, start) && Rising(start, steps)
    ensures AllAnswerApproved(Exec(c, steps))
  {
    hide Perform, AnswersApprovedBrief;
    if steps != [] {
      EveryResearchRunAnswersApprovedBrief(c, start, Init(steps));
      BornInOrder(c, start);
      ReachableInOrder(c, start, Init(steps));
      AllAnswerKept(Exec(c, Init(steps)), Last(steps), EndOf(start, Init(steps)));
    }
  }

  // ---------- the first copy of the last brief ----------

  /** Under a rising clock no two events after the creation's own two share an instant. */
  lemma {:induction false} EventsApart(c: Card, start: int, steps: seq<Step>)
    requires Born(c, start) && Rising(start, steps)
    ensures var es := Exec(c, steps).events;
      && |es| >= 2 && es[0] == c.events[0] && es[1] == c.events[1]
      && forall i, j | 0 <= i < j < |es| && j >= 2 :: es[i].ts < es[j].ts
  {
    hide Perform;
    if steps != [] {
      var d := Exec(c, Init(steps));
      EventsApart(c, start, Init(steps));
      BornInOrder(c, start);
      RisingNeverBack(start, Init(steps));
      ReachableInOrder(c, start, Init(steps));
      OneEventMore(d, Last(steps));
    }
  }

  lemma OneEventMore(c: Card, s: Step)
    ensures Perform(c, s).events == c.events
            || (exists e: Event :: Perform(c, s).events == c.events + [e] && e.ts == s.at.clock.now)
  {
    hide Allowed;
    if Perform(c, s) != c && !s.act.Decide? && !s.act.Settle? {
      assert Perform(c, s).events == c.events + [EventOf(c, s.act, s.at)];
    }
  }

  /** So the first event equal to the last brief is the last brief, and looking after the one or after the
      other is the same. */
  lemma FirstCopyIsLastBrief(c: Card, start: int, steps: seq<Step>)
    requires Born(c, start) && Rising(start, steps)
    ensures var es := Exec(c, steps).events;
      && Filter(es, IsBrief) != []
      && forall i | IndexOf(es, Last(Filter(es, IsBrief))) < i < |es| :: !IsBrief(es[i])
  {
    hide Exec, IndexOf;
    EventsApart(c, start, steps);
    var es := Exec(c, steps).events;
    FilterMembers(es, IsBrief);
    assert IsBrief(es[1]) && es[1] in Filter(es, IsBrief);
    var k := LastKept(es, IsBrief);
    var first := IndexOf(es, es[k]);
    assert es[k] in es && es[first] == es[k];
    assert es[0].CreatedEvent?;
    assert first == k;
  }
}
