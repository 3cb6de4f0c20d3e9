/** Forged events move nothing: a decision's name written into the ledger, or a hold by anyone
    but the reactor, changes no derived field but the revision count and the exception list. */
module Forged {
  import opened Seqs
  import opened Ledger

  predicate Genuine(e: Event) {
    !e.DecisionShaped? && (e.HeldEvent? ==> e.actor.Reactor?)
  }

  lemma AnyGenuine(events: seq<Event>, p: Event -> bool)
    requires forall e <- events :: p(e) ==> Genuine(e)
    ensures Any(Filter(events, Genuine), p) == Any(events, p)
  {
    FilterMembers(events, Genuine);
    if i :| 0 <= i < |events| && p(events[i]) {
      assert events[i] in events && events[i] in Filter(events, Genuine);
    }
    if i :| 0 <= i < |Filter(events, Genuine)| && p(Filter(events, Genuine)[i]) {
      assert Filter(events, Genuine)[i] in events;
    }
  }

  lemma {:induction false} FieldsIgnoreForged(f: Fields, events: seq<Event>)
    ensures FieldsAfter(f, Filter(events, Genuine)) == FieldsAfter(f, events)
  {
    if events != [] {
      FieldsIgnoreForged(f, Init(events));
      SnocParts(Filter(Init(events), Genuine), Last(events));
    }
  }

  lemma {:induction false} RunsIgnoreForged(events: seq<Event>, receipts: map<RunId, Receipt>)
    ensures RunsIn(Filter(events, Genuine), receipts) == RunsIn(events, receipts)
  {
    if events != [] {
      RunsIgnoreForged(Init(events), receipts);
      SnocParts(Filter(Init(events), Genuine), Last(events));
    }
  }

  lemma {:induction false} HoldsIgnoreForged(events: seq<Event>)
    ensures HoldTriggers(Filter(events, Genuine)) == HoldTriggers(events)
  {
    if events != [] {
      HoldsIgnoreForged(Init(events));
      SnocParts(Filter(Init(events), Genuine), Last(events));
    }
  }

  lemma {:induction false} RunBriefsIgnoreForged(events: seq<Event>)
    ensures RunBriefTimes(Filter(events, Genuine)) == RunBriefTimes(events)
  {
    if events != [] {
      RunBriefsIgnoreForged(Init(events));
      SnocParts(Filter(Init(events), Genuine), Last(events));
    }
  }

  lemma {:induction false} InputsIgnoreForged(events: seq<Event>)
    ensures EventInputs(Filter(events, Genuine)) == EventInputs(events)
  {
    if events != [] {
      InputsIgnoreForged(Init(events));
      SnocParts(Filter(Init(events), Genuine), Last(events));
      AnyGenuine(Init(events), IsAgentBrief);
    }
  }

  /** What follows the first copy of a genuine event is the same list with the forgeries dropped. */
  lemma AfterFirstCopy(events: seq<Event>, x: Event)
    requires x in events && Genuine(x)
    ensures x in Filter(events, Genuine)
    ensures Filter(events, Genuine)[IndexOf(Filter(events, Genuine), x) + 1..]
         == Filter(events[IndexOf(events, x) + 1..], Genuine)
  {
    hide Filter, Genuine, IndexOf;
    var at := IndexOf(events, x);
    var before, after := events[..at], events[at + 1..];
    assert events == before + [x] + after;
    FilterAppend(before + [x], after, Genuine);
    FilterSnoc(before, x, Genuine);
    KeptAreMembers(before, x);
    AfterSplit(Filter(before, Genuine), x, Filter(after, Genuine));
  }

  lemma KeptAreMembers(events: seq<Event>, x: Event)
    requires x !in events
    ensures x !in Filter(events, Genuine)
  {
    FilterMembers(events, Genuine);
  }

  lemma AfterSplit(before: seq<Event>, x: Event, after: seq<Event>)
    requires x !in before
    ensures x in before + [x] + after
    ensures (before + [x] + after)[IndexOf(before + [x] + after, x) + 1..] == after
  {
    hide IndexOf;
    IndexOfSplit(before, x, after);
    assert (before + [x] + after)[|before|] == x;
  }

  lemma RescopesGenuine(after: seq<Event>)
    ensures Any(Filter(after, Genuine), Rescopes) == Any(after, Rescopes)
  {
    AnyGenuine(after, Rescopes);
  }

  /** The brief state reads only the briefs and whether the scope changed after the last one. */
  lemma BriefAgrees(a: seq<Event>, b: seq<Event>, decisions: seq<Decision>)
    requires Filter(a, IsBrief) == Filter(b, IsBrief)
    requires Filter(a, IsBrief) != [] ==>
      var last := Last(Filter(a, IsBrief));
      last in a && last in b
      && Any(a[IndexOf(a, last) + 1..], Rescopes) == Any(b[IndexOf(b, last) + 1..], Rescopes)
    ensures BriefOrdered(a, decisions) == BriefOrdered(b, decisions)
  {
    hide Filter, IndexOf, Any, VerdictOn, Rescopes, IsBrief, Latest;
  }

  lemma LastBriefIsThere(events: seq<Event>)
    requires Filter(events, IsBrief) != []
    ensures Last(Filter(events, IsBrief)) in events && Genuine(Last(Filter(events, IsBrief)))
  {
    FilterMembers(events, IsBrief);
    var last := Last(Filter(events, IsBrief));
    assert last in Filter(events, IsBrief);
  }

  lemma BriefIgnoresForged(ordered: seq<Event>, decisions: seq<Decision>)
    ensures BriefOrdered(Filter(ordered, Genuine), decisions) == BriefOrdered(ordered, decisions)
  {
    FilterImplied(ordered, Genuine, IsBrief);
    hide Filter, IndexOf, Any, Genuine, Rescopes, IsBrief, BriefOrdered;
    if Filter(ordered, IsBrief) != [] {
      LastBriefIsThere(ordered);
      var last := Last(Filter(ordered, IsBrief));
      AfterFirstCopy(ordered, last);
      RescopesGenuine(ordered[IndexOf(ordered, last) + 1..]);
    }
    BriefAgrees(Filter(ordered, Genuine), ordered, decisions);
  }

  lemma WantsIgnoreForged(column: Column, brief: BriefState, runs: seq<CardRun>, events: seq<Event>,
                          decisions: seq<Decision>)
    ensures BriefWants(column, brief, runs, Filter(events, Genuine), decisions)
         == BriefWants(column, brief, runs, events, decisions)
  {
    OrderedFilter(events, EventTs, Genuine);
    FilterImplied(Ordered(events, EventTs), Genuine, IsQuestions);
    InputsIgnoreForged(Ordered(events, EventTs));
    RunBriefsIgnoreForged(events);
  }

  lemma FactsIgnoreForged(atCreate: Fields, events: seq<Event>, mine: seq<Decision>, receipts: map<RunId, Receipt>)
    ensures FactsOf(atCreate, Filter(events, Genuine), mine, receipts) == FactsOf(atCreate, events, mine, receipts)
  {
    var ordered := Ordered(events, EventTs);
    OrderedFilter(events, EventTs, Genuine);
    FieldsIgnoreForged(atCreate, ordered);
    BriefIgnoresForged(ordered, mine);
    RunsIgnoreForged(ordered, receipts);
    HoldsIgnoreForged(events);
  }

  /** The view with the two fields a forgery may reach blanked out. */
  function Unforgeable(v: View): View {
    v.(rev := 0, exceptions := [])
  }

  lemma AssembleAlike(id: Id, f: Facts, mine: seq<Decision>, main: Option<Hash>, clock: Clock, timeout: int,
                      wants: Wants, rev: nat, forged: seq<Exception>, rev': nat, forged': seq<Exception>)
    ensures Unforgeable(Assemble(id, f, mine, main, clock, timeout, wants, rev, forged))
         == Unforgeable(Assemble(id, f, mine, main, clock, timeout, wants, rev', forged'))
  {
  }

  lemma DeriveIgnoresForged(id: Id, atCreate: Fields, events: seq<Event>, mine: seq<Decision>,
                            receipts: map<RunId, Receipt>, main: Option<Hash>, clock: Clock, timeout: int)
    ensures Unforgeable(DeriveMine(id, atCreate, Filter(events, Genuine), mine, receipts, main, clock, timeout))
         == Unforgeable(DeriveMine(id, atCreate, events, mine, receipts, main, clock, timeout))
  {
    var genuine := Filter(events, Genuine);
    FactsIgnoreForged(atCreate, events, mine, receipts);
    var f := FactsOf(atCreate, events, mine, receipts);
    var column := CardColumn(f, mine, main, clock, timeout);
    WantsIgnoreForged(column, f.brief, f.runs, events, mine);
    AssembleAlike(id, f, mine, main, clock, timeout, BriefWants(column, f.brief, f.runs, events, mine),
                  |genuine|, ForgedDecisions(genuine) + ForgedHolds(genuine),
                  |events|, ForgedDecisions(events) + ForgedHolds(events));
  }

  /** Any two ledgers with the same genuine events derive alike, whatever the timestamps and
      wherever the forgeries stand. */
  lemma ForgedEventsMoveNothing(id: Id, atCreate: Fields, left: seq<Event>, right: seq<Event>,
                                decisions: seq<Decision>, receipts: map<RunId, Receipt>, main: map<Id, Hash>,
                                clock: Clock, timeout: int)
    requires Filter(left, Genuine) == Filter(right, Genuine)
    ensures Unforgeable(Derive(id, atCreate, left, decisions, receipts, main, clock, timeout))
         == Unforgeable(Derive(id, atCreate, right, decisions, receipts, main, clock, timeout))
  {
    var mine, onMain := Filter(decisions, OfCard(id)), if id in main then Some(main[id]) else None;
    DeriveIgnoresForged(id, atCreate, left, mine, receipts, onMain, clock, timeout);
    DeriveIgnoresForged(id, atCreate, right, mine, receipts, onMain, clock, timeout);
  }

  /** Inserting forged events anywhere is such a pair of ledgers. */
  lemma InsertedForgeries(before: seq<Event>, forged: seq<Event>, after: seq<Event>)
    requires forall e <- forged :: !Genuine(e)
    ensures Filter(before + forged + after, Genuine) == Filter(before + after, Genuine)
  {
    FilterAppend(before + forged, after, Genuine);
    FilterAppend(before, forged, Genuine);
    FilterNone(forged, Genuine);
    FilterAppend(before, after, Genuine);
  }

  /** The exception that reports a forged event. */
  function ReportOf(e: Event): Exception
    requires !Genuine(e)
  {
    if e.DecisionShaped? then ForgedDecision(e.shape) else ForgedHold(e.actor)
  }

  /** An exception is reported exactly when some forged event is what it reports, and there are as
      many as there are forgeries. */
  lemma {:induction false} EveryForgeryIsReported(events: seq<Event>)
    ensures forall x :: (x in ForgedDecisions(events) + ForgedHolds(events)
                         <==> exists e <- events :: !Genuine(e) && ReportOf(e) == x)
    ensures |ForgedDecisions(events)| + |ForgedHolds(events)| + |Filter(events, Genuine)| == |events|
  {
    if events != [] {
      var before, last := Init(events), Last(events);
      EveryForgeryIsReported(before);
      assert events == before + [last];
      forall x ensures x in ForgedDecisions(events) + ForgedHolds(events)
        <==> (x in ForgedDecisions(before) + ForgedHolds(before) || (!Genuine(last) && ReportOf(last) == x))
      {
      }
    }
  }
}
